/** The OrbitControl component: a controller whose event handlers update its
    fields in place and recompute the camera. Every method is proved to do
    what the matching function of module Orbit says, so the properties proved
    there hold of the component. */
module Component {
  import opened Vectors
  import opened HostMath
  import opened Orbit

  class OrbitControl {
    var speed: real
    var zoomSpeed: real
    var allowZoom: bool
    var allowPan: bool
    var allowRotate: bool
    var target: Vec3
    var offset: Vec3      // scratch: camera position minus target
    var pan: Vec3         // pending pan displacement
    var scale: real       // pending zoom multiplier
    var thetaDelta: real  // pending azimuth change
    var phiDelta: real    // pending polar change
    var state: State

    /** The controller's fields as one value. */
    function Model(): Snapshot
      reads this
    {
      Snapshot(speed, zoomSpeed, allowZoom, allowPan, allowRotate,
               target, offset, pan, scale, thetaDelta, phiDelta, state)
    }

    /** A new component configured by `construct(options)`; its vectors
        start at the origin. */
    constructor (options: Options, m: MathOps)
      requires m.Valid()
      ensures Model() == Constructed(Unconstructed, options, m)
    {
      target, offset, pan := Zero, Zero, Zero;
      speed := PositiveOr(options.speed, 1.0, m);
      zoomSpeed := PositiveOr(options.zoomSpeed, 2.0, m);
      allowZoom := FlagOr(options.allowZoom);
      allowPan := FlagOr(options.allowPan);
      allowRotate := FlagOr(options.allowRotate);
      if options.target.Given? {
        target := options.target.value;
      }
      scale, thetaDelta, phiDelta, state := 1.0, 0.0, 0.0, None;
    }

    /** `construct(options)` on an existing component. */
    method Construct(options: Options, m: MathOps)
      requires m.Valid()
      modifies this
      ensures Model() == Constructed(old(Model()), options, m)
    {
      speed := PositiveOr(options.speed, 1.0, m);
      zoomSpeed := PositiveOr(options.zoomSpeed, 2.0, m);
      allowZoom := FlagOr(options.allowZoom);
      allowPan := FlagOr(options.allowPan);
      allowRotate := FlagOr(options.allowRotate);
      if options.target.Given? {
        target := options.target.value;
      }
      scale := 1.0;
      thetaDelta := 0.0;
      phiDelta := 0.0;
      state := None;
    }

    /** `toJSON`: the persisted record of this component. */
    function ToJson(): (j: Json)
      reads this
      ensures Decode(j) == Model().(offset := Zero, pan := Zero)
    {
      Encode(Model())
    }

    /** `fromJSON`: restore every persisted field and zero the scratch
        offset and the pending pan. */
    method FromJson(j: Json)
      modifies this
      ensures Model() == Decode(j)
      ensures ToJson() == j
    {
      speed := j.speed;
      zoomSpeed := j.zoomSpeed;
      allowZoom := j.allowZoom;
      allowPan := j.allowPan;
      allowRotate := j.allowRotate;
      target := j.target;
      offset := Zero;
      pan := Zero;
      scale := j.scale;
      thetaDelta := j.thetaDelta;
      phiDelta := j.phiDelta;
      state := j.state;
    }

    method SetTarget(t: Vec3)
      modifies this`target
      ensures target == t
    {
      target := t;
    }

    /** `OrbitControl_update`: apply and reset every pending delta and move
        the camera. */
    method Update(view: View, m: MathOps) returns (view': View)
      requires m.Valid()
      modifies this
      ensures Model() == Updated(World(old(Model()), view), m).ctl
      ensures view' == Updated(World(old(Model()), view), m).view
    {
      ghost var w := World(Model(), view);
      offset := Sub(view.position, target);
      var theta := AzimuthOf(offset, m);
      var phi := InclinationOf(offset, m);

      theta := theta + thetaDelta;
      phi := phi + phiDelta;

      phi := Max(0.0, Min(m.pi, phi));
      phi := Max(m.epsilon, Min(m.pi - m.epsilon, phi));

      var radius := Length(offset, m) * scale;
      assert offset == CameraOffset(w);
      assert theta == Azimuth(w, m) && phi == Polar(w, m) && radius == Radius(w, m);

      var size := view.orthographicSize;
      if view.orthographic {
        size := view.orthographicSize * scale;
      }
      assert size == OrthographicSizeAfter(w.view, w.ctl.scale);

      target := Add(target, pan);

      offset := Cartesian(radius, theta, phi, m);

      view' := view.(orthographicSize := size, position := Add(target, offset), needsUpdate := true,
                     facing := target);

      scale := 1.0;
      thetaDelta := 0.0;
      phiDelta := 0.0;
      pan := Zero;
    }

    /** `OrbitControl_pan`: add the pointer delta, mapped onto the camera's
        right and up axes, to the pending pan. */
    method PanBy(delta: Vec2, view: View, axes: Axes, m: MathOps)
      modifies this`pan
      ensures Model() == Panned(World(old(Model()), view), delta, axes, m)
    {
      ghost var w := World(Model(), view);
      var panOffset := Sub(view.position, target);
      var targetDistance := Length(panOffset, m);
      if !view.orthographic {
        targetDistance := targetDistance * m.tan(m.degsToRads(view.fov * 0.5));
        assert targetDistance == PanDistance(w, m);
        panOffset := RightStep(view, axes, delta.x, targetDistance);
        pan := Add(pan, panOffset);
        panOffset := UpStep(view, axes, delta.y, targetDistance);
        pan := Add(pan, panOffset);
      } else {
        targetDistance := targetDistance * (view.orthographicSize * 0.5);
        assert targetDistance == PanDistance(w, m);
        panOffset := RightStep(view, axes, delta.x, targetDistance);
        pan := Add(pan, panOffset);
        panOffset := UpStep(view, axes, delta.y, targetDistance);
        pan := Add(pan, panOffset);
      }
    }

    method OnTouchStart(touches: nat)
      modifies this`state
      ensures Model() == old(Model()).(state := TouchStartState(touches, allowPan))
    {
      if touches == 1 {
        state := Rotate;
      } else if touches == 2 && allowPan {
        state := Pan;
      } else {
        state := None;
      }
    }

    method OnTouchEnd()
      modifies this`state
      ensures Model() == old(Model()).(state := None)
    {
      state := None;
    }

    method OnTouchMove(delta: Vec2, view: View, axes: Axes, m: MathOps) returns (view': View)
      requires m.Valid()
      modifies this
      ensures World(Model(), view') == Moved(World(old(Model()), view), delta, axes, m)
    {
      view' := Move(delta, view, axes, m);
    }

    method OnMouseUp()
      modifies this`state
      ensures Model() == old(Model()).(state := None)
    {
      state := None;
    }

    method OnMouseDown(button: string)
      modifies this`state
      ensures Model() == old(Model()).(state := MouseDownState(button, allowRotate, allowPan))
    {
      if button == LeftMouse && allowRotate {
        state := Rotate;
      } else if button == MiddleMouse && allowPan {
        state := Pan;
      } else {
        state := None;
      }
    }

    method OnMouseMove(delta: Vec2, view: View, axes: Axes, m: MathOps) returns (view': View)
      requires m.Valid()
      modifies this
      ensures World(Model(), view') == Moved(World(old(Model()), view), delta, axes, m)
    {
      view' := Move(delta, view, axes, m);
    }

    /** The body the touch-move and mouse-move handlers share: rotate or pan
        by the delta and update, or do nothing outside a gesture. */
    method Move(delta: Vec2, view: View, axes: Axes, m: MathOps) returns (view': View)
      requires m.Valid()
      modifies this
      ensures World(Model(), view') == Moved(World(old(Model()), view), delta, axes, m)
    {
      ghost var w := World(Model(), view);
      if state == Rotate {
        thetaDelta := thetaDelta + 2.0 * m.pi * delta.x * view.invWidth * speed;
        phiDelta := phiDelta - 2.0 * m.pi * delta.y * view.invHeight * speed;
        assert Model() == Rotated(w, delta, m);
        view' := Update(view, m);
      } else if state == Pan {
        PanBy(delta, view, axes, m);
        assert Model() == Panned(w, delta, axes, m);
        view' := Update(view, m);
      } else {
        view' := view;
      }
    }

    method OnMouseWheel(wheel: real, view: View, m: MathOps) returns (view': View)
      requires m.Valid() && (allowZoom ==> 0.0 < m.pow(0.95, zoomSpeed))
      modifies this
      ensures World(Model(), view') == Wheeled(World(old(Model()), view), wheel, m)
    {
      ghost var s := Model();
      view' := view;
      if allowZoom {
        if wheel < 0.0 {
          scale := scale * m.pow(0.95, zoomSpeed);
          assert Model() == Zoomed(s, wheel, m);
          view' := Update(view, m);
        } else {
          scale := scale / m.pow(0.95, zoomSpeed);
          assert Model() == Zoomed(s, wheel, m);
          view' := Update(view, m);
        }
      }
    }
  }
}
