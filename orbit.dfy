/** The orbit controller as values: its state, the camera and transform it
    drives, and one function per operation. The class in module Component is
    proved to behave as these functions say. */
module Orbit {
  import opened Vectors
  import opened HostMath

  /** Gesture mode; the source encodes NONE, ROTATE and PAN as 1, 2 and 3. */
  datatype State = None | Rotate | Pan

  /** An option that may be null or undefined (`Absent`). A flag option is
      represented by its truthiness. */
  datatype Maybe<T> = Absent | Given(value: T)

  /** The configuration record handed to `construct`; a missing record is
      the record with every option absent. */
  datatype Options = Options(
    speed: Maybe<real>,
    zoomSpeed: Maybe<real>,
    allowZoom: Maybe<bool>,
    allowPan: Maybe<bool>,
    allowRotate: Maybe<bool>,
    target: Maybe<Vec3>)

  const NoOptions: Options := Options(Absent, Absent, Absent, Absent, Absent, Absent)

  /** Every field of the controller. */
  datatype Snapshot = Snapshot(
    speed: real,
    zoomSpeed: real,
    allowZoom: bool,
    allowPan: bool,
    allowRotate: bool,
    target: Vec3,
    offset: Vec3,
    pan: Vec3,
    scale: real,
    thetaDelta: real,
    phiDelta: real,
    state: State)

  /** The fields as the source's constructor leaves them, before
      `construct`: the three vectors at the origin. The source sets the
      remaining fields to null; `construct` overwrites every one of them. */
  const Unconstructed: Snapshot :=
    Snapshot(0.0, 0.0, false, false, false, Zero, Zero, Zero, 0.0, 0.0, 0.0, None)

  /** The camera and transform of the owning entity, as far as the controller
      reads or writes them. `facing` is the point last passed to `lookAt`;
      `needsUpdate` is the transform's dirty mark. */
  datatype View = View(
    position: Vec3,
    orthographic: bool,
    orthographicSize: real,
    fov: real,
    invWidth: real,
    invHeight: real,
    facing: Vec3,
    needsUpdate: bool)

  /** The camera's right and up axes, the world matrix columns (entries
      0-2 and 4-6) as the host reports them when a move event arrives; the
      host recomputes them after every `lookAt`. */
  datatype Axes = Axes(right: Vec3, up: Vec3)

  /** The controller together with the camera it drives. */
  datatype World = World(ctl: Snapshot, view: View)

  /** The persisted record written by `toJSON` and read by `fromJSON`. */
  datatype Json = Json(
    speed: real,
    zoomSpeed: real,
    allowZoom: bool,
    allowPan: bool,
    allowRotate: bool,
    target: Vec3,
    scale: real,
    thetaDelta: real,
    phiDelta: real,
    state: State)

  /** The input events the controller subscribes to. */
  datatype Event =
    | TouchStart(touches: nat)
    | TouchEnd
    | TouchMove(delta: Vec2, axes: Axes)
    | MouseUp
    | MouseDown(button: string)
    | MouseMove(delta: Vec2, axes: Axes)
    | Wheel(wheel: real)
  {
    /** Events that set the gesture mode. */
    predicate IsPressOrRelease() {
      TouchStart? || TouchEnd? || MouseUp? || MouseDown?
    }
  }

  const LeftMouse: string := "mouse0"
  const MiddleMouse: string := "mouse1"

  /** No rotation, pan or zoom is pending. */
  predicate Drained(s: Snapshot) {
    s.scale == 1.0 && s.thetaDelta == 0.0 && s.phiDelta == 0.0 && s.pan == Zero
  }

  /** The configuration fields agree. */
  predicate SameSettings(a: Snapshot, b: Snapshot) {
    a.speed == b.speed && a.zoomSpeed == b.zoomSpeed &&
    a.allowZoom == b.allowZoom && a.allowPan == b.allowPan && a.allowRotate == b.allowRotate
  }

  // ---------------------------------------------------------------- construct

  /** A numeric option keeps its value only when it exceeds epsilon. */
  function PositiveOr(v: Maybe<real>, default: real, m: MathOps): (r: real)
    requires m.Valid() && 0.0 < default
    ensures 0.0 < r
    ensures v.Given? && v.value > m.epsilon ==> r == v.value
    ensures r == default || (v.Given? && r == v.value && r > m.epsilon)
  {
    if v.Given? && v.value > m.epsilon then v.value else default
  }

  /** A flag option defaults to true when null or undefined. */
  function FlagOr(v: Maybe<bool>): (r: bool)
    ensures v.Absent? ==> r
    ensures v.Given? ==> r == v.value
  {
    match v
    case Absent => true
    case Given(b) => b
  }

  /** `construct(options)` applied to a controller in state `prev`: the
      target is copied from the options when given and kept otherwise, and
      the scratch offset and pending pan are not touched. */
  function Constructed(prev: Snapshot, o: Options, m: MathOps): (s: Snapshot)
    requires m.Valid()
    ensures 0.0 < s.speed && 0.0 < s.zoomSpeed
    ensures s.speed == PositiveOr(o.speed, 1.0, m) && s.zoomSpeed == PositiveOr(o.zoomSpeed, 2.0, m)
    ensures s.allowZoom == FlagOr(o.allowZoom) && s.allowPan == FlagOr(o.allowPan)
    ensures s.allowRotate == FlagOr(o.allowRotate)
    ensures s.target == if o.target.Given? then o.target.value else prev.target
    ensures s.offset == prev.offset && s.pan == prev.pan
    ensures s.scale == 1.0 && s.thetaDelta == 0.0 && s.phiDelta == 0.0 && s.state == None
  {
    Snapshot(
      PositiveOr(o.speed, 1.0, m),
      PositiveOr(o.zoomSpeed, 2.0, m),
      FlagOr(o.allowZoom),
      FlagOr(o.allowPan),
      FlagOr(o.allowRotate),
      match o.target case Given(t) => t case Absent => prev.target,
      prev.offset,
      prev.pan,
      1.0, 0.0, 0.0, None)
  }

  /** A controller built fresh has its vectors at the origin and no pending
      rotation, zoom or pan: construction leaves nothing pending. */
  lemma ConstructedFreshIsDrained(prev: Snapshot, o: Options, m: MathOps)
    requires m.Valid() && prev.pan == Zero
    ensures Drained(Constructed(prev, o, m)) && Constructed(prev, o, m).state == None
  {
  }

  /** `construct()` without options: speed 1, zoom speed 2, every
      interaction allowed, the target kept. */
  lemma ConstructedDefaults(prev: Snapshot, m: MathOps)
    requires m.Valid()
    ensures var s := Constructed(prev, NoOptions, m);
      s.speed == 1.0 && s.zoomSpeed == 2.0 && s.allowZoom && s.allowPan && s.allowRotate &&
      s.target == prev.target
  {
  }

  // ------------------------------------------------------------ gesture modes

  /** Mode chosen by a mouse press from the button name and the flags. */
  function MouseDownState(button: string, allowRotate: bool, allowPan: bool): (r: State)
    ensures r == Rotate <==> button == LeftMouse && allowRotate
    ensures r == Pan <==> button == MiddleMouse && allowPan
  {
    if button == LeftMouse && allowRotate then Rotate
    else if button == MiddleMouse && allowPan then Pan
    else None
  }

  /** Mode chosen by a touch start from the number of active touches; a
      single touch rotates whatever allowRotate says. */
  function TouchStartState(touches: nat, allowPan: bool): (r: State)
    ensures r == Rotate <==> touches == 1
    ensures r == Pan <==> touches == 2 && allowPan
  {
    if touches == 1 then Rotate
    else if touches == 2 && allowPan then Pan
    else None
  }

  // ------------------------------------------------------------------- update

  /** The two-stage clamp of the polar angle, first into [0, pi] and then
      into [epsilon, pi - epsilon]. */
  function ClampPolar(phi: real, m: MathOps): (r: real)
    requires m.Valid()
    ensures m.epsilon <= r <= m.pi - m.epsilon
    ensures m.epsilon <= phi <= m.pi - m.epsilon ==> r == phi
    ensures phi < m.epsilon ==> r == m.epsilon
    ensures phi > m.pi - m.epsilon ==> r == m.pi - m.epsilon
  {
    Max(m.epsilon, Min(m.pi - m.epsilon, Max(0.0, Min(m.pi, phi))))
  }

  /** Offset of the camera from the target before the update. */
  function CameraOffset(w: World): Vec3 {
    Sub(w.view.position, w.ctl.target)
  }

  /** Azimuth of an offset, measured with the source's argument order. */
  function AzimuthOf(o: Vec3, m: MathOps): real {
    m.atan2(o.x, o.y)
  }

  /** Polar angle of an offset, measured from the z axis. */
  function InclinationOf(o: Vec3, m: MathOps): real {
    m.atan2(m.sqrt(o.x * o.x + o.y * o.y), o.z)
  }

  /** Azimuth of the offset plus the pending azimuth delta. */
  function Azimuth(w: World, m: MathOps): real {
    AzimuthOf(CameraOffset(w), m) + w.ctl.thetaDelta
  }

  /** Polar angle of the offset plus the pending polar delta, clamped. */
  function Polar(w: World, m: MathOps): (phi: real)
    requires m.Valid()
    ensures m.epsilon <= phi <= m.pi - m.epsilon
  {
    ClampPolar(InclinationOf(CameraOffset(w), m) + w.ctl.phiDelta, m)
  }

  /** New distance from the target: the current one times the pending zoom. */
  function Radius(w: World, m: MathOps): real {
    Length(CameraOffset(w), m) * w.ctl.scale
  }

  /** Spherical to Cartesian, with the source's axis convention. */
  function Cartesian(radius: real, theta: real, phi: real, m: MathOps): Vec3 {
    Vec3(radius * m.sin(phi) * m.sin(theta), radius * m.sin(phi) * m.cos(theta), radius * m.cos(phi))
  }

  /** The orthographic size after zooming by `scale`: scaled for an
      orthographic camera, untouched for a perspective one. */
  function OrthographicSizeAfter(v: View, scale: real): real {
    if v.orthographic then v.orthographicSize * scale else v.orthographicSize
  }

  /** `OrbitControl_update`: consume every pending delta, move the target by
      the pending pan, place the camera on the sphere around the new target
      and point it at the target. */
  function Updated(w: World, m: MathOps): (r: World)
    requires m.Valid()
    ensures Drained(r.ctl)
    ensures r.ctl.target == Add(w.ctl.target, w.ctl.pan)
    ensures SameSettings(w.ctl, r.ctl) && r.ctl.state == w.ctl.state
    ensures r.ctl.offset == Cartesian(Radius(w, m), Azimuth(w, m), Polar(w, m), m)
    ensures r.view.position == Add(r.ctl.target, r.ctl.offset)
    ensures r.view.facing == r.ctl.target && r.view.needsUpdate
    ensures r.view.orthographicSize ==
      if w.view.orthographic then w.view.orthographicSize * w.ctl.scale else w.view.orthographicSize
    ensures r.view == w.view.(position := r.view.position, orthographicSize := r.view.orthographicSize,
                              facing := r.view.facing, needsUpdate := true)
  {
    var s := w.ctl;
    var offset := Cartesian(Radius(w, m), Azimuth(w, m), Polar(w, m), m);
    var target := Add(s.target, s.pan);
    var size := OrthographicSizeAfter(w.view, s.scale);
    World(
      s.(target := target, offset := offset, pan := Zero, scale := 1.0, thetaDelta := 0.0, phiDelta := 0.0),
      w.view.(position := Add(target, offset), orthographicSize := size, facing := target, needsUpdate := true))
  }

  // ---------------------------------------------------------------------- pan

  /** Distance to the target, scaled by the half field of view for a
      perspective camera and by half the orthographic size otherwise. */
  function PanDistance(w: World, m: MathOps): real {
    var d := Length(CameraOffset(w), m);
    if !w.view.orthographic then d * m.tan(m.degsToRads(w.view.fov * 0.5))
    else d * (w.view.orthographicSize * 0.5)
  }

  /** Pan displacement along the camera's right axis for a horizontal
      pointer delta `dx` at pan distance `d`. */
  function RightStep(v: View, a: Axes, dx: real, d: real): Vec3 {
    Scale(a.right, -2.0 * dx * d * v.invWidth)
  }

  /** Pan displacement along the camera's up axis for a vertical pointer
      delta `dy` at pan distance `d`. */
  function UpStep(v: View, a: Axes, dy: real, d: real): Vec3 {
    Scale(a.up, 2.0 * dy * d * v.invHeight)
  }

  /** The whole displacement one pan event adds. */
  function PanStep(w: World, delta: Vec2, a: Axes, m: MathOps): Vec3 {
    Add(RightStep(w.view, a, delta.x, PanDistance(w, m)), UpStep(w.view, a, delta.y, PanDistance(w, m)))
  }

  /** `OrbitControl_pan`: add the pointer delta, as a displacement in the
      camera's right/up plane, to the pending pan. */
  function Panned(w: World, delta: Vec2, a: Axes, m: MathOps): (r: Snapshot)
    ensures r == w.ctl.(pan := r.pan)
    ensures Sub(r.pan, w.ctl.pan) == PanStep(w, delta, a, m)
  {
    var d := PanDistance(w, m);
    w.ctl.(pan := Add(Add(w.ctl.pan, RightStep(w.view, a, delta.x, d)), UpStep(w.view, a, delta.y, d)))
  }

  /** A pan event without pointer motion adds nothing to the pending pan,
      whatever the camera and its axes. */
  lemma PanWithoutMotion(w: World, a: Axes, m: MathOps)
    ensures Panned(w, Vec2(0.0, 0.0), a, m) == w.ctl
  {
    var d := PanDistance(w, m);
    ScaleByZero(a.right, -2.0 * 0.0 * d * w.view.invWidth);
    ScaleByZero(a.up, 2.0 * 0.0 * d * w.view.invHeight);
    assert Add(Add(w.ctl.pan, Zero), Zero) == w.ctl.pan;
  }

  /** Scaling by zero gives the zero vector. */
  lemma ScaleByZero(v: Vec3, k: real)
    requires k == 0.0
    ensures Scale(v, k) == Zero
  {
  }

  // -------------------------------------------------------------- move events

  /** Rotation accumulated from a pointer delta while rotating. */
  function Rotated(w: World, delta: Vec2, m: MathOps): (r: Snapshot)
    ensures r == w.ctl.(thetaDelta := r.thetaDelta, phiDelta := r.phiDelta)
    ensures r.thetaDelta - w.ctl.thetaDelta == 2.0 * m.pi * delta.x * w.view.invWidth * w.ctl.speed
    ensures w.ctl.phiDelta - r.phiDelta == 2.0 * m.pi * delta.y * w.view.invHeight * w.ctl.speed
  {
    var s := w.ctl;
    s.(thetaDelta := s.thetaDelta + 2.0 * m.pi * delta.x * w.view.invWidth * s.speed,
       phiDelta := s.phiDelta - 2.0 * m.pi * delta.y * w.view.invHeight * s.speed)
  }

  /** A touch or mouse move: rotate or pan, then update; nothing at all in
      gesture mode None. */
  function Moved(w: World, delta: Vec2, a: Axes, m: MathOps): (r: World)
    requires m.Valid()
    ensures w.ctl.state == None ==> r == w
    ensures w.ctl.state != None ==> Drained(r.ctl)
    ensures SameSettings(w.ctl, r.ctl) && r.ctl.state == w.ctl.state
    ensures w.ctl.state == Rotate ==> r.ctl.target == Add(w.ctl.target, w.ctl.pan)
    ensures w.ctl.state == Pan ==>
      r.ctl.target == Add(w.ctl.target, Add(w.ctl.pan, PanStep(w, delta, a, m)))
  {
    match w.ctl.state
    case Rotate => Updated(World(Rotated(w, delta, m), w.view), m)
    case Pan => Updated(World(Panned(w, delta, a, m), w.view), m)
    case None => w
  }

  // --------------------------------------------------------------------- zoom

  /** The zoom step `pow(0.95, zoomSpeed)`. */
  function ZoomFactor(s: Snapshot, m: MathOps): real {
    m.pow(0.95, s.zoomSpeed)
  }

  /** The pending zoom after a wheel event: multiplied by the zoom step for
      a negative wheel value, divided by it otherwise (zero included). */
  function Zoomed(s: Snapshot, wheel: real, m: MathOps): (r: Snapshot)
    requires 0.0 < ZoomFactor(s, m)
    ensures r == s.(scale := r.scale)
    ensures wheel < 0.0 ==> r.scale == s.scale * ZoomFactor(s, m)
    ensures 0.0 <= wheel ==> r.scale * ZoomFactor(s, m) == s.scale
  {
    if wheel < 0.0 then s.(scale := s.scale * ZoomFactor(s, m))
    else s.(scale := s.scale / ZoomFactor(s, m))
  }

  /** A wheel event: zoom and update when zooming is allowed, and do
      nothing otherwise. */
  function Wheeled(w: World, wheel: real, m: MathOps): (r: World)
    requires m.Valid() && (w.ctl.allowZoom ==> 0.0 < ZoomFactor(w.ctl, m))
    ensures !w.ctl.allowZoom ==> r == w
    ensures w.ctl.allowZoom ==> Drained(r.ctl) && r.ctl.target == Add(w.ctl.target, w.ctl.pan)
    ensures SameSettings(w.ctl, r.ctl) && r.ctl.state == w.ctl.state
    ensures !w.view.orthographic ==> r.view.orthographicSize == w.view.orthographicSize
    ensures w.ctl.allowZoom && w.view.orthographic ==>
      r.view.orthographicSize == w.view.orthographicSize * Zoomed(w.ctl, wheel, m).scale
  {
    if w.ctl.allowZoom then Updated(World(Zoomed(w.ctl, wheel, m), w.view), m) else w
  }

  /** For an orthographic camera with nothing pending and a zoom speed the
      library maps to a step below one, a negative wheel value strictly
      shrinks the orthographic size and any other value strictly grows it. */
  lemma WheelScalesOrthographicSize(w: World, wheel: real, m: MathOps)
    requires m.Valid() && Drained(w.ctl) && w.ctl.allowZoom
    requires w.view.orthographic && 0.0 < w.view.orthographicSize
    requires 0.0 < ZoomFactor(w.ctl, m) < 1.0
    ensures wheel < 0.0 ==> Wheeled(w, wheel, m).view.orthographicSize < w.view.orthographicSize
    ensures 0.0 <= wheel ==> Wheeled(w, wheel, m).view.orthographicSize > w.view.orthographicSize
  {
    var f := ZoomFactor(w.ctl, m);
    var z := Zoomed(w.ctl, wheel, m).scale;
    var size := w.view.orthographicSize;
    var r := Wheeled(w, wheel, m).view.orthographicSize;
    assert r == size * z;
    if wheel < 0.0 {
      assert z == f;
      MulBelowOne(size, z, r);
    } else {
      assert z * f == 1.0;
      FactorAboveOne(z, f, 1.0);
      MulAboveOne(size, z, r);
    }
  }

  /** `p`, a positive `x` times a factor below one, is smaller than `x`. */
  lemma MulBelowOne(x: real, f: real, p: real)
    requires 0.0 < x && f < 1.0 && p == x * f
    ensures p < x
  {
  }

  /** `p`, a positive `x` times a factor above one, is larger than `x`. */
  lemma MulAboveOne(x: real, f: real, p: real)
    requires 0.0 < x && 1.0 < f && p == x * f
    ensures x < p
  {
  }

  /** A number that a factor in (0, 1) maps to one is above one. */
  lemma FactorAboveOne(z: real, f: real, p: real)
    requires 0.0 < f < 1.0 && p == z * f && p == 1.0
    ensures 1.0 < z
  {
  }

  // ----------------------------------------------------------- serialisation

  /** `toJSON`: the persisted fields of the controller. */
  function Encode(s: Snapshot): Json {
    Json(s.speed, s.zoomSpeed, s.allowZoom, s.allowPan, s.allowRotate,
         s.target, s.scale, s.thetaDelta, s.phiDelta, s.state)
  }

  /** `fromJSON`: every field is read back from the record, and the scratch
      offset and pending pan are zeroed. */
  function Decode(j: Json): (s: Snapshot)
    ensures Encode(s) == j
    ensures s.offset == Zero && s.pan == Zero
  {
    Snapshot(j.speed, j.zoomSpeed, j.allowZoom, j.allowPan, j.allowRotate,
             j.target, Zero, Zero, j.scale, j.thetaDelta, j.phiDelta, j.state)
  }

  /** Writing a controller and reading it back restores every persisted
      field; only the scratch offset and the pending pan are lost. */
  lemma DecodeEncode(s: Snapshot)
    ensures Decode(Encode(s)) == s.(offset := Zero, pan := Zero)
  {
  }

  // ------------------------------------------------------------ event traces

  /** The handler an event is delivered to. */
  function Dispatch(w: World, e: Event, m: MathOps): (r: World)
    requires m.Valid() && (e.Wheel? && w.ctl.allowZoom ==> 0.0 < ZoomFactor(w.ctl, m))
    ensures SameSettings(w.ctl, r.ctl)
    ensures Drained(w.ctl) ==> Drained(r.ctl)
    ensures !e.IsPressOrRelease() ==> r.ctl.state == w.ctl.state
    ensures e.TouchEnd? || e.MouseUp? ==> r == w.(ctl := w.ctl.(state := None))
    ensures e.IsPressOrRelease() ==> r == w.(ctl := w.ctl.(state := r.ctl.state))
  {
    match e
    case TouchStart(n) => w.(ctl := w.ctl.(state := TouchStartState(n, w.ctl.allowPan)))
    case TouchEnd => w.(ctl := w.ctl.(state := None))
    case TouchMove(d, a) => Moved(w, d, a, m)
    case MouseUp => w.(ctl := w.ctl.(state := None))
    case MouseDown(b) => w.(ctl := w.ctl.(state := MouseDownState(b, w.ctl.allowRotate, w.ctl.allowPan)))
    case MouseMove(d, a) => Moved(w, d, a, m)
    case Wheel(x) => Wheeled(w, x, m)
  }

  /** The zoom step is defined wherever a sequence of events divides by
      it: only a wheel event with zooming allowed does. */
  predicate ZoomDefinedFor(s: Snapshot, es: seq<Event>, m: MathOps) {
    (exists i :: 0 <= i < |es| && es[i].Wheel?) && s.allowZoom ==> 0.0 < ZoomFactor(s, m)
  }

  /** The events delivered one after another, in order. */
  function Run(w: World, es: seq<Event>, m: MathOps): World
    requires m.Valid() && ZoomDefinedFor(w.ctl, es, m)
    decreases |es|
  {
    if es == [] then w else Run(Dispatch(w, es[0], m), es[1..], m)
  }

  /** No sequence of events changes the configuration. */
  lemma {:induction false} RunKeepsSettings(w: World, es: seq<Event>, m: MathOps)
    requires m.Valid() && ZoomDefinedFor(w.ctl, es, m)
    ensures SameSettings(w.ctl, Run(w, es, m).ctl)
    decreases |es|
  {
    if es != [] {
      RunKeepsSettings(Dispatch(w, es[0], m), es[1..], m);
    }
  }

  /** Pending deltas never survive an event: from a drained controller, every
      sequence of events ends in a drained controller. */
  lemma {:induction false} RunKeepsDrained(w: World, es: seq<Event>, m: MathOps)
    requires m.Valid() && ZoomDefinedFor(w.ctl, es, m) && Drained(w.ctl)
    ensures Drained(Run(w, es, m).ctl)
    decreases |es|
  {
    if es != [] {
      RunKeepsDrained(Dispatch(w, es[0], m), es[1..], m);
    }
  }

  /** The gesture mode changes only on press and release events. */
  lemma {:induction false} RunKeepsStateWithoutPresses(w: World, es: seq<Event>, m: MathOps)
    requires m.Valid() && ZoomDefinedFor(w.ctl, es, m)
    requires forall i :: 0 <= i < |es| ==> !es[i].IsPressOrRelease()
    ensures Run(w, es, m).ctl.state == w.ctl.state
    decreases |es|
  {
    if es != [] {
      RunKeepsStateWithoutPresses(Dispatch(w, es[0], m), es[1..], m);
    }
  }

  /** In gesture mode None, touch and mouse moves leave controller and
      camera exactly as they were, however many arrive. */
  lemma {:induction false} IdleMovesChangeNothing(w: World, es: seq<Event>, m: MathOps)
    requires m.Valid() && w.ctl.state == None
    requires forall i :: 0 <= i < |es| ==> es[i].TouchMove? || es[i].MouseMove?
    ensures Run(w, es, m) == w
    decreases |es|
  {
    if es != [] {
      IdleMovesChangeNothing(Dispatch(w, es[0], m), es[1..], m);
    }
  }
}
