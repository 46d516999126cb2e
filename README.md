# OrbitControl, modelled in Dafny

This project models `OrbitControl`, a scene-graph component that orbits a camera around a target point. A drag with one pointer rotates the camera. A middle-button drag or a two-finger drag pans camera and target together. The mouse wheel zooms by scaling the camera's distance from the target, and for an orthographic camera also its orthographic size. The component collects pending changes:

- an azimuth delta and a polar delta;
- a zoom multiplier (`scale`);
- a pan displacement.

A move event during a gesture, and a wheel event while zooming is allowed, then run the update step. A move in gesture mode NONE does nothing, and neither does a wheel event with zooming disallowed. The update step:

- measures the camera's offset from the target in spherical coordinates and adds the pending deltas;
- clamps the polar angle into [EPSILON, PI - EPSILON];
- moves the target by the pending pan;
- places the camera on the sphere around the new target;
- points the camera at the target;
- resets everything pending.

Files:

- `vectors.dfy` (module `Vectors`): 2D pointer deltas, 3D points and the vector arithmetic used.
- `host_math.dfy` (module `HostMath`): the math library that the component calls. Its functions (`atan2`, `sqrt`, `sin`, `cos`, `tan`, `pow`, `degsToRads`) and its constants `PI` and `EPSILON` are passed in as a `MathOps` value. The model assumes two things about them:

- `0 < EPSILON < PI / 2`, everywhere;
- `0 < pow(0.95, zoomSpeed)`, only where a wheel event with zooming allowed divides by it (`Orbit.Zoomed`, `Orbit.Wheeled`, `Orbit.Dispatch`, `Orbit.Run` and its lemmas, through `Orbit.ZoomDefinedFor`, and `OnMouseWheel`).

`Orbit.WheelScalesOrthographicSize` further takes that factor to be below one, as it is for a positive zoom speed.
- `orbit.dfy` (module `Orbit`): the component as values:
  - a `Snapshot` of all its fields;
  - the camera and transform it drives (`View`);
  - the camera axes the host reports when a move event arrives (`Axes`);
  - one function per operation: construct, update, pan, the seven event handlers, toJSON and fromJSON;
  - an event dispatcher and a fold over event sequences.

  The properties are proved here. The main ones:
  - no event sequence changes the configuration;
  - pending deltas never survive an event;
  - only press and release events change the gesture mode;
  - moves outside a gesture change nothing;
  - the polar angle always lands in the band;
  - wheel direction decides whether an orthographic camera shrinks or grows;
  - fromJSON inverts toJSON on the persisted fields.
- `component.dfy` (module `Component`): the component as a class with the same fields. Each method updates the fields in place. Each method except `SetTarget` is proved to produce exactly the state, and the camera, that the matching `Orbit` function describes. `SetTarget` has no such function; its contract sets the target and its frame allows nothing else to change.

Two points where the behaviour may surprise a reader:

- **Wheel direction.** A negative wheel value multiplies `scale` by `pow(0.95, zoomSpeed)`. That factor is below one for a positive zoom speed, so the camera moves closer: a negative wheel value zooms in. Any other value, zero included, divides by the factor.
- **Touch start.** Touch start sets the rotate mode for one touch without consulting `allowRotate`. Mouse down does consult it. The model follows the code in both cases.

## Model

| member | source | states |
|---|---|---|
| Orbit.PositiveOr | src/OrbitControl.js:77-78 | a numeric option is kept exactly when it is given and exceeds EPSILON, otherwise the default is used; the result is always positive |
| Orbit.FlagOr | src/OrbitControl.js:80-82 | a flag option defaults to true when absent and is its own truth value otherwise |
| Orbit.Constructed | src/OrbitControl.js:71-94 | construct sets speed and zoom speed to positive values (defaults 1 and 2), sets the three flags, copies the target only when one is given, leaves the offset and pending pan alone, and resets scale to 1, both deltas to 0 and the mode to NONE |
| Orbit.ConstructedDefaults | src/OrbitControl.js:75-86 | construct without options yields speed 1, zoom speed 2, all interactions allowed and the target unchanged |
| Orbit.ConstructedFreshIsDrained | src/OrbitControl.js:36-43 | a component built with its pan at the origin has nothing pending after construct and is in mode NONE |
| Component.OrbitControl.constructor | src/OrbitControl.js:24-94 | a new component with its vectors at the origin, configured by construct, is in exactly the state Orbit.Constructed describes |
| Component.OrbitControl.Construct | src/OrbitControl.js:71-94 | construct on an existing component leaves it in exactly the state Orbit.Constructed gives for its previous state |
| Orbit.MouseDownState | src/OrbitControl.js:330-338 | mouse down enters ROTATE if and only if the button is mouse0 and rotation is allowed, and PAN if and only if it is mouse1 and panning is allowed; otherwise NONE |
| Component.OrbitControl.OnMouseDown | src/OrbitControl.js:330-338 | only the mode changes, to the mode Orbit.MouseDownState chooses |
| Orbit.TouchStartState | src/OrbitControl.js:293-303 | touch start enters ROTATE if and only if exactly one touch is active, and PAN if and only if exactly two are active and panning is allowed |
| Component.OrbitControl.OnTouchStart | src/OrbitControl.js:293-303 | only the mode changes, to the mode Orbit.TouchStartState chooses |
| Component.OrbitControl.OnTouchEnd | src/OrbitControl.js:305-307 | only the mode changes, to NONE |
| Component.OrbitControl.OnMouseUp | src/OrbitControl.js:323-325 | only the mode changes, to NONE |
| Orbit.ClampPolar | src/OrbitControl.js:229-230 | the two-stage clamp always lands in [EPSILON, PI - EPSILON], leaves an angle inside that band alone, and maps an angle below or above it to the nearer bound |
| HostMath.Max | src/OrbitControl.js:229-230 | the larger of two numbers: it bounds both and is one of them |
| HostMath.Min | src/OrbitControl.js:229-230 | the smaller of two numbers: both bound it and it is one of them |
| Orbit.Polar | src/OrbitControl.js:224-230 | the polar angle the update places the camera at lies in [EPSILON, PI - EPSILON] |
| Orbit.Updated | src/OrbitControl.js:211-253 | update leaves nothing pending, moves the target by the pending pan, keeps configuration and mode, sets the offset to the spherical point given by the scaled radius and the adjusted angles, puts the camera at target plus offset facing the target and marks it for update, scales the orthographic size only for an orthographic camera, and changes no other field of View |
| Component.OrbitControl.Update | src/OrbitControl.js:211-253 | the fields and the returned camera are exactly those Orbit.Updated gives |
| Orbit.Panned | src/OrbitControl.js:255-291 | pan changes only the pending pan, and adds to it exactly the right-axis step plus the up-axis step for the pointer delta at the pan distance for the camera type, along the axes the host reports |
| Orbit.PanWithoutMotion | src/OrbitControl.js:273-289 | a pan event without pointer motion leaves the controller exactly as it was, whatever the camera and its axes |
| Component.OrbitControl.PanBy | src/OrbitControl.js:255-291 | the fields after pan are exactly those Orbit.Panned gives |
| Orbit.Rotated | src/OrbitControl.js:313-315 | a rotating move changes only the two deltas: the azimuth delta grows by 2·PI·dx·invWidth·speed and the polar delta shrinks by 2·PI·dy·invHeight·speed |
| Orbit.Moved | src/OrbitControl.js:309-321 | a move in mode NONE changes nothing at all; in ROTATE or PAN it leaves nothing pending and keeps configuration and mode; the target moves by the old pending pan (ROTATE) or by the old pan plus this event's pan step (PAN) |
| Component.OrbitControl.Move | src/OrbitControl.js:340-352 | the fields and the returned camera are exactly those Orbit.Moved gives |
| Component.OrbitControl.OnTouchMove | src/OrbitControl.js:309-321 | the fields and the returned camera are exactly those Orbit.Moved gives |
| Component.OrbitControl.OnMouseMove | src/OrbitControl.js:340-352 | the fields and the returned camera are exactly those Orbit.Moved gives |
| Orbit.Zoomed | src/OrbitControl.js:356-362 | only the pending zoom changes: a negative wheel value multiplies it by pow(0.95, zoomSpeed), any other value divides it by that factor |
| Orbit.Wheeled | src/OrbitControl.js:354-364 | with zooming disallowed the wheel changes nothing; otherwise nothing stays pending, the target moves by the pending pan, configuration and mode are kept, and an orthographic camera's size is multiplied by the new zoom while a perspective camera's is untouched |
| Component.OrbitControl.OnMouseWheel | src/OrbitControl.js:354-364 | the fields and the returned camera are exactly those Orbit.Wheeled gives |
| Orbit.WheelScalesOrthographicSize | src/OrbitControl.js:234-236 | with nothing pending and a zoom factor in (0, 1), a negative wheel value strictly shrinks an orthographic camera's size and any other value strictly grows it |
| Component.OrbitControl.ToJson | src/OrbitControl.js:162-181 | the record written, read back, gives the component's state except for the scratch offset and pending pan |
| Orbit.Decode | src/OrbitControl.js:183-204 | reading a record restores every persisted field, so writing the result again gives the same record, and zeroes the offset and pending pan |
| Component.OrbitControl.FromJson | src/OrbitControl.js:183-204 | after reading a record the fields are exactly those Orbit.Decode gives, and writing them out again gives the same record |
| Orbit.DecodeEncode | src/OrbitControl.js:162-204 | writing a component and reading it back loses only the scratch offset and the pending pan |
| Component.OrbitControl.SetTarget | src/OrbitControl.js:206-209 | setTarget sets the target to the given point and changes nothing else |
| Orbit.Dispatch | src/OrbitControl.js:45-66 | no event changes the configuration; an event leaves a component with nothing pending still with nothing pending; only press and release events change the mode; a press or release changes nothing but the mode, and a release sets it to NONE |
| Orbit.RunKeepsSettings | src/OrbitControl.js:293-364 | no sequence of events changes speed, zoom speed or the three flags |
| Orbit.RunKeepsDrained | src/OrbitControl.js:293-364 | from a state with nothing pending, every sequence of events ends with nothing pending |
| Orbit.RunKeepsStateWithoutPresses | src/OrbitControl.js:293-364 | a sequence of move and wheel events never changes the gesture mode |
| Orbit.IdleMovesChangeNothing | src/OrbitControl.js:309-352 | in mode NONE, any sequence of touch and mouse moves leaves component and camera exactly as they were |

## Left out

- `init` and `clear` subscribe the handlers to the input system and unsubscribe them, choosing touch or mouse events by `environment.mobile`. Subscription is I/O. `Orbit.Dispatch` and `Orbit.Run` deliver any event to its handler instead.
- `destructor` only nulls the fields for reuse. It is not modelled.
- The super-calls into the base `Component` (`construct`, `toJSON`, `fromJSON`) are not modelled. The scene-graph package is not part of this model.
- The handlers read the entity's components through `getComponent`. The host calls that the update and pan steps make are not modelled the way the host runs them:
  - `getWorldMatrix` gives the camera's right and up axes; each move event carries them as an `Axes` value that the host reports.
  - `setNeedsUpdate` is a dirty flag (`View.needsUpdate`).
  - `lookAt` is recorded as the point faced (`View.facing`); the orientation it computes is not modelled.
- Orbit.Run: the axes each move event carries are taken as given. The model does not tie them to the orientation that the previous update's `lookAt` left.
  - `setOrthographicSize` assigns the size.
- World and local position are the same value. The update step reads `getPosition` and writes `getLocalPosition`; the pan step reads `getLocalPosition`. So the model is for a camera entity without a moving parent.
- The math library's functions and its `PI` and `EPSILON` are uninterpreted parameters (`MathOps`), and the mathf package is not part of this model. Nothing depends on the values of these functions, so the update step does not prove two things: that it keeps the camera's distance times `scale`, and that zoom is monotone for a perspective camera.
- Floating point is modelled as exact reals: rounding, NaN and infinities are not represented.
- `Component.OrbitControl.OnMouseWheel` and `Orbit.Wheeled` require `0 < pow(0.95, zoomSpeed)` when zooming is allowed. `Orbit.Dispatch` requires it for such wheel events only, and `Orbit.Run` only for sequences that contain a wheel event. Under real arithmetic with an uninterpreted `pow`, a zero factor would make the division undefined. The host's `pow` of 0.95 to a positive power is positive, but it can underflow to zero, and that case is excluded.
- The JavaScript constructor leaves the numeric fields and `_state` null until `construct`. The model starts them at 0, false and NONE (`Orbit.Unconstructed`); `construct` overwrites each one.
- Options are typed: an option that is a string or some other non-number value is not modelled. A flag option stands for its truthiness. A target option counts as given when present (`options.target` truthy).
- `_state` is an enumeration, so a record read by `fromJSON` cannot carry a mode value other than NONE, ROTATE or PAN.
- `toJSON` writes the fields into the record passed in but returns the component itself, and the record shares the target vector rather than copying it. The model returns the record as a value, so neither the returned object nor that aliasing is represented.
- The module-level scratch vector that `OrbitControl_pan` reuses across calls is a local in `Component.OrbitControl.PanBy`. Its leftover contents are never read.
- The touch count is a natural number (`touches._array.length`); the touch list itself is not modelled.
