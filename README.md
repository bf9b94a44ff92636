# Puddi runtime and demo helpers, modelled in Dafny

Puddi is a small 2D graphics runtime for an HTML canvas. Each `Puddi` instance belongs to one canvas. It holds:

- a camera: a uniform zoom `scale` and a pan `translate`. In *centered* mode the zoom is applied around the middle of the canvas.
- the timestamp of the last animation frame;
- the ordered list of top-level objects.

Each frame, Puddi passes the elapsed time to every object. It then clears the visible region and asks every object that can draw itself to draw. Every camera operation re-installs the camera on the canvas context ("refresh").

The demo page adds some pure helpers:

- a string escape;
- a key-code to direction mapping, with fixed move deltas;
- a mouse-wheel to zoom-factor rule.

Files:

- `js.dfy` (module `Js`): the few JavaScript value rules the code leans on: a value that is a number or `undefined`, the `<` comparison on it, and truthiness for `||`.
- `canvas2d.dfy` (module `Canvas2D`): the canvas and its 2D context, reduced to the surface size and the current transformation matrix. The matrix is a ghost field. Assigning `width` resets it to the identity. `transform(a,b,c,d,e,f)` multiplies it on the right. Both rules follow section 4.12.5 (the canvas element) of the WHATWG HTML Standard.
- `puddi.dfy` (module `PuddiRuntime`): the camera as a value (`CameraState`), with one function per camera operation and lemmas about what the camera does on screen. The class `Puddi` holds the runtime's fields (`scale`, `translate`, `time`, `centered`, `objects`) and updates them in place. Each of its methods states its new state in terms of those functions. Objects are opaque `PuddiObject(id, drawable)` values. The calls made on them and on the context come back as one ordered trace of events: `UpdateCall(id, elapsed)`, `ClearCall(rect)` and `DrawCall(id)`.
- `demo.dfy` (module `Demo`): the escape, the keydown mapping, the move deltas and the wheel factor, all as total functions stopping at the value they compute.

Arithmetic is on `real`. Where the code divides by the scale (`translateScaled`, `draw`), a precondition demands `scale != 0`. In JavaScript a zero scale would give Infinity or NaN instead.

## Model

| member | source | states |
|---|---|---|
| `Canvas2D.Canvas.ReassignWidth` | scripts/puddi/puddi.js:126 | re-assigning the width keeps the canvas size and resets the context matrix to the identity |
| `Canvas2D.Canvas.Transform` | scripts/puddi/puddi.js:128-129 | `transform` replaces the matrix by the old matrix times the given one |
| `Canvas2D.MultiplyApplies` | scripts/puddi/puddi.js:128-129 | the product matrix maps a point as the new matrix followed by the old one |
| `Canvas2D.IdentityIsNeutral` | scripts/puddi/puddi.js:126-129 | after a reset, one `transform` leaves exactly its own matrix; the identity moves no point |
| `PuddiRuntime.CenteredTranslate` | scripts/puddi/puddi.js:35-40 | the centered pan puts the world point -translate at the middle (w/2, h/2) of the canvas under the zoom |
| `PuddiRuntime.ModTranslate` | scripts/puddi/puddi.js:42-49 | uncentered, the pan installed is translate itself; centered, it is the one that shows -translate at mid-canvas |
| `PuddiRuntime.Puddi.constructor` | scripts/puddi/puddi.js:6-20 | a fresh runtime has scale 1, translate (0,0), time 0, no objects and centered off, on the given canvas |
| `PuddiRuntime.Puddi.Update` | scripts/puddi/puddi.js:22-33 | time becomes tFrame; the trace holds exactly one update call per object, in list order, each with tFrame minus the old time; nothing else changes; the result is undefined |
| `Js.LessThan` | scripts/puddi/puddi.js:86 | a comparison `< bound` can only hold for a number, never for undefined |
| `PuddiRuntime.Puddi.Frame` | scripts/puddi/puddi.js:79-93 | one frame's trace is all update calls in list order, then the clear, then the draw calls; the stop branch is proved unreachable; only the time changes |
| `PuddiRuntime.Puddi.Draw` | scripts/puddi/puddi.js:51-66 | the trace is the clear of (-mt.x/scale, -mt.y/scale, w/scale, h/scale) first, then the draw calls to the drawable objects in list order; nothing changes |
| `PuddiRuntime.ClearRectCoversCanvas` | scripts/puddi/puddi.js:53-58 | under the installed camera matrix, the cleared rectangle is exactly the canvas from (0,0) to (w,h) |
| `PuddiRuntime.DrawTraceAppend` | scripts/puddi/puddi.js:61-65 | the draw calls for a concatenated list are those of the first part followed by those of the second |
| `PuddiRuntime.DrawTraceMembers` | scripts/puddi/puddi.js:61-65 | an id is drawn if and only if some listed object with that id has a draw member |
| `PuddiRuntime.Puddi.AddObject` | scripts/puddi/puddi.js:110-112 | the object is appended at the end and the existing order is kept |
| `PuddiRuntime.ScreenPosition` | scripts/puddi/puddi.js:35-49 | uncentered, a world point p appears at scale*p + translate; centered, at mid-canvas + (p + translate)*scale |
| `PuddiRuntime.CenteredAnchorAtMiddle` | scripts/puddi/puddi.js:35-40 | in centered mode the world point -translate is shown at the middle of the canvas, whatever the scale |
| `PuddiRuntime.ScaleKeepsAnchor` | scripts/puddi/puddi.js:152-163 | zooming keeps the anchor point still on screen: mid-canvas in centered mode, the world origin otherwise |
| `PuddiRuntime.Puddi.Refresh` | scripts/puddi/puddi.js:125-129 | the context matrix becomes (scale,0,0,scale,mt.x,mt.y) whatever it was before; the canvas size is kept |
| `PuddiRuntime.RefreshTwice` | scripts/puddi/puddi.js:125-129 | two refreshes in a row keep the canvas size and leave exactly the camera's matrix, the same as one refresh |
| `PuddiRuntime.Puddi.Translate` | scripts/puddi/puddi.js:140-144 | translate grows by t componentwise; scale, centered, time and objects are unchanged; the context shows the new camera |
| `PuddiRuntime.TranslateShiftsScreen` | scripts/puddi/puddi.js:140-144 | translate(t) moves the picture by t, or by t*scale in centered mode |
| `PuddiRuntime.TranslatesAccumulate` | scripts/puddi/puddi.js:140-144 | n translate calls add the sum of their deltas and change nothing else |
| `PuddiRuntime.Puddi.TranslateScaled` | scripts/puddi/puddi.js:146-150 | translate grows by t/scale; nothing else changes; the context shows the new camera |
| `PuddiRuntime.TranslateScaledShiftsScreen` | scripts/puddi/puddi.js:146-150 | translateScaled(t) moves the picture by exactly t in centered mode, and by t/scale otherwise |
| `PuddiRuntime.Puddi.Scale` | scripts/puddi/puddi.js:152-155 | scale is multiplied by s; translate and the rest are unchanged; the context shows the new camera |
| `PuddiRuntime.Puddi.ScaleTranslated` | scripts/puddi/puddi.js:157-163 | the same new state as `Scale`: scale multiplied by s, translate unchanged |
| `PuddiRuntime.ScalesMultiply` | scripts/puddi/puddi.js:152-155 | n scale calls multiply the zoom by the product of their factors and keep the pan |
| `PuddiRuntime.Puddi.ClearTransform` | scripts/puddi/puddi.js:167-171 | scale becomes 1 and translate (0,0); objects, time and centered are untouched; the context shows the new camera |
| `PuddiRuntime.ClearedForgetsHistory` | scripts/puddi/puddi.js:167-171 | after clearTransform the camera is the initial one with the mode kept, whatever came before |
| `PuddiRuntime.Puddi.SetCentered` | scripts/puddi/puddi.js:173 | only the mode changes; the context is not refreshed |
| `PuddiRuntime.Puddi.GetScale` | scripts/puddi/puddi.js:165 | returns the current zoom, changing nothing |
| `PuddiRuntime.Puddi.GetTranslate` | scripts/puddi/puddi.js:175-177 | returns the current pan as a value, changing nothing |
| `Demo.Escape` | scripts/main.js:8-12 | the escaped string contains no raw newline and no raw tab |
| `Demo.EscapeIsPerCharMap` | scripts/main.js:8-12 | the three chained global replaces equal one per-character map: newline to `\n`, quote to `\"`, tab to `\t`, anything else copied |
| `Demo.EscapeOneChar` | scripts/main.js:8-12 | per character, no replacement is touched by a later pass |
| `Demo.EscapeLength` | scripts/main.js:8-12 | the output length is the input length plus the number of newlines, quotes and tabs |
| `Demo.EscapeNotInjective` | scripts/main.js:8-12 | a newline and backslash-n both escape to backslash-n, so no decoder round-trips every string |
| `Demo.KeyDirection` | scripts/main.js:142-161 | codes 37 and 65 map to left, 38 and 87 to up, 39 and 68 to right, 40 and 83 to down, in both directions of the if-and-only-if |
| `Demo.KeysForDirection` | scripts/main.js:142-161 | each direction is reached by exactly its arrow key and its letter key; every other code does nothing |
| `Demo.MoveDelta` | scripts/main.js:79-99 | each move is one step of MOVE_AMT = 10 along exactly one axis; x falls only for left and grows only for right, y falls only for up and grows only for down |
| `Demo.OppositeMovesCancel` | scripts/main.js:79-99 | left and right, and up and down, are opposite moves whose deltas cancel |
| `Demo.WheelDelta` | scripts/main.js:102 | the wheel delta is the wheel reading when it is a nonzero number, and minus the detail when it is absent or zero |
| `Demo.ZoomFactor` | scripts/main.js:103-108 | the factor is always 0.9 or 1.1 |
| `Demo.WheelZoomDirection` | scripts/main.js:101-109 | 0.9 if and only if the reading is negative: wheelDelta when nonzero, otherwise minus the detail; 1.1 otherwise |

## Left out

- The animation loop's scheduling is not modelled: `run`, `stop`, `resume` and the re-registration inside the frame callback use `requestAnimationFrame`, `cancelAnimationFrame` and `performance.now`. `Puddi.Frame` models one frame's body. The frame callback also captures a `stop` taken from a field that is never set. Because the stop branch is dead, this never matters.
- `removeObject` is not modelled. It reads `this.state._objects`, and `this.state` does not exist, so every call throws a TypeError.
- The duplicate fields `_objects`, `_scale` and `_translate` set by the constructor are never read, so they are not modelled. The `stopCycle` handle belongs to the scheduling.
- Canvas pixels are not modelled: `clearRect` and the bitmap clearing caused by assigning `width`. `Draw` returns the rectangle it would clear.
- The objects' own `update` and `draw` bodies are not modelled, and neither is anything they might do to the runtime while they run (for example adding objects during the loop). Objects are ids, and the calls are returned as traces.
- `PuddiRuntime.Puddi.GetTranslate`: returns a copy. In the code it returns the live vector, which later translations mutate in place, so aliasing is not captured.
- IEEE-754 rounding, Infinity and NaN are not modelled. A zero scale is excluded by precondition wherever the code divides by it.
- The scene graph (PuddiObject, Square, Triangle) and the Victor vector library are not part of this model.
- The DOM glue in `scripts/main.js` is not modelled: `init`, `getMousePos`, `rescale`, the ready and resize listeners, and `preventDefault`. The demo's update callback also uses `Math.sin` and PuddiObject.
- The move and wheel handlers act on a global `triangle` that is never defined. The model stops at the delta and the factor they would apply.
- Strings: a Dafny `string` is a sequence of Unicode scalar values, while a JavaScript string is a sequence of UTF-16 code units, so lone surrogates cannot be represented and `EscapeLength` counts characters rather than `.length`. The escape and its length law are unaffected, because newline, double quote and tab are each a single code unit.
- Objects without `update`: the update loop calls `o.update` unguarded (scripts/puddi/puddi.js:29-31), so an object lacking it would throw and cut the frame short, while `draw` is guarded by `if (o.draw)`. The model assumes every object has `update`.
- Wheel readings: NaN readings and non-numeric event fields are not modelled. An absent `wheelDelta` is `Undefined`, and `detail` is a number.

Facts about the code that the model keeps:

- Nothing keeps `scale` positive: `scale(0)` and negative factors are accepted.
- If `removeObject` read `this._state.objects`, its loop (`splice(i, 1)` then `i++`) would skip the element after each removal, so with two adjacent matches one copy would remain.
- `setCentered` does not call `refresh`, so the context keeps its old matrix until the next camera call.
