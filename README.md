# Sketch layer: selection, gesture gating and transform composition

A sketch layer is one movable, rotatable, scalable element on a sketchpad. It shows one of
three payloads: a raster image, an SVG, or a stock-drawn path. Each payload kind has a fixed
`touchable` capability: an image is not touchable, an SVG and a stock path are.

At most one layer is selected at a time. The shared sketchpad holds that selection as a
single optional reference, so exclusivity holds by construction.

A layer owns four gesture recognizers: tap, pan, pinch and rotate.

- **Admission.** `gestureRecognizerShouldBegin` decides whether a recognizer may start.
  - Tap is always admitted.
  - The layer's own pan, pinch and rotate recognizers are admitted only while the layer is
    the selected one.
  - Any other recognizer is refused, such as the system's swipe-to-dismiss.
- **Handlers.** Tap has no guard: it toggles the selection whatever the payload. Pan, pinch
  and rotate apply a second, narrower guard: the payload is touchable *and* the layer is
  selected.
  - Tap toggles the selection.
  - Pan brings the layer to the front. It maps the accumulated translation through the
    layer's transform, adds it to the centre, and resets the translation to zero.
  - Pinch acts only while the pinch has begun or changed. It scales the transform uniformly
    by the accumulated factor and resets the factor to 1.
  - Rotate acts in whatever phase the recognizer is in. It brings the layer to the front,
    rotates the transform by the accumulated angle, and resets the angle to 0.

The project has five modules.

- `Geometry` (geometry.dfy) holds points and affine transforms in the Core Graphics
  conventions:
  - `Apply` is `CGPoint.applying`;
  - `Concat` is `CGAffineTransformConcat`;
  - `ScaledBy` is `scaledBy(x:y:)`;
  - `RotatedBy` is `rotated(by:)`.

  It also proves the algebra the handlers rely on: successive pinches multiply, successive
  rotations add, and a pan follows the rotated frame.
- `Drawables` (drawable.dfy) holds the payload kinds and their `Touchable` capability.
- `ZOrder` (zorder.dfy) holds bring-to-front as a function on the sequence of subviews,
  together with its properties.
- `Sketch` (sketch_layer.dfy) holds the state:
  - the shared `Sketchpad`;
  - the `Superview`;
  - the three platform recognizers, each with its phase and its accumulator;
  - the `Layer` class with its admission function and its four handlers as methods.
- `Scenarios` (scenarios.dfy) holds two clients that drive layers through the contracts of
  the handlers, the constructors and `AddSubview`; the recognizer's translation is set
  directly to stand for further movement.

Some points of modelling:

- **Angles.** An angle is given by its cosine and sine (`Angle`). "Rotation 0.0" is
  `NoTurn = Angle(1, 0)`. No trigonometry is needed.
- **CGFloat.** It is modelled as `real`.
- **The singleton sketchpad.** `ETSSketchpadView.shared` is passed to each member as a
  `Sketchpad?` parameter. It is `null` when the singleton is absent. Like Swift's optional
  chaining, an absent sketchpad is never "selected == self", and `setSelected` on it does
  nothing.
- **Recognizer identity.** The test `self.tapGesture == gestureRecognizer` becomes a
  `Recognizer` value: `OwnTap`, `OwnPan`, `OwnPinch`, `OwnRotate` or `Foreign`.
- **Composition order.** In Core Graphics, `t.scaledBy(x:y:)` is `Concat(Scale(sx, sy), t)`
  and `t.rotated(by:)` is `Concat(Rotation(α), t)`, so the new scale or rotation acts on a
  point first, then the old transform. `ScaledByApplies` and `RotatedByApplies` state this.

## Model

| member | source | states |
|---|---|---|
| Drawables.Drawable.Touchable | DemoClass/DemoClass/ETSSketchpad/ETSSketchLayer.swift:29-55 | the three `touchable` getters: a payload is touchable exactly when it is not a raster image |
| Drawables.TouchableByKind | DemoClass/DemoClass/ETSSketchpad/ETSSketchLayer.swift:26-56 | `touchable` depends only on the payload kind: two payloads of the same kind agree, and a payload is touchable exactly when it is not an image (image false, SVG true, stock path true) |
| Sketch.Layer.ShouldBegin | DemoClass/DemoClass/ETSSketchpad/ETSSketchLayer.swift:115-139 | the tap recognizer is always admitted; any other recognizer is admitted iff the sketchpad exists, its selection is this layer, and the recognizer is this layer's pan, pinch or rotate recognizer |
| Sketch.Layer.MayManipulate | DemoClass/DemoClass/ETSSketchpad/ETSSketchLayer.swift:158 | the guard `touchable && shared?.selected == self` of the pan, pinch and rotate handlers (lines 158, 172, 185): it holds exactly when the payload is touchable and the pan recognizer would be admitted, that is, the sketchpad exists and selects this layer |
| Sketch.AdmissionAndGuard | DemoClass/DemoClass/ETSSketchpad/ETSSketchLayer.swift:121-138 | for pan, pinch and rotate, whenever a handler's guard holds the recognizer was admitted; once admitted, the guard holds exactly when the payload is touchable (admission never consults `touchable`) |
| Sketch.ImageAdmittedButInert | DemoClass/DemoClass/ETSSketchpad/ETSSketchLayer.swift:158 | a selected image layer has its pan, pinch and rotate admitted, yet the handlers' guard rejects them |
| Sketch.Toggled | DemoClass/DemoClass/ETSSketchpad/ETSSketchLayer.swift:145-151 | the selection after a tap is empty iff the tapped layer was the selected one, and is otherwise the tapped layer |
| Sketch.Sketchpad.SetSelected | DemoClass/DemoClass/ETSSketchpad/ETSSketchLayer.swift:147 | the sketchpad's selection becomes the given layer or none |
| Sketch.Layer.DidTap | DemoClass/DemoClass/ETSSketchpad/ETSSketchLayer.swift:143-153 | with a sketchpad, the new selection is the toggle of the old one by this layer; without one, nothing is modified |
| Sketch.LastTappedOrNone | DemoClass/DemoClass/ETSSketchpad/ETSSketchLayer.swift:143-153 | after any non-empty sequence of taps, either nothing is selected or exactly the last layer tapped is |
| Sketch.RepeatedTaps | DemoClass/DemoClass/ETSSketchpad/ETSSketchLayer.swift:143-153 | after one or more taps on the same layer l, from any starting selection, l is selected exactly when the number of taps is odd and l was not selected at the start, or even and l was; otherwise nothing is selected |
| Sketch.Superview.BringSubviewToFront | DemoClass/DemoClass/ETSSketchpad/ETSSketchLayer.swift:160 | the subviews become the bring-to-front reordering of the old subviews |
| ZOrder.BringToFront | DemoClass/DemoClass/ETSSketchpad/ETSSketchLayer.swift:160 | a view that is a subview ends up last, and nowhere else in the order; for any other view the order is unchanged |
| ZOrder.KeepsOthersInOrder | DemoClass/DemoClass/ETSSketchpad/ETSSketchLayer.swift:160 | with the moved view taken out, the order after bring-to-front equals the order before it: the other subviews keep their relative order |
| ZOrder.IsPermutation | DemoClass/DemoClass/ETSSketchpad/ETSSketchLayer.swift:160 | on subviews without repetitions, bring-to-front is a permutation (same multiset, same length, still no repetitions) |
| ZOrder.Idempotent | DemoClass/DemoClass/ETSSketchpad/ETSSketchLayer.swift:187 | bringing the same view to the front twice, by a pan and then a rotate say, is the same as doing it once |
| Sketch.Layer.DidPan | DemoClass/DemoClass/ETSSketchpad/ETSSketchLayer.swift:156-167 | when the guard holds: the centre moves by the translation mapped through the transform, the translation resets to zero, and this layer is brought to the front and ends up last; the transform is never changed; when the guard fails, centre, translation and z-order are unchanged |
| Geometry.Apply | DemoClass/DemoClass/ETSSketchpad/ETSSketchLayer.swift:162 | mapping a translation through the identity transform leaves it as it is, so an untransformed layer moves by exactly the raw delta |
| Geometry.HandlersKeepLinear | DemoClass/DemoClass/ETSSketchpad/ETSSketchLayer.swift:176-189 | the identity is linear, and scaling or rotating a linear transform gives a linear one; since a layer starts at the identity and pan never changes the transform, every transform the handlers reach has no translation part |
| Sketch.IncrementalPans | DemoClass/DemoClass/ETSSketchpad/ETSSketchLayer.swift:161-165 | for a transform without a translation part, two incremental pans move the centre as far as one pan of the summed delta; this is what resetting the translation after each step preserves; its requirement holds for every transform the handlers reach, by `HandlersKeepLinear` |
| Sketch.Layer.DidPinch | DemoClass/DemoClass/ETSSketchpad/ETSSketchLayer.swift:170-180 | when the guard holds and the pinch has begun or changed, the transform becomes the old one scaled uniformly by the factor and the factor resets to 1; otherwise transform and factor are unchanged; centre, z-order and translation part never change |
| Geometry.ScaledBy | DemoClass/DemoClass/ETSSketchpad/ETSSketchLayer.swift:176 | scaling a transform keeps its translation part |
| Geometry.ScaledByApplies | DemoClass/DemoClass/ETSSketchpad/ETSSketchLayer.swift:176 | a scaled transform scales a point first, then applies the old transform |
| Geometry.ScalingsMultiply | DemoClass/DemoClass/ETSSketchpad/ETSSketchLayer.swift:176-177 | scaling by s1 and then by s2 is scaling by s1 * s2, so per-call factors compose multiplicatively |
| Geometry.PinchesMultiplyFromIdentity | DemoClass/DemoClass/ETSSketchpad/ETSSketchLayer.swift:174-177 | from the identity, factors 2.0 then 1.5 give the uniform scale 3.0 |
| Sketch.Layer.DidRotate | DemoClass/DemoClass/ETSSketchpad/ETSSketchLayer.swift:183-192 | when the guard holds, in any phase: the transform becomes the old one rotated by the angle, the angle resets to 0, and this layer is brought to the front and ends up last; when the guard fails, transform, angle and z-order are unchanged; the centre and translation part never change |
| Geometry.RotatedBy | DemoClass/DemoClass/ETSSketchpad/ETSSketchLayer.swift:189 | rotating a transform keeps its translation part |
| Geometry.RotatedByApplies | DemoClass/DemoClass/ETSSketchpad/ETSSketchLayer.swift:189 | a rotated transform rotates a point first, then applies the old transform |
| Geometry.ConcatApplies | DemoClass/DemoClass/ETSSketchpad/ETSSketchLayer.swift:189 | applying a concatenation is applying the first transform, then the second |
| Geometry.RotationsAdd | DemoClass/DemoClass/ETSSketchpad/ETSSketchLayer.swift:189-190 | rotating by alpha and then by beta is rotating by the sum of the angles |
| Geometry.EighthTurnsFromIdentity | DemoClass/DemoClass/ETSSketchpad/ETSSketchLayer.swift:189 | from the identity, two rotations by pi/4 give the rotation by pi/2 |
| Geometry.QuarterTurnMapsHorizontal | DemoClass/DemoClass/ETSSketchpad/ETSSketchLayer.swift:162 | after a quarter turn from the identity, a horizontal pan delta (dx, 0) is mapped to the vertical (0, dx): the pan follows the rotated frame |
| Scenarios.PanMovesOnlySelectedTouchable | DemoClass/DemoClass/ETSSketchpad/ETSSketchLayer.swift:156-167 | with a stock-path layer A selected and an image layer B, a pan of (5, 0) leaves B's centre at (30, 40), its transform the identity and the translation (5, 0) unconsumed, and the same pan moves A from (10, 20) to (15, 20) and puts A on top |
| Scenarios.SecondTapStopsPans | DemoClass/DemoClass/ETSSketchpad/ETSSketchLayer.swift:143-167 | a layer tapped once follows a pan of (5, 0); tapped again it is deselected, and a further pan neither moves it nor consumes the recognizer's translation |

## Left out

- UIKit wiring is not modelled, because it is platform plumbing. This covers `init(frame:drawable:)`, `init?(coder:)` returning nil, `initGestureRecognizers`, and `backgroundColor`. The four recognizers are the `Recognizer` values and the three recognizer classes.
- Rendering payloads are not looked inside. `UIImage`, `Data`, `UIBezierPath` and `UIColor` are opaque handles, and SVG data is a byte sequence.
- `ETSSketchpadView` itself is not part of this model. Only its `selected` field and `setSelected(newLayer:)` assignment are modelled, as `Sketchpad`.
- `CGFloat` rounding is not modelled: transforms are over `real`. The trigonometry inside `rotated(by:)` is not modelled either: an angle is given by its cosine and sine, two pi/4 turns are `Angle(h, h)` with `h * h == 0.5`, and a reset to `0.0` is `NoTurn`.
- `bringSubviewToFront` is modelled only as moving the view to the end of its superview's subviews. Rendering, layout and hit-testing are left out.
- Sketch.Layer.DidPan: the force-unwrap `superview!` at line 160 is a precondition that holds when the guard does. The same precondition asks that the layer is among its superview's subviews, the invariant UIKit keeps between a view and its superview. The crash when the superview is missing is outside the model.
- Sketch.Layer.DidRotate: the same precondition as for DidPan, for the force-unwrap at line 187.
- Sketch.Layer.DidPan: `translation(in: self)` and `setTranslation(_:in:)` are taken in the layer's own coordinate space. The platform's conversion between coordinate spaces is not modelled.
- Sketch.Layer.DidPinch: line 176 writes the transform of `gestureRecognizer.view`. That is this layer, because the recognizer is attached to it at lines 103-106, and the model takes the view to be this layer. With a nil view, optional chaining would skip the whole assignment and line 177 would still reset the scale.
- The model keeps the sketchpad and the superview as two objects. In the program they may be the same view. The model assumes that bring-to-front leaves `selected` alone.
- `Superview.AddSubview` stands for UIKit's `addSubview(_:)`. Nothing in the layer's source calls it; it only sets up the subviews for the scenarios, so it has no row.
- There are no client methods that pinch or rotate a layer through the handlers. The transform algebra such a client relies on is proved as lemmas instead: `ScalingsMultiply`, `PinchesMultiplyFromIdentity`, `RotationsAdd`, `EighthTurnsFromIdentity` and `QuarterTurnMapsHorizontal`.
- Concurrency is not modelled: every callback runs serially on the main thread.
- Pan and rotate are not restricted by recognizer phase, whereas pinch is. The model keeps this asymmetry as the code has it: neither DidPan's nor DidRotate's contract depends on the recognizer's state.
