/** A sketch layer: one movable, rotatable, scalable element of a sketchpad, of which
    at most one is selected at a time.  The layer decides which of its gesture
    recognizers may begin, and folds their deltas into its centre and transform. */
module Sketch {
  import opened Geometry
  import opened Drawables
  import ZOrder

  /** The recognizer a layer is asked about: one of its own four, or any other
      (such as the system's swipe-to-dismiss recognizer of a presented screen). */
  datatype Recognizer = OwnTap | OwnPan | OwnPinch | OwnRotate | Foreign
  {
    /** The recognizers that move, scale or rotate the layer. */
    predicate Manipulates() {
      OwnPan? || OwnPinch? || OwnRotate?
    }
  }

  /** The phases of a platform gesture recognizer. */
  datatype GestureState = Possible | Began | Changed | Ended | Cancelled | Failed

  /** The platform's pan recognizer: the translation accumulated since it was last reset,
      expressed in the layer's coordinate space. */
  class PanRecognizer {
    var state: GestureState
    var translation: Point

    constructor (state: GestureState, translation: Point)
      ensures this.state == state && this.translation == translation
    {
      this.state := state;
      this.translation := translation;
    }
  }

  /** The platform's pinch recognizer: the scale factor accumulated since it was last reset. */
  class PinchRecognizer {
    var state: GestureState
    var scale: real

    constructor (state: GestureState, scale: real)
      ensures this.state == state && this.scale == scale
    {
      this.state := state;
      this.scale := scale;
    }
  }

  /** The platform's rotation recognizer: the rotation accumulated since it was last reset. */
  class RotationRecognizer {
    var state: GestureState
    var rotation: Angle

    constructor (state: GestureState, rotation: Angle)
      ensures this.state == state && this.rotation == rotation
    {
      this.state := state;
      this.rotation := rotation;
    }
  }

  /** The shared sketchpad, as far as a layer sees it: the one selected layer, if any.
      Because `selected` is a single optional reference, at most one layer is selected. */
  class Sketchpad {
    var selected: Layer?

    constructor ()
      ensures selected == null
    {
      selected := null;
    }

    method SetSelected(newLayer: Layer?)
      modifies this
      ensures selected == newLayer
    {
      selected := newLayer;
    }
  }

  /** The view that holds the layers; the last of its subviews is drawn on top. */
  class Superview {
    var subviews: seq<Layer>

    constructor ()
      ensures subviews == []
    {
      subviews := [];
    }

    method AddSubview(l: Layer)
      requires l !in subviews
      modifies this, l
      ensures subviews == old(subviews) + [l] && l.superview == this
      ensures l.center == old(l.center) && l.transform == old(l.transform)
    {
      subviews := subviews + [l];
      l.superview := this;
    }

    method BringSubviewToFront(v: Layer)
      modifies this
      ensures subviews == ZOrder.BringToFront(old(subviews), v)
    {
      subviews := ZOrder.BringToFront(subviews, v);
    }
  }

  /** The selection after a tap on `tapped`: a tap on the selected layer clears the
      selection, a tap on any other layer selects that one instead. */
  function Toggled(selected: Layer?, tapped: Layer): (r: Layer?)
    ensures r == null <==> selected == tapped
    ensures r != null ==> r == tapped
  {
    if selected == tapped then null else tapped
  }

  /** The selection after the taps in `taps`, one after the other. */
  function AfterTaps(selected: Layer?, taps: seq<Layer>): (r: Layer?)
    decreases taps
  {
    if taps == [] then selected else AfterTaps(Toggled(selected, taps[0]), taps[1..])
  }

  /** After any non-empty sequence of taps, either no layer is selected or the last one tapped is. */
  lemma {:induction false} LastTappedOrNone(selected: Layer?, taps: seq<Layer>)
    requires taps != []
    ensures AfterTaps(selected, taps) == null || AfterTaps(selected, taps) == taps[|taps| - 1]
    decreases taps
  {
    if |taps| > 1 {
      LastTappedOrNone(Toggled(selected, taps[0]), taps[1..]);
    }
  }

  /** Tapping the same layer again and again alternates it between selected and not,
      from whatever selection there was: after the taps it is selected exactly when the
      parity of their number differs from whether it was selected at the start; otherwise
      nothing is selected. */
  lemma {:induction false} RepeatedTaps(selected: Layer?, l: Layer, taps: seq<Layer>)
    requires taps != []
    requires forall i :: 0 <= i < |taps| ==> taps[i] == l
    ensures AfterTaps(selected, taps) == if (|taps| % 2 == 1) == (selected != l) then l else null
    decreases taps
  {
    if |taps| > 1 {
      RepeatedTaps(Toggled(selected, l), l, taps[1..]);
    }
  }

  /** A layer on the sketchpad. */
  class Layer {
    const drawable: Drawable
    var center: Point
    var transform: Affine
    var superview: Superview?

    constructor (drawable: Drawable, center: Point)
      ensures this.drawable == drawable && this.center == center
      ensures transform == Identity && superview == null
    {
      this.drawable := drawable;
      this.center := center;
      transform := Identity;
      superview := null;
    }

    /** `gestureRecognizerShouldBegin(_:)`: may recognizer `g` of this layer begin? */
    function ShouldBegin(shared: Sketchpad?, g: Recognizer): (r: bool)
      reads shared
      ensures g == OwnTap ==> r
      ensures g != OwnTap ==> (r <==> shared != null && shared.selected == this && g.Manipulates())
    {
      if g == OwnTap then true
      else if shared != null && shared.selected == this then
        if g == OwnPan || g == OwnPinch || g == OwnRotate then true else false
      else false
    }

    /** The guard of the pan, pinch and rotate handlers: this layer's payload is
        touchable and this layer is the selected one. */
    predicate MayManipulate(shared: Sketchpad?)
      reads shared
      ensures MayManipulate(shared) <==> drawable.Touchable() && ShouldBegin(shared, OwnPan)
    {
      drawable.Touchable() && shared != null && shared.selected == this
    }

    /** `didTap(_:)`: toggle this layer's selection; without a sketchpad, nothing happens. */
    method DidTap(shared: Sketchpad?)
      modifies shared
      ensures shared != null ==> shared.selected == Toggled(old(shared.selected), this)
    {
      if shared != null && shared.selected == this {
        shared.SetSelected(null);
      } else if shared != null {
        shared.SetSelected(this);
      }
    }

    /** `didPan(_:)`: when allowed, bring this layer to the front, move its centre by the
        accumulated translation mapped through its transform, and reset the translation. */
    method DidPan(shared: Sketchpad?, g: PanRecognizer)
      requires MayManipulate(shared) ==> superview != null && this in superview.subviews
      modifies this, superview, g
      ensures g.state == old(g.state)
      ensures transform == old(transform) && superview == old(superview)
      ensures if MayManipulate(shared) then
                center == Add(old(center), Apply(old(g.translation), transform))
                && g.translation == Zero
                && superview.subviews == ZOrder.BringToFront(old(superview.subviews), this)
                && |superview.subviews| > 0 && superview.subviews[|superview.subviews| - 1] == this
              else
                center == old(center) && g.translation == old(g.translation)
                && (superview != null ==> superview.subviews == old(superview.subviews))
    {
      if drawable.Touchable() && shared != null && shared.selected == this {
        superview.BringSubviewToFront(this);
        var translation := g.translation;
        translation := Apply(translation, transform);
        center := Point(center.x + translation.x, center.y + translation.y);
        g.translation := Zero;
      }
    }

    /** `didPinch(_:)`: when allowed and the pinch has begun or changed, scale the transform
        uniformly by the accumulated factor and reset the factor to 1. */
    method DidPinch(shared: Sketchpad?, g: PinchRecognizer)
      modifies this, g
      ensures superview == old(superview)
      ensures g.state == old(g.state)
      ensures center == old(center)
      ensures transform.tx == old(transform.tx) && transform.ty == old(transform.ty)
      ensures if MayManipulate(shared) && (g.state == Began || g.state == Changed) then
                transform == ScaledBy(old(transform), old(g.scale), old(g.scale)) && g.scale == 1.0
              else
                transform == old(transform) && g.scale == old(g.scale)
    {
      if drawable.Touchable() && shared != null && shared.selected == this {
        if g.state == Began || g.state == Changed {
          transform := ScaledBy(transform, g.scale, g.scale);
          g.scale := 1.0;
        }
      }
    }

    /** `didRotate(_:)`: when allowed, in whatever phase, bring this layer to the front,
        rotate the transform by the accumulated rotation and reset the rotation to 0. */
    method DidRotate(shared: Sketchpad?, g: RotationRecognizer)
      requires MayManipulate(shared) ==> superview != null && this in superview.subviews
      modifies this, superview, g
      ensures g.state == old(g.state)
      ensures center == old(center) && superview == old(superview)
      ensures transform.tx == old(transform.tx) && transform.ty == old(transform.ty)
      ensures if MayManipulate(shared) then
                transform == RotatedBy(old(transform), old(g.rotation))
                && g.rotation == NoTurn
                && superview.subviews == ZOrder.BringToFront(old(superview.subviews), this)
                && |superview.subviews| > 0 && superview.subviews[|superview.subviews| - 1] == this
              else
                transform == old(transform) && g.rotation == old(g.rotation)
                && (superview != null ==> superview.subviews == old(superview.subviews))
    {
      if drawable.Touchable() && shared != null && shared.selected == this {
        superview.BringSubviewToFront(this);
        var rotation := g.rotation;
        transform := RotatedBy(transform, rotation);
        g.rotation := NoTurn;
      }
    }
  }

  /** The two gates differ only in the payload check: a manipulation the handlers carry out
      was always allowed to begin, and one allowed to begin is carried out exactly when the
      payload is touchable. */
  lemma AdmissionAndGuard(l: Layer, shared: Sketchpad?, g: Recognizer)
    requires g.Manipulates()
    ensures l.MayManipulate(shared) ==> l.ShouldBegin(shared, g)
    ensures l.ShouldBegin(shared, g) ==> (l.MayManipulate(shared) <==> l.drawable.Touchable())
  {
  }

  /** A selected layer showing a raster image may begin a pan, pinch or rotation, yet the
      handlers change nothing: admission never consults the payload. */
  lemma ImageAdmittedButInert(l: Layer, shared: Sketchpad, g: Recognizer)
    requires l.drawable.DrawableImage? && shared.selected == l && g.Manipulates()
    ensures l.ShouldBegin(shared, g) && !l.MayManipulate(shared)
  {
  }

  /** Splitting a drag into increments moves the centre as far as one pan of the whole drag,
      which is why the handler resets the translation after each step.  `Linear(t)` holds for
      every transform a layer reaches (`HandlersKeepLinear`). */
  lemma IncrementalPans(center: Point, t: Affine, d1: Point, d2: Point)
    requires Linear(t)
    ensures Add(Add(center, Apply(d1, t)), Apply(d2, t)) == Add(center, Apply(Add(d1, d2), t))
  {
    LinearIsAdditive(d1, d2, t);
  }
}
