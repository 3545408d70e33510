/** Clients that drive layers only through the handlers' contracts. */
module Scenarios {
  import opened Geometry
  import opened Drawables
  import opened Sketch

  /** Layer A shows a stock path, layer B a raster image; both start unselected.
      Tapping A selects it; a pan of (5, 0) on B leaves B's centre, its transform and the
      pan's translation as they were (B is neither selected nor touchable), and the same
      pan on A moves A by (5, 0) and puts A on top. */
  method PanMovesOnlySelectedTouchable() returns (bCenter: Point, bTransform: Affine, bLeft: Point, aAfterPan: Point, aOnTop: bool)
    ensures bCenter == Point(30.0, 40.0) && bTransform == Identity && bLeft == Point(5.0, 0.0)
    ensures aAfterPan == Point(15.0, 20.0) && aOnTop
  {
    var pad := new Sketchpad();
    var view := new Superview();
    var a := new Layer(DrawableStock(PathRef(0), ColorRef(0), SolidLine), Point(10.0, 20.0));
    var b := new Layer(DrawableImage(ImageRef(0)), Point(30.0, 40.0));
    view.AddSubview(a);
    view.AddSubview(b);
    assert a in view.subviews && b in view.subviews;

    a.DidTap(pad);
    assert pad.selected == a;

    var panB := new PanRecognizer(Changed, Point(5.0, 0.0));
    b.DidPan(pad, panB);
    bCenter, bTransform, bLeft := b.center, b.transform, panB.translation;

    var panA := new PanRecognizer(Changed, Point(5.0, 0.0));
    assert a.MayManipulate(pad);
    a.DidPan(pad, panA);
    assert Apply(Point(5.0, 0.0), Identity) == Point(5.0, 0.0);
    aAfterPan := a.center;
    aOnTop := |view.subviews| > 0 && view.subviews[|view.subviews| - 1] == a;
  }

  /** A selected layer follows a pan; tapped a second time it is deselected, and a
      further pan neither moves it nor consumes the recognizer's translation. */
  method SecondTapStopsPans() returns (afterFirstPan: Point, cleared: bool, afterSecondPan: Point, left: Point)
    ensures afterFirstPan == Point(15.0, 20.0)
    ensures cleared && afterSecondPan == afterFirstPan && left == Point(5.0, 0.0)
  {
    var pad := new Sketchpad();
    var view := new Superview();
    var a := new Layer(DrawableSvg([]), Point(10.0, 20.0));
    view.AddSubview(a);

    a.DidTap(pad);
    var pan := new PanRecognizer(Changed, Point(5.0, 0.0));
    a.DidPan(pad, pan);
    assert Apply(Point(5.0, 0.0), Identity) == Point(5.0, 0.0);
    afterFirstPan := a.center;

    a.DidTap(pad);
    cleared := pad.selected == null;

    pan.translation := Point(5.0, 0.0);
    a.DidPan(pad, pan);
    afterSecondPan := a.center;
    left := pan.translation;
  }
}
