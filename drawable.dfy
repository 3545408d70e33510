/** The payload a sketch layer shows, and its `touchable` capability. */
module Drawables {

  /** The stroke style of a stock-drawn path. */
  datatype LineType = SolidLine | DottedLine

  /** Stands for a `UIImage`; the model does not look inside it. */
  datatype ImageRef = ImageRef(handle: nat)

  /** Stands for a `UIBezierPath`. */
  datatype PathRef = PathRef(handle: nat)

  /** Stands for a `UIColor`. */
  datatype ColorRef = ColorRef(handle: nat)

  /** The three conforming payload kinds of the drawable protocol. */
  datatype Drawable =
    | DrawableImage(image: ImageRef)
    | DrawableSvg(svgData: seq<bv8>)
    | DrawableStock(bezierPath: PathRef, tintColor: ColorRef, stockType: LineType)
  {
    /** Whether pan, pinch and rotate may change a layer showing this payload:
        a raster image may not be moved, an SVG or a stock path may. */
    predicate Touchable()
      ensures Touchable() <==> !DrawableImage?
    {
      match this
      case DrawableImage(_) => false
      case DrawableSvg(_) => true
      case DrawableStock(_, _, _) => true
    }
  }

  /** Two payloads of the same kind have the same capability, whatever they carry. */
  lemma TouchableByKind(p: Drawable, q: Drawable)
    requires p.DrawableImage? == q.DrawableImage?
    requires p.DrawableSvg? == q.DrawableSvg?
    ensures p.Touchable() == q.Touchable()
    ensures p.Touchable() <==> !p.DrawableImage?
  {
  }
}
