// The few UIKit and Core Graphics values the modelled code passes around.
module UIKitModel {

  /** A view, known only by its identity. */
  datatype View = View(id: nat)

  /** `IndexPath(row:section:)`. */
  datatype IndexPath = IndexPath(row: int, section: int)

  /** `CGPoint`, `CGSize` and `CGRect`, with `CGFloat` as a real number. */
  datatype Point = Point(x: real, y: real)
  datatype Size = Size(width: real, height: real)
  datatype Rect = Rect(origin: Point, size: Size)

  /** `UIEdgeInsets`, in its own field order. */
  datatype EdgeInsets = EdgeInsets(top: real, left: real, bottom: real, right: real)

  /** An opaque colour (`UIColor`), compared by identity. */
  datatype Color = Color(id: nat)

  /** `UITableView.Style`. */
  datatype TableStyle = Plain | Grouped | InsetGrouped

  function Pow2(n: nat): (r: nat)
    ensures r >= 1
  {
    if n == 0 then 1 else 2 * Pow2(n - 1)
  }

  /** `CGFloat.leastNonzeroMagnitude` for a 64-bit `CGFloat`: 2 to the power -1074. */
  const LEAST_NONZERO_MAGNITUDE: real := 1.0 / (Pow2(1074) as real)

  /** The height the table views report for a header or footer that is not built: the
      smallest positive value in a grouped style, 0 in a plain one. */
  function EmptySupplementaryHeight(style: TableStyle): (r: real)
    ensures style == Plain ==> r == 0.0
    ensures style != Plain ==> 0.0 < r <= LEAST_NONZERO_MAGNITUDE
  {
    if style == Plain then 0.0 else LEAST_NONZERO_MAGNITUDE
  }
}
