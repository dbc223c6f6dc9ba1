/** Rectangles of the host's scene graph (a CGRect: an origin and a size) and their edges. */
module Geometry {

  /** A layer's or an artboard's rectangle; the host's doubles are modelled as exact integers. */
  datatype Rect = Rect(x: int, y: int, width: int, height: int)

  /** `getLeftEdge`: the origin's x. */
  function LeftEdge(r: Rect): int
  {
    r.x
  }

  /** `getRightEdge`: origin.x + size.width. */
  function RightEdge(r: Rect): int
  {
    r.x + r.width
  }

  /** `getTopEdge`: the origin's y. */
  function TopEdge(r: Rect): int
  {
    r.y
  }

  /** `getBottomEdge`: origin.y + size.height. */
  function BottomEdge(r: Rect): int
  {
    r.y + r.height
  }

  /** The rectangle with its origin moved by (-dx, -dy), as `origin.x -= dx; origin.y -= dy` does. */
  function Translate(r: Rect, dx: int, dy: int): (t: Rect)
    ensures t.width == r.width && t.height == r.height
    ensures LeftEdge(t) == LeftEdge(r) - dx && RightEdge(t) == RightEdge(r) - dx
    ensures TopEdge(t) == TopEdge(r) - dy && BottomEdge(t) == BottomEdge(r) - dy
  {
    r.(x := r.x - dx, y := r.y - dy)
  }

  /** Every rectangle of `rs` moved by (-dx, -dy), in the same order. */
  function TranslateAll(rs: seq<Rect>, dx: int, dy: int): seq<Rect>
  {
    seq(|rs|, i requires 0 <= i < |rs| => Translate(rs[i], dx, dy))
  }
}
