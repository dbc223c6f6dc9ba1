/** The artboard fit as a function on values: the bounding box of the immediate layers,
    the resized artboard and the repositioned layers, and what is proved about them. */
module Fit {
  import opened Geometry

  /** The extrema `minX`, `minY`, `maxX`, `maxY` of a set of layer rectangles. */
  datatype Box = Box(minX: int, minY: int, maxX: int, maxY: int)

  /** Every rectangle of `rs` lies within the extrema of `b`. */
  ghost predicate Encloses(b: Box, rs: seq<Rect>)
  {
    forall i :: 0 <= i < |rs| ==>
      b.minX <= LeftEdge(rs[i]) && RightEdge(rs[i]) <= b.maxX &&
      b.minY <= TopEdge(rs[i]) && BottomEdge(rs[i]) <= b.maxY
  }

  /** Each extremum of `b` is an edge of some rectangle of `rs`. */
  ghost predicate Attained(b: Box, rs: seq<Rect>)
  {
    && (exists i :: 0 <= i < |rs| && LeftEdge(rs[i]) == b.minX)
    && (exists i :: 0 <= i < |rs| && RightEdge(rs[i]) == b.maxX)
    && (exists i :: 0 <= i < |rs| && TopEdge(rs[i]) == b.minY)
    && (exists i :: 0 <= i < |rs| && BottomEdge(rs[i]) == b.maxY)
  }

  /** The baseline taken from the first layer. */
  function Seed(r: Rect): Box
  {
    Box(LeftEdge(r), TopEdge(r), RightEdge(r), BottomEdge(r))
  }

  /** One step of the measuring loop: each extremum is replaced only by a strictly further edge. */
  function Extend(b: Box, r: Rect): Box
  {
    Box(if LeftEdge(r) < b.minX then LeftEdge(r) else b.minX,
        if TopEdge(r) < b.minY then TopEdge(r) else b.minY,
        if RightEdge(r) > b.maxX then RightEdge(r) else b.maxX,
        if BottomEdge(r) > b.maxY then BottomEdge(r) else b.maxY)
  }

  /** The bounding box of a non-empty list of rectangles, seeded from the first one and
      extended by the others in order: the least left and top edges and the greatest right
      and bottom edges, whatever their signs. */
  function Bounds(rs: seq<Rect>): (b: Box)
    requires |rs| > 0
    ensures Encloses(b, rs)
    ensures Attained(b, rs)
    decreases |rs|
  {
    if |rs| == 1 then Seed(rs[0])
    else
      var prefix := rs[..|rs| - 1];
      var b' := Bounds(prefix);
      assert forall i :: 0 <= i < |prefix| ==> prefix[i] == rs[i];
      Extend(b', rs[|rs| - 1])
  }

  /** The extrema are determined by the two properties alone: no other box encloses and is attained. */
  lemma BoundsUnique(rs: seq<Rect>, b: Box)
    requires |rs| > 0
    requires Encloses(b, rs) && Attained(b, rs)
    ensures b == Bounds(rs)
  {
  }

  /** The box `b` moved by (-dx, -dy). */
  function TranslateBox(b: Box, dx: int, dy: int): Box
  {
    Box(b.minX - dx, b.minY - dy, b.maxX - dx, b.maxY - dy)
  }

  /** One measuring step commutes with moving the box and the rectangle together. */
  lemma ExtendTranslate(b: Box, r: Rect, dx: int, dy: int)
    ensures Extend(TranslateBox(b, dx, dy), Translate(r, dx, dy)) == TranslateBox(Extend(b, r), dx, dy)
  {
  }

  /** Moving every rectangle by (-dx, -dy) moves the bounding box by the same amount. */
  lemma {:induction false} BoundsTranslate(rs: seq<Rect>, dx: int, dy: int)
    requires |rs| > 0
    ensures Bounds(TranslateAll(rs, dx, dy)) == TranslateBox(Bounds(rs), dx, dy)
  {
    var ts := TranslateAll(rs, dx, dy);
    if |rs| > 1 {
      var prefix, last := rs[..|rs| - 1], rs[|rs| - 1];
      BoundsTranslate(prefix, dx, dy);
      assert ts[..|ts| - 1] == TranslateAll(prefix, dx, dy);
      assert ts[|ts| - 1] == Translate(last, dx, dy);
      ExtendTranslate(Bounds(prefix), last, dx, dy);
      assert Bounds(ts) == Extend(Bounds(TranslateAll(prefix, dx, dy)), Translate(last, dx, dy));
    }
  }

  /** An artboard as the fit sees it: its own rectangle and the rectangles of its
      immediate layers, in layer order. */
  datatype Board = Board(frame: Rect, layers: seq<Rect>)

  /** The artboard after `resizeArtboard`: unchanged when it has no layers; otherwise its size
      becomes that of the bounding box, its origin stays, and every layer moves by (-minX, -minY). */
  function Fitted(a: Board): (f: Board)
    ensures |a.layers| == 0 ==> f == a
    ensures f.frame.x == a.frame.x && f.frame.y == a.frame.y
    ensures |f.layers| == |a.layers|
    ensures |f.layers| > 0 ==> Bounds(f.layers) == Box(0, 0, f.frame.width, f.frame.height)
  {
    if |a.layers| == 0 then a
    else
      var b := Bounds(a.layers);
      BoundsTranslate(a.layers, b.minX, b.minY);
      Board(a.frame.(width := b.maxX - b.minX, height := b.maxY - b.minY),
            TranslateAll(a.layers, b.minX, b.minY))
  }

  /** An artboard without layers is left as it is (the first ensures of `Fitted`, restated
      on its own as the early return's property). */
  lemma FitEmpty(a: Board)
    requires |a.layers| == 0
    ensures Fitted(a) == a
  {
  }

  /** What the fit does to each part of the artboard: the origin is kept, the size is the
      extent of the bounding box, and each layer keeps its place in the list and its size
      while its origin moves by (-minX, -minY). */
  lemma FitShape(a: Board)
    requires |a.layers| > 0
    ensures var f, b := Fitted(a), Bounds(a.layers);
      && f.frame.x == a.frame.x && f.frame.y == a.frame.y
      && f.frame.width == b.maxX - b.minX && f.frame.height == b.maxY - b.minY
      && |f.layers| == |a.layers|
      && forall i :: 0 <= i < |a.layers| ==>
           f.layers[i].x == a.layers[i].x - b.minX && f.layers[i].y == a.layers[i].y - b.minY &&
           f.layers[i].width == a.layers[i].width && f.layers[i].height == a.layers[i].height
  {
  }

  /** Tight fit: after the fit the least left and top edges are 0, the greatest right edge is
      the artboard's width and the greatest bottom edge its height, so every layer lies within
      [0, width] x [0, height]. The box equation is the last ensures of `Fitted`; this lemma
      adds the containment of every layer that follows from it. */
  lemma TightFit(a: Board)
    requires |a.layers| > 0
    ensures var f := Fitted(a);
      && |f.layers| > 0
      && Bounds(f.layers) == Box(0, 0, f.frame.width, f.frame.height)
      && forall i :: 0 <= i < |f.layers| ==>
           0 <= LeftEdge(f.layers[i]) && RightEdge(f.layers[i]) <= f.frame.width &&
           0 <= TopEdge(f.layers[i]) && BottomEdge(f.layers[i]) <= f.frame.height
  {
  }

  /** Fitting an artboard that has just been fitted changes nothing. */
  lemma Idempotent(a: Board)
    ensures Fitted(Fitted(a)) == Fitted(a)
  {
  }

  /** The extrema are seeded from the first layer, not from zero: layers at negative
      coordinates give a box that starts below zero, and the fit moves them to the origin. */
  lemma NegativeCoordinates()
    ensures Bounds([Rect(-5, -5, 10, 10), Rect(0, 0, 5, 5)]) == Box(-5, -5, 5, 5)
    ensures Fitted(Board(Rect(40, 40, 100, 100), [Rect(-5, -5, 10, 10), Rect(0, 0, 5, 5)]))
         == Board(Rect(40, 40, 10, 10), [Rect(0, 0, 10, 10), Rect(5, 5, 5, 5)])
  {
    var rs := [Rect(-5, -5, 10, 10), Rect(0, 0, 5, 5)];
    assert rs[..1] == [Rect(-5, -5, 10, 10)];
    assert TranslateAll(rs, -5, -5) == [Rect(0, 0, 10, 10), Rect(5, 5, 5, 5)];
  }
}
