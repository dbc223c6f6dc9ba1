/** The plugin's commands over the host's layers: `resizeArtboard`, which fits one artboard
    in place; the two menu commands that call it, `resizeSelectedArtboards` and
    `resizeAllArtboardsOnPage`; and a third wrapper, `resizeOneSelectedArtboard`, that the
    plugin does not currently use. */
module Plugin {
  import opened Geometry
  import opened Fit

  /** The host class a layer reports: `MSArtboardGroup` or anything else. */
  datatype Kind = ArtboardGroup | OtherLayer

  /** What a command hands to the alert before it stops: the dialog's title and message. */
  datatype Error = Error(title: string, message: string)

  /** A command either finishes or ends with an alert. */
  datatype Outcome = Pass | Fail(error: Error)

  /** A layer of the host's document: its class, its rectangle, and the rectangles of its
      immediate child layers, one array element per child, updated in place. */
  class Layer {
    const kind: Kind
    var frame: Rect
    const layers: array<Rect>

    constructor (kind: Kind, frame: Rect, children: seq<Rect>)
      ensures this.kind == kind && State() == Board(frame, children) && fresh(layers)
    {
      this.kind := kind;
      this.frame := frame;
      this.layers := new Rect[|children|](i requires 0 <= i < |children| => children[i]);
    }

    /** The layer's rectangle and its children's rectangles, as the fit sees them. */
    function State(): Board
      reads this, layers
    {
      Board(frame, layers[..])
    }
  }

  /** `className() == 'MSArtboardGroup'`. */
  predicate IsArtboard(l: Layer)
  {
    l.kind == ArtboardGroup
  }

  /** Some item of `items` is an artboard. */
  predicate AnyArtboard(items: seq<Layer>)
  {
    exists i :: 0 <= i < |items| && IsArtboard(items[i])
  }

  /** The items are distinct objects, none sharing its list of children with another:
      the host's document is a tree and a selection or a page lists each layer once. */
  predicate OwnLayers(items: seq<Layer>)
  {
    forall i, j :: 0 <= i < j < |items| ==> items[i].layers != items[j].layers
  }

  /** Since the start of the command, `l` has been fitted if it is an artboard, and left alone otherwise. */
  twostate predicate FittedIfArtboard(l: Layer)
    reads l, l.layers
  {
    l.State() == if IsArtboard(l) then Fitted(old(l.State())) else old(l.State())
  }

  /** Since the start of the command, `l` and its children have not changed. */
  twostate predicate Untouched(l: Layer)
    reads l, l.layers
  {
    l.State() == old(l.State())
  }

  /** The page a command runs on: its display name and its artboards. */
  datatype Page = Page(name: string, artboards: seq<Layer>)

  /** `exitWithError`: the dialog to show; the command stops there. */
  function ExitWithError(title: string, message: string): Outcome
  {
    Fail(Error(title, message))
  }

  /** `throwNoArtboardSelectedError`. */
  function NoArtboardSelectedError(): Outcome
  {
    ExitWithError("No artboard selected", "You need to select an artboard")
  }

  /** The loop that measures the immediate layers: the extrema start from the first layer
      and take in every layer, the first one included. */
  method MeasureBounds(layers: array<Rect>) returns (minX: int, minY: int, maxX: int, maxY: int)
    requires layers.Length > 0
    ensures Box(minX, minY, maxX, maxY) == Bounds(layers[..])
    ensures forall i :: 0 <= i < layers.Length ==>
      minX <= LeftEdge(layers[i]) && RightEdge(layers[i]) <= maxX &&
      minY <= TopEdge(layers[i]) && BottomEdge(layers[i]) <= maxY
  {
    ghost var s := layers[..];
    var r := layers[0];
    minX, minY, maxX, maxY := LeftEdge(r), TopEdge(r), RightEdge(r), BottomEdge(r);
    assert s[..1] == [r];
    var i := 0;
    while i < layers.Length
      invariant 0 <= i <= layers.Length
      invariant Box(minX, minY, maxX, maxY) == Bounds(s[..if i == 0 then 1 else i])
    {
      r := layers[i];
      var leftEdge, rightEdge := LeftEdge(r), RightEdge(r);
      var topEdge, bottomEdge := TopEdge(r), BottomEdge(r);
      if leftEdge < minX { minX := leftEdge; }
      if rightEdge > maxX { maxX := rightEdge; }
      if topEdge < minY { minY := topEdge; }
      if bottomEdge > maxY { maxY := bottomEdge; }
      if i > 0 {
        assert s[..i + 1][..i] == s[..i];
      }
      i := i + 1;
    }
    assert s[..layers.Length] == s;
  }

  /** The loop that repositions the layers: each layer's origin moves by (-dx, -dy). */
  method TranslateLayers(layers: array<Rect>, dx: int, dy: int)
    modifies layers
    ensures layers[..] == TranslateAll(old(layers[..]), dx, dy)
  {
    ghost var before := layers[..];
    var i := 0;
    while i < layers.Length
      invariant 0 <= i <= layers.Length
      invariant forall k :: 0 <= k < i ==> layers[k] == Translate(before[k], dx, dy)
      invariant forall k :: i <= k < layers.Length ==> layers[k] == before[k]
    {
      var lr := layers[i];
      lr := lr.(x := lr.x - dx, y := lr.y - dy);
      layers[i] := lr;
      i := i + 1;
    }
  }

  /** `resizeArtboard`: fits the artboard to the bounding box of its immediate layers and moves
      every layer by (-minX, -minY); an artboard without layers is left alone. */
  method ResizeArtboard(artboard: Layer)
    modifies artboard, artboard.layers
    ensures artboard.State() == Fitted(old(artboard.State()))
    ensures artboard.layers.Length == 0 ==> artboard.frame == old(artboard.frame)
    ensures artboard.layers.Length > 0 ==>
      var b := Bounds(old(artboard.layers[..]));
      && artboard.frame == old(artboard.frame).(width := b.maxX - b.minX, height := b.maxY - b.minY)
      && forall i :: 0 <= i < artboard.layers.Length ==>
           artboard.layers[i] == Translate(old(artboard.layers[i]), b.minX, b.minY)
  {
    var layers := artboard.layers;
    if layers.Length == 0 {
      return;
    }
    ghost var before := artboard.State();
    var minX, minY, maxX, maxY := MeasureBounds(layers);

    var r := artboard.frame;
    r := r.(width := maxX - minX, height := maxY - minY);
    artboard.frame := r;

    TranslateLayers(layers, minX, minY);
    assert artboard.State() == Board(r, TranslateAll(before.layers, minX, minY)) == Fitted(before);
  }

  /** `resizeSelectedArtboards`: fits every selected artboard, in selection order, skips every
      other kind of layer, and raises the "No artboard selected" alert when none was fitted. */
  method ResizeSelectedArtboards(selection: seq<Layer>) returns (r: Outcome)
    requires OwnLayers(selection)
    modifies selection, set l | l in selection :: l.layers
    ensures r == if AnyArtboard(selection) then Pass
                 else Fail(Error("No artboard selected", "You need to select an artboard"))
    ensures forall l :: l in selection ==>
      l.State() == if IsArtboard(l) then Fitted(old(l.State())) else old(l.State())
    ensures r.Fail? ==> forall l :: l in selection ==> l.State() == old(l.State())
  {
    var atLeastOneArtboardResized := false;
    var i := 0;
    while i < |selection|
      invariant 0 <= i <= |selection|
      invariant atLeastOneArtboardResized <==> exists k :: 0 <= k < i && IsArtboard(selection[k])
      invariant forall k :: 0 <= k < i ==> FittedIfArtboard(selection[k])
      invariant forall k :: i <= k < |selection| ==> Untouched(selection[k])
    {
      var artboard := selection[i];
      assert forall k :: 0 <= k < |selection| && k != i ==> selection[k].layers != artboard.layers;
      if IsArtboard(artboard) {
        ResizeArtboard(artboard);
        atLeastOneArtboardResized := true;
      }
      assert FittedIfArtboard(artboard);
      i := i + 1;
    }
    if !atLeastOneArtboardResized {
      r := NoArtboardSelectedError();
    } else {
      r := Pass;
    }
  }

  /** `resizeAllArtboardsOnPage`: raises the "No Artboards Found" alert, naming the page, when
      the page has no artboards; otherwise fits each of them that is an artboard. */
  method ResizeAllArtboardsOnPage(page: Page) returns (r: Outcome)
    requires OwnLayers(page.artboards)
    modifies page.artboards, set l | l in page.artboards :: l.layers
    ensures r == if |page.artboards| > 0 then Pass
                 else Fail(Error("No Artboards Found",
                                 "It looks like there are no artboards on the page named " + page.name + "."))
    ensures forall l :: l in page.artboards ==>
      l.State() == if IsArtboard(l) then Fitted(old(l.State())) else old(l.State())
  {
    var artboards := page.artboards;
    if |artboards| > 0 {
      var i := 0;
      while i < |artboards|
        invariant 0 <= i <= |artboards|
        invariant forall k :: 0 <= k < i ==> FittedIfArtboard(artboards[k])
        invariant forall k :: i <= k < |artboards| ==> Untouched(artboards[k])
      {
        var artboard := artboards[i];
        assert forall k :: 0 <= k < |artboards| && k != i ==> artboards[k].layers != artboard.layers;
        if IsArtboard(artboard) {
          ResizeArtboard(artboard);
        }
        i := i + 1;
      }
      r := Pass;
    } else {
      r := ExitWithError("No Artboards Found",
                         "It looks like there are no artboards on the page named " + page.name + ".");
    }
  }

  /** `resizeOneSelectedArtboard`: fits the first selected layer when it is an artboard and
      otherwise, an empty selection included, raises the "No artboard selected" alert. */
  method ResizeOneSelectedArtboard(selection: seq<Layer>) returns (r: Outcome)
    modifies selection[..if |selection| == 0 then 0 else 1],
             set l | l in selection[..if |selection| == 0 then 0 else 1] :: l.layers
    ensures r == if |selection| > 0 && IsArtboard(selection[0]) then Pass
                 else Fail(Error("No artboard selected", "You need to select an artboard"))
    ensures |selection| > 0 ==>
      selection[0].State() ==
        if IsArtboard(selection[0]) then Fitted(old(selection[0].State())) else old(selection[0].State())
    ensures forall k :: 1 <= k < |selection| && selection[k].layers != selection[0].layers ==>
      selection[k].State() == old(selection[k].State())
  {
    if |selection| > 0 && IsArtboard(selection[0]) {
      var artboard := selection[0];
      ResizeArtboard(artboard);
      r := Pass;
    } else {
      r := NoArtboardSelectedError();
    }
  }
}
