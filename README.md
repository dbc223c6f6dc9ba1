# Resize Artboard, modelled in Dafny

A Sketch plugin that shrinks or grows an artboard to the bounding box of its immediate child
layers and then moves those layers so the box starts at the artboard's origin. The model
covers the fit (`resizeArtboard`) and the four edge helpers. It also covers the two menu
commands that call the fit, `resizeSelectedArtboards` and `resizeAllArtboardsOnPage`, and a
third wrapper, `resizeOneSelectedArtboard`, that the plugin does not currently use. The model
proves what these guarantee.

- `geometry.dfy`, module `Geometry`: the host's `CGRect` as `Rect` with integer coordinates.
  It holds the edge helpers `getLeftEdge`/`getRightEdge`/`getTopEdge`/`getBottomEdge`
  (`LeftEdge` and the others) and the origin shift `Translate`.
- `fit.dfy`, module `Fit`: the fit as a function on values. `Bounds` is the bounding box that
  the measuring loop computes: seeded from the first layer, then extended by every layer in
  order. `Fitted` is the artboard after the fit. The lemmas cover the tight fit, translation
  and idempotence.
- `shared.dfy`, module `Plugin`: the imperative code. A host layer is the class `Layer`. It
  holds its kind (`MSArtboardGroup` or other), its rectangle `frame`, and an array with the
  rectangles of its immediate children, where `setRect` on a child is an array write.
  `ResizeArtboard` follows `resizeArtboard` step by step. Its two loops are the methods
  `MeasureBounds` (read-only) and `TranslateLayers`. The commands `ResizeSelectedArtboards`, `ResizeAllArtboardsOnPage`
  and `ResizeOneSelectedArtboard` return an `Outcome`. On failure they return `Fail` with the
  title and message that `exitWithError` would show. `throwNoArtboardSelectedError` and
  `exitWithError` are the functions `NoArtboardSelectedError` and `ExitWithError`.

The commands take their inputs as parameters instead of from the host context. The
selection is a `seq<Layer>` and the page is a `Page` value (its name and its artboards). The
two batch commands, `ResizeSelectedArtboards` and `ResizeAllArtboardsOnPage`, require that no
two given items share a child list (`OwnLayers`). The host's document is a tree and lists
each layer once, so this holds there. `ResizeOneSelectedArtboard` has no such requirement.
Instead, its contract promises nothing changes for any other item that does not share the
first item's child list.

Every immediate layer counts towards the bounding box; there is no filtering of hidden
layers. A selected layer that is not an artboard is skipped. It is not resolved to its
enclosing artboard.

## Model

| member | source | states |
|---|---|---|
| `Geometry.LeftEdge` | resize_artboard.sketchplugin/Contents/Sketch/shared.js:137-139 | definition with no contract: origin.x. The edge facts the fit needs are the ensures of `Translate` and `Bounds` |
| `Geometry.RightEdge` | resize_artboard.sketchplugin/Contents/Sketch/shared.js:140-142 | definition with no contract: origin.x + size.width. The edge facts the fit needs are the ensures of `Translate` and `Bounds` |
| `Geometry.TopEdge` | resize_artboard.sketchplugin/Contents/Sketch/shared.js:143-145 | definition with no contract: origin.y. The edge facts the fit needs are the ensures of `Translate` and `Bounds` |
| `Geometry.BottomEdge` | resize_artboard.sketchplugin/Contents/Sketch/shared.js:146-148 | definition with no contract: origin.y + size.height. The edge facts the fit needs are the ensures of `Translate` and `Bounds` |
| `Geometry.Translate` | resize_artboard.sketchplugin/Contents/Sketch/shared.js:53-56 | moving a rectangle's origin by (-dx, -dy) keeps its width and height and moves its left and right edges by -dx and its top and bottom edges by -dy (edges as defined at lines 137-148) |
| `Fit.Bounds` | resize_artboard.sketchplugin/Contents/Sketch/shared.js:20-42 | the extrema from seeding with the first layer and extending by every layer bound all layers: minX <= every left edge, every right edge <= maxX, and the same for top and bottom. Each extremum is the edge of some layer, so the box is right for negative coordinates too |
| `Fit.BoundsUnique` | resize_artboard.sketchplugin/Contents/Sketch/shared.js:29-42 | any box that encloses all layers and whose four extrema are all attained is the measured box. So the loop computes exactly the least left and top and the greatest right and bottom edges |
| `Fit.BoundsTranslate` | resize_artboard.sketchplugin/Contents/Sketch/shared.js:51-57 | moving every layer by (-dx, -dy) moves the bounding box by (-dx, -dy) |
| `Fit.Fitted` | resize_artboard.sketchplugin/Contents/Sketch/shared.js:12-58 | the value form of the fit. An artboard without layers is unchanged. The origin and the number of layers are kept. With layers, the fitted layers' bounding box is exactly (0, 0, width, height) of the new frame |
| `Fit.FitEmpty` | resize_artboard.sketchplugin/Contents/Sketch/shared.js:15-18 | an artboard with no layers comes out of the fit unchanged: the same rectangle and no layer touched |
| `Fit.FitShape` | resize_artboard.sketchplugin/Contents/Sketch/shared.js:44-57 | after the fit the artboard keeps its origin, its width is maxX - minX and its height is maxY - minY. Layer count and order are kept. Each layer keeps its size and its origin becomes the old origin minus (minX, minY) |
| `Fit.TightFit` | resize_artboard.sketchplugin/Contents/Sketch/shared.js:29-57 | after the fit the least left and top edges are 0, the greatest right edge is the artboard's width and the greatest bottom edge its height. Every layer lies within [0, width] x [0, height] |
| `Fit.Idempotent` | resize_artboard.sketchplugin/Contents/Sketch/shared.js:12-58 | fitting a just-fitted artboard changes neither its rectangle nor any layer |
| `Fit.NegativeCoordinates` | resize_artboard.sketchplugin/Contents/Sketch/shared.js:20-26 | with layers at (-5,-5,10,10) and (0,0,5,5) the box is (-5,-5)-(5,5). The fit sizes the artboard 10x10 and moves the layers to (0,0) and (5,5) |
| `Plugin.ExitWithError` | resize_artboard.sketchplugin/Contents/Sketch/shared.js:127-130 | definition with no contract: the `Fail` value carrying the dialog's title and message. The commands' ensures state the exact title and message |
| `Plugin.NoArtboardSelectedError` | resize_artboard.sketchplugin/Contents/Sketch/shared.js:123-125 | definition with no contract: `ExitWithError` with the "No artboard selected" title and message. The commands' ensures state the exact title and message |
| `Plugin.MeasureBounds` | resize_artboard.sketchplugin/Contents/Sketch/shared.js:20-42 | the measuring loop over the layer array returns exactly `Bounds` of the layers, a box that encloses every layer |
| `Plugin.TranslateLayers` | resize_artboard.sketchplugin/Contents/Sketch/shared.js:51-57 | in place: the layer array afterwards holds each old rectangle, in the same order, with the same size and its origin moved by (-dx, -dy) |
| `Plugin.ResizeArtboard` | resize_artboard.sketchplugin/Contents/Sketch/shared.js:12-58 | in place: an artboard without layers is left alone. Otherwise its rectangle keeps its origin and takes the box's width and height, and every layer's rectangle is its old one moved by (-minX, -minY). The new state is `Fitted` of the old |
| `Plugin.ResizeSelectedArtboards` | resize_artboard.sketchplugin/Contents/Sketch/shared.js:73-91 | each selected artboard is fitted and every other selected layer is unchanged. The result is the "No artboard selected" alert exactly when no selected item is an artboard, and then nothing changed |
| `Plugin.ResizeAllArtboardsOnPage` | resize_artboard.sketchplugin/Contents/Sketch/shared.js:105-117 | the result is the "No Artboards Found" alert, with the page's name in its message, exactly when the page lists no artboards. Otherwise it passes, each listed artboard is fitted and anything else listed is unchanged |
| `Plugin.ResizeOneSelectedArtboard` | resize_artboard.sketchplugin/Contents/Sketch/shared.js:158-167 | passes and fits the first selected layer exactly when the selection is non-empty and its first item is an artboard. Otherwise the result is the "No artboard selected" alert and the first item is unchanged. Other items are left alone |

## Left out

- The alert (`displayDialog` on the application object) and `throw(nil)` (lines 1 and 127-130): the commands return the dialog's title and message as `Fail(Error(title, message))` instead of showing it and aborting.
- The host's object model and Objective-C bridge (`layers()`, `rect()`/`setRect()`, `objectEnumerator`, `className()`, `currentPage()`, `page.name()`): these are foreign calls. They become the class `Layer` (a kind, a rectangle, an array of child rectangles) and the value `Page`.
- Nil checks (`artboard && …` at lines 80, 112 and 162, `artboards && …` at line 108): the model has no null layers or null lists. An empty selection is modelled, and `resizeOneSelectedArtboard` treats it as having no artboard, just as `firstObject()` returning nil does.
- `CGFloat` arithmetic: coordinates are unbounded integers, so the equalities hold exactly, with no rounding.
- Aliasing between a selected layer and a child of a selected artboard: children are rectangles stored in their parent's array, not shared layer objects. So the model cannot express that fitting an artboard moves a selected child of it.
- Plugin.ResizeSelectedArtboards: the order in which the artboards are fitted is not observable in the contract. With distinct child lists, the outcome does not depend on it.
- The commented-out `debug` and `resizeAllArtboards` stubs (lines 2, 119-121, 132-134): they do nothing.
