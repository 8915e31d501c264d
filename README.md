# Object-detection overlay and colour legend, in Dafny

This project models the drawing utilities of a browser object-detection demo. A detector
returns a list of detections. Each detection has a bounding box `[x, y, width, height]`
in source-media pixels, a class name and a confidence score. Two functions turn such a list
into something visible:

- `drawBoundingBoxes(canvas, detections, originalWidth, originalHeight)` clears a canvas.
  For each detection, in list order, it then does three things:
  - strokes the box, scaled from the source size to the canvas size, in palette colour
    `i mod 15`;
  - fills a strip of the same colour directly above the box, as wide as the label plus 8
    and 20 high;
  - writes the label `"<class> (<round(score*100)>%)"` on the strip in white.
- `createColorLegend(detections)` counts the detections per class in a plain JavaScript
  object. It then lists that object's entries with `Object.entries`. Entry `k` gets
  palette colour `k mod 15`.

Modules:

- **`Detections`** (`detection.dfy`): the detection record.
- **`JsNumber`** (`js_number.dfy`): the parts of JavaScript number semantics the code relies on:
  - `Math.round`;
  - printing an integer in a template literal;
  - which property names count as array indices.
- **`JsObject`** (`js_object.dfy`): the order in which `Object.entries` lists the own
  properties of a plain object. Array-index keys come first, in ascending numeric order.
  The other keys follow in creation order. The module also holds the names a plain object
  inherits from `Object.prototype`.
- **`Canvas2D`** (`canvas.dfy`): a 2D context as a class.
  - Its drawing-state fields (`strokeStyle`, `fillStyle`, `lineWidth`, `font`,
    `textBaseline`) are assigned directly.
  - Its drawing calls append a command to a log. Each command records the styles in
    force when it was issued.
  - A `Canvas` has a width, a height and an optional context, the result of
    `getContext('2d')`.
- **`DrawingUtils`** (`drawing_utils.dfy`): the core.
  - The palette.
  - `DrawBoundingBoxes` as a method on the canvas. It is proved against the function
    `Overlay`, which lists the commands it issues.
  - `CreateColorLegend` as a method with the counting loop. It is proved against the
    function `ColorLegend`.
  - Lemmas about both.
- **`DetectionViews`** (`detection_views.dfy`): what the views do with these functions.
  - The image, video and camera views size the canvas to the picture before drawing.
  - The results panel looks up each detection's colour in the legend.

`Object.entries` lists array-index keys (`"0"`, `"7"`, …) first, in ascending numeric
order, so the legend is in first-occurrence order only when no class name is an array
index (no COCO class name is):

- `LegendOrderIsFirstOccurrence` and `LegendFirstOccurrenceOrder` cover that case.
- `LegendIndexClassesFirst` gives the general order.

## Model

| member | source | states |
|---|---|---|
| `JsNumber.Round` | src/utils/drawingUtils.ts:38 | `Math.round(x)` is the integer n with n - 1/2 <= x < n + 1/2 (halves round up) |
| `JsNumber.NatToDecimalCanonical` | src/utils/drawingUtils.ts:38 | a whole number prints as decimal digits with no leading zero, and prints as "0" exactly when it is 0 |
| `JsNumber.DecimalRoundTrip` | src/utils/drawingUtils.ts:38 | reading the printed digits of n back gives n |
| `JsNumber.CanonicalRoundTrip` | src/utils/drawingUtils.ts:60 | a canonical decimal string is the printed form of its own value |
| `JsNumber.CanonicalInjective` | src/utils/drawingUtils.ts:60 | two canonical decimal strings with the same value are the same string |
| `JsNumber.IntToStringRoundTrip` | src/utils/drawingUtils.ts:38 | the text `${n}` of any integer, negative ones included, parses back to n |
| `JsNumber.ArrayIndexIsPrintedIndex` | src/utils/drawingUtils.ts:60 | a property name is an array index exactly when it is the printed form of a whole number below 2^32 - 1 |
| `JsObject.InsertAscendingPermutes` | src/utils/drawingUtils.ts:60 | inserting an index key into the sorted keys adds exactly that key |
| `JsObject.InsertAscendingSorts` | src/utils/drawingUtils.ts:60 | inserting a new index key into ascending keys keeps them ascending |
| `JsObject.SortAscendingPermutes` | src/utils/drawingUtils.ts:60 | sorting the index keys rearranges them without adding or losing any |
| `JsObject.SortAscendingSorts` | src/utils/drawingUtils.ts:60 | distinct index keys come out in strictly ascending numeric order |
| `JsObject.OwnKeysPermutation` | src/utils/drawingUtils.ts:60 | `Object.entries` lists every created property exactly once, and no other |
| `JsObject.OwnKeysOrder` | src/utils/drawingUtils.ts:60 | array-index keys come first, in ascending numeric order; the other keys keep their creation order |
| `JsObject.OwnKeysCreationOrder` | src/utils/drawingUtils.ts:60 | with no array-index key, properties are listed in creation order |
| `Canvas2D.Context2D.Reset` | src/components/ImageDetection.tsx:44-45 | resizing the canvas puts every style property back to its initial value (black stroke and fill, width 1, "10px sans-serif", alphabetic baseline) |
| `Canvas2D.Canvas.SetWidth` | src/components/ImageDetection.tsx:44 | `canvas.width = w` sets the width, keeps the height and resets the context's styles |
| `Canvas2D.Canvas.SetHeight` | src/components/ImageDetection.tsx:45 | `canvas.height = h` sets the height, keeps the width and resets the context's styles |
| `Canvas2D.Context2D.ClearRect` | src/utils/drawingUtils.ts:18 | `clearRect` appends a clear of that rectangle to the log and changes nothing else |
| `Canvas2D.Context2D.StrokeRect` | src/utils/drawingUtils.ts:35 | `strokeRect` appends an outline carrying the current `strokeStyle` and `lineWidth` |
| `Canvas2D.Context2D.FillRect` | src/utils/drawingUtils.ts:44 | `fillRect` appends a fill carrying the current `fillStyle` |
| `Canvas2D.Context2D.FillText` | src/utils/drawingUtils.ts:49 | `fillText` appends the text carrying the current `fillStyle`, `font` and `textBaseline` |
| `DrawingUtils.PaletteWraps` | src/utils/drawingUtils.ts:30 | position 15 + k gets the same colour as position k |
| `DrawingUtils.PaletteDistinct` | src/utils/drawingUtils.ts:3-7 | the first fifteen positions get fifteen different colours |
| `DrawingUtils.DrawBoundingBoxes` | src/utils/drawingUtils.ts:9-51 | with no 2D context nothing happens. Otherwise the log grows by exactly `Overlay(...)` for the canvas's size. The styles left set are those of the last detection, or unchanged for an empty list |
| `DrawingUtils.DrawOverlay` | src/utils/drawingUtils.ts:18-50 | the clear of the whole canvas, then every detection scaled by canvas size / source size |
| `DrawingUtils.DrawDetections` | src/utils/drawingUtils.ts:23-50 | the loop appends the calls of each detection in list order, each with its own position as the colour index |
| `DrawingUtils.DrawDetection` | src/utils/drawingUtils.ts:24-49 | one detection appends exactly its outline, strip and label, and leaves its colour as `strokeStyle` with white fill, the label font and a top baseline |
| `DrawingUtils.OverlayDraws` | src/utils/drawingUtils.ts:18-49 | the overlay is the clear plus three calls per detection. Detection i's calls sit at 1+3i, 2+3i and 3+3i: its scaled outline in colour i mod 15 with width 3; a strip of that colour, label width + 8 wide and 20 high, ending at the box's top; and its label in white at (x + 4, y - 18) |
| `DrawingUtils.OverlayOfNothing` | src/utils/drawingUtils.ts:18-23 | an empty list only clears the canvas |
| `DrawingUtils.ScaleAtNativeSize` | src/utils/drawingUtils.ts:20-28 | when the canvas has the source's size, boxes keep their source coordinates |
| `DrawingUtils.ScaleAtDoubleSize` | src/utils/drawingUtils.ts:20-28 | a canvas twice the source's size doubles every coordinate |
| `DrawingUtils.LabelShowsPercentage` | src/utils/drawingUtils.ts:38 | the label is the class name, " (", the rounded percentage printed so that it reads back as `Math.round(score * 100)`, then "%)" |
| `DrawingUtils.LabelPercentageInRange` | src/utils/drawingUtils.ts:38 | a score in [0, 1] shows a percentage from 0 to 100 |
| `DrawingUtils.CreateColorLegend` | src/utils/drawingUtils.ts:53-65 | the method returns exactly `ColorLegend(detections)`: one entry per `Object.entries` key of the class-count object, with its count and positional colour |
| `DrawingUtils.CountClasses` | src/utils/drawingUtils.ts:54-58 | after the `forEach`, the object's keys are exactly the classes, created in first-occurrence order, and each value is the number of detections of that class |
| `DrawingUtils.ColorEntries` | src/utils/drawingUtils.ts:60-64 | the `.map` gives entry k the k-th class and count and colour k mod 15 |
| `DrawingUtils.CountStep` | src/utils/drawingUtils.ts:57 | one more detection appends its class to the created keys if new (its count was then 0), adds one to its count and leaves every other count alone |
| `DrawingUtils.FirstOccurrencesMembers` | src/utils/drawingUtils.ts:54-58 | the created keys are distinct and are exactly the classes that occur |
| `DrawingUtils.FirstOccurrencesOrdered` | src/utils/drawingUtils.ts:54-58 | the created keys are ordered by where each class first occurs |
| `DrawingUtils.LegendOneEntryPerClass` | src/utils/drawingUtils.ts:53-65 | the legend has exactly one entry per distinct class, and no other. Each entry's count is the number of detections of its class, which is at least 1 |
| `DrawingUtils.LegendEmptyIff` | src/utils/drawingUtils.ts:53-65 | the legend is empty exactly when there are no detections |
| `DrawingUtils.LegendCountsSum` | src/utils/drawingUtils.ts:54-58 | the legend's counts add up to the number of detections |
| `DrawingUtils.LegendOrderIsFirstOccurrence` | src/utils/drawingUtils.ts:56-60 | when no class name is an array index, the legend's classes are exactly the distinct classes in first-occurrence order |
| `DrawingUtils.LegendFirstOccurrenceOrder` | src/utils/drawingUtils.ts:56-60 | when no class name is an array index, the entries follow the order in which classes first occur |
| `DrawingUtils.LegendIndexClassesFirst` | src/utils/drawingUtils.ts:60 | in general, array-index class names come first in ascending numeric order, and the others follow in first-occurrence order |
| `DrawingUtils.LegendColorAt` | src/utils/drawingUtils.ts:60-63 | every entry k, the last one included, has colour k mod 15 and the class and count of the k-th `Object.entries` pair |
| `DrawingUtils.LegendColors` | src/utils/drawingUtils.ts:60-62 | entries fifteen apart share a colour, and the first fifteen differ pairwise |
| `DrawingUtils.LegendOfABA` | src/utils/drawingUtils.ts:53-65 | classes cat, dog, cat give [cat ×2 in colour 0, dog ×1 in colour 1] |
| `DrawingUtils.BoxAndLegendColorsDiffer` | src/utils/drawingUtils.ts:30-62 | the overlay colours by detection position and the legend by class position. For cat, dog, cat the second cat's box gets colour 2 and the legend's cat gets colour 0, and these differ |
| `DetectionViews.DrawAtNativeSize` | src/components/ImageDetection.tsx:44-46 | the views set the canvas to the picture's size, which resets the context's styles, and draw with that size as the source size. The log grows by exactly that overlay; the styles left are the last detection's, or the initial ones for an empty list |
| `DetectionViews.NativeSizeDrawsSourceBoxes` | src/components/VideoDetection.tsx:74-82 | drawn that way, every box is outlined at the detector's own coordinates |
| `DetectionViews.LegendColorOf` | src/components/DetectionResults.tsx:82 | `legend.find(l => l.class === c)?.color` finds a colour exactly when some entry has class c, and the colour is that entry's |
| `DetectionViews.LegendLookupNeverMisses` | src/components/DetectionResults.tsx:17 | every detection's class finds a colour in its own batch's legend, from the single entry for that class |

## Left out

- The model loader (`src/utils/modelLoader.ts`) wraps the external COCO-SSD library.
  Loading, caching and inference are asynchronous foreign calls, so they are not modelled.
- The video and camera frame loops are driven by `requestAnimationFrame`, `await` and
  timers. The FPS counter and stale-closure behaviour are concurrency and time, so they
  are not modelled. Only their canvas sizing before each draw is modelled, by
  `DrawAtNativeSize`.
- The React components' rendering, the average-confidence figure (floating-point
  presentation) and the upload MIME check (the JavaScript regex engine) are not modelled.
- Canvas rendering itself is not modelled: pixels, fonts, anti-aliasing and colour-string
  normalisation. Each drawing call is recorded as a command.
  - `measureText(label).width` is a parameter, a function from text to width.
  - `getContext('2d')` is the canvas's optional `context` field.
  - Resizing a canvas also clears its bitmap. The log records the calls made, not the
    bitmap, so `SetWidth` and `SetHeight` keep it; the overlay's own `clearRect` follows
    anyway.
- Numbers are exact reals, not IEEE doubles, so rounding error in scaling and `score * 100`
  is not captured.
- `IntToString` prints every integer in full decimal form. The exponent form that JavaScript
  uses from 10^21 upwards is not modelled; no percentage comes near it.
- DrawBoundingBoxes: requires a positive source width and height. With a zero size the
  JavaScript divides by zero and draws at `Infinity`/`NaN` coordinates, which reals cannot
  represent.
- CreateColorLegend: requires that no class name is one `Object.prototype` already
  answers (`constructor`, `toString`, `__proto__`, …).
  - For those names, `classCount[c] || 0` reads an inherited value.
  - Assigning a string to `__proto__` is ignored, so that class would never appear in the
    legend.
  - No COCO class is such a name.
- LegendColorOf: states that the colour comes from an entry of the class, not that it comes
  from the first such entry. `LegendLookupNeverMisses` shows that a legend has only one
  entry per class, so the two agree.
