/** The drawing utilities: the colour palette, the overlay renderer that draws each
    detection's box and label onto a canvas, and the colour legend that counts the
    detections per class. Colours are chosen by position in both: box i gets palette
    entry i mod 15, legend entry k gets palette entry k mod 15. */
module DrawingUtils {
  import opened Detections
  import opened Canvas2D
  import opened JsNumber
  import opened JsObject

  // ===================================================================================
  // The palette

  /** `COLORS`: fifteen fixed display colours. */
  const Colors: seq<string> := [
    "#FF6B6B", "#4ECDC4", "#45B7D1", "#96CEB4", "#FECA57",
    "#FF9FF3", "#54A0FF", "#5F27CD", "#00D2D3", "#FF9F43",
    "#10AC84", "#EE5A24", "#0984E3", "#6C5CE7", "#A29BFE"
  ]

  /** `COLORS[index % COLORS.length]`: the colour of position `index`. */
  function ColorAt(index: nat): string {
    Colors[index % |Colors|]
  }

  /** Colours repeat after the fifteenth position: nothing fails, two positions just
      share a colour. */
  lemma PaletteWraps(k: nat)
    ensures ColorAt(|Colors| + k) == ColorAt(k)
  {
    assert |Colors| == 15;
    assert (15 + k) % 15 == k % 15;
  }

  /** The first fifteen positions get fifteen different colours. */
  lemma PaletteDistinct(i: nat, j: nat)
    requires i < j < |Colors|
    ensures ColorAt(i) != ColorAt(j)
  {
    // The first five hex digits already tell the fifteen colours apart.
    assert |Colors| == 15 && i % 15 == i && j % 15 == j;
    var ci, cj := Colors[i], Colors[j];
    if ci[1] == cj[1] && ci[2] == cj[2] && ci[3] == cj[3] && ci[4] == cj[4] && ci[5] == cj[5] {
      assert false;
    }
  }

  // ===================================================================================
  // The overlay renderer (`drawBoundingBoxes`)

  /** `ctx.lineWidth` for the box outline. */
  const BoxLineWidth: real := 3.0
  /** `ctx.font` for the label. */
  const LabelFont: string := "14px system-ui, -apple-system, sans-serif"
  /** Height of the strip behind the label (`textHeight`). */
  const LabelHeight: real := 20.0
  const LabelTextColor: string := "white"
  const LabelBaseline: string := "top"

  /** A box in source-media pixels scaled to canvas pixels. */
  function ScaleBox(b: Box, scaleX: real, scaleY: real): Rect {
    Rect(b.x * scaleX, b.y * scaleY, b.width * scaleX, b.height * scaleY)
  }

  /** The label text `${class} (${Math.round(score * 100)}%)`. */
  function Label(d: Detection): string {
    d.className + " (" + IntToString(Round(d.score * 100.0)) + "%)"
  }

  /** The three drawing calls made for one detection. */
  datatype Drawing = Drawing(outline: Command, strip: Command, caption: Command)

  /** What the detection at position `index` draws: its outline in the position's colour;
      a strip of that colour, 20 high and as wide as the label plus 8, sitting on the
      box's top edge; and the label in white, 4 right of the box's left edge and 2 below
      the strip's top. `measureText` gives a text's width in `LabelFont`. */
  function DetectionDrawing(d: Detection, index: nat, scaleX: real, scaleY: real,
                            measureText: string -> real): Drawing
  {
    var r := ScaleBox(d.bbox, scaleX, scaleY);
    var color := ColorAt(index);
    var text := Label(d);
    Drawing(
      StrokeRect(r, color, BoxLineWidth),
      FillRect(Rect(r.x, r.y - LabelHeight, measureText(text) + 8.0, LabelHeight), color),
      FillText(text, r.x + 4.0, r.y - LabelHeight + 2.0, LabelTextColor, LabelFont, LabelBaseline))
  }

  /** The calls made for a list of detections, in list order, detection i drawn by
      `draw(ds[i], i)`. */
  function Drawings(ds: seq<Detection>, n: nat, draw: (Detection, nat) -> Drawing): seq<Command>
    requires n <= |ds|
  {
    if n == 0 then []
    else
      var last := draw(ds[n - 1], n - 1);
      Drawings(ds, n - 1, draw) + [last.outline, last.strip, last.caption]
  }


  /** How each detection of one overlay is drawn, given the scale factors. */
  function Drawer(scaleX: real, scaleY: real, measureText: string -> real): (Detection, nat) -> Drawing {
    (d: Detection, i: nat) => DetectionDrawing(d, i, scaleX, scaleY, measureText)
  }

  /** Everything `drawBoundingBoxes` draws on a canvas of the given size: a clear of the
      whole canvas, then each detection with its box scaled from the source size to the
      canvas size. */
  function Overlay(canvasWidth: nat, canvasHeight: nat, ds: seq<Detection>,
                   originalWidth: real, originalHeight: real,
                   measureText: string -> real): seq<Command>
    requires originalWidth > 0.0 && originalHeight > 0.0
  {
    var scaleX := canvasWidth as real / originalWidth;
    var scaleY := canvasHeight as real / originalHeight;
    [ClearRect(Rect(0.0, 0.0, canvasWidth as real, canvasHeight as real))]
    + Drawings(ds, |ds|, Drawer(scaleX, scaleY, measureText))
  }

  /** `drawBoundingBoxes(canvas, detections, originalWidth, originalHeight)`. Without a 2D
      context it draws nothing; otherwise it appends `Overlay(...)` to the context's log
      and leaves the styles of the last detection drawn (none if there was none). */
  method DrawBoundingBoxes(canvas: Canvas, detections: seq<Detection>,
                           originalWidth: real, originalHeight: real,
                           measureText: string -> real)
    requires originalWidth > 0.0 && originalHeight > 0.0
    modifies canvas.context
    ensures canvas.context != null ==>
      canvas.context.commands == old(canvas.context.commands)
        + Overlay(canvas.width, canvas.height, detections, originalWidth, originalHeight, measureText)
    ensures canvas.context != null && detections != [] ==> StyledFor(canvas.context, |detections| - 1)
    ensures canvas.context != null && detections == [] ==>
      var ctx := canvas.context;
      unchanged(ctx`strokeStyle, ctx`fillStyle, ctx`lineWidth, ctx`font, ctx`textBaseline)
  {
    var ctx := canvas.context;
    if ctx == null {
      return;
    }
    DrawOverlay(ctx, canvas.width, canvas.height, detections, originalWidth, originalHeight, measureText);
  }

  /** The body of `drawBoundingBoxes` once a context is at hand: clear the whole canvas,
      then draw every detection scaled from the source size to the canvas size. */
  method DrawOverlay(ctx: Context2D, canvasWidth: nat, canvasHeight: nat, detections: seq<Detection>,
                     originalWidth: real, originalHeight: real, measureText: string -> real)
    requires originalWidth > 0.0 && originalHeight > 0.0
    modifies ctx
    ensures ctx.commands == old(ctx.commands)
      + Overlay(canvasWidth, canvasHeight, detections, originalWidth, originalHeight, measureText)
    ensures detections != [] ==> StyledFor(ctx, |detections| - 1)
    ensures detections == [] ==> unchanged(ctx`strokeStyle, ctx`fillStyle, ctx`lineWidth, ctx`font, ctx`textBaseline)
  {
    ctx.ClearRect(0.0, 0.0, canvasWidth as real, canvasHeight as real);
    var scaleX := canvasWidth as real / originalWidth;
    var scaleY := canvasHeight as real / originalHeight;
    DrawDetections(ctx, detections, scaleX, scaleY, measureText);
  }

  /** The loop of `drawBoundingBoxes` over the detections, in list order. */
  method DrawDetections(ctx: Context2D, detections: seq<Detection>,
                        scaleX: real, scaleY: real, measureText: string -> real)
    modifies ctx
    ensures ctx.commands == old(ctx.commands) + Drawings(detections, |detections|, Drawer(scaleX, scaleY, measureText))
    ensures detections != [] ==> StyledFor(ctx, |detections| - 1)
    ensures detections == [] ==> unchanged(ctx`strokeStyle, ctx`fillStyle, ctx`lineWidth, ctx`font, ctx`textBaseline)
  {
    ghost var draw := Drawer(scaleX, scaleY, measureText);
    for index := 0 to |detections|
      invariant ctx.commands == old(ctx.commands) + Drawings(detections, index, draw)
      invariant index == 0 ==> unchanged(ctx`strokeStyle, ctx`fillStyle, ctx`lineWidth, ctx`font, ctx`textBaseline)
      invariant index > 0 ==> StyledFor(ctx, index - 1)
    {
      DrawDetection(ctx, detections[index], index, scaleX, scaleY, measureText);
      ghost var drawing := draw(detections[index], index);
      assert Drawings(detections, index + 1, draw) == Drawings(detections, index, draw) + [drawing.outline, drawing.strip, drawing.caption];
    }
  }

  /** The styles the detection at position `index` leaves set: its colour as
      `strokeStyle`, the outline width, the label font, white as `fillStyle` and a top
      baseline. */
  predicate StyledFor(ctx: Context2D, index: nat)
    reads ctx
  {
    && ctx.strokeStyle == ColorAt(index) && ctx.lineWidth == BoxLineWidth
    && ctx.font == LabelFont && ctx.fillStyle == LabelTextColor
    && ctx.textBaseline == LabelBaseline
  }

  /** One pass of the loop in `drawBoundingBoxes`: the outline, the strip and the label
      of the detection at position `index`, and the styles they leave set. */
  method DrawDetection(ctx: Context2D, detection: Detection, index: nat,
                       scaleX: real, scaleY: real, measureText: string -> real)
    modifies ctx
    ensures var drawing := Drawer(scaleX, scaleY, measureText)(detection, index);
      ctx.commands == old(ctx.commands) + [drawing.outline, drawing.strip, drawing.caption]
    ensures StyledFor(ctx, index)
  {
    var scaledX := detection.bbox.x * scaleX;
    var scaledY := detection.bbox.y * scaleY;
    var scaledWidth := detection.bbox.width * scaleX;
    var scaledHeight := detection.bbox.height * scaleY;
    var color := Colors[index % |Colors|];

    ctx.strokeStyle := color;
    ctx.lineWidth := BoxLineWidth;
    ctx.StrokeRect(scaledX, scaledY, scaledWidth, scaledHeight);

    var labelText := Label(detection);
    ctx.font := LabelFont;
    var textWidth := measureText(labelText);
    var textHeight := LabelHeight;
    ctx.fillStyle := color;
    ctx.FillRect(scaledX, scaledY - textHeight, textWidth + 8.0, textHeight);

    ctx.fillStyle := LabelTextColor;
    ctx.textBaseline := LabelBaseline;
    ctx.FillText(labelText, scaledX + 4.0, scaledY - textHeight + 2.0);
    ghost var drawing := Drawer(scaleX, scaleY, measureText)(detection, index);
    assert drawing == DetectionDrawing(detection, index, scaleX, scaleY, measureText);
    assert drawing.outline == Command.StrokeRect(Rect(scaledX, scaledY, scaledWidth, scaledHeight), color, BoxLineWidth);
    assert drawing.strip == Command.FillRect(Rect(scaledX, scaledY - textHeight, textWidth + 8.0, textHeight), color);
    assert drawing.caption == Command.FillText(labelText, scaledX + 4.0, scaledY - textHeight + 2.0, LabelTextColor, LabelFont, LabelBaseline);
  }

  // -----------------------------------------------------------------------------------
  // What the overlay draws

  lemma {:induction false} DrawingsAt(ds: seq<Detection>, n: nat, draw: (Detection, nat) -> Drawing, i: nat)
    requires n <= |ds| && i < n
    ensures var cmds := Drawings(ds, n, draw);
      && |cmds| == 3 * n
      && cmds[3 * i] == draw(ds[i], i).outline
      && cmds[3 * i + 1] == draw(ds[i], i).strip
      && cmds[3 * i + 2] == draw(ds[i], i).caption
  {
    if n > 1 {
      DrawingsAt(ds, n - 1, draw, if i < n - 1 then i else 0);
    }
  }

  /** The overlay is the clear followed by exactly three calls per detection, in input
      order. For detection i with box (x, y, w, h), and sx = cw/ow, sy = ch/oh the ratios
      of canvas to source size: its outline at (x sx, y sy, w sx, h sy) in colour
      i mod 15; a strip of that colour, label width + 8 wide and 20 high, whose bottom is
      the box's top edge; and its label in white at (x sx + 4, y sy - 18). */
  lemma OverlayDraws(cw: nat, ch: nat, ds: seq<Detection>, ow: real, oh: real,
                     measureText: string -> real, i: nat)
    requires ow > 0.0 && oh > 0.0 && i < |ds|
    ensures var cmds := Overlay(cw, ch, ds, ow, oh, measureText);
      var r := ScaleBox(ds[i].bbox, cw as real / ow, ch as real / oh);
      var text := Label(ds[i]);
      && |cmds| == 1 + 3 * |ds|
      && cmds[0] == ClearRect(Rect(0.0, 0.0, cw as real, ch as real))
      && cmds[1 + 3 * i] == StrokeRect(r, ColorAt(i), BoxLineWidth)
      && cmds[2 + 3 * i] == FillRect(Rect(r.x, r.y - LabelHeight, measureText(text) + 8.0, LabelHeight), ColorAt(i))
      && cmds[3 + 3 * i] == FillText(text, r.x + 4.0, r.y - LabelHeight + 2.0, LabelTextColor, LabelFont, LabelBaseline)
  {
    var sx, sy := cw as real / ow, ch as real / oh;
    var clear := ClearRect(Rect(0.0, 0.0, cw as real, ch as real));
    AfterOneAt(clear, ds, Drawer(sx, sy, measureText), i);
  }

  /** Where detection i's calls sit when one call precedes them all. */
  lemma AfterOneAt(first: Command, ds: seq<Detection>, draw: (Detection, nat) -> Drawing, i: nat)
    requires i < |ds|
    ensures var cmds := [first] + Drawings(ds, |ds|, draw);
      && |cmds| == 1 + 3 * |ds|
      && cmds[0] == first
      && cmds[1 + 3 * i] == draw(ds[i], i).outline
      && cmds[2 + 3 * i] == draw(ds[i], i).strip
      && cmds[3 + 3 * i] == draw(ds[i], i).caption
  {
    DrawingsAt(ds, |ds|, draw, i);
  }

  /** An empty detection list only clears the canvas. */
  lemma OverlayOfNothing(cw: nat, ch: nat, ow: real, oh: real, measureText: string -> real)
    requires ow > 0.0 && oh > 0.0
    ensures Overlay(cw, ch, [], ow, oh, measureText) == [ClearRect(Rect(0.0, 0.0, cw as real, ch as real))]
  {
  }

  /** When the canvas has the source's own size, boxes are drawn at their source
      coordinates. */
  lemma ScaleAtNativeSize(b: Box, width: nat, height: nat)
    requires width > 0 && height > 0
    ensures ScaleBox(b, width as real / width as real, height as real / height as real)
         == Rect(b.x, b.y, b.width, b.height)
  {
    assert width as real / width as real == 1.0;
    assert height as real / height as real == 1.0;
  }

  /** A canvas twice the source's size in both directions doubles every coordinate. */
  lemma ScaleAtDoubleSize(b: Box, width: nat, height: nat)
    requires width > 0 && height > 0
    ensures ScaleBox(b, (2 * width) as real / width as real, (2 * height) as real / height as real)
         == Rect(2.0 * b.x, 2.0 * b.y, 2.0 * b.width, 2.0 * b.height)
  {
    assert (2 * width) as real / width as real == 2.0;
    assert (2 * height) as real / height as real == 2.0;
  }

  /** The label shows the class name, then the score as a whole percentage that reads
      back as `Math.round(score * 100)`, in the form "name (NN%)". */
  lemma LabelShowsPercentage(d: Detection)
    ensures var text := Label(d);
      var n := |d.className|;
      var digits := IntToString(Round(d.score * 100.0));
      && |text| == n + |digits| + 4
      && text[..n] == d.className
      && text[n..n + 2] == " ("
      && text[n + 2..|text| - 2] == digits
      && text[|text| - 2..] == "%)"
      && IsIntText(digits) && ParseInt(digits) == Round(d.score * 100.0)
      && (d.score * 100.0) - 0.5 < Round(d.score * 100.0) as real <= (d.score * 100.0) + 0.5
  {
    IntToStringRoundTrip(Round(d.score * 100.0));
  }

  /** For a score in [0, 1] the percentage shown is between 0 and 100. */
  lemma LabelPercentageInRange(d: Detection)
    requires 0.0 <= d.score <= 1.0
    ensures 0 <= Round(d.score * 100.0) <= 100
  {
  }

  // ===================================================================================
  // The colour legend (`createColorLegend`)

  /** One legend row: a class name, its colour and how many detections have it. */
  datatype LegendEntry = LegendEntry(className: string, color: string, count: nat)

  function Classes(ds: seq<Detection>): seq<string> {
    seq(|ds|, i requires 0 <= i < |ds| => ds[i].className)
  }

  /** How many of the detections have class `c`. */
  function CountOf(ds: seq<Detection>, c: string): nat {
    if ds == [] then 0
    else CountOf(ds[..|ds| - 1], c) + (if ds[|ds| - 1].className == c then 1 else 0)
  }

  /** The distinct elements of `s` in the order of their first occurrence. */
  function FirstOccurrences(s: seq<string>): seq<string> {
    if s == [] then []
    else
      var front := s[..|s| - 1];
      if s[|s| - 1] in front then FirstOccurrences(front)
      else FirstOccurrences(front) + [s[|s| - 1]]
  }

  /** The position of the first occurrence of `x` in `s`. */
  function FirstIndex(s: seq<string>, x: string): (i: nat)
    requires x in s
    ensures i < |s| && s[i] == x
    ensures forall j :: 0 <= j < i ==> s[j] != x
  {
    if s[0] == x then 0 else 1 + FirstIndex(s[1..], x)
  }

  /** `Object.entries(classCount)` once every detection is counted: one (class, count)
      pair per distinct class, in the order `Object.entries` lists the keys of an object
      whose properties were created in first-occurrence order. */
  function ClassCounts(ds: seq<Detection>): seq<(string, nat)> {
    var keys := OwnKeys(FirstOccurrences(Classes(ds)));
    seq(|keys|, k requires 0 <= k < |keys| => (keys[k], CountOf(ds, keys[k])))
  }

  /** The `.map` over the entries: entry k gets palette colour k mod 15. */
  function Colored(entries: seq<(string, nat)>): seq<LegendEntry> {
    seq(|entries|, k requires 0 <= k < |entries| => LegendEntry(entries[k].0, ColorAt(k), entries[k].1))
  }

  /** What `createColorLegend(detections)` returns. */
  function ColorLegend(ds: seq<Detection>): seq<LegendEntry> {
    Colored(ClassCounts(ds))
  }

  function LegendClasses(legend: seq<LegendEntry>): seq<string> {
    seq(|legend|, k requires 0 <= k < |legend| => legend[k].className)
  }

  function SumCounts(legend: seq<LegendEntry>): nat {
    if legend == [] then 0 else legend[0].count + SumCounts(legend[1..])
  }

  /** `createColorLegend(detections)`: counts the detections per class in a dictionary,
      then lists the dictionary's entries with positional colours. Class names that
      Object.prototype already answers are excluded (see the README). */
  method CreateColorLegend(detections: seq<Detection>) returns (legend: seq<LegendEntry>)
    requires forall d <- detections :: d.className !in ObjectPrototypeKeys
    ensures legend == ColorLegend(detections)
  {
    var classCount, created := CountClasses(detections);

    // `Object.entries(classCount).map(([className, count], index) => ...)`
    var keys := OwnKeys(created);
    OwnKeysPermutation(created);
    forall k | 0 <= k < |keys|
      ensures keys[k] in classCount
    {
      assert keys[k] in multiset(created);
    }
    var entries := seq(|keys|, k requires 0 <= k < |keys| => (keys[k], classCount[keys[k]]));
    assert entries == ClassCounts(detections);
    legend := ColorEntries(entries);
  }

  /** The `.map` of `createColorLegend`: each entry with the colour of its position. */
  method ColorEntries(entries: seq<(string, nat)>) returns (legend: seq<LegendEntry>)
    ensures legend == Colored(entries)
  {
    legend := [];
    for index := 0 to |entries|
      invariant |legend| == index
      invariant forall k :: 0 <= k < index ==> legend[k] == LegendEntry(entries[k].0, ColorAt(k), entries[k].1)
    {
      var (className, count) := entries[index];
      legend := legend + [LegendEntry(className, Colors[index % |Colors|], count)];
    }
  }

  /** The `forEach` of `createColorLegend`: `classCount[c] = (classCount[c] || 0) + 1`
      for each detection's class c. Returns the dictionary and the order in which its
      properties were created (each class's first occurrence). */
  method CountClasses(detections: seq<Detection>) returns (classCount: map<string, nat>, created: seq<string>)
    requires forall d <- detections :: d.className !in ObjectPrototypeKeys
    ensures created == FirstOccurrences(Classes(detections))
    ensures forall c :: c in classCount <==> c in created
    ensures forall c :: c in classCount ==> classCount[c] == CountOf(detections, c)
  {
    classCount, created := map[], [];
    for i := 0 to |detections|
      invariant created == FirstOccurrences(Classes(detections[..i]))
      invariant forall c :: c in classCount <==> c in created
      invariant forall c :: c in classCount ==> classCount[c] == CountOf(detections[..i], c)
    {
      var c := detections[i].className;
      CountStep(detections, i);
      // A missing key reads as undefined, which `|| 0` turns into 0.
      var previous := if c in classCount then classCount[c] else 0;
      if c !in classCount {
        created := created + [c];
      }
      classCount := classCount[c := previous + 1];
    }
    assert detections[..|detections|] == detections;
  }

  // -----------------------------------------------------------------------------------
  // What the legend says

  lemma {:induction false} FirstOccurrencesMembers(s: seq<string>)
    ensures Distinct(FirstOccurrences(s))
    ensures forall x :: x in FirstOccurrences(s) <==> x in s
  {
    if s != [] {
      var front := s[..|s| - 1];
      FirstOccurrencesMembers(front);
      assert s == front + [s[|s| - 1]];
    }
  }

  /** The distinct classes appear in the order in which each first occurs. */
  lemma {:induction false} FirstOccurrencesOrdered(s: seq<string>, i: nat, j: nat)
    requires i < j < |FirstOccurrences(s)|
    ensures FirstOccurrences(s)[i] in s && FirstOccurrences(s)[j] in s
    ensures FirstIndex(s, FirstOccurrences(s)[i]) < FirstIndex(s, FirstOccurrences(s)[j])
  {
    var front := s[..|s| - 1];
    var fo := FirstOccurrences(s);
    var foFront := FirstOccurrences(front);
    FirstOccurrencesMembers(front);
    FirstOccurrencesMembers(s);
    assert s == front + [s[|s| - 1]];
    if j < |foFront| {
      FirstOccurrencesOrdered(front, i, j);
      FirstIndexInPrefix(front, s, fo[i]);
      FirstIndexInPrefix(front, s, fo[j]);
    } else {
      assert fo[j] == s[|s| - 1] && fo[j] !in front;
      assert fo[i] == foFront[i] && fo[i] in front;
      FirstIndexInPrefix(front, s, fo[i]);
    }
  }

  lemma FirstIndexInPrefix(front: seq<string>, s: seq<string>, x: string)
    requires front <= s && x in front
    ensures x in s && FirstIndex(s, x) == FirstIndex(front, x)
  {
    var k := FirstIndex(front, x);
    assert s[k] == x;
  }

  /** What counting one more detection changes: its class is appended to the classes
      seen, becomes a new first occurrence if it was not seen before (and then had no
      count yet), and its count goes up by one while every other count stays. */
  lemma CountStep(ds: seq<Detection>, i: nat)
    requires i < |ds|
    ensures var c := ds[i].className;
      var fo := FirstOccurrences(Classes(ds[..i]));
      && FirstOccurrences(Classes(ds[..i + 1])) == (if c in fo then fo else fo + [c])
      && (c !in fo ==> CountOf(ds[..i], c) == 0)
    ensures forall x :: CountOf(ds[..i + 1], x) == CountOf(ds[..i], x) + (if x == ds[i].className then 1 else 0)
  {
    var c := ds[i].className;
    assert ds[..i + 1][..i] == ds[..i];
    assert Classes(ds[..i + 1]) == Classes(ds[..i]) + [c];
    FirstOccurrencesMembers(Classes(ds[..i]));
    if c !in FirstOccurrences(Classes(ds[..i])) {
      CountOfIsMultiplicity(ds[..i], c);
    }
  }

  lemma {:induction false} CountOfIsMultiplicity(ds: seq<Detection>, c: string)
    ensures CountOf(ds, c) == multiset(Classes(ds))[c]
  {
    if ds != [] {
      var front := ds[..|ds| - 1];
      CountOfIsMultiplicity(front, c);
      assert Classes(ds) == Classes(front) + [ds[|ds| - 1].className];
    }
  }

  /** The legend lists the distinct classes, each once, in the order `OwnKeys` gives. */
  lemma LegendClassesAreKeys(ds: seq<Detection>)
    ensures var fo := FirstOccurrences(Classes(ds));
      && LegendClasses(ColorLegend(ds)) == OwnKeys(fo)
      && multiset(OwnKeys(fo)) == multiset(fo)
      && Distinct(OwnKeys(fo))
      && (forall c :: c in fo <==> c in Classes(ds))
  {
    var fo := FirstOccurrences(Classes(ds));
    FirstOccurrencesMembers(Classes(ds));
    OwnKeysPermutation(fo);
  }

  /** Entry k counts the detections of its class, which occurs at least once. */
  lemma LegendEntryCount(ds: seq<Detection>, k: nat)
    requires k < |ColorLegend(ds)|
    ensures var e := ColorLegend(ds)[k];
      e.count == multiset(Classes(ds))[e.className] >= 1
  {
    LegendClassesAreKeys(ds);
    var fo := FirstOccurrences(Classes(ds));
    var c := OwnKeys(fo)[k];
    assert c in multiset(OwnKeys(fo));
    assert c in fo;
    CountOfIsMultiplicity(ds, c);
  }

  /** Exactly one entry per distinct class, and each entry counts the detections of its
      class; an entry's class occurs at least once. */
  lemma LegendOneEntryPerClass(ds: seq<Detection>)
    ensures var legend := ColorLegend(ds);
      && Distinct(LegendClasses(legend))
      && (forall c :: c in LegendClasses(legend) <==> c in Classes(ds))
      && (forall k :: 0 <= k < |legend| ==>
            legend[k].count == multiset(Classes(ds))[legend[k].className] >= 1)
  {
    var legend := ColorLegend(ds);
    var fo := FirstOccurrences(Classes(ds));
    LegendClassesAreKeys(ds);
    forall k | 0 <= k < |legend|
      ensures legend[k].count == multiset(Classes(ds))[legend[k].className] >= 1
    {
      LegendEntryCount(ds, k);
    }
    forall c
      ensures c in LegendClasses(legend) <==> c in Classes(ds)
    {
      assert c in OwnKeys(fo) <==> c in multiset(fo);
    }
  }

  /** An empty detection list gives an empty legend, and only an empty list does. */
  lemma LegendEmptyIff(ds: seq<Detection>)
    ensures ColorLegend(ds) == [] <==> ds == []
  {
    LegendOneEntryPerClass(ds);
    if ds != [] {
      assert Classes(ds)[0] == ds[0].className;
      assert ds[0].className in LegendClasses(ColorLegend(ds));
    }
  }

  function SumOver(ds: seq<Detection>, keys: seq<string>): nat {
    if keys == [] then 0 else CountOf(ds, keys[0]) + SumOver(ds, keys[1..])
  }

  lemma {:induction false} SumOverOfNothing(keys: seq<string>)
    ensures SumOver([], keys) == 0
  {
    if keys != [] {
      SumOverOfNothing(keys[1..]);
    }
  }

  lemma {:induction false} SumOverSnoc(ds: seq<Detection>, d: Detection, keys: seq<string>)
    ensures SumOver(ds + [d], keys) == SumOver(ds, keys) + multiset(keys)[d.className]
  {
    if keys != [] {
      SumOverSnoc(ds, d, keys[1..]);
      assert (ds + [d])[..|ds|] == ds;
      assert keys == [keys[0]] + keys[1..];
    }
  }

  lemma {:induction false} SumOverCovering(ds: seq<Detection>, keys: seq<string>)
    requires Distinct(keys)
    requires forall i :: 0 <= i < |ds| ==> ds[i].className in keys
    ensures SumOver(ds, keys) == |ds|
  {
    if ds == [] {
      SumOverOfNothing(keys);
    } else {
      var front, d := ds[..|ds| - 1], ds[|ds| - 1];
      SumOverCovering(front, keys);
      assert ds == front + [d];
      SumOverSnoc(front, d, keys);
      DistinctMultiplicity(keys, d.className);
    }
  }

  lemma {:induction false} SumCountsIsSumOver(legend: seq<LegendEntry>, ds: seq<Detection>)
    requires forall k :: 0 <= k < |legend| ==> legend[k].count == CountOf(ds, legend[k].className)
    ensures SumCounts(legend) == SumOver(ds, LegendClasses(legend))
  {
    if legend != [] {
      SumCountsIsSumOver(legend[1..], ds);
      assert LegendClasses(legend)[1..] == LegendClasses(legend[1..]);
    }
  }

  /** The legend's counts add up to the number of detections. */
  lemma LegendCountsSum(ds: seq<Detection>)
    ensures SumCounts(ColorLegend(ds)) == |ds|
  {
    var legend := ColorLegend(ds);
    LegendOneEntryPerClass(ds);
    SumCountsIsSumOver(legend, ds);
    forall i | 0 <= i < |ds|
      ensures ds[i].className in LegendClasses(legend)
    {
      assert Classes(ds)[i] == ds[i].className;
    }
    SumOverCovering(ds, LegendClasses(legend));
  }

  /** With no class name that is an array index (no COCO class is), the legend's classes
      are the distinct classes in the order each first occurs among the detections. */
  lemma LegendOrderIsFirstOccurrence(ds: seq<Detection>)
    requires forall d <- ds :: !IsArrayIndex(d.className)
    ensures LegendClasses(ColorLegend(ds)) == FirstOccurrences(Classes(ds))
  {
    var fo := FirstOccurrences(Classes(ds));
    FirstOccurrencesMembers(Classes(ds));
    forall k | k in fo
      ensures !IsArrayIndex(k)
    {
      var m := FirstIndex(Classes(ds), k);
      assert ds[m] in ds;
    }
    OwnKeysCreationOrder(fo);
  }

  /** With no class name that is an array index (no COCO class is), the legend lists the
      classes in the order each first occurs among the detections. */
  lemma LegendFirstOccurrenceOrder(ds: seq<Detection>, i: nat, j: nat)
    requires forall d <- ds :: !IsArrayIndex(d.className)
    requires i < j < |ColorLegend(ds)|
    ensures LegendClasses(ColorLegend(ds)) == FirstOccurrences(Classes(ds))
    ensures var legend := ColorLegend(ds);
      legend[i].className in Classes(ds) && legend[j].className in Classes(ds) &&
      FirstIndex(Classes(ds), legend[i].className) < FirstIndex(Classes(ds), legend[j].className)
  {
    LegendOrderIsFirstOccurrence(ds);
    FirstOccurrencesOrdered(Classes(ds), i, j);
  }

  /** In general, classes that are array indices ("0", "7", ...) come first in ascending
      numeric order, and the others follow in first-occurrence order. */
  lemma LegendIndexClassesFirst(ds: seq<Detection>)
    ensures var classes := LegendClasses(ColorLegend(ds));
      && (forall i, j :: 0 <= i < j < |classes| && IsArrayIndex(classes[j]) ==>
            IsArrayIndex(classes[i]) && DecimalValue(classes[i]) < DecimalValue(classes[j]))
      && NamedKeys(classes) == NamedKeys(FirstOccurrences(Classes(ds)))
  {
    var fo := FirstOccurrences(Classes(ds));
    FirstOccurrencesMembers(Classes(ds));
    OwnKeysOrder(fo);
    assert LegendClasses(ColorLegend(ds)) == OwnKeys(fo);
  }

  /** Legend entry k, the last one included, has the colour of position k, whatever its
      class, and keeps the class and count of the k-th `Object.entries` pair. */
  lemma LegendColorAt(ds: seq<Detection>, k: nat)
    requires k < |ColorLegend(ds)|
    ensures ColorLegend(ds)[k].color == ColorAt(k) == Colors[k % 15]
    ensures ColorLegend(ds)[k].className == ClassCounts(ds)[k].0
    ensures ColorLegend(ds)[k].count == ClassCounts(ds)[k].1
  {
  }

  /** Entries fifteen apart share a colour, and the first fifteen entries have pairwise
      different colours. */
  lemma LegendColors(ds: seq<Detection>, i: nat, j: nat)
    requires i < j < |ColorLegend(ds)|
    ensures var legend := ColorLegend(ds);
      && legend[i].color == Colors[i % 15]
      && (j == i + 15 ==> legend[i].color == legend[j].color)
      && (j < 15 ==> legend[i].color != legend[j].color)
  {
    if j < 15 {
      PaletteDistinct(i, j);
    }
    if j == i + 15 {
      PaletteWraps(i);
    }
  }

  lemma FirstOccurrencesOfABA(a: string, b: string)
    requires a != b
    ensures FirstOccurrences([a, b, a]) == [a, b]
  {
    assert [a, b, a][..2] == [a, b] && [a, b][..1] == [a];
    assert FirstOccurrences([a]) == [a];
  }

  /** Detections of classes a, b, a (say "cat", "dog", "cat"; names that are not array
      indices) give two entries: a counted twice in the first colour, then b counted
      once in the second. */
  lemma LegendOfABA(ds: seq<Detection>, a: string, b: string)
    requires Classes(ds) == [a, b, a] && a != b && !IsArrayIndex(a) && !IsArrayIndex(b)
    ensures ColorLegend(ds) == [LegendEntry(a, ColorAt(0), 2), LegendEntry(b, ColorAt(1), 1)]
  {
    ClassCountsOfABA(ds, a, b);
    var entries := [(a, 2), (b, 1)];
    assert Colored(entries) == [LegendEntry(a, ColorAt(0), 2), LegendEntry(b, ColorAt(1), 1)];
  }

  lemma ClassCountsOfABA(ds: seq<Detection>, a: string, b: string)
    requires Classes(ds) == [a, b, a] && a != b && !IsArrayIndex(a) && !IsArrayIndex(b)
    ensures ClassCounts(ds) == [(a, 2), (b, 1)]
  {
    FirstOccurrencesOfABA(a, b);
    OwnKeysCreationOrder([a, b]);
    CountOfIsMultiplicity(ds, a);
    CountOfIsMultiplicity(ds, b);
    assert multiset(Classes(ds)) == multiset{a, a, b};
    assert CountOf(ds, a) == 2 && CountOf(ds, b) == 1;
    var counts := ClassCounts(ds);
    assert |counts| == 2 && counts[0] == (a, 2) && counts[1] == (b, 1);
  }

  /** The overlay and the legend colour by different positions: for classes a, b, a the
      second a's box is outlined in the third colour, while the legend shows a in the
      first, and the two differ. */
  lemma BoxAndLegendColorsDiffer(ds: seq<Detection>, a: string, b: string, cw: nat, ch: nat,
                                 ow: real, oh: real, measureText: string -> real)
    requires Classes(ds) == [a, b, a] && a != b && !IsArrayIndex(a) && !IsArrayIndex(b)
    requires ow > 0.0 && oh > 0.0
    ensures var cmds := Overlay(cw, ch, ds, ow, oh, measureText);
      var legend := ColorLegend(ds);
      && |cmds| == 10 && cmds[7].StrokeRect? && cmds[7].strokeStyle == ColorAt(2)
      && |legend| == 2 && legend[0].className == ds[2].className && legend[0].color == ColorAt(0)
      && ColorAt(2) != ColorAt(0)
  {
    assert |ds| == |Classes(ds)| == 3;
    OverlayDraws(cw, ch, ds, ow, oh, measureText, 2);
    LegendOfABA(ds, a, b);
    assert ds[2].className == Classes(ds)[2];
    PaletteDistinct(0, 2);
  }
}
