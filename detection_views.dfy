/** The two places where the views use the drawing utilities: they size the canvas to
    the picture before drawing the overlay, and they look up each detection's colour in
    the legend. */
module DetectionViews {
  import opened Detections
  import opened Canvas2D
  import opened DrawingUtils

  datatype Option<T> = None | Some(value: T)

  /** What the image, video and camera views do with a result: set the canvas to the
      picture's own size, which resets the context's styles, then draw the overlay with
      that size as the original size. The styles left set are those of the last detection
      drawn, or the initial ones when there was none. */
  method DrawAtNativeSize(canvas: Canvas, detections: seq<Detection>, width: nat, height: nat,
                          measureText: string -> real)
    requires width > 0 && height > 0
    modifies canvas, canvas.context
    ensures canvas.width == width && canvas.height == height
    ensures canvas.context != null ==>
      canvas.context.commands == old(canvas.context.commands)
        + Overlay(width, height, detections, width as real, height as real, measureText)
    ensures canvas.context != null && detections != [] ==> StyledFor(canvas.context, |detections| - 1)
    ensures canvas.context != null && detections == [] ==> canvas.context.HasDefaultStyles()
  {
    canvas.SetWidth(width);
    canvas.SetHeight(height);
    DrawBoundingBoxes(canvas, detections, width as real, height as real, measureText);
  }

  /** At the picture's own size, every box is outlined exactly where the model put it. */
  lemma NativeSizeDrawsSourceBoxes(width: nat, height: nat, ds: seq<Detection>,
                                   measureText: string -> real, i: nat)
    requires width > 0 && height > 0 && i < |ds|
    ensures var cmds := Overlay(width, height, ds, width as real, height as real, measureText);
      var b := ds[i].bbox;
      && |cmds| == 1 + 3 * |ds|
      && cmds[1 + 3 * i] == StrokeRect(Rect(b.x, b.y, b.width, b.height), ColorAt(i), BoxLineWidth)
  {
    OverlayDraws(width, height, ds, width as real, height as real, measureText, i);
    ScaleAtNativeSize(ds[i].bbox, width, height);
  }

  /** `legend.find(l => l.class === c)?.color`: the colour of the first legend entry for
      class `c`, or nothing when there is none. */
  function LegendColorOf(legend: seq<LegendEntry>, c: string): (r: Option<string>)
    ensures r.Some? <==> c in LegendClasses(legend)
    ensures r.Some? ==> exists k :: 0 <= k < |legend| && legend[k].className == c && legend[k].color == r.value
  {
    if legend == [] then None
    else
      assert LegendClasses(legend) == [legend[0].className] + LegendClasses(legend[1..]);
      if legend[0].className == c then Some(legend[0].color)
      else
        var r := LegendColorOf(legend[1..], c);
        if r.Some? then
          var k :| 0 <= k < |legend[1..]| && legend[1..][k].className == c && legend[1..][k].color == r.value;
          assert legend[k + 1] == legend[1..][k];
          r
        else r
  }

  /** Every detection finds its class in the legend of its own batch, and gets the colour
      of the one entry for that class. */
  lemma LegendLookupNeverMisses(ds: seq<Detection>, i: nat)
    requires i < |ds|
    ensures var legend := ColorLegend(ds);
      var r := LegendColorOf(legend, ds[i].className);
      && r.Some?
      && exists k :: 0 <= k < |legend| && legend[k].className == ds[i].className && legend[k].color == r.value
           && (forall j :: 0 <= j < |legend| && legend[j].className == ds[i].className ==> j == k)
  {
    var legend := ColorLegend(ds);
    LegendOneEntryPerClass(ds);
    assert Classes(ds)[i] == ds[i].className;
    var r := LegendColorOf(legend, ds[i].className);
    var k :| 0 <= k < |legend| && legend[k].className == ds[i].className && legend[k].color == r.value;
    forall j | 0 <= j < |legend| && legend[j].className == ds[i].className
      ensures j == k
    {
      var classes := LegendClasses(legend);
      assert classes[j] == legend[j].className && classes[k] == legend[k].className;
    }
  }
}
