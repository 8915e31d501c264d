/** A 2D canvas as the drawing utilities see it: a drawing context whose style properties
    are set by assignment and whose drawing calls are recorded, in order, in a log. What
    the browser paints for each command (pixels, anti-aliasing, fonts) is not modelled. */
module Canvas2D {

  datatype Rect = Rect(x: real, y: real, width: real, height: real)

  /** One drawing call, with the context's style properties as they were when it was made. */
  datatype Command =
    | ClearRect(area: Rect)
    | StrokeRect(rect: Rect, strokeStyle: string, lineWidth: real)
    | FillRect(rect: Rect, fillStyle: string)
    | FillText(text: string, x: real, y: real, fillStyle: string, font: string, textBaseline: string)

  /** `CanvasRenderingContext2D`: the style properties the drawing utilities assign, and
      the log of drawing calls made so far. */
  class Context2D {
    var strokeStyle: string
    var fillStyle: string
    var lineWidth: real
    var font: string
    var textBaseline: string
    var commands: seq<Command>

    /** A fresh context with the properties' initial values and nothing drawn. */
    constructor ()
      ensures strokeStyle == "#000000" && fillStyle == "#000000" && lineWidth == 1.0
      ensures font == "10px sans-serif" && textBaseline == "alphabetic"
      ensures commands == []
    {
      strokeStyle, fillStyle, lineWidth := "#000000", "#000000", 1.0;
      font, textBaseline := "10px sans-serif", "alphabetic";
      commands := [];
    }

    /** Whether every style property has the value a fresh context gives it. */
    predicate HasDefaultStyles()
      reads this
    {
      && strokeStyle == "#000000" && fillStyle == "#000000" && lineWidth == 1.0
      && font == "10px sans-serif" && textBaseline == "alphabetic"
    }

    /** What resizing the canvas does to its context: every style property goes back to
        its initial value. The log of the calls made so far is kept. */
    method Reset()
      modifies this`strokeStyle, this`fillStyle, this`lineWidth, this`font, this`textBaseline
      ensures HasDefaultStyles()
    {
      strokeStyle, fillStyle, lineWidth := "#000000", "#000000", 1.0;
      font, textBaseline := "10px sans-serif", "alphabetic";
    }

    method ClearRect(x: real, y: real, width: real, height: real)
      modifies this`commands
      ensures commands == old(commands) + [Command.ClearRect(Rect(x, y, width, height))]
    {
      commands := commands + [Command.ClearRect(Rect(x, y, width, height))];
    }

    /** Outlines a rectangle with the current `strokeStyle` and `lineWidth`. */
    method StrokeRect(x: real, y: real, width: real, height: real)
      modifies this`commands
      ensures commands == old(commands) + [Command.StrokeRect(Rect(x, y, width, height), strokeStyle, lineWidth)]
    {
      commands := commands + [Command.StrokeRect(Rect(x, y, width, height), strokeStyle, lineWidth)];
    }

    /** Fills a rectangle with the current `fillStyle`. */
    method FillRect(x: real, y: real, width: real, height: real)
      modifies this`commands
      ensures commands == old(commands) + [Command.FillRect(Rect(x, y, width, height), fillStyle)]
    {
      commands := commands + [Command.FillRect(Rect(x, y, width, height), fillStyle)];
    }

    /** Draws text at (x, y) with the current `fillStyle`, `font` and `textBaseline`. */
    method FillText(text: string, x: real, y: real)
      modifies this`commands
      ensures commands == old(commands) + [Command.FillText(text, x, y, fillStyle, font, textBaseline)]
    {
      commands := commands + [Command.FillText(text, x, y, fillStyle, font, textBaseline)];
    }
  }

  /** `HTMLCanvasElement`: its drawable size in pixels, and the object `getContext('2d')`
      returns, which is the same object on every call, or null when the browser cannot
      provide a 2D context. */
  class Canvas {
    var width: nat
    var height: nat
    const context: Context2D?

    constructor (width: nat, height: nat, context: Context2D?)
      ensures this.width == width && this.height == height && this.context == context
    {
      this.width, this.height, this.context := width, height, context;
    }

    /** `canvas.width = w`: sets the drawable width, which also resets the context. */
    method SetWidth(w: nat)
      modifies this, context
      ensures width == w && height == old(height)
      ensures context != null ==> context.HasDefaultStyles() && context.commands == old(context.commands)
    {
      width := w;
      if context != null {
        context.Reset();
      }
    }

    /** `canvas.height = h`: sets the drawable height, which also resets the context. */
    method SetHeight(h: nat)
      modifies this, context
      ensures height == h && width == old(width)
      ensures context != null ==> context.HasDefaultStyles() && context.commands == old(context.commands)
    {
      height := h;
      if context != null {
        context.Reset();
      }
    }
  }
}
