/** The display as the clock sees it: the `tft` object of the st7735
    driver, reduced to the sequence of drawing calls made on it. The
    driver's rendering (pixels, fonts, SPI traffic) is not part of this
    model; a call is recorded as a `Command` with its arguments. */
module Screen {
  import opened Errors

  /** A colour argument: a 16-bit value taken from the configuration or
      the source, or one of the driver's constants `TFT.BLACK` and
      `TFT.WHITE`, whose values belong to the driver. */
  datatype Color = Rgb(code: int) | Black | White

  /** A point in pixels. Coordinates are real because the bar countdown
      hands the driver fractional corners and sizes. */
  datatype Point = Pt(x: real, y: real)

  /** Where a line end or a text lands.
      `OnCircle(c, r, a)` is `c + (int(r * cos a), int(r * sin a))` and
      `LabelSpot(c, r, a)` is `c + (int(r * cos a - 2), int(r * sin a) - 4)`,
      with `a` in degrees; the trigonometry and the truncations are left
      to the reader of the command. */
  datatype Place =
    | At(p: Point)
    | OnCircle(center: Point, radius: int, degrees: real)
    | LabelSpot(center: Point, radius: int, degrees: real)

  /** One call on the driver. */
  datatype Command =
    | SetRotation(orientation: int)                               // tft.rotation
    | FillScreen(color: Color)                                    // tft.fill
    | FillRect(corner: Point, width: real, height: real, color: Color)  // tft.fillrect
    | VLine(top: Point, length: real, color: Color)               // tft.vline
    | Frame(corner: Point, width: real, height: real, color: Color)     // tft.rect
    | Line(from: Place, to: Place, color: Color)                  // tft.line
    | Text(at: Place, text: string, color: Color, scale: Option<int>)   // tft.text
    | PercentText(at: Place, value: real, decimals: int, color: Color, scale: Option<int>)
    | Circle(center: Point, radius: int, color: Color)            // tft.circle

  /** What one drawing routine did: the calls it made, in order, and the
      exception that ended it, if any. */
  datatype Drawing = Drawing(cmds: seq<Command>, failure: Option<Failure>)

  /** The `tft` object. Every driver call appends its command and changes
      nothing else. */
  class Tft {
    var log: seq<Command>

    constructor ()
      ensures log == []
    {
      log := [];
    }

    method Rotate(orientation: int)
      modifies this
      ensures log == old(log) + [SetRotation(orientation)]
    {
      log := log + [SetRotation(orientation)];
    }

    method Fill(color: Color)
      modifies this
      ensures log == old(log) + [FillScreen(color)]
    {
      log := log + [FillScreen(color)];
    }

    method FillArea(corner: Point, width: real, height: real, color: Color)
      modifies this
      ensures log == old(log) + [FillRect(corner, width, height, color)]
    {
      log := log + [FillRect(corner, width, height, color)];
    }

    method DrawVLine(top: Point, length: real, color: Color)
      modifies this
      ensures log == old(log) + [VLine(top, length, color)]
    {
      log := log + [VLine(top, length, color)];
    }

    method DrawFrame(corner: Point, width: real, height: real, color: Color)
      modifies this
      ensures log == old(log) + [Frame(corner, width, height, color)]
    {
      log := log + [Frame(corner, width, height, color)];
    }

    method DrawLine(from: Place, to: Place, color: Color)
      modifies this
      ensures log == old(log) + [Line(from, to, color)]
    {
      log := log + [Line(from, to, color)];
    }

    method DrawText(at: Place, text: string, color: Color, scale: Option<int>)
      modifies this
      ensures log == old(log) + [Text(at, text, color, scale)]
    {
      log := log + [Text(at, text, color, scale)];
    }

    /** `tft.text` given `f"{value:.{decimals}f}%"`; the decimal rendering
        of the float is not modelled, so the value and precision are kept. */
    method DrawPercent(at: Place, value: real, decimals: int, color: Color, scale: Option<int>)
      modifies this
      ensures log == old(log) + [PercentText(at, value, decimals, color, scale)]
    {
      log := log + [PercentText(at, value, decimals, color, scale)];
    }

    method DrawCircle(center: Point, radius: int, color: Color)
      modifies this
      ensures log == old(log) + [Circle(center, radius, color)]
    {
      log := log + [Circle(center, radius, color)];
    }
  }
}
