/**
  The vocabulary of the display list: colours, symbolic angles, points and the
  drawing commands a shape routine issues against a 2D canvas context, plus the
  one failure a routine can report (the surface has no 2D context).
 */
module Canvas {

  /** Every shape is drawn on a 100 x 100 surface. */
  const Width: real := 100.0
  const Height: real := 100.0

  /** The centre of the surface: half the canvas extent, as the app computes it (`width / 2`). */
  const CentreX: real := Width / 2.0
  const CentreY: real := Height / 2.0

  /** A fill or stroke style. `Hsl(h, s, l)` is the CSS colour `hsl(h, s%, l%)`. */
  datatype Colour = Hsl(hue: real, saturation: int, lightness: int) | Black | White

  /** The colour every shape derives from a hue: saturation and lightness fixed at 50%. */
  function HueColour(hue: real): Colour
  {
    Hsl(hue, 50, 50)
  }

  /** The angle `num * pi / den` radians, kept symbolic so that no trigonometry is needed. */
  datatype Angle = PiRatio(num: int, den: int)

  const Zero: Angle := PiRatio(0, 1)
  const FullTurn: Angle := PiRatio(2, 1)

  /**
    A point handed to `moveTo`/`lineTo`: either plain coordinates, or the point at
    distance `radius` and angle `angle` from `(cx, cy)`, i.e.
    `(cx + radius * cos(angle), cy + radius * sin(angle))`.
   */
  datatype Point =
    | At(x: real, y: real)
    | Polar(cx: real, cy: real, radius: real, angle: Angle)

  /** One call on the 2D context (or one assignment to one of its style attributes). */
  datatype DrawOp =
    | SetFillStyle(colour: Colour)
    | SetStrokeStyle(colour: Colour)
    | SetLineWidth(width: real)
    | FillRect(x: real, y: real, w: real, h: real)
    | BeginPath
    | MoveTo(to: Point)
    | LineTo(to: Point)
    | ClosePath
    | Arc(cx: real, cy: real, radius: real, start: Angle, end: Angle)
    | Ellipse(cx: real, cy: real, rx: real, ry: real, rotation: real, start: Angle, end: Angle)
    | Fill
    | Stroke
    | Save
    | Restore
    | Translate(dx: real, dy: real)

  /** The commands that add to the current path rather than paint or change state. */
  predicate IsPathOp(op: DrawOp)
  {
    op.MoveTo? || op.LineTo? || op.ClosePath? || op.Arc? || op.Ellipse?
  }

  /** Whether `getContext("2d")` hands back a context or `null`. */
  datatype Context = Context2D | NoContext

  /** The only error a routine raises: "2d context not supported". */
  datatype RenderError = ContextNotSupported

  datatype Result<T> = Ok(value: T) | Err(error: RenderError)

  /**
    Runs a routine's drawing body against the acquired context: the whole display
    list when there is a context, the error and no command at all when there is not.
   */
  function WithContext(ctx: Context, ops: seq<DrawOp>): (r: Result<seq<DrawOp>>)
    ensures r.Err? <==> ctx.NoContext?
    ensures r.Err? ==> r.error == ContextNotSupported
    ensures r.Ok? ==> r.value == ops
  {
    match ctx
    case Context2D => Ok(ops)
    case NoContext => Err(ContextNotSupported)
  }
}
