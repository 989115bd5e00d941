/**
  The entry point: select the drawing routine by the shape's `type` tag and
  run it against the surface's context.
 */
module ShapeItem {
  import opened Canvas
  import opened Shapes
  import SquareDraw
  import StarDraw
  import BullseyeDraw
  import CatDraw

  /** The four drawing routines. */
  datatype Routine = Square | Star | Bullseye | Cat

  /** The `type` tag each variant carries. */
  function Tag(p: ShapeProps): string
  {
    match p
    case SquareProps(_) => "square"
    case StarProps(_, _, _, _) => "star"
    case BullseyeProps(_, _, _, _) => "bullseye"
    case CatProps(_, _) => "cat"
  }

  /** The `switch` on the tag: one routine per known tag, nothing for any other tag. */
  function Dispatch(tag: string): Option<Routine>
  {
    if tag == "square" then Some(Square)
    else if tag == "star" then Some(Star)
    else if tag == "bullseye" then Some(Bullseye)
    else if tag == "cat" then Some(Cat)
    else None
  }

  datatype Option<T> = None | Some(value: T)

  /** Whether `r` is the routine written for the variant of `p`. */
  predicate Handles(r: Routine, p: ShapeProps)
  {
    match r
    case Square => p.SquareProps?
    case Star => p.StarProps?
    case Bullseye => p.BullseyeProps?
    case Cat => p.CatProps?
  }

  /**
    Every tag a shape can carry selects a routine, and it is the routine written
    for that shape's own variant.
   */
  lemma DispatchSelectsOwnRoutine(p: ShapeProps)
    ensures Dispatch(Tag(p)).Some?
    ensures Handles(Dispatch(Tag(p)).value, p)
    ensures forall r: Routine :: Handles(r, p) ==> r == Dispatch(Tag(p)).value
  {
  }

  /** A tag selects a routine exactly when it is one of the four known tags; any other tag draws nothing. */
  lemma DispatchUnknownTag(tag: string)
    ensures Dispatch(tag).None? <==> tag !in {"square", "star", "bullseye", "cat"}
    ensures Dispatch(tag).Some? ==> exists p: ShapeProps :: Tag(p) == tag
  {
    if tag == "square" {
      assert Tag(SquareProps(0.0)) == tag;
    } else if tag == "star" {
      assert Tag(StarProps(0.0, 0, 0.0, 0.0)) == tag;
    } else if tag == "bullseye" {
      assert Tag(BullseyeProps(0.0, 0.0, 0.0, 0)) == tag;
    } else if tag == "cat" {
      assert Tag(CatProps(0.0, Left)) == tag;
    }
  }

  /** Runs routine `r` on `p`, reading `p` as the variant `r` was written for. */
  function Invoke(r: Routine, p: ShapeProps, ctx: Context): Result<seq<DrawOp>>
    requires Handles(r, p)
  {
    match r
    case Square => SquareDraw.Draw(p.hue, ctx)
    case Star => StarDraw.Draw(p.hue, p.points, p.r1, p.r2, ctx)
    case Bullseye => BullseyeDraw.Draw(p.hue, p.hue2, p.radius, p.rings, ctx)
    case Cat => CatDraw.Draw(p.hue, p.look, ctx)
  }

  /**
    Draws a shape: `None` is the dispatcher drawing nothing (an unknown tag),
    `Some(result)` is the outcome of the selected routine.
   */
  function Render(p: ShapeProps, ctx: Context): (r: Option<Result<seq<DrawOp>>>)
    ensures r.Some?
    ensures r.value.Err? <==> ctx.NoContext?
    ensures r.value.Err? ==> r.value.error == ContextNotSupported
    ensures r.value.Ok? ==> r.value.value == match p
      case SquareProps(hue) => SquareDraw.Ops(hue)
      case StarProps(hue, points, r1, r2) => StarDraw.Ops(hue, points, r1, r2)
      case BullseyeProps(hue, hue2, radius, rings) => BullseyeDraw.Ops(hue, hue2, radius, rings)
      case CatProps(hue, look) => CatDraw.Ops(hue, look)
  {
    DispatchSelectsOwnRoutine(p);
    match Dispatch(Tag(p))
    case None => None
    case Some(routine) => Some(Invoke(routine, p, ctx))
  }
}
