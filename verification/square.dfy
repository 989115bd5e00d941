/** The square: one solid fill of the whole surface. */
module SquareDraw {
  import opened Canvas
  import opened Paint

  function Ops(hue: real): seq<DrawOp>
  {
    [SetFillStyle(HueColour(hue)), FillRect(0.0, 0.0, 100.0, 100.0)]
  }

  function Draw(hue: real, ctx: Context): (r: Result<seq<DrawOp>>)
    ensures r.Err? <==> ctx.NoContext?
    ensures r.Ok? ==> r.value == Ops(hue)
  {
    WithContext(ctx, Ops(hue))
  }

  /**
    On a fresh canvas the square paints exactly one thing: the rectangle covering
    the whole surface, untranslated, in `hsl(hue, 50%, 50%)`.
   */
  lemma SquareFillsSurface(hue: real)
    ensures Marks(Ops(hue)) == [RectFilled(Hsl(hue, 50, 50), Origin, 0.0, 0.0, Width, Height)]
  {
    var ops := Ops(hue);
    assert ops == [ops[0]] + [ops[1]];
    RunCons(Blank, ops[0], [ops[1]]);
    RunOne(Step(Blank, ops[0]), ops[1]);
  }
}
