/**
  The star: a closed polygon through `2 * points` vertices about the centre of
  the surface, alternating between the outer radius `r2` and the inner radius
  `r1`, stroked in black and then filled with the hue.
 */
module StarDraw {
  import opened Canvas
  import opened Paint

  /** Vertex `i` lies on the outer radius when `i` is even, on the inner one when odd. */
  function VertexRadius(i: int, r1: real, r2: real): real
  {
    if i % 2 == 0 then r2 else r1
  }

  /** Vertex `i` of a star with `points` points: angle `i * pi / points` about the centre. */
  function Vertex(i: int, points: int, r1: real, r2: real): Point
  {
    Polar(CentreX, CentreY, VertexRadius(i, r1, r2), PiRatio(i, points))
  }

  /**
    The commands the vertex loop issues for `i, i + 1, ..., count - 1`: a `moveTo`
    for vertex 0 and a `lineTo` for every other vertex.
   */
  function VerticesFrom(i: nat, count: int, points: int, r1: real, r2: real): (path: seq<DrawOp>)
    ensures |path| == if i < count then count - i else 0
    ensures forall k :: 0 <= k < |path| ==>
      && (path[k].MoveTo? || path[k].LineTo?)
      && (path[k].MoveTo? <==> i + k == 0)
      && path[k].to == Vertex(i + k, points, r1, r2)
    decreases count - i
  {
    if i >= count then []
    else
      var p := Vertex(i, points, r1, r2);
      [if i == 0 then MoveTo(p) else LineTo(p)] + VerticesFrom(i + 1, count, points, r1, r2)
  }

  /** The path of the star: all its vertices, then `closePath`. */
  function Outline(points: int, r1: real, r2: real): seq<DrawOp>
  {
    VerticesFrom(0, points * 2, points, r1, r2) + [ClosePath]
  }

  function Ops(hue: real, points: int, r1: real, r2: real): seq<DrawOp>
  {
    Setup(hue) + Outline(points, r1, r2) + [Stroke, Fill]
  }

  function Draw(hue: real, points: int, r1: real, r2: real, ctx: Context): (r: Result<seq<DrawOp>>)
    ensures r.Err? <==> ctx.NoContext?
    ensures r.Ok? ==> r.value == Ops(hue, points, r1, r2)
  {
    WithContext(ctx, Ops(hue, points, r1, r2))
  }

  /**
    The path has exactly `2 * points` vertices, sitting at positions 4 to
    `3 + 2 * points` of the display list: the first a `moveTo`, every later one a
    `lineTo`; the path is then closed, and nothing else in the list is a vertex.
   */
  lemma StarPathShape(hue: real, points: int, r1: real, r2: real)
    requires points >= 1
    ensures var ops := Ops(hue, points, r1, r2);
      && |ops| == 2 * points + 7
      && (forall k :: 0 <= k < |ops| ==> ((ops[k].MoveTo? || ops[k].LineTo?) <==> 4 <= k < 4 + 2 * points))
      && ops[4].MoveTo?
      && (forall k :: 5 <= k < 4 + 2 * points ==> ops[k].LineTo?)
      && ops[4 + 2 * points] == ClosePath
  {
    var ops := Ops(hue, points, r1, r2);
    var v := VerticesFrom(0, points * 2, points, r1, r2);
    assert ops == [ops[0], ops[1], ops[2], ops[3]] + v + [ClosePath, Stroke, Fill];
  }

  /**
    Vertex `i` of the path (for `0 <= i < 2 * points`) is the point at radius `r2`
    when `i` is even and `r1` when `i` is odd, at angle `i * pi / points` about (50, 50).
   */
  lemma StarVertexSchedule(hue: real, points: int, r1: real, r2: real, i: int)
    requires 0 <= i < 2 * points
    ensures var v := Ops(hue, points, r1, r2)[4 + i].to;
      && v.Polar?
      && v.cx == 50.0 && v.cy == 50.0
      && v.angle == PiRatio(i, points)
      && (i % 2 == 0 ==> v.radius == r2)
      && (i % 2 == 1 ==> v.radius == r1)
  {
    var ops := Ops(hue, points, r1, r2);
    var v := VerticesFrom(0, points * 2, points, r1, r2);
    assert ops == [ops[0], ops[1], ops[2], ops[3]] + v + [ClosePath, Stroke, Fill];
    assert ops[4 + i] == v[i];
  }

  /** The style commands and `beginPath` that precede the vertex loop. */
  function Setup(hue: real): seq<DrawOp>
  {
    [SetFillStyle(HueColour(hue)), SetStrokeStyle(Black), SetLineWidth(2.0), BeginPath]
  }

  lemma RunSetup(hue: real)
    ensures Run(Blank, Setup(hue)) == State(Style(HueColour(hue), Black, 2.0, Origin), [], [], [])
  {
    var setup := Setup(hue);
    var s1 := Step(Blank, setup[0]);
    var s2 := Step(s1, setup[1]);
    var s3 := Step(s2, setup[2]);
    assert setup == [setup[0]] + ([setup[1]] + ([setup[2]] + [setup[3]]));
    RunCons(Blank, setup[0], [setup[1]] + ([setup[2]] + [setup[3]]));
    RunCons(s1, setup[1], [setup[2]] + [setup[3]]);
    RunCons(s2, setup[2], [setup[3]]);
    RunOne(s3, setup[3]);
  }

  lemma OutlineIsPath(points: int, r1: real, r2: real)
    ensures forall k :: 0 <= k < |Outline(points, r1, r2)| ==> IsPathOp(Outline(points, r1, r2)[k])
  {
    var outline := Outline(points, r1, r2);
    var v := VerticesFrom(0, points * 2, points, r1, r2);
    forall k | 0 <= k < |outline|
      ensures IsPathOp(outline[k])
    {
      if k < |v| {
        assert outline[k] == v[k];
      }
    }
  }

  /**
    On a fresh canvas the star paints twice, over the same closed path of its
    `2 * points` vertices: first the outline in black with width 2, then the
    interior in `hsl(hue, 50%, 50%)` on top of it.
   */
  lemma StarStrokeThenFill(hue: real, points: int, r1: real, r2: real)
    ensures var path := Place(Origin, Outline(points, r1, r2));
      && |path| == 2 * (if points > 0 then points else 0) + 1
      && path[|path| - 1] == Placed(Origin, ClosePath)
      && Marks(Ops(hue, points, r1, r2)) == [Stroked(Black, 2.0, path), Filled(Hsl(hue, 50, 50), path)]
  {
    var outline := Outline(points, r1, r2);
    var setup := Setup(hue);
    assert Ops(hue, points, r1, r2) == setup + outline + [Stroke, Fill];
    RunAppend(Blank, setup + outline, [Stroke, Fill]);
    RunAppend(Blank, setup, outline);
    RunSetup(hue);
    var s4 := Run(Blank, setup);

    OutlineIsPath(points, r1, r2);
    RunPathOps(s4, outline);
    var s5 := Run(s4, outline);
    var path := Place(Origin, outline);
    assert s5 == s4.(path := path);

    assert [Stroke, Fill] == [Stroke] + [Fill];
    RunCons(s5, Stroke, [Fill]);
    RunOne(Step(s5, Stroke), Fill);
  }
}
