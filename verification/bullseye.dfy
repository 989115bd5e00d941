/**
  The bullseye: `rings` concentric circles about the centre of the surface,
  from the outer radius inwards in steps of `radius / rings`, each filled in
  one of two alternating hues and then outlined in black.
 */
module BullseyeDraw {
  import opened Canvas
  import opened Paint

  /** The radius of ring `i`: the outer radius less `i` ring widths. */
  function RingRadius(radius: real, rings: int, i: int): real
    requires rings != 0
  {
    radius - (i as real) * (radius / (rings as real))
  }

  /** Even rings take the first hue, odd rings the second. */
  function RingColour(hue: real, hue2: real, i: int): Colour
  {
    if i % 2 == 0 then HueColour(hue) else HueColour(hue2)
  }

  function Circle(radius: real, rings: int, i: int): DrawOp
    requires rings != 0
  {
    Arc(CentreX, CentreY, RingRadius(radius, rings, i), Zero, FullTurn)
  }

  /** One pass of the ring loop. */
  function RingOps(hue: real, hue2: real, radius: real, rings: int, i: int): seq<DrawOp>
    requires rings != 0
  {
    [BeginPath, Circle(radius, rings, i), SetFillStyle(RingColour(hue, hue2, i)), Fill, Stroke, ClosePath]
  }

  /** The passes of the ring loop for `i, i + 1, ..., rings - 1`. */
  function RingsFrom(hue: real, hue2: real, radius: real, rings: int, i: nat): (ops: seq<DrawOp>)
    ensures |ops| == if i < rings then 6 * (rings - i) else 0
    decreases rings - i
  {
    if i >= rings then []
    else RingOps(hue, hue2, radius, rings, i) + RingsFrom(hue, hue2, radius, rings, i + 1)
  }

  function Ops(hue: real, hue2: real, radius: real, rings: int): seq<DrawOp>
  {
    [SetStrokeStyle(Black), SetLineWidth(2.0)] + RingsFrom(hue, hue2, radius, rings, 0)
  }

  function Draw(hue: real, hue2: real, radius: real, rings: int, ctx: Context): (r: Result<seq<DrawOp>>)
    ensures r.Err? <==> ctx.NoContext?
    ensures r.Ok? ==> r.value == Ops(hue, hue2, radius, rings)
  {
    WithContext(ctx, Ops(hue, hue2, radius, rings))
  }

  /**
    With a positive radius and at least one ring, ring 0 has the full radius and
    every ring the loop draws has a radius between `radius / rings` (the last
    ring) and `radius`, so it is positive.
   */
  lemma RingRadiusPositive(radius: real, rings: int, i: int)
    requires radius > 0.0 && rings >= 1
    requires 0 <= i < rings
    ensures RingRadius(radius, rings, 0) == radius
    ensures radius / (rings as real) <= RingRadius(radius, rings, i) <= radius
    ensures RingRadius(radius, rings, i) > 0.0
  {
    var w := radius / (rings as real);
    assert w > 0.0;
    assert (rings as real) * w == radius;
    assert 0.0 <= (i as real) * w <= ((rings - 1) as real) * w;
  }

  /**
    With a positive radius and at least one ring, the ring radii fall strictly
    from `radius` for ring 0 to `radius / rings` for the last ring, so every one
    of them is positive.
   */
  lemma RingRadiiDecreasing(radius: real, rings: int, i: int, j: int)
    requires radius > 0.0 && rings >= 1
    requires 0 <= i < j < rings
    ensures RingRadius(radius, rings, 0) == radius
    ensures RingRadius(radius, rings, i) > RingRadius(radius, rings, j) > 0.0
  {
    var w := radius / (rings as real);
    assert w > 0.0;
    assert (rings as real) * w == radius;
    assert (i as real) * w < (j as real) * w;
    assert (j as real) * w <= ((rings - 1) as real) * w == radius - w;
  }

  /** What one ring paints on a context stroking black at width 2: a fill of the circle, then its outline. */
  function RingMarks(hue: real, hue2: real, radius: real, rings: int, o: Offset, i: int): seq<Mark>
    requires rings != 0
  {
    var circle := [Placed(o, Circle(radius, rings, i))];
    [Filled(RingColour(hue, hue2, i), circle), Stroked(Black, 2.0, circle)]
  }

  lemma RunRing(s: State, hue: real, hue2: real, radius: real, rings: int, i: int)
    requires rings != 0
    requires s.style.stroke == Black && s.style.lineWidth == 2.0
    ensures var t := Run(s, RingOps(hue, hue2, radius, rings, i));
      && t.style == s.style.(fill := RingColour(hue, hue2, i))
      && t.marks == s.marks + RingMarks(hue, hue2, radius, rings, s.style.origin, i)
  {
    var ops := RingOps(hue, hue2, radius, rings, i);
    var s1 := Step(s, ops[0]);
    var s2 := Step(s1, ops[1]);
    var s3 := Step(s2, ops[2]);
    var s4 := Step(s3, ops[3]);
    var s5 := Step(s4, ops[4]);
    assert ops == [ops[0]] + ([ops[1]] + ([ops[2]] + ([ops[3]] + ([ops[4]] + [ops[5]]))));
    RunCons(s, ops[0], [ops[1]] + ([ops[2]] + ([ops[3]] + ([ops[4]] + [ops[5]]))));
    RunCons(s1, ops[1], [ops[2]] + ([ops[3]] + ([ops[4]] + [ops[5]])));
    RunCons(s2, ops[2], [ops[3]] + ([ops[4]] + [ops[5]]));
    RunCons(s3, ops[3], [ops[4]] + [ops[5]]);
    RunCons(s4, ops[4], [ops[5]]);
    RunOne(s5, ops[5]);
    StepPathOp(s1, ops[1]);
    assert s2.path == [Placed(s.style.origin, ops[1])];
    assert s4.marks == s.marks + [Filled(RingColour(hue, hue2, i), s2.path)];
  }

  /** What the passes `i .. rings - 1` paint, ring after ring. */
  function RingsMarks(hue: real, hue2: real, radius: real, rings: int, o: Offset, i: nat): (m: seq<Mark>)
    ensures |m| == if i < rings then 2 * (rings - i) else 0
    decreases rings - i
  {
    if i >= rings then []
    else RingMarks(hue, hue2, radius, rings, o, i) + RingsMarks(hue, hue2, radius, rings, o, i + 1)
  }

  /** Mark `j` of the passes from ring `i` belongs to ring `i + j / 2`: its fill when `j` is even, its outline when odd. */
  lemma {:induction false} RingsMarksAt(hue: real, hue2: real, radius: real, rings: int, o: Offset, i: nat, j: int)
    requires 0 <= j < |RingsMarks(hue, hue2, radius, rings, o, i)|
    ensures rings != 0
    ensures RingsMarks(hue, hue2, radius, rings, o, i)[j] == RingMarks(hue, hue2, radius, rings, o, i + j / 2)[j % 2]
    decreases rings - i
  {
    if j >= 2 {
      RingsMarksAt(hue, hue2, radius, rings, o, i + 1, j - 2);
      assert (j - 2) / 2 + 1 == j / 2 && (j - 2) % 2 == j % 2;
    }
  }

  lemma {:induction false} RunRings(s: State, hue: real, hue2: real, radius: real, rings: int, i: nat)
    requires s.style.stroke == Black && s.style.lineWidth == 2.0
    ensures var t := Run(s, RingsFrom(hue, hue2, radius, rings, i));
      && t.style.stroke == Black && t.style.lineWidth == 2.0 && t.style.origin == s.style.origin
      && t.marks == s.marks + RingsMarks(hue, hue2, radius, rings, s.style.origin, i)
    decreases rings - i
  {
    if i >= rings {
      assert s.marks + [] == s.marks;
    } else {
      var o := s.style.origin;
      var ring := RingOps(hue, hue2, radius, rings, i);
      var rest := RingsFrom(hue, hue2, radius, rings, i + 1);
      var s1 := Run(s, ring);
      assert Run(s, RingsFrom(hue, hue2, radius, rings, i)) == Run(s1, rest) by {
        RunAppend(s, ring, rest);
      }
      assert s1.style.stroke == Black && s1.style.lineWidth == 2.0 && s1.style.origin == o
        && s1.marks == s.marks + RingMarks(hue, hue2, radius, rings, o, i) by {
        RunRing(s, hue, hue2, radius, rings, i);
      }
      var t := Run(s1, rest);
      assert t.style.stroke == Black && t.style.lineWidth == 2.0 && t.style.origin == o
        && t.marks == s1.marks + RingsMarks(hue, hue2, radius, rings, o, i + 1) by {
        RunRings(s1, hue, hue2, radius, rings, i + 1);
      }
      assert RingsMarks(hue, hue2, radius, rings, o, i)
        == RingMarks(hue, hue2, radius, rings, o, i) + RingsMarks(hue, hue2, radius, rings, o, i + 1);
    }
  }

  /** On a fresh canvas the bullseye paints what its ring passes paint, from ring 0. */
  lemma BullseyeMarks(hue: real, hue2: real, radius: real, rings: int)
    ensures Marks(Ops(hue, hue2, radius, rings)) == RingsMarks(hue, hue2, radius, rings, Origin, 0)
  {
    var setup := [SetStrokeStyle(Black), SetLineWidth(2.0)];
    var rest := RingsFrom(hue, hue2, radius, rings, 0);
    var s := Run(Blank, setup);
    assert Run(Blank, Ops(hue, hue2, radius, rings)) == Run(s, rest) by {
      RunAppend(Blank, setup, rest);
    }
    assert s == State(Style(Black, Black, 2.0, Origin), [], [], []) by {
      assert setup == [setup[0]] + [setup[1]];
      RunCons(Blank, setup[0], [setup[1]]);
      RunOne(Step(Blank, setup[0]), setup[1]);
    }
    RunRings(s, hue, hue2, radius, rings, 0);
    assert [] + RingsMarks(hue, hue2, radius, rings, Origin, 0) == RingsMarks(hue, hue2, radius, rings, Origin, 0);
  }

  /**
    On a fresh canvas the bullseye paints exactly `2 * max(rings, 0)` times:
    for each ring `i` in order, first a fill, then a black outline of width 2, of
    the circle about (50, 50) with radius `radius - i * (radius / rings)`; the fill
    is `hsl(hue, 50%, 50%)` for even `i` and `hsl(hue2, 50%, 50%)` for odd `i`.
    No rings (`rings <= 0`) means nothing is painted.
   */
  lemma BullseyeRings(hue: real, hue2: real, radius: real, rings: int)
    ensures var m := Marks(Ops(hue, hue2, radius, rings));
      && |m| == 2 * (if rings > 0 then rings else 0)
      && forall j :: 0 <= j < |m| ==>
        var i := j / 2;
        var circle := [Placed(Origin, Arc(50.0, 50.0, RingRadius(radius, rings, i), Zero, FullTurn))];
        && (j % 2 == 0 && i % 2 == 0 ==> m[j] == Filled(Hsl(hue, 50, 50), circle))
        && (j % 2 == 0 && i % 2 == 1 ==> m[j] == Filled(Hsl(hue2, 50, 50), circle))
        && (j % 2 == 1 ==> m[j] == Stroked(Black, 2.0, circle))
  {
    var m := RingsMarks(hue, hue2, radius, rings, Origin, 0);
    assert Marks(Ops(hue, hue2, radius, rings)) == m by {
      BullseyeMarks(hue, hue2, radius, rings);
    }
    forall j | 0 <= j < |m|
      ensures var i := j / 2;
        var circle := [Placed(Origin, Arc(50.0, 50.0, RingRadius(radius, rings, i), Zero, FullTurn))];
        && (j % 2 == 0 && i % 2 == 0 ==> m[j] == Filled(Hsl(hue, 50, 50), circle))
        && (j % 2 == 0 && i % 2 == 1 ==> m[j] == Filled(Hsl(hue2, 50, 50), circle))
        && (j % 2 == 1 ==> m[j] == Stroked(Black, 2.0, circle))
    {
      RingMarkShape(hue, hue2, radius, rings, j);
    }
  }

  lemma RingMarkShape(hue: real, hue2: real, radius: real, rings: int, j: int)
    requires 0 <= j < |RingsMarks(hue, hue2, radius, rings, Origin, 0)|
    ensures var m := RingsMarks(hue, hue2, radius, rings, Origin, 0);
      var i := j / 2;
      var circle := [Placed(Origin, Arc(50.0, 50.0, RingRadius(radius, rings, i), Zero, FullTurn))];
      && (j % 2 == 0 && i % 2 == 0 ==> m[j] == Filled(Hsl(hue, 50, 50), circle))
      && (j % 2 == 0 && i % 2 == 1 ==> m[j] == Filled(Hsl(hue2, 50, 50), circle))
      && (j % 2 == 1 ==> m[j] == Stroked(Black, 2.0, circle))
  {
    var i := j / 2;
    RingsMarksAt(hue, hue2, radius, rings, Origin, 0, j);
    var circle := [Placed(Origin, Arc(50.0, 50.0, RingRadius(radius, rings, i), Zero, FullTurn))];
    assert Circle(radius, rings, i) == circle[0].op;
    var ring := RingMarks(hue, hue2, radius, rings, Origin, i);
    assert ring == [Filled(RingColour(hue, hue2, i), circle), Stroked(Black, 2.0, circle)];
  }
}
