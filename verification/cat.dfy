/**
  The cat face: a fixed figure drawn about the centre of the surface inside a
  `save()`/`restore()` bracket. Only the pupils depend on where the cat looks.
 */
module CatDraw {
  import opened Canvas
  import opened Paint
  import opened Shapes

  /** How far both pupils move horizontally from the middle of their eyes. */
  function PupilShift(look: Look): real
  {
    if look == Left then -3.0
    else if look == Centre then 0.0
    else 3.0
  }

  /** The styles in force on entry, the `save()` and the move of the origin to the centre. */
  function Setup(hue: real): seq<DrawOp>
  {
    [SetFillStyle(HueColour(hue)), SetStrokeStyle(Black), SetLineWidth(2.0), Save, Translate(CentreX, CentreY)]
  }

  /** The circle of the head, radius 40 about the translated origin. */
  function HeadPath(): seq<DrawOp>
  {
    [Arc(0.0, 0.0, 40.0, Zero, FullTurn)]
  }

  /** Both ears as one path of two closed triangles, left then right. */
  function EarsPath(): seq<DrawOp>
  {
    [MoveTo(At(-40.0, -48.0)), LineTo(At(-8.0, -36.0)), LineTo(At(-35.0, -14.0)), ClosePath,
     MoveTo(At(40.0, -48.0)), LineTo(At(8.0, -36.0)), LineTo(At(35.0, -14.0)), ClosePath]
  }

  /** The white of the eye centred at `(eyeX, -9)`. */
  function EyeWhitePath(eyeX: real): seq<DrawOp>
  {
    [Ellipse(eyeX, -9.0, 8.0, 14.0, 0.0, Zero, FullTurn)]
  }

  /** The styles of the eye whites: black outline of width 1, white fill. */
  function EyeStyles(): seq<DrawOp>
  {
    [SetStrokeStyle(Black), SetFillStyle(White), SetLineWidth(1.0)]
  }

  /**
    The face over its paths: head outline, ears (stroked then filled as one
    path), head fill, then the eye styles and both eye whites.
   */
  function FaceOf(head: seq<DrawOp>, ears: seq<DrawOp>, eyeL: seq<DrawOp>, eyeR: seq<DrawOp>): seq<DrawOp>
  {
    (Block(head, [Stroke]) + Block(ears, [Stroke, Fill]) + Block(head, [Fill]))
    + (EyeStyles() + Block(eyeL, [Fill, Stroke]) + Block(eyeR, [Fill, Stroke]))
  }

  function Face(): seq<DrawOp>
  {
    FaceOf(HeadPath(), EarsPath(), EyeWhitePath(-16.0), EyeWhitePath(16.0))
  }

  function Pupil(eyeX: real, look: Look): DrawOp
  {
    Arc(eyeX + PupilShift(look), -9.0, 5.0, Zero, FullTurn)
  }

  function Pupils(look: Look): seq<DrawOp>
  {
    [SetFillStyle(Black)] + Block([Pupil(-16.0, look)], [Fill]) + Block([Pupil(16.0, look)], [Fill])
  }

  function Ops(hue: real, look: Look): seq<DrawOp>
  {
    Setup(hue) + Face() + Pupils(look) + [Restore]
  }

  function Draw(hue: real, look: Look, ctx: Context): (r: Result<seq<DrawOp>>)
    ensures r.Err? <==> ctx.NoContext?
    ensures r.Ok? ==> r.value == Ops(hue, look)
  {
    WithContext(ctx, Ops(hue, look))
  }

  /** Where the two pupils and the two eye whites sit in the display list. */
  const LeftEye: nat := 26
  const RightEye: nat := 30
  const LeftPupil: nat := 35
  const RightPupil: nat := 38

  lemma Layout(hue: real, look: Look)
    ensures var ops := Ops(hue, look);
      && |ops| == 41
      && ops[..5] == Setup(hue)
      && ops[5..33] == Face()
      && ops[33..40] == Pupils(look)
      && ops[40] == Restore
  {
    var ops := Ops(hue, look);
    assert |Face()| == 28;
    assert ops[..5] == Setup(hue);
    assert ops[5..33] == Face();
    assert ops[33..40] == Pupils(look);
  }

  /**
    Both pupils are circles of radius 5 at height -9, the height of the eye
    whites, moved by the same amount from the middle of their own eye white:
    -3 when looking left, 0 when looking at the centre, +3 when looking right.
   */
  lemma PupilsShiftTogether(hue: real, look: Look)
    ensures var ops := Ops(hue, look);
      var x := if look == Left then -3.0 else if look == Centre then 0.0 else 3.0;
      && ops[LeftEye].Ellipse? && ops[RightEye].Ellipse?
      && ops[LeftPupil].Arc? && ops[RightPupil].Arc?
      && ops[LeftPupil].cx == ops[LeftEye].cx + x == -16.0 + x
      && ops[RightPupil].cx == ops[RightEye].cx + x == 16.0 + x
      && ops[LeftPupil].cy == ops[LeftEye].cy == -9.0
      && ops[RightPupil].cy == ops[RightEye].cy == -9.0
      && ops[LeftPupil].radius == ops[RightPupil].radius == 5.0
  {
    Layout(hue, look);
    var ops := Ops(hue, look);
    assert ops[LeftEye] == Face()[21];
    assert ops[RightEye] == Face()[25];
    assert ops[LeftPupil] == Pupils(look)[2];
    assert ops[RightPupil] == Pupils(look)[5];
  }

  /**
    Where the cat looks changes the two pupil arcs and nothing else: for any two
    looks the display lists have the same length and agree at every other position.
   */
  lemma LookMovesOnlyPupils(hue: real, a: Look, b: Look)
    ensures var opsA := Ops(hue, a);
      var opsB := Ops(hue, b);
      && |opsA| == |opsB|
      && (forall k :: 0 <= k < |opsA| && k != LeftPupil && k != RightPupil ==> opsA[k] == opsB[k])
      && (a != b ==> opsA[LeftPupil] != opsB[LeftPupil] && opsA[RightPupil] != opsB[RightPupil])
  {
    Layout(hue, a);
    Layout(hue, b);
    var opsA := Ops(hue, a);
    var opsB := Ops(hue, b);
    forall k | 0 <= k < |opsA| && k != LeftPupil && k != RightPupil
      ensures opsA[k] == opsB[k]
    {
      if k < 33 {
        assert opsA[k] == (Setup(hue) + Face())[k] == opsB[k];
      } else if k < 40 {
        assert opsA[k] == Pupils(a)[k - 33];
        assert opsB[k] == Pupils(b)[k - 33];
      }
    }
  }

  /** The figure between `save()` and `restore()`: the translation, the face and the pupils. */
  function Framed(look: Look): seq<DrawOp>
  {
    [Translate(CentreX, CentreY)] + Face() + Pupils(look)
  }

  lemma FramedHasNoSaveOrRestore(look: Look)
    ensures Save !in Framed(look) && Restore !in Framed(look)
  {
    var face := Face();
    forall k | 0 <= k < |face|
      ensures face[k] != Save && face[k] != Restore
    {
    }
    var pupils := Pupils(look);
    forall k | 0 <= k < |pupils|
      ensures pupils[k] != Save && pupils[k] != Restore
    {
    }
  }

  /** The styles, the translated figure and its bracket, in display-list order. */
  lemma OpsBracketed(hue: real, look: Look)
    ensures Ops(hue, look) == Setup(hue)[..3] + ([Save] + Framed(look) + [Restore])
  {
    var setup := Setup(hue);
    assert setup == setup[..3] + [Save] + [Translate(CentreX, CentreY)];
  }

  /** Where `save()` and `restore()` sit in `pre + [Save] + body + [Restore]` when no other part holds one. */
  lemma BracketPositions(pre: seq<DrawOp>, body: seq<DrawOp>)
    requires Save !in pre && Restore !in pre && Save !in body && Restore !in body
    ensures var ops := pre + ([Save] + body + [Restore]);
      && (forall k :: 0 <= k < |ops| ==> (ops[k] == Save <==> k == |pre|))
      && (forall k :: 0 <= k < |ops| ==> (ops[k] == Restore <==> k == |ops| - 1))
  {
    var ops := pre + ([Save] + body + [Restore]);
    forall k | 0 <= k < |ops|
      ensures ops[k] == Save <==> k == |pre|
      ensures ops[k] == Restore <==> k == |ops| - 1
    {
      if k < |pre| {
        assert ops[k] == pre[k];
      } else if |pre| < k < |ops| - 1 {
        assert ops[k] == body[k - |pre| - 1];
      }
    }
  }

  lemma RunStyles(hue: real)
    ensures Run(Blank, Setup(hue)[..3]) == State(Style(HueColour(hue), Black, 2.0, Origin), [], [], [])
  {
    var styles := Setup(hue)[..3];
    var s1 := Step(Blank, styles[0]);
    var s2 := Step(s1, styles[1]);
    assert styles == [styles[0]] + ([styles[1]] + [styles[2]]);
    RunCons(Blank, styles[0], [styles[1]] + [styles[2]]);
    RunCons(s1, styles[1], [styles[2]]);
    RunOne(s2, styles[2]);
  }

  /**
    The figure is drawn in a translated frame that does not leak: the display
    list's `save()` is followed at once by a translation to the centre (50, 50),
    it ends with the matching `restore()`, and there is no other `save()` or
    `restore()` in it.
   */
  lemma SaveRestoreBracket(hue: real, look: Look)
    ensures var ops := Ops(hue, look);
      && ops[3] == Save && ops[4] == Translate(50.0, 50.0) && ops[|ops| - 1] == Restore
      && (forall k :: 0 <= k < |ops| ==> (ops[k] == Save <==> k == 3))
      && (forall k :: 0 <= k < |ops| ==> (ops[k] == Restore <==> k == |ops| - 1))
  {
    var styles := Setup(hue)[..3];
    OpsBracketed(hue, look);
    FramedHasNoSaveOrRestore(look);
    assert Save !in styles && Restore !in styles;
    BracketPositions(styles, Framed(look));
    assert Ops(hue, look)[4] == Framed(look)[0];
  }

  /**
    On a fresh canvas, once the cat is drawn the context is left with the
    styles set before `save()`, no translation and an empty save stack.
   */
  lemma TransformRestored(hue: real, look: Look)
    ensures Run(Blank, Ops(hue, look)).style == Style(Hsl(hue, 50, 50), Black, 2.0, Origin)
    ensures Run(Blank, Ops(hue, look)).saved == []
  {
    var styles := Setup(hue)[..3];
    var body := Framed(look);
    OpsBracketed(hue, look);
    FramedHasNoSaveOrRestore(look);
    RunAppend(Blank, styles, [Save] + body + [Restore]);
    RunStyles(hue);
    Bracketed(Run(Blank, styles), body);
  }

  /** The translation the figure is drawn in: the centre of the surface. */
  const Middle: Offset := Offset(50.0, 50.0)

  lemma RunSetup(hue: real)
    ensures Run(Blank, Setup(hue)) ==
      State(Style(HueColour(hue), Black, 2.0, Middle), [Style(HueColour(hue), Black, 2.0, Origin)], [], [])
  {
    var setup := Setup(hue);
    assert setup == setup[..3] + [Save, Translate(CentreX, CentreY)];
    RunAppend(Blank, setup[..3], [Save, Translate(CentreX, CentreY)]);
    RunStyles(hue);
    var s := Run(Blank, setup[..3]);
    RunCons(s, Save, [Translate(CentreX, CentreY)]);
    RunOne(Step(s, Save), Translate(CentreX, CentreY));
  }

  /** The marks of one block on the state `s`, for the paint lists the cat uses. */
  lemma BlockMarks(s: State, path: seq<DrawOp>, paints: seq<DrawOp>)
    requires forall k :: 0 <= k < |path| ==> IsPathOp(path[k])
    requires paints == [Stroke] || paints == [Fill] || paints == [Stroke, Fill] || paints == [Fill, Stroke]
    ensures var p := Place(s.style.origin, path);
      var t := Run(s, Block(path, paints));
      var filled := Filled(s.style.fill, p);
      var stroked := Stroked(s.style.stroke, s.style.lineWidth, p);
      && t.style == s.style && t.saved == s.saved
      && (paints == [Stroke] ==> t.marks == s.marks + [stroked])
      && (paints == [Fill] ==> t.marks == s.marks + [filled])
      && (paints == [Stroke, Fill] ==> t.marks == s.marks + [stroked, filled])
      && (paints == [Fill, Stroke] ==> t.marks == s.marks + [filled, stroked])
  {
    RunBlock(s, path, paints);
    var p := Place(s.style.origin, path);
    var m := PaintMarks(s.style, p, paints);
    if paints == [Stroke] {
      assert m == [Stroked(s.style.stroke, s.style.lineWidth, p)];
    } else if paints == [Fill] {
      assert m == [Filled(s.style.fill, p)];
    } else if paints == [Stroke, Fill] {
      assert m == [Stroked(s.style.stroke, s.style.lineWidth, p), Filled(s.style.fill, p)];
    } else {
      assert m == [Filled(s.style.fill, p), Stroked(s.style.stroke, s.style.lineWidth, p)];
    }
  }

  /** Head outline, ears and head fill, in the styles set before `save()`. */
  lemma RunHeadAndEars(s: State, f: Colour, head: seq<DrawOp>, ears: seq<DrawOp>)
    requires s.style == Style(f, Black, 2.0, s.style.origin)
    requires forall k :: 0 <= k < |head| ==> IsPathOp(head[k])
    requires forall k :: 0 <= k < |ears| ==> IsPathOp(ears[k])
    ensures var o := s.style.origin;
      var t := Run(s, Block(head, [Stroke]) + Block(ears, [Stroke, Fill]) + Block(head, [Fill]));
      && t.style == s.style && t.saved == s.saved
      && t.marks == s.marks + [Stroked(Black, 2.0, Place(o, head)), Stroked(Black, 2.0, Place(o, ears)),
                               Filled(f, Place(o, ears)), Filled(f, Place(o, head))]
  {
    var o := s.style.origin;
    var b1 := Block(head, [Stroke]);
    var b2 := Block(ears, [Stroke, Fill]);
    var b3 := Block(head, [Fill]);
    var t1 := Run(s, b1);
    assert t1.style == s.style && t1.saved == s.saved && t1.marks == s.marks + [Stroked(Black, 2.0, Place(o, head))] by {
      BlockMarks(s, head, [Stroke]);
    }
    var t2 := Run(t1, b2);
    assert t2.style == s.style && t2.saved == s.saved
      && t2.marks == t1.marks + [Stroked(Black, 2.0, Place(o, ears)), Filled(f, Place(o, ears))] by {
      BlockMarks(t1, ears, [Stroke, Fill]);
    }
    var t3 := Run(t2, b3);
    assert t3.style == s.style && t3.saved == s.saved && t3.marks == t2.marks + [Filled(f, Place(o, head))] by {
      BlockMarks(t2, head, [Fill]);
    }
    assert Run(s, b1 + b2 + b3) == t3 by {
      RunAppend(s, b1, b2);
      RunAppend(s, b1 + b2, b3);
    }
  }

  /** The eye styles, then both eye whites. */
  lemma RunEyeWhites(s: State, eyeL: seq<DrawOp>, eyeR: seq<DrawOp>)
    requires forall k :: 0 <= k < |eyeL| ==> IsPathOp(eyeL[k])
    requires forall k :: 0 <= k < |eyeR| ==> IsPathOp(eyeR[k])
    ensures var o := s.style.origin;
      var t := Run(s, EyeStyles() + Block(eyeL, [Fill, Stroke]) + Block(eyeR, [Fill, Stroke]));
      && t.style == Style(White, Black, 1.0, o) && t.saved == s.saved
      && t.marks == s.marks + [Filled(White, Place(o, eyeL)), Stroked(Black, 1.0, Place(o, eyeL)),
                               Filled(White, Place(o, eyeR)), Stroked(Black, 1.0, Place(o, eyeR))]
  {
    var o := s.style.origin;
    var es := EyeStyles();
    var b4 := Block(eyeL, [Fill, Stroke]);
    var b5 := Block(eyeR, [Fill, Stroke]);
    var t1 := Run(s, es);
    assert t1.style == Style(White, Black, 1.0, o) && t1.saved == s.saved && t1.marks == s.marks by {
      RunThree(s, es[0], es[1], es[2]);
      assert es == [es[0], es[1], es[2]];
    }
    var t2 := Run(t1, b4);
    assert t2.style == t1.style && t2.saved == s.saved
      && t2.marks == s.marks + [Filled(White, Place(o, eyeL)), Stroked(Black, 1.0, Place(o, eyeL))] by {
      BlockMarks(t1, eyeL, [Fill, Stroke]);
    }
    var t3 := Run(t2, b5);
    assert t3.style == t1.style && t3.saved == s.saved
      && t3.marks == t2.marks + [Filled(White, Place(o, eyeR)), Stroked(Black, 1.0, Place(o, eyeR))] by {
      BlockMarks(t2, eyeR, [Fill, Stroke]);
    }
    assert Run(s, es + b4 + b5) == t3 by {
      RunAppend(s, es, b4);
      RunAppend(s, es + b4, b5);
    }
  }

  /** What the face paints in the translation `o`, when it starts with fill `f`, black stroke of width 2. */
  function FaceMarks(f: Colour, o: Offset): seq<Mark>
  {
    var head := Place(o, HeadPath());
    var ears := Place(o, EarsPath());
    var eyeL := Place(o, EyeWhitePath(-16.0));
    var eyeR := Place(o, EyeWhitePath(16.0));
    [Stroked(Black, 2.0, head),
     Stroked(Black, 2.0, ears), Filled(f, ears),
     Filled(f, head),
     Filled(White, eyeL), Stroked(Black, 1.0, eyeL),
     Filled(White, eyeR), Stroked(Black, 1.0, eyeR)]
  }

  /** What the pupils paint in the translation `o`. */
  function PupilMarks(look: Look, o: Offset): seq<Mark>
  {
    [Filled(Black, [Placed(o, Pupil(-16.0, look))]), Filled(Black, [Placed(o, Pupil(16.0, look))])]
  }

  /** The face over any paths, in the styles set before `save()`. */
  lemma RunFaceOf(s: State, f: Colour, head: seq<DrawOp>, ears: seq<DrawOp>, eyeL: seq<DrawOp>, eyeR: seq<DrawOp>)
    requires s.style == Style(f, Black, 2.0, s.style.origin)
    requires forall k :: 0 <= k < |head| ==> IsPathOp(head[k])
    requires forall k :: 0 <= k < |ears| ==> IsPathOp(ears[k])
    requires forall k :: 0 <= k < |eyeL| ==> IsPathOp(eyeL[k])
    requires forall k :: 0 <= k < |eyeR| ==> IsPathOp(eyeR[k])
    ensures var o := s.style.origin;
      var t := Run(s, FaceOf(head, ears, eyeL, eyeR));
      && t.style == Style(White, Black, 1.0, o)
      && t.saved == s.saved
      && t.marks == s.marks + [Stroked(Black, 2.0, Place(o, head)), Stroked(Black, 2.0, Place(o, ears)),
                               Filled(f, Place(o, ears)), Filled(f, Place(o, head)),
                               Filled(White, Place(o, eyeL)), Stroked(Black, 1.0, Place(o, eyeL)),
                               Filled(White, Place(o, eyeR)), Stroked(Black, 1.0, Place(o, eyeR))]
  {
    var front := Block(head, [Stroke]) + Block(ears, [Stroke, Fill]) + Block(head, [Fill]);
    var eyes := EyeStyles() + Block(eyeL, [Fill, Stroke]) + Block(eyeR, [Fill, Stroke]);
    RunAppend(s, front, eyes);
    RunHeadAndEars(s, f, head, ears);
    RunEyeWhites(Run(s, front), eyeL, eyeR);
  }

  lemma RunFace(s: State, f: Colour)
    requires s.style == Style(f, Black, 2.0, s.style.origin)
    ensures var t := Run(s, Face());
      && t.style == Style(White, Black, 1.0, s.style.origin)
      && t.saved == s.saved
      && t.marks == s.marks + FaceMarks(f, s.style.origin)
  {
    RunFaceOf(s, f, HeadPath(), EarsPath(), EyeWhitePath(-16.0), EyeWhitePath(16.0));
  }

  lemma RunPupils(s: State, look: Look)
    ensures var t := Run(s, Pupils(look));
      && t.style == s.style.(fill := Black)
      && t.saved == s.saved
      && t.marks == s.marks + PupilMarks(look, s.style.origin)
  {
    var left := Block([Pupil(-16.0, look)], [Fill]);
    var right := Block([Pupil(16.0, look)], [Fill]);
    RunOne(s, SetFillStyle(Black));
    var t1 := Step(s, SetFillStyle(Black));
    BlockMarks(t1, [Pupil(-16.0, look)], [Fill]);
    var t2 := Run(t1, left);
    BlockMarks(t2, [Pupil(16.0, look)], [Fill]);
    RunAppend(s, [SetFillStyle(Black)], left);
    RunAppend(s, [SetFillStyle(Black)] + left, right);
    assert Place(s.style.origin, [Pupil(-16.0, look)]) == [Placed(s.style.origin, Pupil(-16.0, look))];
    assert Place(s.style.origin, [Pupil(16.0, look)]) == [Placed(s.style.origin, Pupil(16.0, look))];
  }

  /** The cat's display list runs as its set-up, then the face, then the pupils, then `restore()`. */
  lemma RunInStages(hue: real, look: Look)
    ensures Run(Blank, Ops(hue, look)) == Step(Run(Run(Run(Blank, Setup(hue)), Face()), Pupils(look)), Restore)
  {
    var setup := Setup(hue);
    var s3 := Run(Run(Run(Blank, setup), Face()), Pupils(look));
    RunAppend(Blank, setup, Face());
    RunAppend(Blank, setup + Face(), Pupils(look));
    RunAppend(Blank, setup + Face() + Pupils(look), [Restore]);
    RunOne(s3, Restore);
  }

  lemma CatMarks(hue: real, look: Look)
    ensures Marks(Ops(hue, look)) == FaceMarks(HueColour(hue), Middle) + PupilMarks(look, Middle)
  {
    var s1 := Run(Blank, Setup(hue));
    assert s1.marks == [] && s1.style == Style(HueColour(hue), Black, 2.0, Middle) by {
      RunSetup(hue);
    }
    var s2 := Run(s1, Face());
    assert s2.marks == FaceMarks(HueColour(hue), Middle) && s2.style.origin == Middle by {
      RunFace(s1, HueColour(hue));
      assert [] + FaceMarks(HueColour(hue), Middle) == FaceMarks(HueColour(hue), Middle);
    }
    var s3 := Run(s2, Pupils(look));
    assert s3.marks == s2.marks + PupilMarks(look, Middle) by {
      RunPupils(s2, look);
    }
    assert Marks(Ops(hue, look)) == s3.marks by {
      RunInStages(hue, look);
      StepKeepsMarks(s3, Restore);
    }
  }

  /**
    The layers the cat paints on a fresh canvas, bottom to top, all in the frame
    translated to the centre (50, 50): the head circle outlined in black (width 2);
    both ear triangles as one path, outlined in black and then filled with the hue;
    the head circle filled with the hue, over the ears; for the left eye and then
    the right one, its white filled in white and outlined in black (width 1); and
    last the two black pupils, each offset from its eye by the same shift.
   */
  lemma CatLayers(hue: real, look: Look)
    ensures var x := if look == Left then -3.0 else if look == Centre then 0.0 else 3.0;
      var head := Place(Middle, [Arc(0.0, 0.0, 40.0, Zero, FullTurn)]);
      var ears := Place(Middle, EarsPath());
      var eyeL := Place(Middle, [Ellipse(-16.0, -9.0, 8.0, 14.0, 0.0, Zero, FullTurn)]);
      var eyeR := Place(Middle, [Ellipse(16.0, -9.0, 8.0, 14.0, 0.0, Zero, FullTurn)]);
      Marks(Ops(hue, look)) == [
        Stroked(Black, 2.0, head),
        Stroked(Black, 2.0, ears), Filled(Hsl(hue, 50, 50), ears),
        Filled(Hsl(hue, 50, 50), head),
        Filled(White, eyeL), Stroked(Black, 1.0, eyeL),
        Filled(White, eyeR), Stroked(Black, 1.0, eyeR),
        Filled(Black, [Placed(Middle, Arc(-16.0 + x, -9.0, 5.0, Zero, FullTurn))]),
        Filled(Black, [Placed(Middle, Arc(16.0 + x, -9.0, 5.0, Zero, FullTurn))])]
  {
    CatMarks(hue, look);
  }
}
