/**
  An abstract interpreter for display lists: the part of a 2D canvas context's
  state that the shape routines touch (fill and stroke style, line width, the
  translation, the save stack and the current path), and the sequence of paint
  marks (what was filled or stroked, with which colour, over which path).
  It gives the generators a meaning that does not depend on how they are written.
 */
module Paint {
  import opened Canvas

  datatype Offset = Offset(dx: real, dy: real)

  const Origin: Offset := Offset(0.0, 0.0)

  /** The drawing state that `save()` pushes and `restore()` pops. */
  datatype Style = Style(fill: Colour, stroke: Colour, lineWidth: real, origin: Offset)

  /** A path command together with the translation in force when it was issued. */
  datatype Placed = Placed(origin: Offset, op: DrawOp)

  /** One paint operation and what it covered. */
  datatype Mark =
    | Filled(colour: Colour, area: seq<Placed>)
    | Stroked(colour: Colour, width: real, outline: seq<Placed>)
    | RectFilled(colour: Colour, at: Offset, x: real, y: real, w: real, h: real)

  datatype State = State(style: Style, saved: seq<Style>, path: seq<Placed>, marks: seq<Mark>)

  /** A context's defaults: black fill and stroke, width 1, no transform. */
  const DefaultStyle: Style := Style(Black, Black, 1.0, Origin)

  /** A freshly sized canvas: setting its width resets the context to this state. */
  const Blank: State := State(DefaultStyle, [], [], [])

  function Step(s: State, op: DrawOp): State
  {
    match op
    case SetFillStyle(c) => s.(style := s.style.(fill := c))
    case SetStrokeStyle(c) => s.(style := s.style.(stroke := c))
    // a context ignores a width that is not positive
    case SetLineWidth(w) => if w > 0.0 then s.(style := s.style.(lineWidth := w)) else s
    case Translate(dx, dy) =>
      s.(style := s.style.(origin := Offset(s.style.origin.dx + dx, s.style.origin.dy + dy)))
    case Save => s.(saved := s.saved + [s.style])
    // restoring with nothing saved does nothing
    case Restore =>
      if |s.saved| == 0 then s
      else s.(style := s.saved[|s.saved| - 1], saved := s.saved[..|s.saved| - 1])
    case BeginPath => s.(path := [])
    case FillRect(x, y, w, h) => s.(marks := s.marks + [RectFilled(s.style.fill, s.style.origin, x, y, w, h)])
    case Fill => s.(marks := s.marks + [Filled(s.style.fill, s.path)])
    case Stroke => s.(marks := s.marks + [Stroked(s.style.stroke, s.style.lineWidth, s.path)])
    case _ => s.(path := s.path + [Placed(s.style.origin, op)])
  }

  /** The state after executing `ops` in order, starting from `s`. */
  function Run(s: State, ops: seq<DrawOp>): State
    decreases |ops|
  {
    if |ops| == 0 then s else Run(Step(s, ops[0]), ops[1..])
  }

  /** What a display list paints on a freshly sized canvas. */
  function Marks(ops: seq<DrawOp>): seq<Mark>
  {
    Run(Blank, ops).marks
  }

  /** Path commands, each tagged with one translation. */
  function Place(o: Offset, ops: seq<DrawOp>): (placed: seq<Placed>)
    ensures |placed| == |ops|
    ensures forall k :: 0 <= k < |ops| ==> placed[k] == Placed(o, ops[k])
  {
    seq(|ops|, k requires 0 <= k < |ops| => Placed(o, ops[k]))
  }

  lemma RunOne(s: State, op: DrawOp)
    ensures Run(s, [op]) == Step(s, op)
  {
    assert [op][1..] == [];
  }

  /** Executing two display lists one after the other is executing their concatenation. */
  lemma {:induction false} RunAppend(s: State, a: seq<DrawOp>, b: seq<DrawOp>)
    ensures Run(s, a + b) == Run(Run(s, a), b)
    decreases |a|
  {
    if |a| == 0 {
      assert a + b == b;
    } else {
      assert (a + b)[1..] == a[1..] + b;
      RunAppend(Step(s, a[0]), a[1..], b);
    }
  }

  /** Executes a display list one command at a time: `Run(s, [op] + rest)`. */
  lemma RunCons(s: State, op: DrawOp, rest: seq<DrawOp>)
    ensures Run(s, [op] + rest) == Run(Step(s, op), rest)
  {
    RunAppend(s, [op], rest);
    RunOne(s, op);
  }

  /** Only `fill()`, `stroke()` and `fillRect()` paint. */
  lemma StepKeepsMarks(s: State, op: DrawOp)
    requires !op.Fill? && !op.Stroke? && !op.FillRect?
    ensures Step(s, op).marks == s.marks
  {
  }

  lemma StepPathOp(s: State, op: DrawOp)
    requires IsPathOp(op)
    ensures Step(s, op) == s.(path := s.path + [Placed(s.style.origin, op)])
  {
  }

  /** One path command, then the rest of the list. */
  lemma RunPathOpsHead(s: State, ops: seq<DrawOp>)
    requires |ops| > 0 && IsPathOp(ops[0])
    ensures Run(s, ops) == Run(s.(path := s.path + [Placed(s.style.origin, ops[0])]), ops[1..])
  {
    StepPathOp(s, ops[0]);
  }

  lemma PlaceCons(o: Offset, ops: seq<DrawOp>)
    requires |ops| > 0
    ensures Place(o, ops) == [Placed(o, ops[0])] + Place(o, ops[1..])
  {
  }

  lemma AppendCons<T>(a: seq<T>, x: T, b: seq<T>)
    ensures (a + [x]) + b == a + ([x] + b)
  {
  }

  /** Path commands only extend the current path; they neither paint nor touch the style. */
  lemma {:induction false} RunPathOps(s: State, ops: seq<DrawOp>)
    requires forall k :: 0 <= k < |ops| ==> IsPathOp(ops[k])
    ensures Run(s, ops) == s.(path := s.path + Place(s.style.origin, ops))
    decreases |ops|
  {
    var o := s.style.origin;
    if |ops| == 0 {
      assert s.path + Place(o, ops) == s.path;
    } else {
      var s1 := s.(path := s.path + [Placed(o, ops[0])]);
      RunPathOpsHead(s, ops);
      RunPathOps(s1, ops[1..]);
      PlaceCons(o, ops);
      AppendCons(s.path, Placed(o, ops[0]), Place(o, ops[1..]));
    }
  }

  /** A command list free of `save`/`restore` leaves the save stack as it found it. */
  lemma {:induction false} RunKeepsSaved(s: State, ops: seq<DrawOp>)
    requires Save !in ops && Restore !in ops
    ensures Run(s, ops).saved == s.saved
    decreases |ops|
  {
    if |ops| > 0 {
      assert ops == [ops[0]] + ops[1..];
      RunKeepsSaved(Step(s, ops[0]), ops[1..]);
    }
  }

  /**
    Bracketing a command list free of `save`/`restore` between `save()` and
    `restore()` undoes every style change and translation it makes.
   */
  lemma Bracketed(s: State, body: seq<DrawOp>)
    requires Save !in body && Restore !in body
    ensures Run(s, [Save] + body + [Restore]).style == s.style
    ensures Run(s, [Save] + body + [Restore]).saved == s.saved
  {
    var s1 := Step(s, Save);
    RunCons(s, Save, body);
    RunAppend(s, [Save] + body, [Restore]);
    RunKeepsSaved(s1, body);
    var s2 := Run(s1, body);
    RunOne(s2, Restore);
    assert s2.saved == s.saved + [s.style];
    assert s2.saved[..|s2.saved| - 1] == s.saved;
  }

  /** `beginPath()`, the commands of one path, then the paint commands applied to it. */
  function Block(path: seq<DrawOp>, paints: seq<DrawOp>): seq<DrawOp>
  {
    [BeginPath] + path + paints
  }

  predicate IsPaint(op: DrawOp)
  {
    op.Fill? || op.Stroke?
  }

  /** The mark one `fill()` or `stroke()` leaves on the path `path`, in the style `st`. */
  function PaintMark(st: Style, path: seq<Placed>, op: DrawOp): Mark
  {
    if op.Fill? then Filled(st.fill, path) else Stroked(st.stroke, st.lineWidth, path)
  }

  /** The marks `fill()`/`stroke()` commands leave when applied, in order, to one path. */
  function PaintMarks(st: Style, path: seq<Placed>, paints: seq<DrawOp>): (m: seq<Mark>)
    ensures |m| == |paints|
    decreases |paints|
  {
    if |paints| == 0 then [] else [PaintMark(st, path, paints[0])] + PaintMarks(st, path, paints[1..])
  }

  lemma StepPaint(s: State, op: DrawOp)
    requires IsPaint(op)
    ensures Step(s, op) == s.(marks := s.marks + [PaintMark(s.style, s.path, op)])
  {
  }

  lemma {:induction false} RunPaints(s: State, paints: seq<DrawOp>)
    requires forall k :: 0 <= k < |paints| ==> IsPaint(paints[k])
    ensures Run(s, paints) == s.(marks := s.marks + PaintMarks(s.style, s.path, paints))
    decreases |paints|
  {
    if |paints| == 0 {
      assert s.marks + PaintMarks(s.style, s.path, paints) == s.marks;
    } else {
      var m0 := PaintMark(s.style, s.path, paints[0]);
      var s1 := s.(marks := s.marks + [m0]);
      assert Step(s, paints[0]) == s1 by {
        StepPaint(s, paints[0]);
      }
      RunPaints(s1, paints[1..]);
      assert s1.marks + PaintMarks(s.style, s.path, paints[1..]) == s.marks + PaintMarks(s.style, s.path, paints);
    }
  }

  /**
    A block replaces the current path with its own (in the translation in force)
    and paints that path once per paint command, in order; the style is untouched.
   */
  lemma RunBlock(s: State, path: seq<DrawOp>, paints: seq<DrawOp>)
    requires forall k :: 0 <= k < |path| ==> IsPathOp(path[k])
    requires forall k :: 0 <= k < |paints| ==> IsPaint(paints[k])
    ensures var placed := Place(s.style.origin, path);
      Run(s, Block(path, paints)) == s.(path := placed, marks := s.marks + PaintMarks(s.style, placed, paints))
  {
    var o := s.style.origin;
    var s1 := s.(path := []);
    var s2 := s.(path := Place(o, path));
    assert Run(s, Block(path, paints)) == Run(Run(s, [BeginPath] + path), paints) by {
      RunAppend(s, [BeginPath] + path, paints);
    }
    assert Run(s, [BeginPath] + path) == Run(s1, path) by {
      RunCons(s, BeginPath, path);
    }
    assert Run(s1, path) == s2 by {
      RunPathOps(s1, path);
      assert [] + Place(o, path) == Place(o, path);
    }
    RunPaints(s2, paints);
  }

  lemma RunThree(s: State, a: DrawOp, b: DrawOp, c: DrawOp)
    ensures Run(s, [a, b, c]) == Step(Step(Step(s, a), b), c)
  {
    assert [a, b, c] == [a] + ([b] + [c]);
    RunCons(s, a, [b] + [c]);
    RunCons(Step(s, a), b, [c]);
    RunOne(Step(Step(s, a), b), c);
  }
}
