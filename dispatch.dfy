/**
 * The expansion loop of src/main.rs: the line sets of a geometry
 * definition are turned, in order, into one list of lines. A single line
 * is copied as it is; every other set goes to its generator, and the first
 * generator error stops the expansion and is reported, wrapped in the
 * program's own error type.
 *
 * Reading the command line and the YAML file, and writing the PDF, are not
 * part of this model. The tangent of a slant angle is supplied by `tanOf`.
 */
module Dispatch {
  import opened Results
  import opened GeometryDef
  import SlantLinesGen
  import SeyesLinesGen
  import HorizontalLinesGen
  import VerticalLinesGen

  /** The line-generation variants of the program's error type. */
  datatype Error =
    | SlantLinesGenError(slant: SlantLinesGen.Error)
    | SeyesLinesGenError(seyes: SeyesLinesGen.Error)
    | HorizontalLinesGenError(horizontal: HorizontalLinesGen.Error)
    | VerticalLinesGenError(vertical: VerticalLinesGen.Error)

  /**
   * The slant generator is only modelled where it does not panic: a slant
   * set that passes its checks must have a positive tangent. A set that
   * fails them returns its error before the tangent is used.
   */
  predicate TangentPositive(ls: LineSet, paper: PaperSize, tanOf: real -> real) {
    ls.Slant? && SlantLinesGen.Validate(ls.slant, paper).Ok? ==> tanOf(ls.slant.slantAngle) > 0.0
  }

  predicate TangentsPositive(sets: seq<LineSet>, paper: PaperSize, tanOf: real -> real) {
    forall i :: 0 <= i < |sets| ==> TangentPositive(sets[i], paper, tanOf)
  }

  /** What one line set contributes, or the wrapped error of its generator. */
  function Expand(ls: LineSet, paper: PaperSize, tanOf: real -> real): (r: Result<seq<LineDef>, Error>)
    requires TangentPositive(ls, paper, tanOf)
    ensures ls.SingleLine? ==> r == Ok([ls.line])
    ensures ls.Slant? ==> (r.Err? <==> SlantLinesGen.Validate(ls.slant, paper).Err?)
    ensures ls.Seyes? ==> (r.Err? <==> SeyesLinesGen.Validate(ls.seyes, paper).Err?)
    ensures ls.HorizontalLines? ==> (r.Err? <==> HorizontalLinesGen.Validate(ls.horizontal, paper).Err?)
    ensures ls.VerticalLines? ==> (r.Err? <==> VerticalLinesGen.Validate(ls.vertical, paper).Err?)
  {
    match ls
    case SingleLine(line) => Ok([line])
    case Slant(s) =>
      (match SlantLinesGen.SlantLines(s, paper, tanOf(s.slantAngle))
       case Err(e) => Err(SlantLinesGenError(e))
       case Ok(lines) => Ok(lines))
    case Seyes(s) =>
      (match SeyesLinesGen.SeyesLines(s, paper)
       case Err(e) => Err(SeyesLinesGenError(e))
       case Ok(lines) => Ok(lines))
    case HorizontalLines(h) =>
      (match HorizontalLinesGen.HorizontalLines(h, paper)
       case Err(e) => Err(HorizontalLinesGenError(e))
       case Ok(lines) => Ok(lines))
    case VerticalLines(v) =>
      (match VerticalLinesGen.VerticalLines(v, paper)
       case Err(e) => Err(VerticalLinesGenError(e))
       case Ok(lines) => Ok(lines))
  }

  /**
   * A slant set that fails its checks reports its error whatever its
   * tangent: the tangent is only used once the checks have passed.
   */
  lemma InvalidSlantSetNeedsNoTangent(s: SlantLineSet, paper: PaperSize, tanOf: real -> real)
    requires s.xSpacing <= 0.0
    ensures TangentPositive(Slant(s), paper, tanOf)
    ensures Expand(Slant(s), paper, tanOf) == Err(SlantLinesGenError(SlantLinesGen.LineSpacingIsNotPositive(s.xSpacing)))
  {
  }

  /**
   * Outcomes combined left to right, as the `?` operator does in a loop:
   * the first error, or else all the values concatenated in order.
   */
  function Collect<T, E>(outcomes: seq<Result<seq<T>, E>>): Result<seq<T>, E>
    decreases |outcomes|
  {
    if |outcomes| == 0 then Ok([])
    else
      match Collect(outcomes[..|outcomes| - 1])
      case Err(e) => Err(e)
      case Ok(before) =>
        match outcomes[|outcomes| - 1]
        case Err(e) => Err(e)
        case Ok(more) => Ok(before + more)
  }

  /** Collecting succeeds exactly when every outcome is a success. */
  lemma {:induction false} CollectSucceedsIffAllDo<T, E>(outcomes: seq<Result<seq<T>, E>>)
    ensures Collect(outcomes).Ok? <==> forall i :: 0 <= i < |outcomes| ==> outcomes[i].Ok?
    decreases |outcomes|
  {
    if |outcomes| > 0 {
      var front := outcomes[..|outcomes| - 1];
      assert forall i :: 0 <= i < |front| ==> front[i] == outcomes[i];
      CollectSucceedsIffAllDo(front);
    }
  }

  /** Collecting two runs of outcomes one after the other is collecting their concatenation. */
  lemma {:induction false} CollectAppend<T, E>(a: seq<Result<seq<T>, E>>, b: seq<Result<seq<T>, E>>)
    ensures Collect(a).Err? ==> Collect(a + b) == Collect(a)
    ensures Collect(a).Ok? && Collect(b).Err? ==> Collect(a + b) == Collect(b)
    ensures Collect(a).Ok? && Collect(b).Ok? ==> Collect(a + b) == Ok(Collect(a).value + Collect(b).value)
    decreases |b|
  {
    if |b| == 0 {
      assert a + b == a;
      if Collect(a).Ok? {
        assert Collect(a).value + [] == Collect(a).value;
      }
    } else {
      var front, last := b[..|b| - 1], b[|b| - 1];
      CollectAppend(a, front);
      assert (a + b)[..|a + b| - 1] == a + front;
      assert (a + b)[|a + b| - 1] == last;
      match Collect(a)
      case Err(_) =>
      case Ok(x) =>
        match Collect(front)
        case Err(_) =>
        case Ok(y) =>
          match last
          case Err(_) =>
          case Ok(z) =>
            assert x + y + z == x + (y + z);
    }
  }

  /**
   * A failed collection reports the error of the first failing outcome;
   * every outcome before it is a success.
   */
  lemma {:induction false} CollectReportsFirstError<T, E>(outcomes: seq<Result<seq<T>, E>>) returns (i: nat)
    requires Collect(outcomes).Err?
    ensures i < |outcomes| && outcomes[i].Err? && Collect(outcomes).error == outcomes[i].error
    ensures forall k :: 0 <= k < i ==> outcomes[k].Ok?
    decreases |outcomes|
  {
    var n := |outcomes|;
    var front := outcomes[..n - 1];
    assert forall k :: 0 <= k < |front| ==> front[k] == outcomes[k];
    if Collect(front).Err? {
      i := CollectReportsFirstError(front);
    } else {
      CollectSucceedsIffAllDo(front);
      i := n - 1;
    }
  }

  /** Once a prefix of the outcomes fails, the whole collection fails the same way. */
  lemma {:induction false} CollectStopsAtFirstError<T, E>(outcomes: seq<Result<seq<T>, E>>, n: nat)
    requires n <= |outcomes| && Collect(outcomes[..n]).Err?
    ensures Collect(outcomes) == Collect(outcomes[..n])
    decreases |outcomes|
  {
    if n < |outcomes| {
      var front := outcomes[..|outcomes| - 1];
      assert front[..n] == outcomes[..n];
      CollectStopsAtFirstError(front, n);
    } else {
      assert outcomes[..n] == outcomes;
    }
  }

  /** Each set's outcome, in order. */
  function Outcomes(sets: seq<LineSet>, paper: PaperSize, tanOf: real -> real): (r: seq<Result<seq<LineDef>, Error>>)
    requires TangentsPositive(sets, paper, tanOf)
    ensures |r| == |sets|
    ensures forall i :: 0 <= i < |sets| ==> r[i] == Expand(sets[i], paper, tanOf)
  {
    seq(|sets|, i requires 0 <= i < |sets| => Expand(sets[i], paper, tanOf))
  }

  /** The sets expanded left to right and concatenated; the first error wins. */
  function ExpandAll(sets: seq<LineSet>, paper: PaperSize, tanOf: real -> real): Result<seq<LineDef>, Error>
    requires TangentsPositive(sets, paper, tanOf)
  {
    Collect(Outcomes(sets, paper, tanOf))
  }

  /** The expansion succeeds exactly when every set's generator does. */
  lemma ExpandAllSucceedsIffEverySetDoes(sets: seq<LineSet>, paper: PaperSize, tanOf: real -> real)
    requires TangentsPositive(sets, paper, tanOf)
    ensures ExpandAll(sets, paper, tanOf).Ok? <==>
              forall i :: 0 <= i < |sets| ==> Expand(sets[i], paper, tanOf).Ok?
  {
    CollectSucceedsIffAllDo(Outcomes(sets, paper, tanOf));
  }

  /**
   * A failed expansion reports the error of the first set whose generator
   * fails; every set before it expands.
   */
  lemma FirstErrorWins(sets: seq<LineSet>, paper: PaperSize, tanOf: real -> real) returns (i: nat)
    requires TangentsPositive(sets, paper, tanOf)
    requires ExpandAll(sets, paper, tanOf).Err?
    ensures i < |sets| && Expand(sets[i], paper, tanOf).Err?
    ensures ExpandAll(sets, paper, tanOf).error == Expand(sets[i], paper, tanOf).error
    ensures forall k :: 0 <= k < i ==> Expand(sets[k], paper, tanOf).Ok?
  {
    i := CollectReportsFirstError(Outcomes(sets, paper, tanOf));
  }

  lemma TangentsAppend(a: seq<LineSet>, b: seq<LineSet>, paper: PaperSize, tanOf: real -> real)
    requires TangentsPositive(a, paper, tanOf) && TangentsPositive(b, paper, tanOf)
    ensures TangentsPositive(a + b, paper, tanOf)
  {
    forall i | 0 <= i < |a + b| ensures TangentPositive((a + b)[i], paper, tanOf) {
      if i < |a| {
        assert (a + b)[i] == a[i];
      } else {
        assert (a + b)[i] == b[i - |a|];
      }
    }
  }

  /**
   * Expanding two lists of sets one after the other is expanding their
   * concatenation: the lines of the first, then those of the second, or
   * the first error met.
   */
  lemma ExpandAllAppend(a: seq<LineSet>, b: seq<LineSet>, paper: PaperSize, tanOf: real -> real)
    requires TangentsPositive(a, paper, tanOf) && TangentsPositive(b, paper, tanOf)
    ensures TangentsPositive(a + b, paper, tanOf)
    ensures ExpandAll(a, paper, tanOf).Err? ==> ExpandAll(a + b, paper, tanOf) == ExpandAll(a, paper, tanOf)
    ensures ExpandAll(a, paper, tanOf).Ok? && ExpandAll(b, paper, tanOf).Err? ==>
              ExpandAll(a + b, paper, tanOf) == ExpandAll(b, paper, tanOf)
    ensures ExpandAll(a, paper, tanOf).Ok? && ExpandAll(b, paper, tanOf).Ok? ==>
              ExpandAll(a + b, paper, tanOf) == Ok(ExpandAll(a, paper, tanOf).value + ExpandAll(b, paper, tanOf).value)
  {
    TangentsAppend(a, b, paper, tanOf);
    var oa, ob := Outcomes(a, paper, tanOf), Outcomes(b, paper, tanOf);
    forall i | 0 <= i < |a + b| ensures Outcomes(a + b, paper, tanOf)[i] == (oa + ob)[i] {
      if i < |a| {
        assert (a + b)[i] == a[i];
      } else {
        assert (a + b)[i] == b[i - |a|];
      }
    }
    assert Outcomes(a + b, paper, tanOf) == oa + ob;
    CollectAppend(oa, ob);
  }

  /** A definition made only of single lines expands to exactly those lines, in order. */
  lemma {:induction false} SingleLinesPassThrough(sets: seq<LineSet>, paper: PaperSize, tanOf: real -> real)
    requires forall i :: 0 <= i < |sets| ==> sets[i].SingleLine?
    ensures TangentsPositive(sets, paper, tanOf)
    ensures ExpandAll(sets, paper, tanOf).Ok?
    ensures |ExpandAll(sets, paper, tanOf).value| == |sets|
    ensures forall i :: 0 <= i < |sets| ==> ExpandAll(sets, paper, tanOf).value[i] == sets[i].line
    decreases |sets|
  {
    if |sets| > 0 {
      var n := |sets|;
      var front := sets[..n - 1];
      assert forall i :: 0 <= i < |front| ==> front[i] == sets[i];
      SingleLinesPassThrough(front, paper, tanOf);
      assert Outcomes(sets, paper, tanOf)[..n - 1] == Outcomes(front, paper, tanOf);
      assert Expand(sets[n - 1], paper, tanOf) == Ok([sets[n - 1].line]);
    }
  }

  /**
   * The loop of the program's entry point: a fresh line list, then each set
   * in turn is pushed or passed to its generator, stopping at the first
   * generator error.
   */
  method ExpandLineSets(gdef: GeometryDef, tanOf: real -> real) returns (r: Result<(), Error>, lines: LineVec)
    requires TangentsPositive(gdef.lineSets, gdef.paperSize, tanOf)
    ensures fresh(lines)
    ensures r.Ok? <==> ExpandAll(gdef.lineSets, gdef.paperSize, tanOf).Ok?
    ensures r.Err? ==> r.error == ExpandAll(gdef.lineSets, gdef.paperSize, tanOf).error
    ensures r.Ok? ==> lines.items == ExpandAll(gdef.lineSets, gdef.paperSize, tanOf).value
  {
    var sets, paper := gdef.lineSets, gdef.paperSize;
    ghost var outcomes := Outcomes(sets, paper, tanOf);
    lines := new LineVec();
    for i := 0 to |sets|
      invariant Collect(outcomes[..i]) == Ok(lines.items)
    {
      assert outcomes[..i + 1][..i] == outcomes[..i];
      assert outcomes[..i + 1][i] == Expand(sets[i], paper, tanOf);
      match sets[i]
      case SingleLine(line) =>
        lines.Push(line);
      case Slant(s) =>
        var e := SlantLinesGen.CreateSlantLines(s, paper, tanOf(s.slantAngle), lines);
        if e.Err? {
          CollectStopsAtFirstError(outcomes, i + 1);
          return Err(SlantLinesGenError(e.error)), lines;
        }
      case Seyes(s) =>
        var e := SeyesLinesGen.CreateSeyesLines(s, paper, lines);
        if e.Err? {
          CollectStopsAtFirstError(outcomes, i + 1);
          return Err(SeyesLinesGenError(e.error)), lines;
        }
      case HorizontalLines(h) =>
        var e := HorizontalLinesGen.CreateHorizontalLines(h, paper, lines);
        if e.Err? {
          CollectStopsAtFirstError(outcomes, i + 1);
          return Err(HorizontalLinesGenError(e.error)), lines;
        }
      case VerticalLines(v) =>
        var e := VerticalLinesGen.CreateVerticalLines(v, paper, lines);
        if e.Err? {
          CollectStopsAtFirstError(outcomes, i + 1);
          return Err(VerticalLinesGenError(e.error)), lines;
        }
    }
    assert outcomes[..|sets|] == outcomes;
    return Ok(()), lines;
  }
}
