/**
 * Horizontal rules (src/horizontal_lines_gen.rs): one full-width line at
 * every y_spacing, from height - top_margin down to the bottom margin.
 */
module HorizontalLinesGen {
  import opened Results
  import opened GeometryCoord
  import opened GeometryDef
  import Stepping

  datatype Error =
    | PaperWidthIsNotPositive(width: real)
    | PaperHeightIsNotPositive(height: real)
    | YSpacingIsNotPositive(ySpacing: real)
    | TopMarginIsNotPositive(topMargin: real)
    | BottomMarginIsNotPositive(bottomMargin: real)

  /**
   * The precondition chain: width, height, spacing, top margin, bottom margin
   * must each be positive, and the first that is not is the error.
   */
  function Validate(ls: HorizontalLineSet, paper: PaperSize): (r: Result<(), Error>)
    ensures r == Err(PaperWidthIsNotPositive(paper.width)) <==> paper.width <= 0.0
    ensures r == Err(PaperHeightIsNotPositive(paper.height)) <==> paper.width > 0.0 && paper.height <= 0.0
    ensures r == Err(YSpacingIsNotPositive(ls.ySpacing)) <==>
              paper.width > 0.0 && paper.height > 0.0 && ls.ySpacing <= 0.0
    ensures r == Err(TopMarginIsNotPositive(ls.topMargin)) <==>
              paper.width > 0.0 && paper.height > 0.0 && ls.ySpacing > 0.0 && ls.topMargin <= 0.0
    ensures r == Err(BottomMarginIsNotPositive(ls.bottomMargin)) <==>
              paper.width > 0.0 && paper.height > 0.0 && ls.ySpacing > 0.0 && ls.topMargin > 0.0
              && ls.bottomMargin <= 0.0
    ensures r.Ok? <==>
              paper.width > 0.0 && paper.height > 0.0 && ls.ySpacing > 0.0 && ls.topMargin > 0.0
              && ls.bottomMargin > 0.0
  {
    if paper.width <= 0.0 then Err(PaperWidthIsNotPositive(paper.width))
    else if paper.height <= 0.0 then Err(PaperHeightIsNotPositive(paper.height))
    else if ls.ySpacing <= 0.0 then Err(YSpacingIsNotPositive(ls.ySpacing))
    else if ls.topMargin <= 0.0 then Err(TopMarginIsNotPositive(ls.topMargin))
    else if ls.bottomMargin <= 0.0 then Err(BottomMarginIsNotPositive(ls.bottomMargin))
    else Ok(())
  }

  /** The full-width rule at height y, in the set's thickness, colour and dash pattern. */
  function Rule(ls: HorizontalLineSet, y: real): LineDef {
    LineDef(PointDef(OffZero(0.0), OffZero(y)), PointDef(OffFarEdge(0.0), OffZero(y)),
            ls.thickness, ls.color, ls.dashPattern)
  }

  /** The height of the first rule. */
  function FirstY(ls: HorizontalLineSet, paper: PaperSize): real {
    paper.height - ls.topMargin
  }

  /** How many rules fit between the first one and the bottom margin. */
  function RuleCount(ls: HorizontalLineSet, paper: PaperSize): nat
    requires ls.ySpacing > 0.0
  {
    Stepping.Count(FirstY(ls, paper) - ls.bottomMargin, ls.ySpacing)
  }

  /** What the generator appends: the k-th rule lies k spacings below the first. */
  function HorizontalLines(ls: HorizontalLineSet, paper: PaperSize): Result<seq<LineDef>, Error> {
    match Validate(ls, paper)
    case Err(e) => Err(e)
    case Ok(_) =>
      var n := RuleCount(ls, paper);
      Ok(seq(n, k requires 0 <= k < n => Rule(ls, RuleHeight(ls, paper, k))))
  }

  /** The height of the k-th rule: k spacings below the first. */
  function RuleHeight(ls: HorizontalLineSet, paper: PaperSize, k: int): real {
    FirstY(ls, paper) - (k as real) * ls.ySpacing
  }

  /** The height at which a generated rule is drawn. */
  function RuleY(line: LineDef, paper: PaperSize): real {
    YCoord(line.start, paper)
  }

  /** The rules of a valid set. */
  function Rules(ls: HorizontalLineSet, paper: PaperSize): seq<LineDef>
    requires Validate(ls, paper).Ok?
  {
    HorizontalLines(ls, paper).value
  }

  /** The i-th rule is drawn i spacings below the first. */
  lemma RuleAt(ls: HorizontalLineSet, paper: PaperSize, i: nat)
    requires Validate(ls, paper).Ok? && i < |Rules(ls, paper)|
    ensures Rules(ls, paper)[i] == Rule(ls, RuleHeight(ls, paper, i))
    ensures RuleY(Rules(ls, paper)[i], paper) == RuleHeight(ls, paper, i)
    ensures RuleHeight(ls, paper, i) == FirstY(ls, paper) - (i as real) * ls.ySpacing
  {
  }

  /**
   * Every rule lies between the first height and the bottom margin, and one
   * more step would fall below the margin; nothing at all is drawn exactly
   * when the first height is already below the margin.
   */
  lemma RulesStayInMargins(ls: HorizontalLineSet, paper: PaperSize)
    requires Validate(ls, paper).Ok?
    ensures forall i :: 0 <= i < |Rules(ls, paper)| ==>
              ls.bottomMargin <= RuleY(Rules(ls, paper)[i], paper) <= paper.height - ls.topMargin
    ensures |Rules(ls, paper)| == 0 <==> paper.height - ls.topMargin < ls.bottomMargin
    ensures |Rules(ls, paper)| > 0 ==>
              RuleY(Rules(ls, paper)[|Rules(ls, paper)| - 1], paper) - ls.ySpacing < ls.bottomMargin
  {
    var lines := Rules(ls, paper);
    forall i | 0 <= i < |lines|
      ensures ls.bottomMargin <= RuleY(lines[i], paper) <= paper.height - ls.topMargin
    {
      RuleInMargins(ls, paper, i);
    }
    Stepping.CountExact(FirstY(ls, paper) - ls.bottomMargin, ls.ySpacing, 0);
    if |lines| > 0 {
      LastRuleIsLast(ls, paper);
    }
  }

  lemma RuleInMargins(ls: HorizontalLineSet, paper: PaperSize, i: nat)
    requires Validate(ls, paper).Ok? && i < |Rules(ls, paper)|
    ensures ls.bottomMargin <= RuleY(Rules(ls, paper)[i], paper) <= paper.height - ls.topMargin
  {
    RuleAt(ls, paper, i);
    Stepping.CountExact(FirstY(ls, paper) - ls.bottomMargin, ls.ySpacing, i);
    assert (i as real) * ls.ySpacing >= 0.0;
  }

  lemma LastRuleIsLast(ls: HorizontalLineSet, paper: PaperSize)
    requires Validate(ls, paper).Ok? && |Rules(ls, paper)| > 0
    ensures RuleY(Rules(ls, paper)[|Rules(ls, paper)| - 1], paper) - ls.ySpacing < ls.bottomMargin
  {
    var n := |Rules(ls, paper)|;
    Stepping.CountExact(FirstY(ls, paper) - ls.bottomMargin, ls.ySpacing, n);
    RuleAt(ls, paper, n - 1);
    assert ((n - 1) as real) * ls.ySpacing + ls.ySpacing == (n as real) * ls.ySpacing;
  }

  /**
   * The first rule is at height - top_margin and each further rule is exactly
   * one spacing below the one before it.
   */
  lemma RulesDescendBySpacing(ls: HorizontalLineSet, paper: PaperSize)
    requires Validate(ls, paper).Ok?
    ensures |Rules(ls, paper)| > 0 ==> RuleY(Rules(ls, paper)[0], paper) == paper.height - ls.topMargin
    ensures forall i :: 0 < i < |Rules(ls, paper)| ==>
              RuleY(Rules(ls, paper)[i - 1], paper) - RuleY(Rules(ls, paper)[i], paper) == ls.ySpacing
  {
    var lines := Rules(ls, paper);
    forall i | 0 < i < |lines|
      ensures RuleY(lines[i - 1], paper) - RuleY(lines[i], paper) == ls.ySpacing
    {
      RuleAt(ls, paper, i - 1);
      RuleAt(ls, paper, i);
      assert ((i - 1) as real) * ls.ySpacing + ls.ySpacing == (i as real) * ls.ySpacing;
    }
  }

  /** Every rule runs from x = 0 to x = width at one height, styled as the set. */
  lemma RulesSpanThePage(ls: HorizontalLineSet, paper: PaperSize)
    requires Validate(ls, paper).Ok?
    ensures forall line <- Rules(ls, paper) ::
              && XCoord(line.start, paper) == 0.0 && XCoord(line.end, paper) == paper.width
              && YCoord(line.end, paper) == YCoord(line.start, paper)
              && line.thickness == ls.thickness && line.color == ls.color
              && line.dashPattern == ls.dashPattern
  {
    var lines := Rules(ls, paper);
    forall i | 0 <= i < |lines|
      ensures && XCoord(lines[i].start, paper) == 0.0 && XCoord(lines[i].end, paper) == paper.width
              && YCoord(lines[i].end, paper) == YCoord(lines[i].start, paper)
              && lines[i].thickness == ls.thickness && lines[i].color == ls.color
              && lines[i].dashPattern == ls.dashPattern
    {
      RuleAt(ls, paper, i);
    }
  }

  /**
   * The generator: check the preconditions in order, then push one rule per
   * step while y is still at or above the bottom margin. On an error nothing
   * is pushed; otherwise the rules are appended after what was there.
   */
  method CreateHorizontalLines(ls: HorizontalLineSet, paper: PaperSize, result: LineVec)
    returns (r: Result<(), Error>)
    modifies result
    ensures r == Validate(ls, paper)
    ensures r.Err? ==> result.items == old(result.items)
    ensures r.Ok? ==> result.items == old(result.items) + HorizontalLines(ls, paper).value
  {
    if paper.width <= 0.0 {
      return Err(PaperWidthIsNotPositive(paper.width));
    }
    if paper.height <= 0.0 {
      return Err(PaperHeightIsNotPositive(paper.height));
    }
    if ls.ySpacing <= 0.0 {
      return Err(YSpacingIsNotPositive(ls.ySpacing));
    }
    if ls.topMargin <= 0.0 {
      return Err(TopMarginIsNotPositive(ls.topMargin));
    }
    if ls.bottomMargin <= 0.0 {
      return Err(BottomMarginIsNotPositive(ls.bottomMargin));
    }

    ghost var lines := Rules(ls, paper);
    ghost var span := FirstY(ls, paper) - ls.bottomMargin;
    ghost var k: nat := 0;
    var y := paper.height - ls.topMargin;
    while y >= ls.bottomMargin
      invariant k <= |lines|
      invariant y == FirstY(ls, paper) - (k as real) * ls.ySpacing
      invariant result.items == old(result.items) + lines[..k]
      decreases |lines| - k
    {
      Stepping.CountExact(span, ls.ySpacing, k);
      RuleAt(ls, paper, k);
      result.Push(LineDef(
        PointDef(OffZero(0.0), OffZero(y)),
        PointDef(OffFarEdge(0.0), OffZero(y)),
        ls.thickness,
        ls.color,
        ls.dashPattern));
      assert lines[..k + 1] == lines[..k] + [lines[k]];
      y := y - ls.ySpacing;
      k := k + 1;
    }
    Stepping.CountExact(span, ls.ySpacing, k);
    assert lines[..k] == lines;
    return Ok(());
  }
}
