/**
 * Vertical rules (src/vertical_lines_gen.rs): one full-height line at every
 * x_spacing, from the left margin up to width - right_margin.
 */
module VerticalLinesGen {
  import opened Results
  import opened GeometryCoord
  import opened GeometryDef
  import Stepping

  datatype Error =
    | PaperWidthIsNotPositive(width: real)
    | PaperHeightIsNotPositive(height: real)
    | XSpacingIsNotPositive(xSpacing: real)
    | LeftMarginIsNotPositive(leftMargin: real)
    | RightMarginIsNotPositive(rightMargin: real)

  /**
   * The precondition chain: width, height, spacing, left margin, right margin
   * must each be positive, and the first that is not is the error.
   */
  function Validate(ls: VerticalLineSet, paper: PaperSize): (r: Result<(), Error>)
    ensures r == Err(PaperWidthIsNotPositive(paper.width)) <==> paper.width <= 0.0
    ensures r == Err(PaperHeightIsNotPositive(paper.height)) <==> paper.width > 0.0 && paper.height <= 0.0
    ensures r == Err(XSpacingIsNotPositive(ls.xSpacing)) <==>
              paper.width > 0.0 && paper.height > 0.0 && ls.xSpacing <= 0.0
    ensures r == Err(LeftMarginIsNotPositive(ls.leftMargin)) <==>
              paper.width > 0.0 && paper.height > 0.0 && ls.xSpacing > 0.0 && ls.leftMargin <= 0.0
    ensures r == Err(RightMarginIsNotPositive(ls.rightMargin)) <==>
              paper.width > 0.0 && paper.height > 0.0 && ls.xSpacing > 0.0 && ls.leftMargin > 0.0
              && ls.rightMargin <= 0.0
    ensures r.Ok? <==>
              paper.width > 0.0 && paper.height > 0.0 && ls.xSpacing > 0.0 && ls.leftMargin > 0.0
              && ls.rightMargin > 0.0
  {
    if paper.width <= 0.0 then Err(PaperWidthIsNotPositive(paper.width))
    else if paper.height <= 0.0 then Err(PaperHeightIsNotPositive(paper.height))
    else if ls.xSpacing <= 0.0 then Err(XSpacingIsNotPositive(ls.xSpacing))
    else if ls.leftMargin <= 0.0 then Err(LeftMarginIsNotPositive(ls.leftMargin))
    else if ls.rightMargin <= 0.0 then Err(RightMarginIsNotPositive(ls.rightMargin))
    else Ok(())
  }

  /** The full-height rule at x, in the set's thickness, colour and dash pattern. */
  function Rule(ls: VerticalLineSet, paper: PaperSize, x: real): LineDef {
    LineDef(PointDef(OffZero(x), OffZero(0.0)), PointDef(OffZero(x), OffZero(paper.height)),
            ls.thickness, ls.color, ls.dashPattern)
  }

  /** The right-most x a rule may have. */
  function LastX(ls: VerticalLineSet, paper: PaperSize): real {
    paper.width - ls.rightMargin
  }

  /** How many rules fit between the left margin and the right bound. */
  function RuleCount(ls: VerticalLineSet, paper: PaperSize): nat
    requires ls.xSpacing > 0.0
  {
    Stepping.Count(LastX(ls, paper) - ls.leftMargin, ls.xSpacing)
  }

  /** What the generator appends: the k-th rule lies k spacings right of the left margin. */
  function VerticalLines(ls: VerticalLineSet, paper: PaperSize): Result<seq<LineDef>, Error> {
    match Validate(ls, paper)
    case Err(e) => Err(e)
    case Ok(_) =>
      var n := RuleCount(ls, paper);
      Ok(seq(n, k requires 0 <= k < n => Rule(ls, paper, RulePosition(ls, k))))
  }

  /** The x of the k-th rule: k spacings right of the left margin. */
  function RulePosition(ls: VerticalLineSet, k: int): real {
    ls.leftMargin + (k as real) * ls.xSpacing
  }

  /** The rules of a valid set. */
  function Rules(ls: VerticalLineSet, paper: PaperSize): seq<LineDef>
    requires Validate(ls, paper).Ok?
  {
    VerticalLines(ls, paper).value
  }

  /** The x at which a generated rule is drawn. */
  function RuleX(line: LineDef, paper: PaperSize): real {
    XCoord(line.start, paper)
  }

  /** The i-th rule is drawn i spacings right of the left margin. */
  lemma RuleAt(ls: VerticalLineSet, paper: PaperSize, i: nat)
    requires Validate(ls, paper).Ok? && i < |Rules(ls, paper)|
    ensures Rules(ls, paper)[i] == Rule(ls, paper, RulePosition(ls, i))
    ensures RuleX(Rules(ls, paper)[i], paper) == RulePosition(ls, i)
    ensures RulePosition(ls, i) == ls.leftMargin + (i as real) * ls.xSpacing
  {
  }

  /**
   * Every rule lies between the left margin and width - right_margin, and one
   * more step would pass that bound; nothing is drawn exactly when the left
   * margin is already past it.
   */
  lemma RulesStayInMargins(ls: VerticalLineSet, paper: PaperSize)
    requires Validate(ls, paper).Ok?
    ensures forall i :: 0 <= i < |Rules(ls, paper)| ==>
              ls.leftMargin <= RuleX(Rules(ls, paper)[i], paper) <= paper.width - ls.rightMargin
    ensures |Rules(ls, paper)| == 0 <==> ls.leftMargin > paper.width - ls.rightMargin
    ensures |Rules(ls, paper)| > 0 ==>
              RuleX(Rules(ls, paper)[|Rules(ls, paper)| - 1], paper) + ls.xSpacing > paper.width - ls.rightMargin
  {
    var lines := Rules(ls, paper);
    forall i | 0 <= i < |lines|
      ensures ls.leftMargin <= RuleX(lines[i], paper) <= paper.width - ls.rightMargin
    {
      RuleInMargins(ls, paper, i);
    }
    Stepping.CountExact(LastX(ls, paper) - ls.leftMargin, ls.xSpacing, 0);
    if |lines| > 0 {
      LastRuleIsLast(ls, paper);
    }
  }

  lemma RuleInMargins(ls: VerticalLineSet, paper: PaperSize, i: nat)
    requires Validate(ls, paper).Ok? && i < |Rules(ls, paper)|
    ensures ls.leftMargin <= RuleX(Rules(ls, paper)[i], paper) <= paper.width - ls.rightMargin
  {
    RuleAt(ls, paper, i);
    Stepping.CountExact(LastX(ls, paper) - ls.leftMargin, ls.xSpacing, i);
    assert (i as real) * ls.xSpacing >= 0.0;
  }

  lemma LastRuleIsLast(ls: VerticalLineSet, paper: PaperSize)
    requires Validate(ls, paper).Ok? && |Rules(ls, paper)| > 0
    ensures RuleX(Rules(ls, paper)[|Rules(ls, paper)| - 1], paper) + ls.xSpacing > paper.width - ls.rightMargin
  {
    var n := |Rules(ls, paper)|;
    Stepping.CountExact(LastX(ls, paper) - ls.leftMargin, ls.xSpacing, n);
    RuleAt(ls, paper, n - 1);
    assert ((n - 1) as real) * ls.xSpacing + ls.xSpacing == (n as real) * ls.xSpacing;
  }

  /** The first rule is at the left margin and each further rule is exactly one spacing to the right. */
  lemma RulesAscendBySpacing(ls: VerticalLineSet, paper: PaperSize)
    requires Validate(ls, paper).Ok?
    ensures |Rules(ls, paper)| > 0 ==> RuleX(Rules(ls, paper)[0], paper) == ls.leftMargin
    ensures forall i :: 0 < i < |Rules(ls, paper)| ==>
              RuleX(Rules(ls, paper)[i], paper) - RuleX(Rules(ls, paper)[i - 1], paper) == ls.xSpacing
  {
    var lines := Rules(ls, paper);
    forall i | 0 < i < |lines|
      ensures RuleX(lines[i], paper) - RuleX(lines[i - 1], paper) == ls.xSpacing
    {
      RuleAt(ls, paper, i - 1);
      RuleAt(ls, paper, i);
      assert ((i - 1) as real) * ls.xSpacing + ls.xSpacing == (i as real) * ls.xSpacing;
    }
  }

  /** Every rule runs from y = 0 to y = height at one x, styled as the set. */
  lemma RulesSpanThePage(ls: VerticalLineSet, paper: PaperSize)
    requires Validate(ls, paper).Ok?
    ensures forall line <- Rules(ls, paper) ::
              && YCoord(line.start, paper) == 0.0 && YCoord(line.end, paper) == paper.height
              && XCoord(line.end, paper) == XCoord(line.start, paper)
              && line.thickness == ls.thickness && line.color == ls.color
              && line.dashPattern == ls.dashPattern
  {
    var lines := Rules(ls, paper);
    forall i | 0 <= i < |lines|
      ensures && YCoord(lines[i].start, paper) == 0.0 && YCoord(lines[i].end, paper) == paper.height
              && XCoord(lines[i].end, paper) == XCoord(lines[i].start, paper)
              && lines[i].thickness == ls.thickness && lines[i].color == ls.color
              && lines[i].dashPattern == ls.dashPattern
    {
      RuleAt(ls, paper, i);
    }
  }

  /**
   * The generator: check the preconditions in order, then push one rule per
   * step while x is still at or left of width - right_margin. On an error
   * nothing is pushed; otherwise the rules are appended after what was there.
   */
  method CreateVerticalLines(ls: VerticalLineSet, paper: PaperSize, result: LineVec)
    returns (r: Result<(), Error>)
    modifies result
    ensures r == Validate(ls, paper)
    ensures r.Err? ==> result.items == old(result.items)
    ensures r.Ok? ==> result.items == old(result.items) + VerticalLines(ls, paper).value
  {
    if paper.width <= 0.0 {
      return Err(PaperWidthIsNotPositive(paper.width));
    }
    if paper.height <= 0.0 {
      return Err(PaperHeightIsNotPositive(paper.height));
    }
    if ls.xSpacing <= 0.0 {
      return Err(XSpacingIsNotPositive(ls.xSpacing));
    }
    if ls.leftMargin <= 0.0 {
      return Err(LeftMarginIsNotPositive(ls.leftMargin));
    }
    if ls.rightMargin <= 0.0 {
      return Err(RightMarginIsNotPositive(ls.rightMargin));
    }

    ghost var lines := Rules(ls, paper);
    ghost var span := LastX(ls, paper) - ls.leftMargin;
    ghost var k: nat := 0;
    var x := ls.leftMargin;
    while x <= paper.width - ls.rightMargin
      invariant k <= |lines|
      invariant x == ls.leftMargin + (k as real) * ls.xSpacing
      invariant result.items == old(result.items) + lines[..k]
      decreases |lines| - k
    {
      Stepping.CountExact(span, ls.xSpacing, k);
      RuleAt(ls, paper, k);
      result.Push(LineDef(
        PointDef(OffZero(x), OffZero(0.0)),
        PointDef(OffZero(x), OffZero(paper.height)),
        ls.thickness,
        ls.color,
        ls.dashPattern));
      assert lines[..k + 1] == lines[..k] + [lines[k]];
      x := x + ls.xSpacing;
      k := k + 1;
    }
    Stepping.CountExact(span, ls.xSpacing, k);
    assert lines[..k] == lines;
    return Ok(());
  }
}
