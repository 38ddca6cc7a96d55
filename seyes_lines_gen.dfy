/**
 * Seyes (French) ruling (src/seyes_lines_gen.rs): two auxiliary lines, then
 * blocks of four lines styled aux, base, aux, aux, one y_spacing apart.
 *
 * The opening lines are each drawn only at or above the bottom margin. A
 * block is started while y + 4 * y_spacing >= bottom_margin, and its four
 * lines are not checked against the margin, so the last blocks may reach
 * below it (down to bottom_margin - 8 * y_spacing).
 */
module SeyesLinesGen {
  import opened Results
  import opened GeometryCoord
  import opened GeometryDef
  import Stepping

  datatype Error =
    | PaperWidthIsNotPositive(width: real)
    | PaperHeightIsNotPositive(height: real)
    | YSpacingIsNotPositive(ySpacing: real)
    | TopMarginIsNotPositive(topMargin: real)
    | BottomMarginIsNotPositive(bottomMargin: real)

  /**
   * The precondition chain, as for horizontal rules: width, height, spacing,
   * top margin, bottom margin must each be positive, first failure wins.
   */
  function Validate(ls: SeyesLineSet, paper: PaperSize): (r: Result<(), Error>)
    ensures r == Err(PaperWidthIsNotPositive(paper.width)) <==> paper.width <= 0.0
    ensures r == Err(PaperHeightIsNotPositive(paper.height)) <==> paper.width > 0.0 && paper.height <= 0.0
    ensures r == Err(YSpacingIsNotPositive(ls.ySpacing)) <==>
              paper.width > 0.0 && paper.height > 0.0 && ls.ySpacing <= 0.0
    ensures r == Err(TopMarginIsNotPositive(ls.topMargin)) <==>
              paper.width > 0.0 && paper.height > 0.0 && ls.ySpacing > 0.0 && ls.topMargin <= 0.0
    ensures r == Err(BottomMarginIsNotPositive(ls.bottomMargin)) <==>
              paper.width > 0.0 && paper.height > 0.0 && ls.ySpacing > 0.0 && ls.topMargin > 0.0
              && ls.bottomMargin <= 0.0
    ensures r.Ok? <==>
              paper.width > 0.0 && paper.height > 0.0 && ls.ySpacing > 0.0 && ls.topMargin > 0.0
              && ls.bottomMargin > 0.0
  {
    if paper.width <= 0.0 then Err(PaperWidthIsNotPositive(paper.width))
    else if paper.height <= 0.0 then Err(PaperHeightIsNotPositive(paper.height))
    else if ls.ySpacing <= 0.0 then Err(YSpacingIsNotPositive(ls.ySpacing))
    else if ls.topMargin <= 0.0 then Err(TopMarginIsNotPositive(ls.topMargin))
    else if ls.bottomMargin <= 0.0 then Err(BottomMarginIsNotPositive(ls.bottomMargin))
    else Ok(())
  }

  /** A full-width line at height y; this generator never sets a dash pattern. */
  function Line(paper: PaperSize, y: real, thickness: real, color: CmykDef): LineDef {
    LineDef(PointDef(OffZero(0.0), OffZero(y)), PointDef(OffZero(paper.width), OffZero(y)),
            thickness, color, None)
  }

  function Aux(ls: SeyesLineSet, paper: PaperSize, y: real): LineDef {
    Line(paper, y, ls.auxThickness, ls.auxColor)
  }

  function Base(ls: SeyesLineSet, paper: PaperSize, y: real): LineDef {
    Line(paper, y, ls.baseThickness, ls.baseColor)
  }

  /** The height of the first line. */
  function FirstY(ls: SeyesLineSet, paper: PaperSize): real {
    paper.height - ls.topMargin
  }

  /** The two opening aux lines, each kept only if it is at or above the bottom margin. */
  function Opening(ls: SeyesLineSet, paper: PaperSize): seq<LineDef> {
    var y := FirstY(ls, paper);
    (if y >= ls.bottomMargin then [Aux(ls, paper, y)] else [])
    + (if y - ls.ySpacing >= ls.bottomMargin then [Aux(ls, paper, y - ls.ySpacing)] else [])
  }

  /** How many blocks the lookahead lets through. */
  function BlockCount(ls: SeyesLineSet, paper: PaperSize): nat
    requires ls.ySpacing > 0.0
  {
    Stepping.Count(FirstY(ls, paper) - ls.ySpacing + 4.0 * ls.ySpacing - ls.bottomMargin, 4.0 * ls.ySpacing)
  }

  /** The i-th line of the blocks: the second of each four is a base line. */
  function Motif(ls: SeyesLineSet, paper: PaperSize, i: int, y: real): LineDef {
    if i % 4 == 1 then Base(ls, paper, y) else Aux(ls, paper, y)
  }

  /** The height of the i-th block line: i + 2 spacings below the first line. */
  function BlockY(ls: SeyesLineSet, paper: PaperSize, i: int): real {
    FirstY(ls, paper) - ((i + 2) as real) * ls.ySpacing
  }

  /** The block lines, in the order they are drawn. */
  function Blocks(ls: SeyesLineSet, paper: PaperSize): seq<LineDef>
    requires ls.ySpacing > 0.0
  {
    var n := 4 * BlockCount(ls, paper);
    seq(n, i requires 0 <= i < n => Motif(ls, paper, i, BlockY(ls, paper, i)))
  }

  /** What the generator appends. */
  function SeyesLines(ls: SeyesLineSet, paper: PaperSize): Result<seq<LineDef>, Error> {
    match Validate(ls, paper)
    case Err(e) => Err(e)
    case Ok(_) => Ok(Opening(ls, paper) + Blocks(ls, paper))
  }

  /** The lines of a valid set. */
  function Lines(ls: SeyesLineSet, paper: PaperSize): seq<LineDef>
    requires Validate(ls, paper).Ok?
  {
    SeyesLines(ls, paper).value
  }

  /** The height at which a generated line is drawn. */
  function LineY(line: LineDef, paper: PaperSize): real {
    YCoord(line.start, paper)
  }

  lemma BlockLineAt(ls: SeyesLineSet, paper: PaperSize, i: nat)
    requires ls.ySpacing > 0.0 && i < |Blocks(ls, paper)|
    ensures Blocks(ls, paper)[i] == Motif(ls, paper, i, BlockY(ls, paper, i))
    ensures LineY(Blocks(ls, paper)[i], paper) == BlockY(ls, paper, i)
    ensures BlockY(ls, paper, i) == FirstY(ls, paper) - ((i + 2) as real) * ls.ySpacing
  {
  }

  /**
   * The opening: the line at height - top_margin is drawn exactly when it is
   * at or above the bottom margin, and so is the line one spacing lower;
   * both are aux lines, and the second can only be there with the first.
   */
  lemma OpeningGuards(ls: SeyesLineSet, paper: PaperSize)
    requires Validate(ls, paper).Ok?
    ensures var y := FirstY(ls, paper);
            && (Aux(ls, paper, y) in Opening(ls, paper) <==> y >= ls.bottomMargin)
            && (Aux(ls, paper, y - ls.ySpacing) in Opening(ls, paper) <==> y - ls.ySpacing >= ls.bottomMargin)
            && |Opening(ls, paper)| <= 2
            && (|Opening(ls, paper)| > 0 ==> Opening(ls, paper)[0] == Aux(ls, paper, y))
            && (forall line <- Opening(ls, paper) :: LineY(line, paper) >= ls.bottomMargin)
  {
    var y := FirstY(ls, paper);
    if y >= ls.bottomMargin {
      assert Aux(ls, paper, y) != Aux(ls, paper, y - ls.ySpacing);
    }
  }

  /**
   * The blocks come in fours styled aux, base, aux, aux, and follow the
   * guarded opening lines.
   */
  lemma BlocksFollowTheMotif(ls: SeyesLineSet, paper: PaperSize)
    requires Validate(ls, paper).Ok?
    ensures |Blocks(ls, paper)| % 4 == 0
    ensures Lines(ls, paper) == Opening(ls, paper) + Blocks(ls, paper)
    ensures forall i :: 0 <= i < |Blocks(ls, paper)| ==>
              Blocks(ls, paper)[i].thickness == (if i % 4 == 1 then ls.baseThickness else ls.auxThickness)
    ensures forall i :: 0 <= i < |Blocks(ls, paper)| ==>
              Blocks(ls, paper)[i].color == (if i % 4 == 1 then ls.baseColor else ls.auxColor)
  {
  }

  /**
   * Each block line is one spacing below the one before it, the first two
   * spacings below height - top_margin whether or not the opening lines
   * were drawn.
   */
  lemma BlocksDescendBySpacing(ls: SeyesLineSet, paper: PaperSize)
    requires Validate(ls, paper).Ok?
    ensures |Blocks(ls, paper)| > 0 ==>
              LineY(Blocks(ls, paper)[0], paper) == FirstY(ls, paper) - 2.0 * ls.ySpacing
    ensures forall i :: 0 < i < |Blocks(ls, paper)| ==>
              LineY(Blocks(ls, paper)[i - 1], paper) - LineY(Blocks(ls, paper)[i], paper) == ls.ySpacing
  {
    var blocks := Blocks(ls, paper);
    if |blocks| > 0 {
      BlockLineAt(ls, paper, 0);
    }
    forall i | 0 < i < |blocks|
      ensures LineY(blocks[i - 1], paper) - LineY(blocks[i], paper) == ls.ySpacing
    {
      BlockLineAt(ls, paper, i - 1);
      BlockLineAt(ls, paper, i);
      assert (((i - 1) + 2) as real) * ls.ySpacing + ls.ySpacing == ((i + 2) as real) * ls.ySpacing;
    }
  }

  /** The value of y when block j is about to start: one spacing, then four per block, below the first line. */
  function BlockTop(ls: SeyesLineSet, paper: PaperSize, j: nat): real {
    if j == 0 then FirstY(ls, paper) - ls.ySpacing else BlockTop(ls, paper, j - 1) - 4.0 * ls.ySpacing
  }

  lemma {:induction false} BlockTopClosed(ls: SeyesLineSet, paper: PaperSize, j: nat)
    ensures BlockTop(ls, paper, j) == FirstY(ls, paper) - ls.ySpacing - (j as real) * (4.0 * ls.ySpacing)
  {
    if j > 0 {
      BlockTopClosed(ls, paper, j - 1);
      assert (j as real) * (4.0 * ls.ySpacing) == ((j - 1) as real) * (4.0 * ls.ySpacing) + 4.0 * ls.ySpacing;
    }
  }

  /** The four lines of block j sit one, two, three and four spacings below BlockTop(j). */
  lemma {:induction false} BlockHeights(ls: SeyesLineSet, paper: PaperSize, j: nat)
    ensures var y, s := BlockTop(ls, paper, j), ls.ySpacing;
            && BlockY(ls, paper, 4 * j) == y - s
            && BlockY(ls, paper, 4 * j + 1) == y - s - s
            && BlockY(ls, paper, 4 * j + 2) == y - s - s - s
            && BlockY(ls, paper, 4 * j + 3) == y - s - s - s - s
  {
    BlockTopClosed(ls, paper, j);
    var s, top := ls.ySpacing, (j as real) * (4.0 * ls.ySpacing);
    assert ((4 * j + 2) as real) * s == top + 2.0 * s;
    assert ((4 * j + 1 + 2) as real) * s == top + 3.0 * s;
    assert ((4 * j + 2 + 2) as real) * s == top + 4.0 * s;
    assert ((4 * j + 3 + 2) as real) * s == top + 5.0 * s;
  }

  /**
   * Block j starts at y = height - top_margin - (4j + 1) * y_spacing and is
   * drawn exactly while that y passes the lookahead y + 4 * y_spacing >=
   * bottom_margin; the block after the last one fails it.
   */
  lemma BlocksObeyTheLookahead(ls: SeyesLineSet, paper: PaperSize, j: nat)
    requires Validate(ls, paper).Ok?
    ensures 4 * j < |Blocks(ls, paper)| <==> BlockTop(ls, paper, j) + 4.0 * ls.ySpacing >= ls.bottomMargin
  {
    var s := ls.ySpacing;
    Stepping.CountExact(FirstY(ls, paper) - s + 4.0 * s - ls.bottomMargin, 4.0 * s, j);
    BlockTopClosed(ls, paper, j);
  }

  /** Each block starts lower than the one before, the first one spacing below the first line. */
  lemma {:induction false} BlockTopDescends(ls: SeyesLineSet, paper: PaperSize, j: nat)
    requires ls.ySpacing > 0.0
    ensures BlockTop(ls, paper, j) <= FirstY(ls, paper) - ls.ySpacing
  {
    if j > 0 {
      BlockTopDescends(ls, paper, j - 1);
    }
  }

  /**
   * Every line lies between height - top_margin and bottom_margin - 8 *
   * y_spacing: the block lines are not held to the bottom margin itself.
   */
  lemma LinesStayAboveEightSpacingsBelowMargin(ls: SeyesLineSet, paper: PaperSize)
    requires Validate(ls, paper).Ok?
    ensures forall i :: 0 <= i < |Lines(ls, paper)| ==>
              ls.bottomMargin - 8.0 * ls.ySpacing <= LineY(Lines(ls, paper)[i], paper) <= FirstY(ls, paper)
  {
    var s := ls.ySpacing;
    var y0 := FirstY(ls, paper);
    var opening, blocks := Opening(ls, paper), Blocks(ls, paper);
    forall i | 0 <= i < |blocks|
      ensures ls.bottomMargin - 8.0 * s <= LineY(blocks[i], paper) <= y0
    {
      var j := i / 4;
      assert 4 * j <= i < 4 * j + 4;
      BlockLineAt(ls, paper, i);
      BlocksObeyTheLookahead(ls, paper, j);
      BlockHeights(ls, paper, j);
      BlockTopDescends(ls, paper, j);
    }
    OpeningGuards(ls, paper);
    BlocksFollowTheMotif(ls, paper);
    forall i | 0 <= i < |Lines(ls, paper)|
      ensures ls.bottomMargin - 8.0 * s <= LineY(Lines(ls, paper)[i], paper) <= y0
    {
      if i < |opening| {
        assert Lines(ls, paper)[i] == opening[i];
      } else {
        assert Lines(ls, paper)[i] == blocks[i - |opening|];
      }
    }
  }

  /** Every line runs from x = 0 to x = width at one height, with no dash pattern. */
  lemma LinesSpanThePage(ls: SeyesLineSet, paper: PaperSize)
    requires Validate(ls, paper).Ok?
    ensures forall line <- Lines(ls, paper) ::
              && XCoord(line.start, paper) == 0.0 && XCoord(line.end, paper) == paper.width
              && YCoord(line.end, paper) == YCoord(line.start, paper)
              && line.dashPattern.None?
  {
  }

  const SampleSet: SeyesLineSet :=
    SeyesLineSet(2.0, 30.0, 20.0, 0.4, CmykDef(0.02, 0.34, 0.0, 0.12), 0.1, CmykDef(0.02, 0.34, 0.0, 0.12))

  /**
   * The sample definition on letter paper: aux at 249.4 and 247.4, then the
   * first block aux 245.4, base 243.4, aux 241.4, aux 239.4; thirty blocks
   * in all, the last line at 7.4, below the 20 mm bottom margin.
   */
  lemma SampleSeyesOnLetter()
    ensures var lines := Lines(SampleSet, LetterPortrait);
            && |lines| == 122
            && lines[..6] == [Aux(SampleSet, LetterPortrait, 249.4), Aux(SampleSet, LetterPortrait, 247.4),
                              Aux(SampleSet, LetterPortrait, 245.4), Base(SampleSet, LetterPortrait, 243.4),
                              Aux(SampleSet, LetterPortrait, 241.4), Aux(SampleSet, LetterPortrait, 239.4)]
            && LineY(lines[121], LetterPortrait) == 7.4
  {
    var ls, paper := SampleSet, LetterPortrait;
    Stepping.CountExact(235.4, 8.0, 29);
    Stepping.CountExact(235.4, 8.0, 30);
    assert BlockCount(ls, paper) == 30;
    assert Opening(ls, paper) == [Aux(ls, paper, 249.4), Aux(ls, paper, 247.4)];
    var lines := Lines(ls, paper);
    BlockLineAt(ls, paper, 0);
    BlockLineAt(ls, paper, 1);
    BlockLineAt(ls, paper, 2);
    BlockLineAt(ls, paper, 3);
    BlockLineAt(ls, paper, 119);
  }

  lemma PositionInBlock(j: nat)
    ensures (4 * j) % 4 == 0 && (4 * j + 1) % 4 == 1 && (4 * j + 2) % 4 == 2 && (4 * j + 3) % 4 == 3
  {
  }

  /** Block j: four lines below its starting height y, styled aux, base, aux, aux. */
  lemma BlockStep(ls: SeyesLineSet, paper: PaperSize, j: nat, y: real)
    requires ls.ySpacing > 0.0 && 4 * j < |Blocks(ls, paper)|
    requires y == BlockTop(ls, paper, j)
    ensures var s := ls.ySpacing;
            && 4 * j + 4 <= |Blocks(ls, paper)|
            && Blocks(ls, paper)[..4 * j + 4] == Blocks(ls, paper)[..4 * j]
                 + [Aux(ls, paper, y - s), Base(ls, paper, y - s - s),
                    Aux(ls, paper, y - s - s - s), Aux(ls, paper, y - s - s - s - s)]
  {
    var s := ls.ySpacing;
    var blocks := Blocks(ls, paper);
    var b := 4 * j;
    assert b + 4 <= |blocks|;
    PositionInBlock(j);
    BlockHeights(ls, paper, j);
    BlockLineAt(ls, paper, b);
    BlockLineAt(ls, paper, b + 1);
    BlockLineAt(ls, paper, b + 2);
    BlockLineAt(ls, paper, b + 3);
    assert blocks[..b + 4] == blocks[..b] + [blocks[b], blocks[b + 1], blocks[b + 2], blocks[b + 3]];
  }

  /**
   * The generator: check the preconditions in order, push the two opening
   * aux lines where they fit, then whole blocks of four while the lookahead
   * holds. On an error nothing is pushed; otherwise the lines are appended
   * after what was there.
   */
  method CreateSeyesLines(ls: SeyesLineSet, paper: PaperSize, result: LineVec)
    returns (r: Result<(), Error>)
    modifies result
    ensures r == Validate(ls, paper)
    ensures r.Err? ==> result.items == old(result.items)
    ensures r.Ok? ==> result.items == old(result.items) + SeyesLines(ls, paper).value
  {
    if paper.width <= 0.0 {
      return Err(PaperWidthIsNotPositive(paper.width));
    }
    if paper.height <= 0.0 {
      return Err(PaperHeightIsNotPositive(paper.height));
    }
    if ls.ySpacing <= 0.0 {
      return Err(YSpacingIsNotPositive(ls.ySpacing));
    }
    if ls.topMargin <= 0.0 {
      return Err(TopMarginIsNotPositive(ls.topMargin));
    }
    if ls.bottomMargin <= 0.0 {
      return Err(BottomMarginIsNotPositive(ls.bottomMargin));
    }

    var y := paper.height - ls.topMargin;
    if y >= ls.bottomMargin {
      AddLine(paper, result, y, ls.auxThickness, ls.auxColor);
    }
    y := y - ls.ySpacing;
    if y >= ls.bottomMargin {
      AddLine(paper, result, y, ls.auxThickness, ls.auxColor);
    }

    ghost var s := ls.ySpacing;
    ghost var blocks := Blocks(ls, paper);
    ghost var prefix := old(result.items) + Opening(ls, paper);
    ghost var j: nat := 0;
    while y + (4.0 * ls.ySpacing) >= ls.bottomMargin
      invariant 4 * j <= |blocks|
      invariant y == BlockTop(ls, paper, j)
      invariant result.items == prefix + blocks[..4 * j]
      decreases |blocks| - 4 * j
    {
      BlocksObeyTheLookahead(ls, paper, j);
      BlockStep(ls, paper, j, y);
      ghost var block := [Aux(ls, paper, y - s), Base(ls, paper, y - s - s),
                          Aux(ls, paper, y - s - s - s), Aux(ls, paper, y - s - s - s - s)];
      ghost var done := blocks[..4 * j];

      y := y - ls.ySpacing;
      AddLine(paper, result, y, ls.auxThickness, ls.auxColor);
      y := y - ls.ySpacing;
      AddLine(paper, result, y, ls.baseThickness, ls.baseColor);
      y := y - ls.ySpacing;
      AddLine(paper, result, y, ls.auxThickness, ls.auxColor);
      y := y - ls.ySpacing;
      AddLine(paper, result, y, ls.auxThickness, ls.auxColor);

      assert result.items == (prefix + done) + block;
      j := j + 1;
    }
    BlocksObeyTheLookahead(ls, paper, j);
    assert blocks[..4 * j] == blocks;
    return Ok(());
  }

  /** The generator's `add_line` closure: push a full-width line at height y. */
  method AddLine(paper: PaperSize, result: LineVec, y: real, thickness: real, color: CmykDef)
    modifies result
    ensures result.items == old(result.items) + [Line(paper, y, thickness, color)]
  {
    result.Push(LineDef(PointDef(OffZero(0.0), OffZero(y)), PointDef(OffZero(paper.width), OffZero(y)),
                        thickness, color, None));
  }
}
