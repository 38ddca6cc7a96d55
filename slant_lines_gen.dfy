/**
 * Slanted guide lines (src/slant_lines_gen.rs): parallel lines falling to
 * the left at the slant angle, whose starting points are x_spacing apart
 * along the upper edge and then, once past the right edge,
 * x_spacing * tan(angle) apart down the right edge. Each line is cut where
 * it meets the lower or the left edge.
 *
 * The tangent of the slant angle is a parameter (`t`): the model has no
 * trigonometry. The range check on the angle is written with `&&` and can
 * never reject, and the model keeps it that way.
 */
module SlantLinesGen {
  import opened Results
  import opened GeometryCoord
  import opened GeometryDef
  import Stepping

  datatype Error =
    | SlantAngleIsOutOfRange(actual: real, min: real, max: real)
    | LineSpacingIsNotPositive(xSpacing: real)
    | PaperWidthIsNotPositive(width: real)
    | PaperHeightIsNotPositive(height: real)

  const MinAngle: real := 45.0
  const MaxAngle: real := 90.0

  /** The angle guard as written: below the minimum and, at once, above the maximum. */
  predicate AngleGuard(ls: SlantLineSet) {
    ls.slantAngle < MinAngle && ls.slantAngle > MaxAngle
  }

  /**
   * The precondition chain: the angle guard, then spacing, width and height
   * must each be positive; the first that fails is the error.
   */
  function Validate(ls: SlantLineSet, paper: PaperSize): (r: Result<(), Error>)
    ensures r == Err(SlantAngleIsOutOfRange(ls.slantAngle, MinAngle, MaxAngle)) <==> AngleGuard(ls)
    ensures r == Err(LineSpacingIsNotPositive(ls.xSpacing)) <==> !AngleGuard(ls) && ls.xSpacing <= 0.0
    ensures r == Err(PaperWidthIsNotPositive(paper.width)) <==>
              !AngleGuard(ls) && ls.xSpacing > 0.0 && paper.width <= 0.0
    ensures r == Err(PaperHeightIsNotPositive(paper.height)) <==>
              !AngleGuard(ls) && ls.xSpacing > 0.0 && paper.width > 0.0 && paper.height <= 0.0
    ensures r.Ok? <==> ls.xSpacing > 0.0 && paper.width > 0.0 && paper.height > 0.0
  {
    if AngleGuard(ls) then Err(SlantAngleIsOutOfRange(ls.slantAngle, MinAngle, MaxAngle))
    else if ls.xSpacing <= 0.0 then Err(LineSpacingIsNotPositive(ls.xSpacing))
    else if paper.width <= 0.0 then Err(PaperWidthIsNotPositive(paper.width))
    else if paper.height <= 0.0 then Err(PaperHeightIsNotPositive(paper.height))
    else Ok(())
  }

  /** No slant angle, however far outside 45..90 degrees, is ever rejected. */
  lemma SlantAngleIsNeverRejected(ls: SlantLineSet, paper: PaperSize)
    ensures !AngleGuard(ls)
    ensures Validate(ls, paper).Err? ==> !Validate(ls, paper).error.SlantAngleIsOutOfRange?
  {
  }

  /** A line segment in the set's thickness and colour; this generator never sets a dash pattern. */
  function Segment(ls: SlantLineSet, x0: real, y0: real, x1: real, y1: real): LineDef {
    LineDef(PointDef(OffZero(x0), OffZero(y0)), PointDef(OffZero(x1), OffZero(y1)), ls.thickness, ls.color, None)
  }

  /**
   * The line from (x, height) on the upper edge: it ends on the lower edge
   * at x - height / t, or on the left edge at height - x * t when that
   * would be left of x = 0.
   */
  function TopLine(ls: SlantLineSet, paper: PaperSize, t: real, x: real): LineDef
    requires t > 0.0
  {
    var x1 := x - paper.height / t;
    if x1 < 0.0 then Segment(ls, x, paper.height, 0.0, paper.height - x * t)
    else Segment(ls, x, paper.height, x1, 0.0)
  }

  /**
   * The line from (width, y) on the right edge: it ends on the lower edge
   * at width - y / t, or on the left edge at y - width * t when that would
   * be left of x = 0.
   */
  function SideLine(ls: SlantLineSet, paper: PaperSize, t: real, y: real): LineDef
    requires t > 0.0
  {
    var x1 := paper.width - y / t;
    if x1 < 0.0 then Segment(ls, paper.width, y, 0.0, y - paper.width * t)
    else Segment(ls, paper.width, y, x1, 0.0)
  }

  lemma TopLineCases(ls: SlantLineSet, paper: PaperSize, t: real, x: real)
    requires t > 0.0
    ensures x - paper.height / t < 0.0 ==> TopLine(ls, paper, t, x) == Segment(ls, x, paper.height, 0.0, paper.height - x * t)
    ensures x - paper.height / t >= 0.0 ==> TopLine(ls, paper, t, x) == Segment(ls, x, paper.height, x - paper.height / t, 0.0)
  {
  }

  lemma SideLineCases(ls: SlantLineSet, paper: PaperSize, t: real, y: real)
    requires t > 0.0
    ensures paper.width - y / t < 0.0 ==> SideLine(ls, paper, t, y) == Segment(ls, paper.width, y, 0.0, y - paper.width * t)
    ensures paper.width - y / t >= 0.0 ==> SideLine(ls, paper, t, y) == Segment(ls, paper.width, y, paper.width - y / t, 0.0)
  {
  }

  /** The start of the k-th line along the upper edge: the spacing, added k + 1 times. */
  function TopX(ls: SlantLineSet, k: nat): real {
    if k == 0 then ls.xSpacing else TopX(ls, k - 1) + ls.xSpacing
  }

  lemma {:induction false} TopXClosed(ls: SlantLineSet, k: nat)
    ensures TopX(ls, k) == ((k + 1) as real) * ls.xSpacing
  {
    if k > 0 {
      TopXClosed(ls, k - 1);
      assert ((k + 1) as real) * ls.xSpacing == (k as real) * ls.xSpacing + ls.xSpacing;
    }
  }

  lemma {:induction false} TopXAscends(ls: SlantLineSet, k: nat)
    requires ls.xSpacing > 0.0
    ensures TopX(ls, k) >= ls.xSpacing
  {
    if k > 0 {
      TopXAscends(ls, k - 1);
    }
  }

  /** How many starting points along the upper edge are not past the right edge. */
  function TopCount(ls: SlantLineSet, paper: PaperSize): nat
    requires ls.xSpacing > 0.0
  {
    Stepping.Count(paper.width - ls.xSpacing, ls.xSpacing)
  }

  /** The first phase draws a line from TopX(k) exactly while that point is not past the right edge. */
  lemma TopXPassesEdge(ls: SlantLineSet, paper: PaperSize, k: nat)
    requires ls.xSpacing > 0.0
    ensures k < TopCount(ls, paper) <==> TopX(ls, k) <= paper.width
  {
    Stepping.CountExact(paper.width - ls.xSpacing, ls.xSpacing, k);
    TopXClosed(ls, k);
    assert ((k + 1) as real) * ls.xSpacing == (k as real) * ls.xSpacing + ls.xSpacing;
  }

  /** The first starting point past the right edge. */
  function ExitX(ls: SlantLineSet, paper: PaperSize): real
    requires ls.xSpacing > 0.0
  {
    TopX(ls, TopCount(ls, paper))
  }

  /**
   * Where the line through the first point past the right edge crosses the
   * right edge: the first start of the second phase.
   */
  function ExitY(ls: SlantLineSet, paper: PaperSize, t: real): real
    requires ls.xSpacing > 0.0
  {
    paper.height - (ExitX(ls, paper) - paper.width) * t
  }

  /**
   * The generator's `line_y_spacing`: how far apart the starts down the
   * right edge are, for lines x_spacing apart along the upper edge.
   */
  function LineYSpacing(ls: SlantLineSet, t: real): (d: real)
    ensures ls.xSpacing > 0.0 && t > 0.0 ==> d > 0.0
  {
    ls.xSpacing * t
  }

  /** The start of the j-th line down the right edge: line_y_spacing subtracted j times. */
  function SideY(ls: SlantLineSet, paper: PaperSize, t: real, j: nat): real
    requires ls.xSpacing > 0.0
  {
    if j == 0 then ExitY(ls, paper, t) else SideY(ls, paper, t, j - 1) - LineYSpacing(ls, t)
  }

  lemma {:induction false} SideYClosed(ls: SlantLineSet, paper: PaperSize, t: real, j: nat)
    requires ls.xSpacing > 0.0
    ensures SideY(ls, paper, t, j) == ExitY(ls, paper, t) - (j as real) * LineYSpacing(ls, t)
  {
    if j > 0 {
      var d := LineYSpacing(ls, t);
      SideYClosed(ls, paper, t, j - 1);
      assert SideY(ls, paper, t, j) == SideY(ls, paper, t, j - 1) - d;
      assert (j as real) * d == ((j - 1) as real) * d + d;
    }
  }

  lemma {:induction false} SideYDescends(ls: SlantLineSet, paper: PaperSize, t: real, j: nat)
    requires ls.xSpacing > 0.0 && t > 0.0
    ensures SideY(ls, paper, t, j) <= ExitY(ls, paper, t)
  {
    if j > 0 {
      SideYDescends(ls, paper, t, j - 1);
    }
  }

  /** How many starting points down the right edge are not below the lower edge. */
  function SideCount(ls: SlantLineSet, paper: PaperSize, t: real): nat
    requires ls.xSpacing > 0.0 && t > 0.0
  {
    Stepping.Count(ExitY(ls, paper, t), LineYSpacing(ls, t))
  }

  /** The second phase draws a line from SideY(j) exactly while that point is not below the lower edge. */
  lemma SideYPassesEdge(ls: SlantLineSet, paper: PaperSize, t: real, j: nat)
    requires ls.xSpacing > 0.0 && t > 0.0
    ensures j < SideCount(ls, paper, t) <==> SideY(ls, paper, t, j) >= 0.0
  {
    var step := LineYSpacing(ls, t);
    Stepping.CountExact(ExitY(ls, paper, t), step, j);
    SideYClosed(ls, paper, t, j);
  }

  /** The lines started on the upper edge. */
  function TopLines(ls: SlantLineSet, paper: PaperSize, t: real): seq<LineDef>
    requires ls.xSpacing > 0.0 && t > 0.0
  {
    var n := TopCount(ls, paper);
    seq(n, k requires 0 <= k < n => TopLine(ls, paper, t, TopX(ls, k)))
  }

  /** The lines started on the right edge. */
  function SideLines(ls: SlantLineSet, paper: PaperSize, t: real): seq<LineDef>
    requires ls.xSpacing > 0.0 && t > 0.0
  {
    var n := SideCount(ls, paper, t);
    seq(n, j requires 0 <= j < n => SideLine(ls, paper, t, SideY(ls, paper, t, j)))
  }

  /** What the generator appends, for a slant angle whose tangent is t. */
  function SlantLines(ls: SlantLineSet, paper: PaperSize, t: real): Result<seq<LineDef>, Error>
    requires Validate(ls, paper).Ok? ==> t > 0.0
  {
    match Validate(ls, paper)
    case Err(e) => Err(e)
    case Ok(_) => Ok(TopLines(ls, paper, t) + SideLines(ls, paper, t))
  }

  /** The lines of a valid set. */
  function Lines(ls: SlantLineSet, paper: PaperSize, t: real): seq<LineDef>
    requires Validate(ls, paper).Ok? && t > 0.0
  {
    SlantLines(ls, paper, t).value
  }

  lemma TopLineAt(ls: SlantLineSet, paper: PaperSize, t: real, k: nat)
    requires ls.xSpacing > 0.0 && t > 0.0 && k < TopCount(ls, paper)
    ensures |TopLines(ls, paper, t)| == TopCount(ls, paper)
    ensures TopLines(ls, paper, t)[k] == TopLine(ls, paper, t, TopX(ls, k))
  {
  }

  lemma SideLineAt(ls: SlantLineSet, paper: PaperSize, t: real, j: nat)
    requires ls.xSpacing > 0.0 && t > 0.0 && j < SideCount(ls, paper, t)
    ensures |SideLines(ls, paper, t)| == SideCount(ls, paper, t)
    ensures SideLines(ls, paper, t)[j] == SideLine(ls, paper, t, SideY(ls, paper, t, j))
  {
  }

  /** The i-th line, in the phase it belongs to. */
  lemma LineAt(ls: SlantLineSet, paper: PaperSize, t: real, i: nat)
    requires Validate(ls, paper).Ok? && t > 0.0 && i < |Lines(ls, paper, t)|
    ensures |Lines(ls, paper, t)| == TopCount(ls, paper) + SideCount(ls, paper, t)
    ensures i < TopCount(ls, paper) ==> Lines(ls, paper, t)[i] == TopLine(ls, paper, t, TopX(ls, i))
    ensures i >= TopCount(ls, paper) ==>
              Lines(ls, paper, t)[i] == SideLine(ls, paper, t, SideY(ls, paper, t, i - TopCount(ls, paper)))
  {
  }

  lemma QuotientBelow(a: real, t: real, x: real)
    requires t > 0.0 && 0.0 <= a
    ensures 0.0 <= a / t
    ensures a / t * t == a
    ensures x - a / t < 0.0 ==> x * t < a
    ensures a < x * t ==> a / t < x
  {
    var q := a / t;
    assert q * t == a;
    if q < 0.0 {
      assert false;
    }
    if x - q < 0.0 {
      assert (q - x) * t > 0.0;
    }
    if a < x * t && q >= x {
      assert false;
    }
  }

  /** A line from the upper edge between x = 0 and the width stays on the page. */
  lemma TopLineOnPage(ls: SlantLineSet, paper: PaperSize, t: real, x: real)
    requires t > 0.0 && paper.height > 0.0 && 0.0 <= x <= paper.width
    ensures OnPage(TopLine(ls, paper, t, x), paper)
  {
    QuotientBelow(paper.height, t, x);
    assert x * t >= 0.0;
  }

  /** A line from the right edge between the lower and the upper edge stays on the page. */
  lemma SideLineOnPage(ls: SlantLineSet, paper: PaperSize, t: real, y: real)
    requires t > 0.0 && paper.width > 0.0 && 0.0 <= y <= paper.height
    ensures OnPage(SideLine(ls, paper, t, y), paper)
  {
    QuotientBelow(y, t, paper.width);
    assert paper.width * t >= 0.0;
  }

  /** The second phase starts on the right edge, no higher than the upper edge. */
  lemma ExitYIsOnTheRightEdge(ls: SlantLineSet, paper: PaperSize, t: real)
    requires Validate(ls, paper).Ok? && t > 0.0
    ensures ExitX(ls, paper) > paper.width
    ensures ExitY(ls, paper, t) < paper.height
  {
    TopXPassesEdge(ls, paper, TopCount(ls, paper));
    assert (ExitX(ls, paper) - paper.width) * t > 0.0;
  }

  /** Every line starts and ends within the page, as the generator's own tests check. */
  lemma LinesStayOnPage(ls: SlantLineSet, paper: PaperSize, t: real)
    requires Validate(ls, paper).Ok? && t > 0.0
    ensures forall line <- Lines(ls, paper, t) :: OnPage(line, paper)
  {
    var lines := Lines(ls, paper, t);
    var n1 := TopCount(ls, paper);
    ExitYIsOnTheRightEdge(ls, paper, t);
    forall i | 0 <= i < |lines|
      ensures OnPage(lines[i], paper)
    {
      LineAt(ls, paper, t, i);
      if i < n1 {
        TopXPassesEdge(ls, paper, i);
        TopXAscends(ls, i);
        TopLineOnPage(ls, paper, t, TopX(ls, i));
      } else {
        SideYPassesEdge(ls, paper, t, i - n1);
        SideYDescends(ls, paper, t, i - n1);
        SideLineOnPage(ls, paper, t, SideY(ls, paper, t, i - n1));
      }
    }
  }

  /** The resolved x and y of a line's start and of its end. */
  function StartX(line: LineDef, paper: PaperSize): real { XCoord(line.start, paper) }
  function StartY(line: LineDef, paper: PaperSize): real { YCoord(line.start, paper) }
  function EndX(line: LineDef, paper: PaperSize): real { XCoord(line.end, paper) }
  function EndY(line: LineDef, paper: PaperSize): real { YCoord(line.end, paper) }

  /** The line falls by t for every unit it runs to the left. */
  predicate HasSlant(line: LineDef, paper: PaperSize, t: real) {
    StartY(line, paper) - EndY(line, paper) == (StartX(line, paper) - EndX(line, paper)) * t
  }

  /** The line, extended upwards at slope t, meets the upper edge at x. */
  predicate MeetsTopAt(line: LineDef, paper: PaperSize, t: real, x: real) {
    StartY(line, paper) + (x - StartX(line, paper)) * t == paper.height
  }

  /**
   * The lines are parallel: each falls by t per unit to the left. Extended
   * upwards, the i-th line meets the upper edge at (i + 1) * x_spacing, so
   * the second phase carries on the spacing of the first.
   */
  lemma LinesAreEvenlySpacedParallels(ls: SlantLineSet, paper: PaperSize, t: real)
    requires Validate(ls, paper).Ok? && t > 0.0
    ensures forall line <- Lines(ls, paper, t) :: HasSlant(line, paper, t)
    ensures forall i :: 0 <= i < |Lines(ls, paper, t)| ==>
              MeetsTopAt(Lines(ls, paper, t)[i], paper, t, ((i + 1) as real) * ls.xSpacing)
  {
    var lines := Lines(ls, paper, t);
    forall i | 0 <= i < |lines|
      ensures HasSlant(lines[i], paper, t)
      ensures MeetsTopAt(lines[i], paper, t, ((i + 1) as real) * ls.xSpacing)
    {
      LineGeometry(ls, paper, t, i);
    }
  }

  /** The i-th line has the slant and crosses the upper edge at (i + 1) * x_spacing. */
  lemma LineGeometry(ls: SlantLineSet, paper: PaperSize, t: real, i: nat)
    requires Validate(ls, paper).Ok? && t > 0.0 && i < |Lines(ls, paper, t)|
    ensures HasSlant(Lines(ls, paper, t)[i], paper, t)
    ensures MeetsTopAt(Lines(ls, paper, t)[i], paper, t, ((i + 1) as real) * ls.xSpacing)
  {
    if i < TopCount(ls, paper) {
      FirstPhaseGeometry(ls, paper, t, i);
    } else {
      SecondPhaseGeometry(ls, paper, t, i);
    }
  }

  lemma FirstPhaseGeometry(ls: SlantLineSet, paper: PaperSize, t: real, i: nat)
    requires Validate(ls, paper).Ok? && t > 0.0 && i < TopCount(ls, paper)
    ensures i < |Lines(ls, paper, t)|
    ensures HasSlant(Lines(ls, paper, t)[i], paper, t)
    ensures MeetsTopAt(Lines(ls, paper, t)[i], paper, t, ((i + 1) as real) * ls.xSpacing)
  {
    LineAt(ls, paper, t, i);
    TopXClosed(ls, i);
    TopLineGeometry(ls, paper, t, TopX(ls, i));
  }

  lemma SecondPhaseGeometry(ls: SlantLineSet, paper: PaperSize, t: real, i: nat)
    requires Validate(ls, paper).Ok? && t > 0.0 && TopCount(ls, paper) <= i < |Lines(ls, paper, t)|
    ensures HasSlant(Lines(ls, paper, t)[i], paper, t)
    ensures MeetsTopAt(Lines(ls, paper, t)[i], paper, t, ((i + 1) as real) * ls.xSpacing)
  {
    var j := i - TopCount(ls, paper);
    LineAt(ls, paper, t, i);
    SideYPassesEdge(ls, paper, t, j);
    SideCrossesTheTopEdge(ls, paper, t, i);
    SideLineGeometry(ls, paper, t, SideY(ls, paper, t, j), ((i + 1) as real) * ls.xSpacing);
  }

  /** A line from (x, height) has the slant and, trivially, crosses the upper edge at x. */
  lemma TopLineGeometry(ls: SlantLineSet, paper: PaperSize, t: real, x: real)
    requires t > 0.0 && paper.height > 0.0
    ensures HasSlant(TopLine(ls, paper, t, x), paper, t)
    ensures MeetsTopAt(TopLine(ls, paper, t, x), paper, t, x)
  {
    QuotientBelow(paper.height, t, x);
  }

  /** The line of slope t through (x, height) crosses the right edge at height y. */
  predicate CrossesRightEdgeAt(paper: PaperSize, t: real, x: real, y: real) {
    y + (x - paper.width) * t == paper.height
  }

  /** A line from (width, y) on the line of slope t through (x, height) has the slant and crosses the upper edge at x. */
  lemma SideLineGeometry(ls: SlantLineSet, paper: PaperSize, t: real, y: real, x: real)
    requires t > 0.0 && y >= 0.0
    requires CrossesRightEdgeAt(paper, t, x, y)
    ensures HasSlant(SideLine(ls, paper, t, y), paper, t)
    ensures MeetsTopAt(SideLine(ls, paper, t, y), paper, t, x)
  {
    QuotientBelow(y, t, paper.width);
  }

  /** Overall line i, when it is one of the second phase, extended crosses the upper edge at (i + 1) * x_spacing. */
  lemma SideCrossesTheTopEdge(ls: SlantLineSet, paper: PaperSize, t: real, i: nat)
    requires ls.xSpacing > 0.0 && TopCount(ls, paper) <= i
    ensures CrossesRightEdgeAt(paper, t, ((i + 1) as real) * ls.xSpacing, SideY(ls, paper, t, i - TopCount(ls, paper)))
  {
    var s, w, n1 := ls.xSpacing, paper.width, TopCount(ls, paper);
    var j := i - n1;
    SideYClosed(ls, paper, t, j);
    TopXClosed(ls, n1);
    var ex := ((n1 + 1) as real) * s;
    var js := (j as real) * s;
    assert ((n1 + j + 1) as real) * s == ex + js;
    assert (ex + js - w) * t == (ex - w) * t + js * t;
    assert LineYSpacing(ls, t) == s * t;
    assert (j as real) * (s * t) == js * t;
  }

  /**
   * The first line ends on the left edge exactly when x_spacing * t is at
   * most the height; the generator's tests expect it to.
   */
  lemma FirstLineMeetsTheLeftEdge(ls: SlantLineSet, paper: PaperSize, t: real)
    requires Validate(ls, paper).Ok? && t > 0.0 && ls.xSpacing <= paper.width
    ensures |Lines(ls, paper, t)| > 0
    ensures EndX(Lines(ls, paper, t)[0], paper) == 0.0 <==> ls.xSpacing * t <= paper.height
  {
    TopXPassesEdge(ls, paper, 0);
    LineAt(ls, paper, t, 0);
    var s, h := ls.xSpacing, paper.height;
    QuotientBelow(h, t, s);
    if s - h / t == 0.0 {
      assert s * t == h / t * t;
    }
  }

  /**
   * When the spacing fits across the page, the last line ends on the lower
   * edge, as the generator's tests expect: whether it is the last line of
   * the second phase or, when that phase draws nothing, of the first.
   */
  lemma LastLineMeetsTheLowerEdge(ls: SlantLineSet, paper: PaperSize, t: real)
    requires Validate(ls, paper).Ok? && t > 0.0 && ls.xSpacing <= paper.width
    ensures |Lines(ls, paper, t)| > 0
    ensures EndY(Lines(ls, paper, t)[|Lines(ls, paper, t)| - 1], paper) == 0.0
  {
    var n1, n2 := TopCount(ls, paper), SideCount(ls, paper, t);
    TopXPassesEdge(ls, paper, 0);
    if n2 > 0 {
      LastSideLineMeetsTheLowerEdge(ls, paper, t);
    } else {
      LastTopLineMeetsTheLowerEdge(ls, paper, t);
    }
  }

  /** The last line of a non-empty second phase ends on the lower edge. */
  lemma LastSideLineMeetsTheLowerEdge(ls: SlantLineSet, paper: PaperSize, t: real)
    requires Validate(ls, paper).Ok? && t > 0.0 && ls.xSpacing <= paper.width
    requires SideCount(ls, paper, t) > 0
    ensures EndY(Lines(ls, paper, t)[|Lines(ls, paper, t)| - 1], paper) == 0.0
  {
    var n1, n2 := TopCount(ls, paper), SideCount(ls, paper, t);
    LineAt(ls, paper, t, n1 + n2 - 1);
    SideYPassesEdge(ls, paper, t, n2 - 1);
    SideYPassesEdge(ls, paper, t, n2);
    var y := SideY(ls, paper, t, n2 - 1);
    assert Lines(ls, paper, t)[n1 + n2 - 1] == SideLine(ls, paper, t, y);
    SideLineMeetsTheLowerEdge(ls, paper, t, y);
  }

  /**
   * A line from (width, y), with the next start x_spacing * t lower already
   * below the page, runs into the lower edge before the left one.
   */
  lemma SideLineMeetsTheLowerEdge(ls: SlantLineSet, paper: PaperSize, t: real, y: real)
    requires t > 0.0 && ls.xSpacing <= paper.width
    requires 0.0 <= y && y - LineYSpacing(ls, t) < 0.0
    ensures EndY(SideLine(ls, paper, t, y), paper) == 0.0
  {
    assert y < paper.width * t by {
      assert (paper.width - ls.xSpacing) * t >= 0.0;
    }
    QuotientBelow(y, t, paper.width);
    SideLineCases(ls, paper, t, y);
  }

  /**
   * With no second phase, the line through the first start past the right
   * edge crosses it below the page, so the last start on the upper edge is
   * more than height / t from the left edge and its line ends on the lower
   * edge.
   */
  lemma LastTopLineMeetsTheLowerEdge(ls: SlantLineSet, paper: PaperSize, t: real)
    requires Validate(ls, paper).Ok? && t > 0.0 && ls.xSpacing <= paper.width
    requires SideCount(ls, paper, t) == 0
    ensures |Lines(ls, paper, t)| > 0
    ensures EndY(Lines(ls, paper, t)[|Lines(ls, paper, t)| - 1], paper) == 0.0
  {
    var s, w, h, n1 := ls.xSpacing, paper.width, paper.height, TopCount(ls, paper);
    TopXPassesEdge(ls, paper, 0);
    SideYPassesEdge(ls, paper, t, 0);
    LineAt(ls, paper, t, n1 - 1);
    var x := TopX(ls, n1 - 1);
    assert ExitX(ls, paper) == x + s;
    assert h < (x + s - w) * t;
    assert (x + s - w) * t <= x * t by {
      assert (s - w) * t <= 0.0;
    }
    QuotientBelow(h, t, x);
    TopLineCases(ls, paper, t, x);
  }

  /**
   * Every line is cut where it first meets the lower or the left edge, so
   * it ends on one of them.
   */
  lemma LinesEndOnTheLowerOrLeftEdge(ls: SlantLineSet, paper: PaperSize, t: real)
    requires Validate(ls, paper).Ok? && t > 0.0
    ensures forall line <- Lines(ls, paper, t) :: EndX(line, paper) == 0.0 || EndY(line, paper) == 0.0
  {
    var lines := Lines(ls, paper, t);
    var n1 := TopCount(ls, paper);
    forall i | 0 <= i < |lines|
      ensures EndX(lines[i], paper) == 0.0 || EndY(lines[i], paper) == 0.0
    {
      LineAt(ls, paper, t, i);
      if i < n1 {
        TopLineCases(ls, paper, t, TopX(ls, i));
      } else {
        SideLineCases(ls, paper, t, SideY(ls, paper, t, i - n1));
      }
    }
  }

  /**
   * Where the lines start. The first phase starts on the upper edge at
   * x_spacing, 2 * x_spacing, ...; the second starts on the right edge where
   * the line through the first start past it crosses that edge, and steps
   * down by line_y_spacing.
   */
  lemma LinesStartOnTheUpperOrRightEdge(ls: SlantLineSet, paper: PaperSize, t: real)
    requires Validate(ls, paper).Ok? && t > 0.0
    ensures TopCount(ls, paper) <= |Lines(ls, paper, t)|
    ensures forall i :: 0 <= i < TopCount(ls, paper) ==>
              StartY(Lines(ls, paper, t)[i], paper) == paper.height &&
              StartX(Lines(ls, paper, t)[i], paper) == ((i + 1) as real) * ls.xSpacing
    ensures ExitY(ls, paper, t) ==
              paper.height - (((TopCount(ls, paper) + 1) as real) * ls.xSpacing - paper.width) * t
    ensures forall i :: TopCount(ls, paper) <= i < |Lines(ls, paper, t)| ==>
              StartX(Lines(ls, paper, t)[i], paper) == paper.width &&
              StartY(Lines(ls, paper, t)[i], paper) ==
                ExitY(ls, paper, t) - ((i - TopCount(ls, paper)) as real) * LineYSpacing(ls, t)
  {
    FirstPhaseStarts(ls, paper, t);
    ExitYClosed(ls, paper, t);
    SecondPhaseStarts(ls, paper, t);
  }

  lemma FirstPhaseStarts(ls: SlantLineSet, paper: PaperSize, t: real)
    requires Validate(ls, paper).Ok? && t > 0.0
    ensures TopCount(ls, paper) <= |Lines(ls, paper, t)|
    ensures forall i :: 0 <= i < TopCount(ls, paper) ==>
              StartY(Lines(ls, paper, t)[i], paper) == paper.height &&
              StartX(Lines(ls, paper, t)[i], paper) == ((i + 1) as real) * ls.xSpacing
  {
    var n1 := TopCount(ls, paper);
    if n1 > 0 {
      FirstPhaseStart(ls, paper, t, n1 - 1);
    }
    forall i | 0 <= i < n1
      ensures i < |Lines(ls, paper, t)|
      ensures StartY(Lines(ls, paper, t)[i], paper) == paper.height
      ensures StartX(Lines(ls, paper, t)[i], paper) == ((i + 1) as real) * ls.xSpacing
    {
      FirstPhaseStart(ls, paper, t, i);
    }
  }

  lemma SecondPhaseStarts(ls: SlantLineSet, paper: PaperSize, t: real)
    requires Validate(ls, paper).Ok? && t > 0.0
    ensures forall i :: TopCount(ls, paper) <= i < |Lines(ls, paper, t)| ==>
              StartX(Lines(ls, paper, t)[i], paper) == paper.width &&
              StartY(Lines(ls, paper, t)[i], paper) ==
                ExitY(ls, paper, t) - ((i - TopCount(ls, paper)) as real) * LineYSpacing(ls, t)
  {
    forall i | TopCount(ls, paper) <= i < |Lines(ls, paper, t)|
      ensures StartX(Lines(ls, paper, t)[i], paper) == paper.width
      ensures StartY(Lines(ls, paper, t)[i], paper) ==
                ExitY(ls, paper, t) - ((i - TopCount(ls, paper)) as real) * LineYSpacing(ls, t)
    {
      SecondPhaseStart(ls, paper, t, i);
    }
  }

  lemma ExitYClosed(ls: SlantLineSet, paper: PaperSize, t: real)
    requires ls.xSpacing > 0.0
    ensures ExitY(ls, paper, t) ==
              paper.height - (((TopCount(ls, paper) + 1) as real) * ls.xSpacing - paper.width) * t
  {
    TopXClosed(ls, TopCount(ls, paper));
  }

  lemma FirstPhaseStart(ls: SlantLineSet, paper: PaperSize, t: real, i: nat)
    requires Validate(ls, paper).Ok? && t > 0.0 && i < TopCount(ls, paper)
    ensures i < |Lines(ls, paper, t)|
    ensures StartY(Lines(ls, paper, t)[i], paper) == paper.height
    ensures StartX(Lines(ls, paper, t)[i], paper) == ((i + 1) as real) * ls.xSpacing
  {
    LineAt(ls, paper, t, i);
    TopXClosed(ls, i);
    SegmentsStartWhereTheyAreDrawnFrom(ls, paper, t, TopX(ls, i), 0.0);
  }

  lemma SecondPhaseStart(ls: SlantLineSet, paper: PaperSize, t: real, i: nat)
    requires Validate(ls, paper).Ok? && t > 0.0 && TopCount(ls, paper) <= i < |Lines(ls, paper, t)|
    ensures StartX(Lines(ls, paper, t)[i], paper) == paper.width
    ensures StartY(Lines(ls, paper, t)[i], paper) ==
              ExitY(ls, paper, t) - ((i - TopCount(ls, paper)) as real) * LineYSpacing(ls, t)
  {
    var j := i - TopCount(ls, paper);
    var y := SideY(ls, paper, t, j);
    LineAt(ls, paper, t, i);
    assert Lines(ls, paper, t)[i] == SideLine(ls, paper, t, y);
    SegmentsStartWhereTheyAreDrawnFrom(ls, paper, t, 0.0, y);
    SideYClosed(ls, paper, t, j);
  }

  lemma SegmentsStartWhereTheyAreDrawnFrom(ls: SlantLineSet, paper: PaperSize, t: real, x: real, y: real)
    requires t > 0.0
    ensures TopLine(ls, paper, t, x).start == PointDef(OffZero(x), OffZero(paper.height))
    ensures SideLine(ls, paper, t, y).start == PointDef(OffZero(paper.width), OffZero(y))
  {
  }

  /** Every line is drawn in the set's thickness and colour, with no dash pattern. */
  lemma LinesKeepTheSetStyle(ls: SlantLineSet, paper: PaperSize, t: real)
    requires Validate(ls, paper).Ok? && t > 0.0
    ensures forall line <- Lines(ls, paper, t) ::
              line.thickness == ls.thickness && line.color == ls.color && line.dashPattern.None?
  {
  }

  /**
   * The generator: check the preconditions in order, push one line per
   * start along the upper edge until a start is past the right edge, then
   * continue from where that line crosses the right edge and push one line
   * per start down it until a start is below the lower edge. On an error
   * nothing is pushed.
   */
  method CreateSlantLines(ls: SlantLineSet, paper: PaperSize, tanA: real, result: LineVec)
    returns (r: Result<(), Error>)
    requires Validate(ls, paper).Ok? ==> tanA > 0.0
    modifies result
    ensures r == Validate(ls, paper)
    ensures r.Err? ==> result.items == old(result.items)
    ensures r.Ok? ==> result.items == old(result.items) + SlantLines(ls, paper, tanA).value
  {
    if ls.slantAngle < 45.0 && ls.slantAngle > 90.0 {
      return Err(SlantAngleIsOutOfRange(ls.slantAngle, 45.0, 90.0));
    }
    if ls.xSpacing <= 0.0 {
      return Err(LineSpacingIsNotPositive(ls.xSpacing));
    }
    if paper.width <= 0.0 {
      return Err(PaperWidthIsNotPositive(paper.width));
    }
    if paper.height <= 0.0 {
      return Err(PaperHeightIsNotPositive(paper.height));
    }

    var x0 := WalkUpperEdge(ls, paper, tanA, result);
    var y0 := paper.height - (x0 - paper.width) * tanA;
    x0 := paper.width;

    var lineYSpacing := ls.xSpacing * tanA;
    assert lineYSpacing > 0.0;

    WalkRightEdge(ls, paper, tanA, result, y0, lineYSpacing);
    return Ok(());
  }

  /**
   * The generator's first loop: from x = x_spacing on the upper edge, push
   * the line from each start and step right while the start is not past
   * the right edge; the first start past it is returned.
   */
  method WalkUpperEdge(ls: SlantLineSet, paper: PaperSize, tanA: real, result: LineVec) returns (x0: real)
    requires ls.xSpacing > 0.0 && paper.width > 0.0 && paper.height > 0.0 && tanA > 0.0
    modifies result
    ensures x0 == ExitX(ls, paper)
    ensures result.items == old(result.items) + TopLines(ls, paper, tanA)
  {
    x0 := ls.xSpacing;
    var y0 := paper.height;
    ghost var top := TopLines(ls, paper, tanA);
    ghost var k: nat := 0;
    while x0 <= paper.width
      invariant k <= |top|
      invariant x0 == TopX(ls, k) && y0 == paper.height
      invariant result.items == old(result.items) + top[..k]
      decreases |top| - k
    {
      TopXPassesEdge(ls, paper, k);
      TopLineAt(ls, paper, tanA, k);
      TopLineCases(ls, paper, tanA, x0);
      var x1 := x0 - paper.height / tanA;
      var y1 := 0.0;
      if x1 < 0.0 {
        x1 := 0.0;
        y1 := paper.height - x0 * tanA;
      }
      AddLine(ls, result, x0, y0, x1, y1);
      assert top[..k + 1] == top[..k] + [top[k]];
      x0 := x0 + ls.xSpacing;
      k := k + 1;
    }
    TopXPassesEdge(ls, paper, k);
    assert top[..k] == top;
  }

  /**
   * The generator's second loop: from (width, y0) push the line from each
   * start and step down by line_y_spacing while the start is not below
   * the lower edge.
   */
  method WalkRightEdge(ls: SlantLineSet, paper: PaperSize, tanA: real, result: LineVec, y: real, lineYSpacing: real)
    requires ls.xSpacing > 0.0 && paper.width > 0.0 && tanA > 0.0
    requires y == ExitY(ls, paper, tanA) && lineYSpacing == ls.xSpacing * tanA
    modifies result
    ensures result.items == old(result.items) + SideLines(ls, paper, tanA)
  {
    var x0, y0 := paper.width, y;
    ghost var side := SideLines(ls, paper, tanA);
    ghost var j: nat := 0;
    while y0 >= 0.0
      invariant j <= |side|
      invariant y0 == SideY(ls, paper, tanA, j)
      invariant result.items == old(result.items) + side[..j]
      decreases |side| - j
    {
      SideYPassesEdge(ls, paper, tanA, j);
      SideLineAt(ls, paper, tanA, j);
      SideLineCases(ls, paper, tanA, y0);
      var x1 := x0 - y0 / tanA;
      var y1 := 0.0;
      if x1 < 0.0 {
        x1 := 0.0;
        y1 := y0 - paper.width * tanA;
      }
      AddLine(ls, result, x0, y0, x1, y1);
      assert side[..j + 1] == side[..j] + [side[j]];
      y0 := y0 - lineYSpacing;
      j := j + 1;
    }
    SideYPassesEdge(ls, paper, tanA, j);
    assert side[..j] == side;
  }

  /** The generator's `add_line_to_result` closure: push the segment from (x0, y0) to (x1, y1). */
  method AddLine(ls: SlantLineSet, result: LineVec, x0: real, y0: real, x1: real, y1: real)
    modifies result
    ensures result.items == old(result.items) + [Segment(ls, x0, y0, x1, y1)]
  {
    result.Push(LineDef(PointDef(OffZero(x0), OffZero(y0)), PointDef(OffZero(x1), OffZero(y1)),
                        ls.thickness, ls.color, None));
  }
}
