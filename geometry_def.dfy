/**
 * The geometry model (src/geometry_def/mod.rs): paper size, points, line
 * segments, the five kinds of line set, and the resolution of a point's
 * coordinates against the paper.
 *
 * Lengths are millimetres and thicknesses points; every f64 is a real.
 * Colour channels and dash values are carried through unvalidated.
 */
module GeometryDef {
  import opened Results
  import opened GeometryCoord

  datatype PointDef = PointDef(x: Coord, y: Coord)

  datatype DashPatternDef = DashPatternDef(dash: int, gap: Option<int>)

  datatype CmykDef = CmykDef(c: real, m: real, y: real, k: real)

  datatype LineDef = LineDef(
    start: PointDef,
    end: PointDef,
    thickness: real,
    color: CmykDef,
    dashPattern: Option<DashPatternDef>)

  datatype PaperSize = PaperSize(width: real, height: real)

  datatype SlantLineSet = SlantLineSet(xSpacing: real, slantAngle: real, thickness: real, color: CmykDef)

  datatype SeyesLineSet = SeyesLineSet(
    ySpacing: real,
    topMargin: real,
    bottomMargin: real,
    baseThickness: real,
    baseColor: CmykDef,
    auxThickness: real,
    auxColor: CmykDef)

  datatype HorizontalLineSet = HorizontalLineSet(
    ySpacing: real,
    topMargin: real,
    bottomMargin: real,
    thickness: real,
    color: CmykDef,
    dashPattern: Option<DashPatternDef>)

  datatype VerticalLineSet = VerticalLineSet(
    xSpacing: real,
    leftMargin: real,
    rightMargin: real,
    thickness: real,
    color: CmykDef,
    dashPattern: Option<DashPatternDef>)

  /** The closed union of line-set kinds; a SingleLine is used as it is. */
  datatype LineSet =
    | Slant(slant: SlantLineSet)
    | Seyes(seyes: SeyesLineSet)
    | HorizontalLines(horizontal: HorizontalLineSet)
    | VerticalLines(vertical: VerticalLineSet)
    | SingleLine(line: LineDef)

  datatype GeometryDef = GeometryDef(paperSize: PaperSize, lineSets: seq<LineSet>)

  /** The point's x in millimetres from the left edge; never clamped to the page. */
  function XCoord(p: PointDef, paper: PaperSize): (x: real)
    ensures p.x.OffZero? ==> x == p.x.v
    ensures p.x.OffFarEdge? ==> x + p.x.v == paper.width
  {
    match p.x
    case OffZero(v) => v
    case OffFarEdge(v) => paper.width - v
  }

  /** The point's y in millimetres from the bottom edge; never clamped to the page. */
  function YCoord(p: PointDef, paper: PaperSize): (y: real)
    ensures p.y.OffZero? ==> y == p.y.v
    ensures p.y.OffFarEdge? ==> y + p.y.v == paper.height
  {
    match p.y
    case OffZero(v) => v
    case OffFarEdge(v) => paper.height - v
  }

  /** An origin-relative coordinate resolves to its value whatever the paper. */
  lemma OffZeroIgnoresPaper(p: PointDef, a: PaperSize, b: PaperSize)
    requires p.x.OffZero? && p.y.OffZero?
    ensures XCoord(p, a) == XCoord(p, b) == p.x.v
    ensures YCoord(p, a) == YCoord(p, b) == p.y.v
  {
  }

  /** x depends on the x field and the width only; y on the y field and the height only. */
  lemma CoordsAreSeparable(p: PointDef, q: PointDef, a: PaperSize, b: PaperSize)
    ensures p.x == q.x && a.width == b.width ==> XCoord(p, a) == XCoord(q, b)
    ensures p.y == q.y && a.height == b.height ==> YCoord(p, a) == YCoord(q, b)
  {
  }

  /** A far-edge offset larger than the paper resolves outside it. */
  lemma FarEdgeIsNotClamped(p: PointDef, paper: PaperSize)
    ensures p.x.OffFarEdge? && p.x.v > paper.width ==> XCoord(p, paper) < 0.0
    ensures p.y.OffFarEdge? && p.y.v > paper.height ==> YCoord(p, paper) < 0.0
  {
  }

  const LetterPortrait: PaperSize := PaperSize(215.9, 279.4)

  /**
   * The single vertical line of the sample definitions: from x 30 at the far
   * (top) edge down to x 30 at the origin.
   */
  lemma SampleSingleLineResolves()
    ensures var start := PointDef(OffZero(30.0), OffFarEdge(0.0));
            XCoord(start, LetterPortrait) == 30.0 && YCoord(start, LetterPortrait) == 279.4
    ensures var end := PointDef(OffZero(30.0), OffZero(0.0));
            XCoord(end, LetterPortrait) == 30.0 && YCoord(end, LetterPortrait) == 0.0
  {
  }

  /** Both ends of a segment resolve inside the paper. */
  ghost predicate OnPage(line: LineDef, paper: PaperSize) {
    && 0.0 <= XCoord(line.start, paper) <= paper.width
    && 0.0 <= YCoord(line.start, paper) <= paper.height
    && 0.0 <= XCoord(line.end, paper) <= paper.width
    && 0.0 <= YCoord(line.end, paper) <= paper.height
  }

  /**
   * The growing output vector (`Vec<LineDef>`) that every generator appends
   * to. Only pushes change it.
   */
  class LineVec {
    var items: seq<LineDef>

    constructor ()
      ensures items == []
    {
      items := [];
    }

    method Push(line: LineDef)
      modifies this
      ensures items == old(items) + [line]
    {
      items := items + [line];
    }
  }
}
