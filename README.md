# lined_paper_pdf: line-set expansion

lined_paper_pdf makes a PDF of ruled paper from a YAML geometry definition.
The definition names a paper size and a list of line sets. Each set is one
of five kinds: a single line, horizontal rules, vertical rules, Seyes
(French) ruling, or slanted handwriting guides. Before anything is drawn,
the program expands every set, in order, into one list of line segments in
millimetres. This project models that expansion and proves its properties:

- `results.dfy`: `Result` and `Option`.
- `stepping.dfy`: `Count(span, step)`. It is the number of steps that a
  loop of the form "start at 0, add `step` while at most `span`" takes.
  `CountExact` proves that this is exactly the number of k with k·step ≤ span.
- `coord.dfy`: a coordinate is either a floating-point number (measured
  from the origin) or a map `{off far edge: v}` (measured from the far edge
  of the page), where `v` may be a float or an integer. The model decodes
  this from a small model of a YAML value.
- `geometry_def.dfy` covers the records of the definition. It also has:
  - resolution of points against the paper size (`XCoord`, `YCoord`);
  - the growing output list, `LineVec`.
- `horizontal_lines_gen.dfy`, `vertical_lines_gen.dfy`,
  `seyes_lines_gen.dfy`, `slant_lines_gen.dfy`: the four generators. Each
  has three parts:
  - a precondition chain (`Validate`), where the first failing check is the
    error;
  - a specification of the lines appended (`HorizontalLines`, `SeyesLines`,
    ...);
  - the generator itself as an imperative method over a `LineVec`. Its loop
    is proved to append exactly those lines, and to leave the list alone on
    an error.
- `dispatch.dfy`: the loop of the program's entry point. It walks the sets,
  pushes single lines, calls the generators, and stops at the first error.
  `ExpandAll` is its specification. Most lemmas about it come from a
  generic `Collect` over outcomes: "first error, or all values
  concatenated".

Lengths and coordinates are `real`. The slant generator takes the tangent
of its angle as a parameter, `tanA`. The dispatch takes a function `tanOf`
from degrees to that tangent.

Two behaviours of the code differ from what its documentation and error
messages suggest. The model follows the code in both:

- The slant-angle range check in `src/slant_lines_gen.rs:8` joins its two
  comparisons with `&&`. No angle is both below 45 and above 90, so the
  check never rejects anything (`SlantLinesGen.SlantAngleIsNeverRejected`).
- The Seyes generator checks only its two opening lines against the bottom
  margin. The blocks of four are let through by the lookahead
  `y + 4·y_spacing >= bottom_margin`, and the four lines of a block are not
  checked. Lines can therefore fall as low as `bottom_margin - 8·y_spacing`
  (`SeyesLinesGen.LinesStayAboveEightSpacingsBelowMargin`). On the sample
  letter-paper set, the last line is at 7.4 mm, below the 20 mm margin
  (`SeyesLinesGen.SampleSeyesOnLetter`).

The slant generator builds its points from plain numbers. The Seyes
generator's points are built the same way, and its lines have no dash
pattern. The vertical generator's points are plain numbers too. The model
reads a plain number `v` in a point as `OffZero(v)`. Where the source gives
a struct literal no dash pattern, the model uses `None`.

## Model

| member | source | states |
|---|---|---|
| GeometryCoord.Decode | src/geometry_def/coord.rs:26-43 | A float decodes to an origin-based coordinate, and an origin-based result can only come from a float. A far-edge result can only come from a map. A bare integer, for which the visitor has no method, and anything else are invalid-type errors. |
| GeometryCoord.VisitEntries | src/geometry_def/coord.rs:11-15 | Reading the map's entries: once the far-edge key has been seen, the key cannot be reported missing, and a success returns the value that was seen. |
| GeometryCoord.DecodeFarEdge | src/geometry_def/coord.rs:11-15 | A map with exactly one `off far edge` entry, holding a float or an integer, decodes to a far-edge coordinate with that value. The record's `f64` field takes an integer too; `FieldValue` is that reader and accepts exactly a float or an integer. Other keys are ignored. |
| GeometryCoord.IntegerOffsets | src/geometry_def/coord.rs:26-35 | `{off far edge: 0}` decodes to a far-edge coordinate 0, even after an unrelated key. A bare integer 4 is rejected as an invalid type. |
| GeometryCoord.DecodeMissingKey | src/geometry_def/coord.rs:11-15 | A map with no `off far edge` entry is a missing-field error. |
| GeometryCoord.DecodeFarEdgeComesFromEntry | src/geometry_def/coord.rs:31-35 | Conversely, a decoded far-edge value is the number, float or integer, stored under the `off far edge` key. |
| GeometryCoord.DecodeDuplicateKey | src/geometry_def/coord.rs:11-15 | A second `off far edge` entry is a duplicate-field error. |
| GeometryDef.XCoord | src/geometry_def/mod.rs:134-139 | x is the value itself for an origin-based coordinate; for a far-edge one, x plus the offset equals the paper width. |
| GeometryDef.YCoord | src/geometry_def/mod.rs:141-146 | y is the value itself for an origin-based coordinate; for a far-edge one, y plus the offset equals the paper height. |
| GeometryDef.OffZeroIgnoresPaper | src/geometry_def/mod.rs:133-147 | An origin-based point resolves to the same place on every paper size. |
| GeometryDef.CoordsAreSeparable | src/geometry_def/mod.rs:133-147 | x depends only on the x coordinate and the width; y depends only on the y coordinate and the height. |
| GeometryDef.FarEdgeIsNotClamped | src/geometry_def/mod.rs:133-147 | A far-edge offset larger than the page resolves to a negative position; nothing clamps it. |
| GeometryDef.SampleSingleLineResolves | src/geometry_def/mod.rs:196-200 | The sample single line resolves to (30, 279.4)–(30, 0) on letter paper. |
| GeometryDef.LineVec.constructor | src/main.rs:18 | The line list starts empty. |
| GeometryDef.LineVec.Push | src/main.rs:22-23 | A push appends exactly one line at the end. |
| Stepping.CountExact | src/horizontal_lines_gen.rs:31-40 | The number of steps of a loop that adds a spacing while it is within a span equals the number of k with k·spacing ≤ span, in both directions. |
| HorizontalLinesGen.Validate | src/horizontal_lines_gen.rs:9-27 | Each error is returned exactly when its check is the first to fail, in source order. Success happens exactly when width, height, spacing and both margins are all positive. |
| HorizontalLinesGen.RulesStayInMargins | src/horizontal_lines_gen.rs:29-40 | Every rule lies between the bottom margin and height − top_margin, and one more step would fall below the margin. No rule is drawn exactly when height − top_margin is below the bottom margin. |
| HorizontalLinesGen.RulesDescendBySpacing | src/horizontal_lines_gen.rs:29-40 | The first rule is at height − top_margin, and each later rule is exactly one spacing lower than the one before. |
| HorizontalLinesGen.RulesSpanThePage | src/horizontal_lines_gen.rs:32-38 | Every rule runs from x = 0 to x = width at a single height, in the set's thickness, colour and dash pattern. |
| HorizontalLinesGen.CreateHorizontalLines | src/horizontal_lines_gen.rs:5-43 | Returns the precondition chain's verdict. On an error the list is unchanged; otherwise exactly the specified rules are appended after the existing lines. |
| VerticalLinesGen.Validate | src/vertical_lines_gen.rs:7-25 | Each error is returned exactly when its check is the first to fail, in source order. Success happens exactly when width, height, spacing and both margins are all positive. |
| VerticalLinesGen.RulesStayInMargins | src/vertical_lines_gen.rs:27-38 | Every rule lies between the left margin and width − right_margin, and one more step would pass that bound. No rule is drawn exactly when the left margin is already past it. |
| VerticalLinesGen.RulesAscendBySpacing | src/vertical_lines_gen.rs:27-38 | The first rule is at the left margin, and each later rule is exactly one spacing to the right of the one before. |
| VerticalLinesGen.RulesSpanThePage | src/vertical_lines_gen.rs:30-36 | Every rule runs from y = 0 to y = height at a single x, in the set's thickness, colour and dash pattern. |
| VerticalLinesGen.CreateVerticalLines | src/vertical_lines_gen.rs:4-41 | Returns the precondition chain's verdict. On an error the list is unchanged; otherwise exactly the specified rules are appended after the existing lines. |
| SeyesLinesGen.Validate | src/seyes_lines_gen.rs:7-25 | Each error is returned exactly when its check is the first to fail, in source order. Success happens exactly when width, height, spacing and both margins are all positive. |
| SeyesLinesGen.OpeningGuards | src/seyes_lines_gen.rs:36-43 | The aux line at height − top_margin, and the aux line one spacing lower, are each drawn exactly when they are at or above the bottom margin. The second is only drawn together with the first. |
| SeyesLinesGen.BlocksFollowTheMotif | src/seyes_lines_gen.rs:45-54 | The output is the opening lines followed by whole blocks of four, styled aux, base, aux, aux. |
| SeyesLinesGen.BlocksDescendBySpacing | src/seyes_lines_gen.rs:40-54 | The first block line is two spacings below height − top_margin, whether or not the opening lines were drawn. Each later line is exactly one spacing lower. |
| SeyesLinesGen.BlocksObeyTheLookahead | src/seyes_lines_gen.rs:45 | Block j is drawn exactly when its starting y passes the lookahead y + 4·spacing ≥ bottom_margin. |
| SeyesLinesGen.LinesStayAboveEightSpacingsBelowMargin | src/seyes_lines_gen.rs:36-54 | Every line lies between height − top_margin and bottom_margin − 8·spacing. |
| SeyesLinesGen.LinesSpanThePage | src/seyes_lines_gen.rs:27-34 | Every line runs from x = 0 to x = width at a single height, with no dash pattern. |
| SeyesLinesGen.SampleSeyesOnLetter | src/seyes_lines_gen.rs:36-54 | The sample set (2 mm spacing, margins 30 and 20) on letter paper: aux lines at 249.4 and 247.4, then blocks from 245.4 down. There are 122 lines in all, and the last is at 7.4. |
| SeyesLinesGen.BlockStep | src/seyes_lines_gen.rs:46-53 | Block j is four lines, one to four spacings below the y at which it starts, styled aux, base, aux, aux. |
| SeyesLinesGen.CreateSeyesLines | src/seyes_lines_gen.rs:4-57 | Returns the precondition chain's verdict. On an error the list is unchanged; otherwise exactly the opening lines and blocks are appended after the existing lines. |
| SeyesLinesGen.AddLine | src/seyes_lines_gen.rs:27-34 | Appends one full-width line at height y with the given thickness and colour. |
| SlantLinesGen.Validate | src/slant_lines_gen.rs:8-22 | Each error is returned exactly when its check is the first to fail: the angle guard, then spacing, width and height. Success happens exactly when spacing, width and height are all positive. |
| SlantLinesGen.SlantAngleIsNeverRejected | src/slant_lines_gen.rs:8-10 | The angle guard as written holds for no angle, so no set is ever rejected as out of range. |
| SlantLinesGen.TopXPassesEdge | src/slant_lines_gen.rs:42-47 | The k-th start (k+1)·x_spacing along the upper edge passes the first loop's test, that is, is not past the right edge, exactly when k < TopCount. |
| SlantLinesGen.SideYPassesEdge | src/slant_lines_gen.rs:64-67 | The j-th start down the right edge passes the second loop's test, that is, is not below the lower edge, exactly when j < SideCount. |
| SlantLinesGen.LineYSpacing | src/slant_lines_gen.rs:60-61 | The spacing of the starts down the right edge is positive whenever the line spacing and the tangent are, so the `assert!` there cannot fail for a positive tangent. |
| SlantLinesGen.ExitYIsOnTheRightEdge | src/slant_lines_gen.rs:43-46 | The first start past the right edge lies beyond the width, and where its line crosses the right edge is below the upper edge. |
| SlantLinesGen.LinesStayOnPage | src/slant_lines_gen.rs:144-157 | Both ends of every line lie within the page, as the generator's tests require. |
| SlantLinesGen.LinesAreEvenlySpacedParallels | src/slant_lines_gen.rs:42-79 | Every line falls by t for each unit it runs left. Extended upwards, line i meets the upper edge at (i+1)·x_spacing, so the second phase keeps the spacing of the first. |
| SlantLinesGen.FirstLineMeetsTheLeftEdge | src/slant_lines_gen.rs:115-116 | When the spacing fits across the page, there is at least one line. The first line ends on the left edge exactly when x_spacing·t is at most the height. |
| SlantLinesGen.LastLineMeetsTheLowerEdge | src/slant_lines_gen.rs:115-117 | When the spacing fits across the page, there is a line, and the last line ends on the lower edge, whether the second phase draws lines or not. |
| SlantLinesGen.LinesEndOnTheLowerOrLeftEdge | src/slant_lines_gen.rs:49-75 | Every line is cut where it meets the page: it ends on the lower edge (y = 0) or on the left edge (x = 0). |
| SlantLinesGen.LinesStartOnTheUpperOrRightEdge | src/slant_lines_gen.rs:41-79 | The first TopCount lines start on the upper edge, the i-th at x = (i+1)·x_spacing. The rest start on the right edge: the first where the line through the first start past the edge, x0, crosses it (y = height − (x0 − width)·t), and each later one x_spacing·t lower. |
| SlantLinesGen.LinesKeepTheSetStyle | src/slant_lines_gen.rs:31-39 | Every line has the set's thickness and colour and no dash pattern. |
| SlantLinesGen.CreateSlantLines | src/slant_lines_gen.rs:4-82 | Returns the precondition chain's verdict. On an error the list is unchanged; otherwise exactly the lines of both phases are appended after the existing lines. |
| SlantLinesGen.WalkUpperEdge | src/slant_lines_gen.rs:41-58 | Appends the lines of the upper-edge phase and returns the first start past the right edge. |
| SlantLinesGen.WalkRightEdge | src/slant_lines_gen.rs:60-79 | Starting where the last line crosses the right edge and stepping down by x_spacing·t, appends the lines of the right-edge phase. |
| SlantLinesGen.AddLine | src/slant_lines_gen.rs:31-39 | Appends one segment from (x0, y0) to (x1, y1) in the set's thickness and colour, with no dash pattern. |
| Dispatch.Expand | src/main.rs:21-31 | A single line contributes exactly itself. Each other kind fails exactly when its generator's precondition chain fails. |
| Dispatch.InvalidSlantSetNeedsNoTangent | src/slant_lines_gen.rs:12-14 | A slant set whose spacing is not positive reports its spacing error whatever the tangent, and puts no demand on it. |
| Dispatch.CollectAppend | src/main.rs:20-33 | Running the `?`-loop over two runs of outcomes in a row gives the first error met, or the two runs' lines concatenated. |
| Dispatch.ExpandAllSucceedsIffEverySetDoes | src/main.rs:20-33 | The whole expansion succeeds exactly when every set's expansion does. |
| Dispatch.FirstErrorWins | src/main.rs:24-31 | A failed expansion reports, wrapped, the error of the first failing set, and every set before it expands. |
| Dispatch.ExpandAllAppend | src/main.rs:20-33 | Expanding two lists of sets one after the other is the same as expanding their concatenation. |
| Dispatch.SingleLinesPassThrough | src/main.rs:22-23 | A definition made only of single lines expands, in order, to exactly those lines. |
| Dispatch.ExpandLineSets | src/main.rs:18-33 | The entry point's loop starts from a fresh list. It fails exactly when the expansion does, with the same error. On success the list holds exactly the expanded lines. |

## Left out

- Reading the command line, opening the YAML file, and writing the PDF are left out as I/O. `cmd_line.rs` and `pdf_gen.rs` are not part of this model, and neither are the matching error variants of the program's error type.
- YAML parsing is modelled only for the coordinate visitor, over a small model of values (a float, an integer, a map, anything else). The derived decoding of the other records is taken as given. An integer too large to be an exact `f64` is read exactly (see the rounding line below).
- IEEE-754 `f64` arithmetic and its rounding are left out: lengths are exact reals. So the repeated `+=`/`-=` steps equal their closed forms here, which may not hold bit for bit in the code.
- `to_radians` and `tan` are left out: there is no trigonometry, and the tangent is a parameter.
- SlantLinesGen.CreateSlantLines: requires a positive tangent only for a set that passes its checks. A set that fails them returns its error for any tangent. A valid set whose tangent is not positive makes the `assert!` at `src/slant_lines_gen.rs:60-61` panic, and that panic is not modelled.
- Dispatch.ExpandLineSets: requires `tanOf` to give a positive tangent to every valid slant set in the definition. This includes a valid slant set placed after an earlier failing set, which the source never reaches. Invalid slant sets need nothing of `tanOf`.
- SlantLinesGen.LinesStayOnPage: the generator's tests check each line on the page they use. The lemma proves this for every valid set and every positive tangent, but only in exact arithmetic.
- The landscape-mode slant test at `src/slant_lines_gen.rs:123-142` checks individual middle lines. Those checks are not stated; only the on-page check and the end-point checks of the first and last lines are.
- The two loops of the slant generator are split into two methods, `WalkUpperEdge` and `WalkRightEdge`. They still append to the shared list in place and in source order.
