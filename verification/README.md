# GalDraw layout core in Dafny

GalDraw (`galdraw.py`) draws a Galois linear feedback shift register (LFSR)
as a TikZ picture. The register has one box per cell; each tapped cell has a
tap connector rising to the feedback line; the feedback path carries the XOR
of the tapped cells back to the left; the output arrow leaves the last cell.
This project models the part of the program that decides what is drawn and
where:

- **Bits** (`bits.dfy`): register cells and tap flags as the bits 0 and 1,
  Python's `^` on them (`Bits.Xor`), and `parse_binary_list`
  (`Bits.ParseBinaryList`), which turns a command-line string into a bit
  list.
- **Scaling** (`scaling.dfy`): `get_box_size` (`Scaling.BoxSize`) and
  `get_font_size` (`Scaling.FontSize`, with Python's `int()` as
  `Scaling.Truncate`), plus the drawing parameters `drawGaloisLFSR` derives
  from the register length and the two hide flags (`Scaling.ConfigFor`). In
  the source these are mutable module globals. Here they form one
  `LayoutConfig` value.
- **Feedback** (`feedback.dfy`): `calculateGaloisFeedback`
  (`Feedback.CalculateFeedback`).
- **Primitives** (`primitives.dfy`): typed draw primitives that take the
  place of the printed TikZ commands:
  - a box node;
  - a plain line;
  - an arc;
  - an arrow with an optional caption.

  It also holds a filter that picks the primitives of one kind out of a
  stream.
- **Geometry** (`geometry.dfy`): `printGaloisRegister`, `printGaloisTapLine`,
  `printGaloisFeedbackPath` and `printGaloisOutput`, as functions from
  coordinates to primitives: `Geometry.Register`, `Geometry.TapConnector`,
  `Geometry.FeedbackArrow` and `Geometry.OutputArrow`.
- **Layout** (`layout.dfy`): `drawGaloisLFSR` (`Layout.Draw`), as a function
  from the tap and value lists to the primitive stream, in print order. Each
  loop iteration is one `Layout.Row`, and `Layout.Rows` are the iterations
  so far. A row holds:
  - the register box;
  - for a set tap, its connector;
  - for a tapped last index, the routing line and a second connector.

  After the rows come the feedback path and the output arrow.
- **Validation** (`validation.dfy`): the length checks of `main`, as written
  (`Validation.CheckAsWritten`) and corrected (`Validation.CheckInputs`), and
  the pipeline from the two argument strings to the primitive stream
  (`Validation.Run`), which uses the corrected checks.

Coordinates are `real`. Every value the layout computes is a rational built
from the box sizes 4, 2.5 and 2, so the model has no rounding. Python's
`int()` on the font scale is modelled as truncation toward zero.

Indices follow the code. List index i is the i-th character of the argument
from the left, and nothing reverses the list. The `--taps` help text
(galdraw.py:408) says instead that the rightmost character is x_0.

The source comments on the routing line differ from its code. The comments
(galdraw.py:276, 284) place the line at the right edge of the last box. The
code starts it one box width right of the last box's centre. That is half a
box width past the right edge, on the output arrow.
`Layout.RoutingLinePlaced` gives the line's three points, and
`Layout.OutputArrowJoins` states where its foot lies on the output arrow.

## Model

| member | source | states |
|---|---|---|
| `Bits.Xor` | galdraw.py:242 | `^` on two bits is their sum modulo 2 |
| `Bits.ParseBinaryList` | galdraw.py:316-321 | the parsed list is never longer than the argument string |
| `Bits.ParseCounts` | galdraw.py:319 | the parsed list has one entry per '0' or '1' character; its 0s are exactly the '0's and its 1s exactly the '1's |
| `Bits.ParseSpellRoundTrip` | galdraw.py:319 | parsing the 0/1 spelling of any bit list gives that list back |
| `Bits.ParseConcat` | galdraw.py:319 | parsing keeps the digits in their original order: the parse of a concatenation is the concatenation of the parses |
| `Bits.ParseIgnoresOtherCharacters` | galdraw.py:319 | a string with no '0' or '1' parses to the empty list |
| `Scaling.BoxSize` | galdraw.py:18-24 | the box size is always one of 4, 2.5 and 2 cm |
| `Scaling.BoxSizeBands` | galdraw.py:18-24 | in both directions: 4 exactly for length ≤ 8, 2.5 exactly for 9..16, 2 exactly from 17 up |
| `Scaling.BoxSizeNonincreasing` | galdraw.py:18-24 | a longer register never gets a bigger box |
| `Scaling.RowWidthBounded` | galdraw.py:18-24 | for every length up to 32 the row of boxes is at most 64 cm wide |
| `Scaling.Truncate` | galdraw.py:40 | `int()` of a float truncates toward zero: the result lies within 1 of the argument, on the side of 0 |
| `Scaling.FontSizeTable` | galdraw.py:38-40 | the three box sizes give 30, 18 and 15 points |
| `Scaling.FontSizeMonotone` | galdraw.py:38-40 | a bigger box never gets a smaller font |
| `Scaling.ConfigFor` | galdraw.py:252-260 | the box size follows the length, the value and index fonts are equal and one of 30/18/15, each show flag is the negation of its hide flag, and 0 < xorDistance < boxSize < leftFeedbackDistance |
| `Scaling.ConfigForDerived` | galdraw.py:252-257 | xorDistance is half a box, leftFeedbackDistance is two boxes, and both fonts are get_font_size of the box size |
| `Feedback.CalculateFeedback` | galdraw.py:238-243 | the feedback is the parity of the number of indices that are both tapped and hold a 1 |
| `Feedback.FeedbackWithoutTaps` | galdraw.py:238-243 | with no tap set the feedback is 0, whatever the values |
| `Feedback.FeedbackExample` | galdraw.py:238-243 | taps 1001 with values 1111 give feedback 0 |
| `Feedback.FeedbackFlip` | galdraw.py:238-243 | flipping one value flips the feedback exactly when that index is tapped, and otherwise leaves it unchanged |
| `Feedback.FeedbackOrderIrrelevant` | galdraw.py:240-242 | visiting the indices in any order gives the same feedback: permuting taps and values together leaves it unchanged |
| `Geometry.TapConnectorShape` | galdraw.py:160-186 | a connector is three parts: a vertical line from y1 up to y1 + length + xorSize; an upper half circle of radius boxSize/6 centred on the line's foot; and a caption-less arrow from y1 + 3r down to the top of that half circle |
| `Geometry.TapConnectorKinds` | galdraw.py:160-186 | a connector holds one line, one arc and one arrow, in that order, and no box |
| `Layout.TapCountMultiplicity` | galdraw.py:264 | counting set taps in loop order gives `taps.count(1)` over the same prefix |
| `Layout.LastTapPosIsHighest` | galdraw.py:262-292 | after the loop, lastTapPos is the highest tapped index, or 0 when no tap is set |
| `Layout.ConnectorParts` | galdraw.py:269-271 | the connector of index i is its tap line from the top edge of box i to the feedback height, its junction and its arrow |
| `Layout.RowCensus` | galdraw.py:266-292 | one iteration emits its box plus 3 primitives per set tap, and 4 more for a tapped last index |
| `Layout.RowsBoxes` | galdraw.py:266-267 | the boxes of the first n iterations are the boxes of indices 0..n-1, in index order |
| `Layout.RowsCensus` | galdraw.py:266-292 | over the first n iterations: arcs and arrows number the set taps, plus one for a tapped last index once reached; lines number the set taps, plus two in that case |
| `Layout.RowOrder` | galdraw.py:266-290 | one iteration in print order: the register box first, then for a set tap its tap line, junction and tip arrow, then for a tapped last index the routing line and the same three parts again |
| `Layout.RowMembers` | galdraw.py:266-292 | in both directions, one iteration holds exactly its box, the three connector parts when tapped, and the routing line when it is the tapped last index |
| `Layout.RowsJunctions` | galdraw.py:266-292 | the arcs of the first n iterations are exactly the junctions of their set taps |
| `Layout.RowsTipArrows` | galdraw.py:266-292 | the arrows of the first n iterations are exactly the tip arrows of their set taps |
| `Layout.RowsTapLines` | galdraw.py:266-292 | the two-point lines of the first n iterations are exactly the tap lines of their set taps |
| `Layout.RowsRoutingLine` | galdraw.py:273-289 | a three-point line appears only once the tapped last index is reached, and it is that index's routing line |
| `Layout.DrawIsRowsThenArrows` | galdraw.py:266-311 | the diagram is the loop's iterations in order, followed by the feedback path and the output arrow, both arrows |
| `Layout.DrawBoxes` | galdraw.py:266-267 | the diagram has exactly one box per index, in ascending index order, and box i is the register box of index i |
| `Layout.BoxesPlaced` | galdraw.py:95-156 | box i is centred at (25 + i·boxSize, 20) and is boxSize wide. It shows values[i] unless values are hidden and x_i unless names are hidden. Both labels use get_font_size of the box size, and the name label is shifted 6 cm down from its default place above the box |
| `Layout.BoxesDoNotOverlap` | galdraw.py:267 | all boxes lie on one row; box i ends at or before box j begins for i < j, and neighbours touch |
| `Layout.BoxesApart` | galdraw.py:267 | under any positive box size, boxes i < j are ordered left to right without overlap, touching when adjacent |
| `Layout.DrawCensus` | galdraw.py:266-311 | the diagram holds one connector per set tap, one more plus the routing line when the last index is tapped, and two further arrows; the total length follows |
| `Layout.DrawJunctions` | galdraw.py:269-290 | in both directions, every arc is the junction of a set tap and every set tap has one |
| `Layout.DrawTipArrows` | galdraw.py:269-290 | in both directions, every arrow before the last two primitives is the downward tip arrow of a set tap and every set tap has one; the last two primitives are the only other arrows |
| `Layout.DrawTapLines` | galdraw.py:269-290 | in both directions, every two-point line is the tap line of a set tap and every set tap has one |
| `Layout.DrawRoutingLine` | galdraw.py:273-289 | the diagram holds a three-point line exactly when the last index is tapped, and it is the routing line of the last box |
| `Layout.RoutingLinePlaced` | galdraw.py:273-289 | for a tapped last index, the routing line under the driver's configuration runs from (25 + L·b, 20) straight up to (25 + L·b, 20 + b + 1) and then left to (25 − 2b, 20 + b + 1), where L is the register length and b the box size |
| `Layout.DrawFeedbackPath` | galdraw.py:294-303 | the second-to-last primitive runs from (25 + lastTapPos·b, 20 + b + 1) left to 25 − 2b, down to 20, and right to 25 − b/2. It is captioned with the feedback bit at b/4 unless values are hidden |
| `Layout.FeedbackPlaced` | galdraw.py:294-303 | under the configuration the driver builds for the register, the feedback path has those coordinates and that caption, in terms of the register length alone |
| `Layout.DrawOutputArrow` | galdraw.py:305-311 | the last primitive runs horizontally at height 20 from the last box's right edge to two boxes right of its centre. It is captioned with the last value unless values are hidden |
| `Layout.OutputPlaced` | galdraw.py:305-311 | under the configuration the driver builds for the register, the output arrow has those coordinates and that caption, in terms of the register length alone |
| `Layout.FeedbackPathJoins` | galdraw.py:271-303 | the feedback path starts at the top of lastTapPos's tap line and turns where a routing line ends. Its runs are axis-parallel, its top lies above the boxes and its drop left of box 0, and it ends on box 0's left edge |
| `Layout.FeedbackStartsAtHighestTap` | galdraw.py:292-303 | when some index is tapped, the diagram draws the highest one's tap line, and the feedback path starts at its top |
| `Layout.OutputArrowJoins` | galdraw.py:276-311 | the output arrow starts on the last box's right edge and runs right; the routing line's foot lies strictly inside it, one box width right of the last box's centre, and the line rises vertically from there to the feedback height |
| `Validation.CheckAsWritten` | galdraw.py:445-455 | the checks as written reject exactly the unequal lengths and the lengths over 32; unequal lengths are reported as a mismatch, and equal lengths over 32 as too long |
| `Validation.AsWrittenAdmitsEmptyRegister` | galdraw.py:445-455 | arguments without 0 or 1 pass the checks as written, yet give nothing that can be drawn |
| `Validation.CheckInputs` | galdraw.py:445-455 | the corrected checks accept exactly equal lengths from 1 to 32, and everything they accept can be drawn. They agree with the checks as written wherever those reject, and differ only on the empty register, which they report as empty |
| `Validation.Run` | galdraw.py:439-464 | with the corrected checks of the Findings row in place of main's: the pipeline draws exactly when the parsed lengths are equal and between 1 and 32, and then yields the driver's diagram; otherwise it reports the failed corrected check |
| `Validation.DefaultArguments` | galdraw.py:405-417 | the defaults 1001 and 1111 parse to the bit lists they spell and are drawn |
| `Validation.DefaultDiagram` | galdraw.py:247-311 | the default diagram: 4 boxes, 3 arcs, 4 lines, 16 primitives, feedback caption 0 and output caption 1 at 30 pt raised 1 cm |
| `Validation.DefaultJunctions` | galdraw.py:266-290 | the arcs of the default diagram are exactly the junctions of indices 0 and 3 |
| `Validation.UntappedDiagram` | galdraw.py:262-303 | with no tap set, four cells give no arc and no line, and the feedback path starts above box 0 with caption 0 |

## Left out

- TikZ and LaTeX text: the format strings, the preamble and prologue, the colour, line-width and arrow-head constants (galdraw.py:6-14, 27-28, 62-91), and the `%node` comment line. Primitives carry only the numbers those strings contain.
- `compile_and_convert` (galdraw.py:324-385): it runs external programs and deletes files.
- The argparse setup, the `--format` option, the stdout redirection and the file write in `main` (galdraw.py:388-470). Only the parse of the two bit arguments, the hide flags and the length checks are modelled.
- The mutable module globals (galdraw.py:44-58, 248-260). `LayoutConfig` replaces them and is passed explicitly.
- The unused `count` variable (galdraw.py:264, 291) and the unused `arrow` parameter of `printGaloisTapLine` (galdraw.py:160).
- The `except ValueError` branch of `parse_binary_list` (galdraw.py:320-321). It cannot be reached, because only the characters '0' and '1' are converted.
- Python float rounding. Coordinates such as boxSize/6 are exact reals in the model. In the source they are floats, whose printed digits may differ in the last place.
- `Bits.Xor`: modelled for the bits 0 and 1 only, because the parser yields no other values.
- `Validation.Run`: uses the corrected checks, so for arguments that parse to the empty register it reports an error, where `main` as written passes its checks and then fails reading `values[-1]` (see Findings); `Validation.AsWrittenAdmitsEmptyRegister` states the as-written behaviour.
- `Layout.DrawBoxes`: states each box as the register box of its index under the diagram's configuration; the explicit centre, size, labels and fonts of that box are stated by `Layout.BoxesPlaced`, not repeated at the diagram level.

## Findings

| source | as written | input that shows it | evidently intended | confidence | as-written member | corrected member |
|---|---|---|---|---|---|---|
| galdraw.py:445-455 | the checks reject unequal lengths and lengths over 32 but not length 0, and `drawGaloisLFSR` then reads `values[-1]` of an empty list (galdraw.py:309) | `--taps x --init-values y` (both parse to the empty list) | reject the empty register with an error message, like the other two checks | not executed | `Validation.AsWrittenAdmitsEmptyRegister` | `Validation.CheckInputs` |
