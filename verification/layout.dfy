/** The layout driver of galdraw.py (drawGaloisLFSR): one register box per tap
    index, a tap connector under every set tap, an extra routing line and a
    second connector when the last index is tapped, then the feedback path and
    the output arrow. The result is the stream of primitives in the order the
    source prints them. */
module Layout {
  import opened Bits
  import opened Scaling
  import opened Feedback
  import opened Primitives
  import opened Geometry

  /** What drawGaloisLFSR reads: values[i] for every index of taps, and a last
      value (values[-1]) for the output arrow. */
  predicate Drawable(taps: seq<Bit>, values: seq<Bit>)
  {
    |taps| <= |values| && 1 <= |values|
  }

  /** The number of set taps among indices 0 .. n-1, counted in loop order. */
  function TapsBelow(taps: seq<Bit>, n: nat): (count: nat)
    requires n <= |taps|
  {
    if n == 0 then 0 else TapsBelow(taps, n - 1) + (if taps[n - 1] == 1 then 1 else 0)
  }

  /** The number of set taps. */
  function TapCount(taps: seq<Bit>): (count: nat)
  {
    TapsBelow(taps, |taps|)
  }

  /** Counting in loop order gives the multiplicity of 1 among the taps, and
      never more than the number of indices. */
  lemma {:induction false} TapCountMultiplicity(taps: seq<Bit>, n: nat)
    requires n <= |taps|
    ensures TapsBelow(taps, n) == multiset(taps[..n])[1]
    ensures TapsBelow(taps, n) <= n
  {
    if n > 0 {
      TapCountMultiplicity(taps, n - 1);
      assert taps[..n] == taps[..n - 1] + [taps[n - 1]];
    }
  }

  /** The last index exists and is tapped. */
  predicate LastTapped(taps: seq<Bit>)
  {
    |taps| > 0 && taps[|taps| - 1] == 1
  }

  /** The lastTapPos tracker of the loop, read after the loop: the last index
      at which a tap is set, or its initial 0. */
  function LastTapPos(taps: seq<Bit>): (pos: nat)
  {
    if |taps| == 0 then 0
    else if taps[|taps| - 1] == 1 then |taps| - 1
    else LastTapPos(taps[..|taps| - 1])
  }

  /** After the loop lastTapPos holds the highest tapped index, or 0 when
      nothing is tapped. */
  lemma {:induction false} LastTapPosIsHighest(taps: seq<Bit>)
    ensures var pos := LastTapPos(taps);
      && ((exists i :: 0 <= i < |taps| && taps[i] == 1) ==>
            && pos < |taps| && taps[pos] == 1
            && (forall j :: pos < j < |taps| ==> taps[j] == 0))
      && ((forall i :: 0 <= i < |taps| ==> taps[i] == 0) ==> pos == 0)
  {
    if |taps| > 0 && taps[|taps| - 1] == 0 {
      var front := taps[..|taps| - 1];
      LastTapPosIsHighest(front);
      if exists i :: 0 <= i < |taps| && taps[i] == 1 {
        var i :| 0 <= i < |taps| && taps[i] == 1;
        assert front[i] == 1;
      }
    }
  }

  /** The x coordinate of the centre of box i. */
  function BoxX(cfg: LayoutConfig, i: nat): (x: real)
  {
    OriginX + i as real * cfg.boxSize
  }

  /** Where tap lines start: the top edge of the box row. */
  function TapFootY(cfg: LayoutConfig): (y: real)
  {
    OriginY + cfg.boxSize / 2.0
  }

  /** The height of the feedback line (feedback_y in the source). */
  function FeedbackHeight(cfg: LayoutConfig): (y: real)
  {
    OriginY + cfg.boxSize / 2.0 + cfg.xorDistance + XorSize
  }

  /** The routing line drawn for a tapped last box i: from the point one box
      width right of its centre on the output line, up to the feedback height,
      then left to the feedback line's vertical run. */
  function RoutingLine(cfg: LayoutConfig, i: nat): (line: Primitive)
  {
    var right := OriginX + i as real * cfg.boxSize + cfg.boxSize;
    Path([Point(right, OriginY), Point(right, FeedbackHeight(cfg)),
          Point(OriginX - cfg.leftFeedbackDistance, FeedbackHeight(cfg))])
  }

  /** The primitives drawn for index i (one iteration of the loop). */
  function Row(cfg: LayoutConfig, taps: seq<Bit>, values: seq<Bit>, i: nat): (row: seq<Primitive>)
    requires i < |taps| <= |values|
  {
    var x1 := BoxX(cfg, i);
    [Register(cfg, x1, OriginY, values[i], i)] +
    if taps[i] == 1 then
      var connector := TapConnector(cfg, x1, TapFootY(cfg), cfg.xorDistance);
      connector + (if i == |taps| - 1 then [RoutingLine(cfg, i)] + connector else [])
    else []
  }

  /** The primitives drawn for indices 0 .. n-1, in loop order. */
  function Rows(cfg: LayoutConfig, taps: seq<Bit>, values: seq<Bit>, n: nat): (rows: seq<Primitive>)
    requires n <= |taps| <= |values|
  {
    if n == 0 then [] else Rows(cfg, taps, values, n - 1) + Row(cfg, taps, values, n - 1)
  }

  /** drawGaloisLFSR: the full primitive stream for one diagram. */
  function Draw(taps: seq<Bit>, values: seq<Bit>, hideValues: bool, hideNames: bool): (d: seq<Primitive>)
    requires Drawable(taps, values)
  {
    var cfg := ConfigFor(|taps|, hideValues, hideNames);
    Rows(cfg, taps, values, |taps|) + [FeedbackOf(cfg, taps, values), OutputOf(cfg, taps, values)]
  }

  /** The feedback path as drawGaloisLFSR places it. */
  function FeedbackOf(cfg: LayoutConfig, taps: seq<Bit>, values: seq<Bit>): (path: Primitive)
    requires Drawable(taps, values)
  {
    var size := cfg.boxSize;
    FeedbackArrow(cfg,
      OriginX + LastTapPos(taps) as real * size,
      OriginX - cfg.leftFeedbackDistance,
      OriginX - size / 2.0,
      FeedbackHeight(cfg),
      OriginY,
      CalculateFeedback(taps, values),
      size / 4.0)
  }

  /** The output arrow as drawGaloisLFSR places it. */
  function OutputOf(cfg: LayoutConfig, taps: seq<Bit>, values: seq<Bit>): (arrow: Primitive)
    requires Drawable(taps, values)
  {
    var size := cfg.boxSize;
    var lastX := OriginX + (|taps| - 1) as real * size;
    OutputArrow(cfg, lastX + size / 2.0, lastX + 2.0 * size, OriginY, values[|values| - 1], size / 4.0)
  }

  // ----- the parts of a row, named -----

  /** The register box of index i. */
  function BoxAt(cfg: LayoutConfig, values: seq<Bit>, i: nat): (box: Primitive)
    requires i < |values|
  {
    Register(cfg, BoxX(cfg, i), OriginY, values[i], i)
  }

  /** The vertical tap line of index i. */
  function TapLine(cfg: LayoutConfig, i: nat): (line: Primitive)
  {
    Path([Point(BoxX(cfg, i), TapFootY(cfg)), Point(BoxX(cfg, i), FeedbackHeight(cfg))])
  }

  /** The half-circle junction of index i, centred on the top edge of box i. */
  function Junction(cfg: LayoutConfig, i: nat): (arc: Primitive)
  {
    Arc(Point(BoxX(cfg, i) - cfg.boxSize / 6.0, TapFootY(cfg)), 180, 0, cfg.boxSize / 6.0)
  }

  /** The small downward arrow of index i. */
  function TipArrow(cfg: LayoutConfig, i: nat): (arrow: Primitive)
  {
    Arrow([Point(BoxX(cfg, i), TapFootY(cfg) + cfg.boxSize / 2.0),
           Point(BoxX(cfg, i), TapFootY(cfg) + cfg.boxSize / 6.0)], None)
  }

  /** The connector the loop draws for a tapped index i is its tap line, its
      junction and its arrow. */
  lemma ConnectorParts(cfg: LayoutConfig, i: nat)
    ensures TapConnector(cfg, BoxX(cfg, i), TapFootY(cfg), cfg.xorDistance)
         == [TapLine(cfg, i), Junction(cfg, i), TipArrow(cfg, i)]
  {
    var c := TapConnector(cfg, BoxX(cfg, i), TapFootY(cfg), cfg.xorDistance);
    assert c[1] == Junction(cfg, i);
    assert c[2] == TipArrow(cfg, i);
  }

  /** Filtering one row by kind, part by part. */
  lemma RowOfKind(cfg: LayoutConfig, taps: seq<Bit>, values: seq<Bit>, i: nat, k: Kind)
    requires i < |taps| <= |values|
    ensures var c := TapConnector(cfg, BoxX(cfg, i), TapFootY(cfg), cfg.xorDistance);
      OfKind(Row(cfg, taps, values, i), k) ==
        OfKind([BoxAt(cfg, values, i)], k) +
        if taps[i] == 1 then
          OfKind(c, k) + (if i == |taps| - 1 then OfKind([RoutingLine(cfg, i)], k) + OfKind(c, k) else [])
        else []
  {
    var c := TapConnector(cfg, BoxX(cfg, i), TapFootY(cfg), cfg.xorDistance);
    var tail := if i == |taps| - 1 then [RoutingLine(cfg, i)] + c else [];
    var rest := if taps[i] == 1 then c + tail else [];
    OfKindAppend([BoxAt(cfg, values, i)], rest, k);
    if taps[i] == 1 {
      OfKindAppend(c, tail, k);
      if i == |taps| - 1 {
        OfKindAppend([RoutingLine(cfg, i)], c, k);
      }
    }
  }

  /** How many primitives of each kind one row holds. */
  lemma RowCensus(cfg: LayoutConfig, taps: seq<Bit>, values: seq<Bit>, i: nat)
    requires i < |taps| <= |values|
    ensures var row := Row(cfg, taps, values, i);
      var t := if taps[i] == 1 then 1 else 0;
      var e := if taps[i] == 1 && i == |taps| - 1 then 1 else 0;
      && OfKind(row, BoxKind) == [BoxAt(cfg, values, i)]
      && |OfKind(row, ArcKind)| == t + e
      && |OfKind(row, PathKind)| == t + 2 * e
      && |OfKind(row, ArrowKind)| == t + e
      && |row| == 1 + 3 * t + 4 * e
  {
    var row := Row(cfg, taps, values, i);
    var c := TapConnector(cfg, BoxX(cfg, i), TapFootY(cfg), cfg.xorDistance);
    var box, route := BoxAt(cfg, values, i), RoutingLine(cfg, i);
    TapConnectorKinds(cfg, BoxX(cfg, i), TapFootY(cfg), cfg.xorDistance);
    assert OfKind(row, BoxKind) == [box] by {
      RowOfKind(cfg, taps, values, i, BoxKind);
      OfKindSingle(box, BoxKind);
      OfKindSingle(route, BoxKind);
    }
    assert |OfKind(row, ArcKind)| == |OfKind(c, ArcKind)| * (if taps[i] == 1 && i == |taps| - 1 then 2 else if taps[i] == 1 then 1 else 0) by {
      RowOfKind(cfg, taps, values, i, ArcKind);
      OfKindSingle(box, ArcKind);
      OfKindSingle(route, ArcKind);
    }
    assert |OfKind(row, PathKind)| == (if taps[i] == 1 && i == |taps| - 1 then 3 else if taps[i] == 1 then 1 else 0) by {
      RowOfKind(cfg, taps, values, i, PathKind);
      OfKindSingle(box, PathKind);
      OfKindSingle(route, PathKind);
    }
    assert |OfKind(row, ArrowKind)| == |OfKind(c, ArrowKind)| * (if taps[i] == 1 && i == |taps| - 1 then 2 else if taps[i] == 1 then 1 else 0) by {
      RowOfKind(cfg, taps, values, i, ArrowKind);
      OfKindSingle(box, ArrowKind);
      OfKindSingle(route, ArrowKind);
    }
  }

  /** The boxes of the first n rows are the boxes of indices 0 .. n-1, in
      index order. */
  lemma {:induction false} RowsBoxes(cfg: LayoutConfig, taps: seq<Bit>, values: seq<Bit>, n: nat)
    requires n <= |taps| <= |values|
    ensures OfKind(Rows(cfg, taps, values, n), BoxKind) == seq(n, i requires 0 <= i < n => BoxAt(cfg, values, i))
  {
    if n > 0 {
      RowsBoxes(cfg, taps, values, n - 1);
      RowCensus(cfg, taps, values, n - 1);
      OfKindAppend(Rows(cfg, taps, values, n - 1), Row(cfg, taps, values, n - 1), BoxKind);
      assert seq(n, i requires 0 <= i < n => BoxAt(cfg, values, i)) ==
        seq(n - 1, i requires 0 <= i < n - 1 => BoxAt(cfg, values, i)) + [BoxAt(cfg, values, n - 1)];
    }
  }

  /** How many primitives of each non-box kind the first n rows hold: one
      connector per set tap, plus the routing line and the second connector
      once the tapped last row is reached. */
  lemma {:induction false} RowsCensus(cfg: LayoutConfig, taps: seq<Bit>, values: seq<Bit>, n: nat)
    requires n <= |taps| <= |values|
    ensures var rs := Rows(cfg, taps, values, n);
      var e := if n == |taps| && LastTapped(taps) then 1 else 0;
      && |OfKind(rs, ArcKind)| == TapsBelow(taps, n) + e
      && |OfKind(rs, PathKind)| == TapsBelow(taps, n) + 2 * e
      && |OfKind(rs, ArrowKind)| == TapsBelow(taps, n) + e
      && |rs| == n + 3 * TapsBelow(taps, n) + 4 * e
  {
    if n > 0 {
      var before := Rows(cfg, taps, values, n - 1);
      var row := Row(cfg, taps, values, n - 1);
      RowsCensus(cfg, taps, values, n - 1);
      RowCensus(cfg, taps, values, n - 1);
      CountsAdd(before, row);
    }
  }

  /** The number of non-box primitives of each kind in a concatenation is the
      sum over its parts. */
  lemma CountsAdd(a: seq<Primitive>, b: seq<Primitive>)
    ensures |OfKind(a + b, ArcKind)| == |OfKind(a, ArcKind)| + |OfKind(b, ArcKind)|
    ensures |OfKind(a + b, PathKind)| == |OfKind(a, PathKind)| + |OfKind(b, PathKind)|
    ensures |OfKind(a + b, ArrowKind)| == |OfKind(a, ArrowKind)| + |OfKind(b, ArrowKind)|
  {
    OfKindAppend(a, b, ArcKind);
    OfKindAppend(a, b, PathKind);
    OfKindAppend(a, b, ArrowKind);
  }

  /** One row in print order: the register box first, so that the connector
      is drawn over it; then, for a set tap, its tap line, junction and tip
      arrow; then, for a tapped last index, the routing line and the same
      three parts again. */
  lemma RowOrder(cfg: LayoutConfig, taps: seq<Bit>, values: seq<Bit>, i: nat)
    requires i < |taps| <= |values|
    ensures var connector := [TapLine(cfg, i), Junction(cfg, i), TipArrow(cfg, i)];
      Row(cfg, taps, values, i) ==
        [BoxAt(cfg, values, i)] +
        if taps[i] == 1 then
          connector + (if i == |taps| - 1 then [RoutingLine(cfg, i)] + connector else [])
        else []
    ensures Row(cfg, taps, values, i)[0] == BoxAt(cfg, values, i)
  {
    ConnectorParts(cfg, i);
  }

  /** What one row may contain, in both directions. */
  lemma RowMembers(cfg: LayoutConfig, taps: seq<Bit>, values: seq<Bit>, i: nat)
    requires i < |taps| <= |values|
    ensures forall p :: p in Row(cfg, taps, values, i) <==>
      || p == BoxAt(cfg, values, i)
      || (taps[i] == 1 && (p == TapLine(cfg, i) || p == Junction(cfg, i) || p == TipArrow(cfg, i)))
      || (taps[i] == 1 && i == |taps| - 1 && p == RoutingLine(cfg, i))
  {
    RowOrder(cfg, taps, values, i);
  }

  /** The arcs of the first n rows are the junctions of their set taps. */
  lemma {:induction false} RowsJunctions(cfg: LayoutConfig, taps: seq<Bit>, values: seq<Bit>, n: nat)
    requires n <= |taps| <= |values|
    ensures forall a :: a in Rows(cfg, taps, values, n) && a.Arc? <==>
      exists i :: 0 <= i < n && taps[i] == 1 && a == Junction(cfg, i)
  {
    if n > 0 {
      RowsJunctions(cfg, taps, values, n - 1);
      RowMembers(cfg, taps, values, n - 1);
    }
  }

  /** The arrows of the first n rows are the tip arrows of their set taps. */
  lemma {:induction false} RowsTipArrows(cfg: LayoutConfig, taps: seq<Bit>, values: seq<Bit>, n: nat)
    requires n <= |taps| <= |values|
    ensures forall a :: a in Rows(cfg, taps, values, n) && a.Arrow? <==>
      exists i :: 0 <= i < n && taps[i] == 1 && a == TipArrow(cfg, i)
  {
    if n > 0 {
      RowsTipArrows(cfg, taps, values, n - 1);
      RowMembers(cfg, taps, values, n - 1);
    }
  }

  /** The two-point lines of the first n rows are the tap lines of their set
      taps. */
  lemma {:induction false} RowsTapLines(cfg: LayoutConfig, taps: seq<Bit>, values: seq<Bit>, n: nat)
    requires n <= |taps| <= |values|
    ensures forall p :: p in Rows(cfg, taps, values, n) && p.Path? && |p.points| == 2 <==>
      exists i :: 0 <= i < n && taps[i] == 1 && p == TapLine(cfg, i)
  {
    if n > 0 {
      RowsTapLines(cfg, taps, values, n - 1);
      RowMembers(cfg, taps, values, n - 1);
    }
  }

  /** The first n rows hold a three-point line only once the tapped last row
      is reached, and then it is the routing line. */
  lemma {:induction false} RowsRoutingLine(cfg: LayoutConfig, taps: seq<Bit>, values: seq<Bit>, n: nat)
    requires n <= |taps| <= |values|
    ensures forall p :: p in Rows(cfg, taps, values, n) && p.Path? && |p.points| == 3 <==>
      n == |taps| && LastTapped(taps) && p == RoutingLine(cfg, n - 1)
  {
    if n > 0 {
      RowsRoutingLine(cfg, taps, values, n - 1);
      RowMembers(cfg, taps, values, n - 1);
    }
  }

  // ----- the whole diagram -----

  /** Appending two arrows to a stream adds them to its arrows and to nothing else. */
  lemma OfKindWithTwoArrows(rs: seq<Primitive>, a: Primitive, b: Primitive)
    requires a.Arrow? && b.Arrow?
    ensures OfKind(rs + [a, b], BoxKind) == OfKind(rs, BoxKind)
    ensures OfKind(rs + [a, b], ArcKind) == OfKind(rs, ArcKind)
    ensures OfKind(rs + [a, b], PathKind) == OfKind(rs, PathKind)
    ensures OfKind(rs + [a, b], ArrowKind) == OfKind(rs, ArrowKind) + [a, b]
  {
    assert [a, b] == [a] + [b];
    OfKindOfTwoArrows(a, b, BoxKind);
    OfKindOfTwoArrows(a, b, ArcKind);
    OfKindOfTwoArrows(a, b, PathKind);
    OfKindOfTwoArrows(a, b, ArrowKind);
    OfKindAppend(rs, [a, b], BoxKind);
    OfKindAppend(rs, [a, b], ArcKind);
    OfKindAppend(rs, [a, b], PathKind);
    OfKindAppend(rs, [a, b], ArrowKind);
  }

  /** Filtering a stream of two arrows. */
  lemma OfKindOfTwoArrows(a: Primitive, b: Primitive, k: Kind)
    requires a.Arrow? && b.Arrow?
    ensures OfKind([a, b], k) == if k == ArrowKind then [a, b] else []
  {
    assert [a, b] == [a] + [b];
    OfKindAppend([a], [b], k);
    OfKindSingle(a, k);
    OfKindSingle(b, k);
  }

  /** The diagram is the rows, in loop order, under its configuration, then
      the feedback path and the output arrow, both of them arrows. */
  lemma DrawIsRowsThenArrows(taps: seq<Bit>, values: seq<Bit>, hideValues: bool, hideNames: bool)
    requires Drawable(taps, values)
    ensures var cfg := ConfigFor(|taps|, hideValues, hideNames);
      && FeedbackOf(cfg, taps, values).Arrow? && OutputOf(cfg, taps, values).Arrow?
      && Draw(taps, values, hideValues, hideNames) ==
           Rows(cfg, taps, values, |taps|) + [FeedbackOf(cfg, taps, values), OutputOf(cfg, taps, values)]
  {
  }

  /** Appending two arrows to a stream adds no primitive other than an arrow. */
  lemma NonArrowsUnderTwoArrows(rs: seq<Primitive>, a: Primitive, b: Primitive)
    requires a.Arrow? && b.Arrow?
    ensures forall p :: p in rs + [a, b] && !p.Arrow? <==> p in rs && !p.Arrow?
  {
  }

  /** Exactly one box per tap index, in ascending index order: box i is the
      register box of index i under the diagram's configuration (BoxesPlaced
      gives its coordinates and labels). */
  lemma DrawBoxes(taps: seq<Bit>, values: seq<Bit>, hideValues: bool, hideNames: bool)
    requires Drawable(taps, values)
    ensures var cfg := ConfigFor(|taps|, hideValues, hideNames);
      var boxes := OfKind(Draw(taps, values, hideValues, hideNames), BoxKind);
      && |boxes| == |taps|
      && forall i :: 0 <= i < |boxes| ==> boxes[i] == BoxAt(cfg, values, i)
  {
    DrawIsRowsThenArrows(taps, values, hideValues, hideNames);
    StreamBoxes(ConfigFor(|taps|, hideValues, hideNames), taps, values);
  }

  /** The boxes of a stream built from the rows under any configuration: box
      i of the stream is the register box of index i. */
  lemma StreamBoxes(cfg: LayoutConfig, taps: seq<Bit>, values: seq<Bit>)
    requires Drawable(taps, values)
    ensures var boxes := OfKind(Rows(cfg, taps, values, |taps|) + [FeedbackOf(cfg, taps, values), OutputOf(cfg, taps, values)], BoxKind);
      && |boxes| == |taps|
      && forall i :: 0 <= i < |boxes| ==> boxes[i] == BoxAt(cfg, values, i)
  {
    var rs := Rows(cfg, taps, values, |taps|);
    OfKindWithTwoArrows(rs, FeedbackOf(cfg, taps, values), OutputOf(cfg, taps, values));
    RowsBoxes(cfg, taps, values, |taps|);
  }

  /** The register box of each index under the configuration for a register
      of `length` cells: centred length-many box widths apart on the origin's
      row, labelled in the font the box size selects. */
  lemma BoxesPlaced(length: nat, values: seq<Bit>, hideValues: bool, hideNames: bool)
    ensures var size := BoxSize(length);
      var font := FontSize(size);
      forall i :: 0 <= i < |values| ==>
        BoxAt(ConfigFor(length, hideValues, hideNames), values, i) ==
          Box(Point(OriginX + i as real * size, OriginY), size,
              if hideValues then None else Some(values[i]), font,
              if hideNames then None else Some(i), font,
              BoxBelowTextDistance)
  {
  }

  /** Neighbouring boxes touch and no two boxes overlap: all sit on one row,
      and box i ends at or before the point where box j begins. */
  lemma BoxesDoNotOverlap(taps: seq<Bit>, values: seq<Bit>, hideValues: bool, hideNames: bool, i: nat, j: nat)
    requires Drawable(taps, values)
    requires i < j < |taps|
    ensures var boxes := OfKind(Draw(taps, values, hideValues, hideNames), BoxKind);
      && j < |boxes| && boxes[i].Box? && boxes[j].Box?
      && boxes[i].center.y == boxes[j].center.y
      && boxes[i].center.x + boxes[i].size / 2.0 <= boxes[j].center.x - boxes[j].size / 2.0
      && (j == i + 1 ==> boxes[i].center.x + boxes[i].size / 2.0 == boxes[j].center.x - boxes[j].size / 2.0)
  {
    var cfg := ConfigFor(|taps|, hideValues, hideNames);
    DrawBoxes(taps, values, hideValues, hideNames);
    BoxesApart(cfg, values, i, j);
  }

  /** Under any configuration with a positive box size, register boxes i < j
      lie on one row and box i ends at or before the point where box j
      begins, touching it when j = i + 1. */
  lemma BoxesApart(cfg: LayoutConfig, values: seq<Bit>, i: nat, j: nat)
    requires i < j < |values| && 0.0 < cfg.boxSize
    ensures var a, b := BoxAt(cfg, values, i), BoxAt(cfg, values, j);
      && a.center.y == b.center.y
      && a.center.x + a.size / 2.0 <= b.center.x - b.size / 2.0
      && (j == i + 1 ==> a.center.x + a.size / 2.0 == b.center.x - b.size / 2.0)
  {
    var size, gap := cfg.boxSize, (j - i - 1) as real;
    assert j as real * size == i as real * size + size + gap * size;
    assert gap * size >= 0.0;
  }

  /** One tap connector per set tap, plus a second one and the routing line
      when the last index is tapped. Each connector is one line, one arc and
      one arrow; the feedback path and the output add two more arrows. */
  lemma DrawCensus(taps: seq<Bit>, values: seq<Bit>, hideValues: bool, hideNames: bool)
    requires Drawable(taps, values)
    ensures var d := Draw(taps, values, hideValues, hideNames);
      var e := if LastTapped(taps) then 1 else 0;
      && |OfKind(d, ArcKind)| == TapCount(taps) + e
      && |OfKind(d, PathKind)| == TapCount(taps) + 2 * e
      && |OfKind(d, ArrowKind)| == TapCount(taps) + e + 2
      && |d| == |taps| + 3 * TapCount(taps) + 4 * e + 2
  {
    var cfg := ConfigFor(|taps|, hideValues, hideNames);
    DrawIsRowsThenArrows(taps, values, hideValues, hideNames);
    OfKindWithTwoArrows(Rows(cfg, taps, values, |taps|), FeedbackOf(cfg, taps, values), OutputOf(cfg, taps, values));
    RowsCensus(cfg, taps, values, |taps|);
  }

  /** Every arc of the diagram is the junction of a set tap (a half circle of
      radius boxSize/6 centred on the top edge of that tap's box), and every
      set tap has one. */
  lemma DrawJunctions(taps: seq<Bit>, values: seq<Bit>, hideValues: bool, hideNames: bool)
    requires Drawable(taps, values)
    ensures var cfg := ConfigFor(|taps|, hideValues, hideNames);
      var d := Draw(taps, values, hideValues, hideNames);
      forall a :: a in d && a.Arc? <==> exists i :: 0 <= i < |taps| && taps[i] == 1 && a == Junction(cfg, i)
  {
    var cfg := ConfigFor(|taps|, hideValues, hideNames);
    DrawIsRowsThenArrows(taps, values, hideValues, hideNames);
    NonArrowsUnderTwoArrows(Rows(cfg, taps, values, |taps|), FeedbackOf(cfg, taps, values), OutputOf(cfg, taps, values));
    RowsJunctions(cfg, taps, values, |taps|);
  }

  /** Every arrow before the last two primitives is the tip arrow of a set tap
      (pointing down at the top of its junction), and every set tap has one;
      the last two primitives, the feedback path and the output, are the only
      other arrows. */
  lemma DrawTipArrows(taps: seq<Bit>, values: seq<Bit>, hideValues: bool, hideNames: bool)
    requires Drawable(taps, values)
    ensures var cfg := ConfigFor(|taps|, hideValues, hideNames);
      var d := Draw(taps, values, hideValues, hideNames);
      && |d| >= 2 && d[|d| - 2].Arrow? && d[|d| - 1].Arrow?
      && forall a :: a in d[..|d| - 2] && a.Arrow? <==>
           exists i :: 0 <= i < |taps| && taps[i] == 1 && a == TipArrow(cfg, i)
  {
    var cfg := ConfigFor(|taps|, hideValues, hideNames);
    var d := Draw(taps, values, hideValues, hideNames);
    DrawIsRowsThenArrows(taps, values, hideValues, hideNames);
    assert d[..|d| - 2] == Rows(cfg, taps, values, |taps|);
    RowsTipArrows(cfg, taps, values, |taps|);
  }

  /** Every two-point line of the diagram is the tap line of a set tap (from
      the top edge of its box up to the feedback height), and every set tap
      has one. */
  lemma DrawTapLines(taps: seq<Bit>, values: seq<Bit>, hideValues: bool, hideNames: bool)
    requires Drawable(taps, values)
    ensures var cfg := ConfigFor(|taps|, hideValues, hideNames);
      var d := Draw(taps, values, hideValues, hideNames);
      forall p :: p in d && p.Path? && |p.points| == 2 <==>
        exists i :: 0 <= i < |taps| && taps[i] == 1 && p == TapLine(cfg, i)
  {
    var cfg := ConfigFor(|taps|, hideValues, hideNames);
    DrawIsRowsThenArrows(taps, values, hideValues, hideNames);
    NonArrowsUnderTwoArrows(Rows(cfg, taps, values, |taps|), FeedbackOf(cfg, taps, values), OutputOf(cfg, taps, values));
    RowsTapLines(cfg, taps, values, |taps|);
  }

  /** The diagram holds a three-point line exactly when the last index is
      tapped, and it is the routing line of the last box. */
  lemma DrawRoutingLine(taps: seq<Bit>, values: seq<Bit>, hideValues: bool, hideNames: bool)
    requires Drawable(taps, values)
    ensures var cfg := ConfigFor(|taps|, hideValues, hideNames);
      var d := Draw(taps, values, hideValues, hideNames);
      forall p :: p in d && p.Path? && |p.points| == 3 <==>
        LastTapped(taps) && p == RoutingLine(cfg, |taps| - 1)
  {
    var cfg := ConfigFor(|taps|, hideValues, hideNames);
    DrawIsRowsThenArrows(taps, values, hideValues, hideNames);
    NonArrowsUnderTwoArrows(Rows(cfg, taps, values, |taps|), FeedbackOf(cfg, taps, values), OutputOf(cfg, taps, values));
    RowsRoutingLine(cfg, taps, values, |taps|);
  }

  /** The feedback path: from the top of the highest tap line (x + lastTapPos*
      boxSize, or x when nothing is tapped) along the feedback height to
      x - 2*boxSize, down to the box row and right to the left edge of box 0,
      captioned with the feedback bit unless values are hidden. */
  lemma DrawFeedbackPath(taps: seq<Bit>, values: seq<Bit>, hideValues: bool, hideNames: bool)
    requires Drawable(taps, values)
    ensures var d := Draw(taps, values, hideValues, hideNames);
      var size := BoxSize(|taps|);
      var top := OriginY + size + XorSize;
      && |d| >= 2
      && d[|d| - 2] == Arrow(
           [ Point(OriginX + LastTapPos(taps) as real * size, top),
             Point(OriginX - 2.0 * size, top),
             Point(OriginX - 2.0 * size, OriginY),
             Point(OriginX - size / 2.0, OriginY) ],
           if hideValues then None
           else Some(Label(CalculateFeedback(taps, values), FontSize(size), size / 4.0)))
  {
    var cfg := ConfigFor(|taps|, hideValues, hideNames);
    var d := Draw(taps, values, hideValues, hideNames);
    assert |d| >= 2 && d[|d| - 2] == FeedbackOf(cfg, taps, values) by {
      DrawIsRowsThenArrows(taps, values, hideValues, hideNames);
    }
    FeedbackPlaced(taps, values, hideValues, hideNames);
  }

  /** The feedback path under the configuration drawGaloisLFSR builds, in
      terms of the register length alone. */
  lemma FeedbackPlaced(taps: seq<Bit>, values: seq<Bit>, hideValues: bool, hideNames: bool)
    requires Drawable(taps, values)
    ensures var size := BoxSize(|taps|);
      var top := OriginY + size + XorSize;
      FeedbackOf(ConfigFor(|taps|, hideValues, hideNames), taps, values) == Arrow(
        [ Point(OriginX + LastTapPos(taps) as real * size, top),
          Point(OriginX - 2.0 * size, top),
          Point(OriginX - 2.0 * size, OriginY),
          Point(OriginX - size / 2.0, OriginY) ],
        if hideValues then None
        else Some(Label(CalculateFeedback(taps, values), FontSize(size), size / 4.0)))
  {
    ConfigForDerived(|taps|, hideValues, hideNames);
  }

  /** The output arrow: horizontal at the box row's height, from the right edge
      of the last box to two box widths right of that box's centre, captioned
      with the last value unless values are hidden. */
  lemma DrawOutputArrow(taps: seq<Bit>, values: seq<Bit>, hideValues: bool, hideNames: bool)
    requires Drawable(taps, values)
    ensures var d := Draw(taps, values, hideValues, hideNames);
      var size := BoxSize(|taps|);
      var lastX := OriginX + (|taps| - 1) as real * size;
      && |d| >= 2
      && d[|d| - 1] == Arrow(
           [ Point(lastX + size / 2.0, OriginY), Point(lastX + 2.0 * size, OriginY) ],
           if hideValues then None
           else Some(Label(values[|values| - 1], FontSize(size), size / 4.0)))
  {
    var cfg := ConfigFor(|taps|, hideValues, hideNames);
    var d := Draw(taps, values, hideValues, hideNames);
    assert |d| >= 2 && d[|d| - 1] == OutputOf(cfg, taps, values) by {
      DrawIsRowsThenArrows(taps, values, hideValues, hideNames);
    }
    OutputPlaced(taps, values, hideValues, hideNames);
  }

  /** The output arrow under the configuration drawGaloisLFSR builds, in
      terms of the register length alone. */
  lemma OutputPlaced(taps: seq<Bit>, values: seq<Bit>, hideValues: bool, hideNames: bool)
    requires Drawable(taps, values)
    ensures var size := BoxSize(|taps|);
      var lastX := OriginX + (|taps| - 1) as real * size;
      OutputOf(ConfigFor(|taps|, hideValues, hideNames), taps, values) == Arrow(
        [ Point(lastX + size / 2.0, OriginY), Point(lastX + 2.0 * size, OriginY) ],
        if hideValues then None
        else Some(Label(values[|values| - 1], FontSize(size), size / 4.0)))
  {
    var cfg := ConfigFor(|taps|, hideValues, hideNames);
    assert cfg.boxSize == BoxSize(|taps|) && cfg.valueFontSize == FontSize(cfg.boxSize);
    assert cfg.showValues == !hideValues;
  }

  /** How the feedback path meets the rest of the diagram: it starts where the
      tap line of lastTapPos ends, its corner is where a routing line ends,
      its runs are axis-parallel, its top run lies above the box row, its drop
      lies left of box 0, and it ends on the left edge of box 0. */
  lemma FeedbackPathJoins(cfg: LayoutConfig, taps: seq<Bit>, values: seq<Bit>)
    requires Drawable(taps, values) && Derived(cfg)
    requires 1 <= |taps|
    ensures var path := FeedbackOf(cfg, taps, values).points;
      && |path| == 4
      && path[0] == TapLine(cfg, LastTapPos(taps)).points[1]
      && path[1] == RoutingLine(cfg, |taps| - 1).points[2]
      && path[0].y == path[1].y && path[1].x == path[2].x && path[2].y == path[3].y
      && path[0].y > TapFootY(cfg)
      && path[1].x < BoxX(cfg, 0) - cfg.boxSize / 2.0
      && path[3] == Point(BoxX(cfg, 0) - cfg.boxSize / 2.0, OriginY)
  {
  }

  /** When some index is tapped, the diagram draws the tap line of the highest
      one, and the feedback path starts exactly at its top. */
  lemma FeedbackStartsAtHighestTap(taps: seq<Bit>, values: seq<Bit>, hideValues: bool, hideNames: bool)
    requires Drawable(taps, values)
    requires exists i :: 0 <= i < |taps| && taps[i] == 1
    ensures var cfg := ConfigFor(|taps|, hideValues, hideNames);
      var d := Draw(taps, values, hideValues, hideNames);
      && |d| >= 2
      && TapLine(cfg, LastTapPos(taps)) in d
      && TapLine(cfg, LastTapPos(taps)).points[1] == d[|d| - 2].points[0]
  {
    var cfg := ConfigFor(|taps|, hideValues, hideNames);
    ConfigForDerived(|taps|, hideValues, hideNames);
    LastTapPosIsHighest(taps);
    DrawIsRowsThenArrows(taps, values, hideValues, hideNames);
    DrawTapLines(taps, values, hideValues, hideNames);
    FeedbackPathJoins(cfg, taps, values);
  }

  /** How the output arrow meets the rest of the diagram: it starts on the
      right edge of the last box, runs horizontally to the right, and the
      routing line of the last box rises from a point strictly inside it. */
  lemma OutputArrowJoins(cfg: LayoutConfig, taps: seq<Bit>, values: seq<Bit>)
    requires Drawable(taps, values) && Derived(cfg)
    requires 1 <= |taps|
    ensures var out := OutputOf(cfg, taps, values).points;
      var foot := RoutingLine(cfg, |taps| - 1).points[0];
      && |out| == 2
      && out[0] == Point(BoxX(cfg, |taps| - 1) + cfg.boxSize / 2.0, OriginY)
      && out[0].y == out[1].y && out[0].x < out[1].x
      && foot.y == out[0].y && out[0].x < foot.x < out[1].x
      && foot.x == BoxX(cfg, |taps| - 1) + cfg.boxSize
      && RoutingLine(cfg, |taps| - 1).points[1] == Point(foot.x, FeedbackHeight(cfg))
  {
  }

  /** The routing line of a tapped last index under the configuration
      drawGaloisLFSR builds: from (x + L*boxSize, y), one box width right of
      the last box's centre, straight up to the feedback height, then left to
      x - 2*boxSize, where L is the register length. */
  lemma RoutingLinePlaced(taps: seq<Bit>, hideValues: bool, hideNames: bool)
    requires LastTapped(taps)
    ensures var size := BoxSize(|taps|);
      var right := OriginX + |taps| as real * size;
      var top := OriginY + size + XorSize;
      RoutingLine(ConfigFor(|taps|, hideValues, hideNames), |taps| - 1).points ==
        [Point(right, OriginY), Point(right, top), Point(OriginX - 2.0 * size, top)]
  {
    var cfg, size := ConfigFor(|taps|, hideValues, hideNames), BoxSize(|taps|);
    assert cfg.boxSize == size && cfg.leftFeedbackDistance == 2.0 * size by {
      ConfigForDerived(|taps|, hideValues, hideNames);
    }
    assert FeedbackHeight(cfg) == OriginY + size + XorSize;
    assert (|taps| - 1) as real * size + size == |taps| as real * size;
  }
}
