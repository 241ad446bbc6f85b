/** The drawing helpers of galdraw.py (printGaloisRegister, printGaloisTapLine,
    printGaloisFeedbackPath, printGaloisOutput) as functions from coordinates to
    draw primitives. Only the numbers they compute are modelled; the TikZ text
    around them is not. */
module Geometry {
  import opened Bits
  import opened Scaling
  import opened Primitives

  /** Centre of the first register box (the source's module-level x and y). */
  const OriginX: real := 25.0
  const OriginY: real := 20.0

  /** The centre of an arc that starts at its leftmost point (angle 180). */
  function ArcCenter(a: Primitive): (c: Point)
    requires a.Arc? && a.fromAngle == 180
  {
    Point(a.start.x + a.radius, a.start.y)
  }

  /** The top of an upper half circle: its centre raised by the radius. */
  function Apex(a: Primitive): (apex: Point)
    requires a.Arc? && a.fromAngle == 180
  {
    Point(ArcCenter(a).x, ArcCenter(a).y + a.radius)
  }

  /** printGaloisRegister: one register box centred at (x1, y1). The value is
      shown inside only when values are drawn; the name x_index, only when
      names are drawn, is a label shifted down from its default place above
      the box. */
  function Register(cfg: LayoutConfig, x1: real, y1: real, value: Bit, index: nat): (p: Primitive)
  {
    Box(Point(x1, y1), cfg.boxSize,
        if cfg.showValues then Some(value) else None, cfg.valueFontSize,
        if cfg.showNames then Some(index) else None, cfg.indexFontSize,
        BoxBelowTextDistance)
  }

  /** printGaloisTapLine: the line, junction and arrow of one tap. */
  function TapConnector(cfg: LayoutConfig, x1: real, y1: real, length: real): (parts: seq<Primitive>)
  {
    var radius := cfg.boxSize / 6.0;
    [ Path([Point(x1, y1), Point(x1, y1 + length + XorSize)]),
      Arc(Point(x1 - radius, y1), 180, 0, radius),
      Arrow([Point(x1, y1 + radius * 3.0), Point(x1, y1 + radius)], None) ]
  }

  /** The tap connector is a vertical line rising from (x1, y1), an upper
      half circle of radius boxSize/6 centred on the line's foot, and a
      downward arrow whose tip touches the top of that half circle. */
  lemma TapConnectorShape(cfg: LayoutConfig, x1: real, y1: real, length: real)
    ensures var r := TapConnector(cfg, x1, y1, length);
      && |r| == 3
      && r[0].Path? && r[0].points == [Point(x1, y1), Point(x1, y1 + length + XorSize)]
      && r[1].Arc? && r[1].fromAngle == 180 && r[1].toAngle == 0
      && r[1].radius == cfg.boxSize / 6.0 && ArcCenter(r[1]) == Point(x1, y1)
      && r[2].Arrow? && r[2].caption == None && |r[2].points| == 2
      && r[2].points[1] == Apex(r[1])
      && r[2].points[0] == Point(x1, y1 + 3.0 * r[1].radius)
      && (cfg.boxSize > 0.0 ==> r[2].points[0].y > r[2].points[1].y)
  {
  }

  /** printGaloisFeedbackPath: an arrow from (x1, y1) left to (x2, y1), down to
      (x2, y2) and right to (x3, y2), captioned with the feedback bit when
      values are drawn. */
  function FeedbackArrow(cfg: LayoutConfig, x1: real, x2: real, x3: real, y1: real, y2: real,
                         feedback: Bit, raise: real): (path: Primitive)
  {
    Arrow([Point(x1, y1), Point(x2, y1), Point(x2, y2), Point(x3, y2)],
          if cfg.showValues then Some(Label(feedback, cfg.valueFontSize, raise)) else None)
  }

  /** printGaloisOutput: a horizontal arrow from (x1, y1) to (x2, y1), captioned
      with the output bit when values are drawn. */
  function OutputArrow(cfg: LayoutConfig, x1: real, x2: real, y1: real, value: Bit, raise: real): (arrow: Primitive)
  {
    Arrow([Point(x1, y1), Point(x2, y1)],
          if cfg.showValues then Some(Label(value, cfg.valueFontSize, raise)) else None)
  }

  /** A tap connector emits one primitive of each non-box kind, in the order
      line, arc, arrow. */
  lemma TapConnectorKinds(cfg: LayoutConfig, x1: real, y1: real, length: real)
    ensures var c := TapConnector(cfg, x1, y1, length);
      && OfKind(c, BoxKind) == []
      && OfKind(c, PathKind) == [c[0]]
      && OfKind(c, ArcKind) == [c[1]]
      && OfKind(c, ArrowKind) == [c[2]]
  {
    var c := TapConnector(cfg, x1, y1, length);
    OfKindOfThree(c, BoxKind);
    OfKindOfThree(c, PathKind);
    OfKindOfThree(c, ArcKind);
    OfKindOfThree(c, ArrowKind);
  }

  /** Filtering a three-element stream element by element. */
  lemma OfKindOfThree(c: seq<Primitive>, k: Kind)
    requires |c| == 3
    ensures OfKind(c, k) ==
      (if KindOf(c[0]) == k then [c[0]] else []) +
      (if KindOf(c[1]) == k then [c[1]] else []) +
      (if KindOf(c[2]) == k then [c[2]] else [])
  {
    assert c == [c[0]] + ([c[1]] + [c[2]]);
    OfKindAppend([c[0]], [c[1]] + [c[2]], k);
    OfKindAppend([c[1]], [c[2]], k);
    OfKindSingle(c[0], k);
    OfKindSingle(c[1], k);
    OfKindSingle(c[2], k);
  }
}
