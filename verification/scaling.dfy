/** The scaling policy of galdraw.py: how the register length chooses the box
    size, and how the box size chooses the font size, plus the fixed drawing
    constants the layout uses. All lengths are in TikZ centimetres. */
module Scaling {

  /** Extra rise of a tap line above the tap-line length (the source's xorSize). */
  const XorSize: real := 1.0

  /** How far down a box's name label is pushed from its default place above
      the box (boxBelowTextDistance). */
  const BoxBelowTextDistance: real := 6.0

  /** get_box_size: the side of one register box for a register of `length`
      cells. Longer registers get smaller boxes. */
  function BoxSize(length: int): (size: real)
    ensures size == 4.0 || size == 2.5 || size == 2.0
  {
    if length <= 8 then 4.0
    else if length <= 16 then 2.5
    else 2.0
  }

  /** The three bands of the policy, each stated in both directions. */
  lemma BoxSizeBands(length: int)
    ensures BoxSize(length) == 4.0 <==> length <= 8
    ensures BoxSize(length) == 2.5 <==> 9 <= length <= 16
    ensures BoxSize(length) == 2.0 <==> 17 <= length
  {
  }

  /** A longer register never gets a bigger box. */
  lemma BoxSizeNonincreasing(shorter: int, longer: int)
    requires shorter <= longer
    ensures BoxSize(longer) <= BoxSize(shorter)
  {
  }

  /** For every length the command line admits, the row of boxes is at most
      64 cm wide: the policy keeps the diagram bounded. */
  lemma RowWidthBounded(length: nat)
    requires length <= 32
    ensures length as real * BoxSize(length) <= 64.0
  {
  }

  /** Python's int() applied to a float: truncation toward zero. */
  function Truncate(v: real): (n: int)
    ensures 0.0 <= v ==> n as real <= v < n as real + 1.0
    ensures v < 0.0 ==> n as real - 1.0 < v <= n as real
  {
    if v >= 0.0 then v.Floor else -((-v).Floor)
  }

  /** get_font_size: int(30 * boxSize / 4) points. */
  function FontSize(boxSize: real): (points: int)
  {
    Truncate(30.0 * (boxSize / 4.0))
  }

  /** The three box sizes of the policy give 30, 18 and 15 points. */
  lemma FontSizeTable()
    ensures FontSize(4.0) == 30
    ensures FontSize(2.5) == 18
    ensures FontSize(2.0) == 15
  {
  }

  /** A bigger box never gets a smaller font. */
  lemma FontSizeMonotone(small: real, big: real)
    requires 0.0 <= small <= big
    ensures FontSize(small) <= FontSize(big)
  {
  }

  /** The drawing parameters drawGaloisLFSR derives from the register length
      and the two hide flags before it draws anything. */
  datatype LayoutConfig = LayoutConfig(
    boxSize: real,
    xorDistance: real,
    leftFeedbackDistance: real,
    valueFontSize: int,
    indexFontSize: int,
    showValues: bool,
    showNames: bool)

  /** The configuration for one diagram (galdraw.py, the start of drawGaloisLFSR). */
  function ConfigFor(length: int, hideValues: bool, hideNames: bool): (cfg: LayoutConfig)
    ensures cfg.boxSize == BoxSize(length)
    ensures cfg.valueFontSize == cfg.indexFontSize
    ensures cfg.valueFontSize == 30 || cfg.valueFontSize == 18 || cfg.valueFontSize == 15
    ensures cfg.showValues != hideValues && cfg.showNames != hideNames
    ensures 0.0 < cfg.xorDistance < cfg.boxSize < cfg.leftFeedbackDistance
  {
    var size := BoxSize(length);
    var font := FontSize(size);
    LayoutConfig(size, size / 2.0, 2.0 * size, font, font, !hideValues, !hideNames)
  }

  /** The relations between the derived distances that the layout relies on. */
  ghost predicate Derived(cfg: LayoutConfig)
  {
    && (cfg.boxSize == 4.0 || cfg.boxSize == 2.5 || cfg.boxSize == 2.0)
    && cfg.xorDistance == cfg.boxSize / 2.0
    && cfg.leftFeedbackDistance == 2.0 * cfg.boxSize
    && cfg.valueFontSize == cfg.indexFontSize == FontSize(cfg.boxSize)
  }

  /** Every configuration the driver builds satisfies Derived. */
  lemma ConfigForDerived(length: int, hideValues: bool, hideNames: bool)
    ensures Derived(ConfigFor(length, hideValues, hideNames))
  {
  }
}
