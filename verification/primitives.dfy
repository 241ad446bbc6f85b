/** The typed draw primitives that stand in for the TikZ commands galdraw.py
    prints, and a filter that picks the primitives of one kind out of a stream. */
module Primitives {
  import opened Bits

  datatype Option<T> = None | Some(value: T)

  datatype Point = Point(x: real, y: real)

  /** A bit printed next to an arrow, `raise` centimetres above it. */
  datatype Label = Label(text: Bit, fontSize: int, raise: real)

  datatype Primitive =
      /** A square register node centred at `center`; the value is printed
          inside, and the name x_i is a label shifted `nameDrop` down from its
          default place above the node; each only when shown. */
    | Box(center: Point, size: real, value: Option<Bit>, valueFontSize: int,
          name: Option<nat>, nameFontSize: int, nameDrop: real)
      /** A plain line through the points, in order. */
    | Path(points: seq<Point>)
      /** A circular arc that starts at `start` and sweeps from angle
          `fromAngle` to `toAngle` (degrees) with the given radius. */
    | Arc(start: Point, fromAngle: int, toAngle: int, radius: real)
      /** A line through the points with an arrow head at the last one. */
    | Arrow(points: seq<Point>, caption: Option<Label>)

  datatype Kind = BoxKind | PathKind | ArcKind | ArrowKind

  function KindOf(p: Primitive): (k: Kind)
  {
    match p
    case Box(_, _, _, _, _, _, _) => BoxKind
    case Path(_) => PathKind
    case Arc(_, _, _, _) => ArcKind
    case Arrow(_, _) => ArrowKind
  }

  /** The primitives of kind `k` in `ps`, in stream order. */
  function OfKind(ps: seq<Primitive>, k: Kind): (r: seq<Primitive>)
    ensures |r| <= |ps|
  {
    if |ps| == 0 then []
    else (if KindOf(ps[0]) == k then [ps[0]] else []) + OfKind(ps[1..], k)
  }

  /** Filtering a concatenation filters each part. */
  lemma {:induction false} OfKindAppend(a: seq<Primitive>, b: seq<Primitive>, k: Kind)
    ensures OfKind(a + b, k) == OfKind(a, k) + OfKind(b, k)
  {
    if |a| == 0 {
      assert a + b == b;
    } else {
      assert (a + b)[0] == a[0];
      assert (a + b)[1..] == a[1..] + b;
      OfKindAppend(a[1..], b, k);
    }
  }

  /** Filtering a one-element stream. */
  lemma OfKindSingle(p: Primitive, k: Kind)
    ensures OfKind([p], k) == if KindOf(p) == k then [p] else []
  {
    assert [p][1..] == [];
  }
}
