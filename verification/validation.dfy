/** The input checks of galdraw.py's main, between argument parsing and
    drawing, and the pipeline from the two command-line strings to the
    primitive stream. */
module Validation {
  import opened Bits
  import opened Scaling
  import opened Feedback
  import opened Primitives
  import opened Layout

  /** The longest register main accepts. */
  const MaxLength: nat := 32

  datatype InputError =
    | LengthMismatch   // taps and initial values differ in length
    | TooLong          // more than MaxLength cells
    | EmptyRegister    // no cells at all

  datatype Result<T> = Ok(value: T) | Err(error: InputError)

  /** The checks main performs, as written: a length mismatch first, then a
      length over 32. Nothing rejects an empty register. */
  function CheckAsWritten(taps: seq<Bit>, values: seq<Bit>): (r: Option<InputError>)
    ensures r == None <==> |taps| == |values| <= MaxLength
    ensures |taps| != |values| ==> r == Some(LengthMismatch)
    ensures |taps| == |values| > MaxLength ==> r == Some(TooLong)
  {
    if |taps| != |values| then Some(LengthMismatch)
    else if |taps| > MaxLength then Some(TooLong)
    else None
  }

  /** Arguments with no '0' or '1' in them pass the checks as written, yet no
      diagram can be drawn for them: drawGaloisLFSR would read values[-1] of
      an empty list. */
  lemma AsWrittenAdmitsEmptyRegister()
    ensures CheckAsWritten(ParseBinaryList("x"), ParseBinaryList("y")) == None
    ensures !Drawable(ParseBinaryList("x"), ParseBinaryList("y"))
  {
    ParseIgnoresOtherCharacters("x");
    ParseIgnoresOtherCharacters("y");
  }

  /** The checks with the empty register rejected as well. They reject
      exactly what the checks as written reject, plus the empty register, and
      everything they let through can be drawn. */
  function CheckInputs(taps: seq<Bit>, values: seq<Bit>): (r: Option<InputError>)
    ensures r == None <==> |taps| == |values| && 1 <= |taps| <= MaxLength
    ensures r == None ==> Drawable(taps, values)
    ensures CheckAsWritten(taps, values) != None ==> r == CheckAsWritten(taps, values)
    ensures CheckAsWritten(taps, values) == None && r != None <==> |taps| == |values| == 0
    ensures |taps| == |values| == 0 ==> r == Some(EmptyRegister)
  {
    match CheckAsWritten(taps, values)
    case Some(e) => Some(e)
    case None => if |taps| == 0 then Some(EmptyRegister) else None
  }

  /** main, without the file and the compiler: parse both arguments, check
      them, and draw. The checks are the corrected CheckInputs, not the checks
      as written: for arguments that parse to the empty register this reports
      EmptyRegister, where main as written passes its checks and then fails
      inside drawGaloisLFSR. */
  function Run(tapsArg: string, valuesArg: string, hideValues: bool, hideNames: bool): (r: Result<seq<Primitive>>)
    ensures var taps, values := ParseBinaryList(tapsArg), ParseBinaryList(valuesArg);
      && (r.Ok? <==> |taps| == |values| && 1 <= |taps| <= MaxLength)
      && (r.Ok? ==> Drawable(taps, values) && r.value == Draw(taps, values, hideValues, hideNames))
      && (r.Err? ==> Some(r.error) == CheckInputs(taps, values))
  {
    var taps, values := ParseBinaryList(tapsArg), ParseBinaryList(valuesArg);
    match CheckInputs(taps, values)
    case Some(e) => Err(e)
    case None => Ok(Draw(taps, values, hideValues, hideNames))
  }

  /** The default arguments parse to taps 1001 and values 1111, which pass
      the checks. */
  lemma DefaultArguments()
    ensures ParseBinaryList("1001") == [1, 0, 0, 1]
    ensures ParseBinaryList("1111") == [1, 1, 1, 1]
    ensures Run("1001", "1111", false, false) == Ok(Draw([1, 0, 0, 1], [1, 1, 1, 1], false, false))
  {
    ParseSpellRoundTrip([1, 0, 0, 1]);
    assert Spell([1, 0, 0, 1]) == "1001";
    ParseSpellRoundTrip([1, 1, 1, 1]);
    assert Spell([1, 1, 1, 1]) == "1111";
  }

  /** The default diagram: four boxes, tap connectors at indices 0 and 3 with
      index 3's drawn twice (three arcs; DefaultJunctions says which), one
      routing line, feedback 1 XOR 1 = 0 and output value 1, both in 30-point
      type raised by 1 cm. */
  lemma DefaultDiagram(d: seq<Primitive>)
    requires Run("1001", "1111", false, false) == Ok(d)
    ensures |OfKind(d, BoxKind)| == 4
    ensures |OfKind(d, ArcKind)| == 3
    ensures |OfKind(d, PathKind)| == 4
    ensures |d| == 4 + 3 * 2 + 4 + 2
    ensures d[|d| - 2].caption == Some(Label(0, 30, 1.0))
    ensures d[|d| - 1].caption == Some(Label(1, 30, 1.0))
  {
    var taps, values := [1, 0, 0, 1], [1, 1, 1, 1];
    assert d == Draw(taps, values, false, false) by {
      DefaultArguments();
    }
    assert |OfKind(d, BoxKind)| == 4 by {
      DrawBoxes(taps, values, false, false);
    }
    assert |OfKind(d, ArcKind)| == 3 && |OfKind(d, PathKind)| == 4 && |d| == 16 by {
      assert TapCount(taps) == 2 by {
        assert TapsBelow(taps, 1) == 1 && TapsBelow(taps, 3) == 1;
      }
      DrawCensus(taps, values, false, false);
    }
    assert d[|d| - 2].caption == Some(Label(0, 30, 1.0)) by {
      DrawFeedbackPath(taps, values, false, false);
      FeedbackExample();
    }
    assert d[|d| - 1].caption == Some(Label(1, 30, 1.0)) by {
      DrawOutputArrow(taps, values, false, false);
    }
  }

  /** The arcs of the default diagram are exactly the junctions of indices 0
      and 3, the two set taps of 1001. */
  lemma DefaultJunctions(d: seq<Primitive>)
    requires Run("1001", "1111", false, false) == Ok(d)
    ensures forall a :: a in d && a.Arc? <==>
      a == Junction(ConfigFor(4, false, false), 0) || a == Junction(ConfigFor(4, false, false), 3)
  {
    var taps, values := [1, 0, 0, 1], [1, 1, 1, 1];
    var cfg := ConfigFor(4, false, false);
    assert d == Draw(taps, values, false, false) by {
      DefaultArguments();
    }
    DrawJunctions(taps, values, false, false);
    forall a | a in d && a.Arc?
      ensures a == Junction(cfg, 0) || a == Junction(cfg, 3)
    {
      var i :| 0 <= i < |taps| && taps[i] == 1 && a == Junction(cfg, i);
      assert i != 1 && i != 2 by {
        assert taps[1] == 0 && taps[2] == 0;
      }
    }
    forall a | a == Junction(cfg, 0) || a == Junction(cfg, 3)
      ensures a in d && a.Arc?
    {
      var i := if a == Junction(cfg, 0) then 0 else 3;
      assert 0 <= i < |taps| && taps[i] == 1 && a == Junction(cfg, i);
    }
  }

  /** With no tap set: four boxes, no connector and no routing line, feedback
      0, and the feedback path starting above box 0. */
  lemma UntappedDiagram(valuesArg: string)
    requires |ParseBinaryList(valuesArg)| == 4
    ensures Run("0000", valuesArg, false, false).Ok?
    ensures var d := Run("0000", valuesArg, false, false).value;
      && |OfKind(d, BoxKind)| == 4
      && |OfKind(d, ArcKind)| == 0
      && |OfKind(d, PathKind)| == 0
      && |d| == 4 + 2
      && d[|d| - 2].points[0].x == 25.0
      && d[|d| - 2].caption == Some(Label(0, 30, 1.0))
  {
    var taps, values := [0, 0, 0, 0], ParseBinaryList(valuesArg);
    assert ParseBinaryList("0000") == taps by {
      ParseSpellRoundTrip(taps);
      assert Spell(taps) == "0000";
    }
    assert TapCount(taps) == 0;
    LastTapPosIsHighest(taps);
    DrawBoxes(taps, values, false, false);
    DrawCensus(taps, values, false, false);
    DrawFeedbackPath(taps, values, false, false);
    FeedbackWithoutTaps(taps, values);
  }
}
