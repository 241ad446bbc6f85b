/** The feedback calculator of galdraw.py (calculateGaloisFeedback): the XOR of
    the register values at the tapped positions. */
module Feedback {
  import opened Bits

  /** What calculateGaloisFeedback reads: values[i] for every tapped index i. */
  predicate ValuesCoverTaps(taps: seq<Bit>, values: seq<Bit>)
  {
    forall i :: 0 <= i < |taps| && taps[i] == 1 ==> i < |values|
  }

  /** The indices that are tapped and hold a 1: the only ones that can flip the
      feedback. */
  ghost function TappedOnes(taps: seq<Bit>, values: seq<Bit>): (ones: set<nat>)
    requires ValuesCoverTaps(taps, values)
  {
    set i: nat | i < |taps| && taps[i] == 1 && values[i] == 1
  }

  /** Extending the tap list by one index adds that index to TappedOnes exactly
      when it is tapped and holds a 1. */
  lemma TappedOnesStep(taps: seq<Bit>, values: seq<Bit>)
    requires |taps| > 0 && ValuesCoverTaps(taps, values)
    ensures var n := |taps| - 1;
      TappedOnes(taps, values) ==
        TappedOnes(taps[..n], values) + (if taps[n] == 1 && values[n] == 1 then {n} else {})
  {
  }

  /** calculateGaloisFeedback: starting from 0, XOR in values[i] for each
      tapped i, left to right. The result is the parity of the number of
      tapped ones. */
  function CalculateFeedback(taps: seq<Bit>, values: seq<Bit>): (feedback: Bit)
    requires ValuesCoverTaps(taps, values)
    ensures feedback == Parity(|TappedOnes(taps, values)|)
    decreases |taps|
  {
    if |taps| == 0 then 0
    else
      var n := |taps| - 1;
      var acc := CalculateFeedback(taps[..n], values);
      TappedOnesStep(taps, values);
      if taps[n] == 1 then Xor(acc, values[n]) else acc
  }

  /** With no tap set the feedback is 0, whatever the values. */
  lemma FeedbackWithoutTaps(taps: seq<Bit>, values: seq<Bit>)
    requires forall i :: 0 <= i < |taps| ==> taps[i] == 0
    ensures ValuesCoverTaps(taps, values)
    ensures CalculateFeedback(taps, values) == 0
  {
    assert TappedOnes(taps, values) == {};
  }

  /** taps 1001 and values 1111: values[0] XOR values[3] = 0. */
  lemma FeedbackExample()
    ensures CalculateFeedback([1, 0, 0, 1], [1, 1, 1, 1]) == 0
  {
    assert TappedOnes([1, 0, 0, 1], [1, 1, 1, 1]) == {0, 3};
  }

  /** Flipping one register value flips the feedback exactly when that index
      is tapped: the feedback is linear over GF(2) in the values. */
  lemma FeedbackFlip(taps: seq<Bit>, values: seq<Bit>, k: nat)
    requires ValuesCoverTaps(taps, values) && k < |values|
    ensures ValuesCoverTaps(taps, values[k := 1 - values[k]])
    ensures var flipped := CalculateFeedback(taps, values[k := 1 - values[k]]);
      if k < |taps| && taps[k] == 1 then flipped != CalculateFeedback(taps, values)
      else flipped == CalculateFeedback(taps, values)
  {
    var other := values[k := 1 - values[k]];
    assert ValuesCoverTaps(taps, other);
    var before, after := TappedOnes(taps, values), TappedOnes(taps, other);
    if k < |taps| && taps[k] == 1 {
      if values[k] == 1 {
        assert before == after + {k};
        AddingOneFlipsParity(after, k);
      } else {
        assert after == before + {k};
        AddingOneFlipsParity(before, k);
      }
    } else {
      assert before == after;
    }
  }

  /** Adding a new element to a set flips the parity of its size. */
  lemma AddingOneFlipsParity(a: set<nat>, k: nat)
    ensures k !in a ==> Parity(|a + {k}|) != Parity(|a|)
  {
  }

  /** `perm` reorders indices 0..|perm|-1 and `inverse` undoes it. */
  predicate IsPermutation(perm: seq<nat>, inverse: seq<nat>)
  {
    && |perm| == |inverse|
    && (forall k :: 0 <= k < |perm| ==> perm[k] < |inverse| && inverse[perm[k]] == k)
    && (forall j :: 0 <= j < |inverse| ==> inverse[j] < |perm| && perm[inverse[j]] == j)
  }

  /** The sequence whose k-th element is s[perm[k]]. */
  function Permute(s: seq<Bit>, perm: seq<nat>): (r: seq<Bit>)
    requires forall k :: 0 <= k < |perm| ==> perm[k] < |s|
    ensures |r| == |perm|
    ensures forall k :: 0 <= k < |perm| ==> r[k] == s[perm[k]]
  {
    seq(|perm|, k requires 0 <= k < |perm| => s[perm[k]])
  }

  /** An injective map does not change the size of a set. */
  lemma {:induction false} InjectiveImageSize(a: set<nat>, f: seq<nat>)
    requires forall k :: k in a ==> k < |f|
    requires forall k, m :: k in a && m in a && f[k] == f[m] ==> k == m
    ensures |set k | k in a :: f[k]| == |a|
  {
    if a != {} {
      var k :| k in a;
      var rest := a - {k};
      InjectiveImageSize(rest, f);
      assert (set j | j in a :: f[j]) == (set j | j in rest :: f[j]) + {f[k]};
    }
  }

  /** The order in which the tapped positions are visited does not matter:
      permuting taps and values together leaves the feedback unchanged. */
  lemma FeedbackOrderIrrelevant(taps: seq<Bit>, values: seq<Bit>, perm: seq<nat>, inverse: seq<nat>)
    requires |taps| == |values| == |perm|
    requires IsPermutation(perm, inverse)
    ensures ValuesCoverTaps(Permute(taps, perm), Permute(values, perm))
    ensures CalculateFeedback(Permute(taps, perm), Permute(values, perm)) == CalculateFeedback(taps, values)
  {
    var pt, pv := Permute(taps, perm), Permute(values, perm);
    var moved := TappedOnes(pt, pv);
    var original := TappedOnes(taps, values);
    assert forall k :: k in moved ==> k < |perm|;
    InjectiveImageSize(moved, perm);
    var image := set k | k in moved :: perm[k];
    forall j | j in original
      ensures j in image
    {
      assert inverse[j] in moved;
    }
    assert image == original;
  }
}
