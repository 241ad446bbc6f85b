/** Bits as galdraw.py holds them: Python ints that the command-line parser
    restricts to 0 and 1, and the parser itself (parse_binary_list). */
module Bits {

  /** A register cell or tap flag. */
  type Bit = b: int | 0 <= b <= 1

  /** Python's `^` on two ints that are each 0 or 1: addition modulo 2. */
  function Xor(a: Bit, b: Bit): (r: Bit)
    ensures r == (a + b) % 2
  {
    if a == b then 0 else 1
  }

  /** The parity of a count: 1 when it is odd. */
  function Parity(count: nat): (b: Bit)
  {
    count % 2
  }

  /** The characters parse_binary_list keeps: `x in "01"` for a single character. */
  predicate IsBinaryDigit(c: char)
  {
    c == '0' || c == '1'
  }

  /** parse_binary_list: keeps the characters '0' and '1', in their original
      order, as the ints 0 and 1; every other character is dropped. */
  function ParseBinaryList(s: string): (bits: seq<Bit>)
    ensures |bits| <= |s|
  {
    if |s| == 0 then []
    else
      var rest := ParseBinaryList(s[1..]);
      if s[0] == '0' then [0] + rest
      else if s[0] == '1' then [1] + rest
      else rest
  }

  /** Every '0' of the input becomes a 0 of the result, every '1' a 1, and
      nothing else survives. */
  lemma {:induction false} ParseCounts(s: string)
    ensures |ParseBinaryList(s)| == multiset(s)['0'] + multiset(s)['1']
    ensures multiset(ParseBinaryList(s))[0] == multiset(s)['0']
    ensures multiset(ParseBinaryList(s))[1] == multiset(s)['1']
  {
    if |s| > 0 {
      assert s == [s[0]] + s[1..];
      ParseCounts(s[1..]);
    }
  }

  /** The string of '0' and '1' characters that spells a bit list. */
  function Spell(bits: seq<Bit>): (s: string)
    ensures |s| == |bits|
    ensures forall i :: 0 <= i < |s| ==> IsBinaryDigit(s[i])
  {
    seq(|bits|, i requires 0 <= i < |bits| => if bits[i] == 0 then '0' else '1')
  }

  /** Parsing a spelled bit list gives the bit list back. */
  lemma {:induction false} ParseSpellRoundTrip(bits: seq<Bit>)
    ensures ParseBinaryList(Spell(bits)) == bits
  {
    if |bits| > 0 {
      assert Spell(bits)[1..] == Spell(bits[1..]);
      ParseSpellRoundTrip(bits[1..]);
    }
  }

  /** Parsing distributes over concatenation: the kept digits stay in their
      original order and nothing from one half moves into the other. */
  lemma {:induction false} ParseConcat(a: string, b: string)
    ensures ParseBinaryList(a + b) == ParseBinaryList(a) + ParseBinaryList(b)
  {
    if |a| == 0 {
      assert a + b == b;
    } else {
      var ab := a + b;
      assert ab[0] == a[0];
      assert ab[1..] == a[1..] + b;
      ParseConcat(a[1..], b);
    }
  }

  /** A string with no '0' or '1' parses to the empty list. */
  lemma ParseIgnoresOtherCharacters(s: string)
    requires forall i :: 0 <= i < |s| ==> !IsBinaryDigit(s[i])
    ensures ParseBinaryList(s) == []
  {
    ParseCounts(s);
    assert '0' !in multiset(s) && '1' !in multiset(s);
  }
}
