/**
 * The synthetic word sequence of sequential-generator mode: the decimal
 * strings "1", "2", ..., "N" (Python's `str(i + 1)` over `range(N)`).
 */
module Ordinals {
  import opened Collections

  predicate IsDigit(c: char) {
    '0' <= c <= '9'
  }

  function DigitChar(d: nat): (c: char)
    requires d < 10
    ensures IsDigit(c) && (c as int) - ('0' as int) == d
  {
    ('0' as int + d) as char
  }

  /** `str(n)`: the decimal notation of `n`, without leading zeros. */
  function DecimalString(n: nat): (s: string)
    ensures |s| >= 1
    ensures forall i :: 0 <= i < |s| ==> IsDigit(s[i])
    ensures n > 0 ==> s[0] != '0'
  {
    if n < 10 then [DigitChar(n)] else DecimalString(n / 10) + [DigitChar(n % 10)]
  }

  /** The value of a string of decimal digits (the inverse of `DecimalString`). */
  function DecimalValue(s: string): nat
    requires forall i :: 0 <= i < |s| ==> IsDigit(s[i])
  {
    if s == [] then 0
    else
      var last := s[|s| - 1];
      assert IsDigit(last);
      10 * DecimalValue(s[..|s| - 1]) + ((last as int) - ('0' as int))
  }

  /** Reading back the decimal notation of `n` yields `n`. */
  lemma {:induction false} DecimalRoundTrip(n: nat)
    ensures DecimalValue(DecimalString(n)) == n
  {
    var s := DecimalString(n);
    if n >= 10 {
      DecimalRoundTrip(n / 10);
      assert s[..|s| - 1] == DecimalString(n / 10);
    }
  }

  /** Distinct numbers have distinct decimal notations. */
  lemma DecimalStringInjective(m: nat, n: nat)
    requires m != n
    ensures DecimalString(m) != DecimalString(n)
  {
    DecimalRoundTrip(m);
    DecimalRoundTrip(n);
  }

  /** `[str(i + 1) for i in range(count)]`. */
  function OrdinalWords(count: nat): (words: seq<string>)
    ensures |words| == count
    ensures forall i :: 0 <= i < count ==> words[i] == DecimalString(i + 1)
  {
    seq(count, i requires 0 <= i < count => DecimalString(i + 1))
  }

  /**
   * The ordinal words meet the invariant of a loaded word list: no word is
   * blank and none repeats, and the i-th word reads back as i + 1.
   */
  lemma OrdinalWordsAreDistinct(count: nat)
    ensures NoDuplicates(OrdinalWords(count))
    ensures forall w :: w in OrdinalWords(count) ==> w != "" && w[0] != '0'
    ensures forall i :: 0 <= i < count ==> DecimalValue(OrdinalWords(count)[i]) == i + 1
  {
    var words := OrdinalWords(count);
    forall i, j | 0 <= i < j < count ensures words[i] != words[j] {
      DecimalStringInjective(i + 1, j + 1);
    }
    forall i | 0 <= i < count ensures DecimalValue(words[i]) == i + 1 {
      DecimalRoundTrip(i + 1);
    }
  }

  /** `max(len(json_data), 10)`: how many objects generator mode produces. */
  function GeneratorCount(fieldCount: nat): (n: nat)
    ensures n >= 10 && n >= fieldCount
    ensures n == 10 || n == fieldCount
  {
    if fieldCount > 10 then fieldCount else 10
  }
}
