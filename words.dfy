/**
 * Word-list preparation (`DataLoader.load_wordlist` without the file access):
 * every line is stripped of surrounding whitespace, blank lines are dropped
 * and only the first occurrence of each word is kept, in order.
 */
module Words {
  import opened Collections

  /** Python's `str.isspace` for one character: the whitespace `str.strip()` removes. */
  predicate IsSpace(c: char) {
    var n := c as int;
    || 0x09 <= n <= 0x0D || 0x1C <= n <= 0x20 || n == 0x85 || n == 0xA0
    || n == 0x1680 || 0x2000 <= n <= 0x200A || n == 0x2028 || n == 0x2029
    || n == 0x202F || n == 0x205F || n == 0x3000
  }

  /** The number of whitespace characters `s` starts with. */
  function LeadingSpaces(s: string): (n: nat)
    ensures n <= |s|
    ensures forall i :: 0 <= i < n ==> IsSpace(s[i])
    ensures n == |s| || !IsSpace(s[n])
  {
    if s != [] && IsSpace(s[0]) then 1 + LeadingSpaces(s[1..]) else 0
  }

  /** The number of whitespace characters `s` ends with. */
  function TrailingSpaces(s: string): (n: nat)
    ensures n <= |s|
    ensures forall i :: |s| - n <= i < |s| ==> IsSpace(s[i])
    ensures n == |s| || !IsSpace(s[|s| - n - 1])
  {
    if s != [] && IsSpace(s[|s| - 1]) then 1 + TrailingSpaces(s[..|s| - 1]) else 0
  }

  /** `line.strip()`: the line without its leading and then its trailing whitespace. */
  function Strip(s: string): (r: string)
    ensures |r| <= |s|
    ensures r == [] || (!IsSpace(r[0]) && !IsSpace(r[|r| - 1]))
  {
    var t := s[LeadingSpaces(s)..];
    t[..|t| - TrailingSpaces(t)]
  }

  /**
   * The stripped line is the slice of the input between its first and last
   * non-whitespace characters: everything cut away is whitespace, and what
   * remains neither starts nor ends with whitespace.
   */
  lemma StripIsTrimmedSlice(s: string)
    ensures var a, r := LeadingSpaces(s), Strip(s);
      && a + |r| <= |s|
      && r == s[a..a + |r|]
      && (r == [] || (!IsSpace(r[0]) && !IsSpace(r[|r| - 1])))
      && (forall i :: 0 <= i < a ==> IsSpace(s[i]))
      && (forall i :: a + |r| <= i < |s| ==> IsSpace(s[i]))
  {
    var a := LeadingSpaces(s);
    var t := s[a..];
    var m := TrailingSpaces(t);
    TrimmedSlice(s, a, t, m);
    assert Strip(s) == t[..|t| - m];
  }

  /** Cutting whitespace from both ends of `s` in two steps leaves one slice of `s`. */
  lemma TrimmedSlice(s: string, a: nat, t: string, m: nat)
    requires a <= |s| && t == s[a..] && m <= |t|
    requires a == |s| || !IsSpace(s[a])
    requires forall i :: |t| - m <= i < |t| ==> IsSpace(t[i])
    requires m == |t| || !IsSpace(t[|t| - m - 1])
    ensures var r := t[..|t| - m];
      && r == s[a..a + |r|]
      && (r == [] || (!IsSpace(r[0]) && !IsSpace(r[|r| - 1])))
      && (forall i :: a + |r| <= i < |s| ==> IsSpace(s[i]))
  {
    var r := t[..|t| - m];
    forall i | a + |r| <= i < |s| ensures IsSpace(s[i]) {
      assert s[i] == t[i - a];
    }
    if r != [] {
      assert r[0] == s[a];
      assert r[|r| - 1] == t[|t| - m - 1];
    }
  }

  /** Stripping twice is stripping once: every kept word is already stripped. */
  lemma StripIdempotent(s: string)
    ensures Strip(Strip(s)) == Strip(s)
  {
    var r := Strip(s);
    StripIsTrimmedSlice(s);
    assert LeadingSpaces(r) == 0;
    assert r[0..] == r;
    assert TrailingSpaces(r) == 0;
  }

  /** `[line.strip() for line in lines]`. */
  function StripAll(lines: seq<string>): (r: seq<string>)
    ensures |r| == |lines|
    ensures forall i :: 0 <= i < |lines| ==> r[i] == Strip(lines[i])
  {
    seq(|lines|, i requires 0 <= i < |lines| => Strip(lines[i]))
  }

  /** Every stripped line is already stripped. */
  lemma StripAllStripped(lines: seq<string>)
    ensures forall w :: w in StripAll(lines) ==> Strip(w) == w
  {
    var r := StripAll(lines);
    forall w | w in r ensures Strip(w) == w {
      var k :| 0 <= k < |r| && r[k] == w;
      StripIdempotent(lines[k]);
    }
  }

  /**
   * The words the filtering loop keeps from `lines`: each non-empty line not
   * kept before, in the order of the lines.
   */
  function Deduplicated(lines: seq<string>): (r: seq<string>)
    ensures forall w :: w in r <==> w != "" && w in lines
    ensures NoDuplicates(r)
  {
    if lines == [] then []
    else
      var kept := Deduplicated(lines[..|lines| - 1]);
      var line := lines[|lines| - 1];
      assert lines == lines[..|lines| - 1] + [line];
      if line != "" && line !in kept then kept + [line] else kept
  }

  /** Index of the first occurrence of `x` in `s`. */
  function FirstIndex(s: seq<string>, x: string): (i: nat)
    requires x in s
    ensures i < |s| && s[i] == x
    ensures forall j :: 0 <= j < i ==> s[j] != x
  {
    if s[0] == x then 0 else 1 + FirstIndex(s[1..], x)
  }

  lemma {:induction false} FirstIndexOfPrefix(s: seq<string>, n: nat, x: string)
    requires n <= |s| && x in s[..n]
    ensures x in s && FirstIndex(s, x) == FirstIndex(s[..n], x)
  {
    var i := FirstIndex(s[..n], x);
    assert s[i] == x;
  }

  /** Every element of `r` occurs in `lines`, and `r` lists them by first occurrence there. */
  ghost predicate InFirstOccurrenceOrder(r: seq<string>, lines: seq<string>) {
    && (forall x :: x in r ==> x in lines)
    && (forall i, j :: 0 <= i < j < |r| ==> FirstIndex(lines, r[i]) < FirstIndex(lines, r[j]))
  }

  /** The order is kept when every first occurrence sits at the same place in a longer list. */
  lemma OrderCarriesOver(kept: seq<string>, init: seq<string>, lines: seq<string>)
    requires InFirstOccurrenceOrder(kept, init)
    requires forall x :: x in kept ==> x in lines && FirstIndex(lines, x) == FirstIndex(init, x)
    ensures InFirstOccurrenceOrder(kept, lines)
  {
    forall i, j | 0 <= i < j < |kept| ensures FirstIndex(lines, kept[i]) < FirstIndex(lines, kept[j]) {
      assert FirstIndex(init, kept[i]) < FirstIndex(init, kept[j]);
    }
  }

  /** Appending an element whose first occurrence comes after all others keeps the order. */
  lemma OrderAppend(kept: seq<string>, lines: seq<string>, x: string)
    requires InFirstOccurrenceOrder(kept, lines) && x in lines
    requires forall y :: y in kept ==> FirstIndex(lines, y) < FirstIndex(lines, x)
    ensures InFirstOccurrenceOrder(kept + [x], lines)
  {
    var r := kept + [x];
    forall i, j | 0 <= i < j < |r| ensures FirstIndex(lines, r[i]) < FirstIndex(lines, r[j]) {
      assert r[i] == kept[i];
      if j < |kept| {
        assert r[j] == kept[j];
      }
    }
  }

  /**
   * Kept words appear in the order of their first occurrence in the input:
   * the filter keeps first occurrences and preserves their relative order.
   */
  lemma {:induction false} DeduplicatedKeepsFirstOccurrenceOrder(lines: seq<string>)
    ensures InFirstOccurrenceOrder(Deduplicated(lines), lines)
  {
    if lines != [] {
      var n := |lines| - 1;
      var init := lines[..n];
      var kept := Deduplicated(init);
      DeduplicatedKeepsFirstOccurrenceOrder(init);
      forall x | x in kept ensures x in lines && FirstIndex(lines, x) == FirstIndex(init, x) < n {
        FirstIndexOfPrefix(lines, n, x);
      }
      OrderCarriesOver(kept, init, lines);
      if lines[n] != "" && lines[n] !in kept {
        assert lines[n] !in init;
        assert FirstIndex(lines, lines[n]) == n;
        OrderAppend(kept, lines, lines[n]);
      }
    }
  }

  /** The stripped lines are exactly the strips of the raw lines. */
  lemma StrippedLine(rawLines: seq<string>, w: string)
    ensures w in StripAll(rawLines) <==> exists line :: line in rawLines && Strip(line) == w
  {
    var lines := StripAll(rawLines);
    if w in lines {
      var k :| 0 <= k < |lines| && lines[k] == w;
      assert rawLines[k] in rawLines;
    }
    if exists line :: line in rawLines && Strip(line) == w {
      var line :| line in rawLines && Strip(line) == w;
      var k :| 0 <= k < |rawLines| && rawLines[k] == line;
      assert lines[k] == w;
    }
  }

  /** One step of the filtering loop. */
  lemma DeduplicatedStep(lines: seq<string>, i: nat)
    requires i < |lines|
    ensures Deduplicated(lines[..i + 1]) ==
      if lines[i] != "" && lines[i] !in Deduplicated(lines[..i])
      then Deduplicated(lines[..i]) + [lines[i]]
      else Deduplicated(lines[..i])
  {
    assert lines[..i + 1][..i] == lines[..i];
  }

  /**
   * The filtering loop of `load_wordlist`, over the stripped lines: it keeps
   * a line when it is non-empty and not yet in `seen`.
   */
  method KeepFirstNonBlank(lines: seq<string>) returns (words: seq<string>)
    ensures words == Deduplicated(lines)
  {
    words := [];
    var seen: set<string> := {};
    for i := 0 to |lines|
      invariant words == Deduplicated(lines[..i])
      invariant seen == Elements(words)
    {
      var line := lines[i];
      DeduplicatedStep(lines, i);
      if line != "" && line !in seen {
        AppendFresh(words, line);
        words := words + [line];
        seen := seen + {line};
      }
    }
    assert lines[..|lines|] == lines;
  }

  /** `load_wordlist` over the lines already read: strip every line, then filter. */
  method LoadWordlist(rawLines: seq<string>) returns (words: seq<string>)
    ensures words == Deduplicated(StripAll(rawLines))
    ensures forall w :: w in words <==> w != "" && w in StripAll(rawLines)
    ensures NoDuplicates(words)
    ensures forall w :: w in words ==> Strip(w) == w
  {
    var lines := StripAll(rawLines);
    words := KeepFirstNonBlank(lines);
    StripAllStripped(rawLines);
  }
}
