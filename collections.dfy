/** Small facts about sequences used as ordered views of sets. */
module Collections {

  /** No element occurs twice in `s`. */
  ghost predicate NoDuplicates<T>(s: seq<T>) {
    forall i, j :: 0 <= i < j < |s| ==> s[i] != s[j]
  }

  /** The set of elements of `s` (Python's `set(s)`). */
  function Elements<T>(s: seq<T>): set<T> {
    set x | x in s
  }

  /** A duplicate-free enumeration of a one-element set is that element alone. */
  lemma SingletonOrder<T>(s: seq<T>, x: T)
    requires NoDuplicates(s) && Elements(s) == {x}
    ensures s == [x]
  {
    assert x in Elements(s);
    forall i | 0 <= i < |s| ensures s[i] == x {
      assert s[i] in Elements(s);
    }
    FirstTwoDistinct(s);
  }

  /** The first two elements of a duplicate-free sequence differ, when there are two. */
  lemma FirstTwoDistinct<T>(s: seq<T>)
    requires NoDuplicates(s)
    ensures |s| >= 2 ==> s[0] != s[1]
  {
  }

  /** Concatenation is associative; used to regroup the blocks of `Flatten`. */
  lemma ConcatAssoc<T>(a: seq<T>, b: seq<T>, c: seq<T>)
    ensures (a + b) + c == a + (b + c)
  {
  }

  /** Appending an element not yet present adds it to the elements and keeps them distinct. */
  lemma AppendFresh<T>(s: seq<T>, x: T)
    requires NoDuplicates(s) && x !in s
    ensures Elements(s + [x]) == Elements(s) + {x}
    ensures NoDuplicates(s + [x])
  {
    assert forall y :: y in s + [x] <==> y in s || y == x;
  }

  /** The concatenation of `blocks`, in order. */
  function Flatten<T>(blocks: seq<seq<T>>): seq<T> {
    if blocks == [] then [] else Flatten(blocks[..|blocks| - 1]) + blocks[|blocks| - 1]
  }

  /** Every block has `n` elements. */
  predicate AllOfLength<T>(blocks: seq<seq<T>>, n: nat) {
    forall i :: 0 <= i < |blocks| ==> |blocks[i]| == n
  }

  lemma FlattenStep<T>(blocks: seq<seq<T>>, i: nat)
    requires i < |blocks|
    ensures Flatten(blocks[..i + 1]) == Flatten(blocks[..i]) + blocks[i]
  {
    assert blocks[..i + 1][..i] == blocks[..i];
  }

  lemma FlattenPair<T>(a: seq<T>, b: seq<T>)
    ensures Flatten([a, b]) == a + b
  {
    assert [a, b][..1] == [a];
    assert [a][..0] == [];
    assert Flatten([a]) == [] + a == a;
  }

  /** Flattening distributes over concatenation of block lists. */
  lemma {:induction false} FlattenAppend<T>(a: seq<seq<T>>, b: seq<seq<T>>)
    ensures Flatten(a + b) == Flatten(a) + Flatten(b)
  {
    if b == [] {
      assert a + b == a;
    } else {
      var n := |b| - 1;
      var ab := a + b;
      assert ab[..|ab| - 1] == a + b[..n];
      assert ab[|ab| - 1] == b[n];
      FlattenAppend(a, b[..n]);
      ConcatAssoc(Flatten(a), Flatten(b[..n]), b[n]);
    }
  }

  /** Blocks of equal length `n` flatten to `|blocks| * n` elements. */
  lemma {:induction false} FlattenLength<T>(blocks: seq<seq<T>>, n: nat)
    requires AllOfLength(blocks, n)
    ensures |Flatten(blocks)| == |blocks| * n
  {
    if blocks != [] {
      var m := |blocks| - 1;
      FlattenLength(blocks[..m], n);
      assert |Flatten(blocks)| == m * n + n;
      assert m * n + n == (m + 1) * n;
    }
  }

  /** With blocks of equal length `n`, element `j` of block `i` sits at `i * n + j`. */
  lemma FlattenAt<T>(blocks: seq<seq<T>>, n: nat, i: nat, j: nat)
    requires AllOfLength(blocks, n)
    requires i < |blocks| && j < n
    ensures i * n + j < |Flatten(blocks)|
    ensures Flatten(blocks)[i * n + j] == blocks[i][j]
  {
    var before, after := blocks[..i], blocks[i + 1..];
    assert blocks[..i + 1] + after == blocks;
    FlattenAppend(blocks[..i + 1], after);
    FlattenStep(blocks, i);
    FlattenLength(before, n);
    FlattenLength(blocks, n);
    assert i * n + j < i * n + n == (i + 1) * n <= |blocks| * n;
  }

  /** Every element of the flattening comes from one of the blocks. */
  lemma {:induction false} FlattenMember<T>(blocks: seq<seq<T>>, x: T)
    requires x in Flatten(blocks)
    ensures exists i :: 0 <= i < |blocks| && x in blocks[i]
  {
    var m := |blocks| - 1;
    if x !in blocks[m] {
      FlattenMember(blocks[..m], x);
      var i :| 0 <= i < m && x in blocks[..m][i];
      assert blocks[..m][i] == blocks[i];
    }
  }
}
