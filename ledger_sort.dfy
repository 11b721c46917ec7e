/**
 * `Array.prototype.sort` with the timestamp comparators the services use:
 * `(a, b) => a.timestamp - b.timestamp` (oldest first) and
 * `(a, b) => b.timestamp - a.timestamp` (newest first).
 *
 * The sort is stable, as the engine's sort is; records with equal timestamps
 * keep their relative order. `Sort` is the functional specification (insertion
 * from the back) and `SortLedger` sorts an array in place against it.
 */
module LedgerSort {
  import opened Ledger

  datatype Direction = Ascending | Descending

  /** The value the comparator orders by: the timestamp, negated for newest first. */
  function Key(d: Direction, t: Tx): int
  {
    if d == Ascending then t.timestamp else -t.timestamp
  }

  ghost predicate SortedBy(d: Direction, s: seq<Tx>)
  {
    forall i, j :: 0 <= i < j < |s| ==> Key(d, s[i]) <= Key(d, s[j])
  }

  /** Places x after the last element whose key is not greater than x's. */
  function Insert(d: Direction, s: seq<Tx>, x: Tx): seq<Tx>
  {
    if s == [] || Key(d, s[|s| - 1]) <= Key(d, x) then s + [x]
    else Insert(d, s[..|s| - 1], x) + [s[|s| - 1]]
  }

  function Sort(d: Direction, s: seq<Tx>): seq<Tx>
  {
    if s == [] then [] else Insert(d, Sort(d, s[..|s| - 1]), s[|s| - 1])
  }

  lemma {:induction false} InsertPermutes(d: Direction, s: seq<Tx>, x: Tx)
    ensures multiset(Insert(d, s, x)) == multiset(s) + multiset{x}
  {
    if !(s == [] || Key(d, s[|s| - 1]) <= Key(d, x)) {
      InsertPermutes(d, s[..|s| - 1], x);
      assert s == s[..|s| - 1] + [s[|s| - 1]];
    }
  }

  lemma {:induction false} InsertBounded(d: Direction, s: seq<Tx>, x: Tx, b: int)
    requires forall k :: 0 <= k < |s| ==> Key(d, s[k]) <= b
    requires Key(d, x) <= b
    ensures forall k :: 0 <= k < |Insert(d, s, x)| ==> Key(d, Insert(d, s, x)[k]) <= b
  {
    if !(s == [] || Key(d, s[|s| - 1]) <= Key(d, x)) {
      InsertBounded(d, s[..|s| - 1], x, b);
    }
  }

  lemma {:induction false} InsertSorted(d: Direction, s: seq<Tx>, x: Tx)
    requires SortedBy(d, s)
    ensures SortedBy(d, Insert(d, s, x))
  {
    if !(s == [] || Key(d, s[|s| - 1]) <= Key(d, x)) {
      var init, last := s[..|s| - 1], s[|s| - 1];
      InsertSorted(d, init, x);
      InsertBounded(d, init, x, Key(d, last));
      var t := Insert(d, init, x);
      var r := t + [last];
      forall i, j | 0 <= i < j < |r| ensures Key(d, r[i]) <= Key(d, r[j]) {
        assert r[i] == t[i];
        if j < |r| - 1 {
          assert r[j] == t[j];
        }
      }
    }
  }

  /** The sorted ledger is ordered and holds exactly the records it was given. */
  lemma {:induction false} SortCorrect(d: Direction, s: seq<Tx>)
    ensures SortedBy(d, Sort(d, s))
    ensures multiset(Sort(d, s)) == multiset(s)
    ensures |Sort(d, s)| == |s|
  {
    if s != [] {
      var init := s[..|s| - 1];
      SortCorrect(d, init);
      InsertSorted(d, Sort(d, init), s[|s| - 1]);
      InsertPermutes(d, Sort(d, init), s[|s| - 1]);
      assert s == init + [s[|s| - 1]];
      assert |multiset(Sort(d, s))| == |multiset(s)|;
    }
  }

  /** The first record of a sorted ledger is one of its records with the least key. */
  lemma SortedHead(d: Direction, s: seq<Tx>)
    requires s != []
    ensures |Sort(d, s)| == |s|
    ensures Sort(d, s)[0] in s
    ensures forall u :: u in s ==> Key(d, Sort(d, s)[0]) <= Key(d, u)
  {
    SortCorrect(d, s);
    var r := Sort(d, s);
    assert r[0] in multiset(s) by { assert r[0] in multiset(r); }
    forall u | u in s ensures Key(d, r[0]) <= Key(d, u) {
      assert u in multiset(r);
      var j :| 0 <= j < |r| && r[j] == u;
    }
  }

  /** Sorting an already ordered ledger leaves it as it is. */
  lemma {:induction false} SortOfSorted(d: Direction, s: seq<Tx>)
    requires SortedBy(d, s)
    ensures Sort(d, s) == s
  {
    if s != [] {
      var init := s[..|s| - 1];
      assert SortedBy(d, init);
      SortOfSorted(d, init);
      assert s == init + [s[|s| - 1]];
    }
  }

  /** Where `Insert` puts x: after the last element whose key is not greater. */
  function Slot(d: Direction, s: seq<Tx>, x: Tx): (p: nat)
    ensures p <= |s|
  {
    if s == [] || Key(d, s[|s| - 1]) <= Key(d, x) then |s| else Slot(d, s[..|s| - 1], x)
  }

  lemma {:induction false} InsertAtSlot(d: Direction, s: seq<Tx>, x: Tx)
    ensures Insert(d, s, x) == s[..Slot(d, s, x)] + [x] + s[Slot(d, s, x)..]
  {
    if !(s == [] || Key(d, s[|s| - 1]) <= Key(d, x)) {
      var init := s[..|s| - 1];
      InsertAtSlot(d, init, x);
      var p := Slot(d, init, x);
      assert s[..p] == init[..p];
      assert s[p..] == init[p..] + [s[|s| - 1]];
    }
  }

  lemma SlotShift(d: Direction, S: seq<Tx>, j: nat, x: Tx)
    requires 0 < j <= |S| && Key(d, S[j - 1]) > Key(d, x)
    ensures Slot(d, S[..j], x) == Slot(d, S[..j - 1], x)
  {
    assert S[..j][..j - 1] == S[..j - 1];
  }

  /**
   * The array during one insertion pass, `cur`, with the record x lifted out:
   * the first j records of the sorted prefix S are in place, the rest of S has
   * moved one slot to the right, and the unsorted tail T is untouched.
   */
  ghost predicate Shifting(cur: seq<Tx>, S: seq<Tx>, T: seq<Tx>, j: nat)
  {
    && |cur| == |S| + 1 + |T| && j <= |S|
    && cur[..j] == S[..j]
    && cur[j + 1..|S| + 1] == S[j..]
    && cur[|S| + 1..] == T
  }

  lemma ShiftStart(S: seq<Tx>, x: Tx, T: seq<Tx>)
    ensures Shifting(S + [x] + T, S, T, |S|)
  {
    var cur := S + [x] + T;
    assert cur[..|S|] == S;
    assert cur[|S| + 1..] == T;
  }

  lemma ShiftStep(cur: seq<Tx>, S: seq<Tx>, T: seq<Tx>, j: nat)
    requires Shifting(cur, S, T, j) && 0 < j
    ensures cur[j - 1] == S[j - 1]
    ensures Shifting(cur[j := cur[j - 1]], S, T, j - 1)
  {
    assert cur[j - 1] == cur[..j][j - 1];
    var next := cur[j := cur[j - 1]];
    assert next[..j - 1] == cur[..j][..j - 1];
    assert next[j..|S| + 1] == [S[j - 1]] + cur[j + 1..|S| + 1];
    assert next[|S| + 1..] == cur[|S| + 1..];
  }

  lemma ShiftDone(cur: seq<Tx>, S: seq<Tx>, T: seq<Tx>, j: nat, x: Tx)
    requires Shifting(cur, S, T, j)
    ensures cur[j := x] == S[..j] + [x] + S[j..] + T
  {
    var fin := cur[j := x];
    assert fin == cur[..j] + [x] + cur[j + 1..|S| + 1] + cur[|S| + 1..];
  }

  /** One pass of insertion sort: moves a[i] back into the sorted prefix a[..i]. */
  method InsertLast(a: array<Tx>, i: nat, d: Direction)
    requires i < a.Length
    modifies a
    ensures a[..] == Insert(d, old(a[..i]), old(a[i])) + old(a[i + 1..])
  {
    ghost var S, T := a[..i], a[i + 1..];
    var x := a[i];
    assert a[..] == S + [x] + T;
    ShiftStart(S, x, T);
    var j := i;
    assert S[..j] == S;
    while j > 0 && Key(d, a[j - 1]) > Key(d, x)
      invariant Shifting(a[..], S, T, j)
      invariant Slot(d, S, x) == Slot(d, S[..j], x)
    {
      ShiftStep(a[..], S, T, j);
      SlotShift(d, S, j, x);
      a[j] := a[j - 1];
      j := j - 1;
    }
    assert Slot(d, S[..j], x) == j by {
      if j > 0 {
        assert a[..][..j] == S[..j];
        assert S[..j][j - 1] == a[j - 1];
      }
    }
    ShiftDone(a[..], S, T, j, x);
    InsertAtSlot(d, S, x);
    ghost var sorted := S[..j] + [x] + S[j..];
    assert Insert(d, S, x) == sorted;
    a[j] := x;
    assert a[..] == sorted + T;
  }

  /** Sorting one more record of s inserts it into the sorted prefix. */
  lemma SortPrefixStep(d: Direction, s: seq<Tx>, i: nat)
    requires i < |s|
    ensures Sort(d, s[..i + 1]) == Insert(d, Sort(d, s[..i]), s[i])
  {
    assert s[..i + 1][..i] == s[..i];
  }

  /** The array as the outer loop finds it: the sorted prefix, the next record, the rest. */
  lemma SplitAfterPrefix(cur: seq<Tx>, S: seq<Tx>, s: seq<Tx>, i: nat)
    requires i < |s| && |S| == i && cur == S + s[i..]
    ensures cur[..i] == S && cur[i] == s[i] && cur[i + 1..] == s[i + 1..]
  {
    assert cur[i..] == s[i..];
  }

  /** `ledger.sort(comparator)`: stable insertion sort in place. */
  method SortLedger(a: array<Tx>, d: Direction)
    modifies a
    ensures a[..] == Sort(d, old(a[..]))
  {
    ghost var A := a[..];
    var i := 0;
    while i < a.Length
      invariant 0 <= i <= a.Length
      invariant a[..] == Sort(d, A[..i]) + A[i..]
    {
      SortCorrect(d, A[..i]);
      SplitAfterPrefix(a[..], Sort(d, A[..i]), A, i);
      InsertLast(a, i, d);
      SortPrefixStep(d, A, i);
      i := i + 1;
    }
    assert A[..a.Length] == A;
  }

  /** A fresh array holding the records of s, for the sorts that work on a new array. */
  method ToArray(s: seq<Tx>) returns (a: array<Tx>)
    ensures fresh(a) && a[..] == s
  {
    a := new Tx[|s|](k requires 0 <= k < |s| => s[k]);
  }

  /** Sorts a copy: `[...records].sort(comparator)` on an array the caller does not keep. */
  method SortedCopy(s: seq<Tx>, d: Direction) returns (r: seq<Tx>)
    ensures r == Sort(d, s)
    ensures SortedBy(d, r) && multiset(r) == multiset(s)
  {
    var a := ToArray(s);
    SortLedger(a, d);
    r := a[..];
    SortCorrect(d, s);
  }
}
