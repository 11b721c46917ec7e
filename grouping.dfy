/**
 * Dictionaries keyed by a label, as the services build them with plain
 * JavaScript objects: the sorted list of distinct keys (`Object.keys(g).sort()`)
 * and per-key counters (`counts[k] = (counts[k] || 0) + 1`).
 *
 * `Array.prototype.sort` without a comparator orders strings by character
 * code, which `StrLess` defines.
 */
module Grouping {

  /** Lexicographic order by character code, as the default sort compares strings. */
  predicate StrLess(a: string, b: string)
  {
    if a == [] then b != []
    else if b == [] then false
    else if a[0] != b[0] then a[0] < b[0]
    else StrLess(a[1..], b[1..])
  }

  lemma {:induction false} StrLessIrreflexive(a: string)
    ensures !StrLess(a, a)
  {
    if a != [] {
      StrLessIrreflexive(a[1..]);
    }
  }

  lemma {:induction false} StrLessTransitive(a: string, b: string, c: string)
    requires StrLess(a, b) && StrLess(b, c)
    ensures StrLess(a, c)
  {
    if a != [] && b != [] && c != [] && a[0] == b[0] && b[0] == c[0] {
      StrLessTransitive(a[1..], b[1..], c[1..]);
    }
  }

  lemma {:induction false} StrLessTotal(a: string, b: string)
    requires a != b
    ensures StrLess(a, b) || StrLess(b, a)
  {
    if a != [] && b != [] && a[0] == b[0] {
      assert a == [a[0]] + a[1..] && b == [b[0]] + b[1..];
      StrLessTotal(a[1..], b[1..]);
    }
  }

  ghost predicate StrictTotalOrder<K(!new)>(lt: (K, K) -> bool)
  {
    && (forall a :: !lt(a, a))
    && (forall a, b, c :: lt(a, b) && lt(b, c) ==> lt(a, c))
    && (forall a, b :: a != b ==> lt(a, b) || lt(b, a))
  }

  lemma StringOrder()
    ensures StrictTotalOrder(StrLess)
  {
    forall a: string { StrLessIrreflexive(a); }
    forall a: string, b: string, c: string | StrLess(a, b) && StrLess(b, c) { StrLessTransitive(a, b, c); }
    forall a: string, b: string | a != b { StrLessTotal(a, b); }
  }

  ghost predicate StrictlySorted<K>(s: seq<K>, lt: (K, K) -> bool)
  {
    forall i, j :: 0 <= i < j < |s| ==> lt(s[i], s[j])
  }

  /** Adds k to a strictly sorted key list unless it is already there. */
  function InsertKey<K(==)>(s: seq<K>, k: K, lt: (K, K) -> bool): seq<K>
  {
    if s == [] then [k]
    else if s[0] == k then s
    else if lt(k, s[0]) then [k] + s
    else [s[0]] + InsertKey(s[1..], k, lt)
  }

  lemma {:induction false} InsertKeyCorrect<K(!new)>(s: seq<K>, k: K, lt: (K, K) -> bool)
    requires StrictTotalOrder(lt) && StrictlySorted(s, lt)
    ensures StrictlySorted(InsertKey(s, k, lt), lt)
    ensures forall x :: x in InsertKey(s, k, lt) <==> x in s || x == k
  {
    if s != [] && s[0] != k && !lt(k, s[0]) {
      InsertKeyCorrect(s[1..], k, lt);
      var t := InsertKey(s[1..], k, lt);
      assert forall x :: x in s[1..] ==> lt(s[0], x);
      assert forall x :: x in t ==> lt(s[0], x);
      var r := [s[0]] + t;
      forall i, j | 0 <= i < j < |r| ensures lt(r[i], r[j]) {
        if i > 0 {
          assert r[i] == t[i - 1] && r[j] == t[j - 1];
        } else {
          assert r[j] in t;
        }
      }
      assert s == [s[0]] + s[1..];
    }
  }

  /** The distinct labels in increasing order: `Object.keys(grouped).sort()`. */
  function SortedKeys<K(==)>(labels: seq<K>, lt: (K, K) -> bool): seq<K>
  {
    if labels == [] then []
    else InsertKey(SortedKeys(labels[..|labels| - 1], lt), labels[|labels| - 1], lt)
  }

  lemma {:induction false} SortedKeysCorrect<K(!new)>(labels: seq<K>, lt: (K, K) -> bool)
    requires StrictTotalOrder(lt)
    ensures StrictlySorted(SortedKeys(labels, lt), lt)
    ensures forall x :: x in SortedKeys(labels, lt) <==> x in labels
    ensures |SortedKeys(labels, lt)| <= |labels|
  {
    if labels != [] {
      var init := labels[..|labels| - 1];
      SortedKeysCorrect(init, lt);
      InsertKeyCorrect(SortedKeys(init, lt), labels[|labels| - 1], lt);
      assert labels == init + [labels[|labels| - 1]];
      SortedDistinctBound(SortedKeys(labels, lt), labels, lt);
    }
  }

  /** A strictly sorted list drawn from `pool` is no longer than `pool`. */
  lemma SortedDistinctBound<K(!new)>(s: seq<K>, pool: seq<K>, lt: (K, K) -> bool)
    requires StrictTotalOrder(lt) && StrictlySorted(s, lt)
    requires forall x :: x in s ==> x in pool
    ensures |s| <= |pool|
  {
    var elems := set x | x in s;
    var poolSet := set x | x in pool;
    DistinctCard(s, lt);
    SetOfSeqCard(pool);
    assert poolSet == elems + (poolSet - elems);
    assert elems * (poolSet - elems) == {};
  }

  lemma {:induction false} DistinctCard<K(!new)>(s: seq<K>, lt: (K, K) -> bool)
    requires StrictTotalOrder(lt) && StrictlySorted(s, lt)
    ensures |set x | x in s| == |s|
  {
    if s != [] {
      var init := s[..|s| - 1];
      var last := s[|s| - 1];
      DistinctCard(init, lt);
      assert StrictlySorted(init, lt);
      assert forall i :: 0 <= i < |init| ==> lt(init[i], last);
      assert !lt(last, last);
      assert last !in init;
      assert s == init + [last];
      assert (set x | x in s) == (set x | x in init) + {last};
    }
  }

  lemma {:induction false} SetOfSeqCard<K>(s: seq<K>)
    ensures |set x | x in s| <= |s|
  {
    if s != [] {
      var init := s[..|s| - 1];
      SetOfSeqCard(init);
      assert s == init + [s[|s| - 1]];
      assert (set x | x in s) == (set x | x in init) + {s[|s| - 1]};
    }
  }

  // ------------------------------------------------------------ grouping

  /** The distinct keys of s in order of first appearance, as object keys enumerate. */
  function FirstSeen<T, K(==)>(s: seq<T>, key: T -> K): (r: seq<K>)
    ensures |r| <= |s|
    ensures forall i, j :: 0 <= i < j < |r| ==> r[i] != r[j]
    ensures forall i :: 0 <= i < |s| ==> key(s[i]) in r
  {
    if s == [] then []
    else
      var init := s[..|s| - 1];
      var d := FirstSeen(init, key);
      assert forall i :: 0 <= i < |init| ==> init[i] == s[i];
      if key(s[|s| - 1]) in d then d else d + [key(s[|s| - 1])]
  }

  /** Every key listed is the key of some record. */
  lemma {:induction false} FirstSeenSound<T, K>(s: seq<T>, key: T -> K, k: K)
    requires k in FirstSeen(s, key)
    ensures exists i :: 0 <= i < |s| && key(s[i]) == k
  {
    var init := s[..|s| - 1];
    if k != key(s[|s| - 1]) {
      FirstSeenSound(init, key, k);
      var i :| 0 <= i < |init| && key(init[i]) == k;
      assert s[i] == init[i];
    }
  }

  /** The records of s whose key is k, in their original order. */
  function GroupOf<T, K(==)>(s: seq<T>, key: T -> K, k: K): (r: seq<T>)
    ensures |r| <= |s|
    ensures forall i :: 0 <= i < |r| ==> r[i] in s && key(r[i]) == k
    ensures forall i :: 0 <= i < |s| && key(s[i]) == k ==> s[i] in r
  {
    if s == [] then []
    else
      var init := s[..|s| - 1];
      assert s == init + [s[|s| - 1]];
      GroupOf(init, key, k) + (if key(s[|s| - 1]) == k then [s[|s| - 1]] else [])
  }

  /** A key that never occurs has an empty group. */
  lemma {:induction false} GroupOfUnseen<T, K>(s: seq<T>, key: T -> K, k: K)
    requires k !in FirstSeen(s, key)
    ensures GroupOf(s, key, k) == []
  {
    if s != [] {
      var init := s[..|s| - 1];
      assert forall j :: 0 <= j < |FirstSeen(init, key)| ==> FirstSeen(init, key)[j] in FirstSeen(s, key);
      GroupOfUnseen(init, key, k);
    }
  }

  /** What `GroupBy` knows after reading `prefix`. */
  ghost predicate GroupInv<T, K(!new)>(prefix: seq<T>, key: T -> K, order: seq<K>, groups: map<K, seq<T>>)
  {
    && order == FirstSeen(prefix, key)
    && (forall k :: k in groups <==> k in order)
    && (forall k :: k in groups ==> groups[k] == GroupOf(prefix, key, k))
  }

  lemma GroupOfSnoc<T, K>(s: seq<T>, key: T -> K, x: T, k: K)
    ensures GroupOf(s + [x], key, k) == GroupOf(s, key, k) + (if key(x) == k then [x] else [])
  {
    assert (s + [x])[..|s|] == s;
  }

  lemma FirstSeenSnoc<T, K>(s: seq<T>, key: T -> K, x: T)
    ensures FirstSeen(s + [x], key) == if key(x) in FirstSeen(s, key) then FirstSeen(s, key) else FirstSeen(s, key) + [key(x)]
  {
    assert (s + [x])[..|s|] == s;
  }

  lemma GroupStepSeen<T, K(!new)>(prefix: seq<T>, key: T -> K, order: seq<K>, groups: map<K, seq<T>>, x: T)
    requires GroupInv(prefix, key, order, groups) && key(x) in groups
    ensures GroupInv(prefix + [x], key, order, groups[key(x) := groups[key(x)] + [x]])
  {
    FirstSeenSnoc(prefix, key, x);
    var next := groups[key(x) := groups[key(x)] + [x]];
    forall k | k in next
      ensures next[k] == GroupOf(prefix + [x], key, k)
    {
      GroupOfSnoc(prefix, key, x, k);
    }
  }

  lemma GroupStepNew<T, K(!new)>(prefix: seq<T>, key: T -> K, order: seq<K>, groups: map<K, seq<T>>, x: T)
    requires GroupInv(prefix, key, order, groups) && key(x) !in groups
    ensures GroupInv(prefix + [x], key, order + [key(x)], groups[key(x) := [x]])
  {
    FirstSeenSnoc(prefix, key, x);
    GroupOfUnseen(prefix, key, key(x));
    var next := groups[key(x) := [x]];
    forall k | k in next
      ensures next[k] == GroupOf(prefix + [x], key, k)
    {
      GroupOfSnoc(prefix, key, x, k);
    }
  }

  /**
   * `grouped[key(x)] = (grouped[key(x)] || []).concat([x])` over s: the
   * dictionary of groups, with its keys in insertion order.
   */
  method GroupBy<T, K(==,!new)>(s: seq<T>, key: T -> K) returns (order: seq<K>, groups: map<K, seq<T>>)
    ensures order == FirstSeen(s, key)
    ensures forall k :: k in groups <==> k in order
    ensures forall k :: k in groups ==> groups[k] == GroupOf(s, key, k)
  {
    order, groups := [], map[];
    var i := 0;
    while i < |s|
      invariant 0 <= i <= |s|
      invariant GroupInv(s[..i], key, order, groups)
    {
      var x := s[i];
      var k := key(x);
      assert s[..i + 1] == s[..i] + [x];
      if k in groups {
        GroupStepSeen(s[..i], key, order, groups, x);
        groups := groups[k := groups[k] + [x]];
      } else {
        GroupStepNew(s[..i], key, order, groups, x);
        order, groups := order + [k], groups[k := [x]];
      }
      i := i + 1;
    }
    assert s[..i] == s;
  }

  // ------------------------------------------------------------ counters

  function SumNat(s: seq<nat>): nat
  {
    if s == [] then 0 else SumNat(s[..|s| - 1]) + s[|s| - 1]
  }

  lemma ScaleStep(n: nat, k: nat)
    ensures (n + 1) * k == n * k + k
  {
  }

  lemma {:induction false} SumNatBounds(s: seq<nat>, lo: nat, hi: nat)
    requires forall i :: 0 <= i < |s| ==> lo <= s[i] <= hi
    ensures |s| * lo <= SumNat(s) <= |s| * hi
  {
    if s != [] {
      var p := s[..|s| - 1];
      SumNatBounds(p, lo, hi);
      var total, last := SumNat(p), s[|s| - 1];
      assert SumNat(s) == total + last;
      assert |p| * lo <= total <= |p| * hi;
      ScaleStep(|p|, lo);
      ScaleStep(|p|, hi);
    }
  }

  lemma {:induction false} SumNatUpdate(s: seq<nat>, j: nat, v: nat)
    requires j < |s|
    ensures SumNat(s[j := v]) + s[j] == SumNat(s) + v
  {
    if j < |s| - 1 {
      SumNatUpdate(s[..|s| - 1], j, v);
      assert s[j := v][..|s| - 1] == s[..|s| - 1][j := v];
    } else {
      assert s[j := v][..|s| - 1] == s[..|s| - 1];
    }
  }

  /** The counter values in key insertion order: `Object.values(counts)`. */
  function ValuesOf<K>(keys: seq<K>, counts: map<K, nat>): (r: seq<nat>)
    requires forall k :: k in keys ==> k in counts
    ensures |r| == |keys|
  {
    seq(|keys|, i requires 0 <= i < |keys| => counts[keys[i]])
  }

  lemma ValuesBump<K>(keys: seq<K>, counts: map<K, nat>, j: nat)
    requires forall k :: k in keys ==> k in counts
    requires forall a, b :: 0 <= a < b < |keys| ==> keys[a] != keys[b]
    requires j < |keys|
    ensures ValuesOf(keys, counts[keys[j] := counts[keys[j]] + 1])
         == ValuesOf(keys, counts)[j := counts[keys[j]] + 1]
  {
  }

  /** Bumping one counter adds one to the sum of the values. */
  lemma ValuesBumpSum<K>(keys: seq<K>, counts: map<K, nat>, j: nat)
    requires forall k :: k in keys ==> k in counts
    requires forall a, b :: 0 <= a < b < |keys| ==> keys[a] != keys[b]
    requires j < |keys|
    ensures SumNat(ValuesOf(keys, counts[keys[j] := counts[keys[j]] + 1])) == SumNat(ValuesOf(keys, counts)) + 1
  {
    var vals := ValuesOf(keys, counts);
    ValuesBump(keys, counts, j);
    SumNatUpdate(vals, j, counts[keys[j]] + 1);
  }

  lemma ValuesAppend<K>(keys: seq<K>, counts: map<K, nat>, k: K)
    requires forall x :: x in keys ==> x in counts
    requires k !in keys
    ensures ValuesOf(keys + [k], counts[k := 1]) == ValuesOf(keys, counts) + [1]
  {
  }

  /** Each key's counter is its number of occurrences so far. */
  ghost predicate CountsMatch<K>(counts: map<K, nat>, seen: multiset<K>)
  {
    forall k :: k in counts ==> counts[k] == seen[k] && counts[k] >= 1
  }

  lemma CountsBump<K>(counts: map<K, nat>, seen: multiset<K>, k: K)
    requires CountsMatch(counts, seen) && k in counts
    ensures CountsMatch(counts[k := counts[k] + 1], seen + multiset{k})
  {
  }

  lemma CountsNew<K>(counts: map<K, nat>, seen: multiset<K>, k: K)
    requires CountsMatch(counts, seen) && k !in seen
    ensures CountsMatch(counts[k := 1], seen + multiset{k})
  {
  }

  lemma SumNatAppend(s: seq<nat>, v: nat)
    ensures SumNat(s + [v]) == SumNat(s) + v
  {
    assert (s + [v])[..|s|] == s;
  }

  /** What `Tally` knows after reading `prefix`. */
  ghost predicate TallyInv<K(!new)>(keys: seq<K>, counts: map<K, nat>, prefix: seq<K>)
  {
    && (forall a, b :: 0 <= a < b < |keys| ==> keys[a] != keys[b])
    && (forall k :: k in keys <==> k in prefix)
    && (forall k :: k in counts <==> k in keys)
    && CountsMatch(counts, multiset(prefix))
    && SumNat(ValuesOf(keys, counts)) == |prefix|
  }

  lemma TallyBump<K(!new)>(keys: seq<K>, counts: map<K, nat>, prefix: seq<K>, k: K)
    requires TallyInv(keys, counts, prefix) && k in counts
    ensures TallyInv(keys, counts[k := counts[k] + 1], prefix + [k])
  {
    var j :| 0 <= j < |keys| && keys[j] == k;
    var counts', prefix' := counts[k := counts[k] + 1], prefix + [k];
    assert forall x :: x in prefix' <==> x in prefix || x == k;
    assert forall x :: x in counts' <==> x in counts;
    ValuesBumpSum(keys, counts, j);
    assert SumNat(ValuesOf(keys, counts')) == |prefix'|;
    CountsBump(counts, multiset(prefix), k);
    assert multiset(prefix') == multiset(prefix) + multiset{k};
    assert CountsMatch(counts', multiset(prefix'));
  }

  lemma TallyNew<K(!new)>(keys: seq<K>, counts: map<K, nat>, prefix: seq<K>, k: K)
    requires TallyInv(keys, counts, prefix) && k !in counts
    ensures TallyInv(keys + [k], counts[k := 1], prefix + [k])
  {
    ValuesAppend(keys, counts, k);
    SumNatAppend(ValuesOf(keys, counts), 1);
    CountsNew(counts, multiset(prefix), k);
  }

  /** The distinct labels of `s` in order of first appearance. */
  function Distinct<K(==,!new)>(s: seq<K>): (r: seq<K>)
    ensures |r| <= |s|
    ensures forall i, j :: 0 <= i < j < |r| ==> r[i] != r[j]
    ensures forall k :: k in r <==> k in s
  {
    if s == [] then []
    else
      var d := Distinct(s[..|s| - 1]);
      assert s == s[..|s| - 1] + [s[|s| - 1]];
      if s[|s| - 1] in d then d else d + [s[|s| - 1]]
  }

  lemma {:induction false} DistinctOfDistinct<K(!new)>(s: seq<K>)
    requires forall i, j :: 0 <= i < j < |s| ==> s[i] != s[j]
    ensures Distinct(s) == s
  {
    if s != [] {
      var init := s[..|s| - 1];
      DistinctOfDistinct(init);
      assert s[|s| - 1] !in init;
      assert s == init + [s[|s| - 1]];
    }
  }

  /** The counter object after reading `s` from the front. */
  function CountMap<K(==,!new)>(s: seq<K>): map<K, nat>
  {
    if s == [] then map[]
    else
      var c := CountMap(s[..|s| - 1]);
      var x := s[|s| - 1];
      if x in c then c[x := c[x] + 1] else c[x := 1]
  }

  lemma {:induction false} TallyOfSeq<K(!new)>(s: seq<K>)
    ensures TallyInv(Distinct(s), CountMap(s), s)
  {
    if s != [] {
      var p, x := s[..|s| - 1], s[|s| - 1];
      TallyOfSeq(p);
      assert s == p + [x];
      if x in CountMap(p) {
        TallyBump(Distinct(p), CountMap(p), p, x);
      } else {
        TallyNew(Distinct(p), CountMap(p), p, x);
      }
    }
  }

  /** `Object.values` of the counter object: each distinct label's count, in first-seen order. */
  function Counts<K(==,!new)>(labels: seq<K>): (r: seq<nat>)
    ensures |r| == |Distinct(labels)|
    ensures SumNat(r) == |labels|
    ensures forall i :: 0 <= i < |r| ==> r[i] == multiset(labels)[Distinct(labels)[i]] && r[i] >= 1
  {
    TallyOfSeq(labels);
    ValuesOf(Distinct(labels), CountMap(labels))
  }

  /** The keys of the counter are exactly the labels seen. */
  lemma {:induction false} CountMapDomain<K(!new)>(s: seq<K>)
    ensures forall k :: k in CountMap(s) <==> k in s
  {
    if s != [] {
      var p := s[..|s| - 1];
      CountMapDomain(p);
      assert s == p + [s[|s| - 1]];
    }
  }

  /** One turn of the counting loop: a new label is appended to the keys and counted once, a known one is bumped. */
  lemma TallyStep<K(!new)>(labels: seq<K>, i: nat)
    requires i < |labels|
    ensures var p, x := labels[..i], labels[i];
      && (x in CountMap(p) <==> x in Distinct(p))
      && Distinct(labels[..i + 1]) == (if x in Distinct(p) then Distinct(p) else Distinct(p) + [x])
      && CountMap(labels[..i + 1]) == (if x in CountMap(p) then CountMap(p)[x := CountMap(p)[x] + 1] else CountMap(p)[x := 1])
  {
    var p, q := labels[..i], labels[..i + 1];
    assert q[..|q| - 1] == p && q[|q| - 1] == labels[i];
    CountMapDomain(p);
  }

  lemma TallyResult<K(!new)>(labels: seq<K>)
    ensures var keys, counts := Distinct(labels), CountMap(labels);
      && (forall k :: k in counts <==> k in labels)
      && (forall k :: k in counts ==> counts[k] == multiset(labels)[k] && counts[k] >= 1)
      && SumNat(ValuesOf(keys, counts)) == |labels|
      && ValuesOf(keys, counts) == Counts(labels)
  {
    TallyOfSeq(labels);
  }

  /**
   * Counts the occurrences of each label. `keys` records the order in which
   * the keys were first added, as object keys do.
   */
  method Tally<K(==,!new)>(labels: seq<K>) returns (keys: seq<K>, counts: map<K, nat>)
    ensures forall i, j :: 0 <= i < j < |keys| ==> keys[i] != keys[j]
    ensures forall k :: k in keys <==> k in labels
    ensures forall k :: k in counts <==> k in labels
    ensures forall k :: k in counts ==> counts[k] == multiset(labels)[k] && counts[k] >= 1
    ensures SumNat(ValuesOf(keys, counts)) == |labels|
    ensures keys == Distinct(labels) && ValuesOf(keys, counts) == Counts(labels)
  {
    keys, counts := [], map[];
    var i := 0;
    while i < |labels|
      invariant 0 <= i <= |labels|
      invariant keys == Distinct(labels[..i]) && counts == CountMap(labels[..i])
    {
      var lab := labels[i];
      TallyStep(labels, i);
      if lab in counts {
        counts := counts[lab := counts[lab] + 1];
      } else {
        keys, counts := keys + [lab], counts[lab := 1];
      }
      i := i + 1;
    }
    assert labels[..i] == labels;
    TallyResult(labels);
  }
}
