/** The reporting pipeline shared by the analytics and admin views:
    `rows.reduce((acc, row) => { acc[key] = (acc[key] || 0) + weight; ... }, {})`
    into an object, `Object.entries`, a sort by descending count, and a
    `slice(0, n)`. The object is modelled by its entries in key insertion
    order. */
module Grouping {

  /** One `[key, count]` entry of the grouped object. */
  datatype KeyCount = KeyCount(key: string, count: nat)

  /** A row reduced to the key it is grouped by and the weight it adds. */
  type Item = (string, nat)

  // ----- the reference fold -----

  /** Adds `w` to the entry for `key`, appending a new entry for a new key. */
  function Bump(acc: seq<KeyCount>, key: string, w: nat): (r: seq<KeyCount>)
    decreases |acc|
  {
    if acc == [] then [KeyCount(key, w)]
    else if acc[0].key == key then [KeyCount(key, acc[0].count + w)] + acc[1..]
    else [acc[0]] + Bump(acc[1..], key, w)
  }

  /** The grouped entries after reducing every item, first to last. */
  function Tally(items: seq<Item>): seq<KeyCount>
    decreases |items|
  {
    if items == [] then [] else
    var n := |items| - 1;
    Bump(Tally(items[..n]), items[n].0, items[n].1)
  }

  /** The keys of a list of entries, in order. */
  function Keys(acc: seq<KeyCount>): (r: seq<string>)
    ensures |r| == |acc| && forall j :: 0 <= j < |acc| ==> r[j] == acc[j].key
    decreases |acc|
  {
    if acc == [] then [] else [acc[0].key] + Keys(acc[1..])
  }

  /** The keys carried by a list of items, in order. */
  function ItemKeys(items: seq<Item>): (r: seq<string>)
    ensures |r| == |items| && forall i :: 0 <= i < |items| ==> r[i] == items[i].0
  {
    seq(|items|, i requires 0 <= i < |items| => items[i].0)
  }

  predicate NoDuplicates(s: seq<string>) {
    forall i, j :: 0 <= i < j < |s| ==> s[i] != s[j]
  }

  /** The count recorded for `k`: that of its first entry, 0 when absent
      (`acc[k] || 0`). */
  function CountOf(acc: seq<KeyCount>, k: string): nat
    decreases |acc|
  {
    if acc == [] then 0 else if acc[0].key == k then acc[0].count else CountOf(acc[1..], k)
  }

  /** Sum of the weights of the items with key `k`. */
  function SumFor(items: seq<Item>, k: string): nat
    decreases |items|
  {
    if items == [] then 0 else
    var n := |items| - 1;
    SumFor(items[..n], k) + (if items[n].0 == k then items[n].1 else 0)
  }

  /** Sum of all weights. */
  function Weight(items: seq<Item>): nat
    decreases |items|
  {
    if items == [] then 0 else Weight(items[..|items| - 1]) + items[|items| - 1].1
  }

  /** Sum of all counts of a list of entries. */
  function Total(acc: seq<KeyCount>): nat
    decreases |acc|
  {
    if acc == [] then 0 else acc[0].count + Total(acc[1..])
  }

  // ----- one step of the fold -----

  /** A step keeps the keys, appending `key` when it is new. */
  lemma {:induction false} BumpKeys(acc: seq<KeyCount>, key: string, w: nat)
    ensures Keys(Bump(acc, key, w)) == if key in Keys(acc) then Keys(acc) else Keys(acc) + [key]
    decreases |acc|
  {
    if acc != [] && acc[0].key != key {
      BumpKeys(acc[1..], key, w);
      assert Keys(acc) == [acc[0].key] + Keys(acc[1..]);
      assert key in Keys(acc) <==> key in Keys(acc[1..]);
    }
  }

  /** A step adds `w` to the count of `key` and to no other count. */
  lemma {:induction false} BumpCount(acc: seq<KeyCount>, key: string, w: nat, k: string)
    ensures CountOf(Bump(acc, key, w), k) == CountOf(acc, k) + (if k == key then w else 0)
    decreases |acc|
  {
    if acc != [] && acc[0].key != key {
      BumpCount(acc[1..], key, w, k);
    }
  }

  /** A step adds `w` to the total. */
  lemma {:induction false} BumpTotal(acc: seq<KeyCount>, key: string, w: nat)
    ensures Total(Bump(acc, key, w)) == Total(acc) + w
    decreases |acc|
  {
    if acc != [] && acc[0].key != key {
      BumpTotal(acc[1..], key, w);
    }
  }

  lemma AppendFresh(s: seq<string>, k: string)
    requires NoDuplicates(s) && k !in s
    ensures NoDuplicates(s + [k])
  {
  }

  /** With distinct keys, each entry holds the count recorded for its key. */
  lemma {:induction false} CountOfEntry(acc: seq<KeyCount>, j: nat)
    requires NoDuplicates(Keys(acc)) && j < |acc|
    ensures CountOf(acc, acc[j].key) == acc[j].count
    decreases |acc|
  {
    if j > 0 {
      assert Keys(acc)[0] != Keys(acc)[j];
      assert NoDuplicates(Keys(acc[1..])) by {
        forall a, b | 0 <= a < b < |acc| - 1 ensures Keys(acc[1..])[a] != Keys(acc[1..])[b] {
          assert Keys(acc)[a + 1] != Keys(acc)[b + 1];
        }
      }
      CountOfEntry(acc[1..], j - 1);
    }
  }

  // ----- what the fold computes -----

  /** The grouped keys are distinct and are exactly the keys of the items. */
  lemma {:induction false} TallyKeys(items: seq<Item>)
    ensures NoDuplicates(Keys(Tally(items)))
    ensures forall k :: k in Keys(Tally(items)) <==> k in ItemKeys(items)
    decreases |items|
  {
    if items != [] {
      var n := |items| - 1;
      TallyKeys(items[..n]);
      BumpKeys(Tally(items[..n]), items[n].0, items[n].1);
      assert ItemKeys(items) == ItemKeys(items[..n]) + [items[n].0];
      if items[n].0 !in Keys(Tally(items[..n])) {
        AppendFresh(Keys(Tally(items[..n])), items[n].0);
      }
    }
  }

  /** Each key's count is the sum of the weights of its items. */
  lemma {:induction false} TallyCounts(items: seq<Item>, k: string)
    ensures CountOf(Tally(items), k) == SumFor(items, k)
    decreases |items|
  {
    if items != [] {
      var n := |items| - 1;
      TallyCounts(items[..n], k);
      BumpCount(Tally(items[..n]), items[n].0, items[n].1, k);
    }
  }

  /** The counts add up to the weight of all items. */
  lemma {:induction false} TallyTotal(items: seq<Item>)
    ensures Total(Tally(items)) == Weight(items)
    decreases |items|
  {
    if items != [] {
      var n := |items| - 1;
      TallyTotal(items[..n]);
      BumpTotal(Tally(items[..n]), items[n].0, items[n].1);
    }
  }

  /** The grouped entries, one per distinct item key, each holding the sum
      of its items' weights, together holding the weight of all items. */
  lemma TallySpec(items: seq<Item>)
    ensures NoDuplicates(Keys(Tally(items)))
    ensures forall k :: k in Keys(Tally(items)) <==> k in ItemKeys(items)
    ensures forall j :: 0 <= j < |Tally(items)| ==> Tally(items)[j].count == SumFor(items, Tally(items)[j].key)
    ensures Total(Tally(items)) == Weight(items)
  {
    TallyKeys(items);
    TallyTotal(items);
    forall j | 0 <= j < |Tally(items)| ensures Tally(items)[j].count == SumFor(items, Tally(items)[j].key) {
      CountOfEntry(Tally(items), j);
      TallyCounts(items, Tally(items)[j].key);
    }
  }

  // ----- the imperative fold -----

  /** The accumulator object (`counts`, with its keys in insertion order
      `order`) holds the same entries as `acc`. */
  ghost predicate Mirrors(order: seq<string>, counts: map<string, nat>, acc: seq<KeyCount>) {
    && order == Keys(acc)
    && (forall k :: k in counts <==> k in order)
    && (forall k :: k in counts ==> counts[k] == CountOf(acc, k))
  }

  /** `acc[k] = (acc[k] || 0) + w` on the object matches one step of `Bump`. */
  lemma MirrorsStep(order: seq<string>, counts: map<string, nat>, acc: seq<KeyCount>, k: string, w: nat)
    requires Mirrors(order, counts, acc)
    ensures Mirrors(if k in counts then order else order + [k],
                    counts[k := (if k in counts then counts[k] else 0) + w],
                    Bump(acc, k, w))
  {
    BumpKeys(acc, k, w);
    var order' := if k in counts then order else order + [k];
    var counts' := counts[k := (if k in counts then counts[k] else 0) + w];
    var acc' := Bump(acc, k, w);
    assert order' == Keys(acc');
    forall k' ensures k' in counts' <==> k' in order' {
      assert k' in order' <==> k' in order || k' == k;
    }
    forall k' | k' in counts' ensures counts'[k'] == CountOf(acc', k') {
      BumpCount(acc, k, w, k');
      if k' == k && k !in counts {
        assert k !in Keys(acc);
        CountOfAbsent(acc, k);
      }
    }
  }

  lemma {:induction false} CountOfAbsent(acc: seq<KeyCount>, k: string)
    requires k !in Keys(acc)
    ensures CountOf(acc, k) == 0
    decreases |acc|
  {
    if acc != [] {
      assert Keys(acc)[0] == acc[0].key;
      assert Keys(acc[1..]) == Keys(acc)[1..];
      CountOfAbsent(acc[1..], k);
    }
  }

  /** `Object.entries` of the object lists exactly the entries of `acc`. */
  lemma MirrorsEntries(order: seq<string>, counts: map<string, nat>, acc: seq<KeyCount>)
    requires Mirrors(order, counts, acc) && NoDuplicates(Keys(acc))
    ensures seq(|order|, j requires 0 <= j < |order| => KeyCount(order[j], counts[order[j]])) == acc
  {
    var e := seq(|order|, j requires 0 <= j < |order| => KeyCount(order[j], counts[order[j]]));
    forall j | 0 <= j < |e| ensures e[j] == acc[j] {
      CountOfEntry(acc, j);
    }
  }

  /** The `reduce` over a mutable accumulator object: a map from key to
      running total plus the order in which keys were first inserted, which
      `Object.entries` reports. Proved to compute `Tally`. */
  method GroupSum(items: seq<Item>) returns (entries: seq<KeyCount>)
    ensures entries == Tally(items)
  {
    var counts: map<string, nat> := map[];
    var order: seq<string> := [];
    var i := 0;
    while i < |items|
      invariant 0 <= i <= |items|
      invariant Mirrors(order, counts, Tally(items[..i]))
    {
      var k, w := items[i].0, items[i].1;
      assert items[..i + 1][..i] == items[..i];
      MirrorsStep(order, counts, Tally(items[..i]), k, w);
      // `acc[k] = (acc[k] || 0) + w`; a new key also joins the insertion order.
      order := if k in counts then order else order + [k];
      counts := counts[k := (if k in counts then counts[k] else 0) + w];
      i := i + 1;
    }
    assert items[..i] == items;
    TallyKeys(items);
    MirrorsEntries(order, counts, Tally(items));
    entries := seq(|order|, j requires 0 <= j < |order| => KeyCount(order[j], counts[order[j]]));
  }

  // ----- ordering and truncation -----

  /** Counts never increase along the list. */
  predicate NonIncreasing(s: seq<KeyCount>) {
    forall i, j :: 0 <= i < j < |s| ==> s[i].count >= s[j].count
  }

  /** Inserts `x` before the first entry with a count not above its own, so
      equal counts keep their input order (a stable sort). */
  function InsertDesc(x: KeyCount, s: seq<KeyCount>): (r: seq<KeyCount>)
    ensures |r| == |s| + 1
    decreases |s|
  {
    if s == [] || s[0].count <= x.count then [x] + s else [s[0]] + InsertDesc(x, s[1..])
  }

  /** `entries.sort((a, b) => b.count - a.count)`. */
  function SortDesc(s: seq<KeyCount>): (r: seq<KeyCount>)
    ensures |r| == |s|
    decreases |s|
  {
    if s == [] then [] else InsertDesc(s[0], SortDesc(s[1..]))
  }

  lemma {:induction false} InsertDescPerm(x: KeyCount, s: seq<KeyCount>)
    ensures multiset(InsertDesc(x, s)) == multiset(s) + multiset{x}
    decreases |s|
  {
    if !(s == [] || s[0].count <= x.count) {
      InsertDescPerm(x, s[1..]);
      assert s == [s[0]] + s[1..];
    }
  }

  /** An upper bound on `x` and on `s` bounds the result of inserting. */
  lemma {:induction false} InsertDescBound(x: KeyCount, s: seq<KeyCount>, b: nat)
    requires x.count <= b && forall j :: 0 <= j < |s| ==> s[j].count <= b
    ensures forall j :: 0 <= j < |s| + 1 ==> InsertDesc(x, s)[j].count <= b
    decreases |s|
  {
    if !(s == [] || s[0].count <= x.count) {
      InsertDescBound(x, s[1..], b);
    }
  }

  lemma {:induction false} InsertDescSorted(x: KeyCount, s: seq<KeyCount>)
    requires NonIncreasing(s)
    ensures NonIncreasing(InsertDesc(x, s))
    decreases |s|
  {
    if !(s == [] || s[0].count <= x.count) {
      InsertDescSorted(x, s[1..]);
      InsertDescBound(x, s[1..], s[0].count);
    }
  }

  /** The sort orders by non-increasing count and is a permutation. */
  lemma {:induction false} SortDescSpec(s: seq<KeyCount>)
    ensures NonIncreasing(SortDesc(s))
    ensures multiset(SortDesc(s)) == multiset(s)
    decreases |s|
  {
    if s != [] {
      SortDescSpec(s[1..]);
      InsertDescSorted(s[0], SortDesc(s[1..]));
      InsertDescPerm(s[0], SortDesc(s[1..]));
      assert s == [s[0]] + s[1..];
    }
  }

  function Min(a: nat, b: nat): nat {
    if a < b then a else b
  }

  /** `.sort((a, b) => b.count - a.count).slice(0, n)`. */
  function TopN(s: seq<KeyCount>, n: nat): seq<KeyCount> {
    SortDesc(s)[..Min(n, |s|)]
  }

  /** The top-`n` list is sorted by non-increasing count, holds
      `min(n, |s|)` entries drawn from `s`, and every entry it drops counts
      no more than any entry it keeps. */
  lemma TopNSpec(s: seq<KeyCount>, n: nat)
    ensures NonIncreasing(TopN(s, n))
    ensures |TopN(s, n)| == Min(n, |s|) && |TopN(s, n)| <= n
    ensures multiset(TopN(s, n)) <= multiset(s)
    ensures forall x, y :: x in TopN(s, n) && y in multiset(s) - multiset(TopN(s, n)) ==> x.count >= y.count
  {
    var t := SortDesc(s);
    SortDescSpec(s);
    var m := Min(n, |s|);
    SplitMultiset(t, m);
    forall x, y | x in t[..m] && y in multiset(s) - multiset(t[..m]) ensures x.count >= y.count {
      SortedSplit(t, m, x, y);
    }
  }

  lemma SplitMultiset(t: seq<KeyCount>, m: nat)
    requires m <= |t|
    ensures multiset(t) == multiset(t[..m]) + multiset(t[m..])
  {
    assert t == t[..m] + t[m..];
  }

  /** In a sorted list, anything in the head counts at least as much as
      anything in the tail. */
  lemma SortedSplit(t: seq<KeyCount>, m: nat, x: KeyCount, y: KeyCount)
    requires NonIncreasing(t) && m <= |t| && x in t[..m] && y in t[m..]
    ensures x.count >= y.count
  {
    var i :| 0 <= i < m && t[..m][i] == x;
    var j :| 0 <= j < |t[m..]| && t[m..][j] == y;
    assert t[i] == x && t[m + j] == y;
  }

  // ----- the ranked tally -----

  /** No two entries share a key. */
  predicate DistinctKeys(s: seq<KeyCount>) {
    forall i, j :: 0 <= i < j < |s| ==> s[i].key != s[j].key
  }

  lemma {:induction false} InsertDescDistinct(x: KeyCount, s: seq<KeyCount>)
    requires DistinctKeys(s) && forall j :: 0 <= j < |s| ==> s[j].key != x.key
    ensures DistinctKeys(InsertDesc(x, s))
    decreases |s|
  {
    if !(s == [] || s[0].count <= x.count) {
      InsertDescDistinct(x, s[1..]);
      InsertDescPerm(x, s[1..]);
      var r := InsertDesc(x, s[1..]);
      forall j | 0 <= j < |r| ensures r[j].key != s[0].key {
        assert r[j] in multiset(s[1..]) + multiset{x};
      }
    }
  }

  /** Sorting keeps keys distinct. */
  lemma {:induction false} SortDescDistinct(s: seq<KeyCount>)
    requires DistinctKeys(s)
    ensures DistinctKeys(SortDesc(s))
    decreases |s|
  {
    if s != [] {
      SortDescDistinct(s[1..]);
      SortDescSpec(s[1..]);
      var t := SortDesc(s[1..]);
      forall j | 0 <= j < |t| ensures t[j].key != s[0].key {
        assert t[j] in multiset(s[1..]);
      }
      InsertDescDistinct(s[0], t);
    }
  }

  /** The top `n` are drawn from the input and keep its keys distinct. */
  lemma TopNMembers(s: seq<KeyCount>, n: nat)
    ensures forall x :: x in TopN(s, n) ==> x in s
    ensures DistinctKeys(s) ==> DistinctKeys(TopN(s, n))
  {
    TopNSpec(s, n);
    forall x | x in TopN(s, n) ensures x in s {
      assert x in multiset(s);
    }
    if DistinctKeys(s) {
      SortDescDistinct(s);
    }
  }

  /** Each entry of a tally is a key of the items with their total weight,
      and no key has two entries. */
  lemma TallyEntries(items: seq<Item>)
    ensures DistinctKeys(Tally(items))
    ensures forall x :: x in Tally(items) ==> x.key in ItemKeys(items) && x.count == SumFor(items, x.key)
  {
    var acc := Tally(items);
    TallySpec(items);
    forall i, j | 0 <= i < j < |acc| ensures acc[i].key != acc[j].key {
      assert Keys(acc)[i] == acc[i].key && Keys(acc)[j] == acc[j].key;
    }
    forall x | x in acc ensures x.key in ItemKeys(items) && x.count == SumFor(items, x.key) {
      var j :| 0 <= j < |acc| && acc[j] == x;
      assert Keys(acc)[j] == x.key;
    }
  }

  /** The top `n` of a tally are sorted, number `min(n, keys)`, carry no key
      twice, each carry the total weight of the items with their key, and
      none left out outweighs one kept. */
  lemma RankedTally(items: seq<Item>, n: nat)
    ensures NonIncreasing(TopN(Tally(items), n))
    ensures |TopN(Tally(items), n)| == Min(n, |Tally(items)|)
    ensures DistinctKeys(TopN(Tally(items), n))
    ensures forall x :: x in TopN(Tally(items), n) ==> x.key in ItemKeys(items) && x.count == SumFor(items, x.key)
    ensures forall x, y :: x in TopN(Tally(items), n) && y in Tally(items) && y !in TopN(Tally(items), n) ==>
      x.count >= y.count
  {
    var acc := Tally(items);
    var t := TopN(acc, n);
    TallyEntries(items);
    TopNMembers(acc, n);
    TopNSpec(acc, n);
    forall x, y | x in t && y in acc && y !in t ensures x.count >= y.count {
      assert y in multiset(acc) - multiset(t);
    }
  }

  /** A list without repeats has as many distinct members as entries. */
  lemma {:induction false} DistinctCard(s: seq<string>)
    requires NoDuplicates(s)
    ensures |set x | x in s| == |s|
    decreases |s|
  {
    if s != [] {
      DistinctCard(s[1..]);
      assert (set x | x in s) == {s[0]} + (set x | x in s[1..]);
      assert s[0] !in (set x | x in s[1..]);
    }
  }

  /** The number of distinct keys among the items is the number of entries
      of their tally. */
  lemma DistinctKeyCount(items: seq<Item>)
    ensures |set i | 0 <= i < |items| :: items[i].0| == |Tally(items)|
  {
    TallyKeys(items);
    var ks := Keys(Tally(items));
    DistinctCard(ks);
    assert (set i | 0 <= i < |items| :: items[i].0) == (set x | x in ks) by {
      forall k ensures k in (set i | 0 <= i < |items| :: items[i].0) <==> k in ks {
        assert k in ItemKeys(items) <==> exists i :: 0 <= i < |items| && items[i].0 == k;
      }
    }
  }
}
