/**
 * The keyed accumulator the source builds with `acc[key] = (acc[key] || 0) + amount`
 * (utils.ts, Analytics.tsx). A JavaScript object whose keys are not integer-like lists its
 * entries in insertion order, so the accumulator is a sequence of groups in the order in
 * which their keys first appeared.
 */
module Grouping {
  import opened Sorting

  /** One accumulator entry: the sum of the amounts added under `key` and how many there were. */
  datatype Group<K> = Group(key: K, total: real, count: nat)

  function Keys<K>(gs: seq<Group<K>>): (ks: seq<K>)
    ensures |ks| == |gs|
    ensures forall i :: 0 <= i < |gs| ==> ks[i] == gs[i].key
  {
    seq(|gs|, i requires 0 <= i < |gs| => gs[i].key)
  }

  function ItemKeys<K>(items: seq<(K, real)>): (ks: seq<K>)
    ensures |ks| == |items|
    ensures forall i :: 0 <= i < |items| ==> ks[i] == items[i].0
  {
    seq(|items|, i requires 0 <= i < |items| => items[i].0)
  }

  ghost predicate Distinct<K>(s: seq<K>)
  {
    forall i, j :: 0 <= i < j < |s| ==> s[i] != s[j]
  }

  /** The keys of `ks` without repetitions, each where it first occurs. */
  function FirstAppearances<K(==)>(ks: seq<K>): (r: seq<K>)
    ensures forall i :: 0 <= i < |ks| ==> ks[i] in r
    ensures forall i :: 0 <= i < |r| ==> r[i] in ks
    ensures Distinct(r)
  {
    if |ks| == 0 then []
    else
      var n := |ks| - 1;
      var r0 := FirstAppearances(ks[..n]);
      assert ks == ks[..n] + [ks[n]];
      if ks[n] in r0 then r0 else r0 + [ks[n]]
  }

  /** Position of the group holding `k`, or `|gs|` when there is none. */
  function IndexOfKey<K(==)>(gs: seq<Group<K>>, k: K): (i: nat)
    ensures i <= |gs|
    ensures i < |gs| ==> gs[i].key == k
    ensures forall j :: 0 <= j < i ==> gs[j].key != k
  {
    if |gs| == 0 then 0
    else if gs[0].key == k then 0
    else 1 + IndexOfKey(gs[1..], k)
  }

  /** `acc[k] = (acc[k] || 0) + amount`: update the group of `k` in place, or append a new one. */
  function AddTo<K(==)>(gs: seq<Group<K>>, k: K, amount: real): (r: seq<Group<K>>)
    ensures |gs| <= |r| <= |gs| + 1
    ensures |r| == |gs| + 1 ==> r[|gs|] == Group(k, amount, 1)
  {
    var i := IndexOfKey(gs, k);
    if i < |gs| then gs[i := Group(k, gs[i].total + amount, gs[i].count + 1)]
    else gs + [Group(k, amount, 1)]
  }

  /** The accumulator after adding every `(key, amount)` item in order. */
  function GroupAll<K(==)>(items: seq<(K, real)>): (r: seq<Group<K>>)
    ensures |r| <= |items|
    ensures |items| > 0 ==> |r| > 0
  {
    if |items| == 0 then []
    else
      var n := |items| - 1;
      AddTo(GroupAll(items[..n]), items[n].0, items[n].1)
  }

  /** Sum of the amounts of the items whose key is `k`. */
  function SumFor<K(==)>(items: seq<(K, real)>, k: K): real
  {
    if |items| == 0 then 0.0
    else
      var n := |items| - 1;
      SumFor(items[..n], k) + (if items[n].0 == k then items[n].1 else 0.0)
  }

  /** Number of items whose key is `k`. */
  function CountFor<K(==)>(items: seq<(K, real)>, k: K): nat
  {
    if |items| == 0 then 0
    else
      var n := |items| - 1;
      CountFor(items[..n], k) + (if items[n].0 == k then 1 else 0)
  }

  function SumAll<K>(items: seq<(K, real)>): real
  {
    if |items| == 0 then 0.0 else SumAll(items[..|items| - 1]) + items[|items| - 1].1
  }

  function TotalOf<K>(gs: seq<Group<K>>): real
  {
    if |gs| == 0 then 0.0 else gs[0].total + TotalOf(gs[1..])
  }

  function CountOf<K>(gs: seq<Group<K>>): int
  {
    if |gs| == 0 then 0 else gs[0].count + CountOf(gs[1..])
  }

  /** The total kept under `k`, 0 when `k` has no group (the `|| 0` of the source). */
  function TotalAt<K(==)>(gs: seq<Group<K>>, k: K): real
  {
    var i := IndexOfKey(gs, k);
    if i < |gs| then gs[i].total else 0.0
  }

  function CountAt<K(==)>(gs: seq<Group<K>>, k: K): nat
  {
    var i := IndexOfKey(gs, k);
    if i < |gs| then gs[i].count else 0
  }

  // ---------------------------------------------------------------------------
  // One step of the accumulator

  lemma {:induction false} AddToKeys<K>(gs: seq<Group<K>>, k: K, amount: real)
    ensures Keys(AddTo(gs, k, amount)) == if k in Keys(gs) then Keys(gs) else Keys(gs) + [k]
  {
    var i := IndexOfKey(gs, k);
    if i < |gs| {
      assert k in Keys(gs) by { assert Keys(gs)[i] == k; }
    } else {
      assert k !in Keys(gs);
    }
  }

  /** Adding under `k` raises the total and count of `k` and leaves every other key alone. */
  lemma {:induction false} AddToLookup<K>(gs: seq<Group<K>>, k: K, amount: real, k': K)
    ensures TotalAt(AddTo(gs, k, amount), k') == TotalAt(gs, k') + (if k' == k then amount else 0.0)
    ensures CountAt(AddTo(gs, k, amount), k') == CountAt(gs, k') + (if k' == k then 1 else 0)
  {
    var r := AddTo(gs, k, amount);
    var i := IndexOfKey(gs, k);
    var m := IndexOfKey(gs, k');
    var m' := IndexOfKey(r, k');
    forall j | 0 <= j < |gs| ensures r[j].key == gs[j].key {}
    if k' == k {
      assert m == i;
      if i < |gs| {
        assert m' == i;
      } else {
        assert r[|gs|].key == k;
        assert m' == |gs|;
      }
    } else {
      if m < |gs| {
        assert m' == m;
      } else {
        assert m' == |r|;
      }
    }
  }

  lemma {:induction false} TotalOfAppend<K>(gs: seq<Group<K>>, g: Group<K>)
    ensures TotalOf(gs + [g]) == TotalOf(gs) + g.total
    ensures CountOf(gs + [g]) == CountOf(gs) + g.count
  {
    if |gs| > 0 {
      assert (gs + [g])[1..] == gs[1..] + [g];
      TotalOfAppend(gs[1..], g);
    }
  }

  lemma {:induction false} TotalOfUpdate<K>(gs: seq<Group<K>>, i: nat, g: Group<K>)
    requires i < |gs|
    ensures TotalOf(gs[i := g]) == TotalOf(gs) - gs[i].total + g.total
    ensures CountOf(gs[i := g]) == CountOf(gs) - gs[i].count + g.count
  {
    if i > 0 {
      assert gs[i := g][1..] == gs[1..][i - 1 := g];
      TotalOfUpdate(gs[1..], i - 1, g);
    }
  }

  lemma {:induction false} AddToSums<K>(gs: seq<Group<K>>, k: K, amount: real)
    ensures TotalOf(AddTo(gs, k, amount)) == TotalOf(gs) + amount
    ensures CountOf(AddTo(gs, k, amount)) == CountOf(gs) + 1
  {
    var i := IndexOfKey(gs, k);
    if i < |gs| {
      TotalOfUpdate(gs, i, Group(k, gs[i].total + amount, gs[i].count + 1));
    } else {
      TotalOfAppend(gs, Group(k, amount, 1));
    }
  }

  // ---------------------------------------------------------------------------
  // The whole accumulator

  /** Groups appear in the order in which their keys first occur among the items. */
  lemma {:induction false} GroupAllKeys<K>(items: seq<(K, real)>)
    ensures Keys(GroupAll(items)) == FirstAppearances(ItemKeys(items))
  {
    if |items| > 0 {
      var n := |items| - 1;
      GroupAllKeys(items[..n]);
      assert ItemKeys(items)[..n] == ItemKeys(items[..n]);
      AddToKeys(GroupAll(items[..n]), items[n].0, items[n].1);
    }
  }

  lemma {:induction false} GroupAllLookup<K>(items: seq<(K, real)>, k: K)
    ensures TotalAt(GroupAll(items), k) == SumFor(items, k)
    ensures CountAt(GroupAll(items), k) == CountFor(items, k)
  {
    if |items| > 0 {
      var n := |items| - 1;
      GroupAllLookup(items[..n], k);
      AddToLookup(GroupAll(items[..n]), items[n].0, items[n].1, k);
    }
  }

  lemma {:induction false} GroupAllSums<K>(items: seq<(K, real)>)
    ensures TotalOf(GroupAll(items)) == SumAll(items)
    ensures CountOf(GroupAll(items)) == |items|
  {
    if |items| > 0 {
      var n := |items| - 1;
      GroupAllSums(items[..n]);
      AddToSums(GroupAll(items[..n]), items[n].0, items[n].1);
    }
  }

  /** When no key repeats, the accumulator has one group per item, in item order. */
  lemma {:induction false} GroupAllDistinct<K>(items: seq<(K, real)>)
    requires Distinct(ItemKeys(items))
    ensures GroupAll(items) == seq(|items|, i requires 0 <= i < |items| => Group(items[i].0, items[i].1, 1))
  {
    if |items| > 0 {
      var n := |items| - 1;
      var prefix := items[..n];
      assert ItemKeys(prefix) == ItemKeys(items)[..n];
      GroupAllDistinct(prefix);
    }
  }

  /** The accumulator holds exactly one group per distinct key of the items. */
  lemma {:induction false} GroupAllKeySet<K>(items: seq<(K, real)>)
    ensures Distinct(Keys(GroupAll(items)))
    ensures forall k :: k in Keys(GroupAll(items)) <==> k in ItemKeys(items)
  {
    var ks := ItemKeys(items);
    var r := FirstAppearances(ks);
    GroupAllKeys(items);
    forall k ensures k in r <==> k in ks {
      if k in r {
        var i :| 0 <= i < |r| && r[i] == k;
      }
      if k in ks {
        var i :| 0 <= i < |ks| && ks[i] == k;
      }
    }
  }

  /** Each group carries the sum and the number of its key's items; no amount is lost. */
  lemma {:induction false} GroupAllSpec<K>(items: seq<(K, real)>)
    ensures var gs := GroupAll(items);
      && (forall i :: 0 <= i < |gs| ==>
            gs[i].total == SumFor(items, gs[i].key) && gs[i].count == CountFor(items, gs[i].key))
      && TotalOf(gs) == SumAll(items)
      && CountOf(gs) == |items|
  {
    var gs := GroupAll(items);
    GroupAllSums(items);
    GroupAllKeys(items);
    forall i | 0 <= i < |gs|
      ensures gs[i].total == SumFor(items, gs[i].key) && gs[i].count == CountFor(items, gs[i].key)
    {
      GroupAllLookup(items, gs[i].key);
      var m := IndexOfKey(gs, gs[i].key);
      assert m == i;
    }
  }

  // ---------------------------------------------------------------------------
  // Sorting an accumulator

  lemma {:induction false} InsertKeepsTotals<K>(g: Group<K>, gs: seq<Group<K>>, key: Group<K> -> real)
    ensures TotalOf(Insert(g, gs, key)) == g.total + TotalOf(gs)
    ensures CountOf(Insert(g, gs, key)) == g.count + CountOf(gs)
  {
    if |gs| == 0 || key(g) >= key(gs[0]) {
      assert ([g] + gs)[1..] == gs;
    } else {
      InsertKeepsTotals(g, gs[1..], key);
      assert ([gs[0]] + Insert(g, gs[1..], key))[1..] == Insert(g, gs[1..], key);
    }
  }

  /** Reordering the groups for display keeps the grand totals. */
  lemma {:induction false} SortKeepsTotals<K>(gs: seq<Group<K>>, key: Group<K> -> real)
    ensures TotalOf(SortDesc(gs, key)) == TotalOf(gs)
    ensures CountOf(SortDesc(gs, key)) == CountOf(gs)
  {
    if |gs| > 0 {
      SortKeepsTotals(gs[1..], key);
      InsertKeepsTotals(gs[0], SortDesc(gs[1..], key), key);
    }
  }

  /** Reordering the groups keeps one group per key. */
  lemma {:induction false} SortKeepsDistinctKeys<K>(gs: seq<Group<K>>, key: Group<K> -> real)
    requires Distinct(Keys(gs))
    ensures Distinct(Keys(SortDesc(gs, key)))
  {
    var f := (g: Group<K>) => g.key;
    assert DistinctBy(gs, f) by {
      forall i, j | 0 <= i < j < |gs| ensures f(gs[i]) != f(gs[j]) {
        assert Keys(gs)[i] != Keys(gs)[j];
      }
    }
    SortKeepsDistinct(gs, key, f);
    var r := SortDesc(gs, key);
    forall i, j | 0 <= i < j < |r| ensures Keys(r)[i] != Keys(r)[j] {
      assert f(r[i]) != f(r[j]);
    }
  }

  /** Reordering the groups keeps the same keys and the same group under each key. */
  lemma {:induction false} SortKeepsGroups<K>(gs: seq<Group<K>>, key: Group<K> -> real)
    ensures forall k :: k in Keys(SortDesc(gs, key)) <==> k in Keys(gs)
    ensures forall g :: g in SortDesc(gs, key) <==> g in gs
  {
    var r := SortDesc(gs, key);
    forall g ensures g in r <==> g in gs {
      SortedMembers(gs, key, g);
    }
    forall k ensures k in Keys(r) <==> k in Keys(gs) {
      if k in Keys(r) {
        var m :| 0 <= m < |r| && Keys(r)[m] == k;
        assert r[m] in gs;
        var g :| 0 <= g < |gs| && gs[g] == r[m];
        assert Keys(gs)[g] == k;
      }
      if k in Keys(gs) {
        var g :| 0 <= g < |gs| && Keys(gs)[g] == k;
        assert gs[g] in r;
        var m :| 0 <= m < |r| && r[m] == gs[g];
        assert Keys(r)[m] == k;
      }
    }
  }

  /**
   * A sorted accumulator: one group per distinct key of the items, each holding the sum and
   * the number of that key's amounts; all together they hold every item.
   */
  lemma {:induction false} SortedGroupsSpec<K>(items: seq<(K, real)>, key: Group<K> -> real, gs: seq<Group<K>>)
    requires gs == SortDesc(GroupAll(items), key)
    ensures Distinct(Keys(gs))
    ensures forall k :: k in Keys(gs) <==> k in ItemKeys(items)
    ensures forall i :: 0 <= i < |gs| ==> gs[i].total == SumFor(items, gs[i].key) && gs[i].count == CountFor(items, gs[i].key)
    ensures TotalOf(gs) == SumAll(items) && CountOf(gs) == |items|
  {
    var grouped := GroupAll(items);
    GroupAllKeySet(items);
    GroupAllSpec(items);
    SortKeepsTotals(grouped, key);
    SortKeepsDistinctKeys(grouped, key);
    SortKeepsGroups(grouped, key);
    forall i | 0 <= i < |gs| ensures gs[i].total == SumFor(items, gs[i].key) && gs[i].count == CountFor(items, gs[i].key) {
      assert gs[i] in grouped;
    }
  }
}
