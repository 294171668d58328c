/** The trade history page: the trades kept by the selected filter, newest first. */
module History {
  import opened Types
  import opened Sorting

  /** The filter predicate: 'Wins', 'Losses' and 'Rule Broken' select; 'All' and anything else keep all. */
  predicate Keep(filter: string, t: Trade)
  {
    if filter == "All" then true
    else if filter == "Wins" then t.resultAmount > 0.0
    else if filter == "Losses" then t.resultAmount < 0.0
    else if filter == "Rule Broken" then !t.ruleFollowed
    else true
  }

  /** `trades.filter(...)`, in ledger order. */
  function Selected(trades: seq<Trade>, filter: string): (r: seq<Trade>)
    ensures |r| <= |trades|
    ensures forall t :: t in r <==> t in trades && Keep(filter, t)
  {
    if |trades| == 0 then []
    else
      var n := |trades| - 1;
      var rest := Selected(trades[..n], filter);
      assert trades == trades[..n] + [trades[n]];
      rest + (if Keep(filter, trades[n]) then [trades[n]] else [])
  }

  function NewestFirst(stamp: string -> int): Trade -> real
  {
    (t: Trade) => stamp(t.date) as real
  }

  /** `filteredTrades`: the selected trades sorted by timestamp, newest first. */
  function FilteredTrades(trades: seq<Trade>, filter: string, stamp: string -> int): (r: seq<Trade>)
    ensures |r| <= |trades|
    ensures multiset(r) == multiset(Selected(trades, filter))
    ensures SortedDesc(r, NewestFirst(stamp))
  {
    SortDesc(Selected(trades, filter), NewestFirst(stamp))
  }

  /** Each kept trade is selected as often as it occurs in the ledger, and no other trade is. */
  lemma {:induction false} SelectedCounts(trades: seq<Trade>, filter: string, t: Trade)
    ensures multiset(Selected(trades, filter))[t] == if Keep(filter, t) then multiset(trades)[t] else 0
  {
    if |trades| > 0 {
      var n := |trades| - 1;
      SelectedCounts(trades[..n], filter, t);
      assert trades == trades[..n] + [trades[n]];
    }
  }

  /**
   * The history shows the selected trades, each as often as in the ledger, with newer
   * timestamps first; trades with the same timestamp keep their ledger order.
   */
  lemma {:induction false} FilteredTradesSpec(trades: seq<Trade>, filter: string, stamp: string -> int)
    ensures forall t :: multiset(FilteredTrades(trades, filter, stamp))[t] ==
              if Keep(filter, t) then multiset(trades)[t] else 0
    ensures forall t :: t in FilteredTrades(trades, filter, stamp) <==> t in trades && Keep(filter, t)
    ensures forall i, j :: 0 <= i < j < |FilteredTrades(trades, filter, stamp)| ==>
              stamp(FilteredTrades(trades, filter, stamp)[i].date) >= stamp(FilteredTrades(trades, filter, stamp)[j].date)
    ensures forall v :: WithKey(FilteredTrades(trades, filter, stamp), NewestFirst(stamp), v)
                        == WithKey(Selected(trades, filter), NewestFirst(stamp), v)
  {
    var r := FilteredTrades(trades, filter, stamp);
    forall t ensures multiset(r)[t] == if Keep(filter, t) then multiset(trades)[t] else 0 {
      SelectedCounts(trades, filter, t);
    }
    forall t ensures t in r <==> t in Selected(trades, filter) {
      SortedMembers(Selected(trades, filter), NewestFirst(stamp), t);
    }
    forall i, j | 0 <= i < j < |r| ensures stamp(r[i].date) >= stamp(r[j].date) {
      assert NewestFirst(stamp)(r[i]) >= NewestFirst(stamp)(r[j]);
    }
    forall v ensures WithKey(r, NewestFirst(stamp), v) == WithKey(Selected(trades, filter), NewestFirst(stamp), v) {
      SortStable(Selected(trades, filter), NewestFirst(stamp), v);
    }
  }

  /** 'All', and any filter the page does not know, keeps the whole ledger in order. */
  lemma {:induction false} KeepAll(trades: seq<Trade>, filter: string)
    requires filter !in {"Wins", "Losses", "Rule Broken"}
    ensures Selected(trades, filter) == trades
  {
    if |trades| > 0 {
      var n := |trades| - 1;
      KeepAll(trades[..n], filter);
      assert trades[..n] + [trades[n]] == trades;
    }
  }

  /** A flat trade is neither a win nor a loss. */
  lemma FlatTradesHidden(t: Trade)
    requires t.resultAmount == 0.0
    ensures !Keep("Wins", t) && !Keep("Losses", t)
  {
  }

  /** The 'Wins', 'Losses' and 'Rule Broken' selections, element by element. */
  lemma SelectionsSpec(trades: seq<Trade>)
    ensures forall t :: t in Selected(trades, "Wins") <==> t in trades && t.resultAmount > 0.0
    ensures forall t :: t in Selected(trades, "Losses") <==> t in trades && t.resultAmount < 0.0
    ensures forall t :: t in Selected(trades, "Rule Broken") <==> t in trades && !t.ruleFollowed
  {
  }
}
