/**
 * The analytics page: profit by instrument, winning profit by session, rule breaks by the
 * emotion felt before the trade, and the duration/result scatter.
 */
module Analytics {
  import opened Types
  import opened Grouping
  import opened Sorting
  import opened Utils

  // ---------------------------------------------------------------------------
  // The items each accumulation adds, in trade order

  /** `(instrument, resultAmount)` for every trade. */
  function InstrumentItems(trades: seq<Trade>): (items: seq<(Instrument, real)>)
    ensures |items| == |trades|
  {
    if |trades| == 0 then []
    else InstrumentItems(trades[..|trades| - 1]) + [(trades[|trades| - 1].instrument, trades[|trades| - 1].resultAmount)]
  }

  /** `(session, resultAmount)` for every winning trade. */
  function SessionItems(trades: seq<Trade>): (items: seq<(Session, real)>)
    ensures |items| <= |trades|
    ensures forall i :: 0 <= i < |items| ==> items[i].1 > 0.0
  {
    if |trades| == 0 then []
    else
      var t := trades[|trades| - 1];
      SessionItems(trades[..|trades| - 1]) + (if t.resultAmount > 0.0 then [(t.session, t.resultAmount)] else [])
  }

  /** `(emotionBefore, 1)` for every trade that broke the rules. */
  function EmotionItems(trades: seq<Trade>): (items: seq<(Emotion, real)>)
    ensures |items| <= |trades|
  {
    if |trades| == 0 then []
    else
      var t := trades[|trades| - 1];
      EmotionItems(trades[..|trades| - 1]) + (if !t.ruleFollowed then [(t.emotionBefore, 1.0)] else [])
  }

  /** The number of trades on which the plan was not followed. */
  function RuleBroken(trades: seq<Trade>): (n: nat)
    ensures n <= |trades|
    ensures n == 0 <==> forall k :: 0 <= k < |trades| ==> trades[k].ruleFollowed
  {
    if |trades| == 0 then 0
    else RuleBroken(trades[..|trades| - 1]) + (if !trades[|trades| - 1].ruleFollowed then 1 else 0)
  }

  function ByProfit(g: Group<Instrument>): real { g.total }

  function ByMistakes(g: Group<Emotion>): real { g.count as real }

  /** One trade more: the accumulators of the prefix grow by that trade's item, if any. */
  lemma {:induction false} InstrumentStep(trades: seq<Trade>, i: nat)
    requires i < |trades|
    ensures GroupAll(InstrumentItems(trades[..i + 1]))
            == AddTo(GroupAll(InstrumentItems(trades[..i])), trades[i].instrument, trades[i].resultAmount)
  {
    var p := trades[..i + 1];
    assert p[..i] == trades[..i];
    var items := InstrumentItems(p);
    assert items[..i] == InstrumentItems(trades[..i]);
  }

  lemma {:induction false} SessionStep(trades: seq<Trade>, i: nat)
    requires i < |trades|
    ensures GroupAll(SessionItems(trades[..i + 1]))
            == if trades[i].resultAmount > 0.0
               then AddTo(GroupAll(SessionItems(trades[..i])), trades[i].session, trades[i].resultAmount)
               else GroupAll(SessionItems(trades[..i]))
  {
    var p := trades[..i + 1];
    assert p[..i] == trades[..i];
    var s := SessionItems(p);
    if trades[i].resultAmount > 0.0 {
      assert s == SessionItems(trades[..i]) + [(trades[i].session, trades[i].resultAmount)];
      assert s[..|s| - 1] == SessionItems(trades[..i]);
    } else {
      assert s == SessionItems(trades[..i]);
    }
  }

  lemma {:induction false} EmotionStep(trades: seq<Trade>, i: nat)
    requires i < |trades|
    ensures GroupAll(EmotionItems(trades[..i + 1]))
            == if !trades[i].ruleFollowed
               then AddTo(GroupAll(EmotionItems(trades[..i])), trades[i].emotionBefore, 1.0)
               else GroupAll(EmotionItems(trades[..i]))
  {
    var p := trades[..i + 1];
    assert p[..i] == trades[..i];
    var e := EmotionItems(p);
    if !trades[i].ruleFollowed {
      assert e == EmotionItems(trades[..i]) + [(trades[i].emotionBefore, 1.0)];
      assert e[..|e| - 1] == EmotionItems(trades[..i]);
    } else {
      assert e == EmotionItems(trades[..i]);
    }
  }

  // ---------------------------------------------------------------------------
  // The three accumulations

  /** `instrumentData`: per instrument, the summed result and the number of trades, most profitable first. */
  method InstrumentData(trades: seq<Trade>) returns (data: seq<Group<Instrument>>)
    ensures data == SortDesc(GroupAll(InstrumentItems(trades)), ByProfit)
  {
    var acc: seq<Group<Instrument>> := [];
    var i := 0;
    while i < |trades|
      invariant 0 <= i <= |trades|
      invariant acc == GroupAll(InstrumentItems(trades[..i]))
    {
      InstrumentStep(trades, i);
      acc := AddTo(acc, trades[i].instrument, trades[i].resultAmount);
      i := i + 1;
    }
    assert trades[..i] == trades;
    data := SortDesc(acc, ByProfit);
  }

  /** `sessionData`: per session, the summed result of the winning trades, in first-appearance order. */
  method SessionData(trades: seq<Trade>) returns (data: seq<Group<Session>>)
    ensures data == GroupAll(SessionItems(trades))
  {
    var acc: seq<Group<Session>> := [];
    var i := 0;
    while i < |trades|
      invariant 0 <= i <= |trades|
      invariant acc == GroupAll(SessionItems(trades[..i]))
    {
      SessionStep(trades, i);
      if trades[i].resultAmount > 0.0 {
        acc := AddTo(acc, trades[i].session, trades[i].resultAmount);
      }
      assert acc == GroupAll(SessionItems(trades[..i + 1]));
      i := i + 1;
    }
    assert trades[..i] == trades;
    data := acc;
  }

  /** `emotionData`: per emotion before the trade, the number of rule-breaking trades, most first. */
  method EmotionData(trades: seq<Trade>) returns (data: seq<Group<Emotion>>)
    ensures data == SortDesc(GroupAll(EmotionItems(trades)), ByMistakes)
  {
    var acc: seq<Group<Emotion>> := [];
    var i := 0;
    while i < |trades|
      invariant 0 <= i <= |trades|
      invariant acc == GroupAll(EmotionItems(trades[..i]))
    {
      EmotionStep(trades, i);
      if !trades[i].ruleFollowed {
        acc := AddTo(acc, trades[i].emotionBefore, 1.0);
      }
      assert acc == GroupAll(EmotionItems(trades[..i + 1]));
      i := i + 1;
    }
    assert trades[..i] == trades;
    data := SortDesc(acc, ByMistakes);
  }

  // ---------------------------------------------------------------------------
  // What the accumulations hold

  lemma {:induction false} InstrumentItemsSum(trades: seq<Trade>)
    ensures SumAll(InstrumentItems(trades)) == ResultSum(trades)
  {
    if |trades| > 0 {
      var n := |trades| - 1;
      InstrumentItemsSum(trades[..n]);
      assert InstrumentItems(trades)[..n] == InstrumentItems(trades[..n]);
    }
  }

  /**
   * Each instrument group holds the summed result and the number of that instrument's trades;
   * the counts add up to the number of trades, the profits to the net result, no instrument
   * appears twice and the most profitable comes first.
   */
  lemma {:induction false} InstrumentDataSpec(trades: seq<Trade>, data: seq<Group<Instrument>>)
    requires data == SortDesc(GroupAll(InstrumentItems(trades)), ByProfit)
    ensures forall i :: 0 <= i < |data| ==>
              data[i].total == SumFor(InstrumentItems(trades), data[i].key)
              && data[i].count == CountFor(InstrumentItems(trades), data[i].key)
    ensures CountOf(data) == |trades|
    ensures TotalOf(data) == ResultSum(trades)
    ensures Distinct(Keys(data))
    ensures forall i, j :: 0 <= i < j < |data| ==> data[i].total >= data[j].total
  {
    SortedGroupsSpec(InstrumentItems(trades), ByProfit, data);
    InstrumentItemsSum(trades);
    forall i, j | 0 <= i < j < |data| ensures data[i].total >= data[j].total {
      assert ByProfit(data[i]) >= ByProfit(data[j]);
    }
  }

  /** Every group of winning amounts has a positive total. */
  lemma {:induction false} PositiveGroups<K>(items: seq<(K, real)>)
    requires forall i :: 0 <= i < |items| ==> items[i].1 > 0.0
    ensures forall i :: 0 <= i < |GroupAll(items)| ==> GroupAll(items)[i].total > 0.0
  {
    if |items| > 0 {
      var n := |items| - 1;
      PositiveGroups(items[..n]);
    }
  }

  /**
   * Only winning trades reach the session chart, so every session value is positive, and the
   * values add up to the profit of the winning trades.
   */
  lemma {:induction false} SessionDataSpec(trades: seq<Trade>, data: seq<Group<Session>>)
    requires data == GroupAll(SessionItems(trades))
    ensures forall i :: 0 <= i < |data| ==> data[i].total > 0.0
    ensures forall i :: 0 <= i < |data| ==> data[i].total == SumFor(SessionItems(trades), data[i].key)
    ensures TotalOf(data) == SumAll(SessionItems(trades))
    ensures CountOf(data) == WinCount(trades)
    ensures Distinct(Keys(data))
  {
    var items := SessionItems(trades);
    PositiveGroups(items);
    GroupAllSpec(items);
    GroupAllKeySet(items);
    SessionItemsCount(trades);
  }

  lemma {:induction false} SessionItemsCount(trades: seq<Trade>)
    ensures |SessionItems(trades)| == WinCount(trades)
  {
    if |trades| > 0 {
      SessionItemsCount(trades[..|trades| - 1]);
    }
  }

  lemma {:induction false} EmotionItemsCount(trades: seq<Trade>)
    ensures |EmotionItems(trades)| == RuleBroken(trades)
  {
    if |trades| > 0 {
      EmotionItemsCount(trades[..|trades| - 1]);
    }
  }

  /**
   * Each emotion counts the rule-breaking trades that started in it; the counts add up to
   * the number of rule-breaking trades, no emotion appears twice and the most frequent comes first.
   */
  lemma {:induction false} EmotionDataSpec(trades: seq<Trade>, data: seq<Group<Emotion>>)
    requires data == SortDesc(GroupAll(EmotionItems(trades)), ByMistakes)
    ensures forall i :: 0 <= i < |data| ==> data[i].count == CountFor(EmotionItems(trades), data[i].key)
    ensures CountOf(data) == RuleBroken(trades)
    ensures Distinct(Keys(data))
    ensures forall i, j :: 0 <= i < j < |data| ==> data[i].count >= data[j].count
  {
    SortedGroupsSpec(EmotionItems(trades), ByMistakes, data);
    EmotionItemsCount(trades);
    forall i, j | 0 <= i < j < |data| ensures data[i].count >= data[j].count {
      assert ByMistakes(data[i]) >= ByMistakes(data[j]);
    }
  }

  // ---------------------------------------------------------------------------
  // Scatter

  /** A point of the scatter chart: duration in minutes against the result. */
  datatype Point = Point(x: int, y: real)

  /** The trades with a positive duration, in order, as (duration, result) points. */
  function Scatter(trades: seq<Trade>): (ps: seq<Point>)
    ensures |ps| <= |trades|
    ensures forall i :: 0 <= i < |ps| ==> ps[i].x > 0
  {
    if |trades| == 0 then []
    else
      var n := |trades| - 1;
      var t := trades[n];
      Scatter(trades[..n]) + (if t.durationMinutes > 0 then [Point(t.durationMinutes, t.resultAmount)] else [])
  }

  /** Every timed trade has its point, and every point comes from a trade. */
  lemma {:induction false} ScatterMembers(trades: seq<Trade>)
    ensures forall i :: 0 <= i < |trades| && trades[i].durationMinutes > 0 ==>
              Point(trades[i].durationMinutes, trades[i].resultAmount) in Scatter(trades)
    ensures forall p :: p in Scatter(trades) ==>
              exists i :: 0 <= i < |trades| && p == Point(trades[i].durationMinutes, trades[i].resultAmount)
  {
    if |trades| > 0 {
      var n := |trades| - 1;
      var prefix := trades[..n];
      ScatterMembers(prefix);
      forall p | p in Scatter(trades)
        ensures exists i :: 0 <= i < |trades| && p == Point(trades[i].durationMinutes, trades[i].resultAmount)
      {
        if p in Scatter(prefix) {
          var i :| 0 <= i < n && p == Point(prefix[i].durationMinutes, prefix[i].resultAmount);
          assert trades[i] == prefix[i];
        } else {
          assert p == Point(trades[n].durationMinutes, trades[n].resultAmount);
        }
      }
      forall i | 0 <= i < |trades| && trades[i].durationMinutes > 0
        ensures Point(trades[i].durationMinutes, trades[i].resultAmount) in Scatter(trades)
      {
        if i < n {
          assert trades[i] == prefix[i];
        }
      }
    }
  }

  /** The scatter of two ledgers one after the other is the two scatters one after the other: order is kept. */
  lemma {:induction false} ScatterAppend(a: seq<Trade>, b: seq<Trade>)
    ensures Scatter(a + b) == Scatter(a) + Scatter(b)
  {
    if |b| > 0 {
      var n := |b| - 1;
      assert (a + b)[..|a| + n] == a + b[..n];
      assert (a + b)[|a| + n] == b[n];
      ScatterAppend(a, b[..n]);
    } else {
      assert a + b == a;
    }
  }

  /** The number of points is the number of trades with a positive duration. */
  function TimedCount(trades: seq<Trade>): nat
  {
    if |trades| == 0 then 0
    else TimedCount(trades[..|trades| - 1]) + (if trades[|trades| - 1].durationMinutes > 0 then 1 else 0)
  }

  lemma {:induction false} ScatterSize(trades: seq<Trade>)
    ensures |Scatter(trades)| == TimedCount(trades)
  {
    if |trades| > 0 {
      ScatterSize(trades[..|trades| - 1]);
    }
  }
}
