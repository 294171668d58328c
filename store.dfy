/**
 * The application store: one `AppState` that every operation replaces with an updated copy,
 * and the loader that fills in defaults for whatever the saved state lacks.
 */
module Store {
  import opened Common
  import opened Types

  // ---------------------------------------------------------------------------
  // Loading

  /**
   * A parsed saved state: each field may be missing. A missing list or object is `None`;
   * a number is `None` when missing, and 0 counts as missing for the `||` of the loader.
   */
  datatype SavedState = SavedState(
    entries: Option<seq<DayEntry>>,
    consistencyRulePercent: Option<real>,
    accountSize: Option<real>,
    profitTarget: Option<real>,
    trades: Option<seq<Trade>>,
    settings: Option<Settings>,
    propFirmRules: Option<Rules>)

  const DefaultRules := Rules(10.0, 5.0, 10.0, 40.0)

  const DefaultState := AppState([], 40.0, 50000.0, 2500.0, [], Settings(50000.0), DefaultRules)

  function OrElse<T>(x: Option<T>, d: T): (r: T)
    ensures x.Some? ==> r == x.value
    ensures x.None? ==> r == d
  {
    if x.Some? then x.value else d
  }

  /**
   * The initial state: the clean default state when nothing usable was saved, and otherwise
   * every saved field with each missing or falsy one replaced by its default.
   */
  function LoadState(saved: Option<SavedState>): (s: AppState)
    ensures saved.None? ==> s == DefaultState
    ensures saved.Some? ==>
      var p := saved.value;
      && s.entries == (if p.entries.Some? then p.entries.value else [])
      && s.trades == (if p.trades.Some? then p.trades.value else [])
      && s.consistencyRulePercent ==
           (if p.consistencyRulePercent.Some? && p.consistencyRulePercent.value != 0.0
            then p.consistencyRulePercent.value else 40.0)
      && s.accountSize == (if p.accountSize.Some? && p.accountSize.value != 0.0 then p.accountSize.value else 50000.0)
      && s.profitTarget == (if p.profitTarget.Some? && p.profitTarget.value != 0.0 then p.profitTarget.value else 2500.0)
      && s.settings == (if p.settings.Some? then p.settings.value else Settings(50000.0))
      && s.propFirmRules == (if p.propFirmRules.Some? then p.propFirmRules.value else Rules(10.0, 5.0, 10.0, 40.0))
    ensures Defined(s)
  {
    match saved
    case None => DefaultState
    case Some(p) =>
      AppState(OrElse(p.entries, []),
               OrDefault(p.consistencyRulePercent, 40.0),
               OrDefault(p.accountSize, 50000.0),
               OrDefault(p.profitTarget, 2500.0),
               OrElse(p.trades, []),
               OrElse(p.settings, Settings(50000.0)),
               OrElse(p.propFirmRules, DefaultRules))
  }

  /**
   * The two divisors the dashboard relies on are nonzero: the consistency rule percent and
   * the profit target.
   */
  predicate Defined(s: AppState)
  {
    s.consistencyRulePercent != 0.0 && s.profitTarget != 0.0
  }

  // ---------------------------------------------------------------------------
  // Removal by id

  /** `xs.filter(x => idOf(x) !== id)` */
  function Without<T>(xs: seq<T>, idOf: T -> string, id: string): (r: seq<T>)
    ensures |r| <= |xs|
  {
    if |xs| == 0 then []
    else
      var n := |xs| - 1;
      Without(xs[..n], idOf, id) + (if idOf(xs[n]) != id then [xs[n]] else [])
  }

  /** What survives: exactly the elements whose id differs. */
  lemma {:induction false} WithoutMembers<T>(xs: seq<T>, idOf: T -> string, id: string)
    ensures forall x :: x in Without(xs, idOf, id) <==> x in xs && idOf(x) != id
  {
    if |xs| > 0 {
      var n := |xs| - 1;
      WithoutMembers(xs[..n], idOf, id);
      assert xs == xs[..n] + [xs[n]];
    }
  }

  /** Filtering distributes over concatenation, so the survivors keep their relative order. */
  lemma {:induction false} WithoutAppend<T>(a: seq<T>, b: seq<T>, idOf: T -> string, id: string)
    ensures Without(a + b, idOf, id) == Without(a, idOf, id) + Without(b, idOf, id)
  {
    if |b| > 0 {
      var n := |b| - 1;
      assert (a + b)[..|a| + n] == a + b[..n];
      assert (a + b)[|a| + n] == b[n];
      WithoutAppend(a, b[..n], idOf, id);
    } else {
      assert a + b == a;
    }
  }

  /** Removing an id that no element carries changes nothing. */
  lemma {:induction false} WithoutAbsent<T>(xs: seq<T>, idOf: T -> string, id: string)
    requires forall i :: 0 <= i < |xs| ==> idOf(xs[i]) != id
    ensures Without(xs, idOf, id) == xs
  {
    if |xs| > 0 {
      var n := |xs| - 1;
      WithoutAbsent(xs[..n], idOf, id);
      assert xs[..n] + [xs[n]] == xs;
    }
  }

  /** Removing twice is removing once. */
  lemma {:induction false} WithoutIdempotent<T>(xs: seq<T>, idOf: T -> string, id: string)
    ensures Without(Without(xs, idOf, id), idOf, id) == Without(xs, idOf, id)
  {
    if |xs| > 0 {
      var n := |xs| - 1;
      var tail := if idOf(xs[n]) != id then [xs[n]] else [];
      WithoutIdempotent(xs[..n], idOf, id);
      WithoutAppend(Without(xs[..n], idOf, id), tail, idOf, id);
      WithoutAbsent(tail, idOf, id);
    }
  }

  function EntryId(e: DayEntry): string { e.id }
  function TradeId(t: Trade): string { t.id }

  // ---------------------------------------------------------------------------
  // The store

  /** A patch for `settings`: the fields present in the object passed to `updateSettings`. */
  datatype SettingsPatch = SettingsPatch(initialBalance: Option<real>)

  /** A patch for `propFirmRules`: the fields present in the object passed to `updateRules`. */
  datatype RulesPatch = RulesPatch(
    profitTargetPercent: Option<real>,
    maxDailyLossPercent: Option<real>,
    maxOverallDrawdownPercent: Option<real>,
    consistencyRulePercent: Option<real>)

  /** `{ ...rules, ...patch }` */
  function MergeRules(rules: Rules, patch: RulesPatch): (r: Rules)
    ensures r.profitTargetPercent == (if patch.profitTargetPercent.Some? then patch.profitTargetPercent.value else rules.profitTargetPercent)
    ensures r.maxDailyLossPercent == (if patch.maxDailyLossPercent.Some? then patch.maxDailyLossPercent.value else rules.maxDailyLossPercent)
    ensures r.maxOverallDrawdownPercent == (if patch.maxOverallDrawdownPercent.Some? then patch.maxOverallDrawdownPercent.value else rules.maxOverallDrawdownPercent)
    ensures r.consistencyRulePercent == (if patch.consistencyRulePercent.Some? then patch.consistencyRulePercent.value else rules.consistencyRulePercent)
  {
    Rules(OrElse(patch.profitTargetPercent, rules.profitTargetPercent),
          OrElse(patch.maxDailyLossPercent, rules.maxDailyLossPercent),
          OrElse(patch.maxOverallDrawdownPercent, rules.maxOverallDrawdownPercent),
          OrElse(patch.consistencyRulePercent, rules.consistencyRulePercent))
  }

  /** Merging is idempotent, and an empty patch changes nothing. */
  lemma MergeRulesIdempotent(rules: Rules, patch: RulesPatch)
    ensures MergeRules(MergeRules(rules, patch), patch) == MergeRules(rules, patch)
    ensures MergeRules(rules, RulesPatch(None, None, None, None)) == rules
  {
  }

  class Store {
    var state: AppState

    /** The loader: `saved` is the parsed saved state, `None` when there is none or it does not parse. */
    constructor (saved: Option<SavedState>)
      ensures state == LoadState(saved)
      ensures Defined(state)
    {
      state := LoadState(saved);
    }

    /** Appends `entry` to the entries; nothing else changes. */
    method AddEntry(entry: DayEntry)
      modifies this
      ensures state == old(state).(entries := old(state.entries) + [entry])
      ensures old(Defined(state)) ==> Defined(state)
    {
      state := state.(entries := state.entries + [entry]);
    }

    /** Removes every entry with this id, keeping the others in order; nothing else changes. */
    method DeleteEntry(id: string)
      modifies this
      ensures state == old(state).(entries := Without(old(state.entries), EntryId, id))
      ensures old(Defined(state)) ==> Defined(state)
    {
      state := state.(entries := Without(state.entries, EntryId, id));
    }

    /** `updateSettings` called with an object: merges it into `settings` only. */
    method UpdateSettingsObject(patch: SettingsPatch)
      modifies this
      ensures state == old(state).(settings := Settings(OrElse(patch.initialBalance, old(state.settings.initialBalance))))
      ensures old(Defined(state)) ==> Defined(state)
    {
      state := state.(settings := Settings(OrElse(patch.initialBalance, state.settings.initialBalance)));
    }

    /**
     * `updateSettings` called with scalars: the account size is taken as given, the profit
     * target and the rule percent keep their previous value when the new one is 0 or missing.
     */
    method UpdateSettingsScalars(accountSize: real, profitTarget: Option<real>, rulePercent: Option<real>)
      modifies this
      ensures state == old(state).(accountSize := accountSize,
                                   profitTarget := OrDefault(profitTarget, old(state.profitTarget)),
                                   consistencyRulePercent := OrDefault(rulePercent, old(state.consistencyRulePercent)))
      ensures old(Defined(state)) ==> Defined(state)
    {
      state := state.(accountSize := accountSize,
                      profitTarget := OrDefault(profitTarget, state.profitTarget),
                      consistencyRulePercent := OrDefault(rulePercent, state.consistencyRulePercent));
    }

    /** Appends `trade` to the trades; nothing else changes. */
    method AddTrade(trade: Trade)
      modifies this
      ensures state == old(state).(trades := old(state.trades) + [trade])
      ensures old(Defined(state)) ==> Defined(state)
    {
      state := state.(trades := state.trades + [trade]);
    }

    /** Removes every trade with this id, keeping the others in order; nothing else changes. */
    method DeleteTrade(id: string)
      modifies this
      ensures state == old(state).(trades := Without(old(state.trades), TradeId, id))
      ensures old(Defined(state)) ==> Defined(state)
    {
      state := state.(trades := Without(state.trades, TradeId, id));
    }

    /** Overwrites the rule fields present in the patch and keeps the others. */
    method UpdateRules(patch: RulesPatch)
      modifies this
      ensures state == old(state).(propFirmRules := MergeRules(old(state.propFirmRules), patch))
      ensures old(Defined(state)) ==> Defined(state)
    {
      state := state.(propFirmRules := MergeRules(state.propFirmRules, patch));
    }

    /** Replaces the whole state, as given. */
    method ImportState(newState: AppState)
      modifies this
      ensures state == newState
    {
      state := newState;
    }
  }
}
