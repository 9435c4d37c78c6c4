// A condition on the definitions alone, to be checked when they are loaded, under
// which neither the cache nor the order of filters shows.

module SecureChains {

  import opened Wrappers
  import opened Reasons
  import opened Folding
  import opened FlagFolding
  import opened Filters
  import opened Definitions
  import opened CohortScan
  import opened Bucketing
  import opened Evaluator
  import opened DependencyCache
  import opened Uncached
  import opened Steadiness
  import opened CacheTransparency
  import opened FilterOrder

  /** As a dependency the flag cannot be left unresolved: it is off, or has rollouts only. */
  predicate Secure(flag: Flag) {
    !flag.active ||
    (&& !flag.continuity
     && (flag.holdout.None? || !flag.deviceBucketed || flag.aggregation.Some?)
     && forall i :: 0 <= i < |flag.conditions| ==> |flag.conditions[i].filters| == 0)
  }

  /** A chain ends with the filter's own flag, and no member before can be left unresolved: any chain of one does. */
  predicate SecureChain(flags: map<string, Flag>, f: Filter) {
    f.kind == "flag" && f.chain.Some? && |f.chain.value| > 0 ==>
      var chain := f.chain.value;
      && chain[|chain| - 1] == f.key
      && forall i :: 0 <= i < |chain| - 1 && chain[i] in flags ==> Secure(flags[chain[i]])
  }

  predicate SecureFilters(flags: map<string, Flag>, fs: seq<Filter>) {
    forall f :: f in fs ==> SecureChain(flags, f)
  }

  predicate SecureFlag(flags: map<string, Flag>, flag: Flag) {
    forall i :: 0 <= i < |flag.conditions| ==> SecureFilters(flags, flag.conditions[i].filters)
  }

  /** Every chain that can be evaluated is secure. */
  predicate AllSecure(w: World) {
    && (forall key :: key in w.Flags() && Evaluable(w, key) ==> SecureFlag(w.Flags(), w.Flags()[key]))
    && (forall id :: id in w.Cohorts() ==> SecureFilters(w.Flags(), FiltersIn(w.Cohorts()[id].entries)))
  }

  // ------------------------------------------------------------ secure flags are values

  lemma BareConditionSettles(w: World, rk: Ranks, n: nat, flag: Flag, c: Condition, ctx: Ctx)
    requires WellRanked(w, rk) && FiltersBelow(w, rk, c.filters, n) && |c.filters| == 0
    ensures !PlainCondition(w, rk, n, flag, c, ctx, NO_GROUPS).result.Failed?
  {
  }

  lemma {:induction false} BareConditionsSettle(w: World, rk: Ranks, n: nat, flag: Flag, i: nat, ctx: Ctx)
    requires WellRanked(w, rk) && FlagBelow(w, rk, flag, n) && i <= |flag.conditions|
    requires forall k :: 0 <= k < |flag.conditions| ==> |flag.conditions[k].filters| == 0
    ensures PlainConditions(w, rk, n, flag, i, ctx, NO_GROUPS, None).Value?
    decreases |flag.conditions| - i
  {
    if i < |flag.conditions| {
      BareConditionSettles(w, rk, n, flag, flag.conditions[i], ctx);
      BareConditionsSettle(w, rk, n, flag, i + 1, ctx);
    }
  }

  lemma BareFlagSettles(w: World, rk: Ranks, n: nat, flag: Flag, ctx: Ctx)
    requires WellRanked(w, rk) && FlagBelow(w, rk, flag, n) && flag.active && Secure(flag)
    ensures PlainFlag(w, rk, n, flag, ctx, NO_GROUPS).Value?
  {
    BareConditionsSettle(w, rk, n, flag, 0, ctx);
  }

  lemma SecureIsValue(w: World, rk: Ranks, home: Homes, key: string)
    requires WellRanked(w, rk) && key in w.Flags() && Secure(w.Flags()[key])
    ensures Fresh(w, rk, home)(key).Value?
  {
    var flag := w.Flags()[key];
    UnevaluatedIs(w, rk, home, key);
    if flag.active {
      EvaluatedIs(w, rk, home, key);
      BareFlagSettles(w, rk, rk.flags(key), flag, home(flag.aggregation));
    }
  }

  // ------------------------------------------------------------ secure chains are steady

  lemma SecureIsSteady(plain: Plain, flags: map<string, Flag>, f: Filter)
    requires SecureChain(flags, f) && forall key :: key in flags && Secure(flags[key]) ==> plain(key).Value?
    ensures Steady(plain, flags, f)
  {
    if UsableChain(flags, f) {
      var chain := f.chain.value;
      var aggregation :| DependencyError(f, flags, aggregation).None?;
      ChainErrorMeans(chain, flags, aggregation);
      assert forall i :: 0 <= i < |chain| - 1 ==> plain(chain[i]).Value?;
      assert chain[|chain| - 1] == f.key;
    }
  }

  lemma SecureFiltersApt(plain: Plain, flags: map<string, Flag>, fs: seq<Filter>)
    requires SecureFilters(flags, fs) && forall key :: key in flags && Secure(flags[key]) ==> plain(key).Value?
    ensures FiltersApt(plain, flags, true, fs)
  {
    forall i | 0 <= i < |fs| ensures Steady(plain, flags, fs[i]) {
      SecureIsSteady(plain, flags, fs[i]);
    }
  }

  lemma SecureFlagApt(plain: Plain, flags: map<string, Flag>, flag: Flag)
    requires SecureFlag(flags, flag) && forall key :: key in flags && Secure(flags[key]) ==> plain(key).Value?
    ensures FlagApt(plain, flags, true, flag)
  {
    forall i | 0 <= i < |flag.conditions| ensures FiltersApt(plain, flags, true, flag.conditions[i].filters) {
      SecureFiltersApt(plain, flags, flag.conditions[i].filters);
    }
  }

  lemma AllSecureApt(w: World, rk: Ranks, n: nat, plain: Plain)
    requires AllSecure(w) && forall key :: key in w.Flags() && Secure(w.Flags()[key]) ==> plain(key).Value?
    ensures AllApt(w, rk, n, plain, true)
  {
    forall key | Evaluable(w, key) ensures FlagApt(plain, w.Flags(), true, w.Flags()[key]) {
      SecureFlagApt(plain, w.Flags(), w.Flags()[key]);
    }
    forall id | id in w.Cohorts() ensures GroupApt(plain, w.Flags(), true, w.Cohorts()[id]) {
      var es := w.Cohorts()[id].entries;
      forall f | f in FiltersIn(es) ensures Apt(plain, w.Flags(), true, f) {
        SecureIsSteady(plain, w.Flags(), f);
      }
      EntriesAptIff(plain, w.Flags(), true, es);
    }
  }

  lemma SecureValues(w: World, rk: Ranks, home: Homes)
    requires WellRanked(w, rk)
    ensures forall key :: key in w.Flags() && Secure(w.Flags()[key]) ==> Fresh(w, rk, home)(key).Value?
  {
    forall key | key in w.Flags() && Secure(w.Flags()[key]) ensures Fresh(w, rk, home)(key).Value? {
      SecureIsValue(w, rk, home, key);
    }
  }

  // ------------------------------------------------------------ what they guarantee

  /** With secure chains the cache never shows, whoever is asked for and whatever is left unresolved. */
  lemma SecureCacheIsInvisible(w: World, rk: Ranks, n: nat, flag: Flag, call: Call)
    requires WellRanked(w, rk) && FlagBelow(w, rk, flag, n) && AllSecure(w) && SecureFlag(w.Flags(), flag)
    ensures ComputeFlagLocally(w, rk, n, flag, call).0 == ComputePlain(w, rk, n, flag, call)
  {
    if SubjectOf(w, flag, call).Subject? {
      var home := a => Home(w, flag, SubjectOf(w, flag, call).ctx, call.groups, a);
      SecureValues(w, rk, home);
      AllSecureApt(w, rk, n, Fresh(w, rk, home));
      SecureFlagApt(Fresh(w, rk, home), w.Flags(), flag);
    }
    CacheIsInvisible(w, rk, n, flag, call);
  }

  /** Nor does the order of a condition's filters. */
  lemma SecureFilterOrder(
      w: World, rk: Ranks, home: Homes, n: nat, a: seq<Filter>, b: seq<Filter>, aggregation: Option<nat>, m: Memo)
    requires WellRanked(w, rk) && AllSecure(w) && SecureFilters(w.Flags(), a) && Faithful(w, rk, home, m)
    requires Grounded(home(aggregation), aggregation) && FiltersBelow(w, rk, a, n) && FiltersBelow(w, rk, b, n)
    requires multiset(a) == multiset(b) && Broken !in PlainOutcomes(w, rk, n, a, home(aggregation), aggregation)
    ensures Report(MatchFilters(w, rk, n, a, home(aggregation), aggregation, NO_TALLY, m).0)
         == Report(MatchFilters(w, rk, n, b, home(aggregation), aggregation, NO_TALLY, m).0)
  {
    SecureValues(w, rk, home);
    AllSecureApt(w, rk, n, Fresh(w, rk, home));
    SecureFiltersApt(Fresh(w, rk, home), w.Flags(), a);
    FilterOrderThroughCache(w, rk, home, n, a, b, aggregation, m);
  }
}
