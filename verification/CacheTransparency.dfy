// When the cache of dependency results can be seen, and when it cannot.

module CacheTransparency {

  import opened Wrappers
  import opened Reasons
  import opened Folding
  import opened FlagFolding
  import opened Filters
  import opened Definitions
  import opened CohortScan
  import opened Bucketing
  import opened Evaluator
  import opened DependencyCache
  import opened Uncached
  import opened Steadiness

  /** The context in which the dependencies of each aggregation are evaluated. */
  type Homes = Option<nat> -> Ctx

  /** Each flag evaluated without the cache, in the context of its own aggregation. */
  ghost function Fresh(w: World, rk: Ranks, home: Homes): Plain
    requires WellRanked(w, rk)
  {
    key =>
      if key in w.Flags() then PlainMember(w, rk, key, home(w.Flags()[key].aggregation)) else Error(UNSUPPORTED)
  }

  lemma UnevaluatedMember(w: World, rk: Ranks, key: string, ctx: Ctx)
    requires WellRanked(w, rk) && key in w.Flags()
    ensures !w.Flags()[key].active ==> PlainMember(w, rk, key, ctx) == Value(Boolean(false))
    ensures w.Flags()[key].active && w.Flags()[key].continuity ==>
              PlainMember(w, rk, key, ctx) == Error(UNRESOLVED_CHAIN)
  {
  }

  lemma FreshIs(w: World, rk: Ranks, home: Homes, key: string)
    requires WellRanked(w, rk) && key in w.Flags()
    ensures Fresh(w, rk, home)(key) == PlainMember(w, rk, key, home(w.Flags()[key].aggregation))
  {
  }

  lemma UnevaluatedIs(w: World, rk: Ranks, home: Homes, key: string)
    requires WellRanked(w, rk) && key in w.Flags()
    ensures !w.Flags()[key].active ==> Fresh(w, rk, home)(key) == Value(Boolean(false))
    ensures w.Flags()[key].active && w.Flags()[key].continuity ==>
              Fresh(w, rk, home)(key) == Error(UNRESOLVED_CHAIN)
  {
    FreshIs(w, rk, home, key);
    UnevaluatedMember(w, rk, key, home(w.Flags()[key].aggregation));
  }

  lemma EvaluatedIs(w: World, rk: Ranks, home: Homes, key: string)
    requires WellRanked(w, rk) && Evaluable(w, key)
    ensures var flag := w.Flags()[key];
            Fresh(w, rk, home)(key) == PlainFlag(w, rk, rk.flags(key), flag, home(flag.aggregation), NO_GROUPS)
  {
  }

  // ------------------------------------------------------------ a cache that tells the truth

  ghost predicate Faithful(w: World, rk: Ranks, home: Homes, m: Memo)
    requires WellRanked(w, rk)
  {
    Truthful(Fresh(w, rk, home), w.Flags(), m.cache)
  }

  /** When filters are not known to be steady, nothing may be left unresolved. */
  predicate Passable(steady: bool, m: Memo) {
    steady || NoNil(m.cache)
  }

  lemma PassableBefore(
      w: World, rk: Ranks, n: nat, ctx: Ctx, aggregation: Option<nat>, steady: bool, m: Memo, r: Memo)
    requires Grown(w, rk, n, ctx, aggregation, m, r) && Passable(steady, r)
    ensures Passable(steady, m)
  {
  }

  /** The value of a chain's member is the same in the context of its own aggregation as here. */
  lemma MemberAtHome(w: World, rk: Ranks, home: Homes, key: string, aggregation: Option<nat>)
    requires WellRanked(w, rk) && key in w.Flags()
    requires w.Flags()[key].active ==> !NeedsOther(w.Flags()[key], aggregation)
    ensures Fresh(w, rk, home)(key) == PlainMember(w, rk, key, home(aggregation))
  {
    if w.Flags()[key].active {
      assert w.Flags()[key].aggregation == aggregation;
      FreshIs(w, rk, home, key);
    } else {
      UnevaluatedMember(w, rk, key, home(aggregation));
      UnevaluatedIs(w, rk, home, key);
    }
  }

  lemma {:induction false} MemberIsPlain(
      w: World, rk: Ranks, home: Homes, steady: bool, n: nat, key: string, aggregation: Option<nat>, m: Memo)
    requires WellRanked(w, rk) && AllApt(w, rk, n, Fresh(w, rk, home), steady)
    requires key in w.Flags() && MemberBelow(w, rk, key, n)
    requires key !in m.cache && Grounded(home(aggregation), aggregation) && Faithful(w, rk, home, m)
    requires w.Flags()[key].active ==> !NeedsOther(w.Flags()[key], aggregation)
    requires Passable(steady, MatchMember(w, rk, n, key, home(aggregation), m).1)
    ensures var r := MatchMember(w, rk, n, key, home(aggregation), m);
            && r.0 == MemberError(Fresh(w, rk, home)(key))
            && Faithful(w, rk, home, r.1)
            && (r.0.None? ==> key in r.1.cache)
    decreases n, 0
  {
    var flag := w.Flags()[key];
    MemberAtHome(w, rk, home, key, aggregation);
    if !flag.active {
      FaithfulRemembers(w, rk, home, m, key, Some(Boolean(false)));
    } else if flag.continuity {
      FaithfulRemembers(w, rk, home, m, key, None);
    } else {
      var ctx := home(aggregation);
      var logged := m.Log(key, ctx);
      var r := MatchFlag(w, rk, rk.flags(key), flag, ctx, NO_GROUPS, logged);
      FlagGrows(w, rk, rk.flags(key), flag, ctx, aggregation, logged);
      RememberGrows(w, rk, n, key, ctx, aggregation, logged, r.1);
      RememberResolves(r.1, key);
      FlagIsPlain(w, rk, home, steady, rk.flags(key), flag, aggregation, logged);
      if r.0.Value? {
        FaithfulRemembers(w, rk, home, r.1, key, Some(r.0.value));
      } else if !r.0.error.ServerRequired? {
        FaithfulRemembers(w, rk, home, r.1, key, None);
      }
    }
  }

  lemma FaithfulRemembers(w: World, rk: Ranks, home: Homes, m: Memo, key: string, value: Option<FlagValue>)
    requires WellRanked(w, rk) && Faithful(w, rk, home, m) && Tells(Fresh(w, rk, home), w.Flags(), key, value)
    ensures Faithful(w, rk, home, m.Remember(key, value)) && key in m.Remember(key, value).cache
  {
  }

  lemma RememberResolves(m: Memo, key: string)
    requires key !in m.cache
    ensures forall value :: NoNil(m.Remember(key, value).cache) ==> NoNil(m.cache)
  {
    forall value | NoNil(m.Remember(key, value).cache) ensures NoNil(m.cache) {
      var r := m.Remember(key, value);
      forall other | other in m.cache ensures m.cache[other].Some? {
        assert other in r.cache && r.cache[other] == m.cache[other];
      }
    }
  }

  /** A usable chain, seen from a context. */
  ghost predicate ChainFits(w: World, chain: seq<string>, aggregation: Option<nat>) {
    forall i :: 0 <= i < |chain| ==>
      chain[i] in w.Flags() && (w.Flags()[chain[i]].active ==> !NeedsOther(w.Flags()[chain[i]], aggregation))
  }

  lemma {:induction false} ChainStops(
      w: World, rk: Ranks, home: Homes, steady: bool, n: nat, chain: seq<string>, aggregation: Option<nat>, m: Memo)
    requires WellRanked(w, rk) && AllApt(w, rk, n, Fresh(w, rk, home), steady) && ChainBelow(w, rk, chain, n)
    requires Grounded(home(aggregation), aggregation) && Faithful(w, rk, home, m) && ChainFits(w, chain, aggregation)
    requires Passable(steady, MatchChain(w, rk, n, chain, home(aggregation), m).1)
    ensures var r := MatchChain(w, rk, n, chain, home(aggregation), m);
            ChainEnds(Fresh(w, rk, home), w.Flags(), chain, r.0, m.cache, r.1.cache)
    decreases n, 1, |chain|
  {
    var ctx := home(aggregation);
    if |chain| > 0 {
      var r := MatchChain(w, rk, n, chain, ctx, m);
      if chain[0] in m.cache {
        ChainStops(w, rk, home, steady, n, chain[1..], aggregation, m);
        ChainJoins(Fresh(w, rk, home), w.Flags(), chain, r.0, m.cache, m.cache, r.1.cache);
      } else {
        ChainStep(w, rk, home, steady, n, chain, aggregation, m);
        var q := MatchMember(w, rk, n, chain[0], ctx, m);
        if q.0.None? {
          ChainStops(w, rk, home, steady, n, chain[1..], aggregation, q.1);
          ChainJoins(Fresh(w, rk, home), w.Flags(), chain, r.0, m.cache, q.1.cache, r.1.cache);
        } else {
          assert StopsAt(Fresh(w, rk, home), chain, 0, r.0, m.cache, r.1.cache);
        }
      }
    }
  }

  lemma {:induction false} ChainStep(
      w: World, rk: Ranks, home: Homes, steady: bool, n: nat, chain: seq<string>, aggregation: Option<nat>, m: Memo)
    requires WellRanked(w, rk) && AllApt(w, rk, n, Fresh(w, rk, home), steady) && ChainBelow(w, rk, chain, n)
    requires Grounded(home(aggregation), aggregation) && Faithful(w, rk, home, m) && ChainFits(w, chain, aggregation)
    requires |chain| > 0 && chain[0] !in m.cache
    requires Passable(steady, MatchChain(w, rk, n, chain, home(aggregation), m).1)
    ensures var r := MatchMember(w, rk, n, chain[0], home(aggregation), m);
            && r.0 == MemberError(Fresh(w, rk, home)(chain[0]))
            && Faithful(w, rk, home, r.1)
            && (forall key :: key in m.cache ==> key in r.1.cache)
            && (r.0.None? ==> chain[0] in r.1.cache)
            && (r.0.None? ==> Passable(steady, MatchChain(w, rk, n, chain[1..], home(aggregation), r.1).1))
    decreases n, 1, 0
  {
    var ctx := home(aggregation);
    var r := MatchMember(w, rk, n, chain[0], ctx, m);
    MemberGrows(w, rk, n, chain[0], ctx, aggregation, m);
    if r.0.None? {
      ChainGrows(w, rk, n, chain[1..], ctx, aggregation, r.1);
      PassableBefore(w, rk, n, ctx, aggregation, steady, r.1, MatchChain(w, rk, n, chain[1..], ctx, r.1).1);
    }
    MemberIsPlain(w, rk, home, steady, n, chain[0], aggregation, m);
  }

  /** What the memo after a chain says of the filter is what evaluation without the cache comes to. */
  lemma {:induction false} DependencyIsPlain(
      w: World, rk: Ranks, home: Homes, steady: bool, n: nat, f: Filter, aggregation: Option<nat>, m: Memo)
    requires WellRanked(w, rk) && AllApt(w, rk, n, Fresh(w, rk, home), steady)
    requires f.kind == "flag" && FilterBelow(w, rk, f, n)
    requires Apt(Fresh(w, rk, home), w.Flags(), steady, f)
    requires Grounded(home(aggregation), aggregation) && Faithful(w, rk, home, m)
    requires Passable(steady, MatchDependency(w, rk, n, f, home(aggregation), aggregation, m).1)
    ensures var r := MatchDependency(w, rk, n, f, home(aggregation), aggregation, m);
            r.0 == PlainDependency(w, rk, n, f, home(aggregation), aggregation) && Faithful(w, rk, home, r.1)
    decreases n, 2
  {
    if DependencyError(f, w.Flags(), aggregation).None? {
      var ctx, chain := home(aggregation), f.chain.value;
      ChainErrorMeans(chain, w.Flags(), aggregation);
      ChainStops(w, rk, home, steady, n, chain, aggregation, m);
      var r := MatchChain(w, rk, n, chain, ctx, m);
      ChainAtHome(w, rk, home, n, chain, aggregation);
      var rs := PlainChain(w, rk, n, chain, ctx);
      assert UsableChain(w.Flags(), f);
      if r.0.Some? {
        var i: nat :| StopsAt(Fresh(w, rk, home), chain, i, r.0, m.cache, r.1.cache);
        StoppedAgrees(Fresh(w, rk, home), w.Flags(), steady, f, rs, i, r.0, m.cache, r.1.cache);
      } else {
        PassedAgrees(Fresh(w, rk, home), w.Flags(), steady, f, rs, r.1.cache);
        if f.key in chain {
          MemberAtHome(w, rk, home, f.key, aggregation);
        }
      }
    }
  }

  /** The members of a usable chain come to the same here as in the context of their own aggregation. */
  lemma ChainAtHome(w: World, rk: Ranks, home: Homes, n: nat, chain: seq<string>, aggregation: Option<nat>)
    requires WellRanked(w, rk) && ChainBelow(w, rk, chain, n) && ChainFits(w, chain, aggregation)
    ensures var rs := PlainChain(w, rk, n, chain, home(aggregation));
            forall k :: 0 <= k < |rs| ==> rs[k] == Fresh(w, rk, home)(chain[k])
  {
    forall k | 0 <= k < |chain| ensures PlainMember(w, rk, chain[k], home(aggregation)) == Fresh(w, rk, home)(chain[k]) {
      MemberAtHome(w, rk, home, chain[k], aggregation);
    }
  }

  lemma {:induction false} FilterIsPlain(
      w: World, rk: Ranks, home: Homes, steady: bool, n: nat, f: Filter, aggregation: Option<nat>, m: Memo)
    requires WellRanked(w, rk) && AllApt(w, rk, n, Fresh(w, rk, home), steady)
    requires FilterBelow(w, rk, f, n) && Apt(Fresh(w, rk, home), w.Flags(), steady, f)
    requires Grounded(home(aggregation), aggregation) && Faithful(w, rk, home, m)
    requires Passable(steady, MatchFilter(w, rk, n, f, home(aggregation), aggregation, m).1)
    ensures var r := MatchFilter(w, rk, n, f, home(aggregation), aggregation, m);
            r.0 == PlainFilter(w, rk, n, f, home(aggregation), aggregation) && Faithful(w, rk, home, r.1)
    decreases n, 3
  {
    if f.kind == "cohort" {
      var id := CohortId(w.scope, f);
      if id in w.Cohorts() {
        GroupIsPlain(w, rk, home, steady, rk.cohorts(id), w.Cohorts()[id], aggregation, m);
      }
    } else if f.kind == "flag" {
      DependencyIsPlain(w, rk, home, steady, n, f, aggregation, m);
    }
  }

  lemma {:induction false} GroupIsPlain(
      w: World, rk: Ranks, home: Homes, steady: bool, n: nat, g: Group, aggregation: Option<nat>, m: Memo)
    requires WellRanked(w, rk) && AllApt(w, rk, n, Fresh(w, rk, home), steady)
    requires GroupBelow(w, rk, g, n) && GroupApt(Fresh(w, rk, home), w.Flags(), steady, g)
    requires Grounded(home(aggregation), aggregation) && Faithful(w, rk, home, m)
    requires Passable(steady, MatchGroup(w, rk, n, g, home(aggregation), aggregation, m).1)
    ensures var r := MatchGroup(w, rk, n, g, home(aggregation), aggregation, m);
            r.0 == PlainGroup(w, rk, n, g, home(aggregation), aggregation) && Faithful(w, rk, home, r.1)
    decreases n, 4, g
  {
    if |g.entries| > 0 {
      EntriesArePlain(w, rk, home, steady, n, g, 0, aggregation, None, m);
    }
  }

  lemma {:induction false} EntryIsPlain(
      w: World, rk: Ranks, home: Homes, steady: bool, n: nat, kind: string, e: Entry, aggregation: Option<nat>, m: Memo)
    requires WellRanked(w, rk) && AllApt(w, rk, n, Fresh(w, rk, home), steady)
    requires EntryBelow(w, rk, e, n) && EntryApt(Fresh(w, rk, home), w.Flags(), steady, e)
    requires Grounded(home(aggregation), aggregation) && Faithful(w, rk, home, m)
    requires Passable(steady, MatchEntry(w, rk, n, kind, e, home(aggregation), aggregation, m).1)
    ensures var r := MatchEntry(w, rk, n, kind, e, home(aggregation), aggregation, m);
            r.0 == PlainEntry(w, rk, n, kind, e, home(aggregation), aggregation) && Faithful(w, rk, home, r.1)
    decreases n, 4, e
  {
    match e
    case Junk =>
    case Nested(g) => GroupIsPlain(w, rk, home, steady, n, g, aggregation, m);
    case Single(f) => FilterIsPlain(w, rk, home, steady, n, f, aggregation, m);
  }

  lemma {:induction false} EntriesArePlain(
      w: World, rk: Ranks, home: Homes, steady: bool, n: nat, g: Group, i: nat, aggregation: Option<nat>, reason: Option<Reason>,
      m: Memo)
    requires WellRanked(w, rk) && AllApt(w, rk, n, Fresh(w, rk, home), steady)
    requires GroupBelow(w, rk, g, n) && GroupApt(Fresh(w, rk, home), w.Flags(), steady, g) && i <= |g.entries|
    requires Grounded(home(aggregation), aggregation) && Faithful(w, rk, home, m)
    requires Passable(steady, MatchEntries(w, rk, n, g, i, home(aggregation), aggregation, reason, m).1)
    ensures var r := MatchEntries(w, rk, n, g, i, home(aggregation), aggregation, reason, m);
            r.0 == PlainEntries(w, rk, n, g, i, home(aggregation), aggregation, reason) && Faithful(w, rk, home, r.1)
    decreases n, 4, g, |g.entries| - i
  {
    if i < |g.entries| {
      var ctx := home(aggregation);
      var r := MatchEntry(w, rk, n, g.kind, g.entries[i], ctx, aggregation, m);
      match AddEntry(g.kind, Negated(g.entries[i]), r.0, reason)
      case Halt(_) => EntryIsPlain(w, rk, home, steady, n, g.kind, g.entries[i], aggregation, m);
      case Next(next) =>
        EntriesGrow(w, rk, n, g, i + 1, ctx, aggregation, next, r.1);
        PassableBefore(w, rk, n, ctx, aggregation, steady, r.1, MatchEntries(w, rk, n, g, i + 1, ctx, aggregation, next, r.1).1);
        EntryIsPlain(w, rk, home, steady, n, g.kind, g.entries[i], aggregation, m);
        EntriesArePlain(w, rk, home, steady, n, g, i + 1, aggregation, next, r.1);
    }
  }

  lemma {:induction false} FiltersArePlain(
      w: World, rk: Ranks, home: Homes, steady: bool, n: nat, fs: seq<Filter>, aggregation: Option<nat>, t: Tally, m: Memo)
    requires WellRanked(w, rk) && AllApt(w, rk, n, Fresh(w, rk, home), steady)
    requires FiltersBelow(w, rk, fs, n) && FiltersApt(Fresh(w, rk, home), w.Flags(), steady, fs)
    requires Grounded(home(aggregation), aggregation) && Faithful(w, rk, home, m)
    requires Passable(steady, MatchFilters(w, rk, n, fs, home(aggregation), aggregation, t, m).1)
    ensures var r := MatchFilters(w, rk, n, fs, home(aggregation), aggregation, t, m);
            && r.0 == FoldFilters(PlainOutcomes(w, rk, n, fs, home(aggregation), aggregation), t)
            && Faithful(w, rk, home, r.1)
    decreases n, 5, |fs|
  {
    if |fs| > 0 {
      var ctx := home(aggregation);
      var r := MatchFilter(w, rk, n, fs[0], ctx, aggregation, m);
      OutcomesSplit(w, rk, n, fs, ctx, aggregation);
      match AddFilter(t, r.0)
      case Stop(_) => FilterIsPlain(w, rk, home, steady, n, fs[0], aggregation, m);
      case Go(next) =>
        FiltersGrow(w, rk, n, fs[1..], ctx, aggregation, next, r.1);
        PassableBefore(w, rk, n, ctx, aggregation, steady, r.1, MatchFilters(w, rk, n, fs[1..], ctx, aggregation, next, r.1).1);
        FilterIsPlain(w, rk, home, steady, n, fs[0], aggregation, m);
        FiltersArePlain(w, rk, home, steady, n, fs[1..], aggregation, next, r.1);
    }
  }

  /** Where a condition is placed, its dependencies are at home. */
  ghost predicate AtHome(w: World, flag: Flag, c: Condition, ctx: Ctx, groups: Groups, home: Homes) {
    PlaceOf(w, flag, c, ctx, groups).At? ==>
      ConditionContext(w, flag, c, ctx, groups) == home(EffectiveAggregation(flag, c))
  }

  lemma {:induction false} ConditionIsPlain(
      w: World, rk: Ranks, home: Homes, steady: bool, n: nat, flag: Flag, c: Condition, ctx: Ctx, groups: Groups, m: Memo)
    requires WellRanked(w, rk) && AllApt(w, rk, n, Fresh(w, rk, home), steady)
    requires FiltersBelow(w, rk, c.filters, n) && FiltersApt(Fresh(w, rk, home), w.Flags(), steady, c.filters)
    requires AtHome(w, flag, c, ctx, groups, home) && Faithful(w, rk, home, m)
    requires Passable(steady, MatchCondition(w, rk, n, flag, c, ctx, groups, m).1)
    ensures var r := MatchCondition(w, rk, n, flag, c, ctx, groups, m);
            r.0 == PlainCondition(w, rk, n, flag, c, ctx, groups) && Faithful(w, rk, home, r.1)
    decreases n, 6
  {
    if PlaceOf(w, flag, c, ctx, groups).At? {
      FiltersArePlain(w, rk, home, steady, n, c.filters, EffectiveAggregation(flag, c), NO_TALLY, m);
    }
  }

  lemma {:induction false} ConditionsArePlain(
      w: World, rk: Ranks, home: Homes, steady: bool, n: nat, flag: Flag, i: nat, ctx: Ctx, groups: Groups,
      reason: Option<Reason>, m: Memo)
    requires WellRanked(w, rk) && AllApt(w, rk, n, Fresh(w, rk, home), steady)
    requires FlagBelow(w, rk, flag, n) && FlagApt(Fresh(w, rk, home), w.Flags(), steady, flag) && i <= |flag.conditions|
    requires forall k :: 0 <= k < |flag.conditions| ==> AtHome(w, flag, flag.conditions[k], ctx, groups, home)
    requires Faithful(w, rk, home, m)
    requires Passable(steady, MatchConditions(w, rk, n, flag, i, ctx, groups, reason, m).1)
    ensures var r := MatchConditions(w, rk, n, flag, i, ctx, groups, reason, m);
            r.0 == PlainConditions(w, rk, n, flag, i, ctx, groups, reason) && Faithful(w, rk, home, r.1)
    decreases n, 7, |flag.conditions| - i
  {
    if i < |flag.conditions| {
      var j := MatchCondition(w, rk, n, flag, flag.conditions[i], ctx, groups, m);
      match AddCondition(flag.earlyExit, DefinitionReason(w.scope, flag), j.0, reason)
      case Return(_) => ConditionIsPlain(w, rk, home, steady, n, flag, flag.conditions[i], ctx, groups, m);
      case Continue(next) =>
        ConditionsKeepCache(w, rk, n, flag, i + 1, ctx, groups, next, j.1);
        ConditionIsPlain(w, rk, home, steady, n, flag, flag.conditions[i], ctx, groups, m);
        ConditionsArePlain(w, rk, home, steady, n, flag, i + 1, ctx, groups, next, j.1);
    }
  }

  /** Conditions only add to the cache. */
  lemma {:induction false} ConditionsKeepCache(
      w: World, rk: Ranks, n: nat, flag: Flag, i: nat, ctx: Ctx, groups: Groups, reason: Option<Reason>, m: Memo)
    requires WellRanked(w, rk) && FlagBelow(w, rk, flag, n) && i <= |flag.conditions|
    ensures var r := MatchConditions(w, rk, n, flag, i, ctx, groups, reason, m).1;
            && (forall key :: key in m.cache ==> key in r.cache && r.cache[key] == m.cache[key])
            && (NoNil(r.cache) ==> NoNil(m.cache))
    decreases |flag.conditions| - i
  {
    if i < |flag.conditions| {
      var j := MatchCondition(w, rk, n, flag, flag.conditions[i], ctx, groups, m);
      ConditionGrows(w, rk, n, flag, flag.conditions[i], ctx, groups, m);
      match AddCondition(flag.earlyExit, DefinitionReason(w.scope, flag), j.0, reason)
      case Return(_) =>
      case Continue(next) => ConditionsKeepCache(w, rk, n, flag, i + 1, ctx, groups, next, j.1);
    }
  }

  lemma {:induction false} FlagIsPlain(
      w: World, rk: Ranks, home: Homes, steady: bool, n: nat, flag: Flag, aggregation: Option<nat>, m: Memo)
    requires WellRanked(w, rk) && AllApt(w, rk, n, Fresh(w, rk, home), steady)
    requires FlagBelow(w, rk, flag, n) && FlagApt(Fresh(w, rk, home), w.Flags(), steady, flag)
    requires !NeedsOther(flag, aggregation) && Grounded(home(aggregation), aggregation) && Faithful(w, rk, home, m)
    requires Passable(steady, MatchFlag(w, rk, n, flag, home(aggregation), NO_GROUPS, m).1)
    ensures var r := MatchFlag(w, rk, n, flag, home(aggregation), NO_GROUPS, m);
            r.0 == PlainFlag(w, rk, n, flag, home(aggregation), NO_GROUPS) && Faithful(w, rk, home, r.1)
    decreases n, 8
  {
    var ctx := home(aggregation);
    if HoldoutVariant(w.digest, flag, ctx.distinctId, ctx.deviceId) == NotHeld {
      forall k | 0 <= k < |flag.conditions| ensures AtHome(w, flag, flag.conditions[k], ctx, NO_GROUPS, home) {
        DependencyKeepsContext(w, flag, k, ctx, aggregation);
      }
      ConditionsArePlain(w, rk, home, steady, n, flag, 0, ctx, NO_GROUPS, None, m);
    }
  }

  // ------------------------------------------------------------ the main results

  /** The filters of the flag, and of what ranks below n, are apt for the identities of the call. */
  ghost predicate CallApt(w: World, rk: Ranks, n: nat, steady: bool, flag: Flag, call: Call)
    requires WellRanked(w, rk)
  {
    SubjectOf(w, flag, call).Subject? ==>
      var home := a => Home(w, flag, SubjectOf(w, flag, call).ctx, call.groups, a);
      AllApt(w, rk, n, Fresh(w, rk, home), steady) && FlagApt(Fresh(w, rk, home), w.Flags(), steady, flag)
  }

  lemma CallIsPlain(w: World, rk: Ranks, steady: bool, n: nat, flag: Flag, call: Call)
    requires WellRanked(w, rk) && FlagBelow(w, rk, flag, n) && CallApt(w, rk, n, steady, flag, call)
    requires Passable(steady, ComputeFlagLocally(w, rk, n, flag, call).1)
    ensures ComputeFlagLocally(w, rk, n, flag, call).0 == ComputePlain(w, rk, n, flag, call)
  {
    if flag.active && !flag.continuity && SubjectOf(w, flag, call).Subject? {
      var ctx := SubjectOf(w, flag, call).ctx;
      if HoldoutVariant(w.digest, flag, ctx.distinctId, ctx.deviceId) == NotHeld {
        var home := a => Home(w, flag, ctx, call.groups, a);
        forall k | 0 <= k < |flag.conditions| ensures AtHome(w, flag, flag.conditions[k], ctx, call.groups, home) {
        }
        ConditionsArePlain(w, rk, home, steady, n, flag, 0, ctx, call.groups, None, Memo(map[], []));
      }
    }
  }

  /**
   * A call whose filters are steady, its flag's and those of the flags and
   * cohorts below, gets the answer it would get with every dependency evaluated
   * afresh, whatever is left unresolved on the way.
   */
  lemma CacheIsInvisible(w: World, rk: Ranks, n: nat, flag: Flag, call: Call)
    requires WellRanked(w, rk) && FlagBelow(w, rk, flag, n) && CallApt(w, rk, n, true, flag, call)
    ensures ComputeFlagLocally(w, rk, n, flag, call).0 == ComputePlain(w, rk, n, flag, call)
  {
    CallIsPlain(w, rk, true, n, flag, call);
  }

  /** So does a call that leaves nothing unresolved, if each chain names its own flag. */
  lemma ResolvedCallIsPlain(w: World, rk: Ranks, n: nat, flag: Flag, call: Call)
    requires WellRanked(w, rk) && FlagBelow(w, rk, flag, n) && CallApt(w, rk, n, false, flag, call)
    requires NoNil(ComputeFlagLocally(w, rk, n, flag, call).1.cache)
    ensures ComputeFlagLocally(w, rk, n, flag, call).0 == ComputePlain(w, rk, n, flag, call)
  {
    CallIsPlain(w, rk, false, n, flag, call);
  }
}
