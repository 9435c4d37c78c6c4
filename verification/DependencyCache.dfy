// The cache of dependency results is keyed by flag key alone. That is sound:
// in one call, every evaluation of a given dependency is for the same distinct
// id, device id and properties.

module DependencyCache {

  import opened Wrappers
  import opened Reasons
  import opened Folding
  import opened FlagFolding
  import opened Filters
  import opened Definitions
  import opened CohortScan
  import opened Bucketing
  import opened Evaluator

  // ------------------------------------------------------------ what an evaluation adds

  /** An active flag of this aggregation was evaluated in this context. */
  predicate VisitIn(w: World, v: Visit, ctx: Ctx, aggregation: Option<nat>) {
    && v.key in w.Flags() && w.Flags()[v.key].active && w.Flags()[v.key].aggregation == aggregation
    && v.ctx == ctx
  }

  /** From m to r: only visits in the one context, and only results of flags that rank below n, none overwritten. */
  ghost predicate Grown(w: World, rk: Ranks, n: nat, ctx: Ctx, aggregation: Option<nat>, m: Memo, r: Memo) {
    && |m.visits| <= |r.visits| && r.visits[..|m.visits|] == m.visits
    && (forall i :: |m.visits| <= i < |r.visits| ==> VisitIn(w, r.visits[i], ctx, aggregation))
    && (forall key :: key in m.cache ==> key in r.cache && r.cache[key] == m.cache[key])
    && (forall key :: key in r.cache && key !in m.cache ==> MemberBelow(w, rk, key, n))
  }

  lemma GrownJoins(w: World, rk: Ranks, n: nat, k: nat, ctx: Ctx, aggregation: Option<nat>, a: Memo, b: Memo, c: Memo)
    requires Grown(w, rk, k, ctx, aggregation, a, b) && Grown(w, rk, n, ctx, aggregation, b, c) && k <= n
    ensures Grown(w, rk, n, ctx, aggregation, a, c)
  {
    forall i | |a.visits| <= i < |c.visits| ensures VisitIn(w, c.visits[i], ctx, aggregation) {
      if i < |b.visits| {
        assert c.visits[i] == c.visits[..|b.visits|][i] == b.visits[i];
      }
    }
    assert c.visits[..|a.visits|] == c.visits[..|b.visits|][..|a.visits|];
  }

  lemma GrownWidens(w: World, rk: Ranks, k: nat, n: nat, ctx: Ctx, aggregation: Option<nat>, a: Memo, b: Memo)
    requires Grown(w, rk, k, ctx, aggregation, a, b) && k <= n
    ensures Grown(w, rk, n, ctx, aggregation, a, b)
  {
  }

  /** A group context carries no device. */
  predicate Grounded(ctx: Ctx, aggregation: Option<nat>) {
    aggregation.Some? ==> ctx.deviceId.None?
  }

  /** Where the dependencies of a condition are evaluated. */
  function ConditionContext(w: World, flag: Flag, c: Condition, ctx: Ctx, groups: Groups): Ctx {
    match PlaceOf(w, flag, c, ctx, groups)
    case At(id, props) => DependencyContext(EffectiveAggregation(flag, c), ctx, id, props)
    case _ => ctx
  }

  /** The conditions of a dependency are evaluated where it is. */
  lemma DependencyKeepsContext(w: World, flag: Flag, i: nat, ctx: Ctx, aggregation: Option<nat>)
    requires !NeedsOther(flag, aggregation) && Grounded(ctx, aggregation) && i < |flag.conditions|
    ensures EffectiveAggregation(flag, flag.conditions[i]) == aggregation
    ensures ConditionContext(w, flag, flag.conditions[i], ctx, NO_GROUPS) == ctx
  {
  }

  lemma {:induction false} MemberGrows(
      w: World, rk: Ranks, n: nat, key: string, ctx: Ctx, aggregation: Option<nat>, m: Memo)
    requires WellRanked(w, rk) && key in w.Flags() && MemberBelow(w, rk, key, n)
    requires key !in m.cache && Grounded(ctx, aggregation)
    requires w.Flags()[key].active ==> !NeedsOther(w.Flags()[key], aggregation)
    ensures Grown(w, rk, n, ctx, aggregation, m, MatchMember(w, rk, n, key, ctx, m).1)
    decreases n, 0
  {
    var flag := w.Flags()[key];
    if flag.active && !flag.continuity {
      var k := rk.flags(key);
      var logged := m.Log(key, ctx);
      LogGrows(w, rk, k, key, ctx, aggregation, m);
      FlagGrows(w, rk, k, flag, ctx, aggregation, logged);
      var r := MatchFlag(w, rk, k, flag, ctx, NO_GROUPS, logged).1;
      GrownJoins(w, rk, k, k, ctx, aggregation, m, logged, r);
      RememberGrows(w, rk, n, key, ctx, aggregation, m, r);
    }
  }

  lemma LogGrows(w: World, rk: Ranks, n: nat, key: string, ctx: Ctx, aggregation: Option<nat>, m: Memo)
    requires key in w.Flags() && w.Flags()[key].active && w.Flags()[key].aggregation == aggregation
    ensures Grown(w, rk, n, ctx, aggregation, m, m.Log(key, ctx))
  {
  }

  /** A dependency's own result is not in the cache while it is evaluated, so remembering it overwrites nothing. */
  lemma RememberGrows(w: World, rk: Ranks, n: nat, key: string, ctx: Ctx, aggregation: Option<nat>, m: Memo, r: Memo)
    requires Evaluable(w, key) && key !in m.cache && rk.flags(key) < n
    requires Grown(w, rk, rk.flags(key), ctx, aggregation, m, r)
    ensures key !in r.cache && Grown(w, rk, n, ctx, aggregation, m, r)
    ensures forall value :: Grown(w, rk, n, ctx, aggregation, m, r.Remember(key, value))
  {
    assert !MemberBelow(w, rk, key, rk.flags(key));
  }

  lemma {:induction false} ChainGrows(
      w: World, rk: Ranks, n: nat, chain: seq<string>, ctx: Ctx, aggregation: Option<nat>, m: Memo)
    requires WellRanked(w, rk) && ChainBelow(w, rk, chain, n) && Grounded(ctx, aggregation)
    requires forall i :: 0 <= i < |chain| ==>
               chain[i] in w.Flags() && (w.Flags()[chain[i]].active ==> !NeedsOther(w.Flags()[chain[i]], aggregation))
    ensures Grown(w, rk, n, ctx, aggregation, m, MatchChain(w, rk, n, chain, ctx, m).1)
    decreases n, 1, |chain|
  {
    if |chain| > 0 {
      if chain[0] in m.cache {
        ChainGrows(w, rk, n, chain[1..], ctx, aggregation, m);
      } else {
        var r := MatchMember(w, rk, n, chain[0], ctx, m);
        MemberGrows(w, rk, n, chain[0], ctx, aggregation, m);
        if r.0.None? {
          ChainGrows(w, rk, n, chain[1..], ctx, aggregation, r.1);
          GrownJoins(w, rk, n, n, ctx, aggregation, m, r.1, MatchChain(w, rk, n, chain[1..], ctx, r.1).1);
        }
      }
    }
  }

  lemma {:induction false} DependencyGrows(
      w: World, rk: Ranks, n: nat, f: Filter, ctx: Ctx, aggregation: Option<nat>, m: Memo)
    requires WellRanked(w, rk) && f.kind == "flag" && FilterBelow(w, rk, f, n) && Grounded(ctx, aggregation)
    ensures Grown(w, rk, n, ctx, aggregation, m, MatchDependency(w, rk, n, f, ctx, aggregation, m).1)
    decreases n, 2
  {
    if DependencyError(f, w.Flags(), aggregation).None? {
      ChainErrorMeans(f.chain.value, w.Flags(), aggregation);
      ChainGrows(w, rk, n, f.chain.value, ctx, aggregation, m);
    }
  }

  lemma {:induction false} FilterGrows(
      w: World, rk: Ranks, n: nat, f: Filter, ctx: Ctx, aggregation: Option<nat>, m: Memo)
    requires WellRanked(w, rk) && FilterBelow(w, rk, f, n) && Grounded(ctx, aggregation)
    ensures Grown(w, rk, n, ctx, aggregation, m, MatchFilter(w, rk, n, f, ctx, aggregation, m).1)
    decreases n, 3
  {
    if f.kind == "cohort" {
      var id := CohortId(w.scope, f);
      if id in w.Cohorts() {
        GroupGrows(w, rk, rk.cohorts(id), w.Cohorts()[id], ctx, aggregation, m);
        GrownWidens(w, rk, rk.cohorts(id), n, ctx, aggregation, m, MatchFilter(w, rk, n, f, ctx, aggregation, m).1);
      }
    } else if f.kind == "flag" {
      DependencyGrows(w, rk, n, f, ctx, aggregation, m);
    }
  }

  lemma {:induction false} GroupGrows(
      w: World, rk: Ranks, n: nat, g: Group, ctx: Ctx, aggregation: Option<nat>, m: Memo)
    requires WellRanked(w, rk) && GroupBelow(w, rk, g, n) && Grounded(ctx, aggregation)
    ensures Grown(w, rk, n, ctx, aggregation, m, MatchGroup(w, rk, n, g, ctx, aggregation, m).1)
    decreases n, 4, g
  {
    if |g.entries| > 0 {
      EntriesGrow(w, rk, n, g, 0, ctx, aggregation, None, m);
    }
  }

  lemma {:induction false} EntryGrows(
      w: World, rk: Ranks, n: nat, kind: string, e: Entry, ctx: Ctx, aggregation: Option<nat>, m: Memo)
    requires WellRanked(w, rk) && EntryBelow(w, rk, e, n) && Grounded(ctx, aggregation)
    ensures Grown(w, rk, n, ctx, aggregation, m, MatchEntry(w, rk, n, kind, e, ctx, aggregation, m).1)
    decreases n, 4, e
  {
    match e
    case Junk =>
    case Nested(g) => GroupGrows(w, rk, n, g, ctx, aggregation, m);
    case Single(f) => FilterGrows(w, rk, n, f, ctx, aggregation, m);
  }

  lemma {:induction false} EntriesGrow(
      w: World, rk: Ranks, n: nat, g: Group, i: nat, ctx: Ctx, aggregation: Option<nat>, reason: Option<Reason>,
      m: Memo)
    requires WellRanked(w, rk) && GroupBelow(w, rk, g, n) && i <= |g.entries| && Grounded(ctx, aggregation)
    ensures Grown(w, rk, n, ctx, aggregation, m, MatchEntries(w, rk, n, g, i, ctx, aggregation, reason, m).1)
    decreases n, 4, g, |g.entries| - i
  {
    if i < |g.entries| {
      var r := MatchEntry(w, rk, n, g.kind, g.entries[i], ctx, aggregation, m);
      EntryGrows(w, rk, n, g.kind, g.entries[i], ctx, aggregation, m);
      match AddEntry(g.kind, Negated(g.entries[i]), r.0, reason)
      case Halt(_) =>
      case Next(next) =>
        EntriesGrow(w, rk, n, g, i + 1, ctx, aggregation, next, r.1);
        GrownJoins(w, rk, n, n, ctx, aggregation, m, r.1, MatchEntries(w, rk, n, g, i + 1, ctx, aggregation, next, r.1).1);
    }
  }

  lemma {:induction false} FiltersGrow(
      w: World, rk: Ranks, n: nat, fs: seq<Filter>, ctx: Ctx, aggregation: Option<nat>, t: Tally, m: Memo)
    requires WellRanked(w, rk) && FiltersBelow(w, rk, fs, n) && Grounded(ctx, aggregation)
    ensures Grown(w, rk, n, ctx, aggregation, m, MatchFilters(w, rk, n, fs, ctx, aggregation, t, m).1)
    decreases n, 5, |fs|
  {
    if |fs| > 0 {
      var r := MatchFilter(w, rk, n, fs[0], ctx, aggregation, m);
      FilterGrows(w, rk, n, fs[0], ctx, aggregation, m);
      match AddFilter(t, r.0)
      case Stop(_) =>
      case Go(next) =>
        FiltersGrow(w, rk, n, fs[1..], ctx, aggregation, next, r.1);
        GrownJoins(w, rk, n, n, ctx, aggregation, m, r.1, MatchFilters(w, rk, n, fs[1..], ctx, aggregation, next, r.1).1);
    }
  }

  lemma {:induction false} ConditionGrows(
      w: World, rk: Ranks, n: nat, flag: Flag, c: Condition, ctx: Ctx, groups: Groups, m: Memo)
    requires WellRanked(w, rk) && FiltersBelow(w, rk, c.filters, n)
    ensures Grown(w, rk, n, ConditionContext(w, flag, c, ctx, groups), EffectiveAggregation(flag, c), m,
                  MatchCondition(w, rk, n, flag, c, ctx, groups, m).1)
    decreases n, 6
  {
    match PlaceOf(w, flag, c, ctx, groups)
    case At(id, props) =>
      var a := EffectiveAggregation(flag, c);
      FiltersGrow(w, rk, n, c.filters, DependencyContext(a, ctx, id, props), a, NO_TALLY, m);
    case _ =>
  }

  lemma {:induction false} ConditionsGrow(
      w: World, rk: Ranks, n: nat, flag: Flag, i: nat, ctx: Ctx, aggregation: Option<nat>, reason: Option<Reason>,
      m: Memo)
    requires WellRanked(w, rk) && FlagBelow(w, rk, flag, n) && i <= |flag.conditions|
    requires !NeedsOther(flag, aggregation) && Grounded(ctx, aggregation)
    ensures Grown(w, rk, n, ctx, aggregation, m, MatchConditions(w, rk, n, flag, i, ctx, NO_GROUPS, reason, m).1)
    decreases n, 7, |flag.conditions| - i
  {
    if i < |flag.conditions| {
      var j := MatchCondition(w, rk, n, flag, flag.conditions[i], ctx, NO_GROUPS, m);
      DependencyKeepsContext(w, flag, i, ctx, aggregation);
      ConditionGrows(w, rk, n, flag, flag.conditions[i], ctx, NO_GROUPS, m);
      match AddCondition(flag.earlyExit, DefinitionReason(w.scope, flag), j.0, reason)
      case Return(_) =>
      case Continue(next) =>
        ConditionsGrow(w, rk, n, flag, i + 1, ctx, aggregation, next, j.1);
        GrownJoins(w, rk, n, n, ctx, aggregation, m, j.1,
                   MatchConditions(w, rk, n, flag, i + 1, ctx, NO_GROUPS, next, j.1).1);
    }
  }

  /** A dependency evaluated in a context evaluates its own dependencies in the same one. */
  lemma {:induction false} FlagGrows(
      w: World, rk: Ranks, n: nat, flag: Flag, ctx: Ctx, aggregation: Option<nat>, m: Memo)
    requires WellRanked(w, rk) && FlagBelow(w, rk, flag, n)
    requires !NeedsOther(flag, aggregation) && Grounded(ctx, aggregation)
    ensures Grown(w, rk, n, ctx, aggregation, m, MatchFlag(w, rk, n, flag, ctx, NO_GROUPS, m).1)
    decreases n, 8
  {
    if HoldoutVariant(w.digest, flag, ctx.distinctId, ctx.deviceId) == NotHeld {
      ConditionsGrow(w, rk, n, flag, 0, ctx, aggregation, None, m);
    }
  }

  // ------------------------------------------------------------ the flag that is asked for

  /** The one context in which dependencies of an aggregation are evaluated during a call. */
  function Home(w: World, flag: Flag, ctx: Ctx, groups: Groups, aggregation: Option<nat>): Ctx {
    if aggregation == flag.aggregation
    then DependencyContext(aggregation, ctx, BucketingId(flag, ctx.distinctId, ctx.deviceId), ctx.props)
    else if aggregation.None? then ctx
    else match GroupPlace(w, aggregation.value, groups)
         case At(id, props) => Ctx(id, None, props)
         case _ => ctx
  }

  ghost predicate HomeVisits(w: World, flag: Flag, ctx: Ctx, groups: Groups, m: Memo) {
    forall i :: 0 <= i < |m.visits| ==>
      && m.visits[i].key in w.Flags()
      && VisitIn(w, m.visits[i], Home(w, flag, ctx, groups, w.Flags()[m.visits[i].key].aggregation),
                 w.Flags()[m.visits[i].key].aggregation)
  }

  lemma GrownStaysHome(
      w: World, rk: Ranks, n: nat, flag: Flag, c: Condition, ctx: Ctx, groups: Groups, m: Memo, r: Memo)
    requires HomeVisits(w, flag, ctx, groups, m)
    requires Grown(w, rk, n, ConditionContext(w, flag, c, ctx, groups), EffectiveAggregation(flag, c), m, r)
    requires PlaceOf(w, flag, c, ctx, groups).At? || r == m
    ensures HomeVisits(w, flag, ctx, groups, r)
  {
    var a := EffectiveAggregation(flag, c);
    if PlaceOf(w, flag, c, ctx, groups).At? {
      assert ConditionContext(w, flag, c, ctx, groups) == Home(w, flag, ctx, groups, a);
      forall i | 0 <= i < |r.visits|
        ensures r.visits[i].key in w.Flags()
        ensures VisitIn(w, r.visits[i], Home(w, flag, ctx, groups, w.Flags()[r.visits[i].key].aggregation),
                        w.Flags()[r.visits[i].key].aggregation)
      {
        if i < |m.visits| {
          assert r.visits[i] == r.visits[..|m.visits|][i] == m.visits[i];
        } else {
          assert VisitIn(w, r.visits[i], Home(w, flag, ctx, groups, a), a);
        }
      }
    }
  }

  lemma {:induction false} ConditionsStayHome(
      w: World, rk: Ranks, n: nat, flag: Flag, i: nat, ctx: Ctx, groups: Groups, reason: Option<Reason>, m: Memo)
    requires WellRanked(w, rk) && FlagBelow(w, rk, flag, n) && i <= |flag.conditions|
    requires HomeVisits(w, flag, ctx, groups, m)
    ensures HomeVisits(w, flag, ctx, groups, MatchConditions(w, rk, n, flag, i, ctx, groups, reason, m).1)
    decreases |flag.conditions| - i
  {
    if i < |flag.conditions| {
      var c := flag.conditions[i];
      var j := MatchCondition(w, rk, n, flag, c, ctx, groups, m);
      ConditionGrows(w, rk, n, flag, c, ctx, groups, m);
      GrownStaysHome(w, rk, n, flag, c, ctx, groups, m, j.1);
      match AddCondition(flag.earlyExit, DefinitionReason(w.scope, flag), j.0, reason)
      case Return(_) =>
      case Continue(next) => ConditionsStayHome(w, rk, n, flag, i + 1, ctx, groups, next, j.1);
    }
  }

  lemma CallStaysHome(w: World, rk: Ranks, n: nat, flag: Flag, call: Call) returns (ctx: Ctx)
    requires WellRanked(w, rk) && FlagBelow(w, rk, flag, n)
    ensures HomeVisits(w, flag, ctx, call.groups, ComputeFlagLocally(w, rk, n, flag, call).1)
  {
    ctx := if SubjectOf(w, flag, call).Subject? then SubjectOf(w, flag, call).ctx else Ctx("", None, map[]);
    if flag.active && !flag.continuity && SubjectOf(w, flag, call).Subject? {
      var start := Memo(map[], []);
      if HoldoutVariant(w.digest, flag, ctx.distinctId, ctx.deviceId) == NotHeld {
        ConditionsStayHome(w, rk, n, flag, 0, ctx, call.groups, None, start);
      }
    }
  }

  /**
   * Memoising by flag key alone is sound: in one call, through conditions,
   * cohorts and nested chains, any two evaluations of the same dependency are
   * for the same distinct id, device id and properties.
   */
  lemma OneContextPerFlag(w: World, rk: Ranks, n: nat, flag: Flag, call: Call, i: nat, j: nat)
    requires WellRanked(w, rk) && FlagBelow(w, rk, flag, n)
    requires var visits := ComputeFlagLocally(w, rk, n, flag, call).1.visits;
             i < |visits| && j < |visits| && visits[i].key == visits[j].key
    ensures var visits := ComputeFlagLocally(w, rk, n, flag, call).1.visits;
            visits[i].ctx == visits[j].ctx
  {
    var ctx := CallStaysHome(w, rk, n, flag, call);
  }
}
