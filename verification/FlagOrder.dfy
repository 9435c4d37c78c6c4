// The order of filters, and a whole flag. What a condition reports does not
// depend on the order of its filters, but how the flag's evaluation goes on
// does, when the first filter that could not be checked needs the server and
// another does not.

module FlagOrder {

  import opened Wrappers
  import opened Reasons
  import opened Folding
  import opened FlagFolding
  import opened Filters
  import opened Definitions
  import opened CohortScan
  import opened Bucketing
  import opened Evaluator
  import opened DependencyCache
  import opened Uncached
  import opened Steadiness
  import opened CacheTransparency
  import opened FilterOrder
  import opened EarlyExit

  // ------------------------------------------------------------ one condition's outcomes

  predicate SomeInconclusive(os: seq<Outcome>) {
    exists i :: 0 <= i < |os| && os[i].Inconclusive?
  }

  predicate SomeServer(os: seq<Outcome>) {
    exists i :: 0 <= i < |os| && os[i].ServerRequired?
  }

  /** Every order gives the same result: some filter rules the condition out, or all that is unchecked is of a kind. */
  predicate OrderFree(os: seq<Outcome>) {
    Decided(false) in os || !SomeInconclusive(os) || !SomeServer(os)
  }

  /** Once a filter could not be checked, the kind of the result is that of the first such filter. */
  lemma {:induction false} KindIsKept(os: seq<Outcome>, t: Tally)
    requires t.reason.Some? && (t.server.Some? ==> t.server.value.ServerRequired?)
    ensures var r := FoldFilters(os, t);
            && (r == NoMatch <==> Decided(false) in os)
            && (r != NoMatch ==> r.Unresolved?)
            && (r != NoMatch ==> r.error.ServerRequired? == t.server.Some? && r.error.Inconclusive? == t.server.None?)
  {
    if |os| > 0 {
      match AddFilter(t, os[0])
      case Stop(_) =>
      case Go(next) => KindIsKept(os[1..], next);
    }
  }

  lemma {:induction false} KindHasWitness(os: seq<Outcome>)
    requires FoldFilters(os, NO_TALLY).Unresolved?
    ensures FoldFilters(os, NO_TALLY).error.ServerRequired? ==> SomeServer(os)
    ensures FoldFilters(os, NO_TALLY).error.Inconclusive? ==> SomeInconclusive(os)
  {
    if |os| > 0 && !os[0].Broken? {
      if Unchecked(os[0]) {
        KindIsKept(os[1..], AddFilter(NO_TALLY, os[0]).tally);
      } else {
        KindHasWitness(os[1..]);
        assert forall i :: 0 <= i < |os| - 1 ==> os[1..][i] == os[i + 1];
      }
    }
  }

  lemma OrderFreeCarries(a: seq<Outcome>, b: seq<Outcome>)
    requires multiset(a) == multiset(b)
    ensures OrderFree(a) <==> OrderFree(b)
  {
    SameElements(a, b);
    SameElements(b, a);
    assert forall i :: 0 <= i < |a| ==> a[i] in b;
    assert forall i :: 0 <= i < |b| ==> b[i] in a;
  }

  lemma OrderFreeFolds(a: seq<Outcome>, b: seq<Outcome>)
    requires multiset(a) == multiset(b) && Broken !in a && OrderFree(a)
    ensures FoldFilters(a, NO_TALLY) == FoldFilters(b, NO_TALLY)
  {
    SameElements(b, a);
    FilterOrderIsIrrelevant(a, b);
    OrderFreeCarries(a, b);
    FiltersMean(a, NO_TALLY);
    FiltersMean(b, NO_TALLY);
    if FoldFilters(a, NO_TALLY).Unresolved? {
      KindHasWitness(a);
      KindHasWitness(b);
      SameKinds(a, b);
    }
  }

  lemma SameKinds(a: seq<Outcome>, b: seq<Outcome>)
    requires multiset(a) == multiset(b)
    ensures SomeServer(a) <==> SomeServer(b)
    ensures SomeInconclusive(a) <==> SomeInconclusive(b)
  {
    SameElements(a, b);
    SameElements(b, a);
    assert forall i :: 0 <= i < |a| ==> a[i] in b;
    assert forall i :: 0 <= i < |b| ==> b[i] in a;
  }

  /** The same outcomes with outcome i first. */
  function Fronted(os: seq<Outcome>, i: nat): seq<Outcome>
    requires i < |os|
  {
    [os[i]] + (os[..i] + os[i + 1..])
  }

  lemma FrontedPermutes(os: seq<Outcome>, i: nat)
    requires i < |os|
    ensures multiset(Fronted(os, i)) == multiset(os)
  {
    assert os == os[..i] + ([os[i]] + os[i + 1..]);
  }

  lemma FrontedFolds(os: seq<Outcome>, i: nat)
    requires i < |os| && Unchecked(os[i]) && Decided(false) !in os
    ensures var r := FoldFilters(Fronted(os, i), NO_TALLY);
            r.Unresolved? && r.error.ServerRequired? == os[i].ServerRequired?
  {
    var rest := os[..i] + os[i + 1..];
    assert Fronted(os, i)[1..] == rest;
    assert Decided(false) !in rest;
    KindIsKept(rest, AddFilter(NO_TALLY, os[i]).tally);
  }

  /**
   * Without an unclassified error every order of a condition's filters gives the
   * same result, kind of error included, if and only if some filter rules the
   * condition out, or no two unchecked ones differ in whether they need the
   * server.
   */
  lemma ResultOrderIff(a: seq<Outcome>)
    requires Broken !in a
    ensures OrderFree(a) <==>
              forall b: seq<Outcome> :: multiset(b) == multiset(a) ==> FoldFilters(b, NO_TALLY) == FoldFilters(a, NO_TALLY)
  {
    if OrderFree(a) {
      forall b: seq<Outcome> | multiset(b) == multiset(a) ensures FoldFilters(b, NO_TALLY) == FoldFilters(a, NO_TALLY) {
        OrderFreeFolds(a, b);
      }
    } else {
      var i :| 0 <= i < |a| && a[i].Inconclusive?;
      var j :| 0 <= j < |a| && a[j].ServerRequired?;
      FrontedPermutes(a, i);
      FrontedPermutes(a, j);
      FrontedFolds(a, i);
      FrontedFolds(a, j);
      assert FoldFilters(Fronted(a, i), NO_TALLY) != FoldFilters(Fronted(a, j), NO_TALLY);
    }
  }

  // ------------------------------------------------------------ flags that differ in the order of filters

  predicate SameButOrder(c: Condition, d: Condition) {
    d == c.(filters := d.filters) && multiset(c.filters) == multiset(d.filters)
  }

  predicate Reordered(flag: Flag, other: Flag) {
    && other == flag.(conditions := other.conditions) && |flag.conditions| == |other.conditions|
    && forall i :: 0 <= i < |flag.conditions| ==> SameButOrder(flag.conditions[i], other.conditions[i])
  }

  lemma SameFiltersIn(a: seq<Filter>, b: seq<Filter>)
    requires multiset(a) == multiset(b)
    ensures |a| == |b| && forall f :: f in a <==> f in b
  {
    assert |multiset(a)| == |multiset(b)|;
    assert forall f :: f in a <==> f in multiset(a);
    assert forall f :: f in b <==> f in multiset(b);
  }

  lemma EntersAlike(s: Scope, a: seq<Filter>, b: seq<Filter>, id: string)
    requires forall f :: f in a <==> f in b
    ensures Enters(s, a, id) <==> Enters(s, b, id)
  {
    if g :| SomeReaches(s, a, g) && NamesCohort(s, g) && CohortId(s, g) == id {
      assert SomeReaches(s, b, g);
    }
    if g :| SomeReaches(s, b, g) && NamesCohort(s, g) && CohortId(s, g) == id {
      assert SomeReaches(s, a, g);
    }
  }

  lemma EnteredAlike(s: Scope, flag: Flag, other: Flag, i: nat, id: string)
    requires Reordered(flag, other) && i <= |flag.conditions|
    ensures EnteredBefore(s, flag, i, id) <==> EnteredBefore(s, other, i, id)
  {
    forall j | 0 <= j < i
      ensures Enters(s, flag.conditions[j].filters, id) <==> Enters(s, other.conditions[j].filters, id)
    {
      SameFiltersIn(flag.conditions[j].filters, other.conditions[j].filters);
      EntersAlike(s, flag.conditions[j].filters, other.conditions[j].filters, id);
    }
  }

  lemma NewlyAlike(s: Scope, flag: Flag, other: Flag, i: nat)
    requires Reordered(flag, other) && i < |flag.conditions| && NewlyUnusable(s, flag, i)
    ensures NewlyUnusable(s, other, i)
  {
    SameFiltersIn(flag.conditions[i].filters, other.conditions[i].filters);
    var f, ids, g :| && f in flag.conditions[i].filters && Leads(s, f, ids, g)
                     && Unusable(s, g, EffectiveAggregation(flag, flag.conditions[i]))
                     && forall id :: id in ids ==> !EnteredBefore(s, flag, i, id);
    forall id | id in ids ensures !EnteredBefore(s, other, i, id) {
      EnteredAlike(s, flag, other, i, id);
    }
    assert f in other.conditions[i].filters && Leads(s, f, ids, g)
        && Unusable(s, g, EffectiveAggregation(other, other.conditions[i]));
  }

  /** The reason known from the definition alone does not depend on the order. */
  lemma DefinitionReasonAlike(s: Scope, flag: Flag, other: Flag)
    requires Reordered(flag, other)
    ensures DefinitionReason(s, flag) == DefinitionReason(s, other)
  {
    FlagScanIsExact(s, flag);
    FlagScanIsExact(s, other);
    forall i | 0 <= i < |flag.conditions| ensures NewlyUnusable(s, flag, i) <==> NewlyUnusable(s, other, i) {
      if NewlyUnusable(s, flag, i) {
        NewlyAlike(s, flag, other, i);
      }
      if NewlyUnusable(s, other, i) {
        NewlyAlike(s, other, flag, i);
      }
    }
  }

  // ------------------------------------------------------------ without the cache

  /** What the filters of a condition come to on their own leaves no order to show. */
  ghost predicate ConditionFree(
      w: World, rk: Ranks, n: nat, flag: Flag, c: Condition, ctx: Ctx, groups: Groups)
    requires WellRanked(w, rk) && FiltersBelow(w, rk, c.filters, n)
  {
    match PlaceOf(w, flag, c, ctx, groups)
    case At(id, props) =>
      var a := EffectiveAggregation(flag, c);
      var os := PlainOutcomes(w, rk, n, c.filters, DependencyContext(a, ctx, id, props), a);
      Broken !in os && OrderFree(os)
    case _ => true
  }

  lemma OutcomesReordered(
      w: World, rk: Ranks, n: nat, a: seq<Filter>, b: seq<Filter>, ctx: Ctx, aggregation: Option<nat>)
    requires WellRanked(w, rk) && FiltersBelow(w, rk, a, n) && FiltersBelow(w, rk, b, n) && multiset(a) == multiset(b)
    requires Broken !in PlainOutcomes(w, rk, n, a, ctx, aggregation)
    requires OrderFree(PlainOutcomes(w, rk, n, a, ctx, aggregation))
    ensures FoldFilters(PlainOutcomes(w, rk, n, a, ctx, aggregation), NO_TALLY)
         == FoldFilters(PlainOutcomes(w, rk, n, b, ctx, aggregation), NO_TALLY)
  {
    OutcomesAreMapped(w, rk, n, a, ctx, aggregation);
    OutcomesAreMapped(w, rk, n, b, ctx, aggregation);
    MappedPermutes(Alone(w, rk, n, ctx, aggregation), a, b);
    OrderFreeFolds(PlainOutcomes(w, rk, n, a, ctx, aggregation), PlainOutcomes(w, rk, n, b, ctx, aggregation));
  }

  lemma PlaceAlike(w: World, flag: Flag, other: Flag, i: nat, ctx: Ctx, groups: Groups)
    requires Reordered(flag, other) && i < |flag.conditions|
    ensures var c, d := flag.conditions[i], other.conditions[i];
            && PlaceOf(w, flag, c, ctx, groups) == PlaceOf(w, other, d, ctx, groups)
            && EffectiveAggregation(flag, c) == EffectiveAggregation(other, d)
            && (forall id :: Included(w, flag, c, id) == Included(w, other, d, id))
            && (forall id :: ConditionValue(w, flag, c, id) == ConditionValue(w, other, d, id))
  {
    assert SameButOrder(flag.conditions[i], other.conditions[i]);
  }

  lemma PlainConditionAlike(
      w: World, rk: Ranks, n: nat, flag: Flag, other: Flag, i: nat, ctx: Ctx, groups: Groups)
    requires WellRanked(w, rk) && FlagBelow(w, rk, flag, n) && FlagBelow(w, rk, other, n)
    requires Reordered(flag, other) && i < |flag.conditions|
    requires ConditionFree(w, rk, n, flag, flag.conditions[i], ctx, groups)
    ensures PlainCondition(w, rk, n, flag, flag.conditions[i], ctx, groups)
         == PlainCondition(w, rk, n, other, other.conditions[i], ctx, groups)
  {
    var c, d := flag.conditions[i], other.conditions[i];
    PlaceAlike(w, flag, other, i, ctx, groups);
    match PlaceOf(w, flag, c, ctx, groups)
    case At(id, props) =>
      var a := EffectiveAggregation(flag, c);
      OutcomesReordered(w, rk, n, c.filters, d.filters, DependencyContext(a, ctx, id, props), a);
    case _ =>
  }

  lemma {:induction false} PlainConditionsAlike(
      w: World, rk: Ranks, n: nat, flag: Flag, other: Flag, i: nat, ctx: Ctx, groups: Groups, reason: Option<Reason>)
    requires WellRanked(w, rk) && FlagBelow(w, rk, flag, n) && FlagBelow(w, rk, other, n)
    requires Reordered(flag, other) && i <= |flag.conditions|
    requires forall k :: 0 <= k < |flag.conditions| ==> ConditionFree(w, rk, n, flag, flag.conditions[k], ctx, groups)
    ensures PlainConditions(w, rk, n, flag, i, ctx, groups, reason) == PlainConditions(w, rk, n, other, i, ctx, groups, reason)
    decreases |flag.conditions| - i
  {
    if i < |flag.conditions| {
      var j := PlainCondition(w, rk, n, flag, flag.conditions[i], ctx, groups);
      PlainConditionAlike(w, rk, n, flag, other, i, ctx, groups);
      DefinitionReasonAlike(w.scope, flag, other);
      match AddCondition(flag.earlyExit, DefinitionReason(w.scope, flag), j, reason)
      case Return(_) =>
      case Continue(next) => PlainConditionsAlike(w, rk, n, flag, other, i + 1, ctx, groups, next);
    }
  }

  lemma SubjectAlike(w: World, flag: Flag, other: Flag, call: Call)
    requires Reordered(flag, other)
    ensures SubjectOf(w, flag, call) == SubjectOf(w, other, call)
  {
    DefinitionReasonAlike(w.scope, flag, other);
    forall i | 0 <= i < |flag.conditions| ensures |flag.conditions[i].filters| == |other.conditions[i].filters| {
      SameFiltersIn(flag.conditions[i].filters, other.conditions[i].filters);
    }
  }

  /** No condition of the flag that the call places has an order to show. */
  ghost predicate CallFree(w: World, rk: Ranks, n: nat, flag: Flag, call: Call)
    requires WellRanked(w, rk) && FlagBelow(w, rk, flag, n)
  {
    SubjectOf(w, flag, call).Subject? ==>
      forall k :: 0 <= k < |flag.conditions| ==>
        ConditionFree(w, rk, n, flag, flag.conditions[k], SubjectOf(w, flag, call).ctx, call.groups)
  }

  lemma PlainFlagAlike(w: World, rk: Ranks, n: nat, flag: Flag, other: Flag, ctx: Ctx, groups: Groups)
    requires WellRanked(w, rk) && FlagBelow(w, rk, flag, n) && FlagBelow(w, rk, other, n) && Reordered(flag, other)
    requires forall k :: 0 <= k < |flag.conditions| ==> ConditionFree(w, rk, n, flag, flag.conditions[k], ctx, groups)
    ensures PlainFlag(w, rk, n, flag, ctx, groups) == PlainFlag(w, rk, n, other, ctx, groups)
  {
    DefinitionReasonAlike(w.scope, flag, other);
    PlainConditionsAlike(w, rk, n, flag, other, 0, ctx, groups, None);
  }

  lemma PlainAlike(w: World, rk: Ranks, n: nat, flag: Flag, other: Flag, call: Call)
    requires WellRanked(w, rk) && FlagBelow(w, rk, flag, n) && FlagBelow(w, rk, other, n)
    requires Reordered(flag, other) && CallFree(w, rk, n, flag, call)
    ensures ComputePlain(w, rk, n, flag, call) == ComputePlain(w, rk, n, other, call)
  {
    SubjectAlike(w, flag, other, call);
    if SubjectOf(w, flag, call).Subject? {
      PlainFlagAlike(w, rk, n, flag, other, SubjectOf(w, flag, call).ctx, call.groups);
    }
  }

  /** Steadiness is about what each flag comes to. */
  lemma SteadyAlike(p: Plain, q: Plain, flags: map<string, Flag>, f: Filter)
    requires forall key :: p(key) == q(key)
    ensures Steady(p, flags, f) <==> Steady(q, flags, f)
  {
    if UsableChain(flags, f) {
      var chain := f.chain.value;
      assert forall i :: 0 <= i < |chain| ==> p(chain[i]) == q(chain[i]);
      assert MeetsUnsettled(p, chain) <==> MeetsUnsettled(q, chain);
      assert Serverless(p, chain) <==> Serverless(q, chain);
      assert AllValues(p, chain) <==> AllValues(q, chain);
    }
  }

  lemma AllAptAlike(w: World, rk: Ranks, n: nat, p: Plain, q: Plain)
    requires AllApt(w, rk, n, p, true) && forall key :: p(key) == q(key)
    ensures AllApt(w, rk, n, q, true)
  {
    forall f: Filter ensures Steady(p, w.Flags(), f) <==> Steady(q, w.Flags(), f) {
      SteadyAlike(p, q, w.Flags(), f);
    }
    forall key | Evaluable(w, key) && rk.flags(key) < n ensures FlagApt(q, w.Flags(), true, w.Flags()[key]) {
      forall i, k | 0 <= i < |w.Flags()[key].conditions| && 0 <= k < |w.Flags()[key].conditions[i].filters|
        ensures Apt(q, w.Flags(), true, w.Flags()[key].conditions[i].filters[k])
      {
        assert FiltersApt(p, w.Flags(), true, w.Flags()[key].conditions[i].filters);
      }
    }
    forall id | id in w.Cohorts() && rk.cohorts(id) < n ensures GroupApt(q, w.Flags(), true, w.Cohorts()[id]) {
      assert GroupApt(p, w.Flags(), true, w.Cohorts()[id]);
      EntriesAptIff(p, w.Flags(), true, w.Cohorts()[id].entries);
      EntriesAptIff(q, w.Flags(), true, w.Cohorts()[id].entries);
    }
  }

  lemma AptAlike(p: Plain, q: Plain, flags: map<string, Flag>, flag: Flag, other: Flag)
    requires Reordered(flag, other) && FlagApt(p, flags, true, flag) && forall key :: p(key) == q(key)
    ensures FlagApt(q, flags, true, other)
  {
    forall i, k | 0 <= i < |other.conditions| && 0 <= k < |other.conditions[i].filters|
      ensures Apt(q, flags, true, other.conditions[i].filters[k])
    {
      SameFilters(p, flags, true, flag.conditions[i].filters, other.conditions[i].filters);
      assert Apt(p, flags, true, other.conditions[i].filters[k]);
      SteadyAlike(p, q, flags, other.conditions[i].filters[k]);
    }
  }

  lemma FreshAlike(w: World, rk: Ranks, home: Homes, there: Homes)
    requires WellRanked(w, rk) && forall a :: home(a) == there(a)
    ensures forall key :: Fresh(w, rk, home)(key) == Fresh(w, rk, there)(key)
  {
  }

  lemma CallAptAlike(w: World, rk: Ranks, n: nat, flag: Flag, other: Flag, call: Call)
    requires WellRanked(w, rk) && Reordered(flag, other) && CallApt(w, rk, n, true, flag, call)
    ensures CallApt(w, rk, n, true, other, call)
  {
    SubjectAlike(w, flag, other, call);
    if SubjectOf(w, flag, call).Subject? {
      var ctx := SubjectOf(w, flag, call).ctx;
      var home: Homes := a => Home(w, flag, ctx, call.groups, a);
      var there: Homes := a => Home(w, other, ctx, call.groups, a);
      FreshAlike(w, rk, home, there);
      AllAptAlike(w, rk, n, Fresh(w, rk, home), Fresh(w, rk, there));
      AptAlike(Fresh(w, rk, home), Fresh(w, rk, there), w.Flags(), flag, other);
    }
  }

  /**
   * Reordering the filters inside the conditions of a flag leaves the answer of
   * the whole call as it is, when the filters are steady and those of each
   * condition, evaluated on their own, leave no order to show.
   */
  lemma FlagOrderIsInvisible(w: World, rk: Ranks, n: nat, flag: Flag, other: Flag, call: Call)
    requires WellRanked(w, rk) && FlagBelow(w, rk, flag, n) && FlagBelow(w, rk, other, n)
    requires Reordered(flag, other) && CallApt(w, rk, n, true, flag, call) && CallFree(w, rk, n, flag, call)
    ensures ComputeFlagLocally(w, rk, n, flag, call).0 == ComputeFlagLocally(w, rk, n, other, call).0
  {
    CallAptAlike(w, rk, n, flag, other, call);
    CacheIsInvisible(w, rk, n, flag, call);
    CacheIsInvisible(w, rk, n, other, call);
    PlainAlike(w, rk, n, flag, other, call);
  }

  // A plan that is not known and a cohort that is not loaded, before a condition for everyone.

  const IN_MISSING := Filter("id", "in", Str("9"), "cohort", false, None)

  function EitherWay(fs: seq<Filter>): Flag {
    Flag("g", true, false, None, [Condition(fs, None, None, None), EVERYONE], false, [], None, false)
  }

  lemma MissingIs(w: World, ctx: Ctx, m: Memo)
    requires w.scope.defs == NO_DEFINITIONS && WellRanked(w, UNRANKED) && FilterBelow(w, UNRANKED, IN_MISSING, 0)
    ensures MatchFilter(w, UNRANKED, 0, IN_MISSING, ctx, None, m) == (NO_COHORT, m)
  {
  }

  ghost predicate IsPair(x: Filter, y: Filter) {
    (x == PLAN_SET && y == IN_MISSING) || (x == IN_MISSING && y == PLAN_SET)
  }

  lemma PairIs(w: World, x: Filter, y: Filter, ctx: Ctx, m: Memo)
    requires w.scope.defs == NO_DEFINITIONS && WellRanked(w, UNRANKED) && FiltersBelow(w, UNRANKED, [x, y], 0)
    requires IsPair(x, y) && "plan" !in ctx.props
    ensures var r := MatchFilters(w, UNRANKED, 0, [x, y], ctx, None, NO_TALLY, m).0;
            r.Unresolved? && if x == PLAN_SET then r.error.Inconclusive? else r.error.ServerRequired?
  {
    assert [x, y][0] == x && [x, y][1..] == [y] && [y][1..] == [];
    assert FilterBelow(w, UNRANKED, x, 0) && FilterBelow(w, UNRANKED, y, 0);
    PlanIs(w, ctx, m);
    MissingIs(w, ctx, m);
    var t := AddFilter(NO_TALLY, if x == PLAN_SET then MISSING else NO_COHORT).tally;
    var u := AddFilter(t, if x == PLAN_SET then NO_COHORT else MISSING).tally;
    assert MatchFilters(w, UNRANKED, 0, [], ctx, None, u, m).0 == CloseFilters(u);
    assert MatchFilters(w, UNRANKED, 0, [y], ctx, None, t, m) == MatchFilters(w, UNRANKED, 0, [], ctx, None, u, m);
  }

  lemma EitherWayIsRanked(w: World, x: Filter, y: Filter)
    requires w.scope.defs == NO_DEFINITIONS && IsPair(x, y)
    ensures WellRanked(w, UNRANKED) && FiltersBelow(w, UNRANKED, [x, y], 0) && FlagBelow(w, UNRANKED, EitherWay([x, y]), 0)
  {
    assert FiltersBelow(w, UNRANKED, [x, y], 0);
  }

  lemma PairPlaced(w: World, fs: seq<Filter>, ctx: Ctx, m: Memo)
    requires w.scope.defs == NO_DEFINITIONS && WellRanked(w, UNRANKED) && FiltersBelow(w, UNRANKED, fs, 0)
    ensures MatchCondition(w, UNRANKED, 0, EitherWay(fs), Condition(fs, None, None, None), ctx, NO_GROUPS, m).0.result
         == Rolled(MatchFilters(w, UNRANKED, 0, fs, ctx, None, NO_TALLY, m).0, true)
  {
  }

  lemma ForEveryone(w: World, fs: seq<Filter>, ctx: Ctx, m: Memo)
    requires w.scope.defs == NO_DEFINITIONS && WellRanked(w, UNRANKED) && FiltersBelow(w, UNRANKED, EVERYONE.filters, 0)
    ensures MatchCondition(w, UNRANKED, 0, EitherWay(fs), EVERYONE, ctx, NO_GROUPS, m).0 == Judged(Match, Boolean(true))
  {
  }

  lemma AddUnchecked(earlyExit: bool, definition: Option<Reason>, j: Judged, reason: Option<Reason>)
    requires j.result.Failed?
    ensures var step, e := AddCondition(earlyExit, definition, j, reason), j.result.error;
            && (e.Inconclusive? ==> step == Continue(Some(Pick(reason, e.reason))))
            && (e.ServerRequired? ==> step.Return? && step.result.Error? && step.result.error.ServerRequired?)
  {
  }

  lemma InconclusiveGoesOn(
      w: World, rk: Ranks, n: nat, flag: Flag, i: nat, ctx: Ctx, groups: Groups, reason: Option<Reason>, m: Memo)
    requires WellRanked(w, rk) && FlagBelow(w, rk, flag, n) && i < |flag.conditions|
    requires var r := MatchCondition(w, rk, n, flag, flag.conditions[i], ctx, groups, m).0.result;
             r.Failed? && r.error.Inconclusive?
    ensures var j := MatchCondition(w, rk, n, flag, flag.conditions[i], ctx, groups, m);
            MatchConditions(w, rk, n, flag, i, ctx, groups, reason, m)
            == MatchConditions(w, rk, n, flag, i + 1, ctx, groups, Some(Pick(reason, j.0.result.error.reason)), j.1)
  {
    var j := MatchCondition(w, rk, n, flag, flag.conditions[i], ctx, groups, m).0;
    AddUnchecked(flag.earlyExit, DefinitionReason(w.scope, flag), j, reason);
    ConditionsStep(w, rk, n, flag, i, ctx, groups, reason, m);
  }

  lemma ServerRequiredStops(
      w: World, rk: Ranks, n: nat, flag: Flag, i: nat, ctx: Ctx, groups: Groups, reason: Option<Reason>, m: Memo)
    requires WellRanked(w, rk) && FlagBelow(w, rk, flag, n) && i < |flag.conditions|
    requires var r := MatchCondition(w, rk, n, flag, flag.conditions[i], ctx, groups, m).0.result;
             r.Failed? && r.error.ServerRequired?
    ensures var r := MatchConditions(w, rk, n, flag, i, ctx, groups, reason, m).0;
            r.Error? && r.error.ServerRequired?
  {
    var j := MatchCondition(w, rk, n, flag, flag.conditions[i], ctx, groups, m).0;
    AddUnchecked(flag.earlyExit, DefinitionReason(w.scope, flag), j, reason);
    ConditionsStep(w, rk, n, flag, i, ctx, groups, reason, m);
  }

  /** If its first condition is inconclusive, the second enables the flag. */
  lemma EitherWayGoesOn(w: World, fs: seq<Filter>, ctx: Ctx, m: Memo)
    requires w.scope.defs == NO_DEFINITIONS && WellRanked(w, UNRANKED) && FlagBelow(w, UNRANKED, EitherWay(fs), 0)
    requires FiltersBelow(w, UNRANKED, fs, 0) && FiltersBelow(w, UNRANKED, EVERYONE.filters, 0)
    requires var r := MatchFilters(w, UNRANKED, 0, fs, ctx, None, NO_TALLY, m).0; r.Unresolved? && r.error.Inconclusive?
    ensures MatchConditions(w, UNRANKED, 0, EitherWay(fs), 0, ctx, NO_GROUPS, None, m).0 == Value(Boolean(true))
  {
    var flag := EitherWay(fs);
    var j := MatchCondition(w, UNRANKED, 0, flag, flag.conditions[0], ctx, NO_GROUPS, m);
    PairPlaced(w, fs, ctx, m);
    InconclusiveGoesOn(w, UNRANKED, 0, flag, 0, ctx, NO_GROUPS, None, m);
    SecondEnables(w, fs, ctx, Some(Pick(None, j.0.result.error.reason)), j.1);
  }

  lemma SecondEnables(w: World, fs: seq<Filter>, ctx: Ctx, reason: Option<Reason>, m: Memo)
    requires w.scope.defs == NO_DEFINITIONS && WellRanked(w, UNRANKED) && FlagBelow(w, UNRANKED, EitherWay(fs), 0)
    requires FiltersBelow(w, UNRANKED, EVERYONE.filters, 0)
    ensures MatchConditions(w, UNRANKED, 0, EitherWay(fs), 1, ctx, NO_GROUPS, reason, m).0 == Value(Boolean(true))
  {
    ForEveryone(w, fs, ctx, m);
    ConditionsStep(w, UNRANKED, 0, EitherWay(fs), 1, ctx, NO_GROUPS, reason, m);
  }

  /** If it needs the server, so does the flag. */
  lemma EitherWayStops(w: World, fs: seq<Filter>, ctx: Ctx, m: Memo)
    requires w.scope.defs == NO_DEFINITIONS && WellRanked(w, UNRANKED) && FlagBelow(w, UNRANKED, EitherWay(fs), 0)
    requires FiltersBelow(w, UNRANKED, fs, 0)
    requires var r := MatchFilters(w, UNRANKED, 0, fs, ctx, None, NO_TALLY, m).0; r.Unresolved? && r.error.ServerRequired?
    ensures var r := MatchConditions(w, UNRANKED, 0, EitherWay(fs), 0, ctx, NO_GROUPS, None, m).0;
            r.Error? && r.error.ServerRequired?
  {
    PairPlaced(w, fs, ctx, m);
    ServerRequiredStops(w, UNRANKED, 0, EitherWay(fs), 0, ctx, NO_GROUPS, None, m);
  }

  lemma EitherWayCall(w: World, x: Filter, y: Filter, id: string)
    requires w.scope.defs == NO_DEFINITIONS && IsPair(x, y)
    ensures WellRanked(w, UNRANKED) && FlagBelow(w, UNRANKED, EitherWay([x, y]), 0)
    ensures var r := ComputeFlagLocally(w, UNRANKED, 0, EitherWay([x, y]), AskedBy(id, map[])).0;
            if x == PLAN_SET then r == Value(Boolean(true)) else r.Error? && r.error.ServerRequired?
  {
    var start, flag := Memo(map[], []), EitherWay([x, y]);
    EitherWayIsRanked(w, x, y);
    var ctx := SubjectOf(w, flag, AskedBy(id, map[])).ctx;
    assert FiltersBelow(w, UNRANKED, flag.conditions[1].filters, 0);
    PairIs(w, x, y, ctx, start);
    if x == PLAN_SET {
      EitherWayGoesOn(w, [x, y], ctx, start);
    } else {
      EitherWayStops(w, [x, y], ctx, start);
    }
  }

  lemma PairReordered()
    ensures Reordered(EitherWay([PLAN_SET, IN_MISSING]), EitherWay([IN_MISSING, PLAN_SET]))
  {
  }

  /**
   * Two orders of one condition's filters, and anyone's call without a plan: with
   * one the flag is enabled, with the other the server is needed.
   */
  lemma OrderShowsInFlagExample(w: World, id: string)
    requires w.scope.defs == NO_DEFINITIONS
    ensures var one, other := EitherWay([PLAN_SET, IN_MISSING]), EitherWay([IN_MISSING, PLAN_SET]);
            && Reordered(one, other)
            && WellRanked(w, UNRANKED) && FlagBelow(w, UNRANKED, one, 0) && FlagBelow(w, UNRANKED, other, 0)
            && ComputeFlagLocally(w, UNRANKED, 0, one, AskedBy(id, map[])).0 == Value(Boolean(true))
            && var r := ComputeFlagLocally(w, UNRANKED, 0, other, AskedBy(id, map[])).0;
               r.Error? && r.error.ServerRequired?
  {
    PairReordered();
    EitherWayCall(w, PLAN_SET, IN_MISSING, id);
    EitherWayCall(w, IN_MISSING, PLAN_SET, id);
    assert PLAN_SET != IN_MISSING;
  }
}
