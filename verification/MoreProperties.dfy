// Asking again with more properties passed: what could be told before is not
// turned around. Both answers are compared with a two-valued evaluation that
// has no cache and takes for false what is not known.

module MoreProperties {

  import opened Wrappers
  import opened Reasons
  import opened Folding
  import opened FlagFolding
  import opened Filters
  import opened Definitions
  import opened CohortScan
  import opened Bucketing
  import opened Evaluator
  import opened DependencyCache
  import opened CacheTransparency
  import opened Placement
  import opened EarlyExit

  // ------------------------------------------------------------ two-valued evaluation

  ghost predicate KeyHolds(w: World, rk: Ranks, key: string, home: Homes)
    requires WellRanked(w, rk)
    decreases if Evaluable(w, key) then rk.flags(key) + 1 else 0, 0
  {
    Evaluable(w, key) &&
    FlagHolds(w, rk, rk.flags(key), w.Flags()[key], home(w.Flags()[key].aggregation), NO_GROUPS, home)
  }

  ghost predicate FilterHolds(w: World, rk: Ranks, n: nat, f: Filter, props: Properties, home: Homes)
    requires WellRanked(w, rk) && FilterBelow(w, rk, f, n)
    decreases n, 3
  {
    if f.kind == "cohort"
    then NamesCohort(w.scope, f) &&
         GroupHolds(w, rk, rk.cohorts(CohortId(w.scope, f)), w.Cohorts()[CohortId(w.scope, f)], props, home)
    else if f.kind == "flag"
    then f.value == Bool(f.chain.Some? && f.key in f.chain.value && KeyHolds(w, rk, f.key, home))
    else MatchProperty(w.scope.oracle, f, props, w.scope.defs.version) == Decided(true)
  }

  ghost predicate EntryHolds(w: World, rk: Ranks, n: nat, kind: string, e: Entry, props: Properties, home: Homes)
    requires WellRanked(w, rk) && EntryBelow(w, rk, e, n)
    decreases n, 4, e
  {
    match e
    case Junk => kind == "AND"
    case Nested(g) => GroupHolds(w, rk, n, g, props, home)
    case Single(f) => FilterHolds(w, rk, n, f, props, home)
  }

  ghost predicate GroupHolds(w: World, rk: Ranks, n: nat, g: Group, props: Properties, home: Homes)
    requires WellRanked(w, rk) && GroupBelow(w, rk, g, n)
    decreases n, 4, g
  {
    |g.entries| == 0 ||
    if g.kind == "AND"
    then forall i :: 0 <= i < |g.entries| ==>
           EntryHolds(w, rk, n, g.kind, g.entries[i], props, home) != Negated(g.entries[i])
    else exists i :: 0 <= i < |g.entries| &&
           EntryHolds(w, rk, n, g.kind, g.entries[i], props, home) != Negated(g.entries[i])
  }

  ghost predicate FiltersHold(w: World, rk: Ranks, n: nat, fs: seq<Filter>, props: Properties, home: Homes)
    requires WellRanked(w, rk) && FiltersBelow(w, rk, fs, n)
    decreases n, 5
  {
    forall i :: 0 <= i < |fs| ==> FilterHolds(w, rk, n, fs[i], props, home)
  }

  /** A condition holds for the identities its rollout includes. */
  ghost predicate ConditionHolds(
      w: World, rk: Ranks, n: nat, flag: Flag, c: Condition, ctx: Ctx, groups: Groups, home: Homes)
    requires WellRanked(w, rk) && FiltersBelow(w, rk, c.filters, n)
    decreases n, 6
  {
    match PlaceOf(w, flag, c, ctx, groups)
    case At(id, props) => Included(w, flag, c, id) && FiltersHold(w, rk, n, c.filters, props, home)
    case _ => false
  }

  ghost predicate FlagHolds(w: World, rk: Ranks, n: nat, flag: Flag, ctx: Ctx, groups: Groups, home: Homes)
    requires WellRanked(w, rk) && FlagBelow(w, rk, flag, n)
    decreases n, 7
  {
    || HoldoutVariant(w.digest, flag, ctx.distinctId, ctx.deviceId).Held?
    || exists i :: 0 <= i < |flag.conditions| && ConditionHolds(w, rk, n, flag, flag.conditions[i], ctx, groups, home)
  }

  // ------------------------------------------------------------ what is required of the definitions

  /** A dependency asks only whether its flag is on or off, of a chain that holds the flag. */
  predicate AsksOnOff(f: Filter) {
    f.kind == "flag" ==> !f.value.Str? && (f.chain.Some? ==> f.key in f.chain.value)
  }

  predicate FiltersAsk(fs: seq<Filter>) {
    forall i :: 0 <= i < |fs| ==> AsksOnOff(fs[i])
  }

  predicate EntryAsks(e: Entry)
    decreases e
  {
    match e
    case Junk => true
    case Nested(g) => GroupAsks(g)
    case Single(f) => AsksOnOff(f)
  }

  predicate GroupAsks(g: Group)
    decreases g
  {
    forall i :: 0 <= i < |g.entries| ==> EntryAsks(g.entries[i])
  }

  predicate FlagAsks(flag: Flag) {
    !flag.earlyExit && forall i :: 0 <= i < |flag.conditions| ==> FiltersAsk(flag.conditions[i].filters)
  }

  /** A variant with an empty key is on, but no dependency on it holds. */
  predicate VariantsNamed(flag: Flag) {
    forall i :: 0 <= i < |flag.variants| ==> flag.variants[i].0 != ""
  }

  ghost predicate AllAsk(w: World, rk: Ranks, n: nat) {
    && (forall key :: Evaluable(w, key) && rk.flags(key) < n ==> FlagAsks(w.Flags()[key]) && VariantsNamed(w.Flags()[key]))
    && (forall id :: id in w.Cohorts() && rk.cohorts(id) < n ==> GroupAsks(w.Cohorts()[id]))
  }

  // ------------------------------------------------------------ fewer properties and more

  /** All that p says, q says too. */
  predicate Extends(p: Properties, q: Properties) {
    forall k :: k in p ==> k in q && q[k] == p[k]
  }

  /** The same identity with at least these properties. */
  predicate Under(ctx: Ctx, more: Ctx) {
    more.distinctId == ctx.distinctId && more.deviceId == ctx.deviceId && Extends(ctx.props, more.props)
  }

  lemma PropertyKeeps(o: Oracle, f: Filter, p: Properties, q: Properties, version: int)
    requires Extends(p, q)
    ensures MatchProperty(o, f, p, version).Decided? ==> MatchProperty(o, f, q, version) == MatchProperty(o, f, p, version)
  {
  }

  // ------------------------------------------------------------ conclusive answers agree with it

  /** What is cached for a flag is whether it holds. */
  ghost predicate TellsTrue(w: World, rk: Ranks, home: Homes, key: string, v: FlagValue)
    requires WellRanked(w, rk)
  {
    v != Variant("") && Enabled(v) == KeyHolds(w, rk, key, home)
  }

  ghost predicate Told(w: World, rk: Ranks, home: Homes, m: Memo)
    requires WellRanked(w, rk)
  {
    forall key :: key in m.cache && m.cache[key].Some? ==> TellsTrue(w, rk, home, key, m.cache[key].value)
  }

  /** Evaluation below n in a context that its aggregation's home says more than. */
  ghost predicate Ready(w: World, rk: Ranks, n: nat, ctx: Ctx, aggregation: Option<nat>, home: Homes, m: Memo)
    requires WellRanked(w, rk)
  {
    AllAsk(w, rk, n) && Grounded(ctx, aggregation) && Under(ctx, home(aggregation)) && Told(w, rk, home, m)
  }

  lemma ToldRemembers(w: World, rk: Ranks, home: Homes, m: Memo, key: string, value: Option<FlagValue>)
    requires WellRanked(w, rk) && Told(w, rk, home, m)
    requires value.Some? ==> TellsTrue(w, rk, home, key, value.value)
    ensures Told(w, rk, home, m.Remember(key, value))
  {
  }

  lemma {:induction false} MemberIsTrue(
      w: World, rk: Ranks, n: nat, key: string, ctx: Ctx, aggregation: Option<nat>, home: Homes, m: Memo)
    requires WellRanked(w, rk) && key in w.Flags() && MemberBelow(w, rk, key, n)
    requires Ready(w, rk, n, ctx, aggregation, home, m)
    requires w.Flags()[key].active ==> !NeedsOther(w.Flags()[key], aggregation)
    ensures Told(w, rk, home, MatchMember(w, rk, n, key, ctx, m).1)
    decreases n, 0
  {
    var flag := w.Flags()[key];
    if !flag.active {
      ToldRemembers(w, rk, home, m, key, Some(Boolean(false)));
    } else if flag.continuity {
      ToldRemembers(w, rk, home, m, key, None);
    } else {
      var logged := m.Log(key, ctx);
      var r := MatchFlag(w, rk, rk.flags(key), flag, ctx, NO_GROUPS, logged);
      FlagIsTrue(w, rk, rk.flags(key), flag, ctx, aggregation, home, logged);
      if r.0.Value? {
        ToldRemembers(w, rk, home, r.1, key, Some(r.0.value));
      } else if !r.0.error.ServerRequired? {
        ToldRemembers(w, rk, home, r.1, key, None);
      }
    }
  }

  lemma {:induction false} ChainIsTrue(
      w: World, rk: Ranks, n: nat, chain: seq<string>, ctx: Ctx, aggregation: Option<nat>, home: Homes, m: Memo)
    requires WellRanked(w, rk) && ChainBelow(w, rk, chain, n) && ChainFits(w, chain, aggregation)
    requires Ready(w, rk, n, ctx, aggregation, home, m)
    ensures Told(w, rk, home, MatchChain(w, rk, n, chain, ctx, m).1)
    decreases n, 1, |chain|
  {
    if |chain| > 0 {
      if chain[0] in m.cache {
        ChainIsTrue(w, rk, n, chain[1..], ctx, aggregation, home, m);
      } else {
        var r := MatchMember(w, rk, n, chain[0], ctx, m);
        MemberIsTrue(w, rk, n, chain[0], ctx, aggregation, home, m);
        if r.0.None? {
          ChainIsTrue(w, rk, n, chain[1..], ctx, aggregation, home, r.1);
        }
      }
    }
  }

  lemma LookedIsTrue(w: World, rk: Ranks, n: nat, f: Filter, props: Properties, home: Homes, m: Memo)
    requires WellRanked(w, rk) && f.kind == "flag" && f.chain.Some? && FilterBelow(w, rk, f, n) && AsksOnOff(f)
    requires Told(w, rk, home, m)
    ensures var o := Looked(f, m.cache); o.Decided? ==> o.matched == FilterHolds(w, rk, n, f, props, home)
  {
    if f.key in m.cache && m.cache[f.key].Some? {
      assert TellsTrue(w, rk, home, f.key, m.cache[f.key].value);
    }
  }

  /** Only the look-up at the end of a usable chain decides a dependency. */
  lemma DependencyStep(w: World, rk: Ranks, n: nat, f: Filter, ctx: Ctx, aggregation: Option<nat>, m: Memo)
    requires WellRanked(w, rk) && f.kind == "flag" && FilterBelow(w, rk, f, n)
    ensures var r := MatchDependency(w, rk, n, f, ctx, aggregation, m);
            if DependencyError(f, w.Flags(), aggregation).Some? then !r.0.Decided? && r.1 == m
            else
              && f.chain.Some? && ChainFits(w, f.chain.value, aggregation)
              && var q := MatchChain(w, rk, n, f.chain.value, ctx, m);
                 r.1 == q.1 && (r.0.Decided? ==> r.0 == Looked(f, q.1.cache))
  {
    if f.chain.Some? {
      ChainErrorMeans(f.chain.value, w.Flags(), aggregation);
    }
    if DependencyError(f, w.Flags(), aggregation).None? {
      ChainIsUndecided(w, rk, n, f.chain.value, ctx, m);
    }
  }

  lemma {:induction false} DependencyIsTrue(
      w: World, rk: Ranks, n: nat, f: Filter, ctx: Ctx, aggregation: Option<nat>, props: Properties, home: Homes, m: Memo)
    requires WellRanked(w, rk) && f.kind == "flag" && FilterBelow(w, rk, f, n) && AsksOnOff(f)
    requires Ready(w, rk, n, ctx, aggregation, home, m)
    ensures var r := MatchDependency(w, rk, n, f, ctx, aggregation, m);
            (r.0.Decided? ==> r.0.matched == FilterHolds(w, rk, n, f, props, home)) && Told(w, rk, home, r.1)
    decreases n, 2
  {
    DependencyStep(w, rk, n, f, ctx, aggregation, m);
    if DependencyError(f, w.Flags(), aggregation).None? {
      ChainIsTrue(w, rk, n, f.chain.value, ctx, aggregation, home, m);
      LookedIsTrue(w, rk, n, f, props, home, MatchChain(w, rk, n, f.chain.value, ctx, m).1);
    }
  }

  lemma {:induction false} ChainIsUndecided(w: World, rk: Ranks, n: nat, chain: seq<string>, ctx: Ctx, m: Memo)
    requires WellRanked(w, rk) && ChainBelow(w, rk, chain, n) && forall i :: 0 <= i < |chain| ==> chain[i] in w.Flags()
    ensures var e := MatchChain(w, rk, n, chain, ctx, m).0; e.Some? ==> !e.value.Decided?
    decreases |chain|
  {
    if |chain| > 0 {
      if chain[0] in m.cache {
        ChainIsUndecided(w, rk, n, chain[1..], ctx, m);
      } else {
        var r := MatchMember(w, rk, n, chain[0], ctx, m);
        if r.0.None? {
          ChainIsUndecided(w, rk, n, chain[1..], ctx, r.1);
        }
      }
    }
  }

  lemma {:induction false} FilterIsTrue(
      w: World, rk: Ranks, n: nat, f: Filter, ctx: Ctx, aggregation: Option<nat>, props: Properties, home: Homes, m: Memo)
    requires WellRanked(w, rk) && FilterBelow(w, rk, f, n) && AsksOnOff(f)
    requires Ready(w, rk, n, ctx, aggregation, home, m) && Extends(ctx.props, props)
    ensures var r := MatchFilter(w, rk, n, f, ctx, aggregation, m);
            (r.0.Decided? ==> r.0.matched == FilterHolds(w, rk, n, f, props, home)) && Told(w, rk, home, r.1)
    decreases n, 3
  {
    if f.kind == "cohort" {
      var id := CohortId(w.scope, f);
      if id in w.Cohorts() {
        GroupIsTrue(w, rk, rk.cohorts(id), w.Cohorts()[id], ctx, aggregation, props, home, m);
      }
    } else if f.kind == "flag" {
      DependencyIsTrue(w, rk, n, f, ctx, aggregation, props, home, m);
    } else {
      PropertyKeeps(w.scope.oracle, f, ctx.props, props, w.scope.defs.version);
    }
  }

  lemma {:induction false} EntryIsTrue(
      w: World, rk: Ranks, n: nat, kind: string, e: Entry, ctx: Ctx, aggregation: Option<nat>, props: Properties,
      home: Homes, m: Memo)
    requires WellRanked(w, rk) && EntryBelow(w, rk, e, n) && EntryAsks(e)
    requires Ready(w, rk, n, ctx, aggregation, home, m) && Extends(ctx.props, props)
    ensures var r := MatchEntry(w, rk, n, kind, e, ctx, aggregation, m);
            (r.0.Decided? ==> r.0.matched == EntryHolds(w, rk, n, kind, e, props, home)) && Told(w, rk, home, r.1)
    decreases n, 4, e
  {
    match e
    case Junk =>
    case Nested(g) => GroupIsTrue(w, rk, n, g, ctx, aggregation, props, home, m);
    case Single(f) => FilterIsTrue(w, rk, n, f, ctx, aggregation, props, home, m);
  }

  lemma {:induction false} GroupIsTrue(
      w: World, rk: Ranks, n: nat, g: Group, ctx: Ctx, aggregation: Option<nat>, props: Properties, home: Homes, m: Memo)
    requires WellRanked(w, rk) && GroupBelow(w, rk, g, n) && GroupAsks(g)
    requires Ready(w, rk, n, ctx, aggregation, home, m) && Extends(ctx.props, props)
    ensures var r := MatchGroup(w, rk, n, g, ctx, aggregation, m);
            (r.0.Decided? ==> r.0.matched == GroupHolds(w, rk, n, g, props, home)) && Told(w, rk, home, r.1)
    decreases n, 4, g
  {
    if |g.entries| > 0 {
      EntriesAreTrue(w, rk, n, g, 0, ctx, aggregation, None, props, home, m);
    }
  }

  /** The entries before i leave the group open, one way or another. */
  ghost predicate OpenBefore(w: World, rk: Ranks, n: nat, g: Group, i: nat, props: Properties, home: Homes)
    requires WellRanked(w, rk) && GroupBelow(w, rk, g, n) && i <= |g.entries|
  {
    forall k :: 0 <= k < i ==>
      (EntryHolds(w, rk, n, g.kind, g.entries[k], props, home) != Negated(g.entries[k])) == (g.kind == "AND")
  }

  /** A decided entry either settles the group or leaves it open. */
  lemma EntrySettles(
      w: World, rk: Ranks, n: nat, g: Group, i: nat, o: Outcome, reason: Option<Reason>, props: Properties, home: Homes)
    requires WellRanked(w, rk) && GroupBelow(w, rk, g, n) && i < |g.entries|
    requires reason.None? ==> OpenBefore(w, rk, n, g, i, props, home)
    requires o.Decided? ==> o.matched == EntryHolds(w, rk, n, g.kind, g.entries[i], props, home)
    ensures match AddEntry(g.kind, Negated(g.entries[i]), o, reason)
            case Halt(r) => r.Decided? ==> r.matched == GroupHolds(w, rk, n, g, props, home)
            case Next(next) => next.None? ==> OpenBefore(w, rk, n, g, i + 1, props, home)
  {
  }

  lemma OpenCloses(w: World, rk: Ranks, n: nat, g: Group, props: Properties, home: Homes)
    requires WellRanked(w, rk) && GroupBelow(w, rk, g, n) && |g.entries| > 0
    requires OpenBefore(w, rk, n, g, |g.entries|, props, home)
    ensures GroupHolds(w, rk, n, g, props, home) == (g.kind == "AND")
  {
  }

  lemma {:induction false} EntriesAreTrue(
      w: World, rk: Ranks, n: nat, g: Group, i: nat, ctx: Ctx, aggregation: Option<nat>, reason: Option<Reason>,
      props: Properties, home: Homes, m: Memo)
    requires WellRanked(w, rk) && GroupBelow(w, rk, g, n) && GroupAsks(g) && i <= |g.entries| && |g.entries| > 0
    requires Ready(w, rk, n, ctx, aggregation, home, m) && Extends(ctx.props, props)
    requires reason.None? ==> OpenBefore(w, rk, n, g, i, props, home)
    ensures var r := MatchEntries(w, rk, n, g, i, ctx, aggregation, reason, m);
            (r.0.Decided? ==> r.0.matched == GroupHolds(w, rk, n, g, props, home)) && Told(w, rk, home, r.1)
    decreases n, 4, g, |g.entries| - i
  {
    if i == |g.entries| {
      if reason.None? {
        OpenCloses(w, rk, n, g, props, home);
      }
    } else {
      var r := MatchEntry(w, rk, n, g.kind, g.entries[i], ctx, aggregation, m);
      EntryIsTrue(w, rk, n, g.kind, g.entries[i], ctx, aggregation, props, home, m);
      EntrySettles(w, rk, n, g, i, r.0, reason, props, home);
      match AddEntry(g.kind, Negated(g.entries[i]), r.0, reason)
      case Halt(_) =>
      case Next(next) => EntriesAreTrue(w, rk, n, g, i + 1, ctx, aggregation, next, props, home, r.1);
    }
  }

  lemma FiltersStep(
      w: World, rk: Ranks, n: nat, fs: seq<Filter>, ctx: Ctx, aggregation: Option<nat>, t: Tally, m: Memo)
    requires WellRanked(w, rk) && FiltersBelow(w, rk, fs, n) && |fs| > 0
    ensures var r := MatchFilter(w, rk, n, fs[0], ctx, aggregation, m);
            var all := MatchFilters(w, rk, n, fs, ctx, aggregation, t, m);
            match AddFilter(t, r.0)
            case Stop(result) => all == (result, r.1)
            case Go(next) => all == MatchFilters(w, rk, n, fs[1..], ctx, aggregation, next, r.1)
  {
  }

  lemma FilterSettles(t: Tally, o: Outcome, holds: bool)
    requires o.Decided? ==> o.matched == holds
    ensures match AddFilter(t, o)
            case Stop(result) => !result.AllMatch? && (result.NoMatch? ==> !holds)
            case Go(next) => next == NO_TALLY ==> t == NO_TALLY && holds
  {
  }

  lemma {:induction false} FiltersAreTrue(
      w: World, rk: Ranks, n: nat, fs: seq<Filter>, ctx: Ctx, aggregation: Option<nat>, t: Tally, props: Properties,
      home: Homes, m: Memo)
    requires WellRanked(w, rk) && FiltersBelow(w, rk, fs, n) && FiltersAsk(fs)
    requires Ready(w, rk, n, ctx, aggregation, home, m) && Extends(ctx.props, props)
    ensures var r := MatchFilters(w, rk, n, fs, ctx, aggregation, t, m);
            && (r.0.AllMatch? ==> t == NO_TALLY && FiltersHold(w, rk, n, fs, props, home))
            && (r.0.NoMatch? ==> !FiltersHold(w, rk, n, fs, props, home))
            && Told(w, rk, home, r.1)
    decreases n, 5, |fs|
  {
    if |fs| > 0 {
      var r := MatchFilter(w, rk, n, fs[0], ctx, aggregation, m);
      FilterIsTrue(w, rk, n, fs[0], ctx, aggregation, props, home, m);
      FilterSettles(t, r.0, FilterHolds(w, rk, n, fs[0], props, home));
      FiltersStep(w, rk, n, fs, ctx, aggregation, t, m);
      FiltersHoldSplit(w, rk, n, fs, props, home);
      match AddFilter(t, r.0)
      case Stop(_) =>
      case Go(next) => FiltersAreTrue(w, rk, n, fs[1..], ctx, aggregation, next, props, home, r.1);
    }
  }

  lemma FiltersHoldSplit(w: World, rk: Ranks, n: nat, fs: seq<Filter>, props: Properties, home: Homes)
    requires WellRanked(w, rk) && FiltersBelow(w, rk, fs, n) && |fs| > 0
    ensures FiltersHold(w, rk, n, fs, props, home) <==>
              FilterHolds(w, rk, n, fs[0], props, home) && FiltersHold(w, rk, n, fs[1..], props, home)
  {
    assert forall i :: 0 < i < |fs| ==> fs[i] == fs[1..][i - 1];
    assert forall i :: 0 <= i < |fs| - 1 ==> fs[1..][i] == fs[i + 1];
  }

  /**
   * Where the condition is placed with fewer properties, it is placed with more;
   * its dependencies are then under their home.
   */
  ghost predicate Placed(
      w: World, flag: Flag, c: Condition, ctx: Ctx, groups: Groups, more: Ctx, moreGroups: Groups, home: Homes)
  {
    var there := PlaceOf(w, flag, c, more, moreGroups);
    match PlaceOf(w, flag, c, ctx, groups)
    case Skipped => !there.At?
    case Unknown => true
    case At(id, props) =>
      var a := EffectiveAggregation(flag, c);
      && there.At? && there.id == id && Extends(props, there.props)
      && Grounded(DependencyContext(a, ctx, id, props), a) && Under(DependencyContext(a, ctx, id, props), home(a))
  }

  lemma {:induction false} ConditionIsTrue(
      w: World, rk: Ranks, n: nat, flag: Flag, c: Condition, ctx: Ctx, groups: Groups, more: Ctx, moreGroups: Groups,
      home: Homes, m: Memo)
    requires WellRanked(w, rk) && FiltersBelow(w, rk, c.filters, n) && FiltersAsk(c.filters) && AllAsk(w, rk, n)
    requires Placed(w, flag, c, ctx, groups, more, moreGroups, home) && Told(w, rk, home, m)
    ensures var r := MatchCondition(w, rk, n, flag, c, ctx, groups, m);
            && (!r.0.result.Failed? ==> r.0.result.Match? == ConditionHolds(w, rk, n, flag, c, more, moreGroups, home))
            && Told(w, rk, home, r.1)
    decreases n, 6
  {
    match PlaceOf(w, flag, c, ctx, groups)
    case At(id, props) =>
      var a := EffectiveAggregation(flag, c);
      var there := PlaceOf(w, flag, c, more, moreGroups);
      FiltersAreTrue(w, rk, n, c.filters, DependencyContext(a, ctx, id, props), a, NO_TALLY, there.props, home, m);
    case _ =>
  }

  /** Which conditions of the flag hold. */
  ghost function Holding(
      w: World, rk: Ranks, n: nat, flag: Flag, more: Ctx, moreGroups: Groups, home: Homes): (hs: seq<bool>)
    requires WellRanked(w, rk) && FlagBelow(w, rk, flag, n)
    ensures |hs| == |flag.conditions|
  {
    seq(|flag.conditions|, i requires 0 <= i < |flag.conditions| =>
      ConditionHolds(w, rk, n, flag, flag.conditions[i], more, moreGroups, home))
  }

  predicate NoneBefore(hs: seq<bool>, i: nat)
    requires i <= |hs|
  {
    forall k :: 0 <= k < i ==> !hs[k]
  }

  lemma ValueEnables(w: World, rk: Ranks, n: nat, flag: Flag, c: Condition, ctx: Ctx, groups: Groups, m: Memo)
    requires WellRanked(w, rk) && FiltersBelow(w, rk, c.filters, n)
    ensures var v := MatchCondition(w, rk, n, flag, c, ctx, groups, m).0.value;
            Enabled(v) && (VariantsNamed(flag) ==> v != Variant(""))
  {
    match PlaceOf(w, flag, c, ctx, groups)
    case At(id, _) => ValueIsDeclared(w, flag, c, id);
    case _ =>
  }

  /** A decided condition either settles the flag or leaves it open. */
  lemma ConditionSettles(hs: seq<bool>, i: nat, j: Judged, definition: Option<Reason>, reason: Option<Reason>)
    requires i < |hs| && Enabled(j.value) && (reason.None? ==> NoneBefore(hs, i))
    requires !j.result.Failed? ==> j.result.Match? == hs[i]
    ensures match AddCondition(false, definition, j, reason)
            case Return(r) => r.Value? ==> r.value == j.value && !NoneBefore(hs, |hs|)
            case Continue(next) => next.None? ==> NoneBefore(hs, i + 1)
  {
  }

  lemma {:induction false} ConditionsAreTrue(
      w: World, rk: Ranks, n: nat, flag: Flag, i: nat, ctx: Ctx, groups: Groups, reason: Option<Reason>, more: Ctx,
      moreGroups: Groups, home: Homes, m: Memo)
    requires WellRanked(w, rk) && FlagBelow(w, rk, flag, n) && FlagAsks(flag) && AllAsk(w, rk, n)
    requires forall k :: 0 <= k < |flag.conditions| ==>
               Placed(w, flag, flag.conditions[k], ctx, groups, more, moreGroups, home)
    requires i <= |flag.conditions| && Told(w, rk, home, m)
    requires reason.None? ==> NoneBefore(Holding(w, rk, n, flag, more, moreGroups, home), i)
    ensures var r := MatchConditions(w, rk, n, flag, i, ctx, groups, reason, m);
            && (r.0.Value? ==>
                  && (VariantsNamed(flag) ==> r.0.value != Variant(""))
                  && Enabled(r.0.value)
                     == !NoneBefore(Holding(w, rk, n, flag, more, moreGroups, home), |flag.conditions|))
            && Told(w, rk, home, r.1)
    decreases n, 7, |flag.conditions| - i
  {
    if i < |flag.conditions| {
      var j := MatchCondition(w, rk, n, flag, flag.conditions[i], ctx, groups, m);
      ConditionIsTrue(w, rk, n, flag, flag.conditions[i], ctx, groups, more, moreGroups, home, m);
      ValueEnables(w, rk, n, flag, flag.conditions[i], ctx, groups, m);
      ConditionsStep(w, rk, n, flag, i, ctx, groups, reason, m);
      ConditionSettles(Holding(w, rk, n, flag, more, moreGroups, home), i, j.0, DefinitionReason(w.scope, flag), reason);
      match AddCondition(flag.earlyExit, DefinitionReason(w.scope, flag), j.0, reason)
      case Return(_) =>
      case Continue(next) =>
        ConditionsAreTrue(w, rk, n, flag, i + 1, ctx, groups, next, more, moreGroups, home, j.1);
    }
  }

  lemma FlagHoldsIff(w: World, rk: Ranks, n: nat, flag: Flag, more: Ctx, moreGroups: Groups, home: Homes)
    requires WellRanked(w, rk) && FlagBelow(w, rk, flag, n)
    ensures FlagHolds(w, rk, n, flag, more, moreGroups, home) <==>
              || HoldoutVariant(w.digest, flag, more.distinctId, more.deviceId).Held?
              || !NoneBefore(Holding(w, rk, n, flag, more, moreGroups, home), |flag.conditions|)
  {
    var hs := Holding(w, rk, n, flag, more, moreGroups, home);
    assert forall i :: 0 <= i < |flag.conditions| ==>
      hs[i] == ConditionHolds(w, rk, n, flag, flag.conditions[i], more, moreGroups, home);
  }

  lemma {:induction false} AnswerIsTrue(
      w: World, rk: Ranks, n: nat, flag: Flag, ctx: Ctx, groups: Groups, more: Ctx, moreGroups: Groups, home: Homes,
      m: Memo)
    requires WellRanked(w, rk) && FlagBelow(w, rk, flag, n) && FlagAsks(flag) && AllAsk(w, rk, n)
    requires forall k :: 0 <= k < |flag.conditions| ==>
               Placed(w, flag, flag.conditions[k], ctx, groups, more, moreGroups, home)
    requires more.distinctId == ctx.distinctId && more.deviceId == ctx.deviceId && Told(w, rk, home, m)
    ensures var r := MatchFlag(w, rk, n, flag, ctx, groups, m);
            && (r.0.Value? ==>
                  && (VariantsNamed(flag) ==> r.0.value != Variant(""))
                  && Enabled(r.0.value) == FlagHolds(w, rk, n, flag, more, moreGroups, home))
            && Told(w, rk, home, r.1)
    decreases n, 8
  {
    FlagHoldsIff(w, rk, n, flag, more, moreGroups, home);
    if HoldoutVariant(w.digest, flag, ctx.distinctId, ctx.deviceId).NotHeld? {
      ConditionsAreTrue(w, rk, n, flag, 0, ctx, groups, None, more, moreGroups, home, m);
    }
  }

  /** A dependency is placed where it is evaluated, with fewer properties as with more. */
  lemma DependencyPlaced(w: World, flag: Flag, k: nat, ctx: Ctx, aggregation: Option<nat>, home: Homes)
    requires !NeedsOther(flag, aggregation) && k < |flag.conditions|
    requires Grounded(ctx, aggregation) && Under(ctx, home(aggregation))
    ensures Placed(w, flag, flag.conditions[k], ctx, NO_GROUPS, home(aggregation), NO_GROUPS, home)
  {
    DependencyKeepsContext(w, flag, k, ctx, aggregation);
  }

  lemma {:induction false} FlagIsTrue(
      w: World, rk: Ranks, n: nat, flag: Flag, ctx: Ctx, aggregation: Option<nat>, home: Homes, m: Memo)
    requires WellRanked(w, rk) && FlagBelow(w, rk, flag, n) && FlagAsks(flag) && VariantsNamed(flag)
    requires !NeedsOther(flag, aggregation) && Ready(w, rk, n, ctx, aggregation, home, m)
    ensures var r := MatchFlag(w, rk, n, flag, ctx, NO_GROUPS, m);
            && (r.0.Value? ==>
                  && r.0.value != Variant("")
                  && Enabled(r.0.value) == FlagHolds(w, rk, n, flag, home(aggregation), NO_GROUPS, home))
            && Told(w, rk, home, r.1)
    decreases n, 9
  {
    forall k | 0 <= k < |flag.conditions|
      ensures Placed(w, flag, flag.conditions[k], ctx, NO_GROUPS, home(aggregation), NO_GROUPS, home)
    {
      DependencyPlaced(w, flag, k, ctx, aggregation, home);
    }
    AnswerIsTrue(w, rk, n, flag, ctx, NO_GROUPS, home(aggregation), NO_GROUPS, home, m);
  }

  // ------------------------------------------------------------ two calls

  /** The properties of a group as evaluation goes by them: its key is among them. */
  function GroupProperties(call: Call, name: string): Properties
    requires name in call.groups.keys
  {
    WithGroupKey(if name in call.groups.props then call.groups.props[name] else map[], call.groups.keys[name])
  }

  /** The second call asks for the same identities, and evaluation goes by at least the same properties. */
  ghost predicate PassesMore(flag: Flag, a: Call, b: Call) {
    && b.distinctId == a.distinctId && b.deviceId == a.deviceId && b.groups.keys == a.groups.keys
    && Extends(PersonProperties(flag, a), PersonProperties(flag, b))
    && forall name :: name in a.groups.keys ==>
         && (name in a.groups.props ==> name in b.groups.props)
         && Extends(GroupProperties(a, name), GroupProperties(b, name))
  }

  lemma SubjectUnder(w: World, flag: Flag, a: Call, b: Call)
    requires PassesMore(flag, a, b)
    ensures var s, t := SubjectOf(w, flag, a), SubjectOf(w, flag, b);
            s.Subject? ==> t.Subject? && Under(s.ctx, t.ctx)
  {
    if flag.aggregation.Some? && flag.aggregation.value in w.scope.defs.groupTypes {
      var name := w.scope.defs.groupTypes[flag.aggregation.value];
      assert name in a.groups.keys ==> Extends(GroupProperties(a, name), GroupProperties(b, name));
    }
  }

  lemma GroupPlaceKeeps(w: World, flag: Flag, index: nat, a: Call, b: Call)
    requires PassesMore(flag, a, b)
    ensures var here, there := GroupPlace(w, index, a.groups), GroupPlace(w, index, b.groups);
            match here
            case Skipped => !there.At?
            case Unknown => true
            case At(id, props) => there.At? && there.id == id && Extends(props, there.props)
  {
    if index in w.scope.defs.groupTypes && w.scope.defs.groupTypes[index] in a.groups.keys {
      var name := w.scope.defs.groupTypes[index];
      assert Extends(GroupProperties(a, name), GroupProperties(b, name));
    }
  }

  lemma CallPlaced(w: World, flag: Flag, k: nat, a: Call, b: Call)
    requires k < |flag.conditions| && PassesMore(flag, a, b) && SubjectOf(w, flag, a).Subject?
    requires SubjectOf(w, flag, b).Subject?
    ensures var ctx, more := SubjectOf(w, flag, a).ctx, SubjectOf(w, flag, b).ctx;
            Placed(w, flag, flag.conditions[k], ctx, a.groups, more, b.groups, g => Home(w, flag, more, b.groups, g))
  {
    SubjectUnder(w, flag, a, b);
    var g := EffectiveAggregation(flag, flag.conditions[k]);
    if g != flag.aggregation && g.Some? {
      GroupPlaceKeeps(w, flag, g.value, a, b);
    }
  }

  lemma CallIsTrue(w: World, rk: Ranks, n: nat, flag: Flag, a: Call, b: Call)
    requires WellRanked(w, rk) && FlagBelow(w, rk, flag, n) && FlagAsks(flag) && AllAsk(w, rk, n)
    requires PassesMore(flag, a, b) && flag.active && !flag.continuity
    requires SubjectOf(w, flag, a).Subject? && SubjectOf(w, flag, b).Subject?
    ensures var r := ComputeFlagLocally(w, rk, n, flag, a).0;
            var more := SubjectOf(w, flag, b).ctx;
            r.Value? ==>
              Enabled(r.value) == FlagHolds(w, rk, n, flag, more, b.groups, g => Home(w, flag, more, b.groups, g))
  {
    var ctx, more := SubjectOf(w, flag, a).ctx, SubjectOf(w, flag, b).ctx;
    var home: Homes := g => Home(w, flag, more, b.groups, g);
    SubjectUnder(w, flag, a, b);
    forall k | 0 <= k < |flag.conditions|
      ensures Placed(w, flag, flag.conditions[k], ctx, a.groups, more, b.groups, home)
    {
      CallPlaced(w, flag, k, a, b);
    }
    AnswerIsTrue(w, rk, n, flag, ctx, a.groups, more, b.groups, home, Memo(map[], []));
  }

  /**
   * With early exit off and dependencies that only ask whether their flags are
   * on, passing more properties never turns an answer around: what is told
   * enabled with fewer is not told disabled with more, nor the other way.
   */
  lemma MorePropertiesAgree(w: World, rk: Ranks, n: nat, flag: Flag, a: Call, b: Call)
    requires WellRanked(w, rk) && FlagBelow(w, rk, flag, n) && FlagAsks(flag) && AllAsk(w, rk, n)
    requires PassesMore(flag, a, b)
    ensures var r, q := ComputeFlagLocally(w, rk, n, flag, a).0, ComputeFlagLocally(w, rk, n, flag, b).0;
            r.Value? && q.Value? ==> Enabled(r.value) == Enabled(q.value)
  {
    if flag.active && !flag.continuity && SubjectOf(w, flag, a).Subject? {
      SubjectUnder(w, flag, a, b);
      CallIsTrue(w, rk, n, flag, a, b);
      CallIsTrue(w, rk, n, flag, b, b);
    }
  }

  // ------------------------------------------------------------ dependencies on a variant

  // A flag whose variant is "early" with a plan set and "late" else, and a flag that depends on "late".

  const FOR_PLANS := Condition([PLAN_SET], None, Some("early"), None)
  const FOR_OTHERS := Condition([], None, Some("late"), None)
  const STAGES := Flag("f", true, false, None, [FOR_PLANS, FOR_OTHERS], false, [("early", 0.0), ("late", 0.0)], None, false)
  const IS_LATE := Filter("f", "flag_evaluates_to", Str("late"), "flag", false, Some(["f"]))
  const LATE_FLAG := Flag("g", true, false, None, [Condition([IS_LATE], None, None, None)], false, [], None, false)

  predicate IsStaged(w: World) {
    w.scope.defs == Definitions(map["f" := STAGES], map[], map[], 1)
  }

  function Stage(ctx: Ctx): string {
    if "plan" in ctx.props then "early" else "late"
  }

  lemma StagesAreRanked(w: World)
    requires IsStaged(w)
    ensures WellRanked(w, UNRANKED) && FiltersBelow(w, UNRANKED, [PLAN_SET], 0) && FlagBelow(w, UNRANKED, STAGES, 0)
    ensures FiltersBelow(w, UNRANKED, [IS_LATE], 1) && FlagBelow(w, UNRANKED, LATE_FLAG, 1)
  {
    assert FiltersBelow(w, UNRANKED, [PLAN_SET], 0);
  }

  lemma PlanFilter(w: World, ctx: Ctx, m: Memo)
    requires IsStaged(w) && WellRanked(w, UNRANKED) && FiltersBelow(w, UNRANKED, [PLAN_SET], 0)
    ensures MatchFilters(w, UNRANKED, 0, [PLAN_SET], ctx, None, NO_TALLY, m)
         == (if "plan" in ctx.props then AllMatch else Unresolved(MISSING), m)
  {
    PlanProperty(w.scope.oracle, ctx.props);
    assert [PLAN_SET][0] == PLAN_SET && [PLAN_SET][1..] == [] && FilterBelow(w, UNRANKED, PLAN_SET, 0);
    var t := if "plan" in ctx.props then NO_TALLY else Tally(Some(MissingContext), None);
    assert MatchFilter(w, UNRANKED, 0, PLAN_SET, ctx, None, m)
        == (if "plan" in ctx.props then Decided(true) else MISSING, m);
    assert MatchFilters(w, UNRANKED, 0, [], ctx, None, t, m).0 == CloseFilters(t);
  }

  /** A condition for persons without a rollout is its filters. */
  lemma PersonConditionIs(w: World, rk: Ranks, n: nat, flag: Flag, c: Condition, ctx: Ctx, groups: Groups, m: Memo)
    requires WellRanked(w, rk) && FiltersBelow(w, rk, c.filters, n)
    requires flag.aggregation.None? && c.aggregation.None? && c.rollout.None?
    ensures var r := MatchFilters(w, rk, n, c.filters, ctx, None, NO_TALLY, m);
            var id := BucketingId(flag, ctx.distinctId, ctx.deviceId);
            MatchCondition(w, rk, n, flag, c, ctx, groups, m)
            == (Judged(Rolled(r.0, true), ConditionValue(w, flag, c, id)), r.1)
  {
    assert DependencyContext(None, ctx, BucketingId(flag, ctx.distinctId, ctx.deviceId), ctx.props) == ctx;
  }

  lemma ForPlansIs(w: World, ctx: Ctx, m: Memo)
    requires IsStaged(w) && WellRanked(w, UNRANKED) && FiltersBelow(w, UNRANKED, FOR_PLANS.filters, 0)
    ensures MatchCondition(w, UNRANKED, 0, STAGES, FOR_PLANS, ctx, NO_GROUPS, m)
         == (Judged(if "plan" in ctx.props then Match else Failed(MISSING), Variant("early")), m)
  {
    PersonConditionIs(w, UNRANKED, 0, STAGES, FOR_PLANS, ctx, NO_GROUPS, m);
    PlanFilter(w, ctx, m);
    ForPlansGives(w, BucketingId(STAGES, ctx.distinctId, ctx.deviceId));
  }

  lemma ForPlansGives(w: World, id: string)
    ensures ConditionValue(w, STAGES, FOR_PLANS, id) == Variant("early")
  {
    assert STAGES.variants[0].0 == "early";
  }

  lemma ForOthersIs(w: World, ctx: Ctx, m: Memo)
    requires IsStaged(w) && WellRanked(w, UNRANKED) && FiltersBelow(w, UNRANKED, FOR_OTHERS.filters, 0)
    ensures MatchCondition(w, UNRANKED, 0, STAGES, FOR_OTHERS, ctx, NO_GROUPS, m) == (Judged(Match, Variant("late")), m)
  {
    assert STAGES.variants[1].0 == "late";
  }

  lemma StageIs(w: World, ctx: Ctx, m: Memo)
    requires IsStaged(w) && WellRanked(w, UNRANKED) && FlagBelow(w, UNRANKED, STAGES, 0)
    ensures MatchFlag(w, UNRANKED, 0, STAGES, ctx, NO_GROUPS, m) == (Value(Variant(Stage(ctx))), m)
  {
    assert FiltersBelow(w, UNRANKED, STAGES.conditions[0].filters, 0);
    assert FiltersBelow(w, UNRANKED, STAGES.conditions[1].filters, 0);
    ForPlansIs(w, ctx, m);
    ForOthersIs(w, ctx, m);
    ConditionsStep(w, UNRANKED, 0, STAGES, 0, ctx, NO_GROUPS, None, m);
    if "plan" !in ctx.props {
      ConditionsStep(w, UNRANKED, 0, STAGES, 1, ctx, NO_GROUPS, Some(MissingContext), m);
    }
  }

  lemma StageIsCached(w: World, ctx: Ctx)
    requires IsStaged(w) && WellRanked(w, UNRANKED) && FlagBelow(w, UNRANKED, STAGES, 0)
    requires ChainBelow(w, UNRANKED, ["f"], 1)
    ensures var r := MatchChain(w, UNRANKED, 1, ["f"], ctx, Memo(map[], []));
            r.0.None? && r.1.cache == map["f" := Some(Variant(Stage(ctx)))]
  {
    StageIs(w, ctx, Memo(map[], []).Log("f", ctx));
    var r := MatchMember(w, UNRANKED, 1, "f", ctx, Memo(map[], []));
    assert ["f"][0] == "f" && ["f"][1..] == [];
    assert MatchChain(w, UNRANKED, 1, [], ctx, r.1) == (None, r.1);
  }

  lemma LateIs(w: World, ctx: Ctx)
    requires IsStaged(w) && WellRanked(w, UNRANKED) && FlagBelow(w, UNRANKED, STAGES, 0)
    requires FiltersBelow(w, UNRANKED, [IS_LATE], 1)
    ensures MatchFilters(w, UNRANKED, 1, [IS_LATE], ctx, None, NO_TALLY, Memo(map[], [])).0
         == if "plan" in ctx.props then NoMatch else AllMatch
  {
    assert [IS_LATE][0] == IS_LATE && [IS_LATE][1..] == [] && FilterBelow(w, UNRANKED, IS_LATE, 1);
    StageIsCached(w, ctx);
    var r := MatchFilter(w, UNRANKED, 1, IS_LATE, ctx, None, Memo(map[], []));
    LateIsDecided(w, ctx);
    assert MatchFilters(w, UNRANKED, 1, [], ctx, None, NO_TALLY, r.1).0 == AllMatch;
  }

  lemma LateIsDecided(w: World, ctx: Ctx)
    requires IsStaged(w) && WellRanked(w, UNRANKED) && FlagBelow(w, UNRANKED, STAGES, 0)
    requires FilterBelow(w, UNRANKED, IS_LATE, 1)
    ensures MatchFilter(w, UNRANKED, 1, IS_LATE, ctx, None, Memo(map[], [])).0 == Decided("plan" !in ctx.props)
  {
    ChainErrorMeans(["f"], w.Flags(), None);
    StageIsCached(w, ctx);
  }

  lemma LateFlagIs(w: World, ctx: Ctx)
    requires IsStaged(w) && WellRanked(w, UNRANKED) && FlagBelow(w, UNRANKED, STAGES, 0)
    requires FiltersBelow(w, UNRANKED, [IS_LATE], 1) && FlagBelow(w, UNRANKED, LATE_FLAG, 1)
    ensures MatchFlag(w, UNRANKED, 1, LATE_FLAG, ctx, NO_GROUPS, Memo(map[], [])).0 == Value(Boolean("plan" !in ctx.props))
  {
    LateIs(w, ctx);
    ConditionsStep(w, UNRANKED, 1, LATE_FLAG, 0, ctx, NO_GROUPS, None, Memo(map[], []));
  }

  /**
   * A dependency on a variant does turn around: the flag is enabled while the
   * plan is not known and disabled once it is.
   */
  lemma VariantDependencyExample(w: World, id: string, plan: Value)
    requires IsStaged(w)
    ensures WellRanked(w, UNRANKED) && FlagBelow(w, UNRANKED, LATE_FLAG, 1)
    ensures PassesMore(LATE_FLAG, AskedBy(id, map[]), AskedBy(id, map["plan" := plan]))
    ensures ComputeFlagLocally(w, UNRANKED, 1, LATE_FLAG, AskedBy(id, map[])).0 == Value(Boolean(true))
    ensures ComputeFlagLocally(w, UNRANKED, 1, LATE_FLAG, AskedBy(id, map["plan" := plan])).0 == Value(Boolean(false))
  {
    StagesAreRanked(w);
    LateFlagIs(w, SubjectOf(w, LATE_FLAG, AskedBy(id, map[])).ctx);
    LateFlagIs(w, SubjectOf(w, LATE_FLAG, AskedBy(id, map["plan" := plan])).ctx);
  }
}
