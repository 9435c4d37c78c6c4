// The evaluator as it runs: mutually recursive methods over one cache object
// that they all update, each proved to compute what the evaluator specifies.

module LocalEvaluation {

  import opened Wrappers
  import opened Reasons
  import opened Folding
  import opened FlagFolding
  import opened Filters
  import opened Definitions
  import opened CohortScan
  import opened Bucketing
  import opened Evaluator

  /** The evaluationCache map, shared by reference; `visits` records what was evaluated. */
  class EvaluationCache {
    var entries: map<string, Option<FlagValue>>
    ghost var visits: seq<Visit>

    constructor ()
      ensures entries == map[] && visits == []
    {
      entries := map[];
      visits := [];
    }

    ghost function State(): Memo
      reads this
    {
      Memo(entries, visits)
    }

    method Put(key: string, value: Option<FlagValue>)
      modifies this
      ensures State() == old(State()).Remember(key, value)
    {
      entries := entries[key := value];
    }
  }

  method EvaluateFlagDependency(
      w: World, ghost rk: Ranks, ghost n: nat, f: Filter, cache: EvaluationCache, ctx: Ctx, aggregation: Option<nat>)
    returns (o: Outcome)
    requires WellRanked(w, rk) && f.kind == "flag" && FilterBelow(w, rk, f, n)
    modifies cache
    ensures (o, cache.State()) == MatchDependency(w, rk, n, f, ctx, aggregation, old(cache.State()))
    decreases n, 2
  {
    var problem := DependencyError(f, w.Flags(), aggregation);
    if problem.Some? {
      return problem.value;
    }
    ChainErrorMeans(f.chain.value, w.Flags(), aggregation);
    var chain := f.chain.value;
    var i := 0;
    while i < |chain|
      invariant i <= |chain|
      invariant MatchChain(w, rk, n, chain, ctx, old(cache.State()))
             == MatchChain(w, rk, n, chain[i..], ctx, cache.State())
    {
      assert chain[i..][1..] == chain[i + 1..];
      if chain[i] !in cache.entries {
        var error := EvaluateMember(w, rk, n, chain[i], cache, ctx);
        if error.Some? {
          return error.value;
        }
      }
      i := i + 1;
    }
    return Looked(f, cache.entries);
  }

  /** One member of the chain that the cache does not hold. */
  method EvaluateMember(w: World, ghost rk: Ranks, ghost n: nat, key: string, cache: EvaluationCache, ctx: Ctx)
    returns (error: Option<Outcome>)
    requires WellRanked(w, rk) && key in w.Flags() && MemberBelow(w, rk, key, n)
    modifies cache
    ensures (error, cache.State()) == MatchMember(w, rk, n, key, ctx, old(cache.State()))
    decreases n, 0
  {
    var flag := w.Flags()[key];
    if !flag.active {
      cache.Put(key, Some(Boolean(false)));
      return None;
    }
    if flag.continuity {
      cache.Put(key, None);
      return Some(UNRESOLVED_CHAIN);
    }
    cache.visits := cache.visits + [Visit(key, ctx)];
    var r := MatchFeatureFlagProperties(w, rk, rk.flags(key), flag, cache, ctx, NO_GROUPS);
    match r {
      case Value(v) =>
        cache.Put(key, Some(v));
        return None;
      case Error(ServerRequired(_)) =>
        return Some(SERVER_CHAIN);
      case Error(_) =>
        cache.Put(key, None);
        return Some(UNRESOLVED_CHAIN);
    }
  }

  method MatchCohort(
      w: World, ghost rk: Ranks, ghost n: nat, f: Filter, cache: EvaluationCache, ctx: Ctx, aggregation: Option<nat>)
    returns (o: Outcome)
    requires WellRanked(w, rk) && f.kind == "cohort" && FilterBelow(w, rk, f, n)
    modifies cache
    ensures (o, cache.State()) == MatchFilter(w, rk, n, f, ctx, aggregation, old(cache.State()))
    decreases n, 2
  {
    var id := CohortId(w.scope, f);
    if id !in w.Cohorts() {
      return NO_COHORT;
    }
    o := MatchPropertyGroup(w, rk, rk.cohorts(id), w.Cohorts()[id], cache, ctx, aggregation);
  }

  /** The switch on a filter's type, in the loops over conditions and over groups. */
  method EvaluateFilter(
      w: World, ghost rk: Ranks, ghost n: nat, f: Filter, cache: EvaluationCache, ctx: Ctx, aggregation: Option<nat>)
    returns (o: Outcome)
    requires WellRanked(w, rk) && FilterBelow(w, rk, f, n)
    modifies cache
    ensures (o, cache.State()) == MatchFilter(w, rk, n, f, ctx, aggregation, old(cache.State()))
    decreases n, 3
  {
    if f.kind == "cohort" {
      o := MatchCohort(w, rk, n, f, cache, ctx, aggregation);
    } else if f.kind == "flag" {
      o := EvaluateFlagDependency(w, rk, n, f, cache, ctx, aggregation);
    } else {
      o := MatchProperty(w.scope.oracle, f, ctx.props, w.scope.defs.version);
    }
  }

  method MatchPropertyGroup(
      w: World, ghost rk: Ranks, ghost n: nat, g: Group, cache: EvaluationCache, ctx: Ctx, aggregation: Option<nat>)
    returns (o: Outcome)
    requires WellRanked(w, rk) && GroupBelow(w, rk, g, n)
    modifies cache
    ensures (o, cache.State()) == MatchGroup(w, rk, n, g, ctx, aggregation, old(cache.State()))
    decreases n, 4, g
  {
    if |g.entries| == 0 {
      return Decided(true);
    }
    o := MatchParsedPropertyGroup(w, rk, n, g, cache, ctx, aggregation);
  }

  method MatchParsedPropertyGroup(
      w: World, ghost rk: Ranks, ghost n: nat, g: Group, cache: EvaluationCache, ctx: Ctx, aggregation: Option<nat>)
    returns (o: Outcome)
    requires WellRanked(w, rk) && GroupBelow(w, rk, g, n)
    modifies cache
    ensures (o, cache.State()) == MatchEntries(w, rk, n, g, 0, ctx, aggregation, None, old(cache.State()))
    decreases n, 4, g, 0
  {
    var inconclusiveReason: Option<Reason> := None;
    var i := 0;
    while i < |g.entries|
      invariant i <= |g.entries|
      invariant MatchEntries(w, rk, n, g, 0, ctx, aggregation, None, old(cache.State()))
             == MatchEntries(w, rk, n, g, i, ctx, aggregation, inconclusiveReason, cache.State())
    {
      var entry := g.entries[i];
      assert EntryBelow(w, rk, entry, n);
      i := i + 1;
      if !entry.Junk? {
        var r := EvaluateEntry(w, rk, n, g.kind, entry, cache, ctx, aggregation);
        match r {
          case ServerRequired(_) =>
            return Escalated(r, inconclusiveReason);
          case Inconclusive(reason) =>
            inconclusiveReason := Some(Pick(inconclusiveReason, reason));
          case Broken =>
            return Broken;
          case Decided(matches) =>
            var negation := entry.Single? && entry.filter.negation;
            if g.kind == "AND" {
              if matches == negation {
                return Decided(false);
              }
            } else {
              if matches != negation {
                return Decided(true);
              }
            }
        }
      }
    }
    if inconclusiveReason.Some? {
      return Inconclusive(inconclusiveReason);
    }
    return Decided(g.kind == "AND");
  }

  method EvaluateEntry(
      w: World, ghost rk: Ranks, ghost n: nat, kind: string, e: Entry, cache: EvaluationCache, ctx: Ctx,
      aggregation: Option<nat>)
    returns (o: Outcome)
    requires WellRanked(w, rk) && EntryBelow(w, rk, e, n) && !e.Junk?
    modifies cache
    ensures (o, cache.State()) == MatchEntry(w, rk, n, kind, e, ctx, aggregation, old(cache.State()))
    decreases n, 4, e
  {
    match e {
      case Nested(g) => o := MatchPropertyGroup(w, rk, n, g, cache, ctx, aggregation);
      case Single(f) => o := EvaluateFilter(w, rk, n, f, cache, ctx, aggregation);
    }
  }

  /** The loop over a condition's filters. */
  method MatchConditionFilters(
      w: World, ghost rk: Ranks, ghost n: nat, fs: seq<Filter>, cache: EvaluationCache, ctx: Ctx,
      aggregation: Option<nat>)
    returns (result: FilterResult)
    requires WellRanked(w, rk) && FiltersBelow(w, rk, fs, n)
    modifies cache
    ensures (result, cache.State()) == MatchFilters(w, rk, n, fs, ctx, aggregation, NO_TALLY, old(cache.State()))
    decreases n, 5
  {
    var inconclusiveReason: Option<Reason> := None;
    var serverEvaluationErr: Option<Outcome> := None;
    var i := 0;
    while i < |fs|
      invariant i <= |fs|
      invariant MatchFilters(w, rk, n, fs, ctx, aggregation, NO_TALLY, old(cache.State()))
             == MatchFilters(w, rk, n, fs[i..], ctx, aggregation, Tally(inconclusiveReason, serverEvaluationErr), cache.State())
    {
      assert fs[i..][1..] == fs[i + 1..];
      var r := EvaluateFilter(w, rk, n, fs[i], cache, ctx, aggregation);
      i := i + 1;
      match r {
        case ServerRequired(reason) =>
          if inconclusiveReason.None? {
            serverEvaluationErr := Some(r);
          }
          inconclusiveReason := Some(Pick(inconclusiveReason, reason));
        case Inconclusive(reason) =>
          inconclusiveReason := Some(Pick(inconclusiveReason, reason));
        case Broken =>
          if inconclusiveReason.None? {
            return Unresolved(Broken);
          }
        case Decided(isMatch) =>
          if !isMatch {
            return NoMatch;
          }
      }
    }
    if serverEvaluationErr.Some? {
      return Unresolved(Escalated(serverEvaluationErr.value, inconclusiveReason));
    }
    if inconclusiveReason.Some? {
      return Unresolved(Inconclusive(inconclusiveReason));
    }
    return AllMatch;
  }

  method IsConditionMatch(
      w: World, ghost rk: Ranks, ghost n: nat, flag: Flag, c: Condition, cache: EvaluationCache,
      ctx: Ctx, bucketingId: string, props: Properties)
    returns (result: ConditionResult)
    requires WellRanked(w, rk) && FiltersBelow(w, rk, c.filters, n)
    modifies cache
    ensures var a := EffectiveAggregation(flag, c);
            var r := MatchFilters(w, rk, n, c.filters, DependencyContext(a, ctx, bucketingId, props), a, NO_TALLY, old(cache.State()));
            result == Rolled(r.0, Included(w, flag, c, bucketingId)) && cache.State() == r.1
    decreases n, 6, 0
  {
    var aggregation := if c.aggregation.Some? then c.aggregation else flag.aggregation;
    var dependencyCtx := Ctx(ctx.distinctId, ctx.deviceId, props);
    if aggregation.Some? {
      dependencyCtx := Ctx(bucketingId, None, props);
    }
    var r := MatchConditionFilters(w, rk, n, c.filters, cache, dependencyCtx, aggregation);
    if r == NoMatch {
      return DoesNotMatch;
    }
    if r.Unresolved? {
      return Failed(r.error);
    }
    if c.rollout.Some? && !InRollout(w.digest, flag.key, bucketingId, c.rollout.value) {
      return OutOfRollout;
    }
    return Match;
  }

  method MatchFeatureFlagProperties(
      w: World, ghost rk: Ranks, ghost n: nat, flag: Flag, cache: EvaluationCache, ctx: Ctx, groups: Groups)
    returns (result: FlagResult)
    requires WellRanked(w, rk) && FlagBelow(w, rk, flag, n)
    modifies cache
    ensures (result, cache.State()) == MatchFlag(w, rk, n, flag, ctx, groups, old(cache.State()))
    decreases n, 8
  {
    var holdout := HoldoutVariant(w.digest, flag, ctx.distinctId, ctx.deviceId);
    if holdout.NeedsDevice? {
      var definition := DefinitionUnresolvedReason(w.scope, flag);
      return Error(Inconclusive(Some(Pick(definition, Some(MissingContext)))));
    }
    if holdout.Held? {
      return Value(Variant(holdout.variant));
    }
    result := MatchReleaseConditions(w, rk, n, flag, cache, ctx, groups);
  }

  /** The loop over a flag's conditions. */
  method MatchReleaseConditions(
      w: World, ghost rk: Ranks, ghost n: nat, flag: Flag, cache: EvaluationCache, ctx: Ctx, groups: Groups)
    returns (result: FlagResult)
    requires WellRanked(w, rk) && FlagBelow(w, rk, flag, n)
    modifies cache
    ensures (result, cache.State()) == MatchConditions(w, rk, n, flag, 0, ctx, groups, None, old(cache.State()))
    decreases n, 7
  {
    var inconclusiveReason: Option<Reason> := None;
    var i := 0;
    while i < |flag.conditions|
      invariant i <= |flag.conditions|
      invariant MatchConditions(w, rk, n, flag, 0, ctx, groups, None, old(cache.State()))
             == MatchConditions(w, rk, n, flag, i, ctx, groups, inconclusiveReason, cache.State())
    {
      var c := flag.conditions[i];
      i := i + 1;
      var j := JudgeCondition(w, rk, n, flag, c, cache, ctx, groups);
      match j.result {
        case Match =>
          return Value(j.value);
        case DoesNotMatch =>
        case OutOfRollout =>
          if flag.earlyExit {
            if inconclusiveReason.Some? {
              return Error(Inconclusive(inconclusiveReason));
            }
            return Value(Boolean(false));
          }
        case Failed(Inconclusive(reason)) =>
          inconclusiveReason := Some(Pick(inconclusiveReason, reason));
        case Failed(error) =>
          var raised := Raised(w, flag, error, inconclusiveReason);
          return Error(raised);
      }
    }
    if inconclusiveReason.Some? {
      return Error(Inconclusive(inconclusiveReason));
    }
    return Value(Boolean(false));
  }

  /** One condition, where it is placed: skipped without its group, unknown without the group's properties. */
  method JudgeCondition(
      w: World, ghost rk: Ranks, ghost n: nat, flag: Flag, c: Condition, cache: EvaluationCache, ctx: Ctx,
      groups: Groups)
    returns (j: Judged)
    requires WellRanked(w, rk) && FiltersBelow(w, rk, c.filters, n)
    modifies cache
    ensures (j, cache.State()) == MatchCondition(w, rk, n, flag, c, ctx, groups, old(cache.State()))
    decreases n, 6, 1
  {
    var place := PlaceOf(w, flag, c, ctx, groups);
    match place {
      case Skipped =>
        return Judged(DoesNotMatch, Boolean(true));
      case Unknown =>
        return Judged(Failed(MISSING), Boolean(true));
      case At(id, props) =>
        var r := IsConditionMatch(w, rk, n, flag, c, cache, ctx, id, props);
        return Judged(r, ConditionValue(w, flag, c, id));
    }
  }

  /** An error that ends the flag: a server-required one takes on the reasons already known, and the definition's. */
  method Raised(w: World, flag: Flag, error: Outcome, reason: Option<Reason>) returns (o: Outcome)
    requires !error.Inconclusive?
    ensures forall value ::
              AddCondition(flag.earlyExit, DefinitionReason(w.scope, flag), Judged(Failed(error), value), reason)
              == Return(Error(o))
  {
    if !error.ServerRequired? {
      return Broken;
    }
    var definition := DefinitionUnresolvedReason(w.scope, flag);
    var known := reason;
    if definition.Some? {
      known := Some(Pick(known, definition));
    }
    return Escalated(error, known);
  }

  /** computeFlagLocally, with a cache of its own. */
  method Compute(w: World, ghost rk: Ranks, ghost n: nat, flag: Flag, call: Call) returns (result: FlagResult)
    requires WellRanked(w, rk) && FlagBelow(w, rk, flag, n)
    ensures result == ComputeFlagLocally(w, rk, n, flag, call).0
  {
    if !flag.active {
      return Value(Boolean(false));
    }
    if flag.continuity {
      return Error(Inconclusive(Some(ExperienceContinuity)));
    }
    var subject := SubjectOf(w, flag, call);
    if subject.NoSubject? {
      return Error(subject.error);
    }
    var cache := new EvaluationCache();
    result := MatchFeatureFlagProperties(w, rk, n, flag, cache, subject.ctx, call.groups);
  }
}
