// The evaluator without its cache: every dependency is evaluated afresh each
// time it is needed. This is the reference the cached evaluator is compared with.

module Uncached {

  import opened Wrappers
  import opened Reasons
  import opened Folding
  import opened FlagFolding
  import opened Filters
  import opened Definitions
  import opened CohortScan
  import opened Bucketing
  import opened Evaluator

  function PlainMember(w: World, ghost rk: Ranks, key: string, ctx: Ctx): FlagResult
    requires WellRanked(w, rk) && key in w.Flags()
    decreases if Evaluable(w, key) then rk.flags(key) + 1 else 0, 0
  {
    var flag := w.Flags()[key];
    if !flag.active then Value(Boolean(false))
    else if flag.continuity then Error(UNRESOLVED_CHAIN)
    else PlainFlag(w, rk, rk.flags(key), flag, ctx, NO_GROUPS)
  }

  /** The error a dependency that came to this raises in a chain. */
  function MemberError(r: FlagResult): Option<Outcome> {
    match r
    case Value(_) => None
    case Error(ServerRequired(_)) => Some(SERVER_CHAIN)
    case Error(_) => Some(UNRESOLVED_CHAIN)
  }

  /** The members of a chain end it at the first that is not a value. */
  function FirstError(rs: seq<FlagResult>): Option<Outcome> {
    if |rs| == 0 then None
    else if MemberError(rs[0]).Some? then MemberError(rs[0])
    else FirstError(rs[1..])
  }

  /** Every member of a chain, evaluated on its own. */
  function PlainChain(w: World, ghost rk: Ranks, ghost n: nat, chain: seq<string>, ctx: Ctx): (rs: seq<FlagResult>)
    requires WellRanked(w, rk) && ChainBelow(w, rk, chain, n) && forall i :: 0 <= i < |chain| ==> chain[i] in w.Flags()
    ensures |rs| == |chain|
    decreases n, 1
  {
    seq(|chain|, i requires 0 <= i < |chain| => PlainMember(w, rk, chain[i], ctx))
  }

  function PlainDependency(
      w: World, ghost rk: Ranks, ghost n: nat, f: Filter, ctx: Ctx, aggregation: Option<nat>): Outcome
    requires WellRanked(w, rk) && f.kind == "flag" && FilterBelow(w, rk, f, n)
    decreases n, 2
  {
    match DependencyError(f, w.Flags(), aggregation)
    case Some(e) => e
    case None =>
      ChainErrorMeans(f.chain.value, w.Flags(), aggregation);
      var error := FirstError(PlainChain(w, rk, n, f.chain.value, ctx));
      if error.Some? then error.value
      else if f.key !in f.chain.value then UNSUPPORTED
      else match PlainMember(w, rk, f.key, ctx)
           case Value(v) => Decided(DependencyMatches(f.value, v))
           case Error(_) => UNRESOLVED_CHAIN
  }

  function PlainFilter(w: World, ghost rk: Ranks, ghost n: nat, f: Filter, ctx: Ctx, aggregation: Option<nat>): Outcome
    requires WellRanked(w, rk) && FilterBelow(w, rk, f, n)
    decreases n, 3
  {
    if f.kind == "cohort" then
      var id := CohortId(w.scope, f);
      if id !in w.Cohorts() then NO_COHORT
      else PlainGroup(w, rk, rk.cohorts(id), w.Cohorts()[id], ctx, aggregation)
    else if f.kind == "flag" then PlainDependency(w, rk, n, f, ctx, aggregation)
    else MatchProperty(w.scope.oracle, f, ctx.props, w.scope.defs.version)
  }

  function PlainGroup(w: World, ghost rk: Ranks, ghost n: nat, g: Group, ctx: Ctx, aggregation: Option<nat>): Outcome
    requires WellRanked(w, rk) && GroupBelow(w, rk, g, n)
    decreases n, 4, g
  {
    if |g.entries| == 0 then Decided(true) else PlainEntries(w, rk, n, g, 0, ctx, aggregation, None)
  }

  function PlainEntry(
      w: World, ghost rk: Ranks, ghost n: nat, kind: string, e: Entry, ctx: Ctx, aggregation: Option<nat>): Outcome
    requires WellRanked(w, rk) && EntryBelow(w, rk, e, n)
    decreases n, 4, e
  {
    match e
    case Junk => Decided(kind == "AND")
    case Nested(g) => PlainGroup(w, rk, n, g, ctx, aggregation)
    case Single(f) => PlainFilter(w, rk, n, f, ctx, aggregation)
  }

  function PlainEntries(
      w: World, ghost rk: Ranks, ghost n: nat, g: Group, i: nat, ctx: Ctx, aggregation: Option<nat>,
      reason: Option<Reason>): Outcome
    requires WellRanked(w, rk) && GroupBelow(w, rk, g, n) && i <= |g.entries|
    decreases n, 4, g, |g.entries| - i
  {
    if i == |g.entries| then CloseGroup(g.kind, reason) else
      match AddEntry(g.kind, Negated(g.entries[i]), PlainEntry(w, rk, n, g.kind, g.entries[i], ctx, aggregation), reason)
      case Halt(o) => o
      case Next(next) => PlainEntries(w, rk, n, g, i + 1, ctx, aggregation, next)
  }

  /** Every filter of a condition, evaluated on its own. */
  function PlainOutcomes(
      w: World, ghost rk: Ranks, ghost n: nat, fs: seq<Filter>, ctx: Ctx, aggregation: Option<nat>): (os: seq<Outcome>)
    requires WellRanked(w, rk) && FiltersBelow(w, rk, fs, n)
    ensures |os| == |fs|
    decreases n, 5
  {
    seq(|fs|, i requires 0 <= i < |fs| => PlainFilter(w, rk, n, fs[i], ctx, aggregation))
  }

  function PlainCondition(
      w: World, ghost rk: Ranks, ghost n: nat, flag: Flag, c: Condition, ctx: Ctx, groups: Groups): Judged
    requires WellRanked(w, rk) && FiltersBelow(w, rk, c.filters, n)
    decreases n, 6
  {
    match PlaceOf(w, flag, c, ctx, groups)
    case Skipped => Judged(DoesNotMatch, Boolean(true))
    case Unknown => Judged(Failed(MISSING), Boolean(true))
    case At(id, props) =>
      var a := EffectiveAggregation(flag, c);
      var r := FoldFilters(PlainOutcomes(w, rk, n, c.filters, DependencyContext(a, ctx, id, props), a), NO_TALLY);
      Judged(Rolled(r, Included(w, flag, c, id)), ConditionValue(w, flag, c, id))
  }

  function PlainConditions(
      w: World, ghost rk: Ranks, ghost n: nat, flag: Flag, i: nat, ctx: Ctx, groups: Groups, reason: Option<Reason>)
    : FlagResult
    requires WellRanked(w, rk) && FlagBelow(w, rk, flag, n) && i <= |flag.conditions|
    decreases n, 7, |flag.conditions| - i
  {
    if i == |flag.conditions| then CloseFlag(reason) else
      var j := PlainCondition(w, rk, n, flag, flag.conditions[i], ctx, groups);
      match AddCondition(flag.earlyExit, DefinitionReason(w.scope, flag), j, reason)
      case Return(result) => result
      case Continue(next) => PlainConditions(w, rk, n, flag, i + 1, ctx, groups, next)
  }

  function PlainFlag(w: World, ghost rk: Ranks, ghost n: nat, flag: Flag, ctx: Ctx, groups: Groups): FlagResult
    requires WellRanked(w, rk) && FlagBelow(w, rk, flag, n)
    decreases n, 8
  {
    match HoldoutVariant(w.digest, flag, ctx.distinctId, ctx.deviceId)
    case NeedsDevice => Error(Inconclusive(Some(Pick(DefinitionReason(w.scope, flag), Some(MissingContext)))))
    case Held(variant) => Value(Variant(variant))
    case NotHeld => PlainConditions(w, rk, n, flag, 0, ctx, groups, None)
  }

  function ComputePlain(w: World, ghost rk: Ranks, ghost n: nat, flag: Flag, call: Call): FlagResult
    requires WellRanked(w, rk) && FlagBelow(w, rk, flag, n)
  {
    if !flag.active then Value(Boolean(false))
    else if flag.continuity then Error(Inconclusive(Some(ExperienceContinuity)))
    else match SubjectOf(w, flag, call)
         case NoSubject(e) => Error(e)
         case Subject(ctx) => PlainFlag(w, rk, n, flag, ctx, call.groups)
  }

  /** What each filter comes to on its own. */
  ghost function Alone(w: World, rk: Ranks, n: nat, ctx: Ctx, aggregation: Option<nat>): Filter -> Outcome
    requires WellRanked(w, rk)
  {
    f => if FilterBelow(w, rk, f, n) then PlainFilter(w, rk, n, f, ctx, aggregation) else Broken
  }

  function Mapped(o: Filter -> Outcome, fs: seq<Filter>): seq<Outcome> {
    seq(|fs|, i requires 0 <= i < |fs| => o(fs[i]))
  }

  lemma OutcomesAreMapped(w: World, rk: Ranks, n: nat, fs: seq<Filter>, ctx: Ctx, aggregation: Option<nat>)
    requires WellRanked(w, rk) && FiltersBelow(w, rk, fs, n)
    ensures PlainOutcomes(w, rk, n, fs, ctx, aggregation) == Mapped(Alone(w, rk, n, ctx, aggregation), fs)
  {
  }

  lemma MappedSplit(o: Filter -> Outcome, fs: seq<Filter>)
    requires |fs| > 0
    ensures Mapped(o, fs) == [o(fs[0])] + Mapped(o, fs[1..])
  {
  }

  lemma OutcomesSplit(w: World, rk: Ranks, n: nat, fs: seq<Filter>, ctx: Ctx, aggregation: Option<nat>)
    requires WellRanked(w, rk) && FiltersBelow(w, rk, fs, n) && |fs| > 0
    ensures PlainOutcomes(w, rk, n, fs, ctx, aggregation)
         == [PlainFilter(w, rk, n, fs[0], ctx, aggregation)] + PlainOutcomes(w, rk, n, fs[1..], ctx, aggregation)
  {
    OutcomesAreMapped(w, rk, n, fs, ctx, aggregation);
    OutcomesAreMapped(w, rk, n, fs[1..], ctx, aggregation);
    MappedSplit(Alone(w, rk, n, ctx, aggregation), fs);
  }
}
