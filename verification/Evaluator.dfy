// Local evaluation of a flag: conditions, cohorts, nested groups and dependency
// chains call each other, and one cache of dependency results, keyed by flag
// key alone, is threaded through them all.

module Evaluator {

  import opened Wrappers
  import opened Reasons
  import opened Folding
  import opened FlagFolding
  import opened Filters
  import opened Definitions
  import opened CohortScan
  import opened Bucketing

  /** The definitions in force; `number` renders a numeric group key. */
  datatype World = World(scope: Scope, digest: Digest, number: Value -> string) {
    function Flags(): map<string, Flag> { scope.defs.flags }
    function Cohorts(): map<string, Group> { scope.defs.cohorts }
  }

  /** Whom a flag is evaluated for. */
  datatype Ctx = Ctx(distinctId: string, deviceId: Option<string>, props: Properties)

  /** The groups a call names, and their properties. */
  datatype Groups = Groups(keys: map<string, Value>, props: map<string, Properties>)

  const NO_GROUPS := Groups(map[], map[])

  /**
   * `cache` is evaluationCache: None is the nil of a dependency that could not be resolved.
   * `visits` logs what was evaluated.
   */
  datatype Visit = Visit(key: string, ctx: Ctx)
  datatype Memo = Memo(cache: map<string, Option<FlagValue>>, visits: seq<Visit>) {
    function Remember(key: string, value: Option<FlagValue>): Memo {
      Memo(cache[key := value], visits)
    }

    function Log(key: string, ctx: Ctx): Memo {
      Memo(cache, visits + [Visit(key, ctx)])
    }
  }

  // ------------------------------------------------------------ acyclic definitions

  /** Ranks that fall along every cohort reference and every dependency: there are some just when nothing is cyclic. */
  datatype Ranks = Ranks(flags: string -> nat, cohorts: string -> nat)

  /** A dependency on this flag needs the flag evaluated. */
  predicate Evaluable(w: World, key: string) {
    key in w.Flags() && w.Flags()[key].active && !w.Flags()[key].continuity
  }

  /** The chain's members that would be evaluated rank below n. */
  ghost predicate MemberBelow(w: World, rk: Ranks, key: string, n: nat) {
    Evaluable(w, key) ==> rk.flags(key) < n
  }

  ghost predicate ChainBelow(w: World, rk: Ranks, chain: seq<string>, n: nat) {
    forall i :: 0 <= i < |chain| ==> MemberBelow(w, rk, chain[i], n)
  }

  ghost predicate FilterBelow(w: World, rk: Ranks, f: Filter, n: nat) {
    && (NamesCohort(w.scope, f) ==> rk.cohorts(CohortId(w.scope, f)) < n)
    && (f.kind == "flag" && f.chain.Some? ==> ChainBelow(w, rk, f.chain.value, n))
  }

  ghost predicate FiltersBelow(w: World, rk: Ranks, fs: seq<Filter>, n: nat) {
    forall i :: 0 <= i < |fs| ==> FilterBelow(w, rk, fs[i], n)
  }

  ghost predicate EntryBelow(w: World, rk: Ranks, e: Entry, n: nat)
    decreases e
  {
    match e
    case Junk => true
    case Nested(g) => GroupBelow(w, rk, g, n)
    case Single(f) => FilterBelow(w, rk, f, n)
  }

  ghost predicate GroupBelow(w: World, rk: Ranks, g: Group, n: nat)
    decreases g
  {
    forall i :: 0 <= i < |g.entries| ==> EntryBelow(w, rk, g.entries[i], n)
  }

  ghost predicate FlagBelow(w: World, rk: Ranks, flag: Flag, n: nat) {
    forall i :: 0 <= i < |flag.conditions| ==> FiltersBelow(w, rk, flag.conditions[i].filters, n)
  }

  ghost predicate WellRanked(w: World, rk: Ranks) {
    && (forall key :: Evaluable(w, key) ==> FlagBelow(w, rk, w.Flags()[key], rk.flags(key)))
    && (forall id :: id in w.Cohorts() ==> GroupBelow(w, rk, w.Cohorts()[id], rk.cohorts(id)))
  }

  // ------------------------------------------------------------ where a condition is evaluated

  /** A condition whose group was not passed is skipped; one whose group's properties were not passed is unknown. */
  datatype Place = Skipped | Unknown | At(id: string, props: Properties)

  /** groupKeyToString */
  function GroupKey(w: World, key: Value): Option<string> {
    match key
    case Str(s) => Some(s)
    case Int(_) => Some(w.number(key))
    case Num(_) => Some(w.number(key))
    case _ => None
  }

  function WithGroupKey(props: Properties, key: Value): Properties {
    if "$group_key" in props then props else props["$group_key" := key]
  }

  function GroupPlace(w: World, index: nat, groups: Groups): Place {
    var types := w.scope.defs.groupTypes;
    if index !in types || types[index] !in groups.keys then Skipped
    else if types[index] !in groups.props then Unknown
    else
      var key := groups.keys[types[index]];
      match GroupKey(w, key)
      case None => Skipped
      case Some(id) => At(id, WithGroupKey(groups.props[types[index]], key))
  }

  /** A condition with an aggregation of its own is placed in that group, any other where its flag is. */
  function PlaceOf(w: World, flag: Flag, c: Condition, ctx: Ctx, groups: Groups): Place {
    var a := EffectiveAggregation(flag, c);
    if a == flag.aggregation || a.None? then At(BucketingId(flag, ctx.distinctId, ctx.deviceId), ctx.props)
    else GroupPlace(w, a.value, groups)
  }

  /** What the dependencies of a condition are evaluated for: under a group, the group's key and no device. */
  function DependencyContext(aggregation: Option<nat>, ctx: Ctx, id: string, props: Properties): Ctx {
    if aggregation.None? then Ctx(ctx.distinctId, ctx.deviceId, props) else Ctx(id, None, props)
  }

  predicate Included(w: World, flag: Flag, c: Condition, id: string) {
    c.rollout.None? || InRollout(w.digest, flag.key, id, c.rollout.value)
  }

  function ConditionValue(w: World, flag: Flag, c: Condition, id: string): FlagValue {
    if c.variant.Some? && exists i :: 0 <= i < |flag.variants| && flag.variants[i].0 == c.variant.value
    then Variant(c.variant.value)
    else MatchingVariant(w.digest, flag, id)
  }

  // ------------------------------------------------------------ the evaluator

  /** checkFlagDependencyValue */
  predicate DependencyMatches(expected: Value, actual: FlagValue) {
    match actual
    case Boolean(on) => expected == Bool(on)
    case Variant(key) => key != "" && (expected == Bool(true) || expected == Str(key))
  }

  const UNRESOLVED_CHAIN := Inconclusive(Some(UnresolvedDependency))
  const SERVER_CHAIN := ServerRequired(Some(UnresolvedDependency))
  const NO_COHORT := ServerRequired(Some(UnsupportedDefinition))

  /** One member of a dependency chain that the cache does not hold: the error that ends the chain, if any. */
  function MatchMember(w: World, ghost rk: Ranks, ghost n: nat, key: string, ctx: Ctx, m: Memo): (Option<Outcome>, Memo)
    requires WellRanked(w, rk) && key in w.Flags() && MemberBelow(w, rk, key, n)
    decreases n, 0
  {
    var flag := w.Flags()[key];
    if !flag.active then (None, m.Remember(key, Some(Boolean(false))))
    else if flag.continuity then (Some(UNRESOLVED_CHAIN), m.Remember(key, None))
    else
      var r := MatchFlag(w, rk, rk.flags(key), flag, ctx, NO_GROUPS, m.Log(key, ctx));
      match r.0
      case Value(v) => (None, r.1.Remember(key, Some(v)))
      case Error(ServerRequired(_)) => (Some(SERVER_CHAIN), r.1)
      case Error(_) => (Some(UNRESOLVED_CHAIN), r.1.Remember(key, None))
  }

  function MatchChain(
      w: World, ghost rk: Ranks, ghost n: nat, chain: seq<string>, ctx: Ctx, m: Memo): (Option<Outcome>, Memo)
    requires WellRanked(w, rk) && ChainBelow(w, rk, chain, n) && forall i :: 0 <= i < |chain| ==> chain[i] in w.Flags()
    decreases n, 1, |chain|
  {
    if |chain| == 0 then (None, m)
    else if chain[0] in m.cache then MatchChain(w, rk, n, chain[1..], ctx, m)
    else
      var r := MatchMember(w, rk, n, chain[0], ctx, m);
      if r.0.Some? then r else MatchChain(w, rk, n, chain[1..], ctx, r.1)
  }

  /** The comparison at the end of evaluateFlagDependency. */
  function Looked(f: Filter, cache: map<string, Option<FlagValue>>): Outcome {
    if f.key !in cache then UNSUPPORTED
    else match cache[f.key]
         case None => UNRESOLVED_CHAIN
         case Some(v) => Decided(DependencyMatches(f.value, v))
  }

  /** evaluateFlagDependency: the definitions of the whole chain are checked before the cache is read. */
  function MatchDependency(
      w: World, ghost rk: Ranks, ghost n: nat, f: Filter, ctx: Ctx, aggregation: Option<nat>, m: Memo)
    : (Outcome, Memo)
    requires WellRanked(w, rk) && f.kind == "flag" && FilterBelow(w, rk, f, n)
    decreases n, 2
  {
    match DependencyError(f, w.Flags(), aggregation)
    case Some(e) => (e, m)
    case None =>
      ChainErrorMeans(f.chain.value, w.Flags(), aggregation);
      var r := MatchChain(w, rk, n, f.chain.value, ctx, m);
      (if r.0.Some? then r.0.value else Looked(f, r.1.cache), r.1)
  }

  /** A cohort reference, a flag dependency or a property filter. */
  function MatchFilter(
      w: World, ghost rk: Ranks, ghost n: nat, f: Filter, ctx: Ctx, aggregation: Option<nat>, m: Memo)
    : (Outcome, Memo)
    requires WellRanked(w, rk) && FilterBelow(w, rk, f, n)
    decreases n, 3
  {
    if f.kind == "cohort" then
      var id := CohortId(w.scope, f);
      if id !in w.Cohorts() then (NO_COHORT, m)
      else MatchGroup(w, rk, rk.cohorts(id), w.Cohorts()[id], ctx, aggregation, m)
    else if f.kind == "flag" then MatchDependency(w, rk, n, f, ctx, aggregation, m)
    else (MatchProperty(w.scope.oracle, f, ctx.props, w.scope.defs.version), m)
  }

  /** matchPropertyGroup: an empty group always matches. */
  function MatchGroup(
      w: World, ghost rk: Ranks, ghost n: nat, g: Group, ctx: Ctx, aggregation: Option<nat>, m: Memo): (Outcome, Memo)
    requires WellRanked(w, rk) && GroupBelow(w, rk, g, n)
    decreases n, 4, g
  {
    if |g.entries| == 0 then (Decided(true), m) else MatchEntries(w, rk, n, g, 0, ctx, aggregation, None, m)
  }

  predicate Negated(e: Entry) {
    e.Single? && e.filter.negation
  }

  /** An entry of a group of this kind; one that was not an object leaves the group as it is. */
  function MatchEntry(
      w: World, ghost rk: Ranks, ghost n: nat, kind: string, e: Entry, ctx: Ctx, aggregation: Option<nat>, m: Memo)
    : (Outcome, Memo)
    requires WellRanked(w, rk) && EntryBelow(w, rk, e, n)
    decreases n, 4, e
  {
    match e
    case Junk => (Decided(kind == "AND"), m)
    case Nested(g) => MatchGroup(w, rk, n, g, ctx, aggregation, m)
    case Single(f) => MatchFilter(w, rk, n, f, ctx, aggregation, m)
  }

  /** matchParsedPropertyGroup, from entry i on. */
  function MatchEntries(
      w: World, ghost rk: Ranks, ghost n: nat, g: Group, i: nat, ctx: Ctx, aggregation: Option<nat>,
      reason: Option<Reason>, m: Memo): (Outcome, Memo)
    requires WellRanked(w, rk) && GroupBelow(w, rk, g, n) && i <= |g.entries|
    decreases n, 4, g, |g.entries| - i
  {
    if i == |g.entries| then (CloseGroup(g.kind, reason), m) else
      var r := MatchEntry(w, rk, n, g.kind, g.entries[i], ctx, aggregation, m);
      match AddEntry(g.kind, Negated(g.entries[i]), r.0, reason)
      case Halt(o) => (o, r.1)
      case Next(next) => MatchEntries(w, rk, n, g, i + 1, ctx, aggregation, next, r.1)
  }

  /** The loop over a condition's filters. */
  function MatchFilters(
      w: World, ghost rk: Ranks, ghost n: nat, fs: seq<Filter>, ctx: Ctx, aggregation: Option<nat>, t: Tally,
      m: Memo): (FilterResult, Memo)
    requires WellRanked(w, rk) && FiltersBelow(w, rk, fs, n)
    decreases n, 5, |fs|
  {
    if |fs| == 0 then (CloseFilters(t), m) else
      var r := MatchFilter(w, rk, n, fs[0], ctx, aggregation, m);
      match AddFilter(t, r.0)
      case Stop(result) => (result, r.1)
      case Go(next) => MatchFilters(w, rk, n, fs[1..], ctx, aggregation, next, r.1)
  }

  /** isConditionMatch, where the condition is placed. */
  function MatchCondition(
      w: World, ghost rk: Ranks, ghost n: nat, flag: Flag, c: Condition, ctx: Ctx, groups: Groups, m: Memo)
    : (Judged, Memo)
    requires WellRanked(w, rk) && FiltersBelow(w, rk, c.filters, n)
    decreases n, 6
  {
    match PlaceOf(w, flag, c, ctx, groups)
    case Skipped => (Judged(DoesNotMatch, Boolean(true)), m)
    case Unknown => (Judged(Failed(MISSING), Boolean(true)), m)
    case At(id, props) =>
      var a := EffectiveAggregation(flag, c);
      var r := MatchFilters(w, rk, n, c.filters, DependencyContext(a, ctx, id, props), a, NO_TALLY, m);
      (Judged(Rolled(r.0, Included(w, flag, c, id)), ConditionValue(w, flag, c, id)), r.1)
  }

  function MatchConditions(
      w: World, ghost rk: Ranks, ghost n: nat, flag: Flag, i: nat, ctx: Ctx, groups: Groups,
      reason: Option<Reason>, m: Memo): (FlagResult, Memo)
    requires WellRanked(w, rk) && FlagBelow(w, rk, flag, n) && i <= |flag.conditions|
    decreases n, 7, |flag.conditions| - i
  {
    if i == |flag.conditions| then (CloseFlag(reason), m) else
      var j := MatchCondition(w, rk, n, flag, flag.conditions[i], ctx, groups, m);
      match AddCondition(flag.earlyExit, DefinitionReason(w.scope, flag), j.0, reason)
      case Return(result) => (result, j.1)
      case Continue(next) => MatchConditions(w, rk, n, flag, i + 1, ctx, groups, next, j.1)
  }

  lemma ConditionsStep(
      w: World, rk: Ranks, n: nat, flag: Flag, i: nat, ctx: Ctx, groups: Groups, reason: Option<Reason>, m: Memo)
    requires WellRanked(w, rk) && FlagBelow(w, rk, flag, n) && i < |flag.conditions|
    ensures var j := MatchCondition(w, rk, n, flag, flag.conditions[i], ctx, groups, m);
            var r := MatchConditions(w, rk, n, flag, i, ctx, groups, reason, m);
            match AddCondition(flag.earlyExit, DefinitionReason(w.scope, flag), j.0, reason)
            case Return(result) => r == (result, j.1)
            case Continue(next) => r == MatchConditions(w, rk, n, flag, i + 1, ctx, groups, next, j.1)
  {
  }

  /** matchFeatureFlagProperties: holdouts come before any condition. */
  function MatchFlag(
      w: World, ghost rk: Ranks, ghost n: nat, flag: Flag, ctx: Ctx, groups: Groups, m: Memo): (FlagResult, Memo)
    requires WellRanked(w, rk) && FlagBelow(w, rk, flag, n)
    decreases n, 8
  {
    match HoldoutVariant(w.digest, flag, ctx.distinctId, ctx.deviceId)
    case NeedsDevice =>
      (Error(Inconclusive(Some(Pick(DefinitionReason(w.scope, flag), Some(MissingContext))))), m)
    case Held(variant) => (Value(Variant(variant)), m)
    case NotHeld => MatchConditions(w, rk, n, flag, 0, ctx, groups, None, m)
  }

  // ------------------------------------------------------------ a call

  datatype Call = Call(distinctId: string, deviceId: Option<string>, personProps: Properties, groups: Groups)

  /** The distinct id is a person property of any flag that has filters. */
  function PersonProperties(flag: Flag, call: Call): Properties {
    if (exists i :: 0 <= i < |flag.conditions| && |flag.conditions[i].filters| > 0) && "distinct_id" !in call.personProps
    then call.personProps["distinct_id" := Str(call.distinctId)]
    else call.personProps
  }

  /** Whom the flag itself is evaluated for, or why it cannot be. */
  datatype Subject = Subject(ctx: Ctx) | NoSubject(error: Outcome)

  function SubjectOf(w: World, flag: Flag, call: Call): Subject {
    match flag.aggregation
    case None => Subject(Ctx(call.distinctId, call.deviceId, PersonProperties(flag, call)))
    case Some(index) =>
      var types := w.scope.defs.groupTypes;
      if index !in types then NoSubject(Broken)
      else if types[index] !in call.groups.keys
      then NoSubject(Inconclusive(Some(Pick(DefinitionReason(w.scope, flag), Some(MissingContext)))))
      else
        var key := call.groups.keys[types[index]];
        var props := if types[index] in call.groups.props then call.groups.props[types[index]] else map[];
        match GroupKey(w, key)
        case None => NoSubject(Broken)
        case Some(id) => Subject(Ctx(id, None, WithGroupKey(props, key)))
  }

  /** computeFlagLocally, with an empty cache. */
  function ComputeFlagLocally(w: World, ghost rk: Ranks, ghost n: nat, flag: Flag, call: Call): (FlagResult, Memo)
    requires WellRanked(w, rk) && FlagBelow(w, rk, flag, n)
  {
    var start := Memo(map[], []);
    if !flag.active then (Value(Boolean(false)), start)
    else if flag.continuity then (Error(Inconclusive(Some(ExperienceContinuity))), start)
    else match SubjectOf(w, flag, call)
         case NoSubject(e) => (Error(e), start)
         case Subject(ctx) => MatchFlag(w, rk, n, flag, ctx, call.groups, start)
  }
}
