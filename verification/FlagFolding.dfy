// How the results of a flag's conditions are combined into the flag's value,
// and what a conclusive value depends on.

module FlagFolding {

  import opened Wrappers
  import opened Reasons
  import opened Folding

  /** A flag's value: a boolean, or the key of a variant. */
  datatype FlagValue = Boolean(on: bool) | Variant(key: string)

  predicate Enabled(v: FlagValue) {
    v != Boolean(false)
  }

  datatype ConditionResult = Match | DoesNotMatch | OutOfRollout | Failed(error: Outcome)

  datatype FlagResult = Value(value: FlagValue) | Error(error: Outcome)

  /** A condition as the flag's loop sees it: its result, and the value it would give. */
  datatype Judged = Judged(result: ConditionResult, value: FlagValue)

  datatype FlagStep = Return(result: FlagResult) | Continue(reason: Option<Reason>)

  /** One condition of matchFeatureFlagProperties. */
  function AddCondition(earlyExit: bool, definition: Option<Reason>, j: Judged, reason: Option<Reason>): FlagStep {
    match j.result
    case Match => Return(Value(j.value))
    case DoesNotMatch => Continue(reason)
    case OutOfRollout =>
      if !earlyExit then Continue(reason)
      else if reason.Some? then Return(Error(Inconclusive(reason)))
      else Return(Value(Boolean(false)))
    case Failed(Inconclusive(r)) => Continue(Some(Pick(reason, r)))
    case Failed(ServerRequired(r)) =>
      var known := if definition.Some? then Some(Pick(reason, definition)) else reason;
      Return(Error(Escalated(ServerRequired(r), known)))
    case Failed(_) => Return(Error(Broken))
  }

  function CloseFlag(reason: Option<Reason>): FlagResult {
    if reason.Some? then Error(Inconclusive(reason)) else Value(Boolean(false))
  }

  function FoldConditions(
      earlyExit: bool, definition: Option<Reason>, js: seq<Judged>, reason: Option<Reason>): FlagResult {
    if |js| == 0 then CloseFlag(reason) else
      match AddCondition(earlyExit, definition, js[0], reason)
      case Return(r) => r
      case Continue(next) => FoldConditions(earlyExit, definition, js[1..], next)
  }

  // ------------------------------------------------------------ the ways the unresolved could come out

  /** With every condition decided, the flag has a value. */
  function Settled(earlyExit: bool, js: seq<Judged>): FlagValue {
    if |js| == 0 then Boolean(false) else
      match js[0].result
      case Match => js[0].value
      case OutOfRollout => if earlyExit then Boolean(false) else Settled(earlyExit, js[1..])
      case _ => Settled(earlyExit, js[1..])
  }

  /** How an unresolved condition may come out; a safe one cannot end up out of its rollout. */
  predicate Completes(r: ConditionResult, safe: bool, c: ConditionResult) {
    if r.Failed? then !c.Failed? && (c.OutOfRollout? ==> !safe) else c == r
  }

  ghost predicate Completion(js: seq<Judged>, safe: seq<bool>, cs: seq<Judged>) {
    && |cs| == |js| == |safe|
    && forall i :: 0 <= i < |js| ==> Completes(js[i].result, safe[i], cs[i].result) && cs[i].value == js[i].value
  }

  ghost predicate ValuesEnable(js: seq<Judged>) {
    forall i :: 0 <= i < |js| ==> Enabled(js[i].value)
  }

  /** A conclusive false stays false, with early exit or without. */
  lemma {:induction false} ConclusiveFalseIsSound(
      earlyExit: bool, definition: Option<Reason>, js: seq<Judged>, reason: Option<Reason>, safe: seq<bool>,
      cs: seq<Judged>)
    requires ValuesEnable(js) && Completion(js, safe, cs)
    ensures FoldConditions(earlyExit, definition, js, reason) == Value(Boolean(false)) ==>
              reason.None? && Settled(earlyExit, cs) == Boolean(false)
  {
    if |js| > 0 {
      match AddCondition(earlyExit, definition, js[0], reason)
      case Return(r) => assert Completes(js[0].result, safe[0], cs[0].result);
      case Continue(next) =>
        assert Completes(js[0].result, safe[0], cs[0].result);
        ConclusiveFalseIsSound(earlyExit, definition, js[1..], next, safe[1..], cs[1..]);
    }
  }

  /** A conclusive enabled flag stays enabled when early exit is off. */
  lemma {:induction false} ConclusiveEnabledIsSound(
      definition: Option<Reason>, js: seq<Judged>, reason: Option<Reason>, safe: seq<bool>, cs: seq<Judged>)
    requires ValuesEnable(js) && Completion(js, safe, cs)
    ensures var r := FoldConditions(false, definition, js, reason);
            r.Value? && Enabled(r.value) ==> Enabled(Settled(false, cs))
  {
    if |js| > 0 {
      assert Completes(js[0].result, safe[0], cs[0].result);
      match AddCondition(false, definition, js[0], reason)
      case Return(r) =>
      case Continue(next) => ConclusiveEnabledIsSound(definition, js[1..], next, safe[1..], cs[1..]);
    }
  }

  /** A flag whose conditions are all decided has its value. */
  lemma {:induction false} DecidedFlagIsSettled(earlyExit: bool, definition: Option<Reason>, js: seq<Judged>)
    requires forall i :: 0 <= i < |js| ==> !js[i].result.Failed?
    ensures FoldConditions(earlyExit, definition, js, None) == Value(Settled(earlyExit, js))
  {
    if |js| > 0 && !js[0].result.Match? && !(js[0].result.OutOfRollout? && earlyExit) {
      DecidedFlagIsSettled(earlyExit, definition, js[1..]);
    }
  }

  predicate Unsure(j: Judged) {
    j.result.Failed? && j.result.error.Inconclusive?
  }

  predicate FirstMatch(js: seq<Judged>, n: nat) {
    n < |js| && js[n].result.Match? && forall i :: 0 <= i < n ==> !js[i].result.Match?
  }

  /**
   * Without early exit, and with conditions decided or inconclusive, the flag
   * has the value of its first match, inconclusive conditions before it or not;
   * without a match it is undecided exactly if some condition is.
   */
  lemma {:induction false} UnsureFlagMeans(definition: Option<Reason>, js: seq<Judged>, reason: Option<Reason>)
    requires forall i :: 0 <= i < |js| ==> js[i].result.Failed? ==> Unsure(js[i])
    ensures var r := FoldConditions(false, definition, js, reason);
            && (forall n: nat :: FirstMatch(js, n) ==> r == Value(js[n].value))
            && ((forall i :: 0 <= i < |js| ==> !js[i].result.Match?) ==>
                  if reason.Some? || exists i :: 0 <= i < |js| && Unsure(js[i])
                  then r.Error? && r.error.Inconclusive? && r.error.reason.Some?
                  else r == Value(Boolean(false)))
  {
    if |js| > 0 && !js[0].result.Match? {
      var next := if Unsure(js[0]) then Some(Pick(reason, js[0].result.error.reason)) else reason;
      UnsureFlagMeans(definition, js[1..], next);
      var r := FoldConditions(false, definition, js, reason);
      assert r == FoldConditions(false, definition, js[1..], next);
      forall n: nat | FirstMatch(js, n) ensures r == Value(js[n].value) {
        assert js[1..][n - 1] == js[n] && FirstMatch(js[1..], n - 1);
      }
    }
  }

  /** A server-required condition is reported for a reason no less urgent than any cause known. */
  lemma ServerReasonIsForemost(
      earlyExit: bool, definition: Option<Reason>, own: Option<Reason>, value: FlagValue, reason: Option<Reason>)
    ensures var step := AddCondition(earlyExit, definition, Judged(Failed(ServerRequired(own)), value), reason);
            && step.Return? && step.result.Error? && step.result.error.ServerRequired?
            && step.result.error.reason.Some?
            && Rank(step.result.error.reason) <= Rank(reason) && Rank(step.result.error.reason) <= Rank(definition)
            && Rank(step.result.error.reason) <= Rank(Some(own.GetOr(UnsupportedDefinition)))
  {
    var known := if definition.Some? then Some(Pick(reason, definition)) else reason;
    if definition.Some? {
      PickIsMinimum(reason, definition.value);
    }
    PickIsMinimum(known, own.GetOr(UnsupportedDefinition));
  }

  // ------------------------------------------------------------ conditions over leaves

  /**
   * A condition as the trees of its filters. `skipped` is a group condition whose
   * group was not passed; `unknown` one whose group's properties were not passed.
   */
  datatype ConditionTree = ConditionTree(skipped: bool, unknown: bool, filters: seq<Tree>, included: bool, value: FlagValue)

  function Verdicts(ts: seq<Tree>): seq<Outcome> {
    seq(|ts|, i requires 0 <= i < |ts| => Verdict(ts[i]))
  }

  /** isConditionMatch, after its filters. */
  function Rolled(r: FilterResult, included: bool): ConditionResult {
    match r
    case AllMatch => if included then Match else OutOfRollout
    case NoMatch => DoesNotMatch
    case Unresolved(e) => Failed(e)
  }

  function Judge(c: ConditionTree): Judged {
    Judged(
      if c.skipped then DoesNotMatch
      else if c.unknown then Failed(Inconclusive(Some(MissingContext)))
      else Rolled(FoldFilters(Verdicts(c.filters), NO_TALLY), c.included),
      c.value)
  }

  /** The condition with every unresolved leaf replaced by the chosen truth value. */
  function Resolve(c: ConditionTree, path: seq<nat>, choice: Choice): Judged {
    Judged(
      if c.skipped then DoesNotMatch
      else if (c.unknown ==> choice(path)) && forall i :: 0 <= i < |c.filters| ==> Truth(c.filters[i], path + [i], choice)
      then if c.included then Match else OutOfRollout
      else DoesNotMatch,
      c.value)
  }

  /** Can all filters of the condition come out true? */
  predicate CanHold(c: ConditionTree) {
    !c.skipped && forall i :: 0 <= i < |c.filters| ==> CanBe(c.filters[i], true)
  }

  /** The rollout includes the identity, or will not be asked. */
  predicate Safe(c: ConditionTree) {
    c.included || !CanHold(c)
  }

  /** A condition's conclusive result is the result under any choice; a safe one never ends up out of its rollout. */
  lemma ConditionIsSound(c: ConditionTree, path: seq<nat>, choice: Choice)
    ensures Completes(Judge(c).result, Safe(c), Resolve(c, path, choice).result)
  {
    forall i | 0 <= i < |c.filters| ensures Truth(c.filters[i], path + [i], choice) ==> CanBe(c.filters[i], true) {
      TruthCanBe(c.filters[i], path + [i], choice);
    }
    if !c.skipped && !c.unknown {
      var os := Verdicts(c.filters);
      FiltersConclude(os, NO_TALLY);
      forall i | 0 <= i < |c.filters|
        ensures os[i].Decided? ==> Truth(c.filters[i], path + [i], choice) == os[i].matched
      {
        ConclusiveIsSound(c.filters[i], path + [i], choice);
      }
      if FoldFilters(os, NO_TALLY) == NoMatch {
        var i :| 0 <= i < |os| && os[i] == Decided(false);
        assert !Truth(c.filters[i], path + [i], choice);
      }
      if FoldFilters(os, NO_TALLY) == AllMatch {
        assert forall i :: 0 <= i < |c.filters| ==> os[i] == Decided(true);
      }
    }
  }

  function JudgeAll(conds: seq<ConditionTree>): seq<Judged> {
    seq(|conds|, i requires 0 <= i < |conds| => Judge(conds[i]))
  }

  function ResolveAll(conds: seq<ConditionTree>, choice: Choice): seq<Judged> {
    seq(|conds|, i requires 0 <= i < |conds| => Resolve(conds[i], [i], choice))
  }

  /** The flag with every unresolved leaf replaced by the chosen truth value. */
  function FlagTruth(earlyExit: bool, conds: seq<ConditionTree>, choice: Choice): FlagValue {
    Settled(earlyExit, ResolveAll(conds, choice))
  }

  function SafeAll(conds: seq<ConditionTree>): seq<bool> {
    seq(|conds|, i requires 0 <= i < |conds| => Safe(conds[i]))
  }

  lemma ResolutionCompletes(conds: seq<ConditionTree>, choice: Choice)
    ensures Completion(JudgeAll(conds), SafeAll(conds), ResolveAll(conds, choice))
  {
    forall i | 0 <= i < |conds| ensures Completes(Judge(conds[i]).result, Safe(conds[i]), Resolve(conds[i], [i], choice).result) {
      ConditionIsSound(conds[i], [i], choice);
    }
  }

  /**
   * A conclusive local answer is sound: replacing every unresolved leaf by
   * either truth value leaves a false flag false, and keeps an enabled flag
   * enabled when early exit is off.
   */
  lemma FlagIsSound(earlyExit: bool, definition: Option<Reason>, conds: seq<ConditionTree>, choice: Choice)
    requires forall i :: 0 <= i < |conds| ==> Enabled(conds[i].value)
    ensures var r := FoldConditions(earlyExit, definition, JudgeAll(conds), None);
            && (r == Value(Boolean(false)) ==> FlagTruth(earlyExit, conds, choice) == Boolean(false))
            && (r.Value? && Enabled(r.value) && !earlyExit ==> Enabled(FlagTruth(earlyExit, conds, choice)))
  {
    ResolutionCompletes(conds, choice);
    ConclusiveFalseIsSound(earlyExit, definition, JudgeAll(conds), None, SafeAll(conds), ResolveAll(conds, choice));
    ConclusiveEnabledIsSound(definition, JudgeAll(conds), None, SafeAll(conds), ResolveAll(conds, choice));
  }
}
