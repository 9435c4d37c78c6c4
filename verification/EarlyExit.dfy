// Early exit: when a conclusive enabled flag stays enabled whatever the leaves
// that were left unresolved would turn out to be.

module EarlyExit {

  import opened Wrappers
  import opened Reasons
  import opened Folding
  import opened FlagFolding
  import opened Filters
  import opened Definitions
  import opened CohortScan
  import opened Bucketing
  import opened Evaluator
  import opened Unrolling

  // ------------------------------------------------------------ a choice aimed at one condition

  ghost predicate ConditionAimed(c: ConditionTree, goal: bool, path: seq<nat>, choice: Choice) {
    && choice(path) == goal
    && forall k :: 0 <= k < |c.filters| ==> Aimed(c.filters[k], goal, path + [k], choice)
  }

  /** An aimed choice makes an unresolved condition hold if it can, or not hold. */
  lemma AimedResolves(c: ConditionTree, goal: bool, path: seq<nat>, choice: Choice)
    requires ConditionAimed(c, goal, path, choice)
    ensures goal && CanHold(c) ==> Resolve(c, path, choice).result == if c.included then Match else OutOfRollout
    ensures var r := Judge(c).result;
            !goal && r.Failed? && r.error.Inconclusive? ==> Resolve(c, path, choice).result == DoesNotMatch
  {
    forall k | 0 <= k < |c.filters| ensures Truth(c.filters[k], path + [k], choice) == goal <==> CanBe(c.filters[k], goal) {
      AimedTruth(c.filters[k], goal, path + [k], choice);
    }
    var r := Judge(c).result;
    if !goal && r.Failed? && r.error.Inconclusive? && !c.unknown {
      var os := Verdicts(c.filters);
      InconclusiveFilter(os, NO_TALLY);
      var k :| 0 <= k < |os| && os[k].Inconclusive?;
      InconclusiveIsOpen(c.filters[k], false);
    }
  }

  /** The choice that lets condition `target` hold and no other unresolved one. */
  function AimAt(conds: seq<ConditionTree>, target: nat): Choice {
    path =>
      |path| > 0 &&
      var goal := path[0] == target;
      if |path| == 1 || path[0] >= |conds| || path[1] >= |conds[path[0]].filters| then goal
      else Aim(conds[path[0]].filters[path[1]], goal, path[2..])
  }

  lemma AimAtAims(conds: seq<ConditionTree>, target: nat, i: nat)
    requires i < |conds|
    ensures ConditionAimed(conds[i], i == target, [i], AimAt(conds, target))
  {
    var choice := AimAt(conds, target);
    forall k | 0 <= k < |conds[i].filters| ensures Aimed(conds[i].filters[k], i == target, [i] + [k], choice) {
      forall q: seq<nat> ensures choice([i] + [k] + q) == Aim(conds[i].filters[k], i == target, q) {
        assert ([i] + [k] + q)[2..] == q;
      }
    }
  }

  // ------------------------------------------------------------ the conditions met before the match

  /** The loop goes on after this result, early exit or not. */
  predicate PassesBy(r: ConditionResult) {
    r.DoesNotMatch? || (r.Failed? && r.error.Inconclusive?)
  }

  lemma {:induction false} MetBefore(definition: Option<Reason>, js: seq<Judged>, reason: Option<Reason>)
    requires var r := FoldConditions(true, definition, js, reason); r.Value? && Enabled(r.value)
    ensures exists n: nat :: FirstMatch(js, n)
    ensures forall n: nat, i :: FirstMatch(js, n) && 0 <= i < n ==> PassesBy(js[i].result)
  {
    if js[0].result.Match? {
      assert FirstMatch(js, 0);
    } else {
      match AddCondition(true, definition, js[0], reason)
      case Continue(next) =>
        MetBefore(definition, js[1..], next);
        var n: nat :| FirstMatch(js[1..], n);
        assert FirstMatch(js, n + 1);
        forall n: nat, i | FirstMatch(js, n) && 0 <= i < n ensures PassesBy(js[i].result) {
          assert FirstMatch(js[1..], n - 1);
          assert i > 0 ==> js[i] == js[1..][i - 1];
        }
    }
  }

  lemma {:induction false} SettledEnables(cs: seq<Judged>, n: nat)
    requires n < |cs| && cs[n].result.Match? && forall i :: 0 <= i <= n ==> Enabled(cs[i].value)
    requires forall i :: 0 <= i < n ==> !cs[i].result.OutOfRollout?
    ensures Enabled(Settled(true, cs))
  {
    if n > 0 && !cs[0].result.Match? {
      SettledEnables(cs[1..], n - 1);
    }
  }

  lemma {:induction false} SettledDisables(cs: seq<Judged>, n: nat)
    requires n < |cs| && cs[n].result.OutOfRollout? && forall i :: 0 <= i < n ==> cs[i].result.DoesNotMatch?
    ensures Settled(true, cs) == Boolean(false)
  {
    if n > 0 {
      SettledDisables(cs[1..], n - 1);
    }
  }

  // ------------------------------------------------------------ exactly when it is sound

  /** No condition left unresolved before the match can hold for an identity its rollout excludes. */
  predicate NoneShutsOut(conds: seq<ConditionTree>, n: nat)
    requires n <= |conds|
  {
    forall i :: 0 <= i < n && Judge(conds[i]).result.Failed? ==> Safe(conds[i])
  }

  /**
   * With early exit on, a conclusive enabled flag is enabled under every choice
   * of truth values for the unresolved leaves if and only if every unresolved
   * condition before the match either has a rollout that includes the identity
   * or has filters that cannot all be true.
   */
  lemma EarlyExitSoundIff(definition: Option<Reason>, conds: seq<ConditionTree>, n: nat)
    requires forall i :: 0 <= i < |conds| ==> Enabled(conds[i].value)
    requires var r := FoldConditions(true, definition, JudgeAll(conds), None); r.Value? && Enabled(r.value)
    requires FirstMatch(JudgeAll(conds), n)
    ensures NoneShutsOut(conds, n) <==> forall choice: Choice :: Enabled(FlagTruth(true, conds, choice))
  {
    MetBefore(definition, JudgeAll(conds), None);
    if NoneShutsOut(conds, n) {
      forall choice: Choice ensures Enabled(FlagTruth(true, conds, choice)) {
        SafeStaysEnabled(conds, n, choice);
      }
    } else {
      var i :| 0 <= i < n && Judge(conds[i]).result.Failed? && !Safe(conds[i]);
      UnsafeShutsOut(conds, i);
    }
  }

  lemma SafeStaysEnabled(conds: seq<ConditionTree>, n: nat, choice: Choice)
    requires forall i :: 0 <= i < |conds| ==> Enabled(conds[i].value)
    requires FirstMatch(JudgeAll(conds), n) && NoneShutsOut(conds, n)
    requires forall i :: 0 <= i < n ==> PassesBy(JudgeAll(conds)[i].result)
    ensures Enabled(FlagTruth(true, conds, choice))
  {
    var cs := ResolveAll(conds, choice);
    forall i | 0 <= i <= n
      ensures Completes(JudgeAll(conds)[i].result, Safe(conds[i]), cs[i].result) && cs[i].value == conds[i].value
      ensures i < n ==> !cs[i].result.OutOfRollout?
    {
      ConditionIsSound(conds[i], [i], choice);
      assert i < n ==> PassesBy(JudgeAll(conds)[i].result);
    }
    SettledEnables(cs, n);
  }

  lemma UnsafeShutsOut(conds: seq<ConditionTree>, n: nat)
    requires n < |conds| && Judge(conds[n]).result.Failed? && !Safe(conds[n])
    requires forall i :: 0 <= i < n ==> PassesBy(JudgeAll(conds)[i].result)
    ensures FlagTruth(true, conds, AimAt(conds, n)) == Boolean(false)
  {
    var choice := AimAt(conds, n);
    var cs := ResolveAll(conds, choice);
    forall i | 0 <= i < n ensures cs[i].result == DoesNotMatch {
      assert PassesBy(JudgeAll(conds)[i].result);
      AimAtAims(conds, n, i);
      AimedResolves(conds[i], false, [i], choice);
      ConditionIsSound(conds[i], [i], choice);
    }
    AimAtAims(conds, n, n);
    AimedResolves(conds[n], true, [n], choice);
    SettledDisables(cs, n);
  }

  // ------------------------------------------------------------ the evaluator

  /** The same of the evaluator's answer for a flag that is not held out. */
  lemma EarlyExitAnswerIff(w: World, rk: Ranks, n: nat, flag: Flag, ctx: Ctx, groups: Groups, m: Memo, k: nat)
    requires WellRanked(w, rk) && FlagBelow(w, rk, flag, n) && flag.earlyExit
    requires HoldoutVariant(w.digest, flag, ctx.distinctId, ctx.deviceId).NotHeld?
    requires var r := MatchFlag(w, rk, n, flag, ctx, groups, m).0; r.Value? && Enabled(r.value)
    requires FirstMatch(JudgeAll(FlagTrees(w, rk, n, flag, 0, ctx, groups, m)), k)
    ensures var trees := FlagTrees(w, rk, n, flag, 0, ctx, groups, m);
            NoneShutsOut(trees, k) <==> forall choice: Choice :: Enabled(FlagTruth(true, trees, choice))
  {
    TreesEnable(w, rk, n, flag, 0, ctx, groups, m);
    ConditionsFold(w, rk, n, flag, 0, ctx, groups, None, m);
    EarlyExitSoundIff(DefinitionReason(w.scope, flag), FlagTrees(w, rk, n, flag, 0, ctx, groups, m), k);
  }

  lemma TreeIncludes(
      w: World, rk: Ranks, n: nat, flag: Flag, c: Condition, ctx: Ctx, groups: Groups, m: Memo)
    requires WellRanked(w, rk) && FiltersBelow(w, rk, c.filters, n)
    ensures TreeOfCondition(w, rk, n, flag, c, ctx, groups, m).included == RolloutIncludes(w, flag, c, ctx, groups)
  {
  }

  lemma TreesSplit(w: World, rk: Ranks, n: nat, flag: Flag, i: nat, ctx: Ctx, groups: Groups, m: Memo) returns (next: Memo)
    requires WellRanked(w, rk) && FlagBelow(w, rk, flag, n) && i < |flag.conditions|
    ensures FlagTrees(w, rk, n, flag, i, ctx, groups, m)
         == [TreeOfCondition(w, rk, n, flag, flag.conditions[i], ctx, groups, m)]
            + FlagTrees(w, rk, n, flag, i + 1, ctx, groups, next)
  {
    next := MatchCondition(w, rk, n, flag, flag.conditions[i], ctx, groups, m).1;
  }

  ghost predicate IncludedFrom(w: World, flag: Flag, i: nat, ctx: Ctx, groups: Groups, trees: seq<ConditionTree>) {
    && i + |trees| == |flag.conditions|
    && forall k :: i <= k < |flag.conditions| ==>
         trees[k - i].included == RolloutIncludes(w, flag, flag.conditions[k], ctx, groups)
  }

  lemma IncludedJoins(
      w: World, flag: Flag, i: nat, ctx: Ctx, groups: Groups, t: ConditionTree, rest: seq<ConditionTree>)
    requires i < |flag.conditions| && t.included == RolloutIncludes(w, flag, flag.conditions[i], ctx, groups)
    requires IncludedFrom(w, flag, i + 1, ctx, groups, rest)
    ensures IncludedFrom(w, flag, i, ctx, groups, [t] + rest)
  {
    var trees := [t] + rest;
    forall k | i <= k < |flag.conditions|
      ensures trees[k - i].included == RolloutIncludes(w, flag, flag.conditions[k], ctx, groups)
    {
      assert k > i ==> trees[k - i] == rest[k - (i + 1)];
    }
  }

  lemma {:induction false} TreesInclude(
      w: World, rk: Ranks, n: nat, flag: Flag, i: nat, ctx: Ctx, groups: Groups, m: Memo)
    requires WellRanked(w, rk) && FlagBelow(w, rk, flag, n) && i <= |flag.conditions|
    ensures IncludedFrom(w, flag, i, ctx, groups, FlagTrees(w, rk, n, flag, i, ctx, groups, m))
    decreases |flag.conditions| - i
  {
    if i < |flag.conditions| {
      var next := TreesSplit(w, rk, n, flag, i, ctx, groups, m);
      TreeIncludes(w, rk, n, flag, flag.conditions[i], ctx, groups, m);
      TreesInclude(w, rk, n, flag, i + 1, ctx, groups, next);
      IncludedJoins(w, flag, i, ctx, groups, TreeOfCondition(w, rk, n, flag, flag.conditions[i], ctx, groups, m),
                    FlagTrees(w, rk, n, flag, i + 1, ctx, groups, next));
    }
  }

  lemma IncludedShutsNoneOut(
      w: World, flag: Flag, ctx: Ctx, groups: Groups, trees: seq<ConditionTree>, k: nat)
    requires IncludedFrom(w, flag, 0, ctx, groups, trees) && k < |trees|
    requires forall i :: 0 <= i < |flag.conditions| - 1 ==> RolloutIncludes(w, flag, flag.conditions[i], ctx, groups)
    ensures NoneShutsOut(trees, k)
  {
    forall i | 0 <= i < k ensures trees[i].included {
      assert RolloutIncludes(w, flag, flag.conditions[i], ctx, groups) && trees[i - 0] == trees[i];
    }
  }

  /**
   * So early exit does no harm to an identity that the rollouts of all
   * conditions but the last include, as those without a rollout do.
   */
  lemma IncludedIsSound(
      w: World, rk: Ranks, n: nat, flag: Flag, ctx: Ctx, groups: Groups, m: Memo, choice: Choice)
    requires WellRanked(w, rk) && FlagBelow(w, rk, flag, n) && flag.earlyExit
    requires HoldoutVariant(w.digest, flag, ctx.distinctId, ctx.deviceId).NotHeld?
    requires forall i :: 0 <= i < |flag.conditions| - 1 ==> RolloutIncludes(w, flag, flag.conditions[i], ctx, groups)
    ensures var r := MatchFlag(w, rk, n, flag, ctx, groups, m).0;
            r.Value? && Enabled(r.value) ==>
              Enabled(FlagTruth(true, FlagTrees(w, rk, n, flag, 0, ctx, groups, m), choice))
  {
    var r := MatchFlag(w, rk, n, flag, ctx, groups, m).0;
    if r.Value? && Enabled(r.value) {
      var k := SomeMatch(w, rk, n, flag, ctx, groups, m);
      var trees := FlagTrees(w, rk, n, flag, 0, ctx, groups, m);
      TreesInclude(w, rk, n, flag, 0, ctx, groups, m);
      IncludedShutsNoneOut(w, flag, ctx, groups, trees, k);
      EarlyExitAnswerIff(w, rk, n, flag, ctx, groups, m, k);
    }
  }

  lemma SomeMatch(w: World, rk: Ranks, n: nat, flag: Flag, ctx: Ctx, groups: Groups, m: Memo) returns (k: nat)
    requires WellRanked(w, rk) && FlagBelow(w, rk, flag, n) && flag.earlyExit
    requires HoldoutVariant(w.digest, flag, ctx.distinctId, ctx.deviceId).NotHeld?
    requires var r := MatchFlag(w, rk, n, flag, ctx, groups, m).0; r.Value? && Enabled(r.value)
    ensures FirstMatch(JudgeAll(FlagTrees(w, rk, n, flag, 0, ctx, groups, m)), k)
  {
    var js := JudgeAll(FlagTrees(w, rk, n, flag, 0, ctx, groups, m));
    ConditionsFold(w, rk, n, flag, 0, ctx, groups, None, m);
    MetBefore(DefinitionReason(w.scope, flag), js, None);
    k :| FirstMatch(js, k);
  }

  // A flag with early exit: half of those with a plan set, then everyone.

  const PLAN_SET := Filter("plan", "is_set", Null, "person", false, None)
  const WITH_PLAN := Condition([PLAN_SET], Some(50.0), None, None)
  const EVERYONE := Condition([], None, None, None)
  const EXIT_FLAG := Flag("f", true, false, None, [WITH_PLAN, EVERYONE], true, [], None, false)
  const NO_DEFINITIONS := Definitions(map[], map[], map[], 1)
  const UNRANKED := Ranks(_ => 0, _ => 0)

  function AskedBy(id: string, props: Properties): Call {
    Call(id, None, props, NO_GROUPS)
  }

  lemma ExitIsRanked(w: World)
    requires w.scope.defs == NO_DEFINITIONS
    ensures WellRanked(w, UNRANKED) && FlagBelow(w, UNRANKED, EXIT_FLAG, 0)
  {
  }

  lemma PlanProperty(o: Oracle, props: Properties)
    ensures MatchProperty(o, PLAN_SET, props, 1) == if "plan" in props then Decided(true) else MISSING
  {
  }

  lemma PlanIs(w: World, ctx: Ctx, m: Memo)
    requires w.scope.defs == NO_DEFINITIONS && WellRanked(w, UNRANKED) && FilterBelow(w, UNRANKED, PLAN_SET, 0)
    ensures MatchFilter(w, UNRANKED, 0, PLAN_SET, ctx, None, m)
         == (if "plan" in ctx.props then Decided(true) else MISSING, m)
  {
    PlanProperty(w.scope.oracle, ctx.props);
  }

  lemma WithPlanIs(w: World, ctx: Ctx, m: Memo)
    requires w.scope.defs == NO_DEFINITIONS && WellRanked(w, UNRANKED) && FiltersBelow(w, UNRANKED, WITH_PLAN.filters, 0)
    requires !InRollout(w.digest, "f", ctx.distinctId, 50.0)
    ensures MatchCondition(w, UNRANKED, 0, EXIT_FLAG, WITH_PLAN, ctx, NO_GROUPS, m).0.result
         == if "plan" in ctx.props then OutOfRollout else Failed(MISSING)
  {
    PlanIs(w, ctx, m);
    assert WITH_PLAN.filters[0] == PLAN_SET && WITH_PLAN.filters[1..] == [];
    var t := if "plan" in ctx.props then NO_TALLY else Tally(Some(MissingContext), None);
    assert MatchFilters(w, UNRANKED, 0, [], ctx, None, t, m).0 == CloseFilters(t);
  }

  lemma EveryoneIs(w: World, ctx: Ctx, m: Memo)
    requires w.scope.defs == NO_DEFINITIONS && WellRanked(w, UNRANKED) && FiltersBelow(w, UNRANKED, EVERYONE.filters, 0)
    ensures MatchCondition(w, UNRANKED, 0, EXIT_FLAG, EVERYONE, ctx, NO_GROUPS, m).0 == Judged(Match, Boolean(true))
  {
  }

  lemma ExitFlagIs(w: World, ctx: Ctx, m: Memo)
    requires w.scope.defs == NO_DEFINITIONS && WellRanked(w, UNRANKED) && FlagBelow(w, UNRANKED, EXIT_FLAG, 0)
    requires !InRollout(w.digest, "f", ctx.distinctId, 50.0)
    ensures MatchFlag(w, UNRANKED, 0, EXIT_FLAG, ctx, NO_GROUPS, m).0 == Value(Boolean("plan" !in ctx.props))
  {
    WithPlanIs(w, ctx, m);
    ConditionsStep(w, UNRANKED, 0, EXIT_FLAG, 0, ctx, NO_GROUPS, None, m);
    if "plan" !in ctx.props {
      ThenEveryone(w, ctx, MatchCondition(w, UNRANKED, 0, EXIT_FLAG, WITH_PLAN, ctx, NO_GROUPS, m).1);
    }
  }

  lemma ThenEveryone(w: World, ctx: Ctx, m: Memo)
    requires w.scope.defs == NO_DEFINITIONS && WellRanked(w, UNRANKED) && FlagBelow(w, UNRANKED, EXIT_FLAG, 0)
    ensures MatchConditions(w, UNRANKED, 0, EXIT_FLAG, 1, ctx, NO_GROUPS, Some(MissingContext), m).0
         == Value(Boolean(true))
  {
    EveryoneIs(w, ctx, m);
    ConditionsStep(w, UNRANKED, 0, EXIT_FLAG, 1, ctx, NO_GROUPS, Some(MissingContext), m);
  }

  /**
   * For an identity outside the half, the flag is enabled while the plan is not
   * known and disabled once it is.
   */
  lemma EarlyExitUnsoundExample(w: World, id: string, plan: Value)
    requires w.scope.defs == NO_DEFINITIONS && !InRollout(w.digest, "f", id, 50.0)
    ensures WellRanked(w, UNRANKED) && FlagBelow(w, UNRANKED, EXIT_FLAG, 0)
    ensures ComputeFlagLocally(w, UNRANKED, 0, EXIT_FLAG, AskedBy(id, map[])).0 == Value(Boolean(true))
    ensures ComputeFlagLocally(w, UNRANKED, 0, EXIT_FLAG, AskedBy(id, map["plan" := plan])).0 == Value(Boolean(false))
  {
    ExitIsRanked(w);
    var start := Memo(map[], []);
    ExitFlagIs(w, SubjectOf(w, EXIT_FLAG, AskedBy(id, map[])).ctx, start);
    ExitFlagIs(w, SubjectOf(w, EXIT_FLAG, AskedBy(id, map["plan" := plan])).ctx, start);
  }
}
