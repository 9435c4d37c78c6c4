// The local evaluator and the logic of its answers. A flag is unrolled into the
// trees of its conditions, with cohorts expanded and flag dependencies as
// leaves; the evaluator's answer is the folding of those trees, so what is
// proved of the folding holds of the evaluator.

module Unrolling {

  import opened Wrappers
  import opened Reasons
  import opened Folding
  import opened FlagFolding
  import opened Filters
  import opened Definitions
  import opened CohortScan
  import opened Bucketing
  import opened Evaluator

  // ------------------------------------------------------------ what the evaluator would meet

  /** A filter as a tree: a leaf, or the cohort it names. */
  function FilterTree(
      w: World, ghost rk: Ranks, ghost n: nat, f: Filter, ctx: Ctx, aggregation: Option<nat>, m: Memo): Tree
    requires WellRanked(w, rk) && FilterBelow(w, rk, f, n)
    decreases n, 3
  {
    if NamesCohort(w.scope, f)
    then GroupTree(w, rk, rk.cohorts(CohortId(w.scope, f)), w.Cohorts()[CohortId(w.scope, f)], ctx, aggregation, m)
    else Leaf(MatchFilter(w, rk, n, f, ctx, aggregation, m).0)
  }

  function EntryTree(
      w: World, ghost rk: Ranks, ghost n: nat, kind: string, e: Entry, ctx: Ctx, aggregation: Option<nat>, m: Memo)
    : Tree
    requires WellRanked(w, rk) && EntryBelow(w, rk, e, n)
    decreases n, 4, e
  {
    match e
    case Junk => Leaf(Decided(kind == "AND"))
    case Nested(g) => GroupTree(w, rk, n, g, ctx, aggregation, m)
    case Single(f) => FilterTree(w, rk, n, f, ctx, aggregation, m)
  }

  function GroupTree(
      w: World, ghost rk: Ranks, ghost n: nat, g: Group, ctx: Ctx, aggregation: Option<nat>, m: Memo): Tree
    requires WellRanked(w, rk) && GroupBelow(w, rk, g, n)
    decreases n, 4, g
  {
    Node(|g.entries| == 0, g.kind, GroupKids(w, rk, n, g, 0, ctx, aggregation, m))
  }

  /** Every entry in order, those past the one that decides the group included. */
  function GroupKids(
      w: World, ghost rk: Ranks, ghost n: nat, g: Group, i: nat, ctx: Ctx, aggregation: Option<nat>, m: Memo)
    : (kids: seq<Kid>)
    requires WellRanked(w, rk) && GroupBelow(w, rk, g, n) && i <= |g.entries|
    ensures |kids| == |g.entries| - i
    decreases n, 4, g, |g.entries| - i
  {
    if i == |g.entries| then [] else
      var next := MatchEntry(w, rk, n, g.kind, g.entries[i], ctx, aggregation, m).1;
      [Kid(Negated(g.entries[i]), EntryTree(w, rk, n, g.kind, g.entries[i], ctx, aggregation, m))]
      + GroupKids(w, rk, n, g, i + 1, ctx, aggregation, next)
  }

  function FilterTrees(
      w: World, ghost rk: Ranks, ghost n: nat, fs: seq<Filter>, ctx: Ctx, aggregation: Option<nat>, m: Memo)
    : (trees: seq<Tree>)
    requires WellRanked(w, rk) && FiltersBelow(w, rk, fs, n)
    ensures |trees| == |fs|
    decreases |fs|
  {
    if |fs| == 0 then [] else
      var next := MatchFilter(w, rk, n, fs[0], ctx, aggregation, m).1;
      [FilterTree(w, rk, n, fs[0], ctx, aggregation, m)] + FilterTrees(w, rk, n, fs[1..], ctx, aggregation, next)
  }

  /** Does the condition's rollout include the identity it is, or would be, evaluated for? */
  predicate RolloutIncludes(w: World, flag: Flag, c: Condition, ctx: Ctx, groups: Groups) {
    match PlaceOf(w, flag, c, ctx, groups)
    case Skipped => true
    case Unknown =>
      (match GroupKey(w, UnknownKey(w, flag, c, ctx, groups)) case Some(id) => Included(w, flag, c, id) case None => true)
    case At(id, _) => Included(w, flag, c, id)
  }

  /** The key of a group whose properties were not passed. */
  function UnknownKey(w: World, flag: Flag, c: Condition, ctx: Ctx, groups: Groups): Value
    requires PlaceOf(w, flag, c, ctx, groups).Unknown?
  {
    groups.keys[w.scope.defs.groupTypes[EffectiveAggregation(flag, c).value]]
  }

  /**
   * A condition as trees. One whose group's properties were not passed counts as
   * unresolved, unless its group key is no text or number: it could not match then.
   */
  function TreeOfCondition(
      w: World, ghost rk: Ranks, ghost n: nat, flag: Flag, c: Condition, ctx: Ctx, groups: Groups, m: Memo)
    : ConditionTree
    requires WellRanked(w, rk) && FiltersBelow(w, rk, c.filters, n)
  {
    match PlaceOf(w, flag, c, ctx, groups)
    case Skipped => ConditionTree(true, false, [], true, Boolean(true))
    case Unknown =>
      var matchable := GroupKey(w, UnknownKey(w, flag, c, ctx, groups)).Some?;
      ConditionTree(false, true, [Leaf(Decided(matchable))], RolloutIncludes(w, flag, c, ctx, groups), Boolean(true))
    case At(id, props) =>
      var a := EffectiveAggregation(flag, c);
      ConditionTree(false, false, FilterTrees(w, rk, n, c.filters, DependencyContext(a, ctx, id, props), a, m),
                    Included(w, flag, c, id), ConditionValue(w, flag, c, id))
  }

  /** The conditions of a flag from condition i on. */
  function FlagTrees(
      w: World, ghost rk: Ranks, ghost n: nat, flag: Flag, i: nat, ctx: Ctx, groups: Groups, m: Memo)
    : (trees: seq<ConditionTree>)
    requires WellRanked(w, rk) && FlagBelow(w, rk, flag, n) && i <= |flag.conditions|
    ensures |trees| == |flag.conditions| - i
    decreases |flag.conditions| - i
  {
    if i == |flag.conditions| then [] else
      var next := MatchCondition(w, rk, n, flag, flag.conditions[i], ctx, groups, m).1;
      [TreeOfCondition(w, rk, n, flag, flag.conditions[i], ctx, groups, m)]
      + FlagTrees(w, rk, n, flag, i + 1, ctx, groups, next)
  }

  // ------------------------------------------------------------ the evaluator folds the trees

  lemma VerdictsSplit(t: Tree, ts: seq<Tree>)
    ensures Verdicts([t] + ts)[0] == Verdict(t) && Verdicts([t] + ts)[1..] == Verdicts(ts)
  {
  }

  lemma JudgeSplit(c: ConditionTree, cs: seq<ConditionTree>)
    ensures JudgeAll([c] + cs)[0] == Judge(c) && JudgeAll([c] + cs)[1..] == JudgeAll(cs)
  {
  }

  lemma {:induction false} FilterFolds(
      w: World, rk: Ranks, n: nat, f: Filter, ctx: Ctx, aggregation: Option<nat>, m: Memo)
    requires WellRanked(w, rk) && FilterBelow(w, rk, f, n)
    ensures Verdict(FilterTree(w, rk, n, f, ctx, aggregation, m)) == MatchFilter(w, rk, n, f, ctx, aggregation, m).0
    decreases n, 3
  {
    if NamesCohort(w.scope, f) {
      GroupFolds(w, rk, rk.cohorts(CohortId(w.scope, f)), w.Cohorts()[CohortId(w.scope, f)], ctx, aggregation, m);
    }
  }

  lemma {:induction false} EntryFolds(
      w: World, rk: Ranks, n: nat, kind: string, e: Entry, ctx: Ctx, aggregation: Option<nat>, m: Memo)
    requires WellRanked(w, rk) && EntryBelow(w, rk, e, n)
    ensures Verdict(EntryTree(w, rk, n, kind, e, ctx, aggregation, m))
         == MatchEntry(w, rk, n, kind, e, ctx, aggregation, m).0
    decreases n, 4, e
  {
    match e
    case Junk =>
    case Nested(g) => GroupFolds(w, rk, n, g, ctx, aggregation, m);
    case Single(f) => FilterFolds(w, rk, n, f, ctx, aggregation, m);
  }

  /** What evaluation makes of a cohort group is the verdict on its tree. */
  lemma {:induction false} GroupFolds(
      w: World, rk: Ranks, n: nat, g: Group, ctx: Ctx, aggregation: Option<nat>, m: Memo)
    requires WellRanked(w, rk) && GroupBelow(w, rk, g, n)
    ensures Verdict(GroupTree(w, rk, n, g, ctx, aggregation, m)) == MatchGroup(w, rk, n, g, ctx, aggregation, m).0
    decreases n, 4, g
  {
    var t := GroupTree(w, rk, n, g, ctx, aggregation, m);
    if |g.entries| > 0 {
      assert t.kids[0..] == t.kids;
      EntriesFold(w, rk, n, g, 0, ctx, aggregation, None, m, t);
    }
  }

  lemma {:induction false} EntriesFold(
      w: World, rk: Ranks, n: nat, g: Group, i: nat, ctx: Ctx, aggregation: Option<nat>, reason: Option<Reason>,
      m: Memo, t: Tree)
    requires WellRanked(w, rk) && GroupBelow(w, rk, g, n) && i <= |g.entries|
    requires t.Node? && t.kind == g.kind && |t.kids| == |g.entries|
    requires t.kids[i..] == GroupKids(w, rk, n, g, i, ctx, aggregation, m)
    ensures FoldKids(t, i, reason) == MatchEntries(w, rk, n, g, i, ctx, aggregation, reason, m).0
    decreases n, 4, g, |g.entries| - i
  {
    if i < |g.entries| {
      var r := MatchEntry(w, rk, n, g.kind, g.entries[i], ctx, aggregation, m);
      var kids := GroupKids(w, rk, n, g, i, ctx, aggregation, m);
      assert t.kids[i] == t.kids[i..][0] == kids[0];
      assert t.kids[i + 1..] == t.kids[i..][1..] == kids[1..];
      assert kids[1..] == GroupKids(w, rk, n, g, i + 1, ctx, aggregation, r.1);
      EntryFolds(w, rk, n, g.kind, g.entries[i], ctx, aggregation, m);
      match AddEntry(g.kind, Negated(g.entries[i]), r.0, reason)
      case Halt(_) =>
      case Next(next) => EntriesFold(w, rk, n, g, i + 1, ctx, aggregation, next, r.1, t);
    }
  }

  lemma {:induction false} FiltersFold(
      w: World, rk: Ranks, n: nat, fs: seq<Filter>, ctx: Ctx, aggregation: Option<nat>, t: Tally, m: Memo)
    requires WellRanked(w, rk) && FiltersBelow(w, rk, fs, n)
    ensures FoldFilters(Verdicts(FilterTrees(w, rk, n, fs, ctx, aggregation, m)), t)
         == MatchFilters(w, rk, n, fs, ctx, aggregation, t, m).0
    decreases |fs|
  {
    if |fs| > 0 {
      var r := MatchFilter(w, rk, n, fs[0], ctx, aggregation, m);
      VerdictsSplit(FilterTree(w, rk, n, fs[0], ctx, aggregation, m), FilterTrees(w, rk, n, fs[1..], ctx, aggregation, r.1));
      FilterFolds(w, rk, n, fs[0], ctx, aggregation, m);
      match AddFilter(t, r.0)
      case Stop(_) =>
      case Go(next) => FiltersFold(w, rk, n, fs[1..], ctx, aggregation, next, r.1);
    }
  }

  lemma ConditionFolds(
      w: World, rk: Ranks, n: nat, flag: Flag, c: Condition, ctx: Ctx, groups: Groups, m: Memo)
    requires WellRanked(w, rk) && FiltersBelow(w, rk, c.filters, n)
    ensures Judge(TreeOfCondition(w, rk, n, flag, c, ctx, groups, m)) == MatchCondition(w, rk, n, flag, c, ctx, groups, m).0
  {
    match PlaceOf(w, flag, c, ctx, groups)
    case At(id, props) =>
      var a := EffectiveAggregation(flag, c);
      FiltersFold(w, rk, n, c.filters, DependencyContext(a, ctx, id, props), a, NO_TALLY, m);
    case _ =>
  }

  lemma {:induction false} ConditionsFold(
      w: World, rk: Ranks, n: nat, flag: Flag, i: nat, ctx: Ctx, groups: Groups, reason: Option<Reason>, m: Memo)
    requires WellRanked(w, rk) && FlagBelow(w, rk, flag, n) && i <= |flag.conditions|
    ensures FoldConditions(flag.earlyExit, DefinitionReason(w.scope, flag), JudgeAll(FlagTrees(w, rk, n, flag, i, ctx, groups, m)), reason)
         == MatchConditions(w, rk, n, flag, i, ctx, groups, reason, m).0
    decreases |flag.conditions| - i
  {
    if i < |flag.conditions| {
      var j := MatchCondition(w, rk, n, flag, flag.conditions[i], ctx, groups, m);
      JudgeSplit(TreeOfCondition(w, rk, n, flag, flag.conditions[i], ctx, groups, m),
                 FlagTrees(w, rk, n, flag, i + 1, ctx, groups, j.1));
      ConditionFolds(w, rk, n, flag, flag.conditions[i], ctx, groups, m);
      match AddCondition(flag.earlyExit, DefinitionReason(w.scope, flag), j.0, reason)
      case Return(_) =>
      case Continue(next) => ConditionsFold(w, rk, n, flag, i + 1, ctx, groups, next, j.1);
    }
  }

  // ------------------------------------------------------------ conclusive answers are sound

  /** A conclusive cohort or group answer is what any truth values for its unresolved leaves would give. */
  lemma GroupAnswerIsSound(
      w: World, rk: Ranks, n: nat, g: Group, ctx: Ctx, aggregation: Option<nat>, m: Memo, choice: Choice)
    requires WellRanked(w, rk) && GroupBelow(w, rk, g, n)
    ensures var r := MatchGroup(w, rk, n, g, ctx, aggregation, m).0;
            r.Decided? ==> r.matched == Truth(GroupTree(w, rk, n, g, ctx, aggregation, m), [], choice)
  {
    GroupFolds(w, rk, n, g, ctx, aggregation, m);
    ConclusiveIsSound(GroupTree(w, rk, n, g, ctx, aggregation, m), [], choice);
  }

  /** A conclusive condition result is what any truth values for its unresolved leaves would give. */
  lemma ConditionAnswerIsSound(
      w: World, rk: Ranks, n: nat, flag: Flag, c: Condition, ctx: Ctx, groups: Groups, m: Memo, choice: Choice)
    requires WellRanked(w, rk) && FiltersBelow(w, rk, c.filters, n)
    ensures var r := MatchCondition(w, rk, n, flag, c, ctx, groups, m).0.result;
            !r.Failed? ==> r == Resolve(TreeOfCondition(w, rk, n, flag, c, ctx, groups, m), [], choice).result
  {
    ConditionFolds(w, rk, n, flag, c, ctx, groups, m);
    ConditionIsSound(TreeOfCondition(w, rk, n, flag, c, ctx, groups, m), [], choice);
  }

  lemma {:induction false} TreesEnable(
      w: World, rk: Ranks, n: nat, flag: Flag, i: nat, ctx: Ctx, groups: Groups, m: Memo)
    requires WellRanked(w, rk) && FlagBelow(w, rk, flag, n) && i <= |flag.conditions|
    ensures forall k :: 0 <= k < |flag.conditions| - i ==> Enabled(FlagTrees(w, rk, n, flag, i, ctx, groups, m)[k].value)
    decreases |flag.conditions| - i
  {
    if i < |flag.conditions| {
      var next := MatchCondition(w, rk, n, flag, flag.conditions[i], ctx, groups, m).1;
      TreesEnable(w, rk, n, flag, i + 1, ctx, groups, next);
      forall id ensures Enabled(ConditionValue(w, flag, flag.conditions[i], id)) {
        CoveringEnables(Bands(flag.variants, 0.0), FlagHash(w.digest, flag.key, id, "variant"));
      }
    }
  }

  lemma {:induction false} CoveringEnables(table: seq<Band>, hash: real)
    ensures Enabled(FirstCovering(table, hash))
  {
    if |table| > 0 {
      CoveringEnables(table[1..], hash);
    }
  }

  /**
   * A conclusive answer for a flag is sound: whatever truth values its
   * unresolved leaves were to take, a flag found disabled is disabled, and one
   * found enabled is enabled, early exit being off. A held-out identity has its
   * value without any condition.
   */
  lemma FlagAnswerIsSound(
      w: World, rk: Ranks, n: nat, flag: Flag, ctx: Ctx, groups: Groups, m: Memo, choice: Choice)
    requires WellRanked(w, rk) && FlagBelow(w, rk, flag, n)
    ensures var r := MatchFlag(w, rk, n, flag, ctx, groups, m).0;
            var truth := FlagTruth(flag.earlyExit, FlagTrees(w, rk, n, flag, 0, ctx, groups, m), choice);
            HoldoutVariant(w.digest, flag, ctx.distinctId, ctx.deviceId).NotHeld? ==>
              && (r == Value(Boolean(false)) ==> truth == Boolean(false))
              && (r.Value? && Enabled(r.value) && !flag.earlyExit ==> Enabled(truth))
  {
    var trees := FlagTrees(w, rk, n, flag, 0, ctx, groups, m);
    TreesEnable(w, rk, n, flag, 0, ctx, groups, m);
    ConditionsFold(w, rk, n, flag, 0, ctx, groups, None, m);
    FlagIsSound(flag.earlyExit, DefinitionReason(w.scope, flag), trees, choice);
  }
}
