// Flag definitions as they are held after loading: flags, cohorts, and the
// property groups cohorts are made of.

module Definitions {

  import opened Wrappers
  import opened Reasons
  import opened Filters

  /** An entry that is not an object is dropped when a group is parsed. */
  datatype Entry = Junk | Nested(group: Group) | Single(filter: Filter)

  datatype Group = Group(kind: string, entries: seq<Entry>)

  datatype Condition = Condition(
    filters: seq<Filter>, rollout: Option<real>, variant: Option<string>, aggregation: Option<nat>)

  /** `id` is the rendered holdout id, when it can be rendered. */
  datatype Holdout = Holdout(id: Option<string>, percentage: Option<real>)

  datatype Flag = Flag(
    key: string, active: bool, continuity: bool, aggregation: Option<nat>, conditions: seq<Condition>,
    earlyExit: bool, variants: seq<(string, real)>, holdout: Option<Holdout>, deviceBucketed: bool)

  datatype Definitions = Definitions(
    flags: map<string, Flag>, cohorts: map<string, Group>, groupTypes: map<nat, string>, version: int)

  /** Every property filter and reference of a group, through nested groups, in order. */
  function FiltersIn(es: seq<Entry>): seq<Filter>
    decreases es
  {
    if |es| == 0 then [] else FiltersOf(es[0]) + FiltersIn(es[1..])
  }

  function FiltersOf(e: Entry): seq<Filter>
    decreases e
  {
    match e
    case Junk => []
    case Single(f) => [f]
    case Nested(g) => FiltersIn(g.entries)
  }

  /** The aggregation a condition is evaluated under. */
  function EffectiveAggregation(flag: Flag, c: Condition): Option<nat> {
    if c.aggregation.Some? then c.aggregation else flag.aggregation
  }

  /** Does the flag need an aggregation other than this one? */
  predicate NeedsOther(flag: Flag, aggregation: Option<nat>) {
    || flag.aggregation != aggregation
    || exists i :: 0 <= i < |flag.conditions|
         && flag.conditions[i].aggregation.Some? && flag.conditions[i].aggregation != aggregation
  }

  /** dependencyChainDefinitionError: the first problem in the chain. */
  function ChainError(chain: seq<string>, flags: map<string, Flag>, aggregation: Option<nat>): Option<Outcome> {
    if |chain| == 0 then None
    else if chain[0] !in flags then Some(UNSUPPORTED)
    else if flags[chain[0]].active && NeedsOther(flags[chain[0]], aggregation)
    then Some(ServerRequired(Some(UnsupportedDefinition)))
    else ChainError(chain[1..], flags, aggregation)
  }

  /** flagDependencyDefinitionError */
  function DependencyError(f: Filter, flags: map<string, Flag>, aggregation: Option<nat>): Option<Outcome> {
    if f.value.Null? || f.operator != "flag_evaluates_to" || f.chain.None? || |f.chain.value| == 0
    then Some(UNSUPPORTED)
    else ChainError(f.chain.value, flags, aggregation)
  }

  lemma {:induction false} ChainErrorMeans(chain: seq<string>, flags: map<string, Flag>, aggregation: Option<nat>)
    ensures ChainError(chain, flags, aggregation).None? <==>
              forall i :: 0 <= i < |chain| ==>
                chain[i] in flags && (flags[chain[i]].active ==> !NeedsOther(flags[chain[i]], aggregation))
    ensures ChainError(chain, flags, aggregation) in
              {None, Some(UNSUPPORTED), Some(ServerRequired(Some(UnsupportedDefinition)))}
  {
    if |chain| > 0 {
      ChainErrorMeans(chain[1..], flags, aggregation);
      assert forall i :: 0 < i < |chain| ==> chain[i] == chain[1..][i - 1];
    }
  }
}
