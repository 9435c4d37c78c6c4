// Why local evaluation could not resolve a flag, and how several causes are
// reported as one.

module Reasons {

  import opened Wrappers

  datatype Reason = ExperienceContinuity | UnsupportedDefinition | UnresolvedDependency | MissingContext

  /** The spec's order of precedence: the smallest rank is reported. */
  const UNRESOLVED_REASONS: seq<Reason> :=
    [ExperienceContinuity, UnsupportedDefinition, UnresolvedDependency, MissingContext]

  function RankFrom(reason: Reason, i: nat): nat
    requires i <= |UNRESOLVED_REASONS|
    decreases |UNRESOLVED_REASONS| - i
  {
    if i == |UNRESOLVED_REASONS| || UNRESOLVED_REASONS[i] == reason then i else RankFrom(reason, i + 1)
  }

  /** The place of a reason in the order; no reason ranks after all of them. */
  function Rank(reason: Option<Reason>): nat {
    match reason
    case None => |UNRESOLVED_REASONS|
    case Some(r) => RankFrom(r, 0)
  }

  /** pickUnresolvedReason: an absent next reason counts as an unsupported definition. */
  function Pick(current: Option<Reason>, next: Option<Reason>): Reason {
    var named := next.GetOr(UnsupportedDefinition);
    if current.None? || Rank(Some(named)) < Rank(current) then named else current.value
  }

  /** What a filter, a group or a cohort comes to. */
  datatype Outcome =
    | Decided(matched: bool)
    | Inconclusive(reason: Option<Reason>)
    | ServerRequired(reason: Option<Reason>)
    | Broken                                   // any other error

  lemma RanksAreDistinct(a: Reason, b: Reason)
    ensures Rank(Some(a)) == Rank(Some(b)) ==> a == b
    ensures Rank(Some(a)) < |UNRESOLVED_REASONS|
    ensures Rank(Some(ExperienceContinuity)) == 0 && Rank(Some(UnsupportedDefinition)) == 1
    ensures Rank(Some(UnresolvedDependency)) == 2 && Rank(Some(MissingContext)) == 3
  {
  }

  /** Pick is the minimum in the order of precedence. */
  lemma PickIsMinimum(a: Option<Reason>, b: Reason)
    ensures Pick(a, Some(b)) == b || Some(Pick(a, Some(b))) == a
    ensures Rank(Some(Pick(a, Some(b)))) <= Rank(Some(b))
    ensures Rank(Some(Pick(a, Some(b)))) <= Rank(a)
  {
  }

  lemma PickCommutes(a: Reason, b: Reason)
    ensures Pick(Some(a), Some(b)) == Pick(Some(b), Some(a))
  {
  }

  lemma PickAssociates(a: Option<Reason>, b: Reason, c: Reason)
    ensures Pick(Some(Pick(a, Some(b))), Some(c)) == Pick(a, Some(Pick(Some(b), Some(c))))
  {
  }

  lemma PickIdempotent(a: Reason)
    ensures Pick(Some(a), Some(a)) == a
  {
  }
}
