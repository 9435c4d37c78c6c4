// How the outcomes of filters and nested groups are combined: the loop over a
// condition's filters, and the loop over a cohort group's entries. Both read
// three-valued outcomes; what they conclude is compared with ordinary logic.

module Folding {

  import opened Wrappers
  import opened Reasons

  function ReasonOf(o: Outcome): Option<Reason> {
    match o
    case Inconclusive(r) => r
    case ServerRequired(r) => r
    case _ => None
  }

  /** The reason an unresolved outcome is reported with. */
  function Named(o: Outcome): Reason {
    ReasonOf(o).GetOr(UnsupportedDefinition)
  }

  predicate Unchecked(o: Outcome) {
    o.Inconclusive? || o.ServerRequired?
  }

  /** withReason on a server-required error. */
  function Escalated(o: Outcome, reason: Option<Reason>): Outcome {
    match o
    case ServerRequired(own) => ServerRequired(Some(Pick(reason, own)))
    case _ => o
  }

  // ------------------------------------------------------------ the filters of a condition

  /** What the loop over a condition's filters remembers. */
  datatype Tally = Tally(reason: Option<Reason>, server: Option<Outcome>)

  const NO_TALLY := Tally(None, None)

  datatype FilterResult = AllMatch | NoMatch | Unresolved(error: Outcome)

  datatype FilterStep = Stop(result: FilterResult) | Go(tally: Tally)

  function AddFilter(t: Tally, o: Outcome): FilterStep {
    match o
    case Decided(matched) => if matched then Go(t) else Stop(NoMatch)
    case ServerRequired(r) =>
      Go(Tally(Some(Pick(t.reason, r)), if t.reason.None? then Some(o) else t.server))
    case Inconclusive(r) => Go(Tally(Some(Pick(t.reason, r)), t.server))
    case Broken => if t.reason.Some? then Go(t) else Stop(Unresolved(Broken))
  }

  function CloseFilters(t: Tally): FilterResult {
    if t.server.Some? then Unresolved(Escalated(t.server.value, t.reason))
    else if t.reason.Some? then Unresolved(Inconclusive(t.reason))
    else AllMatch
  }

  function FoldFilters(os: seq<Outcome>, t: Tally): FilterResult {
    if |os| == 0 then CloseFilters(t) else
      match AddFilter(t, os[0])
      case Stop(r) => r
      case Go(next) => FoldFilters(os[1..], next)
  }

  /** The reason r is the first in precedence among the tally's and those of the unchecked outcomes. */
  ghost predicate Foremost(os: seq<Outcome>, t: Tally, r: Reason) {
    && (t.reason == Some(r) || exists i :: 0 <= i < |os| && Unchecked(os[i]) && Named(os[i]) == r)
    && Rank(Some(r)) <= Rank(t.reason)
    && (forall i :: 0 <= i < |os| && Unchecked(os[i]) ==> Rank(Some(r)) <= Rank(Some(Named(os[i]))))
  }

  predicate TallyOk(t: Tally) {
    t.server.Some? ==>
      && t.server.value.ServerRequired? && t.reason.Some?
      && Rank(t.reason) <= Rank(Some(Named(t.server.value)))
  }

  /**
   * Without an unclassified error, the loop answers: no match if some filter is
   * decided false; otherwise unresolved, for the foremost reason, if some filter
   * is unchecked; otherwise match.
   */
  lemma {:induction false} FiltersMean(os: seq<Outcome>, t: Tally)
    requires TallyOk(t) && forall i :: 0 <= i < |os| ==> !os[i].Broken?
    ensures FoldFilters(os, t) == NoMatch <==> Decided(false) in os
    ensures FoldFilters(os, t) == AllMatch <==>
              t.reason.None? && forall i :: 0 <= i < |os| ==> os[i] == Decided(true)
    ensures FoldFilters(os, t).Unresolved? ==>
              && Unchecked(FoldFilters(os, t).error) && ReasonOf(FoldFilters(os, t).error).Some?
              && Foremost(os, t, ReasonOf(FoldFilters(os, t).error).value)
  {
    if |os| == 0 {
      if t.server.Some? {
        PickIsMinimum(t.reason, Named(t.server.value));
        RanksAreDistinct(Pick(t.reason, ReasonOf(t.server.value)), t.reason.value);
      }
    } else {
      match AddFilter(t, os[0])
      case Stop(r) =>
      case Go(next) =>
        if Unchecked(os[0]) {
          PickIsMinimum(t.reason, Named(os[0]));
        }
        FiltersMean(os[1..], next);
        if FoldFilters(os, t).Unresolved? {
          ForemostExtends(os, t, next, ReasonOf(FoldFilters(os, t).error).value);
        }
    }
  }

  lemma ForemostExtends(os: seq<Outcome>, t: Tally, next: Tally, r: Reason)
    requires |os| > 0 && AddFilter(t, os[0]) == Go(next) && !os[0].Broken? && Foremost(os[1..], next, r)
    ensures Foremost(os, t, r)
  {
  }

  /** A conclusive answer needs the right decided filters, whatever the others came to. */
  lemma {:induction false} FiltersConclude(os: seq<Outcome>, t: Tally)
    ensures FoldFilters(os, t) == NoMatch ==> Decided(false) in os
    ensures FoldFilters(os, t) == AllMatch ==>
              t.reason.None? && forall i :: 0 <= i < |os| ==> os[i] == Decided(true)
  {
    if |os| > 0 {
      match AddFilter(t, os[0])
      case Stop(r) =>
      case Go(next) => FiltersConclude(os[1..], next);
    }
  }

  /** Decided match, decided no match, or undecided for a reason. */
  datatype Reported = DecidedMatch | DecidedNoMatch | Undecided(reason: Option<Reason>)

  function Report(r: FilterResult): Reported {
    match r
    case AllMatch => DecidedMatch
    case NoMatch => DecidedNoMatch
    case Unresolved(e) => Undecided(ReasonOf(e))
  }

  /** Reordering the filters of a condition changes neither the outcome nor the reported reason. */
  lemma FilterOrderIsIrrelevant(a: seq<Outcome>, b: seq<Outcome>)
    requires multiset(a) == multiset(b) && Broken !in a
    ensures Report(FoldFilters(a, NO_TALLY)) == Report(FoldFilters(b, NO_TALLY))
  {
    SameElements(a, b);
    SameElements(b, a);
    FiltersMean(a, NO_TALLY);
    FiltersMean(b, NO_TALLY);
    var ra, rb := FoldFilters(a, NO_TALLY), FoldFilters(b, NO_TALLY);
    if ra == AllMatch {
      AllTrueCarries(a, b);
    }
    if rb == AllMatch {
      AllTrueCarries(b, a);
    }
    if ra.Unresolved? && rb.Unresolved? {
      var p, q := ReasonOf(ra.error).value, ReasonOf(rb.error).value;
      ForemostIsUnique(a, b, p, q);
      ForemostIsUnique(b, a, q, p);
      RanksAreDistinct(p, q);
    }
  }

  lemma AllTrueCarries(a: seq<Outcome>, b: seq<Outcome>)
    requires (forall o :: o in b ==> o in a) && forall i :: 0 <= i < |a| ==> a[i] == Decided(true)
    ensures forall i :: 0 <= i < |b| ==> b[i] == Decided(true)
  {
    forall i | 0 <= i < |b| ensures b[i] == Decided(true) {
      assert b[i] in a;
    }
  }

  lemma SameElements(a: seq<Outcome>, b: seq<Outcome>)
    requires multiset(a) == multiset(b)
    ensures forall o :: o in a ==> o in b
  {
    forall o | o in a ensures o in b {
      assert o in multiset(a);
    }
  }

  lemma ForemostIsUnique(a: seq<Outcome>, b: seq<Outcome>, p: Reason, q: Reason)
    requires (forall o :: o in b ==> o in a) && Foremost(a, NO_TALLY, p) && Foremost(b, NO_TALLY, q)
    ensures Rank(Some(p)) <= Rank(Some(q))
  {
    var j :| 0 <= j < |b| && Unchecked(b[j]) && Named(b[j]) == q;
    assert b[j] in a;
  }

  // ------------------------------------------------------------ the entries of a group

  datatype GroupStep = Halt(outcome: Outcome) | Next(reason: Option<Reason>)

  /** One entry of matchParsedPropertyGroup; a nested group is never negated. */
  function AddEntry(kind: string, negated: bool, o: Outcome, reason: Option<Reason>): GroupStep {
    match o
    case ServerRequired(_) => Halt(Escalated(o, reason))
    case Inconclusive(r) => Next(Some(Pick(reason, r)))
    case Broken => Halt(Broken)
    case Decided(matched) =>
      if kind == "AND"
      then if matched == negated then Halt(Decided(false)) else Next(reason)
      else if matched != negated then Halt(Decided(true)) else Next(reason)
  }

  function CloseGroup(kind: string, reason: Option<Reason>): Outcome {
    if reason.Some? then Inconclusive(reason) else Decided(kind == "AND")
  }

  /**
   * The entries a group evaluation meets: a leaf holds the outcome of a property
   * filter, a flag dependency or a missing cohort; a node is a nested group, or a
   * cohort unrolled into its group. `empty` marks a group with no entries at all.
   */
  datatype Tree = Leaf(outcome: Outcome) | Node(empty: bool, kind: string, kids: seq<Kid>)
  datatype Kid = Kid(negated: bool, tree: Tree)

  function Verdict(t: Tree): Outcome
    decreases t
  {
    match t
    case Leaf(o) => o
    case Node(empty, kind, kids) => if empty then Decided(true) else FoldKids(t, 0, None)
  }

  /** The loop over the entries of a group, from entry i on. */
  function FoldKids(t: Tree, i: nat, reason: Option<Reason>): Outcome
    requires t.Node? && i <= |t.kids|
    decreases t, |t.kids| - i
  {
    if i == |t.kids| then CloseGroup(t.kind, reason) else
      match AddEntry(t.kind, t.kids[i].negated, Verdict(t.kids[i].tree), reason)
      case Halt(o) => o
      case Next(r) => FoldKids(t, i + 1, r)
  }

  /** A decided entry that settles its group: a mismatch under AND, a match otherwise. */
  predicate Decisive(kind: string, k: Kid) {
    var v := Verdict(k.tree);
    v.Decided? && ((v.matched != k.negated) != (kind == "AND"))
  }

  predicate Settleable(t: Tree) {
    t.Node? && forall i :: 0 <= i < |t.kids| ==>
      Verdict(t.kids[i].tree).Decided? || Verdict(t.kids[i].tree).Inconclusive?
  }

  /** The foremost reason among the group's inconclusive entries from i on and the one already known. */
  ghost predicate ForemostKid(t: Tree, i: nat, reason: Option<Reason>, r: Reason)
    requires t.Node? && i <= |t.kids|
  {
    && (reason == Some(r) || exists k :: i <= k < |t.kids| && Verdict(t.kids[k].tree).Inconclusive?
                                      && Named(Verdict(t.kids[k].tree)) == r)
    && Rank(Some(r)) <= Rank(reason)
    && forall k :: i <= k < |t.kids| && Verdict(t.kids[k].tree).Inconclusive? ==>
         Rank(Some(r)) <= Rank(Some(Named(Verdict(t.kids[k].tree))))
  }

  /**
   * A group whose entries are decided or inconclusive is decided by a decisive
   * entry wherever it stands, undecided without one if some entry is, for the
   * foremost reason, and otherwise takes the value of an empty conjunction or
   * disjunction.
   */
  lemma {:induction false} GroupMeans(t: Tree, i: nat, reason: Option<Reason>)
    requires Settleable(t) && i <= |t.kids|
    ensures var o := FoldKids(t, i, reason);
            if exists k :: i <= k < |t.kids| && Decisive(t.kind, t.kids[k])
            then o == Decided(t.kind != "AND")
            else if reason.Some? || exists k :: i <= k < |t.kids| && Verdict(t.kids[k].tree).Inconclusive?
            then o.Inconclusive? && o.reason.Some? && ForemostKid(t, i, reason, o.reason.value)
            else o == Decided(t.kind == "AND")
    decreases |t.kids| - i
  {
    if i < |t.kids| && !Decisive(t.kind, t.kids[i]) {
      var v := Verdict(t.kids[i].tree);
      var next := if v.Decided? then reason else Some(Pick(reason, v.reason));
      if v.Inconclusive? {
        PickIsMinimum(reason, Named(v));
      }
      GroupMeans(t, i + 1, next);
    }
  }

  /** An entry that needs the server ends the group, unless an earlier one decided it or failed. */
  lemma {:induction false} ServerRequiredPropagates(t: Tree, i: nat, reason: Option<Reason>, n: nat)
    requires t.Node? && i <= n < |t.kids| && Verdict(t.kids[n].tree).ServerRequired?
    requires forall k :: i <= k < n ==> !Decisive(t.kind, t.kids[k]) && !Verdict(t.kids[k].tree).Broken?
    ensures FoldKids(t, i, reason).ServerRequired?
    decreases n - i
  {
    if i < n && !Verdict(t.kids[i].tree).ServerRequired? {
      var v := Verdict(t.kids[i].tree);
      ServerRequiredPropagates(t, i + 1, if v.Decided? then reason else Some(Pick(reason, v.reason)), n);
    }
  }

  /** A choice of truth value for each unresolved leaf, named by its path from the root. */
  type Choice = seq<nat> -> bool

  /** Ordinary two-valued evaluation, with the chosen values for the unresolved leaves. */
  function Truth(t: Tree, path: seq<nat>, choice: Choice): bool
    decreases t
  {
    match t
    case Leaf(o) => if o.Decided? then o.matched else choice(path)
    case Node(empty, kind, kids) =>
      empty ||
      if kind == "AND"
      then forall i :: 0 <= i < |kids| ==> Truth(kids[i].tree, path + [i], choice) != kids[i].negated
      else exists i :: 0 <= i < |kids| && Truth(kids[i].tree, path + [i], choice) != kids[i].negated
  }

  /** A conclusive answer does not depend on how the unresolved leaves would come out. */
  lemma {:induction false} ConclusiveIsSound(t: Tree, path: seq<nat>, choice: Choice)
    ensures Verdict(t).Decided? ==> Truth(t, path, choice) == Verdict(t).matched
    decreases t
  {
    match t
    case Leaf(_) =>
    case Node(empty, kind, kids) =>
      if !empty {
        forall i | 0 <= i < |kids|
          ensures Verdict(kids[i].tree).Decided? ==>
                    Truth(kids[i].tree, path + [i], choice) == Verdict(kids[i].tree).matched
        {
          ConclusiveIsSound(kids[i].tree, path + [i], choice);
        }
        FoldIsSound(t, 0, None, path, choice);
      }
  }

  lemma {:induction false} FoldIsSound(t: Tree, i: nat, reason: Option<Reason>, path: seq<nat>, choice: Choice)
    requires t.Node? && !t.empty && i <= |t.kids|
    requires forall k :: 0 <= k < |t.kids| && Verdict(t.kids[k].tree).Decided? ==>
               Truth(t.kids[k].tree, path + [k], choice) == Verdict(t.kids[k].tree).matched
    requires reason.None? ==> forall k :: 0 <= k < i ==>
               Truth(t.kids[k].tree, path + [k], choice) == (t.kids[k].negated != (t.kind == "AND"))
    ensures FoldKids(t, i, reason).Decided? ==> FoldKids(t, i, reason).matched == Truth(t, path, choice)
    decreases |t.kids| - i
  {
    if i < |t.kids| {
      match AddEntry(t.kind, t.kids[i].negated, Verdict(t.kids[i].tree), reason)
      case Halt(o) =>
      case Next(r) => FoldIsSound(t, i + 1, r, path, choice);
    }
  }

  // ------------------------------------------------------------ what the unresolved leaves could make of a tree

  /** Can the tree come out as b? Each unresolved leaf is free, whatever the others are. */
  predicate CanBe(t: Tree, b: bool)
    decreases t
  {
    match t
    case Leaf(o) => o.Decided? ==> o.matched == b
    case Node(empty, kind, kids) =>
      if empty then b
      else if (kind == "AND") == b
      then forall i :: 0 <= i < |kids| ==> CanBe(kids[i].tree, b != kids[i].negated)
      else exists i :: 0 <= i < |kids| && CanBe(kids[i].tree, b != kids[i].negated)
  }

  /** The value for each leaf that drives the tree towards b: b, turned around by each negation on the way. */
  function Aim(t: Tree, b: bool, path: seq<nat>): bool
    decreases t
  {
    if t.Leaf? || |path| == 0 || path[0] >= |t.kids| then b
    else Aim(t.kids[path[0]].tree, b != t.kids[path[0]].negated, path[1..])
  }

  ghost predicate Aimed(t: Tree, b: bool, path: seq<nat>, choice: Choice) {
    forall q: seq<nat> :: choice(path + q) == Aim(t, b, q)
  }

  lemma AimedKid(t: Tree, b: bool, path: seq<nat>, choice: Choice, i: nat)
    requires t.Node? && i < |t.kids| && Aimed(t, b, path, choice)
    ensures Aimed(t.kids[i].tree, b != t.kids[i].negated, path + [i], choice)
  {
    forall q: seq<nat> ensures choice(path + [i] + q) == Aim(t.kids[i].tree, b != t.kids[i].negated, q) {
      assert path + [i] + q == path + ([i] + q);
      assert ([i] + q)[1..] == q;
    }
  }

  /** A choice aimed at b makes the tree come out as b if anything does. */
  lemma {:induction false} AimedTruth(t: Tree, b: bool, path: seq<nat>, choice: Choice)
    requires Aimed(t, b, path, choice)
    ensures Truth(t, path, choice) == b <==> CanBe(t, b)
    decreases t
  {
    match t
    case Leaf(_) => assert path + [] == path;
    case Node(empty, kind, kids) =>
      forall i | 0 <= i < |kids|
        ensures (Truth(kids[i].tree, path + [i], choice) != kids[i].negated) == b <==> CanBe(kids[i].tree, b != kids[i].negated)
      {
        AimedKid(t, b, path, choice, i);
        AimedTruth(kids[i].tree, b != kids[i].negated, path + [i], choice);
      }
  }

  /** What some choice makes of a tree, it can be. */
  lemma {:induction false} TruthCanBe(t: Tree, path: seq<nat>, choice: Choice)
    ensures CanBe(t, Truth(t, path, choice))
    decreases t
  {
    match t
    case Leaf(_) =>
    case Node(empty, kind, kids) =>
      forall i | 0 <= i < |kids| ensures CanBe(kids[i].tree, Truth(kids[i].tree, path + [i], choice)) {
        TruthCanBe(kids[i].tree, path + [i], choice);
      }
      var b := Truth(t, path, choice);
      if !empty && (kind == "AND") == b {
        assert forall i :: 0 <= i < |kids| ==> Truth(kids[i].tree, path + [i], choice) == (b != kids[i].negated);
      } else if !empty {
        var i :| 0 <= i < |kids| && Truth(kids[i].tree, path + [i], choice) == (b != kids[i].negated);
      }
  }

  /** A tree comes out as b under some choice exactly if it can be b. */
  lemma CanBeIff(t: Tree, b: bool)
    ensures CanBe(t, b) <==> exists choice: Choice :: Truth(t, [], choice) == b
  {
    var aimed: Choice := q => Aim(t, b, q);
    forall q: seq<nat> ensures aimed([] + q) == Aim(t, b, q) {
      assert [] + q == q;
    }
    AimedTruth(t, b, [], aimed);
    if choice: Choice :| Truth(t, [], choice) == b {
      TruthCanBe(t, [], choice);
    }
  }

  lemma {:induction false} InconclusiveKids(t: Tree, i: nat, reason: Option<Reason>)
    requires t.Node? && i <= |t.kids| && FoldKids(t, i, reason).Inconclusive?
    ensures forall k :: i <= k < |t.kids| ==>
              Verdict(t.kids[k].tree).Inconclusive?
              || Verdict(t.kids[k].tree) == Decided((t.kind == "AND") != t.kids[k].negated)
    ensures reason.Some? || exists k :: i <= k < |t.kids| && Verdict(t.kids[k].tree).Inconclusive?
    decreases |t.kids| - i
  {
    if i < |t.kids| {
      match AddEntry(t.kind, t.kids[i].negated, Verdict(t.kids[i].tree), reason)
      case Next(r) => InconclusiveKids(t, i + 1, r);
    }
  }

  /** An inconclusive group can come out either way. */
  lemma {:induction false} InconclusiveIsOpen(t: Tree, b: bool)
    requires Verdict(t).Inconclusive?
    ensures CanBe(t, b)
    decreases t
  {
    if t.Node? {
      InconclusiveKids(t, 0, None);
      forall k | 0 <= k < |t.kids| && Verdict(t.kids[k].tree).Inconclusive?
        ensures CanBe(t.kids[k].tree, b != t.kids[k].negated)
      {
        InconclusiveIsOpen(t.kids[k].tree, b != t.kids[k].negated);
      }
      forall k | 0 <= k < |t.kids| && Verdict(t.kids[k].tree).Decided?
        ensures CanBe(t.kids[k].tree, (t.kind == "AND") != t.kids[k].negated)
      {
        DecidedCanBe(t.kids[k].tree);
      }
    }
  }

  lemma DecidedCanBe(t: Tree)
    requires Verdict(t).Decided?
    ensures CanBe(t, Verdict(t).matched)
  {
    var any: Choice := _ => true;
    ConclusiveIsSound(t, [], any);
    TruthCanBe(t, [], any);
  }

  /** An inconclusive condition has an inconclusive filter. */
  lemma {:induction false} InconclusiveFilter(os: seq<Outcome>, t: Tally)
    requires FoldFilters(os, t).Unresolved? && FoldFilters(os, t).error.Inconclusive?
    requires t.server.Some? ==> t.server.value.ServerRequired?
    ensures t.server.None?
    ensures t.reason.Some? || exists i :: 0 <= i < |os| && os[i].Inconclusive?
  {
    if |os| > 0 {
      match AddFilter(t, os[0])
      case Go(next) => InconclusiveFilter(os[1..], next);
    }
  }
}
