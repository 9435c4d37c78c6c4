// When evaluation ends. The ranks that the evaluator falls along exist exactly
// when cohort references and dependency chains form no cycle.

module Acyclic {

  import opened Wrappers
  import opened Filters
  import opened Definitions
  import opened CohortScan
  import opened Evaluator

  datatype Node = FlagNode(key: string) | CohortNode(id: string)

  function Nodes(w: World): set<Node> {
    (set key | key in w.Flags() :: FlagNode(key)) + (set id | id in w.Cohorts() :: CohortNode(id))
  }

  /** Evaluating the filter may evaluate the node. */
  ghost predicate FilterNeeds(w: World, f: Filter, b: Node) {
    match b
    case CohortNode(id) => NamesCohort(w.scope, f) && CohortId(w.scope, f) == id
    case FlagNode(key) =>
      f.kind == "flag" && f.chain.Some? && key in f.chain.value && Evaluable(w, key)
  }

  ghost predicate SomeFilterNeeds(w: World, fs: seq<Filter>, b: Node) {
    exists i :: 0 <= i < |fs| && FilterNeeds(w, fs[i], b)
  }

  ghost predicate Needs(w: World, a: Node, b: Node) {
    match a
    case CohortNode(id) => id in w.Cohorts() && SomeFilterNeeds(w, FiltersIn(w.Cohorts()[id].entries), b)
    case FlagNode(key) =>
      Evaluable(w, key) && exists i :: 0 <= i < |w.Flags()[key].conditions|
                                  && SomeFilterNeeds(w, w.Flags()[key].conditions[i].filters, b)
  }

  // ------------------------------------------------------------ paths

  ghost predicate Path(w: World, p: seq<Node>) {
    |p| >= 2 && forall i :: 0 <= i < |p| - 1 ==> Needs(w, p[i], p[i + 1])
  }

  ghost predicate Leads(w: World, a: Node, b: Node) {
    exists p :: Path(w, p) && p[0] == a && p[|p| - 1] == b
  }

  ghost predicate NoCycle(w: World) {
    forall a :: a in Nodes(w) ==> !Leads(w, a, a)
  }

  lemma NeedLeads(w: World, a: Node, b: Node)
    requires Needs(w, a, b)
    ensures Leads(w, a, b)
  {
    var p := [a, b];
    assert Path(w, p);
  }

  lemma NeedThenLeads(w: World, a: Node, b: Node, c: Node)
    requires Needs(w, a, b) && Leads(w, b, c)
    ensures Leads(w, a, c)
  {
    var p :| Path(w, p) && p[0] == b && p[|p| - 1] == c;
    var q := [a] + p;
    assert forall i :: 0 < i < |q| - 1 ==> q[i] == p[i - 1] && q[i + 1] == p[i];
    assert Path(w, q);
  }

  lemma NeededIsNode(w: World, a: Node, b: Node)
    requires Needs(w, a, b)
    ensures a in Nodes(w) && b in Nodes(w)
  {
  }

  // ------------------------------------------------------------ ranks from the absence of cycles

  ghost function Beyond(w: World, a: Node): set<Node> {
    set b | b in Nodes(w) && Leads(w, a, b)
  }

  /** A node's rank: how many nodes it leads to. */
  ghost function Height(w: World, a: Node): nat {
    |Beyond(w, a)|
  }

  lemma HeightFalls(w: World, a: Node, b: Node)
    requires NoCycle(w) && Needs(w, a, b)
    ensures Height(w, b) < Height(w, a)
  {
    NeededIsNode(w, a, b);
    NeedLeads(w, a, b);
    forall c | c in Beyond(w, b) ensures c in Beyond(w, a) {
      NeedThenLeads(w, a, b, c);
    }
    assert b in Beyond(w, a) - Beyond(w, b);
    Smaller(Beyond(w, b), Beyond(w, a) - {b});
  }

  ghost function Heights(w: World): Ranks {
    Ranks(key => Height(w, FlagNode(key)), id => Height(w, CohortNode(id)))
  }

  /** The ranks fall along every need of these filters. */
  ghost predicate Fall(w: World, rk: Ranks, fs: seq<Filter>, n: nat) {
    forall b :: SomeFilterNeeds(w, fs, b) ==> RankOf(rk, b) < n
  }

  function RankOf(rk: Ranks, a: Node): nat {
    match a
    case FlagNode(key) => rk.flags(key)
    case CohortNode(id) => rk.cohorts(id)
  }

  lemma FilterFalls(w: World, rk: Ranks, f: Filter, n: nat)
    ensures FilterBelow(w, rk, f, n) <==> forall b :: FilterNeeds(w, f, b) ==> RankOf(rk, b) < n
  {
    if FilterBelow(w, rk, f, n) {
      forall b | FilterNeeds(w, f, b) ensures RankOf(rk, b) < n {
        if b.FlagNode? {
          var i :| 0 <= i < |f.chain.value| && f.chain.value[i] == b.key;
          assert MemberBelow(w, rk, f.chain.value[i], n);
        }
      }
    }
    if forall b :: FilterNeeds(w, f, b) ==> RankOf(rk, b) < n {
      if NamesCohort(w.scope, f) {
        assert FilterNeeds(w, f, CohortNode(CohortId(w.scope, f)));
      }
      if f.kind == "flag" && f.chain.Some? {
        forall i | 0 <= i < |f.chain.value| ensures MemberBelow(w, rk, f.chain.value[i], n) {
          var key := f.chain.value[i];
          if Evaluable(w, key) {
            assert FilterNeeds(w, f, FlagNode(key));
          }
        }
      }
    }
  }

  lemma FiltersFall(w: World, rk: Ranks, fs: seq<Filter>, n: nat)
    ensures FiltersBelow(w, rk, fs, n) <==> Fall(w, rk, fs, n)
  {
    forall i | 0 <= i < |fs|
      ensures FilterBelow(w, rk, fs[i], n) <==> forall b :: FilterNeeds(w, fs[i], b) ==> RankOf(rk, b) < n
    {
      FilterFalls(w, rk, fs[i], n);
    }
    if Fall(w, rk, fs, n) {
      forall i | 0 <= i < |fs| ensures FilterBelow(w, rk, fs[i], n) {
        forall b | FilterNeeds(w, fs[i], b) ensures RankOf(rk, b) < n {
          assert SomeFilterNeeds(w, fs, b);
        }
      }
    }
  }

  lemma {:induction false} EntriesBelow(w: World, rk: Ranks, es: seq<Entry>, n: nat)
    ensures FiltersBelow(w, rk, FiltersIn(es), n) <==> forall i :: 0 <= i < |es| ==> EntryBelow(w, rk, es[i], n)
    decreases es
  {
    if |es| > 0 {
      var first, rest := FiltersOf(es[0]), FiltersIn(es[1..]);
      OneEntryBelow(w, rk, es[0], n);
      EntriesBelow(w, rk, es[1..], n);
      assert forall i :: 0 <= i < |first| ==> (first + rest)[i] == first[i];
      assert forall i :: 0 <= i < |rest| ==> (first + rest)[|first| + i] == rest[i];
      assert forall i :: 0 < i < |es| ==> es[i] == es[1..][i - 1];
      if forall i :: 0 <= i < |es| ==> EntryBelow(w, rk, es[i], n) {
        assert EntryBelow(w, rk, es[0], n);
        assert forall i :: 0 <= i < |es[1..]| ==> EntryBelow(w, rk, es[1..][i], n);
      }
    }
  }

  lemma {:induction false} OneEntryBelow(w: World, rk: Ranks, e: Entry, n: nat)
    ensures FiltersBelow(w, rk, FiltersOf(e), n) <==> EntryBelow(w, rk, e, n)
    decreases e
  {
    match e
    case Junk =>
    case Single(f) => assert FiltersOf(e)[0] == f;
    case Nested(g) => EntriesBelow(w, rk, g.entries, n);
  }

  /** A ranking is well formed exactly when it falls along every need. */
  lemma WellRankedMeans(w: World, rk: Ranks)
    ensures WellRanked(w, rk) <==> forall a, b :: Needs(w, a, b) ==> RankOf(rk, b) < RankOf(rk, a)
  {
    if WellRanked(w, rk) {
      forall a, b | Needs(w, a, b) ensures RankOf(rk, b) < RankOf(rk, a) {
        match a
        case CohortNode(id) =>
          var es := w.Cohorts()[id].entries;
          EntriesBelow(w, rk, es, rk.cohorts(id));
          FiltersFall(w, rk, FiltersIn(es), rk.cohorts(id));
        case FlagNode(key) =>
          var i :| 0 <= i < |w.Flags()[key].conditions| && SomeFilterNeeds(w, w.Flags()[key].conditions[i].filters, b);
          FiltersFall(w, rk, w.Flags()[key].conditions[i].filters, rk.flags(key));
      }
    }
    if forall a, b :: Needs(w, a, b) ==> RankOf(rk, b) < RankOf(rk, a) {
      FlagsRanked(w, rk);
      CohortsRanked(w, rk);
    }
  }

  lemma FlagsRanked(w: World, rk: Ranks)
    requires forall a, b :: Needs(w, a, b) ==> RankOf(rk, b) < RankOf(rk, a)
    ensures forall key :: Evaluable(w, key) ==> FlagBelow(w, rk, w.Flags()[key], rk.flags(key))
  {
    forall key, i | Evaluable(w, key) && 0 <= i < |w.Flags()[key].conditions|
      ensures FiltersBelow(w, rk, w.Flags()[key].conditions[i].filters, rk.flags(key))
    {
      FiltersFall(w, rk, w.Flags()[key].conditions[i].filters, rk.flags(key));
      forall b | SomeFilterNeeds(w, w.Flags()[key].conditions[i].filters, b) ensures RankOf(rk, b) < rk.flags(key) {
        assert Needs(w, FlagNode(key), b);
      }
    }
  }

  lemma CohortsRanked(w: World, rk: Ranks)
    requires forall a, b :: Needs(w, a, b) ==> RankOf(rk, b) < RankOf(rk, a)
    ensures forall id :: id in w.Cohorts() ==> GroupBelow(w, rk, w.Cohorts()[id], rk.cohorts(id))
  {
    forall id | id in w.Cohorts() ensures GroupBelow(w, rk, w.Cohorts()[id], rk.cohorts(id)) {
      var es := w.Cohorts()[id].entries;
      EntriesBelow(w, rk, es, rk.cohorts(id));
      FiltersFall(w, rk, FiltersIn(es), rk.cohorts(id));
      forall b | SomeFilterNeeds(w, FiltersIn(es), b) ensures RankOf(rk, b) < rk.cohorts(id) {
        assert Needs(w, CohortNode(id), b);
      }
    }
  }

  lemma {:induction false} RanksFallOnPaths(w: World, rk: Ranks, p: seq<Node>, i: nat)
    requires WellRanked(w, rk) && Path(w, p) && 0 < i < |p|
    ensures RankOf(rk, p[i]) < RankOf(rk, p[0])
  {
    WellRankedMeans(w, rk);
    assert Needs(w, p[i - 1], p[i]);
    if i > 1 {
      RanksFallOnPaths(w, rk, p, i - 1);
    }
  }

  /**
   * The evaluator keeps no record of where it has been. The ranks its measure
   * is made of exist on exactly the definitions without cycles.
   */
  lemma RankedIffAcyclic(w: World)
    ensures (exists rk :: WellRanked(w, rk)) <==> NoCycle(w)
  {
    if NoCycle(w) {
      var rk := Heights(w);
      forall a, b | Needs(w, a, b) ensures RankOf(rk, b) < RankOf(rk, a) {
        HeightFalls(w, a, b);
      }
      WellRankedMeans(w, rk);
    }
    if rk :| WellRanked(w, rk) {
      forall a | a in Nodes(w) ensures !Leads(w, a, a) {
        if p :| Path(w, p) && p[0] == a && p[|p| - 1] == a {
          RanksFallOnPaths(w, rk, p, |p| - 1);
        }
      }
    }
  }
}
