// The scan made when definitions load: does a condition reach, through nested
// groups and cohort references, a filter that local evaluation cannot use? The
// cohorts may refer to each other in cycles; the scan remembers those it visited.

module CohortScan {

  import opened Wrappers
  import opened Reasons
  import opened Filters
  import opened Definitions

  /** What the scan runs against. */
  datatype Scope = Scope(oracle: Oracle, defs: Definitions)

  function CohortId(s: Scope, f: Filter): string {
    s.oracle.text(f.value)
  }

  predicate NamesCohort(s: Scope, f: Filter) {
    f.kind == "cohort" && CohortId(s, f) in s.defs.cohorts
  }

  /** The filter itself cannot be used, whatever cohort it may lead to. */
  predicate Unusable(s: Scope, f: Filter, aggregation: Option<nat>) {
    if f.kind == "flag" then DependencyError(f, s.defs.flags, aggregation).Some?
    else if f.kind == "cohort" then CohortId(s, f) !in s.defs.cohorts
    else DefinitionError(s.oracle, f, s.defs.version)
  }

  function Content(s: Scope, id: string): seq<Filter>
    requires id in s.defs.cohorts
  {
    FiltersIn(s.defs.cohorts[id].entries)
  }

  function Unvisited(s: Scope, visited: set<string>): nat {
    |s.defs.cohorts.Keys - visited|
  }

  /** isUnsupportedProperty: the answer, and the cohorts visited so far. */
  function ScanFilter(s: Scope, f: Filter, aggregation: Option<nat>, visited: set<string>): (r: (bool, set<string>))
    ensures visited <= r.1
    decreases Unvisited(s, visited), 0
  {
    if !NamesCohort(s, f) then (Unusable(s, f, aggregation), visited)
    else if CohortId(s, f) in visited then (false, visited)
    else
      FewerUnvisited(s, visited, CohortId(s, f));
      ScanAll(s, Content(s, CohortId(s, f)), aggregation, visited + {CohortId(s, f)})
  }

  /** The filters of a condition or a cohort, until one is found unsupported. */
  function ScanAll(s: Scope, fs: seq<Filter>, aggregation: Option<nat>, visited: set<string>): (r: (bool, set<string>))
    ensures visited <= r.1
    decreases Unvisited(s, visited), |fs|
  {
    if |fs| == 0 then (false, visited) else
      var first := ScanFilter(s, fs[0], aggregation, visited);
      if first.0 then first
      else
        NoMoreUnvisited(s, visited, first.1);
        ScanAll(s, fs[1..], aggregation, first.1)
  }

  lemma FewerUnvisited(s: Scope, visited: set<string>, id: string)
    requires id in s.defs.cohorts && id !in visited
    ensures Unvisited(s, visited + {id}) < Unvisited(s, visited)
  {
    assert s.defs.cohorts.Keys - (visited + {id}) == (s.defs.cohorts.Keys - visited) - {id};
  }

  lemma NoMoreUnvisited(s: Scope, visited: set<string>, more: set<string>)
    requires visited <= more
    ensures Unvisited(s, more) <= Unvisited(s, visited)
  {
    Smaller(s.defs.cohorts.Keys - more, s.defs.cohorts.Keys - visited);
  }

  lemma {:induction false} Smaller<T>(a: set<T>, b: set<T>)
    requires a <= b
    ensures |a| <= |b|
  {
    assert b == a + (b - a);
  }

  // ------------------------------------------------------------ reachability

  /** From filter f to filter g through cohorts: `ids` lists the cohorts entered on the way. */
  ghost predicate Leads(s: Scope, f: Filter, ids: seq<string>, g: Filter)
    decreases |ids|
  {
    if |ids| == 0 then f == g
    else
      && NamesCohort(s, f) && CohortId(s, f) == ids[0]
      && exists h :: h in Content(s, ids[0]) && Leads(s, h, ids[1..], g)
  }

  ghost predicate Reaches(s: Scope, f: Filter, g: Filter) {
    exists ids :: Leads(s, f, ids, g)
  }

  ghost predicate SomeReaches(s: Scope, fs: seq<Filter>, g: Filter) {
    exists f :: f in fs && Reaches(s, f, g)
  }

  /** Cohort `id` is entered from one of the filters. */
  ghost predicate Enters(s: Scope, fs: seq<Filter>, id: string) {
    exists g :: SomeReaches(s, fs, g) && NamesCohort(s, g) && CohortId(s, g) == id
  }

  lemma ReachesItself(s: Scope, f: Filter)
    ensures Reaches(s, f, f)
  {
    assert Leads(s, f, [], f);
  }

  lemma ReachesThrough(s: Scope, f: Filter, h: Filter, g: Filter)
    requires NamesCohort(s, f) && h in Content(s, CohortId(s, f)) && Reaches(s, h, g)
    ensures Reaches(s, f, g)
  {
    var ids :| Leads(s, h, ids, g);
    var all := [CohortId(s, f)] + ids;
    assert all[1..] == ids;
    assert Leads(s, f, all, g);
  }

  lemma {:induction false} ReachesOnward(s: Scope, f: Filter, ids: seq<string>, g: Filter, h: Filter)
    requires Leads(s, f, ids, g) && NamesCohort(s, g) && h in Content(s, CohortId(s, g))
    ensures Reaches(s, f, h)
    decreases |ids|
  {
    if |ids| == 0 {
      ReachesItself(s, h);
      ReachesThrough(s, g, h, h);
    } else {
      var k :| k in Content(s, ids[0]) && Leads(s, k, ids[1..], g);
      ReachesOnward(s, k, ids[1..], g, h);
      ReachesThrough(s, f, k, h);
    }
  }

  // ------------------------------------------------------------ the scan is exact

  /** Cohort `id` is fine: nothing in it is unusable, and what it refers to is among `seen`. */
  ghost predicate Clean(s: Scope, fs: seq<Filter>, aggregation: Option<nat>, seen: set<string>) {
    forall f :: f in fs ==> !Unusable(s, f, aggregation) && (NamesCohort(s, f) ==> CohortId(s, f) in seen)
  }

  ghost predicate CleanCohort(s: Scope, id: string, aggregation: Option<nat>, seen: set<string>) {
    id in s.defs.cohorts && Clean(s, Content(s, id), aggregation, seen)
  }

  /** A positive answer has a witness, reached without entering a cohort visited before. */
  lemma {:induction false} ScanFilterFinds(s: Scope, f: Filter, aggregation: Option<nat>, visited: set<string>)
    returns (ids: seq<string>, g: Filter)
    requires ScanFilter(s, f, aggregation, visited).0
    ensures Leads(s, f, ids, g) && Unusable(s, g, aggregation) && forall id :: id in ids ==> id !in visited
    decreases Unvisited(s, visited), 0
  {
    if !NamesCohort(s, f) {
      ids, g := [], f;
    } else {
      var id := CohortId(s, f);
      FewerUnvisited(s, visited, id);
      var h: Filter;
      var rest: seq<string>;
      h, rest, g := ScanAllFinds(s, Content(s, id), aggregation, visited + {id});
      ids := [id] + rest;
      assert ids[1..] == rest;
    }
  }

  lemma {:induction false} ScanAllFinds(s: Scope, fs: seq<Filter>, aggregation: Option<nat>, visited: set<string>)
    returns (f: Filter, ids: seq<string>, g: Filter)
    requires ScanAll(s, fs, aggregation, visited).0
    ensures f in fs && Leads(s, f, ids, g) && Unusable(s, g, aggregation) && forall id :: id in ids ==> id !in visited
    decreases Unvisited(s, visited), |fs|
  {
    var first := ScanFilter(s, fs[0], aggregation, visited);
    if first.0 {
      f := fs[0];
      ids, g := ScanFilterFinds(s, f, aggregation, visited);
    } else {
      NoMoreUnvisited(s, visited, first.1);
      f, ids, g := ScanAllFinds(s, fs[1..], aggregation, first.1);
    }
  }

  /** After a negative answer, every cohort newly visited is clean. */
  lemma {:induction false} ScanFilterClears(s: Scope, f: Filter, aggregation: Option<nat>, visited: set<string>)
    requires !ScanFilter(s, f, aggregation, visited).0
    ensures var seen := ScanFilter(s, f, aggregation, visited).1;
            && !Unusable(s, f, aggregation) && (NamesCohort(s, f) ==> CohortId(s, f) in seen)
            && forall id :: id in seen - visited ==> CleanCohort(s, id, aggregation, seen)
    decreases Unvisited(s, visited), 0
  {
    if NamesCohort(s, f) && CohortId(s, f) !in visited {
      FewerUnvisited(s, visited, CohortId(s, f));
      ScanAllClears(s, Content(s, CohortId(s, f)), aggregation, visited + {CohortId(s, f)});
    }
  }

  lemma {:induction false} ScanAllClears(s: Scope, fs: seq<Filter>, aggregation: Option<nat>, visited: set<string>)
    requires !ScanAll(s, fs, aggregation, visited).0
    ensures var seen := ScanAll(s, fs, aggregation, visited).1;
            && Clean(s, fs, aggregation, seen)
            && forall id :: id in seen - visited ==> CleanCohort(s, id, aggregation, seen)
    decreases Unvisited(s, visited), |fs|
  {
    if |fs| > 0 {
      var first := ScanFilter(s, fs[0], aggregation, visited);
      ScanFilterClears(s, fs[0], aggregation, visited);
      NoMoreUnvisited(s, visited, first.1);
      ScanAllClears(s, fs[1..], aggregation, first.1);
      var seen := ScanAll(s, fs, aggregation, visited).1;
      assert seen == ScanAll(s, fs[1..], aggregation, first.1).1;
      CleanStays(s, first.1 - visited, aggregation, first.1, seen);
      assert Clean(s, fs, aggregation, seen) by {
        forall f | f in fs ensures !Unusable(s, f, aggregation) && (NamesCohort(s, f) ==> CohortId(s, f) in seen) {
          assert f == fs[0] || f in fs[1..];
        }
      }
    }
  }

  lemma CleanStays(s: Scope, ids: set<string>, aggregation: Option<nat>, seen: set<string>, more: set<string>)
    requires seen <= more && forall id :: id in ids ==> CleanCohort(s, id, aggregation, seen)
    ensures forall id :: id in ids ==> CleanCohort(s, id, aggregation, more)
  {
  }

  /** From clean filters, over clean cohorts, only usable filters are reached. */
  lemma {:induction false} CleanIsClosed(
      s: Scope, f: Filter, ids: seq<string>, g: Filter, aggregation: Option<nat>, seen: set<string>)
    requires Leads(s, f, ids, g) && (forall id :: id in seen ==> CleanCohort(s, id, aggregation, seen))
    requires !Unusable(s, f, aggregation) && (NamesCohort(s, f) ==> CohortId(s, f) in seen)
    ensures !Unusable(s, g, aggregation) && (NamesCohort(s, g) ==> CohortId(s, g) in seen)
    decreases |ids|
  {
    if |ids| > 0 {
      var h :| h in Content(s, ids[0]) && Leads(s, h, ids[1..], g);
      assert CleanCohort(s, ids[0], aggregation, seen);
      CleanIsClosed(s, h, ids[1..], g, aggregation, seen);
    }
  }

  /**
   * In one aggregation context the scan, which ends on every cohort map, answers
   * true exactly when an unusable filter is reached, cycles among cohorts or not.
   */
  lemma ScanIsExact(s: Scope, fs: seq<Filter>, aggregation: Option<nat>)
    ensures ScanAll(s, fs, aggregation, {}).0 <==>
              exists g :: SomeReaches(s, fs, g) && Unusable(s, g, aggregation)
  {
    if ScanAll(s, fs, aggregation, {}).0 {
      var f, ids, g := ScanAllFinds(s, fs, aggregation, {});
      assert Reaches(s, f, g) && SomeReaches(s, fs, g);
    } else {
      ScanAllClears(s, fs, aggregation, {});
      var seen := ScanAll(s, fs, aggregation, {}).1;
      forall g | SomeReaches(s, fs, g) ensures !Unusable(s, g, aggregation) {
        var f :| f in fs && Reaches(s, f, g);
        var ids :| Leads(s, f, ids, g);
        CleanIsClosed(s, f, ids, g, aggregation, seen);
      }
    }
  }

  // ------------------------------------------------------------ all the conditions of a flag

  /** The conditions share the set of visited cohorts, whatever their aggregations. */
  function ScanConditions(s: Scope, flag: Flag, i: nat, visited: set<string>): bool
    requires i <= |flag.conditions|
    decreases |flag.conditions| - i
  {
    if i == |flag.conditions| then false else
      var c := flag.conditions[i];
      var r := ScanAll(s, c.filters, EffectiveAggregation(flag, c), visited);
      r.0 || ScanConditions(s, flag, i + 1, r.1)
  }

  /** definitionUnresolvedReason */
  function DefinitionReason(s: Scope, flag: Flag): Option<Reason> {
    if !flag.active then None
    else if flag.continuity then Some(ExperienceContinuity)
    else if ScanConditions(s, flag, 0, {}) then Some(UnsupportedDefinition)
    else None
  }

  /** Cohort `id` is entered from one of the first i conditions. */
  ghost predicate EnteredBefore(s: Scope, flag: Flag, i: nat, id: string)
    requires i <= |flag.conditions|
  {
    exists j :: 0 <= j < i && Enters(s, flag.conditions[j].filters, id)
  }

  /** Condition i reaches an unusable filter without entering a cohort an earlier condition enters. */
  ghost predicate NewlyUnusable(s: Scope, flag: Flag, i: nat)
    requires i < |flag.conditions|
  {
    exists f, ids, g ::
      && f in flag.conditions[i].filters && Leads(s, f, ids, g)
      && Unusable(s, g, EffectiveAggregation(flag, flag.conditions[i]))
      && forall id :: id in ids ==> !EnteredBefore(s, flag, i, id)
  }

  /** The cohorts visited are exactly those entered so far. */
  ghost predicate VisitedMeansEntered(s: Scope, flag: Flag, i: nat, visited: set<string>)
    requires i <= |flag.conditions|
  {
    forall id :: id in visited <==> EnteredBefore(s, flag, i, id)
  }

  lemma {:induction false} ScanFilterEnters(
      s: Scope, f: Filter, aggregation: Option<nat>, visited: set<string>, id: string)
    requires id in ScanFilter(s, f, aggregation, visited).1 - visited
    ensures Enters(s, [f], id)
    decreases Unvisited(s, visited), 0
  {
    var own := CohortId(s, f);
    if id == own {
      ReachesItself(s, f);
      assert f in [f] && SomeReaches(s, [f], f);
    } else {
      FewerUnvisited(s, visited, own);
      ScanAllEnters(s, Content(s, own), aggregation, visited + {own}, id);
      var g :| SomeReaches(s, Content(s, own), g) && NamesCohort(s, g) && CohortId(s, g) == id;
      var h :| h in Content(s, own) && Reaches(s, h, g);
      ReachesThrough(s, f, h, g);
      assert f in [f] && SomeReaches(s, [f], g);
    }
  }

  lemma {:induction false} ScanAllEnters(
      s: Scope, fs: seq<Filter>, aggregation: Option<nat>, visited: set<string>, id: string)
    requires id in ScanAll(s, fs, aggregation, visited).1 - visited
    ensures Enters(s, fs, id)
    decreases Unvisited(s, visited), |fs|
  {
    var first := ScanFilter(s, fs[0], aggregation, visited);
    NoMoreUnvisited(s, visited, first.1);
    if id in first.1 {
      ScanFilterEnters(s, fs[0], aggregation, visited, id);
      EntersMore(s, [fs[0]], fs, id);
    } else {
      ScanAllEnters(s, fs[1..], aggregation, first.1, id);
      EntersMore(s, fs[1..], fs, id);
    }
  }

  lemma EntersMore(s: Scope, fs: seq<Filter>, more: seq<Filter>, id: string)
    requires Enters(s, fs, id) && forall f :: f in fs ==> f in more
    ensures Enters(s, more, id)
  {
    var g :| SomeReaches(s, fs, g) && NamesCohort(s, g) && CohortId(s, g) == id;
    var f :| f in fs && Reaches(s, f, g);
    assert SomeReaches(s, more, g);
  }

  /** Every cohort seen is closed under reference, whatever it was checked for. */
  ghost predicate Closed(s: Scope, seen: set<string>) {
    && (forall id :: id in seen ==> id in s.defs.cohorts)
    && forall id, f :: id in seen && f in Content(s, id) && NamesCohort(s, f) ==> CohortId(s, f) in seen
  }

  lemma {:induction false} ClosedHolds(s: Scope, f: Filter, ids: seq<string>, g: Filter, seen: set<string>)
    requires Leads(s, f, ids, g) && Closed(s, seen) && (NamesCohort(s, f) ==> CohortId(s, f) in seen)
    ensures NamesCohort(s, g) ==> CohortId(s, g) in seen
    decreases |ids|
  {
    if |ids| > 0 {
      var h :| h in Content(s, ids[0]) && Leads(s, h, ids[1..], g);
      ClosedHolds(s, h, ids[1..], g, seen);
    }
  }

  lemma ConditionCloses(s: Scope, fs: seq<Filter>, aggregation: Option<nat>, visited: set<string>)
    requires Closed(s, visited) && !ScanAll(s, fs, aggregation, visited).0
    ensures Closed(s, ScanAll(s, fs, aggregation, visited).1)
  {
    var seen := ScanAll(s, fs, aggregation, visited).1;
    ScanAllClears(s, fs, aggregation, visited);
    forall id | id in seen
      ensures id in s.defs.cohorts && forall f :: f in Content(s, id) && NamesCohort(s, f) ==> CohortId(s, f) in seen
    {
      if id !in visited {
        assert CleanCohort(s, id, aggregation, seen);
      }
    }
  }

  lemma EnteredIsVisited(s: Scope, fs: seq<Filter>, aggregation: Option<nat>, visited: set<string>, id: string)
    requires Closed(s, visited) && !ScanAll(s, fs, aggregation, visited).0 && Enters(s, fs, id)
    ensures id in ScanAll(s, fs, aggregation, visited).1
  {
    ConditionCloses(s, fs, aggregation, visited);
    ScanAllClears(s, fs, aggregation, visited);
    var g :| SomeReaches(s, fs, g) && NamesCohort(s, g) && CohortId(s, g) == id;
    var f :| f in fs && Reaches(s, f, g);
    var ids :| Leads(s, f, ids, g);
    ClosedHolds(s, f, ids, g, ScanAll(s, fs, aggregation, visited).1);
  }

  /** Scanning one condition adds exactly the cohorts it enters. */
  lemma ConditionVisits(s: Scope, flag: Flag, i: nat, visited: set<string>)
    requires i < |flag.conditions| && VisitedMeansEntered(s, flag, i, visited) && Closed(s, visited)
    requires !ScanAll(s, flag.conditions[i].filters, EffectiveAggregation(flag, flag.conditions[i]), visited).0
    ensures var seen := ScanAll(s, flag.conditions[i].filters, EffectiveAggregation(flag, flag.conditions[i]), visited).1;
            VisitedMeansEntered(s, flag, i + 1, seen) && Closed(s, seen)
  {
    var fs, a := flag.conditions[i].filters, EffectiveAggregation(flag, flag.conditions[i]);
    var seen := ScanAll(s, fs, a, visited).1;
    ConditionCloses(s, fs, a, visited);
    forall id ensures id in seen <==> EnteredBefore(s, flag, i + 1, id) {
      if id in visited {
        var j :| 0 <= j < i && Enters(s, flag.conditions[j].filters, id);
        assert EnteredBefore(s, flag, i + 1, id);
      } else if id in seen {
        ScanAllEnters(s, fs, a, visited, id);
        assert EnteredBefore(s, flag, i + 1, id);
      } else if EnteredBefore(s, flag, i + 1, id) {
        var j :| 0 <= j < i + 1 && Enters(s, flag.conditions[j].filters, id);
        EnteredIsVisited(s, fs, a, visited, id);
      }
    }
  }

  /** What a condition newly reaches is what a negative scan of it has checked. */
  lemma {:induction false} NewlyReachedIsUsable(
      s: Scope, f: Filter, ids: seq<string>, g: Filter, aggregation: Option<nat>, visited: set<string>,
      seen: set<string>)
    requires Leads(s, f, ids, g) && (forall id :: id in ids ==> id !in visited)
    requires forall id :: id in seen - visited ==> CleanCohort(s, id, aggregation, seen)
    requires !Unusable(s, f, aggregation) && (NamesCohort(s, f) ==> CohortId(s, f) in seen)
    ensures !Unusable(s, g, aggregation)
    decreases |ids|
  {
    if |ids| > 0 {
      var h :| h in Content(s, ids[0]) && Leads(s, h, ids[1..], g);
      assert ids[0] in ids;
      assert CleanCohort(s, ids[0], aggregation, seen);
      NewlyReachedIsUsable(s, h, ids[1..], g, aggregation, visited, seen);
    }
  }

  lemma ConditionIsExact(s: Scope, flag: Flag, i: nat, visited: set<string>)
    requires i < |flag.conditions| && VisitedMeansEntered(s, flag, i, visited)
    ensures NewlyUnusable(s, flag, i) <==>
              ScanAll(s, flag.conditions[i].filters, EffectiveAggregation(flag, flag.conditions[i]), visited).0
  {
    var fs, a := flag.conditions[i].filters, EffectiveAggregation(flag, flag.conditions[i]);
    var r := ScanAll(s, fs, a, visited);
    if r.0 {
      var f, ids, g := ScanAllFinds(s, fs, a, visited);
    } else if NewlyUnusable(s, flag, i) {
      ScanAllClears(s, fs, a, visited);
      var f, ids, g :|
        && f in flag.conditions[i].filters && Leads(s, f, ids, g)
        && Unusable(s, g, EffectiveAggregation(flag, flag.conditions[i]))
        && forall id :: id in ids ==> !EnteredBefore(s, flag, i, id);
      NewlyReachedIsUsable(s, f, ids, g, a, visited, r.1);
    }
  }

  lemma {:induction false} ScanFromIsExact(s: Scope, flag: Flag, i: nat, visited: set<string>)
    requires i <= |flag.conditions| && VisitedMeansEntered(s, flag, i, visited) && Closed(s, visited)
    ensures ScanConditions(s, flag, i, visited) <==>
              exists k :: i <= k < |flag.conditions| && NewlyUnusable(s, flag, k)
    decreases |flag.conditions| - i
  {
    if i < |flag.conditions| {
      ConditionIsExact(s, flag, i, visited);
      var r := ScanAll(s, flag.conditions[i].filters, EffectiveAggregation(flag, flag.conditions[i]), visited);
      if r.0 {
        assert NewlyUnusable(s, flag, i);
      } else {
        ConditionVisits(s, flag, i, visited);
        ScanFromIsExact(s, flag, i + 1, r.1);
        assert ScanConditions(s, flag, i, visited) == ScanConditions(s, flag, i + 1, r.1);
        if k :| i <= k < |flag.conditions| && NewlyUnusable(s, flag, k) {
          assert k != i;
        }
      }
    }
  }

  /**
   * For a whole flag the scan reports an unsupported definition exactly when
   * some condition reaches an unusable filter without entering a cohort that an
   * earlier condition enters: a cohort is checked only for the first
   * aggregation that meets it.
   */
  lemma FlagScanIsExact(s: Scope, flag: Flag)
    ensures ScanConditions(s, flag, 0, {}) <==>
              exists k :: 0 <= k < |flag.conditions| && NewlyUnusable(s, flag, k)
  {
    ScanFromIsExact(s, flag, 0, {});
  }

  lemma {:induction false} ReachesJoins(s: Scope, f: Filter, ids: seq<string>, e: Filter, g: Filter)
    requires Leads(s, f, ids, e) && Reaches(s, e, g)
    ensures Reaches(s, f, g)
    decreases |ids|
  {
    if |ids| > 0 {
      var h :| h in Content(s, ids[0]) && Leads(s, h, ids[1..], e);
      ReachesJoins(s, h, ids[1..], e, g);
      ReachesThrough(s, f, h, g);
    }
  }

  /** Any filter naming a cohort on the way leads to the same end. */
  lemma {:induction false} FromMidway(s: Scope, f: Filter, ids: seq<string>, g: Filter, id: string, e: Filter)
    requires Leads(s, f, ids, g) && id in ids && NamesCohort(s, e) && CohortId(s, e) == id
    ensures Reaches(s, e, g)
    decreases |ids|
  {
    var h :| h in Content(s, ids[0]) && Leads(s, h, ids[1..], g);
    if ids[0] == id {
      assert Reaches(s, h, g);
      ReachesThrough(s, e, h, g);
    } else {
      FromMidway(s, h, ids[1..], g, id, e);
    }
  }

  ghost predicate OneAggregation(flag: Flag, aggregation: Option<nat>) {
    forall i :: 0 <= i < |flag.conditions| ==> EffectiveAggregation(flag, flag.conditions[i]) == aggregation
  }

  lemma {:induction false} SomeNewlyUnusable(
      s: Scope, flag: Flag, aggregation: Option<nat>, k: nat, g: Filter) returns (n: nat)
    requires OneAggregation(flag, aggregation) && k < |flag.conditions|
    requires SomeReaches(s, flag.conditions[k].filters, g) && Unusable(s, g, aggregation)
    ensures n < |flag.conditions| && NewlyUnusable(s, flag, n)
    decreases k
  {
    var f :| f in flag.conditions[k].filters && Reaches(s, f, g);
    var ids :| Leads(s, f, ids, g);
    if forall id :: id in ids ==> !EnteredBefore(s, flag, k, id) {
      n := k;
    } else {
      var id :| id in ids && EnteredBefore(s, flag, k, id);
      var j :| 0 <= j < k && Enters(s, flag.conditions[j].filters, id);
      var e :| SomeReaches(s, flag.conditions[j].filters, e) && NamesCohort(s, e) && CohortId(s, e) == id;
      FromMidway(s, f, ids, g, id, e);
      var h :| h in flag.conditions[j].filters && Reaches(s, h, e);
      var way :| Leads(s, h, way, e);
      ReachesJoins(s, h, way, e, g);
      n := SomeNewlyUnusable(s, flag, aggregation, j, g);
    }
  }

  /** When all conditions have one aggregation, the scan of the flag is exact. */
  lemma OneAggregationScanIsExact(s: Scope, flag: Flag, aggregation: Option<nat>)
    requires OneAggregation(flag, aggregation)
    ensures ScanConditions(s, flag, 0, {}) <==>
              exists k, g :: 0 <= k < |flag.conditions|
                && SomeReaches(s, flag.conditions[k].filters, g) && Unusable(s, g, aggregation)
  {
    FlagScanIsExact(s, flag);
    if ScanConditions(s, flag, 0, {}) {
      var k :| 0 <= k < |flag.conditions| && NewlyUnusable(s, flag, k);
      var f, ids, g :|
        && f in flag.conditions[k].filters && Leads(s, f, ids, g)
        && Unusable(s, g, EffectiveAggregation(flag, flag.conditions[k]))
        && forall id :: id in ids ==> !EnteredBefore(s, flag, k, id);
      assert Reaches(s, f, g);
      assert SomeReaches(s, flag.conditions[k].filters, g);
    } else if exists k, g :: 0 <= k < |flag.conditions|
                && SomeReaches(s, flag.conditions[k].filters, g) && Unusable(s, g, aggregation) {
      var k, g :| 0 <= k < |flag.conditions|
                && SomeReaches(s, flag.conditions[k].filters, g) && Unusable(s, g, aggregation);
      var n := SomeNewlyUnusable(s, flag, aggregation, k, g);
    }
  }

  // A cohort holding a dependency on a person flag, met by a person condition and then by a group condition.

  const DEPENDS_ON_PERSON := Filter("d", "flag_evaluates_to", Bool(true), "flag", false, Some(["d"]))
  const IN_COHORT := Filter("id", "in", Str("c"), "cohort", false, None)
  const PERSON_FLAG := Flag("d", true, false, None, [], false, [], None, false)
  const MIXED_FLAG := Flag("f", true, false, None,
                          [Condition([IN_COHORT], None, None, None), Condition([IN_COHORT], None, None, Some(0))],
                          false, [], None, false)

  function MixedScope(o: Oracle): Scope {
    Scope(o, Definitions(map["d" := PERSON_FLAG], map["c" := Group("AND", [Single(DEPENDS_ON_PERSON)])], map[], 1))
  }

  lemma MixedContent(o: Oracle)
    requires o.text(Str("c")) == "c"
    ensures var s := MixedScope(o);
            NamesCohort(s, IN_COHORT) && CohortId(s, IN_COHORT) == "c" && Content(s, "c") == [DEPENDS_ON_PERSON]
  {
    var es := [Single(DEPENDS_ON_PERSON)];
    assert es[1..] == [];
    assert FiltersIn(es) == FiltersOf(es[0]) + FiltersIn([]);
  }

  lemma DependencyUsable(o: Oracle)
    ensures !Unusable(MixedScope(o), DEPENDS_ON_PERSON, None)
    ensures Unusable(MixedScope(o), DEPENDS_ON_PERSON, Some(0))
  {
    var chain := ["d"];
    assert chain[1..] == [];
    assert ChainError(chain[1..], MixedScope(o).defs.flags, None) == None;
  }

  lemma ScanOne(s: Scope, f: Filter, aggregation: Option<nat>, visited: set<string>)
    ensures ScanAll(s, [f], aggregation, visited) == ScanFilter(s, f, aggregation, visited)
  {
    var fs := [f];
    var first := ScanFilter(s, fs[0], aggregation, visited);
    assert fs[1..] == [];
    assert ScanAll(s, [], aggregation, first.1) == (false, first.1);
  }

  lemma MixedFirst(o: Oracle)
    requires o.text(Str("c")) == "c"
    ensures ScanFilter(MixedScope(o), IN_COHORT, None, {}) == (false, {"c"})
  {
    var s := MixedScope(o);
    MixedContent(o);
    DependencyUsable(o);
    ScanOne(s, DEPENDS_ON_PERSON, None, {"c"});
    assert ScanFilter(s, DEPENDS_ON_PERSON, None, {"c"}) == (false, {"c"});
    assert {} + {"c"} == {"c"};
  }

  lemma {:induction false} ScanConditionsStep(
      s: Scope, flag: Flag, i: nat, f: Filter, visited: set<string>, seen: set<string>)
    requires i < |flag.conditions| && flag.conditions[i].filters == [f]
    requires ScanFilter(s, f, EffectiveAggregation(flag, flag.conditions[i]), visited) == (false, seen)
    ensures ScanConditions(s, flag, i, visited) == ScanConditions(s, flag, i + 1, seen)
  {
    ScanOne(s, f, EffectiveAggregation(flag, flag.conditions[i]), visited);
  }

  /** With several aggregations the scan can miss an unusable filter that its flag reaches. */
  lemma MixedAggregationsExample(o: Oracle)
    requires o.text(Str("c")) == "c"
    ensures !ScanConditions(MixedScope(o), MIXED_FLAG, 0, {})
    ensures SomeReaches(MixedScope(o), MIXED_FLAG.conditions[1].filters, DEPENDS_ON_PERSON)
    ensures Unusable(MixedScope(o), DEPENDS_ON_PERSON, EffectiveAggregation(MIXED_FLAG, MIXED_FLAG.conditions[1]))
  {
    var s := MixedScope(o);
    MixedContent(o);
    DependencyUsable(o);
    assert SomeReaches(s, [IN_COHORT], DEPENDS_ON_PERSON) by {
      ReachesItself(s, DEPENDS_ON_PERSON);
      ReachesThrough(s, IN_COHORT, DEPENDS_ON_PERSON, DEPENDS_ON_PERSON);
      assert IN_COHORT in [IN_COHORT];
    }
    MixedFirst(o);
    ScanConditionsStep(s, MIXED_FLAG, 0, IN_COHORT, {}, {"c"});
    ScanConditionsStep(s, MIXED_FLAG, 1, IN_COHORT, {"c"}, {"c"});
  }

  // ------------------------------------------------------------ the scan as it runs

  lemma {:induction false} ScanJoins(
      s: Scope, a: seq<Filter>, b: seq<Filter>, aggregation: Option<nat>, visited: set<string>)
    ensures ScanAll(s, a + b, aggregation, visited) ==
            var r := ScanAll(s, a, aggregation, visited);
            if r.0 then r else ScanAll(s, b, aggregation, r.1)
    decreases |a|
  {
    if |a| == 0 {
      assert a + b == b;
    } else {
      var first := ScanFilter(s, a[0], aggregation, visited);
      assert (a + b)[0] == a[0] && (a + b)[1..] == a[1..] + b;
      if !first.0 {
        ScanJoins(s, a[1..], b, aggregation, first.1);
      }
    }
  }

  lemma ScanNone(s: Scope, aggregation: Option<nat>, visited: set<string>)
    ensures ScanAll(s, [], aggregation, visited) == (false, visited)
  {
  }

  /** The map of visited cohorts that the recursion shares. */
  class Visits {
    var ids: set<string>

    constructor ()
      ensures ids == {}
    {
      ids := {};
    }
  }

  method IsUnsupportedProperty(
      s: Scope, f: Filter, aggregation: Option<nat>, visits: Visits) returns (unsupported: bool)
    modifies visits
    ensures (unsupported, visits.ids) == ScanFilter(s, f, aggregation, old(visits.ids))
    decreases Unvisited(s, visits.ids), 0
  {
    if f.kind == "flag" {
      return DependencyError(f, s.defs.flags, aggregation).Some?;
    }
    if f.kind == "cohort" {
      var id := CohortId(s, f);
      if id !in s.defs.cohorts {
        return true;
      }
      if id in visits.ids {
        return false;
      }
      FewerUnvisited(s, visits.ids, id);
      visits.ids := visits.ids + {id};
      unsupported := IsUnsupportedPropertyGroup(s, s.defs.cohorts[id], aggregation, visits);
      return;
    }
    return DefinitionError(s.oracle, f, s.defs.version);
  }

  /** One entry of a group: a nested group, a filter, or nothing. */
  method IsUnsupportedEntry(s: Scope, e: Entry, aggregation: Option<nat>, visits: Visits) returns (unsupported: bool)
    modifies visits
    ensures (unsupported, visits.ids) == ScanAll(s, FiltersOf(e), aggregation, old(visits.ids))
    decreases Unvisited(s, visits.ids), 1, e
  {
    match e {
      case Junk =>
        ScanNone(s, aggregation, visits.ids);
        return false;
      case Nested(inner) =>
        unsupported := IsUnsupportedPropertyGroup(s, inner, aggregation, visits);
      case Single(f) =>
        ScanOne(s, f, aggregation, visits.ids);
        unsupported := IsUnsupportedProperty(s, f, aggregation, visits);
    }
  }

  lemma EntryScanned(s: Scope, es: seq<Entry>, i: nat, aggregation: Option<nat>, visited: set<string>)
    requires i < |es|
    ensures ScanAll(s, FiltersIn(es[i..]), aggregation, visited) ==
            var r := ScanAll(s, FiltersOf(es[i]), aggregation, visited);
            if r.0 then r else ScanAll(s, FiltersIn(es[i + 1..]), aggregation, r.1)
  {
    assert es[i..][0] == es[i] && es[i..][1..] == es[i + 1..];
    ScanJoins(s, FiltersOf(es[i]), FiltersIn(es[i + 1..]), aggregation, visited);
  }

  /** The recursion through nested groups is the scan of the group's filters in order. */
  method IsUnsupportedPropertyGroup(
      s: Scope, g: Group, aggregation: Option<nat>, visits: Visits) returns (unsupported: bool)
    modifies visits
    ensures (unsupported, visits.ids) == ScanAll(s, FiltersIn(g.entries), aggregation, old(visits.ids))
    decreases Unvisited(s, visits.ids), 1, g
  {
    assert g.entries[0..] == g.entries;
    var i := 0;
    while i < |g.entries|
      invariant i <= |g.entries|
      invariant old(visits.ids) <= visits.ids
      invariant ScanAll(s, FiltersIn(g.entries), aggregation, old(visits.ids))
             == ScanAll(s, FiltersIn(g.entries[i..]), aggregation, visits.ids)
    {
      NoMoreUnvisited(s, old(visits.ids), visits.ids);
      EntryScanned(s, g.entries, i, aggregation, visits.ids);
      unsupported := IsUnsupportedEntry(s, g.entries[i], aggregation, visits);
      if unsupported {
        return true;
      }
      i := i + 1;
    }
    return false;
  }

  /** The loop over the filters of one condition. */
  method AnyUnsupported(s: Scope, fs: seq<Filter>, aggregation: Option<nat>, visits: Visits) returns (unsupported: bool)
    modifies visits
    ensures (unsupported, visits.ids) == ScanAll(s, fs, aggregation, old(visits.ids))
  {
    var j := 0;
    while j < |fs|
      invariant j <= |fs|
      invariant ScanAll(s, fs, aggregation, old(visits.ids)) == ScanAll(s, fs[j..], aggregation, visits.ids)
    {
      unsupported := IsUnsupportedProperty(s, fs[j], aggregation, visits);
      assert fs[j..][1..] == fs[j + 1..];
      if unsupported {
        return true;
      }
      j := j + 1;
    }
    return false;
  }

  lemma ConditionScanned(s: Scope, flag: Flag, i: nat, visited: set<string>)
    requires i < |flag.conditions|
    ensures var c := flag.conditions[i];
            var r := ScanAll(s, c.filters, EffectiveAggregation(flag, c), visited);
            ScanConditions(s, flag, i, visited) == (r.0 || ScanConditions(s, flag, i + 1, r.1))
  {
  }

  /** The loop over a flag's conditions. */
  method AnyConditionUnsupported(s: Scope, flag: Flag, visits: Visits) returns (unsupported: bool)
    modifies visits
    ensures unsupported == ScanConditions(s, flag, 0, old(visits.ids))
  {
    var i := 0;
    while i < |flag.conditions|
      invariant i <= |flag.conditions|
      invariant ScanConditions(s, flag, 0, old(visits.ids)) == ScanConditions(s, flag, i, visits.ids)
    {
      var c := flag.conditions[i];
      ConditionScanned(s, flag, i, visits.ids);
      unsupported := AnyUnsupported(s, c.filters, EffectiveAggregation(flag, c), visits);
      if unsupported {
        return true;
      }
      i := i + 1;
    }
    return false;
  }

  /** definitionUnresolvedReason */
  method DefinitionUnresolvedReason(s: Scope, flag: Flag) returns (reason: Option<Reason>)
    ensures reason == DefinitionReason(s, flag)
  {
    if !flag.active {
      return None;
    }
    if flag.continuity {
      return Some(ExperienceContinuity);
    }
    var visits := new Visits();
    var unsupported := AnyConditionUnsupported(s, flag, visits);
    return if unsupported then Some(UnsupportedDefinition) else None;
  }
}
