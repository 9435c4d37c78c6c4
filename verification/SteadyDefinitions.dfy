// For which definitions, as a whole, the cache of dependency results never shows.

module SteadyDefinitions {

  import opened Wrappers
  import opened Reasons
  import opened Folding
  import opened FlagFolding
  import opened Filters
  import opened Definitions
  import opened CohortScan
  import opened Bucketing
  import opened Evaluator
  import opened Acyclic
  import opened DependencyCache
  import opened Uncached
  import opened Steadiness
  import opened CacheTransparency
  import opened FilterOrder

  /** The filter stands in a condition of a flag, or in a cohort, of rank n. */
  ghost predicate LoadedAt(w: World, rk: Ranks, f: Filter, n: nat) {
    || (exists key, i :: Evaluable(w, key) && rk.flags(key) == n
                           && 0 <= i < |w.Flags()[key].conditions| && f in w.Flags()[key].conditions[i].filters)
    || (exists id :: id in w.Cohorts() && rk.cohorts(id) == n && f in FiltersIn(w.Cohorts()[id].entries))
  }

  lemma LoadedIsBelow(w: World, rk: Ranks, f: Filter, n: nat)
    requires WellRanked(w, rk) && LoadedAt(w, rk, f, n)
    ensures FilterBelow(w, rk, f, n)
  {
    if id :| id in w.Cohorts() && rk.cohorts(id) == n && f in FiltersIn(w.Cohorts()[id].entries) {
      var fs := FiltersIn(w.Cohorts()[id].entries);
      EntriesBelow(w, rk, w.Cohorts()[id].entries, n);
      assert GroupBelow(w, rk, w.Cohorts()[id], n) && FiltersBelow(w, rk, fs, n);
      var k :| 0 <= k < |fs| && fs[k] == f;
    } else {
      var key, i :| Evaluable(w, key) && rk.flags(key) == n
                      && 0 <= i < |w.Flags()[key].conditions| && f in w.Flags()[key].conditions[i].filters;
      assert FiltersBelow(w, rk, w.Flags()[key].conditions[i].filters, n);
    }
  }

  /** Whatever truthful cache it meets, the filter comes to what it comes to without one. */
  ghost predicate Unaffected(
      w: World, rk: Ranks, home: Homes, f: Filter, n: nat, aggregation: Option<nat>, m: Memo)
    requires WellRanked(w, rk)
  {
    f.kind == "flag" && FilterBelow(w, rk, f, n) && Faithful(w, rk, home, m) ==>
      MatchDependency(w, rk, n, f, home(aggregation), aggregation, m).0
      == PlainDependency(w, rk, n, f, home(aggregation), aggregation)
  }

  /** No dependency that is loaded below rank n is affected by the cache. */
  ghost predicate AllUnaffected(w: World, rk: Ranks, home: Homes, n: nat)
    requires WellRanked(w, rk)
  {
    forall f: Filter, k: nat, aggregation: Option<nat>, m: Memo ::
      k < n && LoadedAt(w, rk, f, k) ==> Unaffected(w, rk, home, f, k, aggregation, m)
  }

  lemma RankIsSteady(w: World, rk: Ranks, home: Homes, n: nat, f: Filter)
    requires WellRanked(w, rk) && (forall aggregation :: Grounded(home(aggregation), aggregation))
    requires AllApt(w, rk, n, Fresh(w, rk, home), true) && AllUnaffected(w, rk, home, n + 1) && LoadedAt(w, rk, f, n)
    ensures Steady(Fresh(w, rk, home), w.Flags(), f)
  {
    if UsableChain(w.Flags(), f) {
      var aggregation :| DependencyError(f, w.Flags(), aggregation).None?;
      LoadedIsBelow(w, rk, f, n);
      SteadyIff(w, rk, home, n, f, aggregation);
      forall m | Faithful(w, rk, home, m)
        ensures MatchDependency(w, rk, n, f, home(aggregation), aggregation, m).0
             == PlainDependency(w, rk, n, f, home(aggregation), aggregation)
      {
        assert Unaffected(w, rk, home, f, n, aggregation, m);
      }
    }
  }

  lemma AllAptNext(w: World, rk: Ranks, n: nat, plain: Plain)
    requires AllApt(w, rk, n, plain, true) && forall f :: LoadedAt(w, rk, f, n) ==> Steady(plain, w.Flags(), f)
    ensures AllApt(w, rk, n + 1, plain, true)
  {
    forall key | Evaluable(w, key) && rk.flags(key) == n ensures FlagApt(plain, w.Flags(), true, w.Flags()[key]) {
      var flag := w.Flags()[key];
      forall i, k | 0 <= i < |flag.conditions| && 0 <= k < |flag.conditions[i].filters|
        ensures Apt(plain, w.Flags(), true, flag.conditions[i].filters[k])
      {
        assert flag.conditions[i].filters[k] in w.Flags()[key].conditions[i].filters;
        assert LoadedAt(w, rk, flag.conditions[i].filters[k], n);
      }
    }
    forall id | id in w.Cohorts() && rk.cohorts(id) == n ensures GroupApt(plain, w.Flags(), true, w.Cohorts()[id]) {
      var es := w.Cohorts()[id].entries;
      forall f | f in FiltersIn(es) ensures Apt(plain, w.Flags(), true, f) {
        assert LoadedAt(w, rk, f, n);
      }
      EntriesAptIff(plain, w.Flags(), true, es);
    }
  }

  lemma {:induction false} UnaffectedIsSteady(w: World, rk: Ranks, home: Homes, n: nat)
    requires WellRanked(w, rk) && (forall aggregation :: Grounded(home(aggregation), aggregation))
    requires AllUnaffected(w, rk, home, n)
    ensures AllApt(w, rk, n, Fresh(w, rk, home), true)
    decreases n
  {
    if n > 0 {
      UnaffectedIsSteady(w, rk, home, n - 1);
      forall f | LoadedAt(w, rk, f, n - 1) ensures Steady(Fresh(w, rk, home), w.Flags(), f) {
        RankIsSteady(w, rk, home, n - 1, f);
      }
      AllAptNext(w, rk, n - 1, Fresh(w, rk, home));
    }
  }

  lemma LoadedIsApt(w: World, rk: Ranks, plain: Plain, n: nat, f: Filter, k: nat)
    requires AllApt(w, rk, n, plain, true) && k < n && LoadedAt(w, rk, f, k)
    ensures Steady(plain, w.Flags(), f)
  {
    if id :| id in w.Cohorts() && rk.cohorts(id) == k && f in FiltersIn(w.Cohorts()[id].entries) {
      EntriesAptIff(plain, w.Flags(), true, w.Cohorts()[id].entries);
      assert GroupApt(plain, w.Flags(), true, w.Cohorts()[id]);
      assert Apt(plain, w.Flags(), true, f);
    } else {
      var key, i :| Evaluable(w, key) && rk.flags(key) == k
                      && 0 <= i < |w.Flags()[key].conditions| && f in w.Flags()[key].conditions[i].filters;
      assert FiltersApt(plain, w.Flags(), true, w.Flags()[key].conditions[i].filters);
    }
  }

  lemma SteadyIsUnaffected(w: World, rk: Ranks, home: Homes, n: nat)
    requires WellRanked(w, rk) && (forall aggregation :: Grounded(home(aggregation), aggregation))
    requires AllApt(w, rk, n, Fresh(w, rk, home), true)
    ensures AllUnaffected(w, rk, home, n)
  {
    forall f: Filter, k: nat, aggregation: Option<nat>, m: Memo | k < n && LoadedAt(w, rk, f, k)
      ensures Unaffected(w, rk, home, f, k, aggregation, m)
    {
      LoadedIsApt(w, rk, Fresh(w, rk, home), n, f, k);
      if f.kind == "flag" && FilterBelow(w, rk, f, k) && Faithful(w, rk, home, m) {
        DependencyIsPlain(w, rk, home, true, k, f, aggregation, m);
      }
    }
  }

  /**
   * The loaded filters are all steady if and only if no truthful cache affects
   * any dependency among them: nothing is asked of the definitions but that they
   * have ranks, and of the contexts but that those of groups carry no device.
   */
  lemma DefinitionsSteadyIff(w: World, rk: Ranks, home: Homes, n: nat)
    requires WellRanked(w, rk) && (forall aggregation :: Grounded(home(aggregation), aggregation))
    ensures AllApt(w, rk, n, Fresh(w, rk, home), true) <==> AllUnaffected(w, rk, home, n)
  {
    if AllApt(w, rk, n, Fresh(w, rk, home), true) {
      SteadyIsUnaffected(w, rk, home, n);
    } else if AllUnaffected(w, rk, home, n) {
      UnaffectedIsSteady(w, rk, home, n);
    }
  }
}
