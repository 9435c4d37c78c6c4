// The order of a condition's filters, when the cache of dependency results is
// threaded through them: when it cannot show, and when it does.

module FilterOrder {

  import opened Wrappers
  import opened Reasons
  import opened Folding
  import opened FlagFolding
  import opened Filters
  import opened Definitions
  import opened CohortScan
  import opened Bucketing
  import opened Evaluator
  import opened DependencyCache
  import opened Uncached
  import opened Steadiness
  import opened CacheTransparency

  // ------------------------------------------------------------ filters that are steady

  lemma Without(x: Filter, rest: seq<Filter>, l: seq<Filter>, r: seq<Filter>)
    requires multiset([x] + rest) == multiset(l + ([x] + r))
    ensures multiset(rest) == multiset(l + r)
  {
    assert multiset([x] + rest) == multiset{x} + multiset(rest);
    assert multiset(l + ([x] + r)) == multiset{x} + multiset(l + r);
    Cancel(x, multiset(rest), multiset(l + r));
  }

  lemma Cancel(x: Filter, a: multiset<Filter>, b: multiset<Filter>)
    requires multiset{x} + a == multiset{x} + b
    ensures a == b
  {
    forall y ensures a[y] == b[y] {
      assert (multiset{x} + a)[y] == (multiset{x} + b)[y];
    }
  }

  lemma FindFirst(a: seq<Filter>, b: seq<Filter>) returns (l: seq<Filter>, r: seq<Filter>)
    requires |a| > 0 && multiset(a) == multiset(b)
    ensures b == l + ([a[0]] + r) && a == [a[0]] + a[1..]
  {
    assert a[0] in multiset(b);
    var j :| 0 <= j < |b| && b[j] == a[0];
    l, r := b[..j], b[j + 1..];
  }

  lemma MappedAround(o: Filter -> Outcome, l: seq<Filter>, x: Filter, r: seq<Filter>)
    ensures multiset(Mapped(o, l + ([x] + r))) == multiset([o(x)]) + multiset(Mapped(o, l + r))
  {
    assert Mapped(o, l + ([x] + r)) == Mapped(o, l) + ([o(x)] + Mapped(o, r));
    assert Mapped(o, l + r) == Mapped(o, l) + Mapped(o, r);
  }

  lemma {:induction false} MappedPermutes(o: Filter -> Outcome, a: seq<Filter>, b: seq<Filter>)
    requires multiset(a) == multiset(b)
    ensures multiset(Mapped(o, a)) == multiset(Mapped(o, b))
    decreases |a|
  {
    if |a| == 0 {
      assert |multiset(b)| == 0;
    } else {
      var l, r := FindFirst(a, b);
      Without(a[0], a[1..], l, r);
      MappedPermutes(o, a[1..], l + r);
      MappedAround(o, l, a[0], r);
      MappedAround(o, [], a[0], a[1..]);
      assert [] + a[1..] == a[1..] && [] + ([a[0]] + a[1..]) == a;
    }
  }

  lemma SameFilters(plain: Plain, flags: map<string, Flag>, steady: bool, a: seq<Filter>, b: seq<Filter>)
    requires multiset(a) == multiset(b) && FiltersApt(plain, flags, steady, a)
    ensures FiltersApt(plain, flags, steady, b)
  {
    forall i | 0 <= i < |b| ensures Apt(plain, flags, steady, b[i]) {
      assert b[i] in multiset(a);
    }
  }

  lemma OrderIsPlain(
      w: World, rk: Ranks, home: Homes, steady: bool, n: nat, a: seq<Filter>, b: seq<Filter>,
      aggregation: Option<nat>, m: Memo)
    requires WellRanked(w, rk) && AllApt(w, rk, n, Fresh(w, rk, home), steady) && Faithful(w, rk, home, m)
    requires Grounded(home(aggregation), aggregation) && FiltersBelow(w, rk, a, n) && FiltersBelow(w, rk, b, n)
    requires FiltersApt(Fresh(w, rk, home), w.Flags(), steady, a)
    requires multiset(a) == multiset(b) && Broken !in PlainOutcomes(w, rk, n, a, home(aggregation), aggregation)
    requires Passable(steady, MatchFilters(w, rk, n, a, home(aggregation), aggregation, NO_TALLY, m).1)
    requires Passable(steady, MatchFilters(w, rk, n, b, home(aggregation), aggregation, NO_TALLY, m).1)
    ensures Report(MatchFilters(w, rk, n, a, home(aggregation), aggregation, NO_TALLY, m).0)
         == Report(MatchFilters(w, rk, n, b, home(aggregation), aggregation, NO_TALLY, m).0)
  {
    SameFilters(Fresh(w, rk, home), w.Flags(), steady, a, b);
    FiltersArePlain(w, rk, home, steady, n, a, aggregation, NO_TALLY, m);
    FiltersArePlain(w, rk, home, steady, n, b, aggregation, NO_TALLY, m);
    OutcomesAreMapped(w, rk, n, a, home(aggregation), aggregation);
    OutcomesAreMapped(w, rk, n, b, home(aggregation), aggregation);
    MappedPermutes(Alone(w, rk, n, home(aggregation), aggregation), a, b);
    FilterOrderIsIrrelevant(PlainOutcomes(w, rk, n, a, home(aggregation), aggregation),
                            PlainOutcomes(w, rk, n, b, home(aggregation), aggregation));
  }

  /**
   * Reordering the filters of a condition changes neither its outcome nor the
   * reported reason when they are steady, whatever is left unresolved and
   * whatever the cache already holds.
   */
  lemma FilterOrderThroughCache(
      w: World, rk: Ranks, home: Homes, n: nat, a: seq<Filter>, b: seq<Filter>, aggregation: Option<nat>, m: Memo)
    requires WellRanked(w, rk) && AllApt(w, rk, n, Fresh(w, rk, home), true) && Faithful(w, rk, home, m)
    requires Grounded(home(aggregation), aggregation) && FiltersBelow(w, rk, a, n) && FiltersBelow(w, rk, b, n)
    requires FiltersApt(Fresh(w, rk, home), w.Flags(), true, a)
    requires multiset(a) == multiset(b) && Broken !in PlainOutcomes(w, rk, n, a, home(aggregation), aggregation)
    ensures Report(MatchFilters(w, rk, n, a, home(aggregation), aggregation, NO_TALLY, m).0)
         == Report(MatchFilters(w, rk, n, b, home(aggregation), aggregation, NO_TALLY, m).0)
  {
    OrderIsPlain(w, rk, home, true, n, a, b, aggregation, m);
  }

  /** Nor does it when each chain names its own flag and neither order leaves a dependency unresolved. */
  lemma ResolvedOrderIsPlain(
      w: World, rk: Ranks, home: Homes, n: nat, a: seq<Filter>, b: seq<Filter>, aggregation: Option<nat>, m: Memo)
    requires WellRanked(w, rk) && AllApt(w, rk, n, Fresh(w, rk, home), false) && Faithful(w, rk, home, m)
    requires Grounded(home(aggregation), aggregation) && FiltersBelow(w, rk, a, n) && FiltersBelow(w, rk, b, n)
    requires FiltersApt(Fresh(w, rk, home), w.Flags(), false, a)
    requires multiset(a) == multiset(b) && Broken !in PlainOutcomes(w, rk, n, a, home(aggregation), aggregation)
    requires NoNil(MatchFilters(w, rk, n, a, home(aggregation), aggregation, NO_TALLY, m).1.cache)
    requires NoNil(MatchFilters(w, rk, n, b, home(aggregation), aggregation, NO_TALLY, m).1.cache)
    ensures Report(MatchFilters(w, rk, n, a, home(aggregation), aggregation, NO_TALLY, m).0)
         == Report(MatchFilters(w, rk, n, b, home(aggregation), aggregation, NO_TALLY, m).0)
  {
    OrderIsPlain(w, rk, home, false, n, a, b, aggregation, m);
  }

  // ------------------------------------------------------------ filters that are not

  lemma {:induction false} CachedChainPasses(
      w: World, rk: Ranks, n: nat, chain: seq<string>, ctx: Ctx, m: Memo)
    requires WellRanked(w, rk) && ChainBelow(w, rk, chain, n) && forall i :: 0 <= i < |chain| ==> chain[i] in w.Flags()
    requires forall i :: 0 <= i < |chain| ==> chain[i] in m.cache
    ensures MatchChain(w, rk, n, chain, ctx, m) == (None, m)
    decreases |chain|
  {
    if |chain| > 0 {
      assert chain[0] in m.cache;
      CachedChainPasses(w, rk, n, chain[1..], ctx, m);
    }
  }

  /** An unsteady filter comes to something else once the cache holds what its chain would find. */
  lemma UnsteadyShows(
      w: World, rk: Ranks, home: Homes, n: nat, f: Filter, aggregation: Option<nat>) returns (m: Memo)
    requires WellRanked(w, rk) && AllApt(w, rk, n, Fresh(w, rk, home), true) && FilterBelow(w, rk, f, n) && f.kind == "flag"
    requires Grounded(home(aggregation), aggregation) && DependencyError(f, w.Flags(), aggregation).None?
    requires !Steady(Fresh(w, rk, home), w.Flags(), f)
    ensures Faithful(w, rk, home, m)
    ensures MatchDependency(w, rk, n, f, home(aggregation), aggregation, m).0
         != PlainDependency(w, rk, n, f, home(aggregation), aggregation)
  {
    var plain, flags, ctx, chain := Fresh(w, rk, home), w.Flags(), home(aggregation), f.chain.value;
    m := Memo(Seen(plain, flags, Before(plain, f)), []);
    ChainErrorMeans(chain, flags, aggregation);
    ChainAtHome(w, rk, home, n, chain, aggregation);
    var rs := PlainChain(w, rk, n, chain, ctx);
    if Serverless(plain, chain) {
      forall i | 0 <= i < |chain| ensures chain[i] in m.cache {
        assert chain[i] in Before(plain, f) && !ServerSide(plain, chain[i]);
      }
      CachedChainPasses(w, rk, n, chain, ctx, m);
      LookedDiffers(plain, flags, f, rs);
    } else {
      ChainStops(w, rk, home, true, n, chain, aggregation, m);
      var r := MatchChain(w, rk, n, chain, ctx, m);
      forall i | 0 <= i < |chain| ensures chain[i] in m.cache || ServerSide(plain, chain[i]) {
        assert chain[i] in Before(plain, f);
      }
      ServerEnds(plain, flags, chain, r.0, m.cache, r.1.cache);
      if !MeetsUnsettled(plain, chain) {
        AllValuesIsServerless(plain, chain);
      } else {
        UnsettledEnds(plain, chain, rs);
      }
    }
  }

  lemma AllValuesIsServerless(plain: Plain, chain: seq<string>)
    requires AllValues(plain, chain)
    ensures Serverless(plain, chain)
  {
  }

  /**
   * Steadiness is exactly what it takes: a usable dependency filter comes to the
   * same with every truthful cache, and without one, if and only if it is steady.
   */
  lemma SteadyIff(w: World, rk: Ranks, home: Homes, n: nat, f: Filter, aggregation: Option<nat>)
    requires WellRanked(w, rk) && AllApt(w, rk, n, Fresh(w, rk, home), true) && FilterBelow(w, rk, f, n) && f.kind == "flag"
    requires Grounded(home(aggregation), aggregation) && DependencyError(f, w.Flags(), aggregation).None?
    ensures Steady(Fresh(w, rk, home), w.Flags(), f) <==>
              forall m :: Faithful(w, rk, home, m) ==>
                MatchDependency(w, rk, n, f, home(aggregation), aggregation, m).0
                == PlainDependency(w, rk, n, f, home(aggregation), aggregation)
  {
    if Steady(Fresh(w, rk, home), w.Flags(), f) {
      forall m | Faithful(w, rk, home, m)
        ensures MatchDependency(w, rk, n, f, home(aggregation), aggregation, m).0
             == PlainDependency(w, rk, n, f, home(aggregation), aggregation)
      {
        DependencyIsPlain(w, rk, home, true, n, f, aggregation, m);
      }
    } else {
      var m := UnsteadyShows(w, rk, home, n, f, aggregation);
    }
  }

  /** A filter on the dependency alone. */
  function On(key: string): Filter {
    Filter(key, "flag_evaluates_to", Bool(true), "flag", false, Some([key]))
  }

  lemma InactivePasses(w: World, rk: Ranks, n: nat, chain: seq<string>, ctx: Ctx, m: Memo)
    requires WellRanked(w, rk) && ChainBelow(w, rk, chain, n) && forall i :: 0 <= i < |chain| ==> chain[i] in w.Flags()
    requires |chain| > 0 && !w.Flags()[chain[0]].active
    ensures MatchChain(w, rk, n, chain, ctx, m)
         == MatchChain(w, rk, n, chain[1..], ctx,
                       if chain[0] in m.cache then m else m.Remember(chain[0], Some(Boolean(false))))
  {
  }

  lemma InactiveSkips(
      w: World, rk: Ranks, home: Homes, n: nat, chain: seq<string>, aggregation: Option<nat>, m: Memo)
    returns (q: Memo)
    requires WellRanked(w, rk) && ChainBelow(w, rk, chain, n) && ChainFits(w, chain, aggregation)
    requires Faithful(w, rk, home, m) && |chain| > 0 && !w.Flags()[chain[0]].active
    ensures Faithful(w, rk, home, q) && q.cache.Keys <= m.cache.Keys + {chain[0]}
    ensures MatchChain(w, rk, n, chain, home(aggregation), m) == MatchChain(w, rk, n, chain[1..], home(aggregation), q)
  {
    q := if chain[0] in m.cache then m else m.Remember(chain[0], Some(Boolean(false)));
    UnevaluatedIs(w, rk, home, chain[0]);
    FaithfulRemembers(w, rk, home, m, chain[0], Some(Boolean(false)));
    InactivePasses(w, rk, n, chain, home(aggregation), m);
  }

  lemma UnresolvedEnds(w: World, rk: Ranks, n: nat, chain: seq<string>, ctx: Ctx, m: Memo)
    requires WellRanked(w, rk) && ChainBelow(w, rk, chain, n) && forall i :: 0 <= i < |chain| ==> chain[i] in w.Flags()
    requires |chain| > 0 && chain[0] !in m.cache
    requires MatchMember(w, rk, n, chain[0], ctx, m).0 == Some(UNRESOLVED_CHAIN)
    ensures MatchChain(w, rk, n, chain, ctx, m) == MatchMember(w, rk, n, chain[0], ctx, m)
    ensures chain[0] in MatchMember(w, rk, n, chain[0], ctx, m).1.cache
  {
  }

  /** Member i is the first active one of the chain, and left unresolved. */
  ghost predicate FirstActive(w: World, plain: Plain, chain: seq<string>, i: nat) {
    && i < |chain| && (forall k :: 0 <= k <= i ==> chain[k] in w.Flags())
    && (forall k :: 0 <= k < i ==> !w.Flags()[chain[k]].active)
    && w.Flags()[chain[i]].active && Unsettled(plain, chain[i])
  }

  lemma TailFits(w: World, rk: Ranks, n: nat, chain: seq<string>, aggregation: Option<nat>, plain: Plain, i: nat)
    requires ChainBelow(w, rk, chain, n) && ChainFits(w, chain, aggregation) && FirstActive(w, plain, chain, i) && i > 0
    ensures ChainBelow(w, rk, chain[1..], n) && ChainFits(w, chain[1..], aggregation)
    ensures FirstActive(w, plain, chain[1..], i - 1) && chain[1..][i - 1] == chain[i] && chain[i] != chain[0]
  {
    assert forall k :: 0 <= k < |chain[1..]| ==> chain[1..][k] == chain[k + 1];
  }

  lemma FirstEnds(
      w: World, rk: Ranks, home: Homes, n: nat, chain: seq<string>, aggregation: Option<nat>, m: Memo)
    requires WellRanked(w, rk) && AllApt(w, rk, n, Fresh(w, rk, home), true) && ChainBelow(w, rk, chain, n)
    requires Grounded(home(aggregation), aggregation) && Faithful(w, rk, home, m) && ChainFits(w, chain, aggregation)
    requires |chain| > 0 && Unsettled(Fresh(w, rk, home), chain[0]) && chain[0] !in m.cache
    ensures var r := MatchChain(w, rk, n, chain, home(aggregation), m);
            r.0 == Some(UNRESOLVED_CHAIN) && Faithful(w, rk, home, r.1) && chain[0] in r.1.cache
  {
    MemberIsPlain(w, rk, home, true, n, chain[0], aggregation, m);
    UnresolvedEnds(w, rk, n, chain, home(aggregation), m);
  }

  /** An unresolved dependency met for the first time ends the chain, and is in the cache from then on. */
  lemma {:induction false} FirstActiveEnds(
      w: World, rk: Ranks, home: Homes, n: nat, chain: seq<string>, i: nat, aggregation: Option<nat>, m: Memo)
    requires WellRanked(w, rk) && AllApt(w, rk, n, Fresh(w, rk, home), true) && ChainBelow(w, rk, chain, n)
    requires Grounded(home(aggregation), aggregation) && Faithful(w, rk, home, m) && ChainFits(w, chain, aggregation)
    requires FirstActive(w, Fresh(w, rk, home), chain, i) && chain[i] !in m.cache
    ensures var r := MatchChain(w, rk, n, chain, home(aggregation), m);
            r.0 == Some(UNRESOLVED_CHAIN) && Faithful(w, rk, home, r.1) && chain[i] in r.1.cache
    decreases i
  {
    if i == 0 {
      FirstEnds(w, rk, home, n, chain, aggregation, m);
    } else {
      TailFits(w, rk, n, chain, aggregation, Fresh(w, rk, home), i);
      var q := InactiveSkips(w, rk, home, n, chain, aggregation, m);
      FirstActiveEnds(w, rk, home, n, chain[1..], i - 1, aggregation, q);
    }
  }

  /** The shape in which the order shows: the first active member is unresolved, the rest of the chain is not. */
  ghost predicate HidesUnsettled(plain: Plain, flags: map<string, Flag>, f: Filter, i: nat) {
    && f.kind == "flag" && f.chain.Some? && i < |f.chain.value|
    && Unsettled(plain, f.chain.value[i])
    && (forall k :: 0 <= k < i ==> f.chain.value[k] in flags && !flags[f.chain.value[k]].active)
    && (forall k :: 0 <= k < |f.chain.value| && f.chain.value[k] != f.chain.value[i] ==> plain(f.chain.value[k]).Value?)
    && f.key in f.chain.value && f.key != f.chain.value[i]
    && plain(f.key).Value? && !DependencyMatches(f.value, plain(f.key).value)
  }

  /** Alone, the filter is undecided; once its unresolved member is cached, it is decided. */
  lemma HiddenThenDecided(
      w: World, rk: Ranks, home: Homes, n: nat, f: Filter, i: nat, aggregation: Option<nat>, m: Memo, seen: Memo)
    requires WellRanked(w, rk) && AllApt(w, rk, n, Fresh(w, rk, home), true) && FilterBelow(w, rk, f, n)
    requires Grounded(home(aggregation), aggregation) && HidesUnsettled(Fresh(w, rk, home), w.Flags(), f, i)
    requires DependencyError(f, w.Flags(), aggregation).None?
    requires Faithful(w, rk, home, m) && f.chain.value[i] !in m.cache
    requires Faithful(w, rk, home, seen) && f.chain.value[i] in seen.cache
    ensures var r := MatchFilter(w, rk, n, f, home(aggregation), aggregation, m);
            r.0 == UNRESOLVED_CHAIN && Faithful(w, rk, home, r.1)
    ensures MatchFilter(w, rk, n, f, home(aggregation), aggregation, seen).0 == Decided(false)
  {
    var plain, chain, ctx := Fresh(w, rk, home), f.chain.value, home(aggregation);
    ChainErrorMeans(chain, w.Flags(), aggregation);
    UnevaluatedIs(w, rk, home, chain[i]);
    FirstActiveEnds(w, rk, home, n, chain, i, aggregation, m);
    ChainStops(w, rk, home, true, n, chain, aggregation, seen);
    var r := MatchChain(w, rk, n, chain, ctx, seen);
    HiddenPasses(plain, w.Flags(), f, i, r.0, seen.cache, r.1.cache);
  }

  lemma HiddenPasses(
      plain: Plain, flags: map<string, Flag>, f: Filter, i: nat, error: Option<Outcome>, before: Cache, after: Cache)
    requires HidesUnsettled(plain, flags, f, i) && f.chain.value[i] in before
    requires ChainEnds(plain, flags, f.chain.value, error, before, after)
    ensures error.None? && Looked(f, after) == Decided(false)
  {
    var chain := f.chain.value;
    forall k: nat ensures !StopsAt(plain, chain, k, error, before, after) {
    }
    assert Tells(plain, flags, f.key, after[f.key]);
  }

  /** The filter on an unresolved dependency is undecided, cached or not, and leaves it cached. */
  lemma OnMeans(w: World, rk: Ranks, home: Homes, n: nat, key: string, aggregation: Option<nat>, m: Memo)
    requires WellRanked(w, rk) && AllApt(w, rk, n, Fresh(w, rk, home), true) && FilterBelow(w, rk, On(key), n)
    requires Grounded(home(aggregation), aggregation) && Faithful(w, rk, home, m)
    requires key in w.Flags() && !NeedsOther(w.Flags()[key], aggregation) && Unsettled(Fresh(w, rk, home), key)
    ensures var r := MatchFilter(w, rk, n, On(key), home(aggregation), aggregation, m);
            r.0 == UNRESOLVED_CHAIN && Faithful(w, rk, home, r.1) && key in r.1.cache
  {
    ChainErrorMeans([key], w.Flags(), aggregation);
    if key in m.cache {
      CachedChainPasses(w, rk, n, [key], home(aggregation), m);
      assert Tells(Fresh(w, rk, home), w.Flags(), key, m.cache[key]);
    } else {
      UnevaluatedIs(w, rk, home, key);
      FirstActiveEnds(w, rk, home, n, [key], 0, aggregation, m);
    }
  }

  lemma TwoFilters(
      w: World, rk: Ranks, n: nat, x: Filter, y: Filter, ctx: Ctx, aggregation: Option<nat>, m: Memo)
    requires WellRanked(w, rk) && FiltersBelow(w, rk, [x, y], n) && FilterBelow(w, rk, x, n) && FilterBelow(w, rk, y, n)
    requires MatchFilter(w, rk, n, x, ctx, aggregation, m).0 == UNRESOLVED_CHAIN
    ensures var o := MatchFilter(w, rk, n, y, ctx, aggregation, MatchFilter(w, rk, n, x, ctx, aggregation, m).1).0;
            var r := MatchFilters(w, rk, n, [x, y], ctx, aggregation, NO_TALLY, m).0;
            && (o == Decided(false) ==> r == NoMatch)
            && (o == UNRESOLVED_CHAIN ==> r == Unresolved(UNRESOLVED_CHAIN))
  {
    var q := MatchFilter(w, rk, n, x, ctx, aggregation, m).1;
    var t := Tally(Some(UnresolvedDependency), None);
    assert [x, y][0] == x && [x, y][1..] == [y] && [y][1..] == [];
    var r := MatchFilter(w, rk, n, y, ctx, aggregation, q);
    assert MatchFilters(w, rk, n, [], ctx, aggregation, t, r.1).0 == Unresolved(UNRESOLVED_CHAIN);
    assert MatchFilters(w, rk, n, [x, y], ctx, aggregation, NO_TALLY, m) == MatchFilters(w, rk, n, [y], ctx, aggregation, t, q);
  }

  /**
   * The order of filters shows whenever a chain's first active member is left
   * unresolved and its own flag is not: with a filter on that member before it
   * the condition is ruled out, with the two exchanged it is undecided.
   */
  lemma OrderShowsWhenHidden(
      w: World, rk: Ranks, home: Homes, n: nat, f: Filter, i: nat, aggregation: Option<nat>, m: Memo)
    requires WellRanked(w, rk) && AllApt(w, rk, n, Fresh(w, rk, home), true) && FilterBelow(w, rk, f, n)
    requires Grounded(home(aggregation), aggregation) && HidesUnsettled(Fresh(w, rk, home), w.Flags(), f, i)
    requires DependencyError(f, w.Flags(), aggregation).None?
    requires Faithful(w, rk, home, m) && f.chain.value[i] !in m.cache
    requires FiltersBelow(w, rk, [On(f.chain.value[i]), f], n) && FiltersBelow(w, rk, [f, On(f.chain.value[i])], n)
    ensures var on := On(f.chain.value[i]);
            && MatchFilters(w, rk, n, [on, f], home(aggregation), aggregation, NO_TALLY, m).0 == NoMatch
            && MatchFilters(w, rk, n, [f, on], home(aggregation), aggregation, NO_TALLY, m).0 == Unresolved(UNRESOLVED_CHAIN)
  {
    var ctx, key := home(aggregation), f.chain.value[i];
    var on := On(key);
    ChainErrorMeans(f.chain.value, w.Flags(), aggregation);
    UnevaluatedIs(w, rk, home, key);
    assert [on, f][0] == on;
    OnMeans(w, rk, home, n, key, aggregation, m);
    HiddenThenDecided(w, rk, home, n, f, i, aggregation, m, MatchFilter(w, rk, n, on, ctx, aggregation, m).1);
    OnMeans(w, rk, home, n, key, aggregation, MatchFilter(w, rk, n, f, ctx, aggregation, m).1);
    TwoFilters(w, rk, n, on, f, ctx, aggregation, m);
    TwoFilters(w, rk, n, f, on, ctx, aggregation, m);
  }

  // A flag with experience continuity, an inactive flag, and a flag that depends on the one and, through it, on the other.

  const KEPT_FLAG := Flag("a", true, true, None, [], false, [], None, false)
  const OFF_FLAG := Flag("b", false, false, None, [], false, [], None, false)
  const ON_OFF := Filter("b", "flag_evaluates_to", Bool(true), "flag", false, Some(["a", "b"]))

  function Asking(fs: seq<Filter>): Flag {
    Flag("c", true, false, None, [Condition(fs, None, None, None)], false, [], None, false)
  }

  function KeptWorld(o: Oracle, digest: Digest, number: Value -> string, fs: seq<Filter>): World {
    var flags := map["a" := KEPT_FLAG, "b" := OFF_FLAG, "c" := Asking(fs)];
    World(Scope(o, Definitions(flags, map[], map[], 1)), digest, number)
  }

  const ALL_ZERO := Ranks(_ => 0, _ => 0)

  /** The definitions of the example, the filters in either order. */
  ghost predicate IsKept(w: World, fs: seq<Filter>) {
    && w == KeptWorld(w.scope.oracle, w.digest, w.number, fs)
    && (fs == [On("a"), ON_OFF] || fs == [ON_OFF, On("a")])
  }

  lemma KeptIsRanked(w: World, fs: seq<Filter>)
    requires IsKept(w, fs)
    ensures FiltersBelow(w, ALL_ZERO, fs, 0) && WellRanked(w, ALL_ZERO) && FlagBelow(w, ALL_ZERO, Asking(fs), 0)
  {
    assert FiltersBelow(w, ALL_ZERO, fs, 0);
    assert FlagBelow(w, ALL_ZERO, Asking(fs), 0);
  }

  /** The one condition of the flag is placed where the flag is. */
  lemma AskingCondition(w: World, fs: seq<Filter>, ctx: Ctx, groups: Groups, m: Memo)
    requires IsKept(w, fs) && WellRanked(w, ALL_ZERO) && FiltersBelow(w, ALL_ZERO, fs, 0)
    ensures MatchCondition(w, ALL_ZERO, 0, Asking(fs), Asking(fs).conditions[0], ctx, groups, m).0.result
         == Rolled(MatchFilters(w, ALL_ZERO, 0, fs, ctx, None, NO_TALLY, m).0, true)
  {
  }

  /** What the flag comes to is what its filters do. */
  lemma AskingIs(w: World, fs: seq<Filter>, ctx: Ctx, groups: Groups, m: Memo)
    requires IsKept(w, fs) && WellRanked(w, ALL_ZERO) && FlagBelow(w, ALL_ZERO, Asking(fs), 0)
    requires FiltersBelow(w, ALL_ZERO, fs, 0)
    ensures var r := MatchFilters(w, ALL_ZERO, 0, fs, ctx, None, NO_TALLY, m).0;
            var answer := MatchFlag(w, ALL_ZERO, 0, Asking(fs), ctx, groups, m).0;
            && (r == NoMatch ==> answer == Value(Boolean(false)))
            && (r == Unresolved(UNRESOLVED_CHAIN) ==> answer == Error(UNRESOLVED_CHAIN))
  {
    AskingCondition(w, fs, ctx, groups, m);
    ConditionsStep(w, ALL_ZERO, 0, Asking(fs), 0, ctx, groups, None, m);
    UnheldFlag(w, ALL_ZERO, 0, Asking(fs), ctx, groups, m);
  }

  lemma UnheldFlag(w: World, rk: Ranks, n: nat, flag: Flag, ctx: Ctx, groups: Groups, m: Memo)
    requires WellRanked(w, rk) && FlagBelow(w, rk, flag, n) && flag.holdout.None?
    ensures MatchFlag(w, rk, n, flag, ctx, groups, m) == MatchConditions(w, rk, n, flag, 0, ctx, groups, None, m)
  {
  }

  lemma KeptHides(plain: Plain, flags: map<string, Flag>)
    requires plain("a") == Error(UNRESOLVED_CHAIN) && plain("b") == Value(Boolean(false))
    ensures HidesUnsettled(plain, flags, ON_OFF, 0)
  {
    var chain := ["a", "b"];
    assert chain[0] == "a" && chain[1] == "b";
  }

  lemma KeptUsable(w: World, fs: seq<Filter>)
    requires IsKept(w, fs)
    ensures DependencyError(ON_OFF, w.Flags(), None).None?
  {
    ChainErrorMeans(["a", "b"], w.Flags(), None);
  }

  lemma KeptReports(w: World, fs: seq<Filter>, ctx: Ctx)
    requires IsKept(w, fs) && WellRanked(w, ALL_ZERO) && FiltersBelow(w, ALL_ZERO, fs, 0)
    ensures MatchFilters(w, ALL_ZERO, 0, fs, ctx, None, NO_TALLY, Memo(map[], [])).0
         == if fs == [ON_OFF, On("a")] then Unresolved(UNRESOLVED_CHAIN) else NoMatch
  {
    var home: Homes := _ => ctx;
    var plain := Fresh(w, ALL_ZERO, home);
    PairsBelow(w, fs);
    KeptUsable(w, fs);
    UnevaluatedIs(w, ALL_ZERO, home, "a");
    UnevaluatedIs(w, ALL_ZERO, home, "b");
    KeptHides(plain, w.Flags());
    OrderShowsWhenHidden(w, ALL_ZERO, home, 0, ON_OFF, 0, None, Memo(map[], []));
    assert ["a", "b"][0] == "a" && [On("a"), ON_OFF][0] != [ON_OFF, On("a")][0];
  }

  lemma PairsBelow(w: World, fs: seq<Filter>)
    requires IsKept(w, fs) && FiltersBelow(w, ALL_ZERO, fs, 0)
    ensures FilterBelow(w, ALL_ZERO, ON_OFF, 0)
    ensures FiltersBelow(w, ALL_ZERO, [On("a"), ON_OFF], 0) && FiltersBelow(w, ALL_ZERO, [ON_OFF, On("a")], 0)
  {
    assert FilterBelow(w, ALL_ZERO, fs[0], 0) && FilterBelow(w, ALL_ZERO, fs[1], 0);
  }

  lemma CallIs(w: World, fs: seq<Filter>, call: Call)
    requires IsKept(w, fs)
    ensures WellRanked(w, ALL_ZERO) && FlagBelow(w, ALL_ZERO, w.Flags()["c"], 0)
    ensures ComputeFlagLocally(w, ALL_ZERO, 0, w.Flags()["c"], call).0
         == if fs == [ON_OFF, On("a")] then Error(UNRESOLVED_CHAIN) else Value(Boolean(false))
  {
    KeptIsRanked(w, fs);
    var ctx := SubjectOf(w, Asking(fs), call).ctx;
    KeptReports(w, fs, ctx);
    AskingIs(w, fs, ctx, call.groups, Memo(map[], []));
  }

  /**
   * Two definitions that differ only in the order of a flag's two filters, and
   * anyone's call for that flag: with one it is off, with the other unresolved.
   */
  lemma OrderShowsThroughCache(w: World, v: World, call: Call)
    requires IsKept(w, [On("a"), ON_OFF]) && IsKept(v, [ON_OFF, On("a")])
    ensures WellRanked(w, ALL_ZERO) && FlagBelow(w, ALL_ZERO, w.Flags()["c"], 0)
    ensures WellRanked(v, ALL_ZERO) && FlagBelow(v, ALL_ZERO, v.Flags()["c"], 0)
    ensures ComputeFlagLocally(w, ALL_ZERO, 0, w.Flags()["c"], call).0 == Value(Boolean(false))
    ensures ComputeFlagLocally(v, ALL_ZERO, 0, v.Flags()["c"], call).0 == Error(UNRESOLVED_CHAIN)
  {
    CallIs(w, [On("a"), ON_OFF], call);
    CallIs(v, [ON_OFF, On("a")], call);
    assert [On("a"), ON_OFF][0] != [ON_OFF, On("a")][0];
  }
}
