// Exactly which dependency filters can have their place among a condition's
// filters show through the cache.

module OrderExactness {

  import opened Wrappers
  import opened Reasons
  import opened Folding
  import opened FlagFolding
  import opened Filters
  import opened Definitions
  import opened CohortScan
  import opened Bucketing
  import opened Evaluator
  import opened DependencyCache
  import opened Uncached
  import opened Steadiness
  import opened CacheTransparency
  import opened FilterOrder

  /**
   * Steady, or unsteady in a way a condition does not report: a chain that needs
   * the server is undecided for the same reason as one that is unresolved.
   */
  ghost predicate Undisturbed(plain: Plain, flags: map<string, Flag>, f: Filter) {
    Steady(plain, flags, f) ||
    (&& f.chain.Some? && f.key in f.chain.value
     && (MeetsUnsettled(plain, f.chain.value) && Serverless(plain, f.chain.value) ==> Unsettled(plain, f.key)))
  }

  ghost predicate FiltersUndisturbed(plain: Plain, flags: map<string, Flag>, fs: seq<Filter>) {
    forall i :: 0 <= i < |fs| ==> Undisturbed(plain, flags, fs[i])
  }

  // ------------------------------------------------------------ outcomes that are reported alike

  predicate ChainTrouble(o: Outcome) {
    o == UNRESOLVED_CHAIN || o == SERVER_CHAIN
  }

  predicate Like(o: Outcome, p: Outcome) {
    o == p || (ChainTrouble(o) && ChainTrouble(p))
  }

  predicate LikeTally(t: Tally, u: Tally) {
    t.reason == u.reason && TallyOk(t) && TallyOk(u)
  }

  lemma LikeCloses(t: Tally, u: Tally)
    requires LikeTally(t, u)
    ensures Report(CloseFilters(t)) == Report(CloseFilters(u))
  {
    CloseReports(t);
    CloseReports(u);
  }

  /** What is reported at the end is the tally's reason. */
  lemma CloseReports(t: Tally)
    requires TallyOk(t)
    ensures Report(CloseFilters(t)) == if t.reason.None? then DecidedMatch else Undecided(t.reason)
  {
    if t.server.Some? {
      var own := Named(t.server.value);
      PickIsMinimum(t.reason, own);
      RanksAreDistinct(Pick(t.reason, ReasonOf(t.server.value)), t.reason.value);
    }
  }

  lemma LikeSteps(t: Tally, u: Tally, o: Outcome, p: Outcome)
    requires LikeTally(t, u) && Like(o, p) && !p.Broken?
    ensures match AddFilter(t, o)
            case Stop(r) => AddFilter(u, p) == Stop(r)
            case Go(next) => AddFilter(u, p).Go? && LikeTally(next, AddFilter(u, p).tally)
  {
    if Unchecked(o) {
      PickIsMinimum(t.reason, Named(o));
      PickIsMinimum(u.reason, Named(p));
    }
  }

  // ------------------------------------------------------------ undisturbed filters

  lemma CachedIsServerless(plain: Plain, flags: map<string, Flag>, chain: seq<string>, cache: Cache)
    requires Truthful(plain, flags, cache) && forall i :: 0 <= i < |chain| ==> chain[i] in cache
    ensures Serverless(plain, chain)
  {
    forall i | 0 <= i < |chain| ensures !ServerSide(plain, chain[i]) {
      assert Tells(plain, flags, chain[i], cache[chain[i]]);
    }
  }

  lemma StoppedIsLike(
      plain: Plain, chain: seq<string>, rs: seq<FlagResult>, i: nat, error: Option<Outcome>, before: Cache, after: Cache)
    requires |rs| == |chain| && forall k :: 0 <= k < |rs| ==> rs[k] == plain(chain[k])
    requires StopsAt(plain, chain, i, error, before, after)
    ensures ChainTrouble(error.value) && FirstError(rs).Some? && ChainTrouble(FirstError(rs).value)
  {
    var j := FirstErrorMeans(rs);
    assert rs[i] == plain(chain[i]);
  }

  lemma DependencyIsLike(
      w: World, rk: Ranks, home: Homes, n: nat, f: Filter, aggregation: Option<nat>, m: Memo)
    requires WellRanked(w, rk) && AllApt(w, rk, n, Fresh(w, rk, home), true) && f.kind == "flag" && FilterBelow(w, rk, f, n)
    requires Undisturbed(Fresh(w, rk, home), w.Flags(), f)
    requires Grounded(home(aggregation), aggregation) && Faithful(w, rk, home, m)
    ensures var r := MatchDependency(w, rk, n, f, home(aggregation), aggregation, m);
            && Like(r.0, PlainDependency(w, rk, n, f, home(aggregation), aggregation))
            && Faithful(w, rk, home, r.1)
  {
    var plain, flags := Fresh(w, rk, home), w.Flags();
    if Steady(plain, flags, f) {
      DependencyIsPlain(w, rk, home, true, n, f, aggregation, m);
    } else if DependencyError(f, flags, aggregation).None? {
      var chain := f.chain.value;
      ChainErrorMeans(chain, flags, aggregation);
      ChainStops(w, rk, home, true, n, chain, aggregation, m);
      ChainAtHome(w, rk, home, n, chain, aggregation);
      var r := MatchChain(w, rk, n, chain, home(aggregation), m);
      if r.0.Some? {
        var i: nat :| StopsAt(plain, chain, i, r.0, m.cache, r.1.cache);
        StoppedIsLike(plain, chain, PlainChain(w, rk, n, chain, home(aggregation)), i, r.0, m.cache, r.1.cache);
      } else {
        CachedIsServerless(plain, flags, chain, r.1.cache);
      }
    }
  }

  lemma FilterIsLike(w: World, rk: Ranks, home: Homes, n: nat, f: Filter, aggregation: Option<nat>, m: Memo)
    requires WellRanked(w, rk) && AllApt(w, rk, n, Fresh(w, rk, home), true) && FilterBelow(w, rk, f, n)
    requires Undisturbed(Fresh(w, rk, home), w.Flags(), f)
    requires Grounded(home(aggregation), aggregation) && Faithful(w, rk, home, m)
    ensures var r := MatchFilter(w, rk, n, f, home(aggregation), aggregation, m);
            Like(r.0, PlainFilter(w, rk, n, f, home(aggregation), aggregation)) && Faithful(w, rk, home, r.1)
  {
    if f.kind == "flag" {
      DependencyIsLike(w, rk, home, n, f, aggregation, m);
    } else {
      FilterIsPlain(w, rk, home, true, n, f, aggregation, m);
    }
  }

  lemma {:induction false} FiltersAreLike(
      w: World, rk: Ranks, home: Homes, n: nat, fs: seq<Filter>, aggregation: Option<nat>, t: Tally, u: Tally, m: Memo)
    requires WellRanked(w, rk) && AllApt(w, rk, n, Fresh(w, rk, home), true) && FiltersBelow(w, rk, fs, n)
    requires FiltersUndisturbed(Fresh(w, rk, home), w.Flags(), fs) && LikeTally(t, u)
    requires Grounded(home(aggregation), aggregation) && Faithful(w, rk, home, m)
    requires Broken !in PlainOutcomes(w, rk, n, fs, home(aggregation), aggregation)
    ensures Report(MatchFilters(w, rk, n, fs, home(aggregation), aggregation, t, m).0)
         == Report(FoldFilters(PlainOutcomes(w, rk, n, fs, home(aggregation), aggregation), u))
    decreases |fs|
  {
    var ctx := home(aggregation);
    if |fs| == 0 {
      LikeCloses(t, u);
    } else {
      var r := MatchFilter(w, rk, n, fs[0], ctx, aggregation, m);
      var p := PlainFilter(w, rk, n, fs[0], ctx, aggregation);
      var rest := PlainOutcomes(w, rk, n, fs[1..], ctx, aggregation);
      OutcomesSplit(w, rk, n, fs, ctx, aggregation);
      NotBroken(p, rest);
      FilterIsLike(w, rk, home, n, fs[0], aggregation, m);
      LikeSteps(t, u, r.0, p);
      if AddFilter(t, r.0).Go? {
        FiltersAreLike(w, rk, home, n, fs[1..], aggregation, AddFilter(t, r.0).tally, AddFilter(u, p).tally, r.1);
      }
    }
  }

  lemma NotBroken(p: Outcome, rest: seq<Outcome>)
    requires Broken !in [p] + rest
    ensures p != Broken && Broken !in rest
  {
    assert p in [p] + rest;
    assert forall o :: o in rest ==> o in [p] + rest;
  }

  lemma SameUndisturbed(plain: Plain, flags: map<string, Flag>, a: seq<Filter>, b: seq<Filter>)
    requires multiset(a) == multiset(b) && FiltersUndisturbed(plain, flags, a)
    ensures FiltersUndisturbed(plain, flags, b)
  {
    forall i | 0 <= i < |b| ensures Undisturbed(plain, flags, b[i]) {
      assert b[i] in multiset(a);
    }
  }

  /**
   * Reordering the filters of a condition changes neither its outcome nor the
   * reported reason when they are undisturbed, whatever is left unresolved and
   * whatever the cache already holds.
   */
  lemma UndisturbedOrder(
      w: World, rk: Ranks, home: Homes, n: nat, a: seq<Filter>, b: seq<Filter>, aggregation: Option<nat>, m: Memo)
    requires WellRanked(w, rk) && AllApt(w, rk, n, Fresh(w, rk, home), true) && Faithful(w, rk, home, m)
    requires Grounded(home(aggregation), aggregation) && FiltersBelow(w, rk, a, n) && FiltersBelow(w, rk, b, n)
    requires FiltersUndisturbed(Fresh(w, rk, home), w.Flags(), a)
    requires multiset(a) == multiset(b) && Broken !in PlainOutcomes(w, rk, n, a, home(aggregation), aggregation)
    ensures Report(MatchFilters(w, rk, n, a, home(aggregation), aggregation, NO_TALLY, m).0)
         == Report(MatchFilters(w, rk, n, b, home(aggregation), aggregation, NO_TALLY, m).0)
  {
    var ctx := home(aggregation);
    var os, ps := PlainOutcomes(w, rk, n, a, ctx, aggregation), PlainOutcomes(w, rk, n, b, ctx, aggregation);
    SameUndisturbed(Fresh(w, rk, home), w.Flags(), a, b);
    OutcomesAreMapped(w, rk, n, a, ctx, aggregation);
    OutcomesAreMapped(w, rk, n, b, ctx, aggregation);
    MappedPermutes(Alone(w, rk, n, ctx, aggregation), a, b);
    SameElements(ps, os);
    FiltersAreLike(w, rk, home, n, a, aggregation, NO_TALLY, NO_TALLY, m);
    FiltersAreLike(w, rk, home, n, b, aggregation, NO_TALLY, NO_TALLY, m);
    FilterOrderIsIrrelevant(os, ps);
  }

  // ------------------------------------------------------------ disturbed filters

  /** A value that the dependency does not have. */
  function Other(v: FlagValue): Value {
    Bool(!Enabled(v))
  }

  lemma OtherDiffers(v: FlagValue)
    ensures !DependencyMatches(Other(v), v) && !Other(v).Null?
  {
  }

  /** The first unresolved member of a chain that needs no server. */
  lemma {:induction false} FirstUnsettled(plain: Plain, chain: seq<string>, n: nat) returns (i: nat)
    requires n < |chain| && Unsettled(plain, chain[n]) && Serverless(plain, chain)
    ensures i <= n && Unsettled(plain, chain[i]) && forall k :: 0 <= k < i ==> plain(chain[k]).Value?
    decreases n
  {
    if k :| 0 <= k < n && Unsettled(plain, chain[k]) {
      i := FirstUnsettled(plain, chain, k);
    } else {
      i := n;
      assert forall k :: 0 <= k < n ==> !ServerSide(plain, chain[k]) && !Unsettled(plain, chain[k]);
    }
  }

  /** What a disturbed filter looks like, up to the value it expects. */
  lemma DisturbedHides(plain: Plain, flags: map<string, Flag>, f: Filter) returns (i: nat)
    requires UsableChain(flags, f) && f.key in f.chain.value && !Undisturbed(plain, flags, f)
    ensures i < |f.chain.value| && Unsettled(plain, f.chain.value[i]) && Serverless(plain, f.chain.value)
    ensures forall k :: 0 <= k < i ==> plain(f.chain.value[k]).Value?
    ensures plain(f.key).Value? && f.key != f.chain.value[i]
  {
    var chain := f.chain.value;
    var n :| 0 <= n < |chain| && Unsettled(plain, chain[n]);
    i := FirstUnsettled(plain, chain, n);
    var k :| 0 <= k < |chain| && chain[k] == f.key;
    assert !ServerSide(plain, chain[k]);
  }

  /** The cache in which all of the chain is known but one member. */
  function AllBut(plain: Plain, flags: map<string, Flag>, chain: seq<string>, key: string): (cache: Cache)
    requires Serverless(plain, chain) && forall k :: 0 <= k < |chain| ==> chain[k] in flags
    ensures Truthful(plain, flags, cache) && key !in cache
    ensures forall k :: 0 <= k < |chain| && chain[k] != key ==> chain[k] in cache
  {
    var seen := Seen(plain, flags, chain);
    assert forall k :: 0 <= k < |chain| ==> chain[k] in seen;
    seen - {key}
  }

  lemma {:induction false} CachedPrefix(
      w: World, rk: Ranks, n: nat, chain: seq<string>, i: nat, ctx: Ctx, m: Memo)
    requires WellRanked(w, rk) && ChainBelow(w, rk, chain, n) && forall k :: 0 <= k < |chain| ==> chain[k] in w.Flags()
    requires i <= |chain| && forall k :: 0 <= k < i ==> chain[k] in m.cache
    ensures MatchChain(w, rk, n, chain, ctx, m) == MatchChain(w, rk, n, chain[i..], ctx, m)
    decreases i
  {
    if i == 0 {
      assert chain[0..] == chain;
    } else {
      assert chain[0] in m.cache && chain[1..][i - 1..] == chain[i..];
      CachedPrefix(w, rk, n, chain[1..], i - 1, ctx, m);
    }
  }

  lemma SuffixFits(w: World, rk: Ranks, n: nat, chain: seq<string>, i: nat, aggregation: Option<nat>)
    requires ChainBelow(w, rk, chain, n) && ChainFits(w, chain, aggregation) && i < |chain|
    ensures ChainBelow(w, rk, chain[i..], n) && ChainFits(w, chain[i..], aggregation) && chain[i..][0] == chain[i]
  {
    assert forall k :: 0 <= k < |chain[i..]| ==> chain[i..][k] == chain[i + k];
  }

  /** With everything before its unresolved member cached, the filter is undecided. */
  lemma DisturbedFirst(
      w: World, rk: Ranks, home: Homes, n: nat, f: Filter, i: nat, aggregation: Option<nat>, m: Memo)
    requires WellRanked(w, rk) && AllApt(w, rk, n, Fresh(w, rk, home), true) && FilterBelow(w, rk, f, n) && f.kind == "flag"
    requires Grounded(home(aggregation), aggregation) && DependencyError(f, w.Flags(), aggregation).None?
    requires Faithful(w, rk, home, m) && i < |f.chain.value| && f.chain.value[i] !in m.cache
    requires Unsettled(Fresh(w, rk, home), f.chain.value[i]) && forall k :: 0 <= k < i ==> f.chain.value[k] in m.cache
    ensures var r := MatchFilter(w, rk, n, f, home(aggregation), aggregation, m);
            r.0 == UNRESOLVED_CHAIN && Faithful(w, rk, home, r.1)
  {
    var chain := f.chain.value;
    ChainErrorMeans(chain, w.Flags(), aggregation);
    CachedPrefix(w, rk, n, chain, i, home(aggregation), m);
    SuffixFits(w, rk, n, chain, i, aggregation);
    FirstEnds(w, rk, home, n, chain[i..], aggregation, m);
  }

  /** With all of its chain cached, it is decided by its own flag. */
  lemma DisturbedSecond(
      w: World, rk: Ranks, home: Homes, n: nat, f: Filter, aggregation: Option<nat>, m: Memo)
    requires WellRanked(w, rk) && FilterBelow(w, rk, f, n) && f.kind == "flag" && Faithful(w, rk, home, m)
    requires DependencyError(f, w.Flags(), aggregation).None? && f.key in f.chain.value
    requires forall k :: 0 <= k < |f.chain.value| ==> f.chain.value[k] in m.cache
    requires var r := Fresh(w, rk, home)(f.key); r.Value? && !DependencyMatches(f.value, r.value)
    ensures MatchFilter(w, rk, n, f, home(aggregation), aggregation, m).0 == Decided(false)
  {
    ChainErrorMeans(f.chain.value, w.Flags(), aggregation);
    CachedChainPasses(w, rk, n, f.chain.value, home(aggregation), m);
    assert Tells(Fresh(w, rk, home), w.Flags(), f.key, m.cache[f.key]);
  }

  // ------------------------------------------------------------ exactly the undisturbed ones

  /** It does not matter whether the filter comes first or last. */
  ghost predicate Indifferent(
      w: World, rk: Ranks, home: Homes, n: nat, f: Filter, a: seq<Filter>, aggregation: Option<nat>, m: Memo)
    requires WellRanked(w, rk)
  {
    FiltersBelow(w, rk, [f] + a, n) && FiltersBelow(w, rk, a + [f], n) ==>
      Report(MatchFilters(w, rk, n, [f] + a, home(aggregation), aggregation, NO_TALLY, m).0)
      == Report(MatchFilters(w, rk, n, a + [f], home(aggregation), aggregation, NO_TALLY, m).0)
  }

  /** Filters that are undisturbed and raise no unclassified error. */
  ghost predicate Ordinary(
      w: World, rk: Ranks, home: Homes, n: nat, a: seq<Filter>, aggregation: Option<nat>)
    requires WellRanked(w, rk)
  {
    && FiltersBelow(w, rk, a, n) && FiltersUndisturbed(Fresh(w, rk, home), w.Flags(), a)
    && Broken !in PlainOutcomes(w, rk, n, a, home(aggregation), aggregation)
  }

  /** The same dependency, expecting another value. */
  lemma Expecting(plain: Plain, flags: map<string, Flag>, f: Filter, v: Value, aggregation: Option<nat>)
    requires f.kind == "flag" && DependencyError(f, flags, aggregation).None? && !v.Null?
    ensures var g := f.(value := v);
            && DependencyError(g, flags, aggregation).None? && UsableChain(flags, f) && UsableChain(flags, g)
            && (Undisturbed(plain, flags, g) <==> Undisturbed(plain, flags, f))
  {
    assert DependencyError(f.(value := v), flags, aggregation).None?;
  }

  lemma DependencyIsClassified(w: World, rk: Ranks, n: nat, f: Filter, ctx: Ctx, aggregation: Option<nat>)
    requires WellRanked(w, rk) && FilterBelow(w, rk, f, n) && f.kind == "flag"
    requires DependencyError(f, w.Flags(), aggregation).None?
    ensures PlainFilter(w, rk, n, f, ctx, aggregation) != Broken
  {
    ChainErrorMeans(f.chain.value, w.Flags(), aggregation);
    var j := FirstErrorMeans(PlainChain(w, rk, n, f.chain.value, ctx));
  }

  lemma UndisturbedIsIndifferent(
      w: World, rk: Ranks, home: Homes, n: nat, f: Filter, a: seq<Filter>, aggregation: Option<nat>, m: Memo)
    requires WellRanked(w, rk) && AllApt(w, rk, n, Fresh(w, rk, home), true) && FilterBelow(w, rk, f, n) && f.kind == "flag"
    requires Grounded(home(aggregation), aggregation) && DependencyError(f, w.Flags(), aggregation).None?
    requires Undisturbed(Fresh(w, rk, home), w.Flags(), f)
    requires Ordinary(w, rk, home, n, a, aggregation) && Faithful(w, rk, home, m)
    ensures Indifferent(w, rk, home, n, f, a, aggregation, m)
  {
    if FiltersBelow(w, rk, [f] + a, n) && FiltersBelow(w, rk, a + [f], n) {
      var ctx := home(aggregation);
      DependencyIsClassified(w, rk, n, f, ctx, aggregation);
      OutcomesSplit(w, rk, n, [f] + a, ctx, aggregation);
      assert ([f] + a)[1..] == a && ([f] + a)[0] == f;
      assert Broken !in PlainOutcomes(w, rk, n, [f] + a, ctx, aggregation);
      assert multiset([f] + a) == multiset(a + [f]);
      UndisturbedOrder(w, rk, home, n, [f] + a, a + [f], aggregation, m);
    }
  }

  lemma OnIsOrdinary(w: World, rk: Ranks, home: Homes, n: nat, key: string, aggregation: Option<nat>)
    requires WellRanked(w, rk) && MemberBelow(w, rk, key, n) && key in w.Flags() && !NeedsOther(w.Flags()[key], aggregation)
    ensures FilterBelow(w, rk, On(key), n) && Ordinary(w, rk, home, n, [On(key)], aggregation)
  {
    ChainErrorMeans([key], w.Flags(), aggregation);
    DependencyIsClassified(w, rk, n, On(key), home(aggregation), aggregation);
    assert [key][0] == key;
  }

  lemma DisturbedShows(
      w: World, rk: Ranks, home: Homes, n: nat, f: Filter, aggregation: Option<nat>)
    returns (v: Value, a: seq<Filter>, m: Memo)
    requires WellRanked(w, rk) && AllApt(w, rk, n, Fresh(w, rk, home), true) && FilterBelow(w, rk, f, n) && f.kind == "flag"
    requires Grounded(home(aggregation), aggregation) && DependencyError(f, w.Flags(), aggregation).None?
    requires f.key in f.chain.value && !Undisturbed(Fresh(w, rk, home), w.Flags(), f)
    ensures !v.Null? && Ordinary(w, rk, home, n, a, aggregation) && Faithful(w, rk, home, m)
    ensures !Indifferent(w, rk, home, n, f.(value := v), a, aggregation, m)
  {
    var plain, flags, ctx, chain := Fresh(w, rk, home), w.Flags(), home(aggregation), f.chain.value;
    ChainErrorMeans(chain, flags, aggregation);
    assert UsableChain(flags, f);
    var i := DisturbedHides(plain, flags, f);
    var key := chain[i];
    v, a, m := Other(plain(f.key).value), [On(key)], Memo(AllBut(plain, flags, chain, key), []);
    OtherDiffers(plain(f.key).value);
    Expecting(plain, flags, f, v, aggregation);
    UnevaluatedIs(w, rk, home, key);
    OnIsOrdinary(w, rk, home, n, key, aggregation);
    ReportsDiffer(w, rk, home, n, f.(value := v), i, aggregation, m);
  }

  /** All of the usable chain is cached but member i, which is unresolved; the filter's own flag has another value. */
  ghost predicate Poised(
      w: World, rk: Ranks, home: Homes, n: nat, f: Filter, i: nat, aggregation: Option<nat>, m: Memo)
    requires WellRanked(w, rk)
  {
    && f.kind == "flag" && FilterBelow(w, rk, f, n) && DependencyError(f, w.Flags(), aggregation).None?
    && i < |f.chain.value| && Unsettled(Fresh(w, rk, home), f.chain.value[i])
    && f.chain.value[i] in w.Flags() && !NeedsOther(w.Flags()[f.chain.value[i]], aggregation)
    && FilterBelow(w, rk, On(f.chain.value[i]), n)
    && Faithful(w, rk, home, m) && f.chain.value[i] !in m.cache
    && (forall k :: 0 <= k < |f.chain.value| && f.chain.value[k] != f.chain.value[i] ==> f.chain.value[k] in m.cache)
    && (forall k :: 0 <= k < i ==> f.chain.value[k] != f.chain.value[i])
    && f.key in f.chain.value
    && var r := Fresh(w, rk, home)(f.key); r.Value? && !DependencyMatches(f.value, r.value)
  }

  lemma FirstReport(w: World, rk: Ranks, home: Homes, n: nat, f: Filter, i: nat, aggregation: Option<nat>, m: Memo)
    requires WellRanked(w, rk) && AllApt(w, rk, n, Fresh(w, rk, home), true) && Grounded(home(aggregation), aggregation)
    requires Poised(w, rk, home, n, f, i, aggregation, m) && FiltersBelow(w, rk, [f] + [On(f.chain.value[i])], n)
    ensures MatchFilters(w, rk, n, [f] + [On(f.chain.value[i])], home(aggregation), aggregation, NO_TALLY, m).0
         == Unresolved(UNRESOLVED_CHAIN)
  {
    var ctx, key := home(aggregation), f.chain.value[i];
    DisturbedFirst(w, rk, home, n, f, i, aggregation, m);
    OnMeans(w, rk, home, n, key, aggregation, MatchFilter(w, rk, n, f, ctx, aggregation, m).1);
    assert [f] + [On(key)] == [f, On(key)];
    TwoFilters(w, rk, n, f, On(key), ctx, aggregation, m);
  }

  lemma LastReport(w: World, rk: Ranks, home: Homes, n: nat, f: Filter, i: nat, aggregation: Option<nat>, m: Memo)
    requires WellRanked(w, rk) && AllApt(w, rk, n, Fresh(w, rk, home), true) && Grounded(home(aggregation), aggregation)
    requires Poised(w, rk, home, n, f, i, aggregation, m) && FiltersBelow(w, rk, [On(f.chain.value[i])] + [f], n)
    ensures MatchFilters(w, rk, n, [On(f.chain.value[i])] + [f], home(aggregation), aggregation, NO_TALLY, m).0 == NoMatch
  {
    var ctx, key := home(aggregation), f.chain.value[i];
    OnMeans(w, rk, home, n, key, aggregation, m);
    FilterGrows(w, rk, n, On(key), ctx, aggregation, m);
    DisturbedSecond(w, rk, home, n, f, aggregation, MatchFilter(w, rk, n, On(key), ctx, aggregation, m).1);
    assert [On(key)] + [f] == [On(key), f];
    TwoFilters(w, rk, n, On(key), f, ctx, aggregation, m);
  }

  lemma PairBelow(w: World, rk: Ranks, n: nat, x: Filter, y: Filter)
    requires FilterBelow(w, rk, x, n) && FilterBelow(w, rk, y, n)
    ensures FiltersBelow(w, rk, [x] + [y], n) && FiltersBelow(w, rk, [y] + [x], n)
  {
  }

  /** What is reported differs, so it does matter which comes first. */
  lemma ThenMatters(
      w: World, rk: Ranks, home: Homes, n: nat, x: Filter, y: Filter, aggregation: Option<nat>, m: Memo)
    requires WellRanked(w, rk) && FiltersBelow(w, rk, [x] + [y], n) && FiltersBelow(w, rk, [y] + [x], n)
    requires MatchFilters(w, rk, n, [x] + [y], home(aggregation), aggregation, NO_TALLY, m).0 == Unresolved(UNRESOLVED_CHAIN)
    requires MatchFilters(w, rk, n, [y] + [x], home(aggregation), aggregation, NO_TALLY, m).0 == NoMatch
    ensures !Indifferent(w, rk, home, n, x, [y], aggregation, m)
  {
  }

  lemma ReportsDiffer(w: World, rk: Ranks, home: Homes, n: nat, f: Filter, i: nat, aggregation: Option<nat>, m: Memo)
    requires WellRanked(w, rk) && AllApt(w, rk, n, Fresh(w, rk, home), true) && Grounded(home(aggregation), aggregation)
    requires Poised(w, rk, home, n, f, i, aggregation, m)
    ensures !Indifferent(w, rk, home, n, f, [On(f.chain.value[i])], aggregation, m)
  {
    PairBelow(w, rk, n, f, On(f.chain.value[i]));
    FirstReport(w, rk, home, n, f, i, aggregation, m);
    LastReport(w, rk, home, n, f, i, aggregation, m);
    ThenMatters(w, rk, home, n, f, On(f.chain.value[i]), aggregation, m);
  }

  /**
   * Undisturbed is exactly what it takes: whether a usable dependency on a flag
   * that its chain holds comes first or last among ordinary filters never
   * shows, whatever value it expects and whatever is cached, if and only if it
   * is undisturbed.
   */
  lemma OrderIff(w: World, rk: Ranks, home: Homes, n: nat, f: Filter, aggregation: Option<nat>)
    requires WellRanked(w, rk) && AllApt(w, rk, n, Fresh(w, rk, home), true) && FilterBelow(w, rk, f, n) && f.kind == "flag"
    requires Grounded(home(aggregation), aggregation) && DependencyError(f, w.Flags(), aggregation).None?
    requires f.key in f.chain.value
    ensures Undisturbed(Fresh(w, rk, home), w.Flags(), f) <==>
              forall v: Value, a: seq<Filter>, m: Memo ::
                !v.Null? && Ordinary(w, rk, home, n, a, aggregation) && Faithful(w, rk, home, m) ==>
                  Indifferent(w, rk, home, n, f.(value := v), a, aggregation, m)
  {
    if Undisturbed(Fresh(w, rk, home), w.Flags(), f) {
      forall v: Value, a: seq<Filter>, m: Memo
        | !v.Null? && Ordinary(w, rk, home, n, a, aggregation) && Faithful(w, rk, home, m)
        ensures Indifferent(w, rk, home, n, f.(value := v), a, aggregation, m)
      {
        Expecting(Fresh(w, rk, home), w.Flags(), f, v, aggregation);
        UndisturbedIsIndifferent(w, rk, home, n, f.(value := v), a, aggregation, m);
      }
    } else {
      var v, a, m := DisturbedShows(w, rk, home, n, f, aggregation);
    }
  }
}
