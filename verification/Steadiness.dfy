// What the dependencies of a filter must come to for the cache not to show. A
// dependency evaluated without the cache is given here by a function of its key.

module Steadiness {

  import opened Wrappers
  import opened Reasons
  import opened Folding
  import opened FlagFolding
  import opened Filters
  import opened Definitions
  import opened Evaluator
  import opened Uncached

  /** What each flag comes to when it is evaluated afresh. */
  type Plain = string -> FlagResult

  /** The flag cannot be told without the server; such a result is never cached. */
  predicate ServerSide(plain: Plain, key: string) {
    plain(key).Error? && plain(key).error.ServerRequired?
  }

  /** The flag is left unresolved for another cause; the cache holds nil for it. */
  predicate Unsettled(plain: Plain, key: string) {
    plain(key).Error? && !plain(key).error.ServerRequired?
  }

  predicate Serverless(plain: Plain, chain: seq<string>) {
    forall i :: 0 <= i < |chain| ==> !ServerSide(plain, chain[i])
  }

  /** The chain meets an unresolved member: no member before it needs the server. */
  predicate MeetsUnsettled(plain: Plain, chain: seq<string>) {
    exists i :: 0 <= i < |chain| && Unsettled(plain, chain[i]) && forall k :: 0 <= k < i ==> !ServerSide(plain, chain[k])
  }

  predicate AllValues(plain: Plain, chain: seq<string>) {
    forall i :: 0 <= i < |chain| ==> plain(chain[i]).Value?
  }

  ghost predicate UsableChain(flags: map<string, Flag>, f: Filter) {
    f.kind == "flag" && exists aggregation :: DependencyError(f, flags, aggregation).None?
  }

  /**
   * Passing over unresolved members of the chain cannot change what the filter
   * comes to: if there is one to pass over, the filter's own flag is in the
   * chain and unresolved too, and nothing in the chain needs the server. A chain
   * of values that does not hold the filter's own flag must not find it cached.
   */
  ghost predicate Steady(plain: Plain, flags: map<string, Flag>, f: Filter) {
    UsableChain(flags, f) ==>
      && (MeetsUnsettled(plain, f.chain.value) ==>
            Serverless(plain, f.chain.value) && f.key in f.chain.value && Unsettled(plain, f.key))
      && (AllValues(plain, f.chain.value) && f.key !in f.chain.value && f.key in flags ==> ServerSide(plain, f.key))
  }

  // ------------------------------------------------------------ a cache that tells the truth

  /** What is cached for a flag is what it comes to afresh, nil exactly if it is left unresolved. */
  predicate Tells(plain: Plain, flags: map<string, Flag>, key: string, value: Option<FlagValue>) {
    && key in flags
    && match value
       case Some(v) => plain(key) == Value(v)
       case None => Unsettled(plain, key)
  }

  type Cache = map<string, Option<FlagValue>>

  predicate Truthful(plain: Plain, flags: map<string, Flag>, cache: Cache) {
    forall key :: key in cache ==> Tells(plain, flags, key, cache[key])
  }

  predicate NoNil(cache: Cache) {
    forall key :: key in cache ==> cache[key].Some?
  }

  /** Member i ends the chain: those before it are in the cache by then, and it was not there at first. */
  predicate StopsAt(plain: Plain, chain: seq<string>, i: nat, error: Option<Outcome>, before: Cache, after: Cache) {
    && i < |chain| && chain[i] !in before
    && error.Some? && error == MemberError(plain(chain[i]))
    && forall k :: 0 <= k < i ==> chain[k] in after
  }

  lemma StopsLater(
      plain: Plain, chain: seq<string>, i: nat, error: Option<Outcome>, before: Cache, later: Cache, after: Cache)
    requires |chain| > 0 && StopsAt(plain, chain[1..], i, error, later, after)
    requires before.Keys <= later.Keys && chain[0] in after
    ensures StopsAt(plain, chain, i + 1, error, before, after)
  {
    assert chain[i + 1] == chain[1..][i];
    forall k | 0 <= k < i + 1 ensures chain[k] in after {
      if k > 0 {
        assert chain[k] == chain[1..][k - 1];
      }
    }
  }

  /** The chain stops at a member that does not resolve, or all of it is in the cache. */
  ghost predicate ChainEnds(
      plain: Plain, flags: map<string, Flag>, chain: seq<string>, error: Option<Outcome>, before: Cache, after: Cache)
  {
    && Truthful(plain, flags, after) && before.Keys <= after.Keys
    && (error.Some? ==> exists i: nat :: StopsAt(plain, chain, i, error, before, after))
    && (error.None? ==> forall i :: 0 <= i < |chain| ==> chain[i] in after)
  }

  lemma ChainJoins(
      plain: Plain, flags: map<string, Flag>, chain: seq<string>, error: Option<Outcome>, before: Cache,
      later: Cache, after: Cache)
    requires |chain| > 0 && ChainEnds(plain, flags, chain[1..], error, later, after)
    requires before.Keys <= later.Keys && chain[0] in later
    ensures ChainEnds(plain, flags, chain, error, before, after)
  {
    if error.Some? {
      var i: nat :| StopsAt(plain, chain[1..], i, error, later, after);
      StopsLater(plain, chain, i, error, before, later, after);
    } else {
      forall i | 0 <= i < |chain| ensures chain[i] in after {
        if i > 0 {
          assert chain[i] == chain[1..][i - 1];
        }
      }
    }
  }

  /** The member that ends the chain, or none if all are values. */
  lemma {:induction false} FirstErrorMeans(rs: seq<FlagResult>) returns (i: nat)
    ensures i <= |rs| && forall k :: 0 <= k < i ==> rs[k].Value?
    ensures FirstError(rs) == if i < |rs| then MemberError(rs[i]) else None
    ensures i < |rs| ==> rs[i].Error?
  {
    if |rs| == 0 || rs[0].Error? {
      i := 0;
    } else {
      var j := FirstErrorMeans(rs[1..]);
      i := j + 1;
      forall k | 0 <= k < i ensures rs[k].Value? {
        if k > 0 {
          assert rs[k] == rs[1..][k - 1];
        }
      }
    }
  }

  /** Either the filter is steady, or it names its own flag and nothing was left unresolved. */
  ghost predicate Apt(plain: Plain, flags: map<string, Flag>, steady: bool, f: Filter) {
    if steady then Steady(plain, flags, f) else f.kind == "flag" && f.chain.Some? ==> f.key in f.chain.value
  }

  ghost predicate FiltersApt(plain: Plain, flags: map<string, Flag>, steady: bool, fs: seq<Filter>) {
    forall i :: 0 <= i < |fs| ==> Apt(plain, flags, steady, fs[i])
  }

  ghost predicate EntryApt(plain: Plain, flags: map<string, Flag>, steady: bool, e: Entry)
    decreases e
  {
    match e
    case Junk => true
    case Nested(g) => GroupApt(plain, flags, steady, g)
    case Single(f) => Apt(plain, flags, steady, f)
  }

  ghost predicate GroupApt(plain: Plain, flags: map<string, Flag>, steady: bool, g: Group)
    decreases g
  {
    forall i :: 0 <= i < |g.entries| ==> EntryApt(plain, flags, steady, g.entries[i])
  }

  ghost predicate FlagApt(plain: Plain, flags: map<string, Flag>, steady: bool, flag: Flag) {
    forall i :: 0 <= i < |flag.conditions| ==> FiltersApt(plain, flags, steady, flag.conditions[i].filters)
  }

  /** The filters of the flags and cohorts that rank below n, which are all that evaluation there can reach. */
  ghost predicate AllApt(w: World, rk: Ranks, n: nat, plain: Plain, steady: bool) {
    && (forall key :: Evaluable(w, key) && rk.flags(key) < n ==> FlagApt(plain, w.Flags(), steady, w.Flags()[key]))
    && (forall id :: id in w.Cohorts() && rk.cohorts(id) < n ==> GroupApt(plain, w.Flags(), steady, w.Cohorts()[id]))
  }

  /** A group is apt just if each of its filters is, nested ones included. */
  lemma {:induction false} EntriesAptIff(plain: Plain, flags: map<string, Flag>, steady: bool, es: seq<Entry>)
    ensures (forall i :: 0 <= i < |es| ==> EntryApt(plain, flags, steady, es[i])) <==>
              forall f :: f in FiltersIn(es) ==> Apt(plain, flags, steady, f)
    decreases es
  {
    if |es| > 0 {
      EntryAptIff(plain, flags, steady, es[0]);
      EntriesAptIff(plain, flags, steady, es[1..]);
      assert forall f :: f in FiltersIn(es) <==> f in FiltersOf(es[0]) || f in FiltersIn(es[1..]);
      assert forall i :: 0 < i < |es| ==> es[i] == es[1..][i - 1];
      assert forall i :: 0 <= i < |es| - 1 ==> es[1..][i] == es[i + 1];
    }
  }

  lemma {:induction false} EntryAptIff(plain: Plain, flags: map<string, Flag>, steady: bool, e: Entry)
    ensures EntryApt(plain, flags, steady, e) <==> forall f :: f in FiltersOf(e) ==> Apt(plain, flags, steady, f)
    decreases e
  {
    match e
    case Junk =>
    case Nested(g) => EntriesAptIff(plain, flags, steady, g.entries);
    case Single(f) => assert f in FiltersOf(e);
  }

  /** Where the cached chain stops, the chain without the cache stops with the same error. */
  lemma StoppedAgrees(
      plain: Plain, flags: map<string, Flag>, steady: bool, f: Filter, rs: seq<FlagResult>, i: nat,
      error: Option<Outcome>, before: Cache, after: Cache)
    requires UsableChain(flags, f) && Apt(plain, flags, steady, f)
    requires |rs| == |f.chain.value| && forall k :: 0 <= k < |rs| ==> rs[k] == plain(f.chain.value[k])
    requires Truthful(plain, flags, after) && (steady || NoNil(after))
    requires StopsAt(plain, f.chain.value, i, error, before, after)
    ensures FirstError(rs) == error
  {
    var chain := f.chain.value;
    var j := FirstErrorMeans(rs);
    forall k | 0 <= k < i ensures !ServerSide(plain, chain[k]) {
      assert Tells(plain, flags, chain[k], after[chain[k]]);
    }
    assert rs[i] == plain(chain[i]);
    if j < i {
      assert Tells(plain, flags, chain[j], after[chain[j]]) && Unsettled(plain, chain[j]);
      assert MeetsUnsettled(plain, chain);
      assert !ServerSide(plain, chain[i]);
    }
  }

  /** Where the cached chain passes, looking up the filter's flag agrees with the chain without the cache. */
  lemma PassedAgrees(
      plain: Plain, flags: map<string, Flag>, steady: bool, f: Filter, rs: seq<FlagResult>, cache: Cache)
    requires UsableChain(flags, f) && Apt(plain, flags, steady, f)
    requires |rs| == |f.chain.value| && forall k :: 0 <= k < |rs| ==> rs[k] == plain(f.chain.value[k])
    requires Truthful(plain, flags, cache) && (steady || NoNil(cache))
    requires forall k :: 0 <= k < |rs| ==> f.chain.value[k] in cache
    ensures match FirstError(rs)
            case Some(e) => Looked(f, cache) == e
            case None =>
              if f.key !in f.chain.value then Looked(f, cache) == UNSUPPORTED
              else plain(f.key).Value? && Looked(f, cache) == Decided(DependencyMatches(f.value, plain(f.key).value))
  {
    var chain := f.chain.value;
    var j := FirstErrorMeans(rs);
    forall k | 0 <= k < |rs| ensures !ServerSide(plain, chain[k]) {
      assert Tells(plain, flags, chain[k], cache[chain[k]]);
    }
    if f.key in cache {
      assert Tells(plain, flags, f.key, cache[f.key]);
    }
    if j < |rs| {
      assert Tells(plain, flags, chain[j], cache[chain[j]]) && Unsettled(plain, chain[j]);
      assert MeetsUnsettled(plain, chain);
    } else {
      assert AllValues(plain, chain);
      if f.key in chain {
        var k :| 0 <= k < |chain| && chain[k] == f.key;
        assert rs[k] == plain(f.key);
      }
    }
  }

  // ------------------------------------------------------------ a cache that shows

  /** The cache after the flags of these keys were evaluated. */
  function Seen(plain: Plain, flags: map<string, Flag>, keys: seq<string>): (cache: Cache)
    ensures Truthful(plain, flags, cache)
  {
    map key | key in keys && key in flags && !ServerSide(plain, key) ::
      match plain(key) case Value(v) => Some(v) case Error(_) => None
  }

  /** What to have evaluated before an unsteady filter, for the cache to show. */
  ghost function Before(plain: Plain, f: Filter): seq<string>
    requires f.chain.Some?
  {
    if MeetsUnsettled(plain, f.chain.value) then f.chain.value else f.chain.value + [f.key]
  }

  /** After that an unsteady filter whose chain passes is looked up to something else. */
  lemma LookedDiffers(plain: Plain, flags: map<string, Flag>, f: Filter, rs: seq<FlagResult>)
    requires UsableChain(flags, f) && !Steady(plain, flags, f) && Serverless(plain, f.chain.value)
    requires |rs| == |f.chain.value| && forall k :: 0 <= k < |rs| ==> rs[k] == plain(f.chain.value[k])
    requires forall k :: 0 <= k < |rs| ==> f.chain.value[k] in flags
    ensures var o := Looked(f, Seen(plain, flags, Before(plain, f)));
            match FirstError(rs)
            case Some(e) => o != e
            case None => f.key !in f.chain.value && o != UNSUPPORTED
  {
    var chain := f.chain.value;
    var j := FirstErrorMeans(rs);
    if j < |rs| {
      assert !ServerSide(plain, chain[j]) && Unsettled(plain, chain[j]);
      assert MeetsUnsettled(plain, chain);
      if f.key in chain {
        var k :| 0 <= k < |chain| && chain[k] == f.key;
        assert !ServerSide(plain, chain[k]);
      }
    } else {
      assert forall k :: 0 <= k < |chain| ==> rs[k] == plain(chain[k]);
      assert f.key in chain + [f.key];
    }
  }

  /** A chain that meets an unresolved member but needs the server further on ends unresolved without the cache. */
  lemma UnsettledEnds(plain: Plain, chain: seq<string>, rs: seq<FlagResult>)
    requires |rs| == |chain| && forall k :: 0 <= k < |rs| ==> rs[k] == plain(chain[k])
    requires MeetsUnsettled(plain, chain)
    ensures FirstError(rs) == Some(UNRESOLVED_CHAIN)
  {
    var j := FirstErrorMeans(rs);
    var i :| 0 <= i < |chain| && Unsettled(plain, chain[i]) && forall k :: 0 <= k < i ==> !ServerSide(plain, chain[k]);
    assert rs[i] == plain(chain[i]);
    if j < i {
      assert !ServerSide(plain, chain[j]);
    }
  }

  /** With all it could evaluate cached, a chain that needs the server says so. */
  lemma ServerEnds(
      plain: Plain, flags: map<string, Flag>, chain: seq<string>, error: Option<Outcome>, before: Cache, after: Cache)
    requires ChainEnds(plain, flags, chain, error, before, after) && !Serverless(plain, chain)
    requires forall i :: 0 <= i < |chain| ==> chain[i] in before || ServerSide(plain, chain[i])
    ensures error == Some(SERVER_CHAIN)
  {
    var i :| 0 <= i < |chain| && ServerSide(plain, chain[i]);
    assert chain[i] in after ==> Tells(plain, flags, chain[i], after[chain[i]]);
  }
}
