// The poller that keeps flag definitions fresh: answers of the API, of an
// external cache, and the entity tag that ties a stored payload to a later 304.

module Poller {

  import opened Wrappers
  import opened Definitions
  import opened Bucketing

  type Payload = string

  /** A decoded payload, its variants all with percentages. */
  datatype Decoded = Decoded(
    flags: Option<seq<Flag>>, cohorts: map<string, Group>, groups: Option<map<string, string>>, minimal: bool,
    version: int)

  type Decoder = Payload -> Option<Decoded>

  /** A flag with the variant table computed when it was loaded. */
  datatype Loaded = Loaded(flag: Flag, table: seq<Band>)

  datatype FlagsState = FlagsState(
    flags: seq<Loaded>, byKey: map<string, Loaded>, cohorts: map<string, Group>, groups: map<string, string>,
    etag: string, minimal: bool, version: int, definitions: Option<Payload>)

  // ------------------------------------------------------------ what is derived from a payload

  function LoadAll(flags: seq<Flag>): (loaded: seq<Loaded>)
    ensures |loaded| == |flags|
  {
    seq(|flags|, i requires 0 <= i < |flags| => Loaded(flags[i], Bands(flags[i].variants, 0.0)))
  }

  /** Of two flags with one key the later counts. */
  function Index(loaded: seq<Loaded>): map<string, Loaded> {
    if |loaded| == 0 then map[] else
      var last := loaded[|loaded| - 1];
      Index(loaded[..|loaded| - 1])[last.flag.key := last]
  }

  function Derived(decoded: Decoded, data: Payload, etag: string): FlagsState {
    var loaded := LoadAll(decoded.flags.GetOr([]));
    FlagsState(loaded, Index(loaded), decoded.cohorts, decoded.groups.GetOr(map[]), etag, decoded.minimal, decoded.version,
               Some(data))
  }

  /** What is held once the quota is used up. */
  const CLEARED := FlagsState([], map[], map[], map[], "", false, 0, None)

  /** Flag i is the last with its key. */
  predicate LastOfKey(flags: seq<Flag>, i: nat) {
    i < |flags| && forall j :: i < j < |flags| ==> flags[j].key != flags[i].key
  }

  /** The index holds the last flag of each key, with the variant table of its own variants. */
  lemma {:induction false} IndexHolds(flags: seq<Flag>, i: nat)
    requires LastOfKey(flags, i)
    ensures var index := Index(LoadAll(flags));
            flags[i].key in index && index[flags[i].key] == Loaded(flags[i], Bands(flags[i].variants, 0.0))
  {
    var n := |flags| - 1;
    assert LoadAll(flags)[..n] == LoadAll(flags[..n]);
    if i < n {
      assert flags[..n][i] == flags[i];
      IndexHolds(flags[..n], i);
    }
  }

  /** It holds no other key. */
  lemma {:induction false} IndexHoldsNoMore(flags: seq<Flag>, key: string)
    requires forall i :: 0 <= i < |flags| ==> flags[i].key != key
    ensures key !in Index(LoadAll(flags))
  {
    if |flags| > 0 {
      var n := |flags| - 1;
      assert LoadAll(flags)[..n] == LoadAll(flags[..n]);
      IndexHoldsNoMore(flags[..n], key);
    }
  }

  // ------------------------------------------------------------ one poll

  datatype Response =
    | Failed                                          // no response, or another status
    | NotModified(etag: string)
    | QuotaLimited
    | Answer(body: Option<Payload>, etag: string)     // None: the body could not be read

  /**
   * What the cache provider says: whether to fetch (None is an error), and what it holds (None is
   * nothing or an error).
   */
  datatype Provider = Provider(shouldFetch: Option<bool>, held: Option<Payload>)

  /** The poller notices a shutdown at its checks from number `downFrom` on. */
  datatype Poll = Poll(downFrom: nat, provider: Provider, response: Response)

  datatype Config = Config(hasProvider: bool, hasKey: bool)

  /** The stored state, and what was given to the cache provider. */
  datatype Kept = Kept(state: Option<FlagsState>, published: seq<Option<Payload>>)

  predicate Down(p: Poll, check: nat) {
    check >= p.downFrom
  }

  /** Cached definitions must decode, have flags, and every flag a key. */
  predicate Usable(decode: Decoder, data: Payload) {
    && decode(data).Some? && decode(data).value.flags.Some?
    && forall i :: 0 <= i < |decode(data).value.flags.value| ==> decode(data).value.flags.value[i].key != ""
  }

  function CacheLoad(decode: Decoder, held: Option<Payload>): Option<FlagsState> {
    if held.Some? && Usable(decode, held.value) then Some(Derived(decode(held.value).value, held.value, "")) else None
  }

  function Published(h: Kept, publish: bool, p: Poll, data: Option<Payload>): Kept {
    if publish && !Down(p, 4) then h.(published := h.published + [data]) else h
  }

  function SentTag(h: Kept): string {
    if h.state.Some? then h.state.value.etag else ""
  }

  /** fetchFlagDefinitions */
  function Fetched(config: Config, decode: Decoder, h: Kept, publish: bool, p: Poll): Kept {
    if Down(p, 3) || !config.hasKey then h
    else match p.response
         case Failed => h
         case NotModified(etag) =>
           if h.state.None? then h
           else
             var kept := if etag == "" then h else h.(state := Some(h.state.value.(etag := etag)));
             Published(kept, publish, p, h.state.value.definitions)
         case QuotaLimited => h.(state := Some(CLEARED))
         case Answer(body, etag) =>
           if body.None? || decode(body.value).None? then h
           else Published(h.(state := Some(Derived(decode(body.value).value, body.value, etag))), publish, p, body)
  }

  /** fetchNewFeatureFlags */
  function Polled(config: Config, decode: Decoder, h: Kept, p: Poll): Kept {
    if Down(p, 0) then h
    else if !config.hasProvider then Fetched(config, decode, h, false, p)
    else
      var cached := CacheLoad(decode, p.provider.held);
      if !config.hasKey then (if cached.Some? then h.(state := cached) else h)
      else if Down(p, 1) then h
      else if p.provider.shouldFetch.GetOr(true) then Fetched(config, decode, h, true, p)
      else if cached.Some? then h.(state := cached)
      else if Down(p, 2) || h.state.Some? then h
      else Fetched(config, decode, h, false, p)
  }

  // ------------------------------------------------------------ coherence

  /** Which payload the server gives each entity tag. */
  type Tags = string -> Payload

  /**
   * A tag sent with a payload names it; a 304 answers only a request that sent a
   * tag, and a new tag it brings names the payload the sent one named (sections
   * 8.8.3 and 13.1.2 of RFC 9110).
   */
  predicate Honest(tags: Tags, sent: string, r: Response) {
    match r
    case NotModified(etag) => sent != "" && (etag != "" ==> tags(etag) == tags(sent))
    case Answer(Some(body), etag) => etag != "" ==> tags(etag) == body
    case _ => true
  }

  ghost predicate Coherent(tags: Tags, decode: Decoder, s: FlagsState) {
    && (s.etag != "" ==> s.definitions == Some(tags(s.etag)))
    && (if s.definitions.None? then s == CLEARED
        else decode(s.definitions.value).Some?
             && s == Derived(decode(s.definitions.value).value, s.definitions.value, s.etag))
  }

  ghost predicate Sound(tags: Tags, decode: Decoder, h: Kept) {
    && (h.state.Some? ==> Coherent(tags, decode, h.state.value))
    && (forall i :: 0 <= i < |h.published| ==> h.published[i].Some?)
  }

  lemma FetchKeeps(config: Config, tags: Tags, decode: Decoder, h: Kept, publish: bool, p: Poll)
    requires Sound(tags, decode, h) && Honest(tags, SentTag(h), p.response)
    ensures Sound(tags, decode, Fetched(config, decode, h, publish, p))
  {
  }

  lemma PollKeeps(config: Config, tags: Tags, decode: Decoder, h: Kept, p: Poll)
    requires Sound(tags, decode, h) && Honest(tags, SentTag(h), p.response)
    ensures Sound(tags, decode, Polled(config, decode, h, p))
  {
    FetchKeeps(config, tags, decode, h, true, p);
    FetchKeeps(config, tags, decode, h, false, p);
  }

  function Run(config: Config, decode: Decoder, h: Kept, ps: seq<Poll>): Kept
    decreases |ps|
  {
    if |ps| == 0 then h else Run(config, decode, Polled(config, decode, h, ps[0]), ps[1..])
  }

  ghost predicate HonestRun(config: Config, tags: Tags, decode: Decoder, h: Kept, ps: seq<Poll>)
    decreases |ps|
  {
    |ps| > 0 ==>
      && Honest(tags, SentTag(h), ps[0].response)
      && HonestRun(config, tags, decode, Polled(config, decode, h, ps[0]), ps[1..])
  }

  /**
   * Over any sequence of polls: a stored tag names the stored payload, the index
   * and tables are those of that payload, and nil definitions are never published.
   */
  lemma {:induction false} PollerIsCoherent(config: Config, tags: Tags, decode: Decoder, h: Kept, ps: seq<Poll>)
    requires Sound(tags, decode, h) && HonestRun(config, tags, decode, h, ps)
    ensures Sound(tags, decode, Run(config, decode, h, ps))
    decreases |ps|
  {
    if |ps| > 0 {
      PollKeeps(config, tags, decode, h, ps[0]);
      PollerIsCoherent(config, tags, decode, Polled(config, decode, h, ps[0]), ps[1..]);
    }
  }

  lemma StartsSound(tags: Tags, decode: Decoder)
    ensures Sound(tags, decode, Kept(None, []))
  {
  }

  // ------------------------------------------------------------ any server at all

  /** A quota answer cleared the state, whatever tag a later 304 put on it. */
  predicate Cleared(h: Kept) {
    h.state.Some? && h.state.value.(etag := "") == CLEARED
  }

  /** Definitions are missing only from a cleared state. */
  predicate Tidy(h: Kept) {
    h.state.Some? ==> (h.state.value.definitions.None? <==> Cleared(h))
  }

  lemma FetchStaysTidy(config: Config, decode: Decoder, h: Kept, publish: bool, p: Poll)
    requires Tidy(h)
    ensures Tidy(Fetched(config, decode, h, publish, p))
  {
  }

  lemma PollStaysTidy(config: Config, decode: Decoder, h: Kept, p: Poll)
    requires Tidy(h)
    ensures Tidy(Polled(config, decode, h, p))
  {
    FetchStaysTidy(config, decode, h, true, p);
    FetchStaysTidy(config, decode, h, false, p);
  }

  /** A 304 meets a cleared state that is to be published. */
  predicate RepublishesCleared(config: Config, h: Kept, p: Poll) {
    && config.hasProvider && config.hasKey && p.downFrom > 4 && p.provider.shouldFetch != Some(false)
    && p.response.NotModified? && Cleared(h)
  }

  lemma PollPublishesNilIff(config: Config, decode: Decoder, h: Kept, p: Poll)
    requires Tidy(h)
    ensures None in Polled(config, decode, h, p).published <==> None in h.published || RepublishesCleared(config, h, p)
  {
    if h.state.Some? {
      assert None in h.published + [h.state.value.definitions] <==> None in h.published || h.state.value.definitions.None?;
    }
    if p.response.Answer? {
      assert p.response.body.Some? ==> (None in h.published + [p.response.body] <==> None in h.published);
    }
  }

  /** Some poll of the run meets such a 304. */
  ghost predicate EverRepublishes(config: Config, decode: Decoder, h: Kept, ps: seq<Poll>) {
    exists k :: 0 <= k < |ps| && RepublishesCleared(config, Run(config, decode, h, ps[..k]), ps[k])
  }

  lemma EverSplits(config: Config, decode: Decoder, h: Kept, ps: seq<Poll>)
    requires |ps| > 0
    ensures EverRepublishes(config, decode, h, ps) <==>
              || RepublishesCleared(config, h, ps[0])
              || EverRepublishes(config, decode, Polled(config, decode, h, ps[0]), ps[1..])
  {
    var next := Polled(config, decode, h, ps[0]);
    forall k | 0 < k < |ps| ensures Run(config, decode, h, ps[..k]) == Run(config, decode, next, ps[1..][..k - 1]) {
      assert ps[..k][1..] == ps[1..][..k - 1];
    }
    assert Run(config, decode, h, ps[..0]) == h;
    if EverRepublishes(config, decode, next, ps[1..]) {
      var k :| 0 <= k < |ps[1..]| && RepublishesCleared(config, Run(config, decode, next, ps[1..][..k]), ps[1..][k]);
      assert RepublishesCleared(config, Run(config, decode, h, ps[..k + 1]), ps[k + 1]);
    }
    if EverRepublishes(config, decode, h, ps) && !RepublishesCleared(config, h, ps[0]) {
      var k :| 0 <= k < |ps| && RepublishesCleared(config, Run(config, decode, h, ps[..k]), ps[k]);
      assert RepublishesCleared(config, Run(config, decode, next, ps[1..][..k - 1]), ps[1..][k - 1]);
    }
  }

  lemma {:induction false} RunPublishesNilIff(config: Config, decode: Decoder, h: Kept, ps: seq<Poll>)
    requires Tidy(h)
    ensures None in Run(config, decode, h, ps).published <==> None in h.published || EverRepublishes(config, decode, h, ps)
    decreases |ps|
  {
    if |ps| > 0 {
      var next := Polled(config, decode, h, ps[0]);
      PollPublishesNilIff(config, decode, h, ps[0]);
      PollStaysTidy(config, decode, h, ps[0]);
      RunPublishesNilIff(config, decode, next, ps[1..]);
      EverSplits(config, decode, h, ps);
    }
  }

  /**
   * Whatever the server answers and however often: a poller ever publishes nil
   * definitions if and only if one of its polls gets a 304 to be published
   * while the state is one that a quota answer cleared.
   */
  lemma PublishesNilIff(config: Config, decode: Decoder, ps: seq<Poll>)
    ensures None in Run(config, decode, Kept(None, []), ps).published <==>
              EverRepublishes(config, decode, Kept(None, []), ps)
  {
    RunPublishesNilIff(config, decode, Kept(None, []), ps);
  }

  /** A quota answer, then a 304 although no tag was sent, by the poller that is to fetch. */
  lemma NilPublishedExample(decode: Decoder, downFrom: nat, held: Option<Payload>)
    requires downFrom > 4
    ensures var leader := Provider(Some(true), held);
            var ps := [Poll(downFrom, leader, QuotaLimited), Poll(downFrom, leader, NotModified(""))];
            None in Run(Config(true, true), decode, Kept(None, []), ps).published
  {
    var leader := Provider(Some(true), held);
    var quota, unasked := Poll(downFrom, leader, QuotaLimited), Poll(downFrom, leader, NotModified(""));
    var config, h := Config(true, true), Kept(None, []);
    assert [quota, unasked][..1] == [quota] && [quota][1..] == [];
    assert Run(config, decode, h, [quota]) == Run(config, decode, Polled(config, decode, h, quota), []);
    assert RepublishesCleared(config, Run(config, decode, h, [quota, unasked][..1]), [quota, unasked][1]);
    PublishesNilIff(config, decode, [quota, unasked]);
  }

  // ------------------------------------------------------------ as it runs

  class FeatureFlagsPoller {
    const config: Config
    const decode: Decoder
    var state: Option<FlagsState>
    var published: seq<Option<Payload>>

    constructor (config: Config, decode: Decoder)
      ensures this.config == config && this.decode == decode && Holds() == Kept(None, [])
    {
      this.config, this.decode := config, decode;
      state, published := None, [];
    }

    ghost function Holds(): Kept
      reads this
    {
      Kept(state, published)
    }

    /** buildFlagsByKey */
    static method BuildFlagsByKey(flags: seq<Loaded>) returns (m: map<string, Loaded>)
      ensures m == Index(flags)
    {
      m := map[];
      var i := 0;
      while i < |flags|
        invariant i <= |flags|
        invariant m == Index(flags[..i])
      {
        assert flags[..i + 1][..i] == flags[..i];
        m := m[flags[i].flag.key := flags[i]];
        i := i + 1;
      }
      assert flags[..i] == flags;
    }

    /** preDecodePayloads: a variant table for each flag. */
    static method PreDecode(flags: seq<Flag>) returns (loaded: seq<Loaded>)
      ensures loaded == LoadAll(flags)
    {
      loaded := [];
      var i := 0;
      while i < |flags|
        invariant i <= |flags|
        invariant loaded == LoadAll(flags)[..i]
      {
        var table := VariantLookupTable(flags[i].variants);
        loaded := loaded + [Loaded(flags[i], table)];
        i := i + 1;
      }
    }

    method ApplyFlagDefinitions(data: Payload, decoded: Decoded, etag: string)
      modifies this`state
      ensures state == Some(Derived(decoded, data, etag))
    {
      var flags := PreDecode(decoded.flags.GetOr([]));
      var byKey := BuildFlagsByKey(flags);
      state := Some(FlagsState(flags, byKey, decoded.cohorts, decoded.groups.GetOr(map[]), etag, decoded.minimal,
                               decoded.version, Some(data)));
    }

    method LoadFlagDefinitionsFromCache(held: Option<Payload>) returns (loaded: bool)
      modifies this`state
      ensures var cached := CacheLoad(decode, held);
              loaded == cached.Some? && state == if cached.Some? then cached else old(state)
    {
      if held.None? {
        return false;
      }
      var decoded := decode(held.value);
      if decoded.None? || decoded.value.flags.None? {
        return false;
      }
      var flags := decoded.value.flags.value;
      var i := 0;
      while i < |flags|
        invariant i <= |flags|
        invariant forall j :: 0 <= j < i ==> flags[j].key != ""
      {
        if flags[i].key == "" {
          return false;
        }
        i := i + 1;
      }
      ApplyFlagDefinitions(held.value, decoded.value, "");
      return true;
    }

    method PublishFlagDefinitions(p: Poll, data: Option<Payload>)
      modifies this`published
      ensures Holds() == Published(old(Holds()), true, p, data)
    {
      if !Down(p, 4) {
        published := published + [data];
      }
    }

    method FetchFlagDefinitions(publish: bool, p: Poll)
      modifies this
      ensures Holds() == Fetched(config, decode, old(Holds()), publish, p)
    {
      if Down(p, 3) || !config.hasKey {
        return;
      }
      match p.response {
        case Failed =>
        case NotModified(etag) =>
          var current := state;
          if etag != "" && current.Some? {
            state := Some(current.value.(etag := etag));
          }
          if publish && current.Some? {
            PublishFlagDefinitions(p, current.value.definitions);
          }
        case QuotaLimited =>
          state := Some(CLEARED);
        case Answer(body, etag) =>
          if body.Some? {
            var decoded := decode(body.value);
            if decoded.Some? {
              ApplyFlagDefinitions(body.value, decoded.value, etag);
              if publish {
                PublishFlagDefinitions(p, body);
              }
            }
          }
      }
    }

    method FetchNewFeatureFlags(p: Poll)
      modifies this
      ensures Holds() == Polled(config, decode, old(Holds()), p)
    {
      if Down(p, 0) {
        return;
      }
      if !config.hasProvider {
        FetchFlagDefinitions(false, p);
        return;
      }
      if !config.hasKey {
        var _ := LoadFlagDefinitionsFromCache(p.provider.held);
        return;
      }
      if Down(p, 1) {
        return;
      }
      var shouldFetch := p.provider.shouldFetch.GetOr(true);
      if !shouldFetch {
        var loaded := LoadFlagDefinitionsFromCache(p.provider.held);
        if loaded || Down(p, 2) || state.Some? {
          return;
        }
      }
      FetchFlagDefinitions(shouldFetch, p);
    }
  }
}
