// The catalog of tools a server is known to have: generations begun by each
// invalidation, and walks that learn one generation at a time for every caller.
// Each step below is one critical section of some goroutine.

module Catalog {

  import opened Wrappers

  type Info = string

  /** `takenAt` is when the listing it came from took its generation. */
  datatype Entry = Entry(info: Info, learnedAt: nat, takenAt: nat)

  datatype Generation = Generation(
    bornAt: nat, tools: map<string, Entry>, walking: Option<nat>, walkedAt: Option<nat>)

  const CATALOG_TTL: nat := 10_000_000_000
  const MAX_LISTING_PAGES: nat := 100

  /** A goroutine: a tools/list being forwarded, or a lookup and the walk it leads or waits for. */
  datatype Thread =
    | Idle
    | Listing(gen: nat, takenAt: nat)
    | Leading(gen: nat, takenAt: nat, name: string, channel: nat, pages: nat)
    | Ending(gen: nat, takenAt: nat, name: string, channel: nat, finished: bool)
    | Closing(gen: nat, takenAt: nat, name: string, channel: nat)
    | Waiting(gen: nat, takenAt: nat, name: string, channel: nat)
    | Reading(gen: nat, takenAt: nat, name: string)
    | Answered(gen: nat, takenAt: nat, answer: Option<Entry>)

  /**
   * `tick` counts steps, `clock` is the time; the last generation is the current one; `closes`
   * counts the closes of each channel.
   */
  datatype State = State(tick: nat, clock: nat, gens: seq<Generation>, threads: seq<Thread>, closes: seq<nat>)

  datatype Step =
    | Pass(time: nat)
    | Invalidate
    | Take(t: nat)
    | Advertise(t: nat, page: map<string, Info>)
    | ListFails(t: nat)
    | Lookup(t: nat, name: string, session: bool)
    | Page(t: nat, page: map<string, Info>, more: bool)
    | PageFails(t: nat)
    | EndWalk(t: nat)
    | Close(t: nat)
    | Wake(t: nat)
    | GiveUp(t: nat)
    | Read(t: nat)

  // ------------------------------------------------------------ the critical sections

  /** What advertise adds to a generation. */
  function Learned(tools: map<string, Entry>, page: map<string, Info>, clock: nat, takenAt: nat): map<string, Entry> {
    tools + map name | name in page :: Entry(page[name], clock, takenAt)
  }

  function Lookedup(g: Generation, name: string): Option<Entry> {
    if name in g.tools then Some(g.tools[name]) else None
  }

  predicate Recent(since: Option<nat>, now: nat) {
    since.Some? && now - since.value < CATALOG_TTL
  }

  /** lookupIn answers from what is known: a trusted entry, or a miss remembered from a recent walk. */
  predicate Known(g: Generation, name: string, clock: nat) {
    || Recent(if name in g.tools then Some(g.tools[name].learnedAt) else None, clock)
    || Recent(g.walkedAt, clock)
  }

  function Walked(g: Generation, finished: bool, clock: nat): Generation {
    g.(walking := None, walkedAt := if finished then Some(clock) else g.walkedAt)
  }

  function Current(s: State): nat
    requires |s.gens| > 0
  {
    |s.gens| - 1
  }

  /** advertise: a page is remembered only if the generation is still current. */
  function Advertised(s: State, gen: nat, takenAt: nat, page: map<string, Info>): State
    requires gen < |s.gens|
  {
    if gen != Current(s) then s
    else s.(gens := s.gens[gen := s.gens[gen].(tools := Learned(s.gens[gen].tools, page, s.clock, takenAt))])
  }

  function Moved(s: State, t: nat, to: Thread): State
    requires t < |s.threads|
  {
    s.(threads := s.threads[t := to])
  }

  // ------------------------------------------------------------ the steps

  predicate At(s: State, t: nat) {
    t < |s.threads|
  }

  predicate Enabled(s: State, step: Step) {
    match step
    case Pass(_) => true
    case Invalidate => true
    case Take(t) => At(s, t) && s.threads[t].Idle?
    case Advertise(t, _) => At(s, t) && s.threads[t].Listing?
    case ListFails(t) => At(s, t) && s.threads[t].Listing?
    case Lookup(t, _, _) => At(s, t) && (s.threads[t].Idle? || s.threads[t].Answered?)
    case Page(t, _, _) => At(s, t) && s.threads[t].Leading?
    case PageFails(t) => At(s, t) && s.threads[t].Leading?
    case EndWalk(t) => At(s, t) && s.threads[t].Ending?
    case Close(t) => At(s, t) && s.threads[t].Closing?
    case Wake(t) =>
      At(s, t) && s.threads[t].Waiting? && s.threads[t].channel < |s.closes| && s.closes[s.threads[t].channel] > 0
    case GiveUp(t) => At(s, t) && s.threads[t].Waiting?
    case Read(t) => At(s, t) && s.threads[t].Reading?
  }

  function LookupIn(s: State, t: nat, name: string, session: bool): State
    requires At(s, t) && |s.gens| > 0
  {
    var cur := Current(s);
    var g := s.gens[cur];
    if Known(g, name, s.clock) || !session then Moved(s, t, Answered(cur, s.tick, Lookedup(g, name)))
    else if g.walking.Some? then Moved(s, t, Waiting(cur, s.tick, name, g.walking.value))
    else
      var channel := |s.closes|;
      Moved(s, t, Leading(cur, s.tick, name, channel, 0)).(
        gens := s.gens[cur := g.(walking := Some(channel))], closes := s.closes + [0])
  }

  function Paged(s: State, t: nat, page: map<string, Info>, more: bool): State
    requires At(s, t) && s.threads[t].Leading? && s.threads[t].gen < |s.gens|
  {
    var w := s.threads[t];
    var next := if more && w.pages + 1 < MAX_LISTING_PAGES then w.(pages := w.pages + 1)
                else Ending(w.gen, w.takenAt, w.name, w.channel, true);
    Moved(Advertised(s, w.gen, w.takenAt, page), t, next)
  }

  function Act(s: State, step: Step): State
    requires Enabled(s, step) && Placed(s)
  {
    match step
    case Pass(time) => s.(clock := s.clock + time)
    case Invalidate => s.(gens := s.gens + [Generation(s.tick, map[], None, None)])
    case Take(t) => Moved(s, t, Listing(Current(s), s.tick))
    case Advertise(t, page) => Moved(Advertised(s, s.threads[t].gen, s.threads[t].takenAt, page), t, Idle)
    case ListFails(t) => Moved(s, t, Idle)
    case Lookup(t, name, session) => LookupIn(s, t, name, session)
    case Page(t, page, more) => Paged(s, t, page, more)
    case PageFails(t) =>
      var w := s.threads[t];
      Moved(s, t, Ending(w.gen, w.takenAt, w.name, w.channel, false))
    case EndWalk(t) =>
      var w := s.threads[t];
      Moved(s, t, Closing(w.gen, w.takenAt, w.name, w.channel)).(
        gens := s.gens[w.gen := Walked(s.gens[w.gen], w.finished, s.clock)])
    case Close(t) =>
      var w := s.threads[t];
      Moved(s, t, Reading(w.gen, w.takenAt, w.name)).(closes := s.closes[w.channel := s.closes[w.channel] + 1])
    case Wake(t) => Moved(s, t, Reading(s.threads[t].gen, s.threads[t].takenAt, s.threads[t].name))
    case GiveUp(t) => Moved(s, t, Reading(s.threads[t].gen, s.threads[t].takenAt, s.threads[t].name))
    case Read(t) =>
      var w := s.threads[t];
      Moved(s, t, Answered(w.gen, w.takenAt, Lookedup(s.gens[w.gen], w.name)))
  }

  function Do(s: State, step: Step): State
    requires Enabled(s, step) && Placed(s)
  {
    Act(s, step).(tick := s.tick + 1)
  }

  function Start(n: nat): State {
    State(1, 0, [Generation(0, map[], None, None)], seq(n, _ => Idle), [])
  }

  // ------------------------------------------------------------ invariants

  /** Threads name generations and channels that exist. */
  ghost predicate Placed(s: State) {
    && |s.gens| > 0
    && (forall t :: 0 <= t < |s.threads| && !s.threads[t].Idle? ==> s.threads[t].gen < |s.gens|)
    && (forall t :: 0 <= t < |s.threads| && (Owns(s.threads[t]) || s.threads[t].Waiting?) ==>
          s.threads[t].channel < |s.closes|)
  }

  /** The thread leads a walk, or has still to close its channel. */
  predicate Owns(w: Thread) {
    w.Leading? || w.Ending? || w.Closing?
  }

  /** The thread's walk is under way. */
  predicate Walks(w: Thread) {
    w.Leading? || w.Ending?
  }

  /** Generations are born in order, and everything bears times of its own generation or later. */
  ghost predicate Dated(s: State) {
    && (forall g :: 0 <= g < |s.gens| ==> s.gens[g].bornAt < s.tick)
    && (forall g, h :: 0 <= g < h < |s.gens| ==> s.gens[g].bornAt < s.gens[h].bornAt)
    && (forall g, name :: 0 <= g < |s.gens| && name in s.gens[g].tools ==>
          s.gens[g].bornAt < s.gens[g].tools[name].takenAt < s.tick)
  }

  /** A thread took its generation while that was the current one. */
  ghost predicate TookCurrent(s: State) {
    forall t :: 0 <= t < |s.threads| && !s.threads[t].Idle? && s.threads[t].gen < |s.gens| ==>
      && s.gens[s.threads[t].gen].bornAt < s.threads[t].takenAt < s.tick
      && (s.threads[t].gen + 1 < |s.gens| ==> s.threads[t].takenAt < s.gens[s.threads[t].gen + 1].bornAt)
  }

  ghost predicate AnswersDated(s: State) {
    forall t :: 0 <= t < |s.threads| && s.threads[t].Answered? && s.threads[t].answer.Some? && s.threads[t].gen < |s.gens| ==>
      s.gens[s.threads[t].gen].bornAt < s.threads[t].answer.value.takenAt
  }

  /** A channel has one owner until it is closed, once; each generation's walk is that of one thread. */
  ghost predicate SingleFlight(s: State) {
    && (forall t, u :: 0 <= t < u < |s.threads| && Owns(s.threads[t]) && Owns(s.threads[u]) ==>
          s.threads[t].channel != s.threads[u].channel)
    && (forall t :: 0 <= t < |s.threads| && Owns(s.threads[t]) && s.threads[t].channel < |s.closes| ==>
          s.closes[s.threads[t].channel] == 0)
    && (forall t :: 0 <= t < |s.threads| && Walks(s.threads[t]) && s.threads[t].gen < |s.gens| ==>
          s.gens[s.threads[t].gen].walking == Some(s.threads[t].channel))
    && (forall t :: 0 <= t < |s.threads| && s.threads[t].Leading? ==> s.threads[t].pages < MAX_LISTING_PAGES)
  }

  ghost predicate Owned(s: State, channel: nat) {
    exists t :: 0 <= t < |s.threads| && Owns(s.threads[t]) && s.threads[t].channel == channel
  }

  ghost predicate WalkLed(s: State, g: nat, channel: nat) {
    exists t :: 0 <= t < |s.threads| && Walks(s.threads[t]) && s.threads[t].gen == g && s.threads[t].channel == channel
  }

  /** A channel nobody owns has been closed; a generation that says a walk runs has one. */
  ghost predicate Accounted(s: State) {
    && (forall c :: 0 <= c < |s.closes| && !Owned(s, c) ==> s.closes[c] == 1)
    && (forall g :: 0 <= g < |s.gens| && s.gens[g].walking.Some? ==> WalkLed(s, g, s.gens[g].walking.value))
  }

  ghost predicate Inv(s: State) {
    Placed(s) && Dated(s) && TookCurrent(s) && AnswersDated(s) && SingleFlight(s) && Accounted(s)
  }

  lemma StartsWell(n: nat)
    ensures Inv(Start(n))
  {
  }

  // ------------------------------------------------------------ dates

  /** The generations know the same things, whatever walks run in them. */
  ghost predicate SameLore(s: State, r: State) {
    && |r.gens| == |s.gens| && r.tick == s.tick + 1
    && (forall g :: 0 <= g < |s.gens| ==> r.gens[g].bornAt == s.gens[g].bornAt && r.gens[g].tools == s.gens[g].tools)
  }

  lemma SameLoreDated(s: State, r: State)
    requires Dated(s) && SameLore(s, r)
    ensures Dated(r)
  {
  }

  lemma AdvertisedDated(s: State, gen: nat, takenAt: nat, page: map<string, Info>)
    requires Dated(s) && gen < |s.gens| && s.gens[gen].bornAt < takenAt < s.tick
    ensures Dated(Advertised(s, gen, takenAt, page).(tick := s.tick + 1))
  {
  }

  lemma LoreStays(s: State, step: Step)
    requires Placed(s) && Enabled(s, step) && !step.Invalidate? && !step.Advertise? && !step.Page?
    ensures SameLore(s, Do(s, step))
  {
  }

  lemma KeepsDated(s: State, step: Step)
    requires Inv(s) && Enabled(s, step)
    ensures Dated(Do(s, step))
  {
    var r := Do(s, step);
    match step
    case Invalidate =>
    case Advertise(t, page) => AdvertisedDated(s, s.threads[t].gen, s.threads[t].takenAt, page);
    case Page(t, page, _) =>
      AdvertisedDated(s, s.threads[t].gen, s.threads[t].takenAt, page);
      assert r.gens == Advertised(s, s.threads[t].gen, s.threads[t].takenAt, page).gens;
    case _ =>
      LoreStays(s, step);
      SameLoreDated(s, r);
  }

  // ------------------------------------------------------------ threads, one of which moves

  /** Generations keep their births; there may be more of them. */
  ghost predicate Older(s: State, r: State) {
    && 0 < |s.gens| <= |r.gens| && r.tick == s.tick + 1
    && (forall g :: 0 <= g < |s.gens| ==> r.gens[g].bornAt == s.gens[g].bornAt)
    && (forall g :: |s.gens| <= g < |r.gens| ==> r.gens[g].bornAt == s.tick)
  }

  lemma StepsAge(s: State, step: Step)
    requires Placed(s) && Enabled(s, step)
    ensures Older(s, Do(s, step)) && |Do(s, step).threads| == |s.threads|
    ensures |s.closes| <= |Do(s, step).closes|
  {
  }

  function Mover(step: Step): Option<nat> {
    match step
    case Pass(_) => None
    case Invalidate => None
    case _ => Some(step.t)
  }

  /** At most one thread moves. */
  lemma OthersStay(s: State, step: Step, u: nat)
    requires Placed(s) && Enabled(s, step) && u < |s.threads| && Mover(step) != Some(u)
    ensures u < |Do(s, step).threads| && Do(s, step).threads[u] == s.threads[u]
  {
  }

  /** The thread took its generation while it was the current one, and what it answered came later still. */
  ghost predicate WellTaken(s: State, w: Thread) {
    !w.Idle? ==>
      && w.gen < |s.gens|
      && s.gens[w.gen].bornAt < w.takenAt < s.tick
      && (w.gen + 1 < |s.gens| ==> w.takenAt < s.gens[w.gen + 1].bornAt)
      && (w.Answered? && w.answer.Some? ==> s.gens[w.gen].bornAt < w.answer.value.takenAt)
      && (Owns(w) || w.Waiting? ==> w.channel < |s.closes|)
  }

  lemma WellTakenStays(s: State, r: State, w: Thread)
    requires Older(s, r) && |s.closes| <= |r.closes| && WellTaken(s, w)
    ensures WellTaken(r, w)
  {
  }

  lemma LookupWellTaken(s: State, t: nat, name: string, session: bool)
    requires Inv(s) && Enabled(s, Lookup(t, name, session))
    ensures var r := Do(s, Lookup(t, name, session)); WellTaken(r, r.threads[t])
  {
  }

  lemma ReadWellTaken(s: State, t: nat)
    requires Inv(s) && Enabled(s, Read(t))
    ensures var r := Do(s, Read(t)); WellTaken(r, r.threads[t])
  {
  }

  lemma MoverWellTaken(s: State, step: Step, t: nat)
    requires Inv(s) && Enabled(s, step) && Mover(step) == Some(t)
    ensures var r := Do(s, step); t < |r.threads| && WellTaken(r, r.threads[t])
  {
    StepsAge(s, step);
    match step
    case Lookup(_, name, session) => LookupWellTaken(s, t, name, session);
    case Read(_) => ReadWellTaken(s, t);
    case _ =>
  }

  lemma ThreadStaysWell(s: State, step: Step, u: nat)
    requires Inv(s) && Enabled(s, step) && u < |s.threads|
    ensures var r := Do(s, step); u < |r.threads| && WellTaken(r, r.threads[u])
  {
    if Mover(step) == Some(u) {
      MoverWellTaken(s, step, u);
    } else {
      StepsAge(s, step);
      OthersStay(s, step, u);
      assert WellTaken(s, s.threads[u]);
      WellTakenStays(s, Do(s, step), s.threads[u]);
    }
  }

  lemma KeepsThreads(s: State, step: Step)
    requires Inv(s) && Enabled(s, step)
    ensures var r := Do(s, step); Placed(r) && TookCurrent(r) && AnswersDated(r)
  {
    var r := Do(s, step);
    StepsAge(s, step);
    forall u: nat | u < |r.threads| ensures WellTaken(r, r.threads[u]) {
      ThreadStaysWell(s, step, u);
    }
  }

  // ------------------------------------------------------------ walks and their channels

  ghost predicate SameWalks(s: State, r: State) {
    |r.gens| == |s.gens| && forall g :: 0 <= g < |s.gens| ==> r.gens[g].walking == s.gens[g].walking
  }

  /** The thread is no more of a walker than it was. */
  predicate Steadier(from: Thread, to: Thread) {
    && (Owns(to) <==> Owns(from)) && (Walks(to) <==> Walks(from))
    && (Owns(to) ==> to.channel == from.channel && to.gen == from.gen)
    && (to.Leading? ==> to.pages < MAX_LISTING_PAGES)
  }

  /** Whoever owned the channel still does. */
  lemma OwnedCarries(s: State, r: State, c: nat)
    requires |r.threads| >= |s.threads|
    requires forall u :: 0 <= u < |s.threads| && Owns(s.threads[u]) && s.threads[u].channel == c ==>
               Owns(r.threads[u]) && r.threads[u].channel == c
    ensures Owned(s, c) ==> Owned(r, c)
  {
  }

  lemma WalkCarries(s: State, r: State, g: nat, c: nat)
    requires |r.threads| >= |s.threads|
    requires forall u :: 0 <= u < |s.threads| && Walks(s.threads[u]) && s.threads[u].gen == g && s.threads[u].channel == c ==>
               Walks(r.threads[u]) && r.threads[u].gen == g && r.threads[u].channel == c
    ensures WalkLed(s, g, c) ==> WalkLed(r, g, c)
  {
  }

  lemma MoveKeepsWalks(s: State, r: State, t: nat)
    requires Inv(s) && At(s, t) && |r.threads| == |s.threads| && r.threads == s.threads[t := r.threads[t]]
    requires r.closes == s.closes && SameWalks(s, r) && Steadier(s.threads[t], r.threads[t])
    ensures SingleFlight(r) && Accounted(r)
  {
    forall c: nat ensures Owned(s, c) ==> Owned(r, c) {
      OwnedCarries(s, r, c);
    }
    forall g: nat, c: nat ensures WalkLed(s, g, c) ==> WalkLed(r, g, c) {
      WalkCarries(s, r, g, c);
    }
  }

  lemma InvalidateKeepsWalks(s: State)
    requires Inv(s)
    ensures SingleFlight(Do(s, Invalidate)) && Accounted(Do(s, Invalidate))
  {
  }

  ghost predicate Leads(s: State, t: nat, name: string, session: bool) {
    && Placed(s) && Enabled(s, Lookup(t, name, session))
    && !Known(s.gens[Current(s)], name, s.clock) && session && s.gens[Current(s)].walking.None?
  }

  lemma LeadKeepsWalks(s: State, t: nat, name: string, session: bool)
    requires Inv(s) && Leads(s, t, name, session)
    ensures SingleFlight(Do(s, Lookup(t, name, session))) && Accounted(Do(s, Lookup(t, name, session)))
  {
    var r := Do(s, Lookup(t, name, session));
    assert Owns(r.threads[t]) && Walks(r.threads[t]) && r.threads[t].channel == |s.closes|;
    assert Owned(r, |s.closes|) && WalkLed(r, Current(s), |s.closes|);
    forall c: nat ensures Owned(s, c) ==> Owned(r, c) {
      OwnedCarries(s, r, c);
    }
    forall g: nat, c: nat ensures WalkLed(s, g, c) ==> WalkLed(r, g, c) {
      WalkCarries(s, r, g, c);
    }
  }

  lemma EndKeepsSingle(s: State, t: nat)
    requires Inv(s) && Enabled(s, EndWalk(t))
    ensures SingleFlight(Do(s, EndWalk(t)))
  {
    var r := Do(s, EndWalk(t));
    forall u | 0 <= u < |r.threads| && Walks(r.threads[u])
      ensures r.gens[r.threads[u].gen].walking == Some(r.threads[u].channel)
    {
      assert u != t && s.threads[u].channel != s.threads[t].channel;
    }
  }

  lemma EndKeepsWalks(s: State, t: nat)
    requires Inv(s) && Enabled(s, EndWalk(t))
    ensures SingleFlight(Do(s, EndWalk(t))) && Accounted(Do(s, EndWalk(t)))
  {
    var r := Do(s, EndWalk(t));
    EndKeepsSingle(s, t);
    forall c: nat ensures Owned(s, c) ==> Owned(r, c) {
      OwnedCarries(s, r, c);
    }
    forall g: nat, c: nat | g != s.threads[t].gen ensures WalkLed(s, g, c) ==> WalkLed(r, g, c) {
      WalkCarries(s, r, g, c);
    }
  }

  lemma CloseKeepsSingle(s: State, t: nat)
    requires Inv(s) && Enabled(s, Close(t))
    ensures SingleFlight(Do(s, Close(t)))
  {
    var r := Do(s, Close(t));
    forall u | 0 <= u < |r.threads| && Owns(r.threads[u]) ensures r.threads[u].channel != s.threads[t].channel {
      assert u != t && s.threads[u] == r.threads[u];
    }
  }

  lemma CloseKeepsWalks(s: State, t: nat)
    requires Inv(s) && Enabled(s, Close(t))
    ensures SingleFlight(Do(s, Close(t))) && Accounted(Do(s, Close(t)))
  {
    var r := Do(s, Close(t));
    CloseKeepsSingle(s, t);
    forall c: nat | c != s.threads[t].channel ensures Owned(s, c) ==> Owned(r, c) {
      OwnedCarries(s, r, c);
    }
    forall g: nat, c: nat ensures WalkLed(s, g, c) ==> WalkLed(r, g, c) {
      WalkCarries(s, r, g, c);
    }
  }

  lemma LookupKeepsWalks(s: State, t: nat, name: string, session: bool)
    requires Inv(s) && Enabled(s, Lookup(t, name, session))
    ensures SingleFlight(Do(s, Lookup(t, name, session))) && Accounted(Do(s, Lookup(t, name, session)))
  {
    if Leads(s, t, name, session) {
      LeadKeepsWalks(s, t, name, session);
    } else {
      MoveKeepsWalks(s, Do(s, Lookup(t, name, session)), t);
    }
  }

  /** Every other step of a thread leaves it the walker it was. */
  lemma StepIsSteady(s: State, step: Step)
    requires Placed(s) && Enabled(s, step)
    requires !(step.Pass? || step.Invalidate? || step.Lookup? || step.EndWalk? || step.Close?)
    ensures var r := Do(s, step);
            && At(s, step.t) && |r.threads| == |s.threads| && r.threads == s.threads[step.t := r.threads[step.t]]
            && r.closes == s.closes && SameWalks(s, r) && Steadier(s.threads[step.t], r.threads[step.t])
  {
  }

  lemma KeepsWalks(s: State, step: Step)
    requires Inv(s) && Enabled(s, step)
    ensures SingleFlight(Do(s, step)) && Accounted(Do(s, step))
  {
    match step
    case Pass(_) => PassKeepsWalks(s, step);
    case Invalidate => InvalidateKeepsWalks(s);
    case Lookup(t, name, session) => LookupKeepsWalks(s, t, name, session);
    case EndWalk(t) => EndKeepsWalks(s, t);
    case Close(t) => CloseKeepsWalks(s, t);
    case _ =>
      StepIsSteady(s, step);
      MoveKeepsWalks(s, Do(s, step), step.t);
  }

  lemma PassKeepsWalks(s: State, step: Step)
    requires Inv(s) && step.Pass?
    ensures SingleFlight(Do(s, step)) && Accounted(Do(s, step))
  {
  }

  lemma StepKeeps(s: State, step: Step)
    requires Inv(s) && Enabled(s, step)
    ensures Inv(Do(s, step))
  {
    KeepsThreads(s, step);
    KeepsDated(s, step);
    KeepsWalks(s, step);
  }

  // ------------------------------------------------------------ over whole runs

  ghost predicate Run(s: State, steps: seq<Step>, r: State)
    decreases |steps|
  {
    if |steps| == 0 then r == s
    else Placed(s) && Enabled(s, steps[0]) && Run(Do(s, steps[0]), steps[1..], r)
  }

  lemma {:induction false} RunKeeps(s: State, steps: seq<Step>, r: State)
    requires Inv(s) && Run(s, steps, r)
    ensures Inv(r)
    decreases |steps|
  {
    if |steps| > 0 {
      StepKeeps(s, steps[0]);
      RunKeeps(Do(s, steps[0]), steps[1..], r);
    }
  }

  lemma Reachable(n: nat, steps: seq<Step>, s: State)
    requires Run(Start(n), steps, s)
    ensures Inv(s)
  {
    StartsWell(n);
    RunKeeps(Start(n), steps, s);
  }

  /**
   * Every entry of the current generation came from a listing that took its generation after the
   * latest invalidation.
   */
  lemma CurrentIsFresh(n: nat, steps: seq<Step>, s: State, name: string)
    requires Run(Start(n), steps, s) && |s.gens| > 0 && name in s.gens[Current(s)].tools
    ensures s.gens[Current(s)].tools[name].takenAt > s.gens[Current(s)].bornAt
    ensures forall g :: 0 <= g < |s.gens| ==> s.gens[g].bornAt <= s.gens[Current(s)].bornAt
  {
    Reachable(n, steps, s);
  }

  lemma StepFreezes(s: State, step: Step, g: nat)
    requires Placed(s) && Enabled(s, step) && g + 1 < |s.gens|
    ensures var r := Do(s, step); g + 1 < |r.gens| && r.gens[g].tools == s.gens[g].tools
  {
    if !step.Invalidate? && !step.Advertise? && !step.Page? {
      LoreStays(s, step);
    }
  }

  /** Once a generation is invalidated, nothing is ever written to its map again. */
  lemma {:induction false} InvalidatedIsFrozen(s: State, steps: seq<Step>, r: State, g: nat)
    requires Inv(s) && Run(s, steps, r) && g + 1 < |s.gens|
    ensures g + 1 < |r.gens| && r.gens[g].tools == s.gens[g].tools
    decreases |steps|
  {
    if |steps| > 0 {
      StepFreezes(s, steps[0], g);
      StepKeeps(s, steps[0]);
      InvalidatedIsFrozen(Do(s, steps[0]), steps[1..], r, g);
    }
  }

  /** At most one walk lists into a generation at a time. */
  lemma OneWalkPerGeneration(n: nat, steps: seq<Step>, s: State, t: nat, u: nat)
    requires Run(Start(n), steps, s) && t < |s.threads| && u < |s.threads|
    requires Walks(s.threads[t]) && Walks(s.threads[u]) && s.threads[t].gen == s.threads[u].gen
    ensures t == u
  {
    Reachable(n, steps, s);
  }

  /** Each walk's channel is closed exactly once: not while its walk runs, once after, and never again. */
  lemma ClosedExactlyOnce(n: nat, steps: seq<Step>, s: State, channel: nat)
    requires Run(Start(n), steps, s) && channel < |s.closes|
    ensures s.closes[channel] == if Owned(s, channel) then 0 else 1
    ensures forall t :: 0 <= t < |s.threads| && s.threads[t].Closing? && s.threads[t].channel == channel ==> s.closes[channel] == 0
  {
    Reachable(n, steps, s);
  }

  /**
   * What a lookup answers comes from a listing that took its generation after
   * every invalidation made before the lookup looked at the catalog.
   */
  lemma AnswersAreFresh(n: nat, steps: seq<Step>, s: State, t: nat, g: nat)
    requires Run(Start(n), steps, s) && t < |s.threads| && s.threads[t].Answered? && s.threads[t].answer.Some?
    requires g < |s.gens| && s.gens[g].bornAt < s.threads[t].takenAt
    ensures s.threads[t].answer.value.takenAt > s.gens[g].bornAt
  {
    Reachable(n, steps, s);
    var own := s.threads[t].gen;
    assert s.gens[g].bornAt <= s.gens[own].bornAt || g > own;
  }
}
