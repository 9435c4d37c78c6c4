// The life of a batch: sendBatch registers it, counts it and puts it on the
// bounded batch queue; one worker is spawned for it, takes a batch off the
// queue and uploads it with retries, in legacy mode or under capture-v1. Each
// step is one operation that another goroutine could observe.

module Transport {

  import opened Batching

  /** A delivery's `done` channel: the attempt after a retry makes a new one. */
  datatype Chan = Chan(delivery: nat, generation: nat)

  /**
   * Who holds a batch and what it does next: the loop inside sendBatch (first
   * line), the queue (second line), or a worker.
   */
  datatype Phase =
    | Registered | Counted | Refused | Uncounted | Dropping
    | Sent
    | Started | Beginning(i: nat) | Uploading(i: nat) | Settling(i: nat) | Failing(i: nat)
    | Deferring(i: nat) | BackingOff(i: nat)
    | Notifying(ok: bool) | Completing | Releasing | Gone

  /**
   * What became of the messages of a batch: those owed a callback, in order; of
   * a capture-v1 answer, those it asked to retry so far; those told success or
   * failure; and those an answer omitted, which are never told.
   */
  datatype Slip = Slip(owed: seq<Msg>, kept: seq<Msg>, ok: multiset<Msg>, bad: multiset<Msg>, omitted: multiset<Msg>)

  /** What the service made of a batch: nothing yet, all of it accepted, or (capture-v1) answered event by event. */
  datatype Fate = Unsettled | AcceptedWhole | Answered

  /** `fate` and `lastBackoff` are history. */
  datatype Delivery = Delivery(
    batch: seq<Msg>, phase: Phase, generation: nat, retrying: bool, slip: Slip, fate: Fate, lastBackoff: int)

  /** What is done with the next message owed a callback. */
  datatype Mark = Succeed | Fail | Keep | Omit

  function Fresh(batch: seq<Msg>): Slip {
    Slip(batch, [], multiset{}, multiset{}, multiset{})
  }

  /** Every message of the batch has been told, or omitted. */
  predicate Finished(s: Slip) {
    s.owed == [] && s.kept == []
  }

  function Marked(s: Slip, k: Mark): Slip
    requires |s.owed| > 0
  {
    var m, rest := s.owed[0], s.(owed := s.owed[1..]);
    match k
    case Succeed => rest.(ok := s.ok + multiset{m})
    case Fail => rest.(bad := s.bad + multiset{m})
    case Keep => rest.(kept := s.kept + [m])
    case Omit => rest.(omitted := s.omitted + multiset{m})
  }

  /** What was kept is owed again. */
  function Reopened(s: Slip): Slip {
    s.(owed := s.kept, kept := [])
  }

  /** Where the loop is with respect to sendBatch. */
  datatype Submitter = Idle | Submitting | Spawning

  datatype Transport = Transport(
    deliveries: seq<Delivery>, live: set<nat>, batches: seq<nat>, batchesClosed: bool,
    submitter: Submitter, waiting: nat, inFlight: int, closed: set<Chan>,
    succeeded: multiset<Msg>, failed: multiset<Msg>, crashed: bool)

  const NO_DELIVERIES := Transport([], {}, [], false, Idle, 0, 0, {}, multiset{}, multiset{}, false)

  /** What a worker can see of the rest of the client, and the bounds it works under. */
  datatype Env = Env(
    v1: bool, batchesSize: nat, maxAttempts: nat, nonBlocking: bool, quit: bool, cancelled: bool, clock: nat)

  /**
   * How an upload ends. Only in legacy mode is a batch accepted as a whole; only
   * under capture-v1 are its events settled one by one, or is a retryable status
   * told from a failed exchange.
   */
  datatype Answer = Accepted | Settled | Terminal | Retryable | Busy
  datatype Wake = TimerFired | QuitSeen | CancelSeen

  datatype WorkerStep =
    | Marshal(ok: bool) | Begin | Upload(answer: Answer) | Settle(mark: Mark) | Conclude
    | CheckContext | Defer | WakeUp(why: Wake) | Panic | Notify | Complete | Release

  datatype Step =
    | Register(batch: seq<Msg>) | Count | Send | Spawn
    | Refuse | Uncount | DropDelivery | DropNotify | DropDone
    | TakeBatch | Orphan
    | Worker(d: nat, w: WorkerStep)
    | CloseBatches

  predicate LoopHolds(p: Phase) {
    p.Registered? || p.Counted? || p.Refused? || p.Uncounted? || p.Dropping?
  }

  predicate InLive(p: Phase) {
    !p.Dropping? && !p.Releasing? && !p.Gone?
  }

  /** Does the in-flight counter stand for this batch? */
  predicate CountsInFlight(p: Phase) {
    !p.Registered? && !p.Uncounted? && !p.Dropping? && !p.Gone?
  }

  function Last(t: Transport): nat
    requires |t.deliveries| > 0
  {
    |t.deliveries| - 1
  }

  function Current(t: Transport, d: nat): Chan
    requires d < |t.deliveries|
  {
    Chan(d, t.deliveries[d].generation)
  }

  function With(t: Transport, d: nat, x: Delivery): Transport
    requires d < |t.deliveries|
  {
    t.(deliveries := t.deliveries[d := x])
  }

  function Enter(t: Transport, d: nat, p: Phase): Transport
    requires d < |t.deliveries|
  {
    With(t, d, t.deliveries[d].(phase := p))
  }

  /** close(c): closing a closed channel panics. */
  function CloseChan(t: Transport, c: Chan): Transport {
    t.(closed := t.closed + {c}, crashed := t.crashed || c in t.closed)
  }

  /** beginDeliveryAttempt */
  function BeginAttempt(t: Transport, d: nat, clock: nat): Transport
    requires d < |t.deliveries|
  {
    var x := t.deliveries[d];
    if x.retrying
    then With(t, d, x.(generation := x.generation + 1, retrying := false, lastBackoff := clock))
    else t
  }

  /** deferDeliveryRetry */
  function DeferRetry(t: Transport, d: nat): Transport
    requires d < |t.deliveries|
  {
    var x := t.deliveries[d];
    if x.retrying then t else CloseChan(With(t, d, x.(retrying := true)), Current(t, d))
  }

  /** completeDelivery */
  function CompleteDelivery(t: Transport, d: nat): Transport
    requires d < |t.deliveries|
  {
    var removed := t.(live := t.live - {d});
    if t.deliveries[d].retrying then removed else CloseChan(removed, Current(t, d))
  }

  /** The next message owed a callback gets one, is kept, or is omitted. */
  function MarkNext(t: Transport, d: nat, k: Mark): Transport
    requires d < |t.deliveries| && |t.deliveries[d].slip.owed| > 0
  {
    var x := t.deliveries[d];
    var one := multiset{x.slip.owed[0]};
    var marked := With(t, d, x.(slip := Marked(x.slip, k)));
    match k
    case Succeed => marked.(succeeded := t.succeeded + one)
    case Fail => marked.(failed := t.failed + one)
    case _ => marked
  }

  function Tell(t: Transport, d: nat, ok: bool): Transport
    requires d < |t.deliveries| && |t.deliveries[d].slip.owed| > 0
  {
    MarkNext(t, d, if ok then Succeed else Fail)
  }

  // ------------------------------------------------------------ sendBatch

  function Registering(t: Transport, batch: seq<Msg>): Transport {
    t.(deliveries := t.deliveries + [Delivery(batch, Registered, 0, false, Fresh(batch), Unsettled, -1)],
       live := t.live + {|t.deliveries|}, submitter := Submitting)
  }

  function Sending(t: Transport): Transport
    requires |t.deliveries| > 0
  {
    Enter(t, Last(t), Sent).(batches := t.batches + [Last(t)], submitter := Spawning)
  }

  /** The newest delivery is the one the loop is submitting. */
  predicate NewestIn(t: Transport, p: Phase) {
    t.submitter.Submitting? && |t.deliveries| > 0 && t.deliveries[Last(t)].phase == p
  }

  /**
   * May a worker with this delivery take step w? Under capture-v1 a body that
   * cannot be built ends its attempt, and a panic after an answer that settled
   * some event is left out: the recovery would tell that event again.
   */
  predicate Ready(e: Env, x: Delivery, w: WorkerStep) {
    var p := x.phase;
    match w
    case Marshal(ok) => p.Started? && (e.v1 ==> ok)
    case Begin => p.Beginning?
    case Upload(answer) =>
      p.Uploading? && (answer.Accepted? ==> !e.v1) && (answer.Settled? || answer.Busy? ==> e.v1)
    case Settle(_) => p.Settling? && |x.slip.owed| > 0
    case Conclude => p.Settling? && |x.slip.owed| == 0
    case CheckContext => p.Failing?
    case Defer => p.Deferring?
    case WakeUp(why) => p.BackingOff? && (why.QuitSeen? ==> e.quit) && (why.CancelSeen? ==> e.cancelled)
    case Panic => (p.Started? || p.Uploading? || p.Failing? || p.BackingOff?) && !x.fate.Answered?
    case Notify => p.Notifying?
    case Complete => p.Completing?
    case Release => p.Releasing?
  }

  predicate WorkerEnabled(e: Env, t: Transport, d: nat, w: WorkerStep) {
    d < |t.deliveries| && Ready(e, t.deliveries[d], w)
  }

  /** Under capture-v1 nothing is waited for after the last attempt. */
  function Retrying(e: Env, i: nat): Phase {
    if i + 1 < e.maxAttempts then Deferring(i) else if e.v1 then Notifying(false) else BackingOff(i)
  }

  /** The phase a worker's batch enters. */
  function NextPhase(e: Env, x: Delivery, w: WorkerStep): Phase
    requires Ready(e, x, w)
  {
    match w
    case Marshal(ok) => if ok then Beginning(0) else Notifying(false)
    case Begin => Uploading(x.phase.i)
    case Upload(answer) =>
      (match answer
       case Accepted => Notifying(true)
       case Settled => Settling(x.phase.i)
       case Terminal => Notifying(false)
       case Retryable => Failing(x.phase.i)
       case Busy => Retrying(e, x.phase.i))
    case Settle(_) => x.phase
    case Conclude => if x.slip.kept == [] then Completing else Retrying(e, x.phase.i)
    case CheckContext => if e.cancelled then Notifying(false) else Retrying(e, x.phase.i)
    case Defer => BackingOff(x.phase.i)
    case WakeUp(why) =>
      if why.TimerFired? && x.phase.i + 1 < e.maxAttempts then Beginning(x.phase.i + 1) else Notifying(false)
    case Panic => Notifying(false)
    case Notify => if |x.slip.owed| > 0 then x.phase else Completing
    case Complete => Releasing
    case Release => Gone
  }

  function FateAfter(x: Delivery, answer: Answer): Fate {
    match answer
    case Accepted => AcceptedWhole
    case Settled => Answered
    case _ => x.fate
  }

  function WorkerDo(e: Env, t: Transport, d: nat, w: WorkerStep): Transport
    requires WorkerEnabled(e, t, d, w)
  {
    var x := t.deliveries[d];
    var p := NextPhase(e, x, w);
    match w
    case Begin => Enter(BeginAttempt(t, d, e.clock), d, p)
    case Upload(answer) => With(t, d, x.(phase := p, fate := FateAfter(x, answer)))
    case Settle(k) => MarkNext(t, d, k)
    case Conclude => With(t, d, x.(phase := p, slip := Reopened(x.slip)))
    case Defer => Enter(DeferRetry(t, d), d, p)
    case Notify => if |x.slip.owed| > 0 then Tell(t, d, x.phase.ok) else Enter(t, d, p)
    case Complete => Enter(CompleteDelivery(t, d), d, p)
    case Release => Enter(t, d, p).(inFlight := t.inFlight - 1)
    case _ => Enter(t, d, p)
  }

  predicate Enabled(e: Env, t: Transport, step: Step) {
    match step
    case Register(batch) => t.submitter.Idle? && |batch| > 0
    case Count => NewestIn(t, Registered)
    case Send => NewestIn(t, Counted) && |t.batches| < e.batchesSize
    case Spawn => t.submitter.Spawning?
    case Refuse => NewestIn(t, Counted) && (e.nonBlocking ==> |t.batches| >= e.batchesSize)
    case Uncount => NewestIn(t, Refused)
    case DropDelivery => NewestIn(t, Uncounted)
    case DropNotify => NewestIn(t, Dropping) && |t.deliveries[Last(t)].slip.owed| > 0
    case DropDone => NewestIn(t, Dropping) && t.deliveries[Last(t)].slip.owed == []
    case TakeBatch => t.waiting > 0 && |t.batches| > 0 && t.batches[0] < |t.deliveries|
    case Orphan => t.waiting > 0 && |t.batches| == 0 && t.batchesClosed
    case Worker(d, w) => WorkerEnabled(e, t, d, w)
    case CloseBatches => true
  }

  function Do(e: Env, t: Transport, step: Step): Transport
    requires Enabled(e, t, step)
  {
    match step
    case Register(batch) => Registering(t, batch)
    case Count => Enter(t, Last(t), Counted).(inFlight := t.inFlight + 1)
    case Send => Sending(t)
    case Spawn => t.(waiting := t.waiting + 1, submitter := Idle)
    case Refuse => Enter(t, Last(t), Refused)
    case Uncount => Enter(t, Last(t), Uncounted).(inFlight := t.inFlight - 1)
    case DropDelivery => Enter(CompleteDelivery(t, Last(t)), Last(t), Dropping)
    case DropNotify => Tell(t, Last(t), false)
    case DropDone => Enter(t, Last(t), Gone).(submitter := Idle)
    case TakeBatch => Enter(t, t.batches[0], Started).(waiting := t.waiting - 1, batches := t.batches[1..])
    case Orphan => t.(waiting := t.waiting - 1, inFlight := t.inFlight - 1)
    case Worker(d, w) => WorkerDo(e, t, d, w)
    case CloseBatches => t.(batchesClosed := true, crashed := t.crashed || t.batchesClosed)
  }
}

/** What every transport step keeps. */
module TransportInvariant {

  import opened Batching
  import opened Transport

  /** What can be open on the slip of a batch, given who holds it. */
  predicate ToldFits(x: Delivery) {
    && (x.phase.Completing? || x.phase.Releasing? || x.phase.Gone? ==> Finished(x.slip))
    && (x.slip.kept != [] ==> x.phase.Settling?)
  }

  ghost predicate ToldShape(t: Transport) {
    forall d :: 0 <= d < |t.deliveries| ==> ToldFits(t.deliveries[d])
  }

  /** Only the newest delivery can be the loop's, and only while it submits. */
  ghost predicate LoopShape(t: Transport) {
    && (forall d :: 0 <= d < |t.deliveries| && LoopHolds(t.deliveries[d].phase) ==>
          d == |t.deliveries| - 1 && t.submitter.Submitting?)
    && (t.submitter.Submitting? ==> |t.deliveries| > 0 && LoopHolds(t.deliveries[Last(t)].phase))
  }

  ghost predicate QueueShape(t: Transport) {
    && (forall j :: 0 <= j < |t.batches| ==> t.batches[j] < |t.deliveries| && t.deliveries[t.batches[j]].phase.Sent?)
    && (forall i, j :: 0 <= i < j < |t.batches| ==> t.batches[i] != t.batches[j])
    && (forall d :: 0 <= d < |t.deliveries| && t.deliveries[d].phase.Sent? ==> d in t.batches)
  }

  /** Batches queued equal workers still to receive, one more between a send and its spawn. */
  ghost predicate WorkersMatchBatches(t: Transport) {
    |t.batches| == t.waiting + if t.submitter.Spawning? then 1 else 0
  }

  function One(p: Phase): nat {
    if CountsInFlight(p) then 1 else 0
  }

  function InFlightOf(ds: seq<Delivery>): nat {
    if |ds| == 0 then 0 else InFlightOf(ds[..|ds| - 1]) + One(ds[|ds| - 1].phase)
  }

  ghost predicate CountShape(t: Transport) {
    t.inFlight == InFlightOf(t.deliveries)
  }

  ghost predicate LiveShape(t: Transport) {
    && (forall d :: d in t.live ==> d < |t.deliveries|)
    && (forall d :: 0 <= d < |t.deliveries| ==> (d in t.live <==> InLive(t.deliveries[d].phase)))
  }

  /** A channel is over once its attempt is retried, while it waits to retry, or when it completes. */
  ghost predicate ChanOver(t: Transport, c: Chan)
    requires c.delivery < |t.deliveries|
  {
    var x := t.deliveries[c.delivery];
    || c.generation < x.generation
    || (c.generation == x.generation && (x.retrying || c.delivery !in t.live))
  }

  ghost predicate ChanShape(t: Transport) {
    forall c: Chan :: c.delivery < |t.deliveries| ==> (c in t.closed <==> ChanOver(t, c))
  }

  ghost predicate ChanKnown(t: Transport) {
    forall c: Chan :: c in t.closed ==> c.delivery < |t.deliveries|
  }

  ghost predicate Holders(t: Transport) {
    ToldShape(t) && LoopShape(t) && QueueShape(t) && WorkersMatchBatches(t) && CountShape(t)
  }

  ghost predicate Channels(t: Transport) {
    LiveShape(t) && ChanShape(t) && ChanKnown(t) && !t.crashed
  }

  ghost predicate Inv(t: Transport) {
    Holders(t) && Channels(t)
  }

  lemma InFlightAppend(ds: seq<Delivery>, x: Delivery)
    ensures InFlightOf(ds + [x]) == InFlightOf(ds) + One(x.phase)
  {
    assert (ds + [x])[..|ds|] == ds;
  }

  lemma {:induction false} InFlightUpdate(ds: seq<Delivery>, d: nat, x: Delivery)
    requires d < |ds|
    ensures InFlightOf(ds[d := x]) + One(ds[d].phase) == InFlightOf(ds) + One(x.phase)
  {
    var n := |ds| - 1;
    if d == n {
      assert ds[d := x][..n] == ds[..n];
    } else {
      InFlightUpdate(ds[..n], d, x);
      assert ds[d := x][..n] == ds[..n][d := x];
    }
  }

  predicate SameStanding(p: Phase, q: Phase) {
    LoopHolds(p) == LoopHolds(q) && p.Sent? == q.Sent? && CountsInFlight(p) == CountsInFlight(q)
  }

  /** A delivery moves within its holder, whatever happens to its channel. */
  lemma SameStandingKeepsHolders(t: Transport, d: nat, x: Delivery)
    requires Holders(t) && d < |t.deliveries| && ToldFits(x) && SameStanding(t.deliveries[d].phase, x.phase)
    ensures Holders(With(t, d, x))
  {
    InFlightUpdate(t.deliveries, d, x);
  }

  /** Holders says nothing about the live set, the channels or the ledger. */
  lemma HoldersFrame(t: Transport, u: Transport)
    requires Holders(t) && u.deliveries == t.deliveries && u.batches == t.batches
    requires u.submitter == t.submitter && u.waiting == t.waiting && u.inFlight == t.inFlight
    ensures Holders(u)
  {
  }

  lemma SameStandingKeeps(t: Transport, d: nat, x: Delivery)
    requires Inv(t) && d < |t.deliveries| && ToldFits(x)
    requires SameStanding(t.deliveries[d].phase, x.phase) && InLive(x.phase) == InLive(t.deliveries[d].phase)
    requires x.generation == t.deliveries[d].generation && x.retrying == t.deliveries[d].retrying
    ensures Inv(With(t, d, x))
  {
    SameStandingKeepsHolders(t, d, x);
  }

  lemma BeginKeeps(t: Transport, d: nat, clock: nat, p: Phase)
    requires Inv(t) && d < |t.deliveries| && t.deliveries[d].phase.Beginning? && p.Uploading?
    ensures Inv(Enter(BeginAttempt(t, d, clock), d, p))
  {
    var x := Enter(BeginAttempt(t, d, clock), d, p).deliveries[d];
    BeginIs(t, d, clock, p);
    assert ToldFits(t.deliveries[d]);
    SameStandingKeepsHolders(t, d, x);
    BeginChannels(t, d, x);
  }

  lemma BeginIs(t: Transport, d: nat, clock: nat, p: Phase)
    requires d < |t.deliveries|
    ensures var u, x := Enter(BeginAttempt(t, d, clock), d, p), t.deliveries[d];
            var y := u.deliveries[d];
            && u == With(t, d, y) && y.phase == p && y.slip == x.slip && !y.retrying
            && y.generation == x.generation + if x.retrying then 1 else 0
  {
  }

  /** A new generation takes the place of the one that was over. */
  lemma BeginChannels(t: Transport, d: nat, y: Delivery)
    requires Channels(t) && d < |t.deliveries| && InLive(t.deliveries[d].phase) && InLive(y.phase) && !y.retrying
    requires y.generation == t.deliveries[d].generation + if t.deliveries[d].retrying then 1 else 0
    ensures Channels(With(t, d, y))
  {
    assert forall c: Chan :: c.delivery < |t.deliveries| ==> (ChanOver(With(t, d, y), c) <==> ChanOver(t, c));
  }

  lemma OneMoreClosed(t: Transport, u: Transport, k: Chan)
    requires ChanShape(t) && ChanKnown(t) && k.delivery < |t.deliveries| == |u.deliveries|
    requires u.closed == t.closed + {k}
    requires forall c: Chan :: c.delivery < |t.deliveries| ==> (ChanOver(u, c) <==> ChanOver(t, c) || c == k)
    ensures ChanShape(u) && ChanKnown(u)
  {
  }

  lemma DeferKeeps(t: Transport, d: nat, p: Phase)
    requires Inv(t) && d < |t.deliveries| && t.deliveries[d].phase.Deferring? && p.BackingOff?
    ensures Inv(Enter(DeferRetry(t, d), d, p))
  {
    var u := Enter(DeferRetry(t, d), d, p);
    var x := u.deliveries[d];
    SameStandingKeepsHolders(t, d, x);
    HoldersFrame(With(t, d, x), u);
    if t.deliveries[d].retrying {
      SameStandingKeeps(t, d, x);
    } else {
      var k := Current(t, d);
      assert k !in t.closed;
      assert forall c: Chan :: c.delivery < |t.deliveries| ==> (ChanOver(u, c) <==> ChanOver(t, c) || c == k);
      OneMoreClosed(t, u, k);
    }
  }

  /** completeDelivery, with the phase of whoever calls it. */
  lemma CompleteKeeps(t: Transport, d: nat, p: Phase)
    requires Inv(t) && d < |t.deliveries| && InLive(t.deliveries[d].phase) && !InLive(p)
    requires SameStanding(t.deliveries[d].phase, p) && ToldFits(t.deliveries[d].(phase := p))
    ensures Inv(Enter(CompleteDelivery(t, d), d, p))
  {
    var u := Enter(CompleteDelivery(t, d), d, p);
    var x := t.deliveries[d].(phase := p);
    CompleteIs(t, d, p);
    SameStandingKeepsHolders(t, d, x);
    HoldersFrame(With(t, d, x), u);
    CompleteChannels(t, d, p);
  }

  lemma CompleteIs(t: Transport, d: nat, p: Phase)
    requires d < |t.deliveries|
    ensures var u := Enter(CompleteDelivery(t, d), d, p);
            && u.deliveries == t.deliveries[d := t.deliveries[d].(phase := p)] && u.batches == t.batches
            && u.submitter == t.submitter && u.waiting == t.waiting && u.inFlight == t.inFlight
  {
  }

  lemma CompleteChannels(t: Transport, d: nat, p: Phase)
    requires Channels(t) && d < |t.deliveries| && InLive(t.deliveries[d].phase) && !InLive(p)
    ensures Channels(Enter(CompleteDelivery(t, d), d, p))
  {
    var u := Enter(CompleteDelivery(t, d), d, p);
    var k := Current(t, d);
    assert forall c: Chan :: c.delivery < |t.deliveries| ==> (ChanOver(u, c) <==> ChanOver(t, c) || c == k);
  }

  /** A phase changes, but neither a channel nor whether the delivery is live. */
  lemma PhaseKeepsChannels(t: Transport, u: Transport, d: nat, p: Phase)
    requires Channels(t) && d < |t.deliveries| && InLive(p) == InLive(t.deliveries[d].phase)
    requires u.deliveries == t.deliveries[d := t.deliveries[d].(phase := p)]
    requires u.live == t.live && u.closed == t.closed && u.crashed == t.crashed
    ensures Channels(u)
  {
    assert forall c: Chan :: c.delivery < |t.deliveries| ==> (ChanOver(u, c) <==> ChanOver(t, c));
  }

  /** A phase changes, but neither who holds the batch nor what it was told. */
  lemma PhaseKeepsShapes(t: Transport, u: Transport, d: nat, p: Phase)
    requires ToldShape(t) && LoopShape(t) && QueueShape(t) && WorkersMatchBatches(t) && d < |t.deliveries|
    requires u.deliveries == t.deliveries[d := t.deliveries[d].(phase := p)] && ToldFits(u.deliveries[d])
    requires LoopHolds(p) == LoopHolds(t.deliveries[d].phase) && p.Sent? == t.deliveries[d].phase.Sent?
    requires u.batches == t.batches && u.submitter == t.submitter && u.waiting == t.waiting
    ensures ToldShape(u) && LoopShape(u) && QueueShape(u) && WorkersMatchBatches(u)
  {
  }

  lemma ReleaseHolders(t: Transport, d: nat)
    requires Holders(t) && d < |t.deliveries| && t.deliveries[d].phase.Releasing?
    ensures Holders(Enter(t, d, Gone).(inFlight := t.inFlight - 1))
  {
    PhaseKeepsShapes(t, Enter(t, d, Gone).(inFlight := t.inFlight - 1), d, Gone);
    InFlightUpdate(t.deliveries, d, t.deliveries[d].(phase := Gone));
  }

  lemma ReleaseKeeps(t: Transport, d: nat)
    requires Inv(t) && d < |t.deliveries| && t.deliveries[d].phase.Releasing?
    ensures Inv(Enter(t, d, Gone).(inFlight := t.inFlight - 1))
  {
    ReleaseHolders(t, d);
    PhaseKeepsChannels(t, Enter(t, d, Gone).(inFlight := t.inFlight - 1), d, Gone);
  }

  lemma MarkKeeps(t: Transport, d: nat, k: Mark)
    requires Inv(t) && d < |t.deliveries| && |t.deliveries[d].slip.owed| > 0
    requires var p := t.deliveries[d].phase; p.Settling? || ((p.Notifying? || p.Dropping?) && !k.Keep?)
    ensures Inv(MarkNext(t, d, k))
  {
    var x := t.deliveries[d];
    var marked := With(t, d, x.(slip := Marked(x.slip, k)));
    SameStandingKeeps(t, d, x.(slip := Marked(x.slip, k)));
    HoldersFrame(marked, MarkNext(t, d, k));
    assert forall c: Chan :: c.delivery < |t.deliveries| ==> (ChanOver(MarkNext(t, d, k), c) <==> ChanOver(marked, c));
  }

  /** Told one more, or all told. */
  lemma NotifyKeeps(t: Transport, d: nat)
    requires Inv(t) && d < |t.deliveries| && t.deliveries[d].phase.Notifying?
    ensures var x := t.deliveries[d];
            Inv(if |x.slip.owed| > 0 then Tell(t, d, x.phase.ok) else Enter(t, d, Completing))
  {
    var x := t.deliveries[d];
    if |x.slip.owed| > 0 {
      MarkKeeps(t, d, if x.phase.ok then Succeed else Fail);
    } else {
      SameStandingKeeps(t, d, x.(phase := Completing));
    }
  }

  /** A worker goes on to another phase, with its channel as it is. */
  predicate Moves(w: WorkerStep) {
    w.Marshal? || w.Upload? || w.Conclude? || w.CheckContext? || w.WakeUp? || w.Panic?
  }

  lemma MoveIs(e: Env, t: Transport, d: nat, w: WorkerStep)
    requires WorkerEnabled(e, t, d, w) && Moves(w) && ToldFits(t.deliveries[d])
    ensures var u, x := WorkerDo(e, t, d, w), t.deliveries[d];
            var y := u.deliveries[d];
            && u == With(t, d, y) && ToldFits(y)
            && SameStanding(x.phase, y.phase) && InLive(x.phase) && InLive(y.phase)
            && y.generation == x.generation && y.retrying == x.retrying
  {
  }

  lemma WorkerKeeps(e: Env, t: Transport, d: nat, w: WorkerStep)
    requires Inv(t) && WorkerEnabled(e, t, d, w)
    ensures Inv(WorkerDo(e, t, d, w))
  {
    var x := t.deliveries[d];
    assert ToldFits(x);
    if Moves(w) {
      MoveIs(e, t, d, w);
      SameStandingKeeps(t, d, WorkerDo(e, t, d, w).deliveries[d]);
    } else {
      match w
      case Begin => BeginKeeps(t, d, e.clock, Uploading(x.phase.i));
      case Settle(k) => MarkKeeps(t, d, k);
      case Defer => DeferKeeps(t, d, BackingOff(x.phase.i));
      case Notify => NotifyKeeps(t, d);
      case Complete => CompleteKeeps(t, d, Releasing);
      case Release => ReleaseKeeps(t, d);
    }
  }

  lemma RegisterHolders(t: Transport, batch: seq<Msg>)
    requires Holders(t) && t.submitter.Idle?
    ensures Holders(Registering(t, batch))
  {
    InFlightAppend(t.deliveries, Delivery(batch, Registered, 0, false, Fresh(batch), Unsettled, -1));
  }

  lemma RegisterChannels(t: Transport, batch: seq<Msg>)
    requires Channels(t) && t.submitter.Idle?
    ensures Channels(Registering(t, batch))
  {
  }

  lemma RegisterKeeps(t: Transport, batch: seq<Msg>)
    requires Inv(t) && t.submitter.Idle?
    ensures Inv(Registering(t, batch))
  {
    RegisterHolders(t, batch);
    RegisterChannels(t, batch);
  }

  lemma CountHolders(t: Transport)
    requires Holders(t) && NewestIn(t, Registered)
    ensures Holders(Enter(t, Last(t), Counted).(inFlight := t.inFlight + 1))
  {
    InFlightUpdate(t.deliveries, Last(t), t.deliveries[Last(t)].(phase := Counted));
  }

  lemma CountKeeps(t: Transport)
    requires Inv(t) && NewestIn(t, Registered)
    ensures Inv(Enter(t, Last(t), Counted).(inFlight := t.inFlight + 1))
  {
    CountHolders(t);
    PhaseKeepsChannels(t, Enter(t, Last(t), Counted).(inFlight := t.inFlight + 1), Last(t), Counted);
  }

  lemma SendHolders(t: Transport)
    requires Holders(t) && NewestIn(t, Counted)
    ensures Holders(Sending(t))
  {
    InFlightUpdate(t.deliveries, Last(t), t.deliveries[Last(t)].(phase := Sent));
  }

  lemma SendKeeps(t: Transport)
    requires Inv(t) && NewestIn(t, Counted)
    ensures Inv(Sending(t))
  {
    SendHolders(t);
    PhaseKeepsChannels(t, Sending(t), Last(t), Sent);
  }

  lemma UncountHolders(t: Transport)
    requires Holders(t) && NewestIn(t, Refused)
    ensures Holders(Enter(t, Last(t), Uncounted).(inFlight := t.inFlight - 1))
  {
    InFlightUpdate(t.deliveries, Last(t), t.deliveries[Last(t)].(phase := Uncounted));
  }

  lemma UncountKeeps(t: Transport)
    requires Inv(t) && NewestIn(t, Refused)
    ensures Inv(Enter(t, Last(t), Uncounted).(inFlight := t.inFlight - 1))
  {
    UncountHolders(t);
    PhaseKeepsChannels(t, Enter(t, Last(t), Uncounted).(inFlight := t.inFlight - 1), Last(t), Uncounted);
  }

  lemma DropDoneHolders(t: Transport)
    requires Holders(t) && NewestIn(t, Dropping) && t.deliveries[Last(t)].slip.owed == []
    ensures Holders(Enter(t, Last(t), Gone).(submitter := Idle))
  {
    InFlightUpdate(t.deliveries, Last(t), t.deliveries[Last(t)].(phase := Gone));
  }

  lemma DropDoneKeeps(t: Transport)
    requires Inv(t) && NewestIn(t, Dropping) && t.deliveries[Last(t)].slip.owed == []
    ensures Inv(Enter(t, Last(t), Gone).(submitter := Idle))
  {
    DropDoneHolders(t);
    PhaseKeepsChannels(t, Enter(t, Last(t), Gone).(submitter := Idle), Last(t), Gone);
  }

  function Taken(t: Transport): Transport
    requires t.waiting > 0 && |t.batches| > 0 && t.batches[0] < |t.deliveries|
  {
    Enter(t, t.batches[0], Started).(waiting := t.waiting - 1, batches := t.batches[1..])
  }

  lemma TakeBatchQueue(t: Transport)
    requires QueueShape(t) && WorkersMatchBatches(t) && t.waiting > 0 && |t.batches| > 0
    ensures QueueShape(Taken(t)) && WorkersMatchBatches(Taken(t))
  {
  }

  lemma TakeBatchShapes(t: Transport)
    requires ToldShape(t) && LoopShape(t) && QueueShape(t) && t.waiting > 0 && |t.batches| > 0
    ensures ToldShape(Taken(t)) && LoopShape(Taken(t))
  {
  }

  lemma TakeBatchHolders(t: Transport)
    requires Holders(t) && t.waiting > 0 && |t.batches| > 0
    ensures Holders(Taken(t))
  {
    var d := t.batches[0];
    TakeBatchQueue(t);
    TakeBatchShapes(t);
    InFlightUpdate(t.deliveries, d, t.deliveries[d].(phase := Started));
  }

  lemma TakeBatchKeeps(t: Transport)
    requires Inv(t) && t.waiting > 0 && |t.batches| > 0
    ensures Inv(Taken(t))
  {
    TakeBatchHolders(t);
    PhaseKeepsChannels(t, Taken(t), t.batches[0], Started);
  }

  lemma SpawnKeeps(t: Transport)
    requires Inv(t) && t.submitter.Spawning?
    ensures Inv(t.(waiting := t.waiting + 1, submitter := Idle))
  {
  }

  lemma CloseBatchesKeeps(t: Transport)
    requires Inv(t) && !t.batchesClosed
    ensures Inv(t.(batchesClosed := true))
  {
    HoldersFrame(t, t.(batchesClosed := true));
  }

  /** What sendBatch does up to the send. */
  lemma SubmitKeeps(e: Env, t: Transport, step: Step)
    requires Inv(t) && Enabled(e, t, step)
    requires step.Register? || step.Count? || step.Send? || step.Spawn?
    ensures Inv(Do(e, t, step))
  {
    match step
    case Register(batch) => RegisterKeeps(t, batch);
    case Count => CountKeeps(t);
    case Send => SendKeeps(t);
    case Spawn => SpawnKeeps(t);
  }

  /** What sendBatch and its caller do when the queue is full. */
  lemma RefuseKeeps(e: Env, t: Transport, step: Step)
    requires Inv(t) && Enabled(e, t, step)
    requires step.Refuse? || step.Uncount? || step.DropDelivery? || step.DropNotify? || step.DropDone?
    ensures Inv(Do(e, t, step))
  {
    match step
    case Refuse => SameStandingKeeps(t, Last(t), t.deliveries[Last(t)].(phase := Refused));
    case Uncount => UncountKeeps(t);
    case DropDelivery => CompleteKeeps(t, Last(t), Dropping);
    case DropNotify => MarkKeeps(t, Last(t), Fail);
    case DropDone => DropDoneKeeps(t);
  }

  /**
   * Every step keeps the bookkeeping, none closes a channel twice, and a worker
   * never finds the batch queue closed and empty.
   */
  lemma StepKeeps(e: Env, t: Transport, step: Step)
    requires Inv(t) && Enabled(e, t, step)
    requires step.CloseBatches? ==> !t.batchesClosed
    ensures Inv(Do(e, t, step))
    ensures !step.Orphan?
  {
    match step
    case TakeBatch => TakeBatchKeeps(t);
    case Orphan => assert false;
    case Worker(d, w) => WorkerKeeps(e, t, d, w);
    case CloseBatches => CloseBatchesKeeps(t);
    case _ =>
      if step.Register? || step.Count? || step.Send? || step.Spawn? {
        SubmitKeeps(e, t, step);
      } else {
        RefuseKeeps(e, t, step);
      }
  }
}
