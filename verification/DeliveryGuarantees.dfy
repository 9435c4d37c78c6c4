// The promises of the delivery pipeline, over every run.

module DeliveryGuarantees {

  import opened Batching
  import opened Pipeline
  import F = FlushInvariant
  import I = IntakeInvariant
  import L = TransportLedger
  import P = PipelineInvariant
  import T = Transport
  import TI = TransportInvariant

  // ------------------------------------------------------------ callbacks

  /** At any point of any run, an accepted message has had at most one callback, and nothing else has had any. */
  lemma AtMostOneCallback(c: Config, states: seq<State>, steps: seq<Step>, n: nat, m: Msg)
    requires ValidConfig(c) && Run(c, states, steps) && n < |states|
    ensures P.Callbacks(states[n])[m] <= 1
    ensures P.Callbacks(states[n])[m] == 1 ==> m in states[n].i.accepted
  {
    P.RunKeeps(c, states, steps, n);
    var s := states[n];
    P.Conserved(c, s);
    OccursOnce(s.i.accepted, |I.Prefix(s.i)|, m);
  }

  /** Messages numbered by their places occur at most once, in any prefix. */
  lemma OccursOnce(accepted: seq<Msg>, n: nat, m: Msg)
    requires n <= |accepted| && forall k :: 0 <= k < |accepted| ==> accepted[k].id == k
    ensures multiset(accepted[..n])[m] <= multiset(accepted)[m] <= 1
    ensures m !in accepted ==> multiset(accepted)[m] == 0
  {
    assert accepted == accepted[..n] + accepted[n..];
    if m in accepted {
      var k :| 0 <= k < |accepted| && accepted[k] == m;
      P.Numbered(accepted, k);
    } else {
      assert m !in multiset(accepted);
    }
  }

  /** The intake of a stopped loop is empty: everything accepted is in a batch or was refused. */
  lemma StoppedIsDrained(c: Config, i: Intake, batches: seq<seq<Msg>>)
    requires ValidConfig(c) && I.Inv(c, i, batches) && P.PastDrain(i.pc)
    ensures Flatten(batches) == Kept(i.accepted) && i.refused == TooBig(i.accepted) && i.msgsClosed
  {
    StoppedHoldsNothing(c, i);
    NothingMore(Flatten(batches));
  }

  lemma StoppedHoldsNothing(c: Config, i: Intake)
    requires I.Queue(i) && I.Sizes(c, i) && P.PastDrain(i.pc)
    ensures i.open == [] && I.InHand(i.pc) == [] && I.Prefix(i) == i.accepted && i.msgsClosed
  {
  }

  lemma NothingMore(ms: seq<Msg>)
    ensures ms + [] + [] == ms
  {
  }

  /** The messages that a capture-v1 answer left out. */
  function Omitted(s: State): multiset<Msg> {
    L.Omitted(s.t.deliveries)
  }

  /** Once the loop has stopped with nothing in flight, every accepted message was told or left out by an answer. */
  lemma QuietMeansTold(c: Config, s: State)
    requires ValidConfig(c) && P.Inv(c, s) && P.PastDrain(s.i.pc) && !s.life.cancelled
    ensures P.Callbacks(s) + Omitted(s) == multiset(s.i.accepted)
    ensures s.t.live == {} && s.i.msgsClosed
  {
    L.Quiescence(s.t);
    StoppedIsDrained(c, s.i, L.BatchesOf(s.t.deliveries));
    KeptOrTooBig(s.i.accepted);
    Assembled(s.t.succeeded, s.t.failed, Omitted(s), multiset(Kept(s.i.accepted)), multiset(s.i.refused),
              multiset(s.i.accepted));
  }

  lemma Assembled(
      s: multiset<Msg>, f: multiset<Msg>, omitted: multiset<Msg>, kept: multiset<Msg>, refused: multiset<Msg>,
      all: multiset<Msg>)
    requires s + f + omitted == kept && kept + refused == all
    ensures s + f + refused + omitted == all
  {
  }

  /**
   * When CloseWithContext returns nil, every message ever written to the queue
   * has had exactly one callback, unless a capture-v1 answer left it out:
   * oversized ones, those of batches the queue refused, and those that raced
   * with the shutdown included. In legacy mode nothing is left out.
   */
  lemma CloseNilToldEach(c: Config, states: seq<State>, steps: seq<Step>, n: nat, k: nat)
    requires ValidConfig(c) && Run(c, states, steps) && n < |states|
    requires states[n].life.closer == Returned(true) && k < |states[n].i.accepted|
    ensures var s := states[n];
            var m := s.i.accepted[k];
            && P.Callbacks(s)[m] == (if m in Omitted(s) then 0 else 1)
            && (!c.v1 ==> P.Callbacks(s)[m] == 1)
            && s.t.live == {} && s.i.msgsClosed
  {
    P.RunKeeps(c, states, steps, n);
    var s := states[n];
    QuietMeansTold(c, s);
    P.Numbered(s.i.accepted, k);
    var m := s.i.accepted[k];
    assert (P.Callbacks(s) + Omitted(s))[m] == 1;
    if !c.v1 {
      L.NoneOmitted(s.t);
    }
  }

  /** Once close has returned nil the loop is past its work, and the queue is closed. */
  lemma ClosedIsPast(c: Config, s: State)
    requires ValidConfig(c) && P.Inv(c, s) && s.life.closer == Returned(true)
    ensures (s.i.pc.ClosingBatches? || s.i.pc.Stopped?) && !s.life.cancelled && s.i.msgsClosed
  {
    StoppedHoldsNothing(c, s.i);
  }

  lemma ClosedStep(c: Config, s: State, step: Step)
    requires Enabled(c, s, step) && !step.Carry? && s.life.closer == Returned(true)
    requires (s.i.pc.ClosingBatches? || s.i.pc.Stopped?) && s.i.msgsClosed
    ensures Do(c, s, step).life.closer == Returned(true)
    ensures Do(c, s, step).i.accepted == s.i.accepted && P.Callbacks(Do(c, s, step)) == P.Callbacks(s)
  {
  }

  /** No step of a worker or of sendBatch is left. */
  lemma ClosedStays(c: Config, s: State, step: Step)
    requires ValidConfig(c) && P.Inv(c, s) && Enabled(c, s, step) && s.life.closer == Returned(true)
    ensures Do(c, s, step).life.closer == Returned(true)
    ensures Do(c, s, step).i.accepted == s.i.accepted && P.Callbacks(Do(c, s, step)) == P.Callbacks(s)
  {
    ClosedIsPast(c, s);
    if step.Carry? {
      P.CarryIsBeforeDrain(c, s, step.ts);
    }
    ClosedStep(c, s, step);
  }

  lemma RunStep(c: Config, states: seq<State>, steps: seq<Step>, n: nat)
    requires Run(c, states, steps) && n < |steps|
    ensures Enabled(c, states[n], steps[n]) && states[n + 1] == Do(c, states[n], steps[n])
  {
  }

  /** Closed for good: from s to u nothing was accepted and no callback made. */
  ghost predicate Still(s: State, u: State) {
    u.life.closer == Returned(true) && u.i.accepted == s.i.accepted && P.Callbacks(u) == P.Callbacks(s)
  }

  lemma ClosedRunStep(c: Config, states: seq<State>, steps: seq<Step>, n: nat)
    requires ValidConfig(c) && Run(c, states, steps) && n < |steps| && states[n].life.closer == Returned(true)
    ensures Still(states[n], states[n + 1])
  {
    RunStep(c, states, steps, n);
    P.RunKeeps(c, states, steps, n);
    ClosedStays(c, states[n], steps[n]);
  }

  lemma StillJoins(s: State, u: State, v: State)
    requires Still(s, u) && Still(u, v)
    ensures Still(s, v)
  {
  }

  /** From that moment on, no message is accepted and no callback is made. */
  lemma {:induction false} CloseNilIsFinal(c: Config, states: seq<State>, steps: seq<Step>, n: nat, k: nat)
    requires ValidConfig(c) && Run(c, states, steps) && n <= k < |states|
    requires states[n].life.closer == Returned(true)
    ensures Still(states[n], states[k])
    decreases k
  {
    if n < k {
      CloseNilIsFinal(c, states, steps, n, k - 1);
      ClosedRunStep(c, states, steps, k - 1);
      StillJoins(states[n], states[k - 1], states[k]);
    }
  }

  lemma {:induction false} PartSource(ds: seq<T.Delivery>, p: L.Part, m: Msg) returns (d: nat)
    requires m in L.Sum(ds, p) && forall i :: 0 <= i < |ds| ==> L.Accounts(ds[i])
    ensures d < |ds| && m in L.PartOf(ds[d].slip, p) && m in ds[d].batch
  {
    var last := |ds| - 1;
    if m in L.PartOf(ds[last].slip, p) {
      d := last;
      PartIsIn(ds[d], p, m);
    } else {
      d := PartSource(ds[..last], p, m);
    }
  }

  lemma PartIsIn(x: T.Delivery, p: L.Part, m: Msg)
    requires L.Accounts(x) && m in L.PartOf(x.slip, p)
    ensures m in x.batch
  {
    assert m in L.Total(x.slip);
    assert m in multiset(x.batch);
  }

  /** Some delivery of the message has this fate. */
  ghost predicate Fated(t: T.Transport, m: Msg, fate: T.Fate) {
    exists d: nat :: F.InBatch(t, d, m) && t.deliveries[d].fate == fate
  }

  /**
   * Success is called only for messages of a batch the service accepted, or,
   * under capture-v1, answered event by event; Failure only for messages of a
   * batch it did not accept; only such an answer leaves a message out.
   */
  lemma CallbacksAreHonest(c: Config, states: seq<State>, steps: seq<Step>, n: nat, m: Msg)
    requires ValidConfig(c) && Run(c, states, steps) && n < |states|
    ensures var s := states[n];
            && (m in s.t.succeeded ==> Fated(s.t, m, if c.v1 then T.Answered else T.AcceptedWhole))
            && (m in s.t.failed ==> Fated(s.t, m, T.Unsettled) || (c.v1 && Fated(s.t, m, T.Answered)))
            && (m in Omitted(s) ==> c.v1 && Fated(s.t, m, T.Answered))
            && (m in s.i.refused ==> Oversized(m))
  {
    P.RunKeeps(c, states, steps, n);
    TransportIsHonest(c.v1, states[n].t, m);
    if m in states[n].i.refused {
      BigIsBig(I.Prefix(states[n].i), m);
    }
  }

  /** What the fate of a delivery was if it has a message in this part of its slip. */
  predicate FateFits(v1: bool, fate: T.Fate, p: L.Part) {
    match p
    case Successes => fate == if v1 then T.Answered else T.AcceptedWhole
    case Failures => fate == T.Unsettled || (v1 && fate == T.Answered)
    case Omissions => v1 && fate == T.Answered
    case Owings => true
  }

  lemma PartFits(v1: bool, x: T.Delivery, p: L.Part, m: Msg)
    requires L.Outcome(v1, x) && m in L.PartOf(x.slip, p)
    ensures FateFits(v1, x.fate, p)
  {
  }

  lemma FateOf(v1: bool, t: T.Transport, p: L.Part, m: Msg) returns (fate: T.Fate)
    requires L.Outcomes(v1, t) && L.Accounted(t) && m in L.Sum(t.deliveries, p)
    ensures Fated(t, m, fate) && FateFits(v1, fate, p)
  {
    var d := PartSource(t.deliveries, p, m);
    fate := t.deliveries[d].fate;
    PartFits(v1, t.deliveries[d], p, m);
    assert F.InBatch(t, d, m);
  }

  lemma TransportIsHonest(v1: bool, t: T.Transport, m: Msg)
    requires L.Ledger(t) && L.Outcomes(v1, t) && L.Accounted(t)
    ensures m in t.succeeded ==> Fated(t, m, if v1 then T.Answered else T.AcceptedWhole)
    ensures m in t.failed ==> Fated(t, m, T.Unsettled) || (v1 && Fated(t, m, T.Answered))
    ensures m in L.Omitted(t.deliveries) ==> v1 && Fated(t, m, T.Answered)
  {
    if m in t.succeeded {
      var fate := FateOf(v1, t, L.Successes, m);
    }
    if m in t.failed {
      var fate := FateOf(v1, t, L.Failures, m);
    }
    if m in L.Omitted(t.deliveries) {
      var fate := FateOf(v1, t, L.Omissions, m);
    }
  }

  lemma {:induction false} BigIsBig(ms: seq<Msg>, m: Msg)
    requires m in TooBig(ms)
    ensures Oversized(m)
  {
    var last := |ms| - 1;
    if m in TooBig(ms[..last]) {
      BigIsBig(ms[..last], m);
    }
  }

  // ------------------------------------------------------------ bookkeeping

  /**
   * For every live delivery the `done` channel is closed exactly while it is
   * retrying; no channel is ever closed twice; the in-flight counter is zero
   * between two submissions only when no delivery is live; and a worker never
   * finds the batch queue closed and empty.
   */
  lemma Bookkeeping(c: Config, states: seq<State>, steps: seq<Step>, n: nat, d: nat)
    requires ValidConfig(c) && Run(c, states, steps) && n < |states|
    ensures d in states[n].t.live ==>
              && d < |states[n].t.deliveries|
              && (T.Current(states[n].t, d) in states[n].t.closed <==> states[n].t.deliveries[d].retrying)
    ensures !states[n].crashed && !states[n].t.crashed
    ensures states[n].t.inFlight >= 0
    ensures states[n].t.inFlight == 0 && states[n].t.submitter.Idle? ==> states[n].t.live == {}
    ensures !Enabled(c, states[n], Carry(T.Orphan))
  {
    P.RunKeeps(c, states, steps, n);
    ChannelsAreKept(states[n].t, d);
    NoOrphan(c, states[n]);
  }

  lemma NoOrphan(c: Config, s: State)
    requires ValidConfig(c) && P.Inv(c, s)
    ensures !Enabled(c, s, Carry(T.Orphan))
  {
    if Enabled(c, s, Carry(T.Orphan)) {
      P.TransportStep(EnvOf(c, s), s.t, T.Orphan);
    }
  }

  lemma ChannelsAreKept(t: T.Transport, d: nat)
    requires TI.Inv(t) && L.Ledger(t) && L.Accounted(t)
    ensures d in t.live ==> d < |t.deliveries| && (T.Current(t, d) in t.closed <==> t.deliveries[d].retrying)
    ensures !t.crashed && t.inFlight >= 0 && (t.inFlight == 0 && t.submitter.Idle? ==> t.live == {})
  {
    if d in t.live {
      assert TI.ChanOver(t, T.Current(t, d)) <==> t.deliveries[d].retrying;
    }
    if t.inFlight == 0 && t.submitter.Idle? {
      L.Quiescence(t);
    }
  }

  /** The drain that serves a flush never has to wait for a message. */
  lemma FlushDrainNeverBlocks(c: Config, states: seq<State>, steps: seq<Step>, n: nat)
    requires ValidConfig(c) && Run(c, states, steps) && n < |states|
    requires states[n].i.pc.FlushDrain? && states[n].i.pc.left > 0
    ensures Enabled(c, states[n], Loop(FlushReceive))
  {
    P.RunKeeps(c, states, steps, n);
  }

  // ------------------------------------------------------------ batches

  /**
   * The batches handed over, then the open batch, then the message in hand, are
   * the messages read that fit, in the order they were accepted; every batch is
   * within the limits; and the running size is the true one.
   */
  lemma BatchesRefineFifo(c: Config, states: seq<State>, steps: seq<Step>, n: nat)
    requires ValidConfig(c) && Run(c, states, steps) && n < |states|
    ensures var s := states[n];
            var batches := L.BatchesOf(s.t.deliveries);
            && Flatten(batches) + s.i.open + I.InHand(s.i.pc) == Kept(I.Prefix(s.i))
            && I.Prefix(s.i) <= s.i.accepted
            && (forall d :: 0 <= d < |batches| ==> WellSized(batches[d], c.batchSize))
            && s.i.openBytes == Bytes(s.i.open) <= MAX_BATCH_BYTES
            && |s.i.open| <= c.batchSize
  {
    P.RunKeeps(c, states, steps, n);
  }

  // ------------------------------------------------------------ flush

  /** Was the delivery in retry backoff at some moment from step j to step k? */
  ghost predicate BackedOff(states: seq<State>, d: nat, j: nat, k: nat) {
    exists n :: j <= n <= k && n < |states| && d < |states[n].t.deliveries| && states[n].t.deliveries[d].retrying
  }

  ghost predicate History(states: seq<State>, n: nat, x: T.Delivery, d: nat) {
    x.lastBackoff >= 0 ==>
      && x.lastBackoff < n <= |states|
      && d < |states[x.lastBackoff].t.deliveries| && states[x.lastBackoff].t.deliveries[d].retrying
  }

  lemma DeliveryStep(c: Config, s: State, step: Step, d: nat)
    requires TI.ToldShape(s.t) && TI.QueueShape(s.t) && Enabled(c, s, step)
    requires d < |Do(c, s, step).t.deliveries|
    ensures d < |s.t.deliveries| ==> F.Evolves(s.t.deliveries[d], Do(c, s, step).t.deliveries[d], s.clock)
    ensures d >= |s.t.deliveries| ==> Do(c, s, step).t.deliveries[d].lastBackoff == -1
  {
    var e := EnvOf(c, s);
    if d < |s.t.deliveries| {
      assert TI.ToldFits(s.t.deliveries[d]);
    }
    match step
    case SubmitBatch => F.StepEvolves(e, s.t, T.Register(s.i.open));
    case CloseBatches => F.StepEvolves(e, s.t, T.Step.CloseBatches);
    case Carry(ts) =>
      F.StepEvolves(e, s.t, ts);
      L.StepBatches(e, s.t, ts);
      assert |L.BatchesOf(Do(c, s, step).t.deliveries)| == |L.BatchesOf(s.t.deliveries)|;
    case _ =>
  }

  lemma HistoryGrows(states: seq<State>, n: nat, x: T.Delivery, y: T.Delivery, d: nat)
    requires n < |states| && d < |states[n].t.deliveries| && x == states[n].t.deliveries[d]
    requires History(states, n, x, d) && F.Evolves(x, y, n)
    ensures History(states, n + 1, y, d)
  {
  }

  lemma RunDeliveryStep(c: Config, states: seq<State>, steps: seq<Step>, n: nat, d: nat)
    requires ValidConfig(c) && Run(c, states, steps) && n < |steps| && d < |states[n + 1].t.deliveries|
    ensures states[n].clock == n
    ensures d < |states[n].t.deliveries| ==> F.Evolves(states[n].t.deliveries[d], states[n + 1].t.deliveries[d], n)
    ensures d >= |states[n].t.deliveries| ==> states[n + 1].t.deliveries[d].lastBackoff == -1
  {
    RunStep(c, states, steps, n);
    P.RunKeeps(c, states, steps, n);
    F.RunKeeps(c, states, steps, n);
    DeliveryStep(c, states[n], steps[n], d);
  }

  lemma HistoryStep(c: Config, states: seq<State>, steps: seq<Step>, n: nat, d: nat)
    requires ValidConfig(c) && Run(c, states, steps) && n < |steps| && d < |states[n + 1].t.deliveries|
    requires d < |states[n].t.deliveries| ==> History(states, n, states[n].t.deliveries[d], d)
    ensures History(states, n + 1, states[n + 1].t.deliveries[d], d)
  {
    RunDeliveryStep(c, states, steps, n, d);
    if d < |states[n].t.deliveries| {
      HistoryGrows(states, n, states[n].t.deliveries[d], states[n + 1].t.deliveries[d], d);
    }
  }

  lemma {:induction false} BackoffRecorded(c: Config, states: seq<State>, steps: seq<Step>, n: nat, d: nat)
    requires ValidConfig(c) && Run(c, states, steps) && n < |states| && d < |states[n].t.deliveries|
    ensures History(states, n, states[n].t.deliveries[d], d)
  {
    if n > 0 {
      if d < |states[n - 1].t.deliveries| {
        BackoffRecorded(c, states, steps, n - 1, d);
      }
      HistoryStep(c, states, steps, n - 1, d);
    }
  }

  /** What a flush remembers of the moment the loop took it. */
  predicate Remembers(x: Flush, since: int, barrier: nat) {
    match x
    case Taken(s, b, _) => s == since && b == barrier
    case Pending(_, _, s, b, _) => s == since && b == barrier
    case Flushed(s, b) => s == since && b == barrier
    case GaveUp => true
    case Requesting => false
  }

  lemma MemoryStep(c: Config, s: State, step: Step, f: nat, since: int, barrier: nat)
    requires Enabled(c, s, step) && f < |s.flushes| && Remembers(s.flushes[f], since, barrier)
    ensures f < |Do(c, s, step).flushes| && Remembers(Do(c, s, step).flushes[f], since, barrier)
  {
  }

  lemma {:induction false} MemoryKept(c: Config, states: seq<State>, steps: seq<Step>, j: nat, k: nat, f: nat)
    requires ValidConfig(c) && Run(c, states, steps) && j < k < |states|
    requires steps[j] == TakeFlush(f)
    ensures f < |states[k].flushes| && Remembers(states[k].flushes[f], j, |states[j].i.accepted|)
    decreases k
  {
    if k == j + 1 {
      F.RunKeeps(c, states, steps, j);
    } else {
      MemoryKept(c, states, steps, j, k - 1, f);
      MemoryStep(c, states[k - 1], steps[k - 1], f, j, |states[j].i.accepted|);
    }
  }

  /**
   * The flush barrier: the loop takes flush f at step j, and by step k the call
   * has returned nil. Then every message accepted before step j was refused as
   * oversized, or is in a batch all of whose callbacks have been made, or is in
   * a batch that was in retry backoff at some moment from j to k.
   */
  lemma FlushBarrier(c: Config, states: seq<State>, steps: seq<Step>, j: nat, k: nat, f: nat, n: nat)
    requires ValidConfig(c) && Run(c, states, steps) && j < k < |states|
    requires steps[j] == TakeFlush(f) && f < |states[k].flushes| && states[k].flushes[f].Flushed?
    requires n < |states[j].i.accepted|
    ensures n < |states[k].i.accepted|
    ensures var m := states[k].i.accepted[n];
            || m in states[k].i.refused
            || exists d: nat :: F.InBatch(states[k].t, d, m)
                 && (T.Finished(states[k].t.deliveries[d].slip) || BackedOff(states, d, j, k))
  {
    MemoryKept(c, states, steps, j, k, f);
    F.RunKeeps(c, states, steps, k);
    var s := states[k];
    assert F.FlushOk(s.t, s.i, s.clock, s.flushes[f]);
    var m := s.i.accepted[n];
    assert F.Covered(s.t, s.i.refused, m, j, {});
    if m !in s.i.refused {
      var d: nat :| F.InBatch(s.t, d, m) && F.Watched(s.t.deliveries[d], d, j, {});
      BackoffRecorded(c, states, steps, k, d);
      if s.t.deliveries[d].lastBackoff >= j {
        assert states[s.t.deliveries[d].lastBackoff].t.deliveries[d].retrying;
      }
      assert F.InBatch(s.t, d, m);
    }
  }

  /** A flush that waits, waits only for batches of messages accepted before the loop measured the queue. */
  lemma FlushAwaitsNothingNewer(c: Config, states: seq<State>, steps: seq<Step>, n: nat, f: nat, ch: T.Chan, m: Msg)
    requires ValidConfig(c) && Run(c, states, steps) && n < |states|
    requires f < |states[n].flushes| && states[n].flushes[f].Pending? && ch in states[n].flushes[f].awaited
    ensures F.InBatch(states[n].t, ch.delivery, m) ==> m.id < states[n].flushes[f].mark
    ensures ch.delivery < |states[n].t.deliveries|
  {
    F.RunKeeps(c, states, steps, n);
    assert F.FlushOk(states[n].t, states[n].i, states[n].clock, states[n].flushes[f]);
  }
}
