// What FlushWithContext promises when it returns nil, over every interleaving.

module FlushInvariant {

  import opened Batching
  import opened Pipeline
  import I = IntakeInvariant
  import L = TransportLedger
  import P = PipelineInvariant
  import T = Transport
  import TI = TransportInvariant

  // ------------------------------------------------------------ how one delivery changes

  /** One step of a delivery: its batch stays, callbacks only grow, and leaving backoff is recorded. */
  predicate Evolves(x: T.Delivery, y: T.Delivery, clock: nat) {
    && y.batch == x.batch
    && (T.Finished(x.slip) ==> T.Finished(y.slip))
    && (y.lastBackoff == x.lastBackoff || (y.lastBackoff == clock && x.retrying))
    && (x.retrying && !y.retrying ==> y.lastBackoff == clock)
    && (y.generation != x.generation ==> y.lastBackoff == clock)
    && (!T.LoopHolds(x.phase) ==> !T.LoopHolds(y.phase))
  }

  lemma ChannelEvolves(e: T.Env, t: T.Transport, d: nat, w: T.WorkerStep)
    requires T.WorkerEnabled(e, t, d, w) && TI.ToldFits(t.deliveries[d])
    requires w.Begin? || w.Defer? || w.Complete?
    ensures var u := T.WorkerDo(e, t, d, w);
            && u.deliveries == t.deliveries[d := u.deliveries[d]]
            && Evolves(t.deliveries[d], u.deliveries[d], e.clock)
            && t.closed <= u.closed
  {
  }

  lemma MarkEvolves(e: T.Env, t: T.Transport, d: nat, w: T.WorkerStep)
    requires T.WorkerEnabled(e, t, d, w) && TI.ToldFits(t.deliveries[d])
    requires w.Settle? || w.Notify?
    ensures var u := T.WorkerDo(e, t, d, w);
            && u.deliveries == t.deliveries[d := u.deliveries[d]]
            && Evolves(t.deliveries[d], u.deliveries[d], e.clock)
            && t.closed <= u.closed
  {
  }

  lemma WorkerEvolves(e: T.Env, t: T.Transport, d: nat, w: T.WorkerStep)
    requires T.WorkerEnabled(e, t, d, w) && TI.ToldFits(t.deliveries[d])
    ensures var u := T.WorkerDo(e, t, d, w);
            && u.deliveries == t.deliveries[d := u.deliveries[d]]
            && Evolves(t.deliveries[d], u.deliveries[d], e.clock)
            && t.closed <= u.closed
  {
    if w.Begin? || w.Defer? || w.Complete? {
      ChannelEvolves(e, t, d, w);
    } else if w.Settle? || w.Notify? {
      MarkEvolves(e, t, d, w);
    }
  }

  lemma LoopEvolves(e: T.Env, t: T.Transport, ts: T.Step)
    requires T.Enabled(e, t, ts) && |t.deliveries| > 0 && TI.ToldFits(t.deliveries[T.Last(t)])
    requires ts.Count? || ts.Send? || ts.Refuse? || ts.Uncount? || ts.DropDelivery? || ts.DropNotify? || ts.DropDone?
    ensures var u := T.Do(e, t, ts);
            var d := T.Last(t);
            && u.deliveries == t.deliveries[d := u.deliveries[d]]
            && Evolves(t.deliveries[d], u.deliveries[d], e.clock)
            && t.closed <= u.closed
  {
  }

  lemma StepEvolves(e: T.Env, t: T.Transport, ts: T.Step)
    requires TI.ToldShape(t) && TI.QueueShape(t) && T.Enabled(e, t, ts)
    ensures var u := T.Do(e, t, ts);
            && |u.deliveries| >= |t.deliveries| && t.closed <= u.closed
            && forall k :: 0 <= k < |t.deliveries| ==> Evolves(t.deliveries[k], u.deliveries[k], e.clock)
  {
    assert forall k :: 0 <= k < |t.deliveries| ==> TI.ToldFits(t.deliveries[k]);
    match ts
    case Worker(d, w) => WorkerEvolves(e, t, d, w);
    case Register(_) =>
    case Spawn =>
    case TakeBatch =>
    case Orphan =>
    case CloseBatches =>
    case _ => LoopEvolves(e, t, ts);
  }

  // ------------------------------------------------------------ coverage

  /** The batch is finished, has been in backoff since then, or its current attempt is awaited. */
  predicate Watched(x: T.Delivery, d: nat, since: int, awaited: set<T.Chan>) {
    || T.Finished(x.slip)
    || x.retrying
    || x.lastBackoff >= since
    || T.Chan(d, x.generation) in awaited
  }

  ghost predicate InBatch(t: T.Transport, d: nat, m: Msg) {
    d < |t.deliveries| && m in t.deliveries[d].batch
  }

  ghost predicate Covered(t: T.Transport, refused: seq<Msg>, m: Msg, since: int, awaited: set<T.Chan>) {
    m in refused || exists d: nat :: InBatch(t, d, m) && Watched(t.deliveries[d], d, since, awaited)
  }

  ghost predicate AllCovered(t: T.Transport, i: Intake, barrier: nat, since: int, awaited: set<T.Chan>) {
    barrier <= |i.accepted| && forall n :: 0 <= n < barrier ==> Covered(t, i.refused, i.accepted[n], since, awaited)
  }

  /** What is awaited was handed to workers, and holds only messages accepted before the queue was measured. */
  ghost predicate AwaitedOk(t: T.Transport, awaited: set<T.Chan>, left: set<T.Chan>, mark: nat) {
    forall ch: T.Chan :: ch in awaited ==>
      && ch.delivery < |t.deliveries| && !T.LoopHolds(t.deliveries[ch.delivery].phase)
      && (forall m :: m in t.deliveries[ch.delivery].batch ==> m.id < mark)
      && (ch in left || ch in t.closed)
  }

  ghost predicate FlushOk(t: T.Transport, i: Intake, clock: nat, x: Flush) {
    match x
    case Requesting => true
    case GaveUp => true
    case Taken(since, barrier, _) => since <= clock && barrier <= |i.accepted|
    case Pending(awaited, left, since, barrier, mark) =>
      since <= clock && AllCovered(t, i, barrier, since, awaited) && AwaitedOk(t, awaited, left, mark)
    case Flushed(since, barrier) => since <= clock && AllCovered(t, i, barrier, since, {})
  }

  ghost predicate FlushesOk(s: State) {
    forall f :: 0 <= f < |s.flushes| ==> FlushOk(s.t, s.i, s.clock, s.flushes[f])
  }

  /** The flush the loop is serving: what it measured is what it has read and has left to read. */
  ghost predicate Serving(i: Intake, flushes: seq<Flush>) {
    && (i.pc.TookFlush? ==> i.pc.f < |flushes|)
    && (I.Going(i.pc).DrainForFlush? ==>
          var f := I.Going(i.pc).f;
          && f < |flushes|
          && (flushes[f].Taken? ==> flushes[f].barrier <= flushes[f].mark == I.Consumed(i) + I.Going(i.pc).left))
  }

  ghost predicate Inv(s: State) {
    FlushesOk(s) && Serving(s.i, s.flushes)
  }

  // ------------------------------------------------------------ transport steps

  lemma CoveredKept(
      t: T.Transport, u: T.Transport, refused: seq<Msg>, m: Msg, since: int, awaited: set<T.Chan>, clock: nat)
    requires since <= clock && |u.deliveries| >= |t.deliveries|
    requires forall k :: 0 <= k < |t.deliveries| ==> Evolves(t.deliveries[k], u.deliveries[k], clock)
    requires Covered(t, refused, m, since, awaited)
    ensures Covered(u, refused, m, since, awaited)
  {
    if m !in refused {
      var d: nat :| InBatch(t, d, m) && Watched(t.deliveries[d], d, since, awaited);
      assert Evolves(t.deliveries[d], u.deliveries[d], clock);
      assert InBatch(u, d, m) && Watched(u.deliveries[d], d, since, awaited);
    }
  }

  lemma AwaitedKept(t: T.Transport, u: T.Transport, awaited: set<T.Chan>, left: set<T.Chan>, mark: nat, clock: nat)
    requires |u.deliveries| >= |t.deliveries| && t.closed <= u.closed
    requires forall k :: 0 <= k < |t.deliveries| ==> Evolves(t.deliveries[k], u.deliveries[k], clock)
    requires AwaitedOk(t, awaited, left, mark)
    ensures AwaitedOk(u, awaited, left, mark)
  {
    forall ch: T.Chan | ch in awaited
      ensures && ch.delivery < |u.deliveries| && !T.LoopHolds(u.deliveries[ch.delivery].phase)
              && (forall m :: m in u.deliveries[ch.delivery].batch ==> m.id < mark)
              && (ch in left || ch in u.closed)
    {
      assert Evolves(t.deliveries[ch.delivery], u.deliveries[ch.delivery], clock);
    }
  }

  lemma FlushKept(t: T.Transport, u: T.Transport, i: Intake, clock: nat, x: Flush)
    requires |u.deliveries| >= |t.deliveries| && t.closed <= u.closed
    requires forall k :: 0 <= k < |t.deliveries| ==> Evolves(t.deliveries[k], u.deliveries[k], clock)
    requires FlushOk(t, i, clock, x)
    ensures FlushOk(u, i, clock + 1, x)
  {
    if x.Pending? {
      AwaitedKept(t, u, x.awaited, x.left, x.mark, clock);
      forall n | 0 <= n < x.barrier ensures Covered(u, i.refused, i.accepted[n], x.since, x.awaited) {
        CoveredKept(t, u, i.refused, i.accepted[n], x.since, x.awaited, clock);
      }
    } else if x.Flushed? {
      forall n | 0 <= n < x.barrier ensures Covered(u, i.refused, i.accepted[n], x.since, {}) {
        CoveredKept(t, u, i.refused, i.accepted[n], x.since, {}, clock);
      }
    }
  }

  /** Any transport step, with the intake as it was. */
  lemma TransportKeeps(c: Config, s: State, ts: T.Step, i: Intake)
    requires TI.ToldShape(s.t) && TI.QueueShape(s.t) && Inv(s) && T.Enabled(EnvOf(c, s), s.t, ts)
    requires i.accepted == s.i.accepted && i.refused == s.i.refused
    ensures FlushesOk(State(i, T.Do(EnvOf(c, s), s.t, ts), s.flushes, s.life, s.crashed, s.clock + 1))
  {
    var u := T.Do(EnvOf(c, s), s.t, ts);
    StepEvolves(EnvOf(c, s), s.t, ts);
    forall f | 0 <= f < |s.flushes| ensures FlushOk(u, i, s.clock + 1, s.flushes[f]) {
      assert FlushOk(s.t, s.i, s.clock, s.flushes[f]);
      FlushSameIntake(s.t, s.i, i, s.clock, s.flushes[f]);
      FlushKept(s.t, u, i, s.clock, s.flushes[f]);
    }
  }

  /** Nothing but the accepted and the refused messages of the intake matters, and these only grow. */
  lemma FlushSameIntake(t: T.Transport, i: Intake, j: Intake, clock: nat, x: Flush)
    requires FlushOk(t, i, clock, x)
    requires i.accepted <= j.accepted && i.refused <= j.refused
    ensures FlushOk(t, j, clock, x) && FlushOk(t, j, clock + 1, x)
  {
    if x.Pending? {
      CoverGrows(t, i, j, x.barrier, x.since, x.awaited);
    } else if x.Flushed? {
      CoverGrows(t, i, j, x.barrier, x.since, {});
    }
  }

  lemma CoverGrows(t: T.Transport, i: Intake, j: Intake, barrier: nat, since: int, awaited: set<T.Chan>)
    requires AllCovered(t, i, barrier, since, awaited)
    requires i.accepted <= j.accepted && i.refused <= j.refused
    ensures AllCovered(t, j, barrier, since, awaited)
  {
    forall n | 0 <= n < barrier ensures Covered(t, j.refused, j.accepted[n], since, awaited) {
      assert j.accepted[n] == i.accepted[n] && Covered(t, i.refused, i.accepted[n], since, awaited);
    }
  }

  // ------------------------------------------------------------ the snapshot

  /** With the open batch empty and nothing in hand, a message read from the queue was refused or is in a batch. */
  lemma ReadIsPlaced(c: Config, s: State, n: nat)
    requires ValidConfig(c) && P.Inv(c, s) && s.i.pc.Snapshot? && n < I.Consumed(s.i)
    ensures s.i.accepted[n] in s.i.refused || exists d: nat :: InBatch(s.t, d, s.i.accepted[n])
  {
    if s.i.accepted[n] !in s.i.refused {
      var d := PlacedIn(c, s.i, L.BatchesOf(s.t.deliveries), n);
      assert InBatch(s.t, d, s.i.accepted[n]);
    }
  }

  lemma PlacedIn(c: Config, i: Intake, batches: seq<seq<Msg>>, n: nat) returns (d: nat)
    requires ValidConfig(c) && I.Inv(c, i, batches) && i.pc.Snapshot? && n < I.Consumed(i)
    requires i.accepted[n] !in i.refused
    ensures d < |batches| && i.accepted[n] in batches[d]
  {
    var m := i.accepted[n];
    KeptOrTooBig(I.Prefix(i));
    assert I.Prefix(i)[n] == m;
    assert m in multiset(I.Prefix(i));
    d := InSome(batches, m);
  }

  lemma {:induction false} InSome(batches: seq<seq<Msg>>, m: Msg) returns (d: nat)
    requires m in Flatten(batches)
    ensures d < |batches| && m in batches[d]
  {
    var last := |batches| - 1;
    if m in batches[last] {
      d := last;
    } else {
      d := InSome(batches[..last], m);
    }
  }

  lemma {:induction false} InWhole(batches: seq<seq<Msg>>, d: nat, m: Msg)
    requires d < |batches| && m in batches[d]
    ensures m in Flatten(batches)
  {
    if d < |batches| - 1 {
      InWhole(batches[..|batches| - 1], d, m);
    }
  }

  /** Every message of a batch was read from the queue. */
  lemma BatchedIsRead(c: Config, s: State, d: nat, m: Msg)
    requires ValidConfig(c) && P.Inv(c, s) && InBatch(s.t, d, m)
    ensures m.id < I.Consumed(s.i)
  {
    BatchIsRead(c, s.i, L.BatchesOf(s.t.deliveries), d, m);
  }

  lemma BatchIsRead(c: Config, i: Intake, batches: seq<seq<Msg>>, d: nat, m: Msg)
    requires ValidConfig(c) && I.Inv(c, i, batches) && d < |batches| && m in batches[d]
    ensures m.id < I.Consumed(i)
  {
    InWhole(batches, d, m);
    assert m in Kept(I.Prefix(i));
    KeptOrTooBig(I.Prefix(i));
    assert m in multiset(I.Prefix(i));
    var n :| 0 <= n < |I.Prefix(i)| && I.Prefix(i)[n] == m;
    assert i.accepted[n] == m;
  }

  lemma SnapshotCovers(c: Config, s: State, barrier: nat, since: int)
    requires ValidConfig(c) && P.Inv(c, s) && s.i.pc.Snapshot? && barrier <= I.Consumed(s.i)
    ensures AllCovered(s.t, s.i, barrier, since, LiveChans(s.t))
  {
    forall n | 0 <= n < barrier ensures Covered(s.t, s.i.refused, s.i.accepted[n], since, LiveChans(s.t)) {
      var m := s.i.accepted[n];
      ReadIsPlaced(c, s, n);
      if m !in s.i.refused {
        var d: nat :| InBatch(s.t, d, m);
        assert TI.ToldFits(s.t.deliveries[d]);
        assert !T.LoopHolds(s.t.deliveries[d].phase);
        if d in s.t.live {
          assert T.Current(s.t, d) in LiveChans(s.t);
        }
        assert Watched(s.t.deliveries[d], d, since, LiveChans(s.t));
      }
    }
  }

  lemma SnapshotAwaits(c: Config, s: State)
    requires ValidConfig(c) && P.Inv(c, s) && s.i.pc.Snapshot?
    ensures AwaitedOk(s.t, LiveChans(s.t), LiveChans(s.t), I.Consumed(s.i))
  {
    forall ch: T.Chan | ch in LiveChans(s.t)
      ensures ch.delivery < |s.t.deliveries| && !T.LoopHolds(s.t.deliveries[ch.delivery].phase)
      ensures forall m :: m in s.t.deliveries[ch.delivery].batch ==> m.id < I.Consumed(s.i)
    {
      forall m | m in s.t.deliveries[ch.delivery].batch ensures m.id < I.Consumed(s.i) {
        BatchedIsRead(c, s, ch.delivery, m);
      }
    }
  }

  /** An awaited channel that is closed belongs to a batch that is finished or was deferred. */
  lemma HeardOne(t: T.Transport, x: T.Delivery, d: nat)
    requires TI.Inv(t) && d < |t.deliveries| && x == t.deliveries[d] && !T.LoopHolds(x.phase)
    requires T.Current(t, d) in t.closed
    ensures T.Finished(x.slip) || x.retrying
  {
    assert TI.ToldFits(x);
    assert TI.ChanOver(t, T.Current(t, d));
  }

  /** When every awaited channel is closed, each awaited batch is finished or was in backoff. */
  lemma HeardAll(s: State, x: Flush)
    requires TI.Inv(s.t) && x.Pending? && x.left == {} && FlushOk(s.t, s.i, s.clock, x)
    ensures AllCovered(s.t, s.i, x.barrier, x.since, {})
  {
    forall n | 0 <= n < x.barrier ensures Covered(s.t, s.i.refused, s.i.accepted[n], x.since, {}) {
      var m := s.i.accepted[n];
      assert Covered(s.t, s.i.refused, m, x.since, x.awaited);
      if m !in s.i.refused {
        var d: nat :| InBatch(s.t, d, m) && Watched(s.t.deliveries[d], d, x.since, x.awaited);
        if T.Current(s.t, d) in x.awaited {
          HeardOne(s.t, s.t.deliveries[d], d);
        }
        assert Watched(s.t.deliveries[d], d, x.since, {});
      }
    }
  }

  // ------------------------------------------------------------ every step

  /** The loop moves, and reads what it says it reads. */
  lemma LoopServes(c: Config, i: Intake, flushes: seq<Flush>, l: LoopStep)
    requires ValidConfig(c) && I.Queue(i) && LoopEnabled(i, l) && Serving(i, flushes)
    ensures Serving(LoopDo(c, i, l), flushes)
    ensures LoopDo(c, i, l).accepted == i.accepted && i.refused <= LoopDo(c, i, l).refused
  {
  }

  /** A new intake and the same transport. */
  lemma IntakeKeeps(s: State, i: Intake)
    requires Inv(s) && s.i.accepted <= i.accepted && s.i.refused <= i.refused
    ensures FlushesOk(s.(i := i, clock := s.clock + 1))
  {
    forall f | 0 <= f < |s.flushes| ensures FlushOk(s.t, i, s.clock + 1, s.flushes[f]) {
      FlushSameIntake(s.t, s.i, i, s.clock, s.flushes[f]);
    }
  }

  /** One flush changes, and nothing else. */
  lemma OneFlushKeeps(s: State, f: nat, x: Flush, i: Intake)
    requires Inv(s) && f < |s.flushes| && s.i.accepted == i.accepted && s.i.refused == i.refused
    requires FlushOk(s.t, s.i, s.clock, x)
    ensures FlushesOk(s.(i := i, flushes := s.flushes[f := x], clock := s.clock + 1))
  {
    var flushes := s.flushes[f := x];
    forall g | 0 <= g < |flushes| ensures FlushOk(s.t, i, s.clock + 1, flushes[g]) {
      FlushSameIntake(s.t, s.i, i, s.clock, flushes[g]);
    }
  }

  lemma SnapshotKeeps(c: Config, s: State)
    requires ValidConfig(c) && P.Inv(c, s) && Inv(s) && Enabled(c, s, TakeSnapshot)
    ensures Inv(Do(c, s, TakeSnapshot))
  {
    if s.flushes[s.i.pc.f].Taken? {
      SnapshotIsOk(c, s);
    }
    SnapshotMoves(c, s);
  }

  /** What a flush awaits from the snapshot on. */
  function Snapshotted(t: T.Transport, x: Flush): Flush
    requires x.Taken?
  {
    Pending(LiveChans(t), LiveChans(t), x.since, x.barrier, x.mark)
  }

  lemma SnapshotIsOk(c: Config, s: State)
    requires ValidConfig(c) && P.Inv(c, s) && Inv(s) && s.i.pc.Snapshot? && s.flushes[s.i.pc.f].Taken?
    ensures FlushOk(s.t, s.i, s.clock, Snapshotted(s.t, s.flushes[s.i.pc.f]))
  {
    var x := s.flushes[s.i.pc.f];
    assert FlushOk(s.t, s.i, s.clock, x);
    SnapshotCovers(c, s, x.barrier, x.since);
    SnapshotAwaits(c, s);
  }

  lemma SnapshotMoves(c: Config, s: State)
    requires Inv(s) && Enabled(c, s, TakeSnapshot)
    requires var x := s.flushes[s.i.pc.f]; x.Taken? ==> FlushOk(s.t, s.i, s.clock, Snapshotted(s.t, x))
    ensures Inv(Do(c, s, TakeSnapshot))
  {
    var f := s.i.pc.f;
    var i := s.i.(pc := Select);
    IntakeKeeps(s, i);
    if s.flushes[f].Taken? {
      OneFlushKeeps(s, f, Snapshotted(s.t, s.flushes[f]), i);
    }
  }

  lemma MeasureKeeps(c: Config, s: State)
    requires Inv(s) && Enabled(c, s, Measure)
    ensures Inv(Do(c, s, Measure))
  {
    var f := s.i.pc.f;
    var i := s.i.(pc := FlushDrain(f, |s.i.msgs|));
    MeasureParts(c, s);
    IntakeKeeps(s, i);
    if s.flushes[f].Taken? {
      OneFlushKeeps(s, f, Taken(s.flushes[f].since, s.flushes[f].barrier, |s.i.accepted|), i);
    }
  }

  lemma MeasureParts(c: Config, s: State)
    requires Enabled(c, s, Measure) && Inv(s)
    ensures var u, f := Do(c, s, Measure), s.i.pc.f;
            && f < |s.flushes|
            && u.t == s.t && u.i == s.i.(pc := FlushDrain(f, |s.i.msgs|)) && u.clock == s.clock + 1
            && u.flushes == (if s.flushes[f].Taken?
                             then s.flushes[f := Taken(s.flushes[f].since, s.flushes[f].barrier, |s.i.accepted|)]
                             else s.flushes)
            && Serving(u.i, u.flushes)
  {
    assert s.flushes[s.i.pc.f].Taken? ==> FlushOk(s.t, s.i, s.clock, s.flushes[s.i.pc.f]);
  }

  lemma TakeFlushKeeps(c: Config, s: State, f: nat)
    requires Inv(s) && Enabled(c, s, TakeFlush(f))
    ensures Inv(Do(c, s, TakeFlush(f)))
  {
    OneFlushKeeps(s, f, Taken(s.clock, |s.i.accepted|, 0), s.i.(pc := TookFlush(f)));
  }

  lemma HearKeeps(c: Config, s: State, f: nat, ch: T.Chan)
    requires Inv(s) && Enabled(c, s, Hear(f, ch))
    ensures Inv(Do(c, s, Hear(f, ch)))
  {
    var x := s.flushes[f];
    OneFlushKeeps(s, f, Pending(x.awaited, x.left - {ch}, x.since, x.barrier, x.mark), s.i);
  }

  lemma ReturnKeeps(c: Config, s: State, f: nat)
    requires TI.Inv(s.t) && Inv(s) && Enabled(c, s, FlushReturn(f))
    ensures Inv(Do(c, s, FlushReturn(f)))
  {
    HeardAll(s, s.flushes[f]);
    OneFlushKeeps(s, f, Flushed(s.flushes[f].since, s.flushes[f].barrier), s.i);
  }

  lemma GiveUpKeeps(c: Config, s: State, f: nat)
    requires Inv(s) && Enabled(c, s, GiveUp(f))
    ensures Inv(Do(c, s, GiveUp(f)))
  {
    OneFlushKeeps(s, f, GaveUp, s.i);
  }

  lemma CallFlushKeeps(c: Config, s: State)
    requires Inv(s) && Enabled(c, s, CallFlush)
    ensures Inv(Do(c, s, CallFlush))
  {
    IntakeKeeps(s, s.i);
  }

  lemma FlushStepKeeps(c: Config, s: State, step: Step)
    requires ValidConfig(c) && P.Inv(c, s) && Inv(s) && Enabled(c, s, step)
    requires step.TakeFlush? || step.Measure? || step.TakeSnapshot?
          || step.CallFlush? || step.GiveUp? || step.Hear? || step.FlushReturn?
    ensures Inv(Do(c, s, step))
  {
    match step
    case TakeFlush(f) => TakeFlushKeeps(c, s, f);
    case Measure => MeasureKeeps(c, s);
    case TakeSnapshot => SnapshotKeeps(c, s);
    case CallFlush => CallFlushKeeps(c, s);
    case GiveUp(f) => GiveUpKeeps(c, s, f);
    case Hear(f, ch) => HearKeeps(c, s, f, ch);
    case FlushReturn(f) => ReturnKeeps(c, s, f);
  }

  lemma SendServes(i: Intake, flushes: seq<Flush>)
    requires Serving(i, flushes)
    ensures i.pc.Submit? ==> Serving(i.(pc := InSendBatch(i.pc.after), open := [], openBytes := 0), flushes)
    ensures i.pc.InSendBatch? ==> Serving(i.(pc := Finish(i.pc.after)), flushes)
  {
  }

  lemma CarryKeeps(c: Config, s: State, ts: T.Step)
    requires TI.ToldShape(s.t) && TI.QueueShape(s.t) && Inv(s) && Enabled(c, s, Carry(ts))
    ensures Inv(Do(c, s, Carry(ts)))
  {
    CarryParts(c, s, ts);
    TransportKeeps(c, s, ts, Do(c, s, Carry(ts)).i);
  }

  lemma CarryParts(c: Config, s: State, ts: T.Step)
    requires Enabled(c, s, Carry(ts)) && Serving(s.i, s.flushes)
    ensures var u := Do(c, s, Carry(ts));
            && u.t == T.Do(EnvOf(c, s), s.t, ts) && u.flushes == s.flushes && u.clock == s.clock + 1
            && u.i.accepted == s.i.accepted && u.i.refused == s.i.refused && Serving(u.i, u.flushes)
  {
    SendServes(s.i, s.flushes);
  }

  lemma SubmitKeeps(c: Config, s: State)
    requires TI.ToldShape(s.t) && TI.QueueShape(s.t) && Inv(s) && Enabled(c, s, SubmitBatch)
    ensures Inv(Do(c, s, SubmitBatch))
  {
    SendServes(s.i, s.flushes);
    TransportKeeps(c, s, T.Register(s.i.open), IntakeAfter(c, s, SubmitBatch));
  }

  lemma CloseBatchesKeeps(c: Config, s: State)
    requires TI.ToldShape(s.t) && TI.QueueShape(s.t) && Inv(s) && Enabled(c, s, CloseBatches)
    ensures Inv(Do(c, s, CloseBatches))
  {
    TransportKeeps(c, s, T.Step.CloseBatches, IntakeAfter(c, s, CloseBatches));
  }

  lemma ProduceKeeps(c: Config, s: State, size: nat)
    requires Inv(s) && Enabled(c, s, Produce(size))
    ensures Inv(Do(c, s, Produce(size)))
  {
    IntakeKeeps(s, IntakeAfter(c, s, Produce(size)));
  }

  predicate Shuts(step: Step) {
    || step.SeeQuit? || step.Drained? || step.DrainTimeout? || step.SignalShutdown?
    || step.CallClose? || step.CloseQuit? || step.CloseTimeout? || step.CloseAcknowledged? || step.CloseReturn?
  }

  lemma ShutsQuietly(c: Config, s: State, step: Step)
    requires Enabled(c, s, step) && Shuts(step) && Serving(s.i, s.flushes)
    ensures Serving(IntakeAfter(c, s, step), s.flushes)
    ensures TransportAfter(c, s, step) == s.t && FlushesAfter(c, s, step) == s.flushes
    ensures IntakeAfter(c, s, step).accepted == s.i.accepted && IntakeAfter(c, s, step).refused == s.i.refused
  {
  }

  lemma ShutKeeps(c: Config, s: State, step: Step)
    requires Inv(s) && Enabled(c, s, step) && Shuts(step)
    ensures Inv(Do(c, s, step))
  {
    ShutsQuietly(c, s, step);
    IntakeKeeps(s, IntakeAfter(c, s, step));
  }

  lemma LoopKeeps(c: Config, s: State, l: LoopStep)
    requires ValidConfig(c) && I.Queue(s.i) && Inv(s) && LoopEnabled(s.i, l)
    ensures Inv(Do(c, s, Loop(l)))
  {
    LoopServes(c, s.i, s.flushes, l);
    IntakeKeeps(s, LoopDo(c, s.i, l));
  }

  lemma StepKeeps(c: Config, s: State, step: Step)
    requires ValidConfig(c) && P.Inv(c, s) && Inv(s) && Enabled(c, s, step)
    ensures Inv(Do(c, s, step))
  {
    if step.TakeFlush? || step.Measure? || step.TakeSnapshot?
       || step.CallFlush? || step.GiveUp? || step.Hear? || step.FlushReturn? {
      FlushStepKeeps(c, s, step);
    } else if Shuts(step) {
      ShutKeeps(c, s, step);
    } else {
      match step
      case Produce(size) => ProduceKeeps(c, s, size);
      case Loop(l) => LoopKeeps(c, s, l);
      case Carry(ts) => CarryKeeps(c, s, ts);
      case SubmitBatch => SubmitKeeps(c, s);
      case CloseBatches => CloseBatchesKeeps(c, s);
    }
  }

  lemma {:induction false} RunKeeps(c: Config, states: seq<State>, steps: seq<Step>, n: nat)
    requires ValidConfig(c) && Run(c, states, steps) && n < |states|
    ensures Inv(states[n]) && states[n].clock == n
  {
    if n > 0 {
      RunKeeps(c, states, steps, n - 1);
      P.RunKeeps(c, states, steps, n - 1);
      StepKeeps(c, states[n - 1], steps[n - 1]);
    }
  }
}
