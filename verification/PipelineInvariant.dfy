// The invariant of the whole pipeline, over every interleaving, and what it
// says about callbacks when CloseWithContext returns nil.

module PipelineInvariant {

  import opened Batching
  import opened Pipeline
  import I = IntakeInvariant
  import L = TransportLedger
  import T = Transport
  import TI = TransportInvariant

  predicate PastDrain(pc: LoopPc) {
    pc.Exiting? || pc.ClosingBatches? || pc.Stopped?
  }

  predicate Quiet(t: T.Transport) {
    t.inFlight <= 0 && t.submitter.Idle?
  }

  /** How far shutdown has come, as the loop and the close caller see it. */
  ghost predicate LifeInv(pc: LoopPc, life: Life) {
    && (life.quit <==> !life.closer.NotClosed? && !life.closer.Closing?)
    && (life.cancelled ==> life.closer.TimedOut? || life.closer == Emails(false) || life.closer == Returned(false))
    && (pc.Quitting? || I.Going(pc).DrainForQuit? ==> life.quit)
    && (life.shutdown <==> pc.ClosingBatches? || pc.Stopped?)
    && (life.closer == Emails(true) || life.closer == Returned(true) ==> life.shutdown && !life.cancelled)
  }

  ghost predicate Joined(s: State) {
    && (s.i.pc.InSendBatch? <==> !s.t.submitter.Idle?)
    && (s.t.batchesClosed <==> s.i.pc.Stopped?)
    && (PastDrain(s.i.pc) && !s.life.cancelled ==> Quiet(s.t))
    && !s.crashed
  }

  ghost predicate TransportInv(v1: bool, t: T.Transport) {
    TI.Inv(t) && L.Ledger(t) && L.Outcomes(v1, t) && L.Accounted(t)
  }

  ghost predicate Inv(c: Config, s: State) {
    && TransportInv(c.v1, s.t)
    && I.Inv(c, s.i, L.BatchesOf(s.t.deliveries))
    && LifeInv(s.i.pc, s.life)
    && Joined(s)
  }

  lemma InitHolds(c: Config)
    requires ValidConfig(c)
    ensures Inv(c, INIT)
  {
    assert L.BatchesOf([]) == [];
  }

  lemma TransportStep(e: T.Env, t: T.Transport, ts: T.Step)
    requires TransportInv(e.v1, t) && T.Enabled(e, t, ts) && (ts.CloseBatches? ==> !t.batchesClosed)
    ensures TransportInv(e.v1, T.Do(e, t, ts)) && !ts.Orphan?
  {
    TI.StepKeeps(e, t, ts);
    L.StepLedger(e, t, ts);
    L.StepAccounts(e, t, ts);
  }

  lemma GoneIsStill(e: T.Env, t: T.Transport, d: nat, w: T.WorkerStep)
    requires d < |t.deliveries| && t.deliveries[d].phase.Gone?
    ensures !T.WorkerEnabled(e, t, d, w)
  {
  }

  /** Nothing can move in a quiet transport, except the loop. */
  lemma QuietIsStill(e: T.Env, t: T.Transport, ts: T.Step)
    requires TransportInv(e.v1, t) && Quiet(t) && T.Enabled(e, t, ts)
    ensures ts.Register? || ts.CloseBatches?
  {
    L.Quiescence(t);
    match ts
    case Worker(d, w) => GoneIsStill(e, t, d, w);
    case _ =>
  }

  /** What a transport step does to the submitter, which the loop's position mirrors. */
  lemma SubmitterStep(e: T.Env, t: T.Transport, ts: T.Step)
    requires T.Enabled(e, t, ts)
    ensures T.Do(e, t, ts).submitter.Idle? <==> if ts.Register? then false else EndsSend(ts) || t.submitter.Idle?
    ensures EndsSend(ts) ==> !t.submitter.Idle?
    ensures T.Do(e, t, ts).batchesClosed == (t.batchesClosed || ts.CloseBatches?)
  {
    match ts
    case Worker(d, w) => WorkerSubmitter(e, t, d, w);
    case _ =>
  }

  lemma WorkerSubmitter(e: T.Env, t: T.Transport, d: nat, w: T.WorkerStep)
    requires T.WorkerEnabled(e, t, d, w)
    ensures T.WorkerDo(e, t, d, w).submitter == t.submitter
    ensures T.WorkerDo(e, t, d, w).batchesClosed == t.batchesClosed
  {
  }

  lemma CarryIntake(c: Config, s: State, ts: T.Step)
    requires ValidConfig(c) && Inv(c, s) && Enabled(c, s, Carry(ts))
    ensures var u := Do(c, s, Carry(ts)); I.Inv(c, u.i, L.BatchesOf(u.t.deliveries))
  {
    L.StepBatches(EnvOf(c, s), s.t, ts);
    SubmitterStep(EnvOf(c, s), s.t, ts);
    if EndsSend(ts) {
      I.FinishKeeps(c, s.i, L.BatchesOf(s.t.deliveries));
    }
  }

  /** A transport step past the drain is taken only when the drain was cut short. */
  lemma CarryIsBeforeDrain(c: Config, s: State, ts: T.Step)
    requires ValidConfig(c) && Inv(c, s) && Enabled(c, s, Carry(ts))
    ensures PastDrain(s.i.pc) ==> s.life.cancelled
  {
    if Quiet(s.t) {
      QuietIsStill(EnvOf(c, s), s.t, ts);
    }
  }

  lemma FinishLife(a: After, life: Life)
    requires LifeInv(InSendBatch(a), life)
    ensures LifeInv(Finish(a), life) && !Finish(a).InSendBatch? && !PastDrain(Finish(a))
  {
  }

  lemma CarryJoined(c: Config, s: State, ts: T.Step)
    requires Enabled(c, s, Carry(ts)) && LifeInv(s.i.pc, s.life) && Joined(s)
    requires PastDrain(s.i.pc) ==> s.life.cancelled
    ensures var u := Do(c, s, Carry(ts)); LifeInv(u.i.pc, u.life) && Joined(u)
  {
    SubmitterStep(EnvOf(c, s), s.t, ts);
    if EndsSend(ts) {
      FinishLife(s.i.pc.after, s.life);
    }
  }

  lemma CarryKeeps(c: Config, s: State, ts: T.Step)
    requires ValidConfig(c) && Inv(c, s) && Enabled(c, s, Carry(ts))
    ensures Inv(c, Do(c, s, Carry(ts)))
  {
    TransportStep(EnvOf(c, s), s.t, ts);
    CarryIntake(c, s, ts);
    CarryIsBeforeDrain(c, s, ts);
    CarryJoined(c, s, ts);
  }

  lemma SubmitKeeps(c: Config, s: State)
    requires ValidConfig(c) && Inv(c, s) && Enabled(c, s, SubmitBatch)
    ensures Inv(c, Do(c, s, SubmitBatch))
  {
    var e := EnvOf(c, s);
    TransportStep(e, s.t, T.Register(s.i.open));
    L.StepBatches(e, s.t, T.Register(s.i.open));
    I.SubmitKeeps(c, s.i, L.BatchesOf(s.t.deliveries));
  }

  /** The loop's own steps do not reach sendBatch or the end of the loop. */
  lemma LoopStaysOut(c: Config, i: Intake, l: LoopStep, life: Life)
    requires LoopEnabled(i, l) && LifeInv(i.pc, life)
    ensures var pc := LoopDo(c, i, l).pc;
            && LifeInv(pc, life)
            && !i.pc.InSendBatch? && !pc.InSendBatch?
            && !PastDrain(i.pc) && !PastDrain(pc)
  {
  }

  lemma LoopKeeps(c: Config, s: State, l: LoopStep)
    requires ValidConfig(c) && Inv(c, s) && LoopEnabled(s.i, l)
    ensures Inv(c, Do(c, s, Loop(l)))
  {
    LoopParts(c, s, l);
    I.LoopKeeps(c, s.i, L.BatchesOf(s.t.deliveries), l);
    CloseMsgsOnce(c, s.i, L.BatchesOf(s.t.deliveries), l);
    LoopJoined(c, s, l);
  }

  lemma LoopParts(c: Config, s: State, l: LoopStep)
    requires LoopEnabled(s.i, l)
    ensures Do(c, s, Loop(l)).i == LoopDo(c, s.i, l) && Do(c, s, Loop(l)).t == s.t
  {
  }

  lemma CloseMsgsOnce(c: Config, i: Intake, batches: seq<seq<Msg>>, l: LoopStep)
    requires I.Inv(c, i, batches) && LoopEnabled(i, l)
    ensures l.CloseMsgs? ==> !i.msgsClosed
  {
  }

  lemma LoopJoined(c: Config, s: State, l: LoopStep)
    requires LoopEnabled(s.i, l) && LifeInv(s.i.pc, s.life) && Joined(s) && (l.CloseMsgs? ==> !s.i.msgsClosed)
    ensures var u := Do(c, s, Loop(l)); LifeInv(u.i.pc, u.life) && Joined(u)
  {
    LoopStaysOut(c, s.i, l, s.life);
  }

  /** Steps by which the loop only moves, to position pc. */
  predicate Moves(s: State, step: Step, pc: LoopPc) {
    match step
    case TakeFlush(f) => s.i.pc.Select? && pc == TookFlush(f)
    case Measure => s.i.pc.TookFlush? && pc == FlushDrain(s.i.pc.f, |s.i.msgs|)
    case TakeSnapshot => s.i.pc.Snapshot? && pc == Select
    case SeeQuit => s.i.pc.Select? && s.life.quit && pc == Quitting
    case Drained => s.i.pc.Awaiting? && s.t.inFlight <= 0 && pc == Exiting
    case DrainTimeout => s.i.pc.Awaiting? && s.life.cancelled && pc == Exiting
    case SignalShutdown => s.i.pc.Exiting? && pc == ClosingBatches
    case CloseBatches => s.i.pc.ClosingBatches? && pc == Stopped
    case _ => false
  }

  lemma MoveFits(c: Config, s: State, step: Step, pc: LoopPc)
    requires Moves(s, step, pc) && I.Queue(s.i) && I.Sizes(c, s.i)
    ensures !s.i.pc.Handle? && !pc.Handle? && I.InHand(pc) == I.InHand(s.i.pc)
    ensures I.Going(pc).DrainForQuit? <==> s.i.msgsClosed
    ensures I.Going(pc).DrainForFlush? ==> I.Going(pc).left <= |s.i.msgs|
    ensures I.Finished(pc) ==> s.i.msgs == []
    ensures I.Sizes(c, s.i.(pc := pc))
  {
  }

  lemma MoveKeepsIntake(c: Config, s: State, step: Step, pc: LoopPc)
    requires ValidConfig(c) && Moves(s, step, pc)
    requires I.Inv(c, s.i, L.BatchesOf(s.t.deliveries))
    ensures I.Inv(c, s.i.(pc := pc), L.BatchesOf(s.t.deliveries))
  {
    MoveFits(c, s, step, pc);
    I.MoveKeeps(c, s.i, L.BatchesOf(s.t.deliveries), pc);
  }

  lemma MoveKeepsLife(s: State, step: Step, pc: LoopPc)
    requires Moves(s, step, pc) && LifeInv(s.i.pc, s.life)
    ensures LifeInv(pc, if step.SignalShutdown? then s.life.(shutdown := true) else s.life)
    ensures !ClosesTwice(s, step) || step.CloseBatches?
  {
  }

  lemma MoveKeeps(c: Config, s: State, step: Step, pc: LoopPc)
    requires ValidConfig(c) && Inv(c, s) && Enabled(c, s, step) && Moves(s, step, pc) && !step.CloseBatches?
    ensures Inv(c, Do(c, s, step))
  {
    MoveKeepsIntake(c, s, step, pc);
    MoveKeepsLife(s, step, pc);
  }

  predicate IsMove(step: Step) {
    || step.TakeFlush? || step.Measure? || step.TakeSnapshot? || step.SeeQuit?
    || step.Drained? || step.DrainTimeout? || step.SignalShutdown?
  }

  lemma LoopMoves(c: Config, s: State, step: Step)
    requires ValidConfig(c) && Inv(c, s) && Enabled(c, s, step) && IsMove(step)
    ensures Inv(c, Do(c, s, step))
  {
    MoveKeeps(c, s, step, IntakeAfter(c, s, step).pc);
  }

  lemma CloseBatchesKeeps(c: Config, s: State)
    requires ValidConfig(c) && Inv(c, s) && s.i.pc.ClosingBatches?
    ensures Inv(c, Do(c, s, CloseBatches))
  {
    TransportStep(EnvOf(c, s), s.t, T.Step.CloseBatches);
    L.StepBatches(EnvOf(c, s), s.t, T.Step.CloseBatches);
    MoveKeepsIntake(c, s, CloseBatches, Stopped);
    MoveKeepsLife(s, CloseBatches, Stopped);
  }

  predicate IsCaller(step: Step) {
    || step.CallFlush? || step.GiveUp? || step.Hear? || step.FlushReturn?
    || step.CallClose? || step.CloseQuit? || step.CloseTimeout? || step.CloseAcknowledged? || step.CloseReturn?
  }

  lemma CallerKeepsLife(c: Config, s: State, step: Step)
    requires Enabled(c, s, step) && IsCaller(step) && LifeInv(s.i.pc, s.life)
    ensures LifeInv(s.i.pc, LifeAfter(c, s, step))
    ensures s.life.cancelled ==> LifeAfter(c, s, step).cancelled
    ensures !ClosesTwice(s, step) && IntakeAfter(c, s, step) == s.i && TransportAfter(c, s, step) == s.t
  {
  }

  lemma CallerKeeps(c: Config, s: State, step: Step)
    requires ValidConfig(c) && Inv(c, s) && Enabled(c, s, step) && IsCaller(step)
    ensures Inv(c, Do(c, s, step))
  {
    CallerKeepsLife(c, s, step);
  }

  lemma ProduceKeeps(c: Config, s: State, size: nat)
    requires ValidConfig(c) && Inv(c, s) && Enabled(c, s, Produce(size))
    ensures Inv(c, Do(c, s, Produce(size)))
  {
    I.ProduceKeeps(c, s.i, L.BatchesOf(s.t.deliveries), size);
  }

  lemma OtherKeeps(c: Config, s: State, step: Step)
    requires ValidConfig(c) && Inv(c, s) && Enabled(c, s, step) && !IsMove(step) && !IsCaller(step)
    ensures Inv(c, Do(c, s, step))
  {
    match step
    case Produce(size) => ProduceKeeps(c, s, size);
    case Loop(l) => LoopKeeps(c, s, l);
    case SubmitBatch => SubmitKeeps(c, s);
    case Carry(ts) => CarryKeeps(c, s, ts);
    case CloseBatches => CloseBatchesKeeps(c, s);
  }

  lemma StepKeeps(c: Config, s: State, step: Step)
    requires ValidConfig(c) && Inv(c, s) && Enabled(c, s, step)
    ensures Inv(c, Do(c, s, step))
  {
    if IsMove(step) {
      LoopMoves(c, s, step);
    } else if IsCaller(step) {
      CallerKeeps(c, s, step);
    } else {
      OtherKeeps(c, s, step);
    }
  }

  /** The invariant holds at every point of every run. */
  lemma {:induction false} RunKeeps(c: Config, states: seq<State>, steps: seq<Step>, n: nat)
    requires ValidConfig(c) && Run(c, states, steps) && n < |states|
    ensures Inv(c, states[n])
  {
    if n == 0 {
      InitHolds(c);
    } else {
      RunKeeps(c, states, steps, n - 1);
      StepKeeps(c, states[n - 1], steps[n - 1]);
    }
  }

  // ------------------------------------------------------------ what callers are promised

  /** Callbacks made so far, of either kind, for batches and for refused messages. */
  function Callbacks(s: State): multiset<Msg> {
    s.t.succeeded + s.t.failed + multiset(s.i.refused)
  }

  lemma {:induction false} Numbered(ms: seq<Msg>, n: nat)
    requires forall k :: 0 <= k < |ms| ==> ms[k].id == k
    requires n < |ms|
    ensures multiset(ms)[ms[n]] == 1
  {
    var last := |ms| - 1;
    assert ms == ms[..last] + [ms[last]];
    if n < last {
      Numbered(ms[..last], n);
    } else {
      assert ms[last] !in ms[..last];
    }
  }

  lemma CountParts(a: seq<Msg>, b: seq<Msg>, c: seq<Msg>, all: seq<Msg>)
    requires a + b + c == all
    ensures multiset(a) + multiset(b) + multiset(c) == multiset(all)
  {
    assert multiset(a + b + c) == multiset(a) + multiset(b) + multiset(c);
  }

  lemma Assemble(
      s: multiset<Msg>, f: multiset<Msg>, omitted: multiset<Msg>, untold: multiset<Msg>, flat: multiset<Msg>,
      open: multiset<Msg>, hand: multiset<Msg>, kept: multiset<Msg>, refused: multiset<Msg>, all: multiset<Msg>)
    requires s + f + omitted + untold == flat && flat + open + hand == kept && kept + refused == all
    ensures s + f + refused + omitted + untold + open + hand == all
  {
    forall m ensures (s + f + refused + omitted + untold + open + hand)[m] == all[m] {
      assert (s + f + omitted + untold)[m] == flat[m];
      assert (flat + open + hand)[m] == kept[m];
      assert (kept + refused)[m] == all[m];
    }
  }

  /**
   * Each message read is told, left out by a capture-v1 answer, waiting to be
   * told, or being batched: never two of these, and never lost.
   */
  lemma Conserved(c: Config, s: State)
    requires ValidConfig(c) && Inv(c, s)
    ensures Callbacks(s) + L.Omitted(s.t.deliveries) + L.Untold(s.t.deliveries)
            + multiset(s.i.open) + multiset(I.InHand(s.i.pc)) == multiset(I.Prefix(s.i))
    ensures I.Prefix(s.i) <= s.i.accepted
  {
    var flat, kept := Flatten(L.BatchesOf(s.t.deliveries)), Kept(I.Prefix(s.i));
    L.ToldConserved(s.t.deliveries);
    CountParts(flat, s.i.open, I.InHand(s.i.pc), kept);
    KeptOrTooBig(I.Prefix(s.i));
    CallbacksAre(s);
    Assemble(s.t.succeeded, s.t.failed, L.Omitted(s.t.deliveries), L.Untold(s.t.deliveries), multiset(flat),
             multiset(s.i.open), multiset(I.InHand(s.i.pc)), multiset(kept), multiset(s.i.refused),
             multiset(I.Prefix(s.i)));
  }

  lemma CallbacksAre(s: State)
    ensures Callbacks(s) == s.t.succeeded + s.t.failed + multiset(s.i.refused)
  {
  }
}
