// The whole delivery pipeline as a step system: producers, the batch loop, the
// workers, flush callers and the close caller. Each step is one operation that
// another goroutine could observe; every interleaving of steps is a run.

module Pipeline {

  import opened Batching
  import T = Transport

  /** `v1` says how batches are sent: whole, or under capture-v1 with an answer for each event. */
  datatype Config = Config(
    v1: bool, batchSize: nat, queueSize: nat, batchesSize: nat, maxAttempts: nat, nonBlocking: bool)

  ghost predicate ValidConfig(c: Config) {
    1 <= c.batchSize <= c.queueSize && 1 <= c.maxAttempts
  }

  /** What follows processMessage. */
  datatype Next = BackToSelect | DrainForFlush(f: nat, left: nat) | DrainForQuit

  /** What follows flushBatch. */
  datatype After = AppendThen(m: Msg, k: Next) | Continue(k: Next) | ReplyTo(f: nat) | FinalBatch

  datatype LoopPc =
    | Select
    | Handle(m: Msg, k: Next)       // a message was received
    | Appending(m: Msg, k: Next)    // it fits the open batch
    | Submit(after: After)          // flushBatch is called on a batch that is not empty
    | InSendBatch(after: After)     // the transport's submitter says where
    | TookFlush(f: nat)             // a flush request was received, the queue not yet measured
    | FlushDrain(f: nat, left: nat)
    | Snapshot(f: nat)
    | Quitting | QuitDrain | Awaiting | Exiting | ClosingBatches | Stopped

  /** The message queue and the loop's local state. `accepted` is every message ever written to the queue. */
  datatype Intake = Intake(
    accepted: seq<Msg>, msgs: seq<Msg>, msgsClosed: bool,
    pc: LoopPc, open: seq<Msg>, openBytes: nat, refused: seq<Msg>)

  /** A FlushWithContext call. `since` and `barrier` record the clock and |accepted| when the loop took it. */
  datatype Flush =
    | Requesting
    | Taken(since: int, barrier: nat, mark: nat)
    | Pending(awaited: set<T.Chan>, left: set<T.Chan>, since: int, barrier: nat, mark: nat)
    | Flushed(since: int, barrier: nat)
    | GaveUp

  datatype Closer = NotClosed | Closing | AwaitingShutdown | TimedOut | Emails(ok: bool) | Returned(ok: bool)

  /** `closed`, `quit`, the cancelled context, the shutdown channel, and the CloseWithContext call. */
  datatype Life = Life(shut: bool, quit: bool, cancelled: bool, shutdown: bool, closer: Closer)

  datatype State = State(i: Intake, t: T.Transport, flushes: seq<Flush>, life: Life, crashed: bool, clock: nat)

  const INIT := State(
    Intake([], [], false, Select, [], 0, []), T.NO_DELIVERIES, [],
    Life(false, false, false, false, NotClosed), false, 0)

  /** The loop's steps on its own state and the message queue. */
  datatype LoopStep =
    | Receive | Tick | Check | Append
    | FlushReceive | FlushEnd
    | CloseMsgs | QuitReceive | QuitEnd

  datatype Step =
    | Produce(size: nat)
    | Loop(l: LoopStep)
    | SubmitBatch                        // sendBatch registers the open batch
    | Carry(ts: T.Step)                  // the rest of sendBatch, and everything workers do
    | TakeFlush(f: nat) | Measure | TakeSnapshot
    | SeeQuit | Drained | DrainTimeout | SignalShutdown | CloseBatches
    | CallFlush | GiveUp(f: nat) | Hear(f: nat, c: T.Chan) | FlushReturn(f: nat)
    | CallClose | CloseQuit | CloseTimeout | CloseAcknowledged | CloseReturn(emailsOk: bool)

  function Resume(k: Next): LoopPc {
    match k
    case BackToSelect => Select
    case DrainForFlush(f, left) => FlushDrain(f, left)
    case DrainForQuit => QuitDrain
  }

  function Finish(a: After): LoopPc {
    match a
    case AppendThen(m, k) => Appending(m, k)
    case Continue(k) => Resume(k)
    case ReplyTo(f) => Snapshot(f)
    case FinalBatch => Awaiting
  }

  function Pop(i: Intake, k: Next): Intake
    requires |i.msgs| > 0
  {
    i.(pc := Handle(i.msgs[0], k), msgs := i.msgs[1..])
  }

  /** flushBatch followed by `after`: an empty batch is not sent. */
  function FlushThen(i: Intake, after: After): Intake {
    if |i.open| == 0 then i.(pc := Finish(after)) else i.(pc := Submit(after))
  }

  /** processMessage, up to the append. */
  function Checked(i: Intake): Intake
    requires i.pc.Handle?
  {
    var m, k := i.pc.m, i.pc.k;
    if Oversized(m) then i.(pc := Resume(k), refused := i.refused + [m])
    else if Overflows(i.open, i.openBytes, m) then i.(pc := Submit(AppendThen(m, k)))
    else i.(pc := Appending(m, k))
  }

  function Appended(c: Config, i: Intake): Intake
    requires i.pc.Appending?
  {
    var m, k := i.pc.m, i.pc.k;
    i.(open := i.open + [m], openBytes := i.openBytes + m.size,
       pc := if |i.open| + 1 >= c.batchSize then Submit(Continue(k)) else Resume(k))
  }

  predicate LoopEnabled(i: Intake, l: LoopStep) {
    match l
    case Receive => i.pc.Select? && |i.msgs| > 0
    case Tick => i.pc.Select?
    case Check => i.pc.Handle?
    case Append => i.pc.Appending?
    case FlushReceive => i.pc.FlushDrain? && i.pc.left > 0 && |i.msgs| > 0
    case FlushEnd => i.pc.FlushDrain? && i.pc.left == 0
    case CloseMsgs => i.pc.Quitting?
    case QuitReceive => i.pc.QuitDrain? && |i.msgs| > 0
    case QuitEnd => i.pc.QuitDrain? && |i.msgs| == 0
  }

  function LoopDo(c: Config, i: Intake, l: LoopStep): Intake
    requires LoopEnabled(i, l)
  {
    match l
    case Receive => Pop(i, BackToSelect)
    case Tick => FlushThen(i, Continue(BackToSelect))
    case Check => Checked(i)
    case Append => Appended(c, i)
    case FlushReceive => Pop(i, DrainForFlush(i.pc.f, i.pc.left - 1))
    case FlushEnd => FlushThen(i, ReplyTo(i.pc.f))
    case CloseMsgs => i.(pc := QuitDrain, msgsClosed := true)
    case QuitReceive => Pop(i, DrainForQuit)
    case QuitEnd => FlushThen(i, FinalBatch)
  }

  function EnvOf(c: Config, s: State): T.Env {
    T.Env(c.v1, c.batchesSize, c.maxAttempts, c.nonBlocking, s.life.quit, s.life.cancelled, s.clock)
  }

  /** sendBatch returns with these two steps. */
  predicate EndsSend(ts: T.Step) {
    ts.Spawn? || ts.DropDone?
  }

  /** The channels of every live delivery, as flush reads them under the mutex. */
  function LiveChans(t: T.Transport): set<T.Chan> {
    set d | d in t.live && d < |t.deliveries| :: T.Current(t, d)
  }

  predicate Enabled(c: Config, s: State, step: Step) {
    match step
    case Produce(_) => !s.i.msgsClosed && |s.i.msgs| < c.queueSize
    case Loop(l) => LoopEnabled(s.i, l)
    case SubmitBatch => s.i.pc.Submit? && T.Enabled(EnvOf(c, s), s.t, T.Register(s.i.open))
    case Carry(ts) =>
      && T.Enabled(EnvOf(c, s), s.t, ts) && !ts.Register? && !ts.CloseBatches?
      && (EndsSend(ts) ==> s.i.pc.InSendBatch?)
    case TakeFlush(f) => s.i.pc.Select? && f < |s.flushes| && s.flushes[f].Requesting?
    case Measure => s.i.pc.TookFlush?
    case TakeSnapshot => s.i.pc.Snapshot?
    case SeeQuit => s.i.pc.Select? && s.life.quit
    case Drained => s.i.pc.Awaiting? && s.t.inFlight <= 0
    case DrainTimeout => s.i.pc.Awaiting? && s.life.cancelled
    case SignalShutdown => s.i.pc.Exiting?
    case CloseBatches => s.i.pc.ClosingBatches?
    case CallFlush => !s.life.shut
    case GiveUp(f) => f < |s.flushes| && !s.flushes[f].Flushed?
    case Hear(f, ch) => f < |s.flushes| && s.flushes[f].Pending? && ch in s.flushes[f].left && ch in s.t.closed
    case FlushReturn(f) => f < |s.flushes| && s.flushes[f].Pending? && s.flushes[f].left == {}
    case CallClose => s.life.closer.NotClosed?
    case CloseQuit => s.life.closer.Closing?
    case CloseTimeout => s.life.closer.AwaitingShutdown?
    case CloseAcknowledged => (s.life.closer.AwaitingShutdown? || s.life.closer.TimedOut?) && s.life.shutdown
    case CloseReturn(_) => s.life.closer.Emails?
  }

  function IntakeAfter(c: Config, s: State, step: Step): Intake
    requires Enabled(c, s, step)
  {
    match step
    case Produce(size) =>
      var m := Msg(|s.i.accepted|, size);
      s.i.(accepted := s.i.accepted + [m], msgs := s.i.msgs + [m])
    case Loop(l) => LoopDo(c, s.i, l)
    case SubmitBatch => s.i.(pc := InSendBatch(s.i.pc.after), open := [], openBytes := 0)
    case Carry(ts) => if EndsSend(ts) then s.i.(pc := Finish(s.i.pc.after)) else s.i
    case TakeFlush(f) => s.i.(pc := TookFlush(f))
    case Measure => s.i.(pc := FlushDrain(s.i.pc.f, |s.i.msgs|))
    case TakeSnapshot => s.i.(pc := Select)
    case SeeQuit => s.i.(pc := Quitting)
    case Drained => s.i.(pc := Exiting)
    case DrainTimeout => s.i.(pc := Exiting)
    case SignalShutdown => s.i.(pc := ClosingBatches)
    case CloseBatches => s.i.(pc := Stopped)
    case _ => s.i
  }

  function TransportAfter(c: Config, s: State, step: Step): T.Transport
    requires Enabled(c, s, step)
  {
    match step
    case SubmitBatch => T.Do(EnvOf(c, s), s.t, T.Register(s.i.open))
    case Carry(ts) => T.Do(EnvOf(c, s), s.t, ts)
    case CloseBatches => T.Do(EnvOf(c, s), s.t, T.Step.CloseBatches)
    case _ => s.t
  }

  function FlushesAfter(c: Config, s: State, step: Step): seq<Flush>
    requires Enabled(c, s, step)
  {
    match step
    case TakeFlush(f) => s.flushes[f := Taken(s.clock, |s.i.accepted|, 0)]
    case Measure =>
      var f := s.i.pc.f;
      if f < |s.flushes| && s.flushes[f].Taken?
      then s.flushes[f := Taken(s.flushes[f].since, s.flushes[f].barrier, |s.i.accepted|)]
      else s.flushes
    case TakeSnapshot =>
      var f := s.i.pc.f;
      if f < |s.flushes| && s.flushes[f].Taken?
      then
        var x := s.flushes[f];
        s.flushes[f := Pending(LiveChans(s.t), LiveChans(s.t), x.since, x.barrier, x.mark)]
      else s.flushes
    case CallFlush => s.flushes + [Requesting]
    case GiveUp(f) => s.flushes[f := GaveUp]
    case Hear(f, ch) =>
      var x := s.flushes[f];
      s.flushes[f := Pending(x.awaited, x.left - {ch}, x.since, x.barrier, x.mark)]
    case FlushReturn(f) => s.flushes[f := Flushed(s.flushes[f].since, s.flushes[f].barrier)]
    case _ => s.flushes
  }

  function LifeAfter(c: Config, s: State, step: Step): Life
    requires Enabled(c, s, step)
  {
    match step
    case SignalShutdown => s.life.(shutdown := true)
    case CallClose => s.life.(shut := true, closer := Closing)
    case CloseQuit => s.life.(quit := true, closer := AwaitingShutdown)
    case CloseTimeout => s.life.(cancelled := true, closer := TimedOut)
    case CloseAcknowledged => s.life.(closer := Emails(s.life.closer.AwaitingShutdown?))
    case CloseReturn(emailsOk) => s.life.(closer := Returned(s.life.closer.ok && emailsOk))
    case _ => s.life
  }

  /** Closing a channel that is already closed panics. */
  predicate ClosesTwice(s: State, step: Step) {
    || (step == Loop(CloseMsgs) && s.i.msgsClosed)
    || (step.SignalShutdown? && s.life.shutdown)
    || (step.CloseQuit? && s.life.quit)
    || (step.CloseBatches? && s.t.batchesClosed)
  }

  function Do(c: Config, s: State, step: Step): State
    requires Enabled(c, s, step)
  {
    State(IntakeAfter(c, s, step), TransportAfter(c, s, step), FlushesAfter(c, s, step),
          LifeAfter(c, s, step), s.crashed || ClosesTwice(s, step), s.clock + 1)
  }

  /** A run: any interleaving of enabled steps from the initial state. */
  ghost predicate Run(c: Config, states: seq<State>, steps: seq<Step>) {
    && |states| == |steps| + 1
    && states[0] == INIT
    && forall n {:trigger steps[n]} :: 0 <= n < |steps| ==>
         Enabled(c, states[n], steps[n]) && states[n + 1] == Do(c, states[n], steps[n])
  }
}
