// What every step keeps about the message queue, the open batch and the
// batches handed over: first in, first out, within the service's limits.

module IntakeInvariant {

  import opened Batching
  import opened Pipeline

  /** Messages taken off the queue. */
  function Consumed(i: Intake): int {
    |i.accepted| - |i.msgs|
  }

  /** Messages whose size check has been made. */
  function Checkpoint(i: Intake): int {
    if i.pc.Handle? then Consumed(i) - 1 else Consumed(i)
  }

  function NextOf(a: After): Next {
    match a
    case AppendThen(_, k) => k
    case Continue(k) => k
    case ReplyTo(f) => DrainForFlush(f, 0)
    case FinalBatch => DrainForQuit
  }

  /** Where the loop goes once it is done with what it holds. */
  function Going(pc: LoopPc): Next {
    match pc
    case Handle(_, k) => k
    case Appending(_, k) => k
    case Submit(a) => NextOf(a)
    case InSendBatch(a) => NextOf(a)
    case FlushDrain(f, left) => DrainForFlush(f, left)
    case Snapshot(f) => DrainForFlush(f, 0)
    case QuitDrain => DrainForQuit
    case Awaiting => DrainForQuit
    case Exiting => DrainForQuit
    case ClosingBatches => DrainForQuit
    case Stopped => DrainForQuit
    case _ => BackToSelect
  }

  /** A checked message not yet in the open batch. */
  function InHand(pc: LoopPc): seq<Msg> {
    match pc
    case Appending(m, _) => [m]
    case Submit(AppendThen(m, _)) => [m]
    case InSendBatch(AppendThen(m, _)) => [m]
    case _ => []
  }

  /** The loop has read everything it will read. */
  predicate Finished(pc: LoopPc) {
    || pc == Submit(FinalBatch) || pc == InSendBatch(FinalBatch)
    || pc.Awaiting? || pc.Exiting? || pc.ClosingBatches? || pc.Stopped?
  }

  ghost predicate Queue(i: Intake) {
    && (forall n :: 0 <= n < |i.accepted| ==> i.accepted[n].id == n)
    && |i.msgs| <= |i.accepted| && i.msgs == i.accepted[Consumed(i)..]
    && (i.pc.Handle? ==> Consumed(i) >= 1 && i.pc.m == i.accepted[Consumed(i) - 1])
    && (Going(i.pc).DrainForFlush? ==> Going(i.pc).left <= |i.msgs|)
    && (i.msgsClosed <==> Going(i.pc).DrainForQuit?)
    && (Finished(i.pc) ==> i.msgs == [])
  }

  ghost predicate Sizes(c: Config, i: Intake) {
    && i.openBytes == Bytes(i.open) <= MAX_BATCH_BYTES
    && |i.open| <= c.batchSize
    && (|i.open| == c.batchSize ==> i.pc.Submit? && i.pc.after.Continue?)
    && (forall n :: 0 <= n < |InHand(i.pc)| ==> !Oversized(InHand(i.pc)[n]))
    && (i.pc.Appending? ==> !Overflows(i.open, i.openBytes, i.pc.m))
    && (i.pc.Submit? ==> |i.open| > 0)
    && (i.pc.InSendBatch? || i.pc.Snapshot? || i.pc.Awaiting? || i.pc.Exiting? || i.pc.ClosingBatches? || i.pc.Stopped?
        ==> i.open == [])
  }

  ghost predicate BatchesFit(c: Config, batches: seq<seq<Msg>>) {
    forall n :: 0 <= n < |batches| ==> WellSized(batches[n], c.batchSize)
  }

  /** The messages whose size check has been made. */
  function Prefix(i: Intake): seq<Msg> {
    if 0 <= Checkpoint(i) <= |i.accepted| then i.accepted[..Checkpoint(i)] else []
  }

  /** Batches handed over, then the open batch, then the message in hand: the checked messages that fit, in order. */
  ghost predicate Fifo(i: Intake, sent: seq<Msg>) {
    sent + i.open + InHand(i.pc) == Kept(Prefix(i))
  }

  /** The checked messages that do not fit were refused, in order. */
  ghost predicate Refusals(i: Intake) {
    i.refused == TooBig(Prefix(i))
  }

  ghost predicate Inv(c: Config, i: Intake, batches: seq<seq<Msg>>) {
    Queue(i) && Sizes(c, i) && BatchesFit(c, batches) && Fifo(i, Flatten(batches)) && Refusals(i)
  }

  /** The queue is the end of what was accepted, and stays it when both grow by the same message. */
  lemma EndGrows(accepted: seq<Msg>, msgs: seq<Msg>, m: Msg)
    requires |msgs| <= |accepted| && msgs == accepted[|accepted| - |msgs|..]
    ensures var n := |accepted| - |msgs|;
            msgs + [m] == (accepted + [m])[n..] && forall k :: 0 <= k <= n ==> (accepted + [m])[..k] == accepted[..k]
  {
  }

  lemma NumbersGrow(accepted: seq<Msg>, m: Msg)
    requires (forall n :: 0 <= n < |accepted| ==> accepted[n].id == n) && m.id == |accepted|
    ensures forall n :: 0 <= n < |accepted + [m]| ==> (accepted + [m])[n].id == n
  {
  }

  lemma ProduceQueue(i: Intake, size: nat)
    requires Queue(i) && !i.msgsClosed
    ensures var m := Msg(|i.accepted|, size);
            var j := i.(accepted := i.accepted + [m], msgs := i.msgs + [m]);
            Queue(j) && Prefix(j) == Prefix(i)
  {
    var m := Msg(|i.accepted|, size);
    var j := i.(accepted := i.accepted + [m], msgs := i.msgs + [m]);
    assert Consumed(j) == Consumed(i) && Checkpoint(j) == Checkpoint(i) && j.pc == i.pc;
    EndGrows(i.accepted, i.msgs, m);
    NumbersGrow(i.accepted, m);
    if i.pc.Handle? {
      assert j.accepted[Consumed(i) - 1] == i.accepted[Consumed(i) - 1];
    }
    assert !Finished(i.pc);
  }

  lemma ProduceKeeps(c: Config, i: Intake, batches: seq<seq<Msg>>, size: nat)
    requires ValidConfig(c) && Inv(c, i, batches) && !i.msgsClosed
    ensures var m := Msg(|i.accepted|, size);
            Inv(c, i.(accepted := i.accepted + [m], msgs := i.msgs + [m]), batches)
  {
    ProduceQueue(i, size);
  }

  /** Where the loop receives a message, and what it does after processing it. */
  predicate Receives(i: Intake, k: Next) {
    && |i.msgs| > 0
    && match i.pc
       case Select => k == BackToSelect
       case FlushDrain(f, left) => left > 0 && k == DrainForFlush(f, left - 1)
       case QuitDrain => k == DrainForQuit
       case _ => false
  }

  lemma PopKeeps(c: Config, i: Intake, batches: seq<seq<Msg>>, k: Next)
    requires ValidConfig(c) && Inv(c, i, batches) && Receives(i, k)
    ensures Inv(c, Pop(i, k), batches)
  {
    assert Prefix(Pop(i, k)) == Prefix(i);
  }

  lemma CheckSizes(c: Config, i: Intake)
    requires ValidConfig(c) && Queue(i) && Sizes(c, i) && i.pc.Handle?
    ensures Queue(Checked(i)) && Sizes(c, Checked(i))
  {
  }

  lemma CheckPrefix(i: Intake)
    requires Queue(i) && i.pc.Handle?
    ensures Prefix(Checked(i)) == Prefix(i) + [i.pc.m]
  {
  }

  function IfFits(m: Msg): seq<Msg> {
    if Oversized(m) then [] else [m]
  }

  lemma CheckedHolds(i: Intake)
    requires i.pc.Handle?
    ensures Checked(i).open == i.open && InHand(i.pc) == [] && InHand(Checked(i).pc) == IfFits(i.pc.m)
  {
  }

  lemma KeptGrows(ms: seq<Msg>, m: Msg, held: seq<Msg>)
    requires held + [] == Kept(ms)
    ensures held + IfFits(m) == Kept(ms + [m])
  {
    KeptAppend(ms, m);
    assert held + [] == held;
  }

  lemma CheckFifo(i: Intake, sent: seq<Msg>)
    requires Queue(i) && Fifo(i, sent) && i.pc.Handle?
    ensures Fifo(Checked(i), sent)
  {
    CheckedHolds(i);
    CheckPrefix(i);
    KeptGrows(Prefix(i), i.pc.m, sent + i.open);
  }

  lemma CheckRefusals(i: Intake)
    requires Queue(i) && Refusals(i) && i.pc.Handle?
    ensures Refusals(Checked(i))
  {
    CheckPrefix(i);
    var m := i.pc.m;
    KeptAppend(Prefix(i), m);
    if Oversized(m) {
      assert Checked(i).refused == i.refused + [m];
    } else {
      assert Checked(i).refused == i.refused;
    }
  }

  lemma CheckKeeps(c: Config, i: Intake, batches: seq<seq<Msg>>)
    requires ValidConfig(c) && Inv(c, i, batches) && i.pc.Handle?
    ensures Inv(c, Checked(i), batches)
  {
    CheckSizes(c, i);
    CheckFifo(i, Flatten(batches));
    CheckRefusals(i);
  }

  lemma AppendQueue(c: Config, i: Intake)
    requires ValidConfig(c) && Queue(i) && i.pc.Appending?
    ensures Queue(Appended(c, i))
  {
  }

  /** The open batch with one more message is not too large: it was flushed first if it would have been. */
  lemma AppendFits(open: seq<Msg>, bytes: nat, m: Msg)
    requires bytes == Bytes(open) <= MAX_BATCH_BYTES && !Overflows(open, bytes, m) && !Oversized(m)
    ensures Bytes(open + [m]) == bytes + m.size <= MAX_BATCH_BYTES
  {
    BytesAppend(open, m);
    assert open == [] ==> Bytes(open) == 0;
  }

  lemma AppendSizes(c: Config, i: Intake)
    requires ValidConfig(c) && Queue(i) && Sizes(c, i) && i.pc.Appending?
    ensures Queue(Appended(c, i)) && Sizes(c, Appended(c, i))
  {
    AppendQueue(c, i);
    assert InHand(i.pc)[0] == i.pc.m;
    AppendFits(i.open, i.openBytes, i.pc.m);
    AppendMoves(c, i);
  }

  /** After the append the batch is full and submitted, or the loop goes on with nothing in hand. */
  lemma AppendMoves(c: Config, i: Intake)
    requires ValidConfig(c) && i.pc.Appending? && |i.open| < c.batchSize
    ensures var j := Appended(c, i);
            && j.open == i.open + [i.pc.m] && j.openBytes == i.openBytes + i.pc.m.size && InHand(j.pc) == []
            && (|j.open| == c.batchSize ==> j.pc.Submit? && j.pc.after.Continue?) && |j.open| <= c.batchSize
            && !j.pc.Appending? && !j.pc.InSendBatch? && !j.pc.Snapshot?
            && !j.pc.Awaiting? && !j.pc.Exiting? && !j.pc.ClosingBatches? && !j.pc.Stopped?
  {
  }

  lemma AppendFifo(c: Config, i: Intake, sent: seq<Msg>)
    requires Queue(i) && Fifo(i, sent) && Refusals(i) && i.pc.Appending?
    ensures Fifo(Appended(c, i), sent) && Refusals(Appended(c, i))
  {
    assert Prefix(Appended(c, i)) == Prefix(i);
    assert sent + (i.open + [i.pc.m]) + [] == sent + i.open + [i.pc.m];
  }

  lemma AppendKeeps(c: Config, i: Intake, batches: seq<seq<Msg>>)
    requires ValidConfig(c) && Inv(c, i, batches) && i.pc.Appending?
    ensures Inv(c, Appended(c, i), batches)
  {
    AppendSizes(c, i);
    AppendFifo(c, i, Flatten(batches));
  }

  /** The loop moves on, holding nothing new. */
  lemma MoveKeeps(c: Config, i: Intake, batches: seq<seq<Msg>>, pc: LoopPc)
    requires ValidConfig(c) && Inv(c, i, batches)
    requires !i.pc.Handle? && !pc.Handle? && InHand(pc) == InHand(i.pc)
    requires Going(pc).DrainForQuit? <==> i.msgsClosed
    requires Going(pc).DrainForFlush? ==> Going(pc).left <= |i.msgs|
    requires Finished(pc) ==> i.msgs == []
    requires Sizes(c, i.(pc := pc))
    ensures Inv(c, i.(pc := pc), batches)
  {
  }

  /** Where the loop calls flushBatch, and what it does next. */
  predicate Flushes(i: Intake, a: After) {
    match i.pc
    case Select => a == Continue(BackToSelect)
    case FlushDrain(f, left) => left == 0 && a == ReplyTo(f)
    case QuitDrain => i.msgs == [] && a == FinalBatch
    case _ => false
  }

  lemma FlushThenSizes(c: Config, i: Intake, a: After)
    requires ValidConfig(c) && Sizes(c, i) && Flushes(i, a)
    ensures Sizes(c, FlushThen(i, a))
  {
  }

  lemma FlushThenKeeps(c: Config, i: Intake, batches: seq<seq<Msg>>, a: After)
    requires ValidConfig(c) && Inv(c, i, batches) && Flushes(i, a)
    ensures Inv(c, FlushThen(i, a), batches)
  {
    FlushThenSizes(c, i, a);
    MoveKeeps(c, i, batches, FlushThen(i, a).pc);
  }

  lemma CloseMsgsKeeps(c: Config, i: Intake, batches: seq<seq<Msg>>)
    requires ValidConfig(c) && Inv(c, i, batches) && i.pc.Quitting?
    ensures Inv(c, i.(pc := QuitDrain, msgsClosed := true), batches)
  {
  }

  /** The steps that take a message. */
  lemma ReceiveKeeps(c: Config, i: Intake, batches: seq<seq<Msg>>, l: LoopStep)
    requires ValidConfig(c) && Inv(c, i, batches) && LoopEnabled(i, l)
    requires l.Receive? || l.FlushReceive? || l.QuitReceive?
    ensures Inv(c, LoopDo(c, i, l), batches)
  {
    match l
    case Receive => PopKeeps(c, i, batches, BackToSelect);
    case FlushReceive => PopKeeps(c, i, batches, DrainForFlush(i.pc.f, i.pc.left - 1));
    case QuitReceive => PopKeeps(c, i, batches, DrainForQuit);
  }

  lemma LoopKeeps(c: Config, i: Intake, batches: seq<seq<Msg>>, l: LoopStep)
    requires ValidConfig(c) && Inv(c, i, batches) && LoopEnabled(i, l)
    ensures Inv(c, LoopDo(c, i, l), batches)
  {
    match l
    case Tick => FlushThenKeeps(c, i, batches, Continue(BackToSelect));
    case FlushEnd => FlushThenKeeps(c, i, batches, ReplyTo(i.pc.f));
    case CloseMsgs => CloseMsgsKeeps(c, i, batches);
    case QuitEnd => FlushThenKeeps(c, i, batches, FinalBatch);
    case Check => CheckKeeps(c, i, batches);
    case Append => AppendKeeps(c, i, batches);
    case _ => ReceiveKeeps(c, i, batches, l);
  }

  lemma SubmitFifo(i: Intake, sent: seq<Msg>)
    requires Queue(i) && Fifo(i, sent) && Refusals(i) && i.pc.Submit?
    ensures var j := i.(pc := InSendBatch(i.pc.after), open := [], openBytes := 0);
            Fifo(j, sent + i.open) && Refusals(j)
  {
    var j := i.(pc := InSendBatch(i.pc.after), open := [], openBytes := 0);
    assert Prefix(j) == Prefix(i) && InHand(j.pc) == InHand(i.pc);
    assert sent + i.open + [] == sent + i.open;
  }

  lemma SubmitSizes(c: Config, i: Intake, batches: seq<seq<Msg>>)
    requires ValidConfig(c) && Queue(i) && Sizes(c, i) && BatchesFit(c, batches) && i.pc.Submit?
    ensures var j := i.(pc := InSendBatch(i.pc.after), open := [], openBytes := 0);
            Queue(j) && Sizes(c, j) && BatchesFit(c, batches + [i.open])
  {
    assert InHand(InSendBatch(i.pc.after)) == InHand(i.pc);
  }

  lemma SubmitKeeps(c: Config, i: Intake, batches: seq<seq<Msg>>)
    requires ValidConfig(c) && Inv(c, i, batches) && i.pc.Submit?
    ensures Inv(c, i.(pc := InSendBatch(i.pc.after), open := [], openBytes := 0), batches + [i.open])
  {
    FlattenAppend(batches, i.open);
    SubmitFifo(i, Flatten(batches));
    SubmitSizes(c, i, batches);
  }

  lemma FinishSizes(c: Config, i: Intake)
    requires ValidConfig(c) && Sizes(c, i) && i.pc.InSendBatch?
    ensures Sizes(c, i.(pc := Finish(i.pc.after)))
  {
    var a := i.pc.after;
    if a.AppendThen? {
      assert InHand(i.pc)[0] == a.m;
    }
  }

  lemma FinishKeeps(c: Config, i: Intake, batches: seq<seq<Msg>>)
    requires ValidConfig(c) && Inv(c, i, batches) && i.pc.InSendBatch?
    ensures Inv(c, i.(pc := Finish(i.pc.after)), batches)
  {
    FinishSizes(c, i);
    MoveKeeps(c, i, batches, Finish(i.pc.after));
  }
}
