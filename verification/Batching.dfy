// The batching done by the client's loop: messages are appended to an open
// batch, and the batch is handed over when the next message would overflow it
// or when it is full.

module Batching {

  const MAX_BATCH_BYTES: nat := 500000
  const MAX_MESSAGE_BYTES: nat := 500000

  /** A serialized message: its place in the order of acceptance, and its length. */
  datatype Msg = Msg(id: nat, size: nat)

  predicate Oversized(m: Msg) {
    m.size > MAX_MESSAGE_BYTES
  }

  /** The test made before a message is appended to the open batch. */
  predicate Overflows(open: seq<Msg>, bytes: nat, m: Msg) {
    bytes + m.size > MAX_BATCH_BYTES && |open| > 0
  }

  function Bytes(ms: seq<Msg>): nat {
    if |ms| == 0 then 0 else Bytes(ms[..|ms| - 1]) + ms[|ms| - 1].size
  }

  /** The messages that are not oversized, in order. */
  function Kept(ms: seq<Msg>): seq<Msg> {
    if |ms| == 0 then [] else
      var front := Kept(ms[..|ms| - 1]);
      if Oversized(ms[|ms| - 1]) then front else front + [ms[|ms| - 1]]
  }

  /** The oversized ones, in order. */
  function TooBig(ms: seq<Msg>): seq<Msg> {
    if |ms| == 0 then [] else
      var front := TooBig(ms[..|ms| - 1]);
      if Oversized(ms[|ms| - 1]) then front + [ms[|ms| - 1]] else front
  }

  function Flatten(batches: seq<seq<Msg>>): seq<Msg> {
    if |batches| == 0 then [] else Flatten(batches[..|batches| - 1]) + batches[|batches| - 1]
  }

  /** What the service may be sent as one batch. */
  predicate WellSized(batch: seq<Msg>, limit: nat) {
    1 <= |batch| <= limit && Bytes(batch) <= MAX_BATCH_BYTES
  }

  /** An open batch between two messages: it is never full, and never too large. */
  predicate WellOpen(open: seq<Msg>, limit: nat) {
    |open| < limit && Bytes(open) <= MAX_BATCH_BYTES
  }

  lemma BytesAppend(ms: seq<Msg>, m: Msg)
    ensures Bytes(ms + [m]) == Bytes(ms) + m.size
  {
    assert (ms + [m])[..|ms|] == ms;
  }

  lemma KeptAppend(ms: seq<Msg>, m: Msg)
    ensures Kept(ms + [m]) == if Oversized(m) then Kept(ms) else Kept(ms) + [m]
    ensures TooBig(ms + [m]) == if Oversized(m) then TooBig(ms) + [m] else TooBig(ms)
  {
    assert (ms + [m])[..|ms|] == ms;
  }

  lemma {:induction false} KeptOrTooBig(ms: seq<Msg>)
    ensures multiset(Kept(ms)) + multiset(TooBig(ms)) == multiset(ms)
  {
    if |ms| > 0 {
      var n := |ms| - 1;
      KeptOrTooBig(ms[..n]);
      assert ms == ms[..n] + [ms[n]];
    }
  }

  lemma FlattenAppend(batches: seq<seq<Msg>>, batch: seq<Msg>)
    ensures Flatten(batches + [batch]) == Flatten(batches) + batch
  {
    assert (batches + [batch])[..|batches|] == batches;
  }

  /** A value of the batcher: what was handed over, what is open, what was refused. */
  datatype Batches = Batches(sent: seq<seq<Msg>>, open: seq<Msg>, refused: seq<Msg>)

  /** Hand the open batch over, unless it is empty. */
  function Handed(b: Batches): Batches {
    if |b.open| == 0 then b else b.(sent := b.sent + [b.open], open := [])
  }

  function WithRoom(b: Batches, m: Msg): Batches {
    if Overflows(b.open, Bytes(b.open), m) then Handed(b) else b
  }

  function WithMessage(b: Batches, m: Msg): Batches {
    b.(open := b.open + [m])
  }

  function HandedIfFull(b: Batches, limit: nat): Batches {
    if |b.open| >= limit then Handed(b) else b
  }

  /** One message processed. */
  function Fed(b: Batches, limit: nat, m: Msg): Batches {
    if Oversized(m) then b.(refused := b.refused + [m]) else HandedIfFull(WithMessage(WithRoom(b, m), m), limit)
  }

  /** What the loop does to its batcher between two sends. */
  datatype Input = Feed(m: Msg) | Tick

  function Inputs(b: Batches, limit: nat, inputs: seq<Input>): Batches {
    if |inputs| == 0 then b else
      var prior := Inputs(b, limit, inputs[..|inputs| - 1]);
      match inputs[|inputs| - 1]
      case Feed(m) => Fed(prior, limit, m)
      case Tick => Handed(prior)
  }

  function Messages(inputs: seq<Input>): seq<Msg> {
    if |inputs| == 0 then [] else
      var front := Messages(inputs[..|inputs| - 1]);
      match inputs[|inputs| - 1]
      case Feed(m) => front + [m]
      case Tick => front
  }

  ghost predicate SentWellSized(b: Batches, limit: nat) {
    forall i :: 0 <= i < |b.sent| ==> WellSized(b.sent[i], limit)
  }

  ghost predicate Orderly(b: Batches, limit: nat) {
    SentWellSized(b, limit) && WellOpen(b.open, limit)
  }

  /** All messages sent or open, in the order they would leave. */
  function Sequence(b: Batches): seq<Msg> {
    Flatten(b.sent) + b.open
  }

  lemma HandedKeepsSequence(b: Batches, limit: nat)
    requires SentWellSized(b, limit) && |b.open| <= limit && Bytes(b.open) <= MAX_BATCH_BYTES
    ensures SentWellSized(Handed(b), limit)
    ensures Handed(b).open == [] && Handed(b).refused == b.refused
    ensures Sequence(Handed(b)) == Sequence(b)
  {
    FlattenAppend(b.sent, b.open);
  }

  lemma RoomKeepsSequence(b: Batches, limit: nat, m: Msg)
    requires Orderly(b, limit) && !Oversized(m)
    ensures var room := WithRoom(b, m);
            && Orderly(room, limit) && Bytes(room.open) + m.size <= MAX_BATCH_BYTES
            && room.refused == b.refused && Sequence(room) == Sequence(b)
  {
    HandedKeepsSequence(b, limit);
  }

  lemma AppendedSequence(b: Batches, limit: nat, m: Msg)
    requires Orderly(b, limit) && Bytes(b.open) + m.size <= MAX_BATCH_BYTES
    ensures var full := WithMessage(b, m);
            && SentWellSized(full, limit) && 1 <= |full.open| <= limit && Bytes(full.open) <= MAX_BATCH_BYTES
            && Sequence(full) == Sequence(b) + [m]
  {
    BytesAppend(b.open, m);
    assert Flatten(b.sent) + (b.open + [m]) == Flatten(b.sent) + b.open + [m];
  }

  lemma FedIsOrderly(b: Batches, limit: nat, m: Msg)
    requires limit >= 1 && Orderly(b, limit)
    ensures Orderly(Fed(b, limit, m), limit)
    ensures Sequence(Fed(b, limit, m)) == Sequence(b) + if Oversized(m) then [] else [m]
    ensures Fed(b, limit, m).refused == b.refused + if Oversized(m) then [m] else []
  {
    if Oversized(m) {
      assert Sequence(b) + [] == Sequence(b);
    } else {
      RoomKeepsSequence(b, limit, m);
      AppendedSequence(WithRoom(b, m), limit, m);
      HandedKeepsSequence(WithMessage(WithRoom(b, m), m), limit);
    }
  }

  /**
   * Whatever is fed, and whenever the open batch is handed over, the batches
   * sent and the open one are the messages that fit, in the order they came,
   * and the others are the messages refused.
   */
  lemma {:induction false} BatcherRefinesFifo(limit: nat, inputs: seq<Input>)
    requires limit >= 1
    ensures var b := Inputs(Batches([], [], []), limit, inputs);
            && Orderly(b, limit)
            && Sequence(b) == Kept(Messages(inputs))
            && b.refused == TooBig(Messages(inputs))
  {
    if |inputs| > 0 {
      var front := inputs[..|inputs| - 1];
      BatcherRefinesFifo(limit, front);
      var prior := Inputs(Batches([], [], []), limit, front);
      match inputs[|inputs| - 1]
      case Feed(m) =>
        FedIsOrderly(prior, limit, m);
        KeptAppend(Messages(front), m);
        assert Messages(inputs) == Messages(front) + [m];
        var b := Inputs(Batches([], [], []), limit, inputs);
        assert b == Fed(prior, limit, m);
        if Oversized(m) {
          assert Sequence(b) == Sequence(prior);
        }
      case Tick =>
        HandedKeepsSequence(prior, limit);
    }
  }

  /** The loop's local batch, its running size, and the closures that update them. */
  class Batcher {
    const limit: nat
    var batchMsgs: seq<Msg>
    var batchSize: nat
    var sent: seq<seq<Msg>>
    var refused: seq<Msg>

    ghost predicate Valid() reads this {
      limit >= 1 && batchSize == Bytes(batchMsgs) && Orderly(Value(), limit)
    }

    function Value(): Batches reads this {
      Batches(sent, batchMsgs, refused)
    }

    constructor (limit: nat)
      requires limit >= 1
      ensures Valid() && Value() == Batches([], [], []) && this.limit == limit
    {
      this.limit := limit;
      batchMsgs, batchSize, sent, refused := [], 0, [], [];
    }

    method FlushBatch()
      modifies this`sent
      ensures sent == old(Handed(Value())).sent
    {
      if |batchMsgs| == 0 {
        return;
      }
      sent := sent + [batchMsgs];
    }

    method ResetBatch()
      modifies this`batchMsgs, this`batchSize
      ensures batchMsgs == [] && batchSize == 0
    {
      batchMsgs, batchSize := [], 0;
    }

    /** The batch part of processMessage, for a message that is not oversized. */
    method Append(m: Msg)
      requires batchSize == Bytes(batchMsgs) && limit >= 1
      modifies this`batchMsgs, this`batchSize, this`sent
      ensures Value() == HandedIfFull(WithMessage(WithRoom(old(Value()), m), m), limit)
      ensures batchSize == Bytes(batchMsgs)
    {
      if batchSize + m.size > MAX_BATCH_BYTES && |batchMsgs| > 0 {
        FlushBatch();
        ResetBatch();
      }
      assert Value() == WithRoom(old(Value()), m);
      BytesAppend(batchMsgs, m);
      batchMsgs := batchMsgs + [m];
      batchSize := batchSize + m.size;
      if |batchMsgs| >= limit {
        FlushBatch();
        ResetBatch();
      }
    }

    /** The running size always equals the true one, so the overflow test is exact. */
    method ProcessMessage(m: Msg) returns (buffered: bool)
      requires Valid()
      modifies this
      ensures Valid()
      ensures Value() == Fed(old(Value()), limit, m)
      ensures buffered <==> !Oversized(m)
      ensures batchSize == Bytes(batchMsgs) <= MAX_BATCH_BYTES
    {
      FedIsOrderly(Value(), limit, m);
      if m.size > MAX_MESSAGE_BYTES {
        refused := refused + [m];
        return false;
      }
      Append(m);
      return true;
    }
  }
}
