// The delivery records that Flush waits on, and the worker that keeps them
// while it sends one batch in legacy mode: which attempt is current, and
// whether the batch waits to be retried.

module Deliveries {

  import opened Wrappers
  import opened Channels

  /** The current attempt: its channel is closed just while the batch waits to be retried. */
  class Delivery {
    var done: Channel
    var retrying: bool

    constructor ()
      ensures Open() && fresh(done)
    {
      done := new Channel();
      retrying := false;
    }

    ghost predicate Valid()
      reads this, done
    {
      done.closed <==> retrying
    }

    ghost predicate Open()
      reads this, done
    {
      !done.closed && !retrying
    }
  }

  /** How building the request, one upload, and the wait after it go; each can panic. */
  datatype Marshalled = Built | Unbuilt | BuildPanics
  datatype Answer = Accepted | Terminal | Retryable | UploadPanics
  datatype Waited = TimerFired | Interrupted | WaitPanics
  datatype Attempt = Attempt(answer: Answer, cancelled: bool, waited: Waited)

  type Server = nat -> Attempt

  datatype Ending = Delivered | Dropped | Panicked

  /** The worker goes on to another attempt after this one. */
  predicate GoesOn(a: Attempt) {
    a.answer.Retryable? && !a.cancelled && a.waited.TimerFired?
  }

  predicate Panics(a: Attempt) {
    a.answer.UploadPanics? || (a.answer.Retryable? && !a.cancelled && a.waited.WaitPanics?)
  }

  /** How the attempts from i on end. */
  function EndingFrom(server: Server, maxAttempts: nat, i: nat): Ending
    decreases maxAttempts - i
  {
    if i >= maxAttempts then Dropped
    else if server(i).answer.Accepted? then Delivered
    else if Panics(server(i)) then Panicked
    else if GoesOn(server(i)) then EndingFrom(server, maxAttempts, i + 1)
    else Dropped
  }

  /** Attempt k is made, if the budget allows. */
  ghost predicate Reached(server: Server, i: nat, k: nat) {
    forall j: nat :: i <= j < k ==> GoesOn(server(j))
  }

  /**
   * A batch is delivered exactly when some attempt within the budget accepts it,
   * and its worker panics exactly when some attempt does, none before having
   * given up.
   */
  lemma {:induction false} EndingMeans(server: Server, maxAttempts: nat, i: nat)
    ensures EndingFrom(server, maxAttempts, i) == Delivered <==>
              exists k: nat :: i <= k < maxAttempts && server(k).answer.Accepted? && Reached(server, i, k)
    ensures EndingFrom(server, maxAttempts, i) == Panicked <==>
              exists k: nat :: i <= k < maxAttempts && Panics(server(k)) && Reached(server, i, k)
    decreases maxAttempts - i
  {
    if i < maxAttempts {
      assert Reached(server, i, i);
      if GoesOn(server(i)) {
        EndingMeans(server, maxAttempts, i + 1);
        forall k: nat | i < k ensures Reached(server, i, k) <==> Reached(server, i + 1, k) {
        }
      }
    }
  }

  /** A batch with its delivery; how marshalling goes is found out when it is sent. */
  datatype Work = Work(done: Delivery, msgs: seq<string>, marshalled: Marshalled)

  function EndingOf(marshalled: Marshalled, server: Server, maxAttempts: nat): Ending {
    match marshalled
    case Built => EndingFrom(server, maxAttempts, 0)
    case Unbuilt => Dropped
    case BuildPanics => Panicked
  }

  datatype Callback = Callback(msg: string, ok: bool)

  function Told(msgs: seq<string>, ok: bool): (cs: seq<Callback>)
    ensures |cs| == |msgs|
  {
    seq(|msgs|, i requires 0 <= i < |msgs| => Callback(msgs[i], ok))
  }

  class Client {
    const maxAttempts: nat
    var deliveries: set<Delivery>
    var inFlight: int
    var callbacks: seq<Callback>
    var uploads: nat

    constructor (maxAttempts: nat)
      ensures deliveries == {} && inFlight == 0 && callbacks == [] && uploads == 0
    {
      this.maxAttempts := maxAttempts;
      deliveries, inFlight, callbacks, uploads := {}, 0, [], 0;
    }

    /** beginDeliveryAttempt: an attempt after a wait has a channel of its own. */
    static method BeginDeliveryAttempt(d: Delivery)
      requires d.Valid()
      modifies d
      ensures d.Open()
      ensures if old(d.retrying) then fresh(d.done) else d.done == old(d.done)
    {
      if d.retrying {
        d.done := new Channel();
        d.retrying := false;
      }
    }

    /** deferDeliveryRetry: the wait ends the attempt for whoever flushes. */
    static method DeferDeliveryRetry(d: Delivery)
      requires d.Valid()
      modifies d, d.done
      ensures d.Valid() && d.retrying && d.done == old(d.done)
    {
      if !d.retrying {
        d.retrying := true;
        d.done.Close();
      }
    }

    /** completeDelivery: the last channel ends up closed, whether the batch was waiting or not. */
    method CompleteDelivery(d: Delivery)
      requires d.Valid()
      modifies this`deliveries, d.done
      ensures deliveries == old(deliveries) - {d} && d.done.closed && d.done == old(d.done)
    {
      deliveries := deliveries - {d};
      if !d.retrying {
        d.done.Close();
      }
    }

    method Notify(msgs: seq<string>, ok: bool)
      modifies this`callbacks
      ensures callbacks == old(callbacks) + Told(msgs, ok)
    {
      var i := 0;
      while i < |msgs|
        invariant i <= |msgs|
        invariant callbacks == old(callbacks) + Told(msgs, ok)[..i]
      {
        callbacks := callbacks + [Callback(msgs[i], ok)];
        i := i + 1;
      }
    }

    /**
     * send: up to maxAttempts uploads, and one callback for each message; none
     * is uploaded when the batch cannot be marshalled, and no callback made when
     * the worker panics. The delivery's channel is closed at each moment just
     * when its batch waits, so no attempt's channel is ever closed twice.
     */
    method Send(d: Delivery, msgs: seq<string>, marshalled: Marshalled, server: Server) returns (panicked: bool)
      requires d.Open()
      modifies this`callbacks, this`uploads, d, d.done
      ensures d.Valid() && (d.done == old(d.done) || fresh(d.done))
      ensures panicked <==> EndingOf(marshalled, server, maxAttempts) == Panicked
      ensures callbacks == old(callbacks)
                           + if panicked then [] else Told(msgs, EndingOf(marshalled, server, maxAttempts) == Delivered)
      ensures old(uploads) <= uploads <= old(uploads) + if marshalled.Built? then maxAttempts else 0
    {
      if marshalled.BuildPanics? {
        return true;
      }
      if marshalled.Unbuilt? {
        Notify(msgs, false);
        return false;
      }
      var i := 0;
      while i < maxAttempts
        invariant i <= maxAttempts && uploads == old(uploads) + i
        invariant d.Valid() && (d.done == old(d.done) || fresh(d.done)) && (i < maxAttempts && i > 0 ==> d.retrying)
        invariant callbacks == old(callbacks)
        invariant EndingFrom(server, maxAttempts, 0) == EndingFrom(server, maxAttempts, i)
      {
        BeginDeliveryAttempt(d);
        uploads := uploads + 1;
        var a := server(i);
        if a.answer.UploadPanics? {
          return true;
        }
        if a.answer.Accepted? {
          Notify(msgs, true);
          return false;
        }
        if a.answer.Terminal? || a.cancelled {
          Notify(msgs, false);
          return false;
        }
        if i < maxAttempts - 1 {
          DeferDeliveryRetry(d);
        }
        if a.waited.WaitPanics? {
          return true;
        }
        if a.waited.Interrupted? {
          Notify(msgs, false);
          return false;
        }
        i := i + 1;
      }
      Notify(msgs, false);
      return false;
    }

    /**
     * processBatch, for what it receives: a batch, or None when the queue was
     * closed and empty. A panic is recovered: the whole batch has failed.
     */
    method ProcessBatch(received: Option<Work>, server: Server)
      requires received.Some? ==> received.value.done.Open() && received.value.done in deliveries
      modifies this, if received.Some? then {received.value.done, received.value.done.done} else {}
      ensures inFlight == old(inFlight) - 1
      ensures received.None? ==> deliveries == old(deliveries) && callbacks == old(callbacks) && uploads == old(uploads)
      ensures received.Some? ==>
                var work := received.value;
                && deliveries == old(deliveries) - {work.done} && work.done.done.closed
                && callbacks == old(callbacks) + Told(work.msgs, EndingOf(work.marshalled, server, maxAttempts) == Delivered)
    {
      if received.Some? {
        var panicked := Send(received.value.done, received.value.msgs, received.value.marshalled, server);
        if panicked {
          Notify(received.value.msgs, false);
        }
        CompleteDelivery(received.value.done);
      }
      inFlight := inFlight - 1;
    }
  }
}
