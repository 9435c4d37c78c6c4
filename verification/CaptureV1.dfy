// Delivery of one batch to the capture-v1 endpoint, which answers event by
// event: only the events it asks to retry are sent again.

module CaptureV1 {

  import opened Wrappers
  import D = Deliveries

  /** The three parallel slices of a prepared batch. */
  datatype Batch = Batch(data: seq<string>, msgs: seq<string>, uuids: seq<string>)

  predicate Aligned(b: Batch) {
    |b.data| == |b.msgs| == |b.uuids|
  }

  datatype EventResult = Retry | Drop | Accept   // Accept: ok, warning, or anything unrecognized

  /** How one attempt goes, up to the wait that follows it. */
  datatype Answer =
    | Unmarshalled                                             // the request body could not be built
    | NoResponse(status: Option<int>)                          // no response, or one whose body is unusable
    | Response(code: int, results: map<string, EventResult>)

  datatype Attempt = Attempt(answer: Answer, shutdown: bool, waited: bool)

  type Server = nat -> Attempt

  /** The error wrapped in a request failure, if any. */
  datatype Cause = NoCause | MarshalError | ExchangeError | ShutdownInBackoff

  /** What a callback is told about a message; a request failure without a response has status 0. */
  datatype Told =
    | Succeeded
    | RequestFailed(status: int, cause: Cause)
    | Rejected(uuid: string)
    | Exhausted(uuid: string)

  datatype Callback = Callback(msg: string, told: Told)

  datatype Request = Request(id: string, createdAt: string, attempt: nat, data: seq<string>)

  predicate Success(code: int) {
    200 <= code <= 299
  }

  /** isRetryableStatusV1: 429 is terminal here. */
  predicate Retryable(code: int) {
    code == 408 || code == 500 || code == 502 || code == 503 || code == 504
  }

  const DEFAULT_MAX_BACKOFF: nat := 30_000_000_000

  /** retryDelayV1: Retry-After is a minimum, itself capped; the configured delay is never cut short. */
  function RetryDelay(configured: nat, retryAfter: Option<int>): (delay: nat)
    ensures delay >= configured
    ensures delay <= configured || delay <= DEFAULT_MAX_BACKOFF
    ensures retryAfter.Some? ==> delay >= retryAfter.value || delay >= DEFAULT_MAX_BACKOFF
    ensures delay == configured || (retryAfter.Some? && delay <= retryAfter.value)
  {
    if retryAfter.None? then configured else
      var clamped := if retryAfter.value > DEFAULT_MAX_BACKOFF then DEFAULT_MAX_BACKOFF else retryAfter.value;
      if clamped > configured then clamped else configured
  }

  // ------------------------------------------------------------ by position in the batch

  /** A callback about the event at a position of the batch. */
  datatype Notice = Notice(position: nat, told: Told)

  function TellAll(ps: seq<nat>, told: Told): (ns: seq<Notice>)
    ensures |ns| == |ps| && forall i :: 0 <= i < |ps| ==> ns[i] == Notice(ps[i], told)
  {
    seq(|ps|, i requires 0 <= i < |ps| => Notice(ps[i], told))
  }

  ghost predicate InBatch(ps: seq<nat>, n: nat) {
    forall i :: 0 <= i < |ps| ==> ps[i] < n
  }

  function Select(xs: seq<string>, ps: seq<nat>): (ys: seq<string>)
    requires InBatch(ps, |xs|)
    ensures |ys| == |ps| && forall i :: 0 <= i < |ps| ==> ys[i] == xs[ps[i]]
  {
    seq(|ps|, i requires 0 <= i < |ps| => xs[ps[i]])
  }

  predicate AskedToRetry(results: map<string, EventResult>, uuid: string) {
    uuid in results && results[uuid] == Retry
  }

  /** The pending events the answer asks to retry. */
  function Kept(results: map<string, EventResult>, uuids: seq<string>, ps: seq<nat>): (next: seq<nat>)
    requires InBatch(ps, |uuids|)
    ensures InBatch(next, |uuids|)
  {
    if |ps| == 0 then [] else
      (if AskedToRetry(results, uuids[ps[0]]) then [ps[0]] else []) + Kept(results, uuids, ps[1..])
  }

  /** The callback a 2xx answer fires for an event: none if it is to be sent again or omitted. */
  function NoticeOf(results: map<string, EventResult>, uuids: seq<string>, p: nat): seq<Notice>
    requires p < |uuids|
  {
    var uuid := uuids[p];
    if uuid !in results then []
    else match results[uuid]
         case Retry => []
         case Drop => [Notice(p, Rejected(uuid))]
         case Accept => [Notice(p, Succeeded)]
  }

  /** The callbacks fired for these events, in order. */
  function Settled(results: map<string, EventResult>, uuids: seq<string>, ps: seq<nat>): seq<Notice>
    requires InBatch(ps, |uuids|)
  {
    if |ps| == 0 then [] else NoticeOf(results, uuids, ps[0]) + Settled(results, uuids, ps[1..])
  }

  function TellExhausted(uuids: seq<string>, ps: seq<nat>): (ns: seq<Notice>)
    requires InBatch(ps, |uuids|)
    ensures |ns| == |ps| && forall i :: 0 <= i < |ps| ==> ns[i] == Notice(ps[i], Exhausted(uuids[ps[i]]))
  {
    seq(|ps|, i requires 0 <= i < |ps| => Notice(ps[i], Exhausted(uuids[ps[i]])))
  }

  // ------------------------------------------------------------ the attempts

  /** After an attempt: over, or again with what is pending. */
  datatype After = Finish(notices: seq<Notice>) | Again(notices: seq<Notice>, next: seq<nat>)

  /** A response with this status ends the batch, whatever became of its body. */
  predicate TerminalStatus(status: Option<int>) {
    status.Some? && status.value != 0 && !Success(status.value) && !Retryable(status.value)
  }

  /** The error of the events that this attempt leaves failed. */
  function Failure(a: Attempt): Told {
    match a.answer
    case Unmarshalled => RequestFailed(0, MarshalError)
    case NoResponse(status) => RequestFailed(status.GetOr(0), if TerminalStatus(status) then NoCause else ExchangeError)
    case Response(code, _) => if Success(code) then RequestFailed(0, ShutdownInBackoff) else RequestFailed(code, NoCause)
  }

  function Wait(a: Attempt, told: seq<Notice>, next: seq<nat>): After {
    if a.waited then Again(told, next) else Finish(told + TellAll(next, Failure(a)))
  }

  function AfterAttempt(a: Attempt, last: bool, uuids: seq<string>, pending: seq<nat>): After
    requires InBatch(pending, |uuids|)
  {
    var fail := Finish(TellAll(pending, Failure(a)));
    match a.answer
    case Unmarshalled => fail
    case NoResponse(status) =>
      if status.Some? && Success(status.value) then fail
      else if TerminalStatus(status) then fail
      else if a.shutdown || last then fail
      else Wait(a, [], pending)
    case Response(code, results) =>
      if Success(code) then
        var told, next := Settled(results, uuids, pending), Kept(results, uuids, pending);
        if |next| == 0 then Finish(told)
        else if last then Finish(told + TellExhausted(uuids, next))
        else Wait(a, told, next)
      else if Retryable(code) && !last then Wait(a, [], pending)
      else fail
  }

  /** The positions each upload carried, and the callbacks fired, in order. */
  datatype Transcript = Transcript(sent: seq<seq<nat>>, notices: seq<Notice>)

  function Run(maxAttempts: nat, i: nat, server: Server, uuids: seq<string>, pending: seq<nat>): Transcript
    requires InBatch(pending, |uuids|)
    decreases maxAttempts - i
  {
    if i >= maxAttempts then Transcript([], []) else
      var a := server(i);
      var upload := if a.answer.Unmarshalled? then [] else [pending];
      AfterStaysInBatch(a, i == maxAttempts - 1, uuids, pending);
      match AfterAttempt(a, i == maxAttempts - 1, uuids, pending)
      case Finish(told) => Transcript(upload, told)
      case Again(told, next) =>
        var rest := Run(maxAttempts, i + 1, server, uuids, next);
        Transcript(upload + rest.sent, told + rest.notices)
  }

  function All(n: nat): (ps: seq<nat>)
    ensures InBatch(ps, n)
  {
    seq(n, i => i)
  }

  lemma AfterStaysInBatch(a: Attempt, last: bool, uuids: seq<string>, pending: seq<nat>)
    requires InBatch(pending, |uuids|)
    ensures AfterAttempt(a, last, uuids, pending).Again? ==> InBatch(AfterAttempt(a, last, uuids, pending).next, |uuids|)
  {
  }

  // ------------------------------------------------------------ one attempt, event by event

  lemma Regroup<T>(x: seq<T>, y: seq<T>, z: seq<T>)
    ensures (x + y) + z == x + (y + z)
  {
  }

  ghost predicate Ascending(ps: seq<nat>) {
    forall i, j :: 0 <= i < j < |ps| ==> ps[i] < ps[j]
  }

  /** The answer is a 2xx with results, so it settles events one by one. */
  predicate Settles(a: Attempt) {
    a.answer.Response? && Success(a.answer.code)
  }

  /** A 2xx answer says nothing of this event. */
  predicate Omits(a: Attempt, uuid: string) {
    Settles(a) && uuid !in a.answer.results
  }

  ghost predicate Tells(ns: seq<Notice>, p: nat) {
    exists i :: 0 <= i < |ns| && ns[i].position == p
  }

  ghost predicate OncePerEvent(ns: seq<Notice>) {
    forall i, j :: 0 <= i < j < |ns| ==> ns[i].position != ns[j].position
  }

  lemma TellsJoin(a: seq<Notice>, b: seq<Notice>, p: nat)
    ensures Tells(a + b, p) <==> Tells(a, p) || Tells(b, p)
  {
    if Tells(a, p) {
      var i :| 0 <= i < |a| && a[i].position == p;
      assert (a + b)[i].position == p;
    }
    if Tells(b, p) {
      var i :| 0 <= i < |b| && b[i].position == p;
      assert (a + b)[|a| + i].position == p;
    }
  }

  lemma OnceJoin(a: seq<Notice>, b: seq<Notice>)
    requires OncePerEvent(a) && OncePerEvent(b) && forall p: nat :: !(Tells(a, p) && Tells(b, p))
    ensures OncePerEvent(a + b)
  {
    forall i, j | 0 <= i < j < |a + b| ensures (a + b)[i].position != (a + b)[j].position {
      if i < |a| <= j {
        assert Tells(a, a[i].position) && (b[j - |a|].position == a[i].position ==> Tells(b, a[i].position));
      }
    }
  }

  lemma {:induction false} KeptMeans(results: map<string, EventResult>, uuids: seq<string>, ps: seq<nat>)
    requires InBatch(ps, |uuids|) && Ascending(ps)
    ensures Ascending(Kept(results, uuids, ps))
    ensures forall p :: p in Kept(results, uuids, ps) <==> p in ps && AskedToRetry(results, uuids[p])
  {
    if |ps| > 0 {
      KeptMeans(results, uuids, ps[1..]);
      var rest := Kept(results, uuids, ps[1..]);
      assert forall p :: p in ps <==> p == ps[0] || p in ps[1..];
      assert forall i :: 0 <= i < |rest| ==> rest[i] in ps[1..];
    }
  }

  lemma NoticeMeans(results: map<string, EventResult>, uuids: seq<string>, q: nat, p: nat)
    requires q < |uuids|
    ensures OncePerEvent(NoticeOf(results, uuids, q))
    ensures Tells(NoticeOf(results, uuids, q), p) <==> p == q && uuids[q] in results && results[uuids[q]] != Retry
  {
    var ns := NoticeOf(results, uuids, q);
    if |ns| > 0 {
      assert ns[0].position == q;
    }
  }

  lemma {:induction false} SettledMeans(results: map<string, EventResult>, uuids: seq<string>, ps: seq<nat>)
    requires InBatch(ps, |uuids|) && Ascending(ps)
    ensures OncePerEvent(Settled(results, uuids, ps))
    ensures forall p: nat :: Tells(Settled(results, uuids, ps), p) <==>
              p in ps && uuids[p] in results && results[uuids[p]] != Retry
  {
    if |ps| > 0 {
      var q, rest := ps[0], ps[1..];
      var head, tail := NoticeOf(results, uuids, q), Settled(results, uuids, rest);
      SettledMeans(results, uuids, rest);
      NoticeMeans(results, uuids, q, q);
      forall p: nat
        ensures Tells(head + tail, p) <==> p in ps && uuids[p] in results && results[uuids[p]] != Retry
        ensures !(Tells(head, p) && Tells(tail, p))
      {
        assert p in ps <==> p == q || p in rest;
        assert q !in rest;
        NoticeMeans(results, uuids, q, p);
        TellsJoin(head, tail, p);
      }
      OnceJoin(head, tail);
    }
  }

  lemma TellAllMeans(ps: seq<nat>, told: Told)
    requires Ascending(ps)
    ensures OncePerEvent(TellAll(ps, told)) && forall p: nat :: Tells(TellAll(ps, told), p) <==> p in ps
  {
  }

  lemma TellExhaustedMeans(uuids: seq<string>, ps: seq<nat>)
    requires Ascending(ps) && InBatch(ps, |uuids|)
    ensures OncePerEvent(TellExhausted(uuids, ps)) && forall p: nat :: Tells(TellExhausted(uuids, ps), p) <==> p in ps
  {
  }

  /** What one attempt leaves of the pending events: told, omitted or to be sent again, and each just one of these. */
  ghost predicate Accounts(a: Attempt, uuids: seq<string>, pending: seq<nat>, told: seq<Notice>, next: seq<nat>)
    requires InBatch(pending, |uuids|)
  {
    && OncePerEvent(told) && Ascending(next)
    && (forall p: nat :: p in next ==> p in pending && !Tells(told, p) && (Settles(a) ==> AskedToRetry(a.answer.results, uuids[p])))
    && (forall p: nat :: Tells(told, p) ==> p in pending && !Omits(a, uuids[p]))
    && (forall p: nat :: p in pending && !Omits(a, uuids[p]) ==> p in next || Tells(told, p))
  }

  function Fired(r: After): seq<Notice> {
    r.notices
  }

  function Pending(r: After): seq<nat> {
    if r.Again? then r.next else []
  }

  lemma TellAllAccounts(a: Attempt, uuids: seq<string>, pending: seq<nat>, told: seq<Notice>)
    requires InBatch(pending, |uuids|) && !Settles(a)
    requires OncePerEvent(told) && forall p: nat :: Tells(told, p) <==> p in pending
    ensures Accounts(a, uuids, pending, told, [])
  {
    forall p: nat | p in pending ensures !Omits(a, uuids[p]) && Tells(told, p) {
    }
  }

  lemma SendAllAccounts(a: Attempt, uuids: seq<string>, pending: seq<nat>)
    requires InBatch(pending, |uuids|) && Ascending(pending) && !Settles(a)
    ensures Accounts(a, uuids, pending, [], pending)
  {
    forall p: nat ensures !Tells([], p) {
    }
  }

  lemma SettledAccounts(a: Attempt, uuids: seq<string>, pending: seq<nat>)
    requires InBatch(pending, |uuids|) && Ascending(pending) && Settles(a)
    ensures Accounts(a, uuids, pending, Settled(a.answer.results, uuids, pending), Kept(a.answer.results, uuids, pending))
  {
    KeptMeans(a.answer.results, uuids, pending);
    SettledMeans(a.answer.results, uuids, pending);
  }

  /** Telling those that would be sent again settles them all. */
  lemma RestAccounts(
      a: Attempt, uuids: seq<string>, pending: seq<nat>, told: seq<Notice>, next: seq<nat>, rest: seq<Notice>)
    requires InBatch(pending, |uuids|) && Accounts(a, uuids, pending, told, next) && Settles(a)
    requires OncePerEvent(rest) && forall p: nat :: Tells(rest, p) <==> p in next
    requires forall p: nat :: p in next ==> p < |uuids| && AskedToRetry(a.answer.results, uuids[p])
    ensures Accounts(a, uuids, pending, told + rest, [])
  {
    forall p: nat ensures Tells(told + rest, p) <==> Tells(told, p) || Tells(rest, p) {
      TellsJoin(told, rest, p);
    }
    OnceJoin(told, rest);
  }

  lemma AttemptAccounts(a: Attempt, last: bool, uuids: seq<string>, pending: seq<nat>)
    requires InBatch(pending, |uuids|) && Ascending(pending)
    ensures var r := AfterAttempt(a, last, uuids, pending); Accounts(a, uuids, pending, Fired(r), Pending(r))
    ensures last ==> AfterAttempt(a, last, uuids, pending).Finish?
  {
    if Settles(a) {
      var next := Kept(a.answer.results, uuids, pending);
      KeptMeans(a.answer.results, uuids, pending);
      TellAllMeans(next, Failure(a));
      TellExhaustedMeans(uuids, next);
      SettledAccounts(a, uuids, pending);
      RestAccounts(a, uuids, pending, Settled(a.answer.results, uuids, pending), next, TellAll(next, Failure(a)));
      RestAccounts(a, uuids, pending, Settled(a.answer.results, uuids, pending), next, TellExhausted(uuids, next));
    } else {
      var told := TellAll(pending, Failure(a));
      TellAllMeans(pending, Failure(a));
      TellAllAccounts(a, uuids, pending, told);
      SendAllAccounts(a, uuids, pending);
      assert [] + told == told;
    }
  }

  // ------------------------------------------------------------ the whole delivery

  /** Upload k is attempt i + k. */
  lemma {:induction false} RunMeans(maxAttempts: nat, i: nat, server: Server, uuids: seq<string>, pending: seq<nat>)
    requires InBatch(pending, |uuids|) && Ascending(pending) && i < maxAttempts
    ensures var t := Run(maxAttempts, i, server, uuids, pending);
            && |t.sent| <= maxAttempts - i && (|t.sent| > 0 ==> t.sent[0] == pending)
            && (forall k :: 0 <= k < |t.sent| ==> Ascending(t.sent[k]) && forall p :: p in t.sent[k] ==> p in pending)
            && OncePerEvent(t.notices) && (forall p: nat :: Tells(t.notices, p) ==> p in pending)
    decreases maxAttempts - i
  {
    var a, last := server(i), i == maxAttempts - 1;
    AttemptAccounts(a, last, uuids, pending);
    match AfterAttempt(a, last, uuids, pending)
    case Finish(_) =>
    case Again(told, next) =>
      AfterStaysInBatch(a, last, uuids, pending);
      RunMeans(maxAttempts, i + 1, server, uuids, next);
      var rest := Run(maxAttempts, i + 1, server, uuids, next);
      forall p: nat ensures Tells(told + rest.notices, p) <==> Tells(told, p) || Tells(rest.notices, p) {
        TellsJoin(told, rest.notices, p);
      }
      OnceJoin(told, rest.notices);
  }

  /** Some upload carried the event to a 2xx answer that omitted it. */
  ghost predicate OmittedBy(i: nat, server: Server, uuids: seq<string>, t: Transcript, p: nat)
    requires p < |uuids|
  {
    exists k: nat :: k < |t.sent| && p in t.sent[k] && Omits(server(i + k), uuids[p])
  }

  lemma OmittedLater(
      i: nat, server: Server, uuids: seq<string>, pending: seq<nat>, rest: Transcript, told: seq<Notice>, p: nat)
    requires p < |uuids| && p in pending
    ensures OmittedBy(i, server, uuids, Transcript([pending] + rest.sent, told), p) <==>
              Omits(server(i), uuids[p]) || OmittedBy(i + 1, server, uuids, rest, p)
  {
    var t := Transcript([pending] + rest.sent, told);
    if Omits(server(i), uuids[p]) {
      assert p in t.sent[0] && Omits(server(i + 0), uuids[p]);
    }
    if OmittedBy(i + 1, server, uuids, rest, p) {
      var k: nat :| k < |rest.sent| && p in rest.sent[k] && Omits(server(i + 1 + k), uuids[p]);
      assert t.sent[k + 1] == rest.sent[k] && i + (k + 1) == i + 1 + k;
    }
    if OmittedBy(i, server, uuids, t, p) {
      var k: nat :| k < |t.sent| && p in t.sent[k] && Omits(server(i + k), uuids[p]);
      if k > 0 {
        assert t.sent[k] == rest.sent[k - 1] && i + k == i + 1 + (k - 1);
      }
    }
  }

  /** Once omitted, an event is neither sent nor told of again. */
  lemma OmittedIsFinal(maxAttempts: nat, i: nat, server: Server, uuids: seq<string>, next: seq<nat>, p: nat)
    requires InBatch(next, |uuids|) && Ascending(next) && i < maxAttempts && p < |uuids| && p !in next
    ensures !OmittedBy(i, server, uuids, Run(maxAttempts, i, server, uuids, next), p)
    ensures !Tells(Run(maxAttempts, i, server, uuids, next).notices, p)
  {
    RunMeans(maxAttempts, i, server, uuids, next);
  }

  /** Every pending event ends up told of, unless a 2xx answer omitted it, and then it is not. */
  lemma {:induction false} RunTells(
      maxAttempts: nat, i: nat, server: Server, uuids: seq<string>, pending: seq<nat>, p: nat)
    requires InBatch(pending, |uuids|) && Ascending(pending) && i < maxAttempts && p in pending
    ensures var t := Run(maxAttempts, i, server, uuids, pending);
            Tells(t.notices, p) <==> !OmittedBy(i, server, uuids, t, p)
    decreases maxAttempts - i
  {
    var a, last := server(i), i == maxAttempts - 1;
    AttemptAccounts(a, last, uuids, pending);
    if !a.answer.Unmarshalled? {
      match AfterAttempt(a, last, uuids, pending)
      case Finish(told) =>
        OmittedLater(i, server, uuids, pending, Transcript([], []), told, p);
        assert [pending] + [] == [pending];
      case Again(told, next) =>
        AfterStaysInBatch(a, last, uuids, pending);
        var rest := Run(maxAttempts, i + 1, server, uuids, next);
        OmittedLater(i, server, uuids, pending, rest, told + rest.notices, p);
        TellsJoin(told, rest.notices, p);
        if p in next {
          RunTells(maxAttempts, i + 1, server, uuids, next, p);
        } else {
          OmittedIsFinal(maxAttempts, i + 1, server, uuids, next, p);
        }
    }
  }

  /**
   * The next upload carries this event of the last one: one the answer asked to retry, or any if it
   * settled nothing.
   */
  predicate Resent(a: Attempt, uuids: seq<string>, sent: seq<nat>, p: nat) {
    p in sent && p < |uuids| && (Settles(a) ==> AskedToRetry(a.answer.results, uuids[p]))
  }

  ghost predicate ResentExactly(a: Attempt, uuids: seq<string>, sent: seq<nat>, next: seq<nat>) {
    && (forall p :: p in next ==> Resent(a, uuids, sent, p))
    && (forall p :: p in sent && Resent(a, uuids, sent, p) ==> p in next)
  }

  lemma NextMeans(a: Attempt, last: bool, uuids: seq<string>, pending: seq<nat>)
    requires InBatch(pending, |uuids|) && Ascending(pending) && AfterAttempt(a, last, uuids, pending).Again?
    ensures ResentExactly(a, uuids, pending, AfterAttempt(a, last, uuids, pending).next)
    ensures Ascending(AfterAttempt(a, last, uuids, pending).next) && !a.answer.Unmarshalled? && !last
  {
    if Settles(a) {
      KeptMeans(a.answer.results, uuids, pending);
    }
  }

  /** A delivery of several uploads goes on, after its first, as a delivery of the events to be sent again. */
  lemma RunContinues(
      maxAttempts: nat, i: nat, server: Server, uuids: seq<string>, pending: seq<nat>) returns (next: seq<nat>)
    requires InBatch(pending, |uuids|) && Ascending(pending)
    requires |Run(maxAttempts, i, server, uuids, pending).sent| > 1
    ensures i + 1 < maxAttempts && InBatch(next, |uuids|) && Ascending(next) && ResentExactly(server(i), uuids, pending, next)
    ensures Run(maxAttempts, i, server, uuids, pending).sent == [pending] + Run(maxAttempts, i + 1, server, uuids, next).sent
  {
    var a, last := server(i), i == maxAttempts - 1;
    AfterStaysInBatch(a, last, uuids, pending);
    next := AfterAttempt(a, last, uuids, pending).next;
    NextMeans(a, last, uuids, pending);
  }

  ghost predicate ResendsFrom(i: nat, server: Server, uuids: seq<string>, sent: seq<seq<nat>>)
    decreases |sent|
  {
    |sent| > 1 ==> ResentExactly(server(i), uuids, sent[0], sent[1]) && ResendsFrom(i + 1, server, uuids, sent[1..])
  }

  lemma {:induction false} RunResends(maxAttempts: nat, i: nat, server: Server, uuids: seq<string>, pending: seq<nat>)
    requires InBatch(pending, |uuids|) && Ascending(pending) && i < maxAttempts
    ensures ResendsFrom(i, server, uuids, Run(maxAttempts, i, server, uuids, pending).sent)
    decreases maxAttempts - i
  {
    if |Run(maxAttempts, i, server, uuids, pending).sent| > 1 {
      var next := RunContinues(maxAttempts, i, server, uuids, pending);
      RunMeans(maxAttempts, i + 1, server, uuids, next);
      RunResends(maxAttempts, i + 1, server, uuids, next);
      assert ([pending] + Run(maxAttempts, i + 1, server, uuids, next).sent)[1..]
          == Run(maxAttempts, i + 1, server, uuids, next).sent;
    }
  }

  lemma {:induction false} ResendsAt(i: nat, server: Server, uuids: seq<string>, sent: seq<seq<nat>>, k: nat)
    requires ResendsFrom(i, server, uuids, sent) && k + 1 < |sent|
    ensures ResentExactly(server(i + k), uuids, sent[k], sent[k + 1])
    decreases k
  {
    if k > 0 {
      ResendsAt(i + 1, server, uuids, sent[1..], k - 1);
      assert i + 1 + (k - 1) == i + k;
    }
  }

  /**
   * Each attempt sends an aligned subsequence of what the one before it sent; an event a 2xx answer
   * settled is never sent again.
   */
  lemma ResendsShrink(maxAttempts: nat, server: Server, uuids: seq<string>, k: nat)
    requires maxAttempts >= 1
    requires k + 1 < |Run(maxAttempts, 0, server, uuids, All(|uuids|)).sent|
    ensures var sent := Run(maxAttempts, 0, server, uuids, All(|uuids|)).sent;
            && Ascending(sent[k]) && Ascending(sent[k + 1])
            && (forall p :: p in sent[k + 1] ==> p in sent[k])
            && forall p: nat :: p < |uuids| && p in sent[k] && Settles(server(k)) ==>
                 (p in sent[k + 1] <==> AskedToRetry(server(k).answer.results, uuids[p]))
  {
    RunMeans(maxAttempts, 0, server, uuids, All(|uuids|));
    RunResends(maxAttempts, 0, server, uuids, All(|uuids|));
    ResendsAt(0, server, uuids, Run(maxAttempts, 0, server, uuids, All(|uuids|)).sent, k);
  }

  /**
   * For any answers of the server: every event gets at most one callback, and
   * gets one unless some 2xx answer omitted its uuid, so none is left pending.
   */
  lemma EveryEventSettled(maxAttempts: nat, server: Server, uuids: seq<string>, p: nat)
    requires maxAttempts >= 1 && p < |uuids|
    ensures var t := Run(maxAttempts, 0, server, uuids, All(|uuids|));
            && OncePerEvent(t.notices)
            && (Tells(t.notices, p) <==> !OmittedBy(0, server, uuids, t, p))
  {
    var all := All(|uuids|);
    RunMeans(maxAttempts, 0, server, uuids, all);
    assert all[p] == p;
    RunTells(maxAttempts, 0, server, uuids, all, p);
  }

  // ------------------------------------------------------------ what an event is told

  /** The status and the wrapped error are those of the attempt. */
  predicate Explains(a: Attempt, status: int, cause: Cause) {
    match cause
    case MarshalError => a.answer.Unmarshalled? && status == 0
    case ExchangeError => a.answer.NoResponse? && status == a.answer.status.GetOr(0)
    case ShutdownInBackoff => Settles(a) && !a.waited && status == 0
    case NoCause =>
      !Success(status) && (a.answer == NoResponse(Some(status)) || (a.answer.Response? && a.answer.code == status))
  }

  /** This attempt gives the event what it was told: success, a drop, a last refusal, or no settlement. */
  predicate Grounds(a: Attempt, last: bool, uuids: seq<string>, n: Notice) {
    && n.position < |uuids|
    && var uuid := uuids[n.position];
       match n.told
       case Succeeded => Settles(a) && uuid in a.answer.results && a.answer.results[uuid] == Accept
       case Rejected(id) => id == uuid && Settles(a) && uuid in a.answer.results && a.answer.results[uuid] == Drop
       case Exhausted(id) => id == uuid && Settles(a) && AskedToRetry(a.answer.results, uuid) && last
       case RequestFailed(status, cause) =>
         Explains(a, status, cause) && (Settles(a) ==> AskedToRetry(a.answer.results, uuid))
  }

  lemma {:induction false} SettledGrounds(a: Attempt, last: bool, uuids: seq<string>, ps: seq<nat>, n: Notice)
    requires InBatch(ps, |uuids|) && Settles(a) && n in Settled(a.answer.results, uuids, ps)
    ensures n.position in ps && Grounds(a, last, uuids, n)
  {
    if n !in NoticeOf(a.answer.results, uuids, ps[0]) {
      SettledGrounds(a, last, uuids, ps[1..], n);
    }
  }

  lemma AttemptGrounds(a: Attempt, last: bool, uuids: seq<string>, pending: seq<nat>, n: Notice)
    requires InBatch(pending, |uuids|) && Ascending(pending) && n in Fired(AfterAttempt(a, last, uuids, pending))
    ensures n.position in pending && Grounds(a, last, uuids, n)
  {
    if Settles(a) {
      KeptMeans(a.answer.results, uuids, pending);
      if n in Settled(a.answer.results, uuids, pending) {
        SettledGrounds(a, last, uuids, pending, n);
      }
    }
  }

  /** Attempt j, which the event was part of, gives it what it was told; uploads are numbered from attempt i. */
  predicate JustifiedAt(
      maxAttempts: nat, i: nat, j: nat, server: Server, uuids: seq<string>, sent: seq<seq<nat>>, n: Notice)
  {
    && i <= j < maxAttempts && Grounds(server(j), j == maxAttempts - 1, uuids, n)
    && (server(j).answer.Unmarshalled? || (j - i < |sent| && n.position in sent[j - i]))
  }

  ghost predicate Justified(
      maxAttempts: nat, i: nat, server: Server, uuids: seq<string>, sent: seq<seq<nat>>, n: Notice)
  {
    exists j: nat :: JustifiedAt(maxAttempts, i, j, server, uuids, sent, n)
  }

  lemma JustifiedLater(
      maxAttempts: nat, i: nat, server: Server, uuids: seq<string>, pending: seq<nat>, sent: seq<seq<nat>>, n: Notice)
    requires Justified(maxAttempts, i + 1, server, uuids, sent, n)
    ensures Justified(maxAttempts, i, server, uuids, [pending] + sent, n)
  {
    var j: nat :| JustifiedAt(maxAttempts, i + 1, j, server, uuids, sent, n);
    assert j - (i + 1) < |sent| ==> ([pending] + sent)[j - i] == sent[j - (i + 1)];
    assert JustifiedAt(maxAttempts, i, j, server, uuids, [pending] + sent, n);
  }

  lemma {:induction false} RunJustifies(
      maxAttempts: nat, i: nat, server: Server, uuids: seq<string>, pending: seq<nat>, n: Notice)
    requires InBatch(pending, |uuids|) && Ascending(pending) && i < maxAttempts
    requires n in Run(maxAttempts, i, server, uuids, pending).notices
    ensures Justified(maxAttempts, i, server, uuids, Run(maxAttempts, i, server, uuids, pending).sent, n)
    decreases maxAttempts - i
  {
    var a, last := server(i), i == maxAttempts - 1;
    AttemptAccounts(a, last, uuids, pending);
    AfterStaysInBatch(a, last, uuids, pending);
    if n in Fired(AfterAttempt(a, last, uuids, pending)) {
      AttemptGrounds(a, last, uuids, pending, n);
      assert JustifiedAt(maxAttempts, i, i, server, uuids, Run(maxAttempts, i, server, uuids, pending).sent, n);
    } else {
      var next := AfterAttempt(a, last, uuids, pending).next;
      NextMeans(a, last, uuids, pending);
      RunJustifies(maxAttempts, i + 1, server, uuids, next, n);
      JustifiedLater(maxAttempts, i, server, uuids, pending, Run(maxAttempts, i + 1, server, uuids, next).sent, n);
    }
  }

  /**
   * What an event is told is true: success only if an answer it was sent to
   * accepted it, rejection only if that answer dropped it, exhaustion only if
   * the answer to the last attempt asked to retry it, and a failed request only
   * after an attempt that did not settle it.
   */
  lemma ToldTruthfully(maxAttempts: nat, server: Server, uuids: seq<string>, n: Notice)
    requires maxAttempts >= 1 && n in Run(maxAttempts, 0, server, uuids, All(|uuids|)).notices
    ensures Justified(maxAttempts, 0, server, uuids, Run(maxAttempts, 0, server, uuids, All(|uuids|)).sent, n)
  {
    RunJustifies(maxAttempts, 0, server, uuids, All(|uuids|), n);
  }

  // ------------------------------------------------------------ the client as it runs

  ghost predicate NoticesIn(ns: seq<Notice>, n: nat) {
    forall i :: 0 <= i < |ns| ==> ns[i].position < n
  }

  function Callbacks(b: Batch, ns: seq<Notice>): (cs: seq<Callback>)
    requires NoticesIn(ns, |b.msgs|)
    ensures |cs| == |ns|
  {
    seq(|ns|, i requires 0 <= i < |ns| => Callback(b.msgs[ns[i].position], ns[i].told))
  }

  /** The uploads: one request id and creation time throughout, the attempts numbered from 1. */
  function Requests(b: Batch, id: string, createdAt: string, sent: seq<seq<nat>>): (rs: seq<Request>)
    requires forall k :: 0 <= k < |sent| ==> InBatch(sent[k], |b.data|)
    ensures |rs| == |sent|
  {
    seq(|sent|, k requires 0 <= k < |sent| => Request(id, createdAt, k + 1, Select(b.data, sent[k])))
  }

  ghost predicate InSettled(b: Batch, results: map<string, EventResult>, ps: seq<nat>)
    requires InBatch(ps, |b.uuids|)
  {
    NoticesIn(Settled(results, b.uuids, ps), |b.msgs|)
  }

  lemma {:induction false} KeptAppends(results: map<string, EventResult>, uuids: seq<string>, ps: seq<nat>, p: nat)
    requires InBatch(ps + [p], |uuids|) && InBatch(ps, |uuids|) && p < |uuids|
    ensures Kept(results, uuids, ps + [p])
         == Kept(results, uuids, ps) + if AskedToRetry(results, uuids[p]) then [p] else []
  {
    if |ps| == 0 {
      assert ps + [p] == [p] && [p][1..] == [];
      assert Kept(results, uuids, []) == [];
    } else {
      var q, rest := ps[0], ps[1..];
      var head := if AskedToRetry(results, uuids[q]) then [q] else [];
      var last := if AskedToRetry(results, uuids[p]) then [p] else [];
      assert (ps + [p])[0] == q && (ps + [p])[1..] == rest + [p];
      KeptAppends(results, uuids, rest, p);
      assert head + (Kept(results, uuids, rest) + last) == (head + Kept(results, uuids, rest)) + last;
    }
  }

  lemma {:induction false} SettledAppends(results: map<string, EventResult>, uuids: seq<string>, ps: seq<nat>, p: nat)
    requires InBatch(ps + [p], |uuids|) && InBatch(ps, |uuids|) && p < |uuids|
    ensures Settled(results, uuids, ps + [p]) == Settled(results, uuids, ps) + NoticeOf(results, uuids, p)
  {
    if |ps| == 0 {
      assert ps + [p] == [p] && [p][1..] == [];
      assert Settled(results, uuids, []) == [];
    } else {
      var head, rest := NoticeOf(results, uuids, ps[0]), ps[1..];
      assert (ps + [p])[0] == ps[0] && (ps + [p])[1..] == rest + [p];
      SettledAppends(results, uuids, rest, p);
      Regroup(head, Settled(results, uuids, rest), NoticeOf(results, uuids, p));
    }
  }

  /** The three slices hold the events at these positions, aligned. */
  ghost predicate Slices(b: Batch, ps: seq<nat>, data: seq<string>, msgs: seq<string>, uuids: seq<string>) {
    && Aligned(b) && InBatch(ps, |b.uuids|)
    && data == Select(b.data, ps) && msgs == Select(b.msgs, ps) && uuids == Select(b.uuids, ps)
  }

  lemma SlicesAppend(b: Batch, ps: seq<nat>, p: nat, data: seq<string>, msgs: seq<string>, uuids: seq<string>)
    requires Slices(b, ps, data, msgs, uuids) && p < |b.uuids|
    ensures Slices(b, ps + [p], data + [b.data[p]], msgs + [b.msgs[p]], uuids + [b.uuids[p]])
  {
  }

  lemma {:induction false} SettledIn(results: map<string, EventResult>, uuids: seq<string>, ps: seq<nat>)
    requires InBatch(ps, |uuids|)
    ensures NoticesIn(Settled(results, uuids, ps), |uuids|)
  {
    if |ps| > 0 {
      SettledIn(results, uuids, ps[1..]);
    }
  }

  lemma AfterIn(a: Attempt, last: bool, uuids: seq<string>, pending: seq<nat>)
    requires InBatch(pending, |uuids|)
    ensures NoticesIn(AfterAttempt(a, last, uuids, pending).notices, |uuids|)
    ensures AfterAttempt(a, last, uuids, pending).Again? ==> InBatch(AfterAttempt(a, last, uuids, pending).next, |uuids|)
  {
    if Settles(a) {
      SettledIn(a.answer.results, uuids, pending);
    }
  }

  ghost predicate TranscriptIn(t: Transcript, n: nat) {
    NoticesIn(t.notices, n) && forall k :: 0 <= k < |t.sent| ==> InBatch(t.sent[k], n)
  }

  lemma {:induction false} RunIn(maxAttempts: nat, i: nat, server: Server, uuids: seq<string>, pending: seq<nat>)
    requires InBatch(pending, |uuids|)
    ensures TranscriptIn(Run(maxAttempts, i, server, uuids, pending), |uuids|)
    decreases maxAttempts - i
  {
    if i < maxAttempts {
      AfterIn(server(i), i == maxAttempts - 1, uuids, pending);
      match AfterAttempt(server(i), i == maxAttempts - 1, uuids, pending)
      case Finish(_) =>
      case Again(_, next) => RunIn(maxAttempts, i + 1, server, uuids, next);
    }
  }

  lemma CallbacksJoin(b: Batch, x: seq<Notice>, y: seq<Notice>)
    requires NoticesIn(x, |b.msgs|) && NoticesIn(y, |b.msgs|)
    ensures NoticesIn(x + y, |b.msgs|) && Callbacks(b, x + y) == Callbacks(b, x) + Callbacks(b, y)
  {
  }

  lemma RequestsAppend(b: Batch, id: string, createdAt: string, sent: seq<seq<nat>>, ps: seq<nat>)
    requires (forall k :: 0 <= k < |sent| ==> InBatch(sent[k], |b.data|)) && InBatch(ps, |b.data|)
    ensures Requests(b, id, createdAt, sent + [ps])
         == Requests(b, id, createdAt, sent) + [Request(id, createdAt, |sent| + 1, Select(b.data, ps))]
  {
  }

  /** What the client holds after an attempt is what the specified attempt leaves. */
  ghost predicate AfterSlices(
      b: Batch, r: After, again: bool, data: seq<string>, msgs: seq<string>, uuids: seq<string>) {
    && Aligned(b) && NoticesIn(r.notices, |b.msgs|) && (again <==> r.Again?)
    && (again ==> Slices(b, r.next, data, msgs, uuids))
  }

  function Then(a: Transcript, b: Transcript): Transcript {
    Transcript(a.sent + b.sent, a.notices + b.notices)
  }

  /** What one attempt adds to the delivery. */
  function Uploaded(a: Attempt, pending: seq<nat>, told: seq<Notice>): Transcript {
    Transcript(if a.answer.Unmarshalled? then [] else [pending], told)
  }

  lemma AttemptContinues(
      maxAttempts: nat, i: nat, server: Server, uuids: seq<string>, pending: seq<nat>, done: Transcript)
    requires InBatch(pending, |uuids|) && i < maxAttempts
    ensures var r := AfterAttempt(server(i), i == maxAttempts - 1, uuids, pending);
            && (r.Again? ==> InBatch(r.next, |uuids|) && !server(i).answer.Unmarshalled?)
            && Then(done, Run(maxAttempts, i, server, uuids, pending))
               == if r.Finish? then Then(done, Uploaded(server(i), pending, r.notices))
                  else Then(Then(done, Uploaded(server(i), pending, r.notices)), Run(maxAttempts, i + 1, server, uuids, r.next))
  {
    AfterIn(server(i), i == maxAttempts - 1, uuids, pending);
    var r := AfterAttempt(server(i), i == maxAttempts - 1, uuids, pending);
    if r.Again? {
      ThenJoins(done, Uploaded(server(i), pending, r.notices), Run(maxAttempts, i + 1, server, uuids, r.next));
    }
  }

  /** The client's two logs are those of the delivery so far. */
  ghost predicate Logged(
      b: Batch, id: string, createdAt: string, done: Transcript,
      requests0: seq<Request>, callbacks0: seq<Callback>, requests: seq<Request>, callbacks: seq<Callback>)
  {
    && Aligned(b) && TranscriptIn(done, |b.uuids|)
    && requests == requests0 + Requests(b, id, createdAt, done.sent)
    && callbacks == callbacks0 + Callbacks(b, done.notices)
  }

  lemma LogsAppend(
      b: Batch, id: string, createdAt: string, done: Transcript, a: Attempt, last: bool, pending: seq<nat>,
      requests0: seq<Request>, callbacks0: seq<Callback>, requests: seq<Request>, callbacks: seq<Callback>)
    requires Logged(b, id, createdAt, done, requests0, callbacks0, requests, callbacks) && InBatch(pending, |b.uuids|)
    requires NoticesIn(AfterAttempt(a, last, b.uuids, pending).notices, |b.uuids|)
    ensures var told := AfterAttempt(a, last, b.uuids, pending).notices;
            var uploaded := if a.answer.Unmarshalled? then [] else [Request(id, createdAt, |done.sent| + 1, Select(b.data, pending))];
            Logged(b, id, createdAt, Then(done, Uploaded(a, pending, told)), requests0, callbacks0,
                   requests + uploaded, callbacks + Callbacks(b, told))
  {
    AttemptLogs(b, id, createdAt, done, a, last, pending);
  }

  lemma ThenJoins(a: Transcript, b: Transcript, c: Transcript)
    ensures Then(a, Then(b, c)) == Then(Then(a, b), c)
  {
    assert a.sent + (b.sent + c.sent) == a.sent + b.sent + c.sent;
    assert a.notices + (b.notices + c.notices) == a.notices + b.notices + c.notices;
  }

  lemma AttemptLogs(
      b: Batch, id: string, createdAt: string, done: Transcript, a: Attempt, last: bool, pending: seq<nat>)
    requires Aligned(b) && InBatch(pending, |b.uuids|) && TranscriptIn(done, |b.uuids|)
    requires NoticesIn(AfterAttempt(a, last, b.uuids, pending).notices, |b.uuids|)
    ensures var added := Uploaded(a, pending, AfterAttempt(a, last, b.uuids, pending).notices);
            var all := Then(done, added);
            && TranscriptIn(all, |b.uuids|)
            && Callbacks(b, all.notices) == Callbacks(b, done.notices) + Callbacks(b, added.notices)
            && Requests(b, id, createdAt, all.sent)
               == Requests(b, id, createdAt, done.sent)
                  + if a.answer.Unmarshalled? then [] else [Request(id, createdAt, |done.sent| + 1, Select(b.data, pending))]
  {
    CallbacksJoin(b, done.notices, AfterAttempt(a, last, b.uuids, pending).notices);
    RequestsAppend(b, id, createdAt, done.sent, pending);
    assert done.sent + [] == done.sent;
  }

  class Client {
    const maxAttempts: nat
    var callbacks: seq<Callback>     // what the application was told, in order
    var requests: seq<Request>       // what was uploaded, in order

    constructor (maxAttempts: nat)
      ensures this.maxAttempts == maxAttempts && callbacks == [] && requests == []
    {
      this.maxAttempts := maxAttempts;
      callbacks, requests := [], [];
    }

    method Notify(msg: string, told: Told)
      modifies this`callbacks
      ensures callbacks == old(callbacks) + [Callback(msg, told)]
    {
      callbacks := callbacks + [Callback(msg, told)];
    }

    /** notifyFailure, for messages at the given positions. */
    method NotifyFailure(b: Batch, msgs: seq<string>, error: Told, ghost ps: seq<nat>)
      requires InBatch(ps, |b.msgs|) && msgs == Select(b.msgs, ps)
      modifies this`callbacks
      ensures NoticesIn(TellAll(ps, error), |b.msgs|)
      ensures callbacks == old(callbacks) + Callbacks(b, TellAll(ps, error))
    {
      var i := 0;
      while i < |msgs|
        invariant i <= |msgs|
        invariant callbacks == old(callbacks) + Callbacks(b, TellAll(ps, error))[..i]
      {
        Notify(msgs[i], error);
        i := i + 1;
      }
    }

    /** One event of a 2xx answer, unless it is to be sent again. */
    method Settle(b: Batch, results: map<string, EventResult>, id: string, msg: string, ghost p: nat)
      requires Aligned(b) && p < |b.uuids| && msg == b.msgs[p] && id == b.uuids[p] && !AskedToRetry(results, id)
      modifies this`callbacks
      ensures NoticesIn(NoticeOf(results, b.uuids, p), |b.msgs|)
      ensures callbacks == old(callbacks) + Callbacks(b, NoticeOf(results, b.uuids, p))
    {
      if id in results {
        match results[id] {
          case Drop => Notify(msg, Rejected(id));
          case Accept => Notify(msg, Succeeded);
        }
      }
    }

    /** The three slices of the events to send again. */
    method PartitionV1Results(
        b: Batch, results: map<string, EventResult>, data: seq<string>, msgs: seq<string>, uuids: seq<string>,
        ghost ps: seq<nat>)
      returns (nextData: seq<string>, nextMsgs: seq<string>, nextUuids: seq<string>)
      requires Slices(b, ps, data, msgs, uuids)
      modifies this`callbacks
      ensures Slices(b, Kept(results, b.uuids, ps), nextData, nextMsgs, nextUuids)
      ensures InSettled(b, results, ps) && callbacks == old(callbacks) + Callbacks(b, Settled(results, b.uuids, ps))
    {
      nextData, nextMsgs, nextUuids := [], [], [];
      var idx := 0;
      while idx < |uuids|
        invariant idx <= |uuids|
        invariant Slices(b, Kept(results, b.uuids, ps[..idx]), nextData, nextMsgs, nextUuids)
        invariant InSettled(b, results, ps[..idx])
        invariant callbacks == old(callbacks) + Callbacks(b, Settled(results, b.uuids, ps[..idx]))
      {
        var id := uuids[idx];
        assert ps[..idx + 1] == ps[..idx] + [ps[idx]];
        ghost var told := Settled(results, b.uuids, ps[..idx]);
        KeptAppends(results, b.uuids, ps[..idx], ps[idx]);
        SettledAppends(results, b.uuids, ps[..idx], ps[idx]);
        if AskedToRetry(results, id) {
          SlicesAppend(b, Kept(results, b.uuids, ps[..idx]), ps[idx], nextData, nextMsgs, nextUuids);
          assert told + [] == told;
          nextData := nextData + [data[idx]];
          nextMsgs := nextMsgs + [msgs[idx]];
          nextUuids := nextUuids + [id];
        } else {
          Settle(b, results, id, msgs[idx], ps[idx]);
          CallbacksJoin(b, told, NoticeOf(results, b.uuids, ps[idx]));
          Regroup(old(callbacks), Callbacks(b, told), Callbacks(b, NoticeOf(results, b.uuids, ps[idx])));
        }
        idx := idx + 1;
      }
      assert ps[..idx] == ps;
    }

    /** The failure of each event that a last answer asked to retry. */
    method NotifyExhausted(b: Batch, msgs: seq<string>, uuids: seq<string>, ghost ps: seq<nat>)
      requires Aligned(b) && InBatch(ps, |b.uuids|) && msgs == Select(b.msgs, ps) && uuids == Select(b.uuids, ps)
      modifies this`callbacks
      ensures NoticesIn(TellExhausted(b.uuids, ps), |b.msgs|)
      ensures callbacks == old(callbacks) + Callbacks(b, TellExhausted(b.uuids, ps))
    {
      var i := 0;
      while i < |uuids|
        invariant i <= |uuids|
        invariant callbacks == old(callbacks) + Callbacks(b, TellExhausted(b.uuids, ps))[..i]
      {
        Notify(msgs[i], Exhausted(uuids[i]));
        i := i + 1;
      }
    }

    /** A 2xx answer: what it settles, and whether the rest is sent again. */
    method SendSettled(
        b: Batch, d: D.Delivery, a: Attempt, last: bool, data: seq<string>, msgs: seq<string>, uuids: seq<string>,
        ghost pending: seq<nat>)
      returns (again: bool, nextData: seq<string>, nextMsgs: seq<string>, nextUuids: seq<string>)
      requires Slices(b, pending, data, msgs, uuids) && Settles(a) && d.Open()
      modifies this`callbacks, d, d.done
      ensures d.Valid() && d.done == old(d.done) && (again ==> d.retrying)
      ensures AfterSlices(b, AfterAttempt(a, last, b.uuids, pending), again, nextData, nextMsgs, nextUuids)
      ensures callbacks == old(callbacks) + Callbacks(b, AfterAttempt(a, last, b.uuids, pending).notices)
    {
      ghost var told, next := Settled(a.answer.results, b.uuids, pending), Kept(a.answer.results, b.uuids, pending);
      nextData, nextMsgs, nextUuids := PartitionV1Results(b, a.answer.results, data, msgs, uuids, pending);
      if |nextUuids| == 0 {
        return false, nextData, nextMsgs, nextUuids;
      }
      if last {
        NotifyExhausted(b, nextMsgs, nextUuids, next);
        CallbacksJoin(b, told, TellExhausted(b.uuids, next));
        Regroup(old(callbacks), Callbacks(b, told), Callbacks(b, TellExhausted(b.uuids, next)));
        return false, nextData, nextMsgs, nextUuids;
      }
      D.Client.DeferDeliveryRetry(d);
      if !a.waited {
        NotifyFailure(b, nextMsgs, RequestFailed(0, ShutdownInBackoff), next);
        CallbacksJoin(b, told, TellAll(next, Failure(a)));
        Regroup(old(callbacks), Callbacks(b, told), Callbacks(b, TellAll(next, Failure(a))));
        return false, nextData, nextMsgs, nextUuids;
      }
      return true, nextData, nextMsgs, nextUuids;
    }

    /** An attempt that settles nothing: over, or everything again after the wait. */
    method SendUnsettled(
        b: Batch, d: D.Delivery, a: Attempt, last: bool, msgs: seq<string>, ghost pending: seq<nat>) returns (again: bool)
      requires Aligned(b) && InBatch(pending, |b.uuids|) && msgs == Select(b.msgs, pending)
      requires !Settles(a) && !a.answer.Unmarshalled? && d.Open()
      modifies this`callbacks, d, d.done
      ensures d.Valid() && d.done == old(d.done) && (again ==> d.retrying)
      ensures var r := AfterAttempt(a, last, b.uuids, pending);
              && (again <==> r.Again?) && (again ==> r.next == pending)
              && NoticesIn(r.notices, |b.msgs|) && callbacks == old(callbacks) + Callbacks(b, r.notices)
    {
      assert [] + TellAll(pending, Failure(a)) == TellAll(pending, Failure(a));
      var over, error := true, RequestFailed(0, NoCause);
      match a.answer {
        case Response(code, _) =>
          error := RequestFailed(code, NoCause);
          over := !Retryable(code) || last;
        case NoResponse(status) =>
          error := RequestFailed(status.GetOr(0), ExchangeError);
          if TerminalStatus(status) {
            error := RequestFailed(status.value, NoCause);
          } else {
            over := (status.Some? && Success(status.value)) || a.shutdown || last;
          }
      }
      if !over {
        D.Client.DeferDeliveryRetry(d);
      }
      if over || !a.waited {
        NotifyFailure(b, msgs, error, pending);
        return false;
      }
      return true;
    }

    /** One attempt at the pending events; its channel is open until the wait for the next. */
    method SendAttempt(
        b: Batch, d: D.Delivery, a: Attempt, last: bool, request: Request, msgs: seq<string>, uuids: seq<string>,
        ghost pending: seq<nat>)
      returns (again: bool, nextData: seq<string>, nextMsgs: seq<string>, nextUuids: seq<string>)
      requires Slices(b, pending, request.data, msgs, uuids) && d.Open()
      modifies this, d, d.done
      ensures d.Valid() && d.done == old(d.done) && (again ==> d.retrying)
      ensures AfterSlices(b, AfterAttempt(a, last, b.uuids, pending), again, nextData, nextMsgs, nextUuids)
      ensures callbacks == old(callbacks) + Callbacks(b, AfterAttempt(a, last, b.uuids, pending).notices)
      ensures requests == old(requests) + if a.answer.Unmarshalled? then [] else [request]
    {
      nextData, nextMsgs, nextUuids := request.data, msgs, uuids;
      if a.answer.Unmarshalled? {
        NotifyFailure(b, msgs, RequestFailed(0, MarshalError), pending);
        again := false;
      } else {
        requests := requests + [request];
        if Settles(a) {
          again, nextData, nextMsgs, nextUuids := SendSettled(b, d, a, last, request.data, msgs, uuids, pending);
        } else {
          again := SendUnsettled(b, d, a, last, msgs, pending);
        }
      }
    }

    /**
     * sendV1: the callbacks and the uploads are those of the specified delivery,
     * whatever the server does. The delivery's channel is closed just while the
     * batch waits for another attempt, and each attempt after a wait has its own.
     */
    method SendV1(b: Batch, d: D.Delivery, server: Server, id: string, createdAt: string)
      requires Aligned(b) && d.Open()
      modifies this, d, d.done
      ensures d.Valid() && (d.done == old(d.done) || fresh(d.done))
      ensures var t := Run(maxAttempts, 0, server, b.uuids, All(|b.uuids|));
              && TranscriptIn(t, |b.uuids|)
              && requests == old(requests) + Requests(b, id, createdAt, t.sent)
              && callbacks == old(callbacks) + Callbacks(b, t.notices)
    {
      ghost var pending := All(|b.uuids|);
      ghost var whole := Run(maxAttempts, 0, server, b.uuids, pending);
      ghost var done := Transcript([], []);
      assert Then(done, whole) == whole;
      var pendingData, pendingMsgs, pendingUuids := b.data, b.msgs, b.uuids;
      RunIn(maxAttempts, 0, server, b.uuids, pending);
      var i := 0;
      while i < maxAttempts
        invariant i <= maxAttempts && |done.sent| == i
        invariant d.Valid() && (d.done == old(d.done) || fresh(d.done)) && (i > 0 ==> d.retrying)
        invariant Slices(b, pending, pendingData, pendingMsgs, pendingUuids)
        invariant whole == Then(done, Run(maxAttempts, i, server, b.uuids, pending))
        invariant Logged(b, id, createdAt, done, old(requests), old(callbacks), requests, callbacks)
      {
        var last := i == maxAttempts - 1;
        ghost var r := AfterAttempt(server(i), last, b.uuids, pending);
        AfterIn(server(i), last, b.uuids, pending);
        LogsAppend(b, id, createdAt, done, server(i), last, pending, old(requests), old(callbacks), requests, callbacks);
        AttemptContinues(maxAttempts, i, server, b.uuids, pending, done);
        var again: bool;
        D.Client.BeginDeliveryAttempt(d);
        again, pendingData, pendingMsgs, pendingUuids :=
          SendAttempt(b, d, server(i), last, Request(id, createdAt, i + 1, pendingData), pendingMsgs, pendingUuids, pending);
        done := Then(done, Uploaded(server(i), pending, r.notices));
        if !again {
          return;
        }
        pending := r.next;
        i := i + 1;
      }
      assert Then(done, Transcript([], [])) == done;
    }
  }
}
