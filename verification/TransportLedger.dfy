// What the callbacks made for batches amount to, in every reachable transport.

module TransportLedger {

  import opened Batching
  import opened Transport
  import opened TransportInvariant

  function BatchesOf(ds: seq<Delivery>): seq<seq<Msg>> {
    seq(|ds|, i requires 0 <= i < |ds| => ds[i].batch)
  }

  /** Where the messages of a batch can be. */
  datatype Part = Successes | Failures | Omissions | Owings

  function PartOf(s: Slip, p: Part): multiset<Msg> {
    match p
    case Successes => s.ok
    case Failures => s.bad
    case Omissions => s.omitted
    case Owings => multiset(s.owed) + multiset(s.kept)
  }

  /** The messages of one part, over all batches. */
  function Sum(ds: seq<Delivery>, p: Part): multiset<Msg> {
    if |ds| == 0 then multiset{} else Sum(ds[..|ds| - 1], p) + PartOf(ds[|ds| - 1].slip, p)
  }

  /** The callbacks made are those that the deliveries record. */
  ghost predicate Ledger(t: Transport) {
    && t.succeeded == Sum(t.deliveries, Successes)
    && t.failed == Sum(t.deliveries, Failures)
  }

  /** What the service made of a batch settles what its messages are told. */
  predicate Outcome(v1: bool, x: Delivery) {
    && (x.phase.Notifying? ==> x.phase.ok == x.fate.AcceptedWhole?)
    && (x.phase.Settling? ==> x.fate.Answered?)
    && (x.fate.Answered? ==> v1)
    && (!x.fate.Answered? ==> x.slip.omitted == multiset{})
    && (x.fate.Unsettled? ==> x.slip.ok == multiset{})
    && (x.fate.Unsettled? && InLive(x.phase) && !x.phase.Notifying? && !x.phase.Completing? ==> x.slip.bad == multiset{})
    && (x.fate.AcceptedWhole? ==>
          && !v1 && x.slip.bad == multiset{}
          && (x.phase.Notifying? || x.phase.Completing? || x.phase.Releasing? || x.phase.Gone?))
  }

  ghost predicate Outcomes(v1: bool, t: Transport) {
    forall d :: 0 <= d < |t.deliveries| ==> Outcome(v1, t.deliveries[d])
  }

  lemma SumOfNew(ds: seq<Delivery>, x: Delivery, p: Part)
    requires PartOf(x.slip, p) == multiset{}
    ensures Sum(ds + [x], p) == Sum(ds, p)
  {
    assert (ds + [x])[..|ds|] == ds;
  }

  lemma Exchange<T>(a: multiset<T>, b: multiset<T>, removed: multiset<T>, added: multiset<T>, rest: multiset<T>)
    requires a + removed == b + added
    ensures (a + rest) + removed == (b + rest) + added
  {
    forall x ensures ((a + rest) + removed)[x] == ((b + rest) + added)[x] {
      assert (a + removed)[x] == (b + added)[x];
    }
  }

  lemma {:induction false} SumLast(ds: seq<Delivery>, p: Part)
    requires |ds| > 0
    ensures Sum(ds, p) == Sum(ds[..|ds| - 1], p) + PartOf(ds[|ds| - 1].slip, p)
    ensures Sum(ds, p) == PartOf(ds[|ds| - 1].slip, p) + Sum(ds[..|ds| - 1], p)
  {
  }

  lemma SumUpdateLast(ds: seq<Delivery>, x: Delivery, p: Part)
    requires |ds| > 0
    ensures var n := |ds| - 1;
            Sum(ds[n := x], p) + PartOf(ds[n].slip, p) == Sum(ds, p) + PartOf(x.slip, p)
  {
    var n := |ds| - 1;
    SumLast(ds, p);
    SumLast(ds[n := x], p);
    assert ds[n := x][..n] == ds[..n];
    Exchange(PartOf(x.slip, p), PartOf(ds[n].slip, p), PartOf(ds[n].slip, p), PartOf(x.slip, p), Sum(ds[..n], p));
  }

  lemma SumUpdateStep(ds: seq<Delivery>, d: nat, x: Delivery, p: Part)
    requires d < |ds| - 1
    requires var rest := ds[..|ds| - 1];
             Sum(rest[d := x], p) + PartOf(rest[d].slip, p) == Sum(rest, p) + PartOf(x.slip, p)
    ensures Sum(ds[d := x], p) + PartOf(ds[d].slip, p) == Sum(ds, p) + PartOf(x.slip, p)
  {
    var n := |ds| - 1;
    SumLast(ds, p);
    SumLast(ds[d := x], p);
    assert ds[d := x][..n] == ds[..n][d := x];
    Exchange(Sum(ds[..n][d := x], p), Sum(ds[..n], p), PartOf(ds[d].slip, p), PartOf(x.slip, p), PartOf(ds[n].slip, p));
  }

  lemma {:induction false} SumUpdate(ds: seq<Delivery>, d: nat, x: Delivery, p: Part)
    requires d < |ds|
    ensures Sum(ds[d := x], p) + PartOf(ds[d].slip, p) == Sum(ds, p) + PartOf(x.slip, p)
  {
    if d == |ds| - 1 {
      SumUpdateLast(ds, x, p);
    } else {
      SumUpdate(ds[..|ds| - 1], d, x, p);
      SumUpdateStep(ds, d, x, p);
    }
  }

  lemma Shift<T>(after: multiset<T>, before: multiset<T>, x: multiset<T>, y: multiset<T>, one: multiset<T>)
    requires after + x == before + y && y == x + one
    ensures after == before + one
  {
    forall e ensures after[e] == (before + one)[e] {
      assert (after + x)[e] == (before + y)[e];
    }
  }

  /** One part of one slip grows, or stays as it is. */
  lemma SumGrows(ds: seq<Delivery>, d: nat, x: Delivery, p: Part, one: multiset<Msg>)
    requires d < |ds| && PartOf(x.slip, p) == PartOf(ds[d].slip, p) + one
    ensures Sum(ds[d := x], p) == Sum(ds, p) + one
  {
    SumUpdate(ds, d, x, p);
    Shift(Sum(ds[d := x], p), Sum(ds, p), PartOf(ds[d].slip, p), PartOf(x.slip, p), one);
  }

  lemma Cancel<T>(a: multiset<T>, b: multiset<T>, c: multiset<T>)
    requires a + c == b + c
    ensures a == b
  {
    forall x ensures a[x] == b[x] {
      assert (a + c)[x] == (b + c)[x];
    }
  }

  lemma SumSame(ds: seq<Delivery>, d: nat, x: Delivery, p: Part)
    requires d < |ds| && PartOf(x.slip, p) == PartOf(ds[d].slip, p)
    ensures Sum(ds[d := x], p) == Sum(ds, p)
  {
    SumUpdate(ds, d, x, p);
    Cancel(Sum(ds[d := x], p), Sum(ds, p), PartOf(x.slip, p));
  }

  function When(b: bool, m: Msg): multiset<Msg> {
    if b then multiset{m} else multiset{}
  }

  lemma MarkIs(t: Transport, d: nat, k: Mark)
    requires d < |t.deliveries| && |t.deliveries[d].slip.owed| > 0
    ensures var x := t.deliveries[d];
            var u, m := MarkNext(t, d, k), x.slip.owed[0];
            && u.deliveries == t.deliveries[d := x.(slip := Marked(x.slip, k))]
            && u.succeeded == t.succeeded + When(k.Succeed?, m)
            && u.failed == t.failed + When(k.Fail?, m)
  {
  }

  lemma MarkCounts(t: Transport, d: nat, k: Mark)
    requires Ledger(t) && d < |t.deliveries| && |t.deliveries[d].slip.owed| > 0
    ensures Ledger(MarkNext(t, d, k))
  {
    var x := t.deliveries[d];
    var y, m := x.(slip := Marked(x.slip, k)), x.slip.owed[0];
    MarkIs(t, d, k);
    SumGrows(t.deliveries, d, y, Successes, When(k.Succeed?, m));
    SumGrows(t.deliveries, d, y, Failures, When(k.Fail?, m));
  }

  /** A mark that fits what the service made of the batch. */
  predicate Fits(x: Delivery, k: Mark) {
    || x.phase.Settling?
    || (x.phase.Notifying? && k == (if x.phase.ok then Succeed else Fail))
    || (x.phase.Dropping? && k.Fail?)
  }

  lemma MarkOutcome(v1: bool, x: Delivery, k: Mark)
    requires Outcome(v1, x) && |x.slip.owed| > 0 && Fits(x, k)
    ensures Outcome(v1, x.(slip := Marked(x.slip, k)))
  {
  }

  lemma MarkLedger(v1: bool, t: Transport, d: nat, k: Mark)
    requires Ledger(t) && Outcomes(v1, t)
    requires d < |t.deliveries| && |t.deliveries[d].slip.owed| > 0 && Fits(t.deliveries[d], k)
    ensures Ledger(MarkNext(t, d, k)) && Outcomes(v1, MarkNext(t, d, k))
  {
    MarkCounts(t, d, k);
    MarkIs(t, d, k);
    MarkOutcome(v1, t.deliveries[d], k);
    OutcomesUpdate(v1, t, MarkNext(t, d, k), d);
  }

  /** The callbacks a slip records, and its omissions, are those another records. */
  predicate SameTold(s: Slip, r: Slip) {
    s.ok == r.ok && s.bad == r.bad && s.omitted == r.omitted
  }

  /** A delivery changes, but not what it has told. */
  lemma QuietLedger(v1: bool, t: Transport, u: Transport, d: nat)
    requires Ledger(t) && Outcomes(v1, t) && d < |t.deliveries|
    requires |u.deliveries| == |t.deliveries| && u.deliveries == t.deliveries[d := u.deliveries[d]]
    requires u.succeeded == t.succeeded && u.failed == t.failed
    requires SameTold(u.deliveries[d].slip, t.deliveries[d].slip) && Outcome(v1, u.deliveries[d])
    ensures Ledger(u) && Outcomes(v1, u)
  {
    SumSame(t.deliveries, d, u.deliveries[d], Successes);
    SumSame(t.deliveries, d, u.deliveries[d], Failures);
    OutcomesUpdate(v1, t, u, d);
  }

  lemma OutcomesUpdate(v1: bool, t: Transport, u: Transport, d: nat)
    requires Outcomes(v1, t) && d < |t.deliveries| == |u.deliveries|
    requires u.deliveries == t.deliveries[d := u.deliveries[d]] && Outcome(v1, u.deliveries[d])
    ensures Outcomes(v1, u)
  {
  }

  lemma WorkerLedger(e: Env, t: Transport, d: nat, w: WorkerStep)
    requires Inv(t) && Ledger(t) && Outcomes(e.v1, t) && WorkerEnabled(e, t, d, w)
    ensures Ledger(WorkerDo(e, t, d, w)) && Outcomes(e.v1, WorkerDo(e, t, d, w))
  {
    var x := t.deliveries[d];
    assert ToldFits(x) && Outcome(e.v1, x);
    if w.Settle? {
      MarkLedger(e.v1, t, d, w.mark);
    } else if w.Notify? && |x.slip.owed| > 0 {
      MarkLedger(e.v1, t, d, if x.phase.ok then Succeed else Fail);
    } else {
      WorkerShape(e, t, d, w);
      WorkerIsQuiet(e, t, d, w);
      QuietLedger(e.v1, t, WorkerDo(e, t, d, w), d);
    }
  }

  /** A worker changes its own delivery only. */
  lemma WorkerShape(e: Env, t: Transport, d: nat, w: WorkerStep)
    requires WorkerEnabled(e, t, d, w)
    ensures var u := WorkerDo(e, t, d, w);
            && |u.deliveries| == |t.deliveries| && u.deliveries == t.deliveries[d := u.deliveries[d]]
            && u.deliveries[d].batch == t.deliveries[d].batch
  {
    var x := t.deliveries[d];
    if w.Settle? || w.Notify? {
      if |x.slip.owed| > 0 {
        MarkIs(t, d, if w.Settle? then w.mark else if x.phase.ok then Succeed else Fail);
      }
    } else if w.Begin? {
      BeginIs(t, d, e.clock, NextPhase(e, x, w));
    } else if w.Complete? {
      CompleteIs(t, d, NextPhase(e, x, w));
    }
  }

  /** Unless it marks a message, a worker changes no count of callbacks. */
  lemma WorkerIsQuiet(e: Env, t: Transport, d: nat, w: WorkerStep)
    requires WorkerEnabled(e, t, d, w) && ToldFits(t.deliveries[d]) && Outcome(e.v1, t.deliveries[d])
    requires !w.Settle? && !(w.Notify? && |t.deliveries[d].slip.owed| > 0)
    ensures var u := WorkerDo(e, t, d, w);
            && u.succeeded == t.succeeded && u.failed == t.failed
            && SameTold(u.deliveries[d].slip, t.deliveries[d].slip) && Outcome(e.v1, u.deliveries[d])
  {
    if w.Begin? || w.Defer? || w.Complete? || w.Release? {
      ChannelIsQuiet(e, t, d, w);
    } else if w.Upload? {
      var x := t.deliveries[d];
      assert Outcome(e.v1, x.(phase := NextPhase(e, x, w), fate := FateAfter(x, w.answer)));
    }
  }

  lemma ChannelIsQuiet(e: Env, t: Transport, d: nat, w: WorkerStep)
    requires WorkerEnabled(e, t, d, w) && Outcome(e.v1, t.deliveries[d])
    requires w.Begin? || w.Defer? || w.Complete? || w.Release?
    ensures var u := WorkerDo(e, t, d, w);
            && u.succeeded == t.succeeded && u.failed == t.failed
            && SameTold(u.deliveries[d].slip, t.deliveries[d].slip) && Outcome(e.v1, u.deliveries[d])
  {
  }

  lemma RegisterLedger(v1: bool, t: Transport, batch: seq<Msg>)
    requires Ledger(t) && Outcomes(v1, t)
    ensures Ledger(Registering(t, batch)) && Outcomes(v1, Registering(t, batch))
  {
    var x := Delivery(batch, Registered, 0, false, Fresh(batch), Unsettled, -1);
    SumOfNew(t.deliveries, x, Successes);
    SumOfNew(t.deliveries, x, Failures);
    RegisterIs(t, batch, x);
    OutcomesJoin(v1, t, Registering(t, batch), x);
  }

  lemma OutcomesJoin(v1: bool, t: Transport, u: Transport, x: Delivery)
    requires Outcomes(v1, t) && Outcome(v1, x) && u.deliveries == t.deliveries + [x]
    ensures Outcomes(v1, u)
  {
  }

  lemma RegisterIs(t: Transport, batch: seq<Msg>, x: Delivery)
    requires x == Delivery(batch, Registered, 0, false, Fresh(batch), Unsettled, -1)
    ensures var u := Registering(t, batch);
            u.deliveries == t.deliveries + [x] && u.succeeded == t.succeeded && u.failed == t.failed
  {
  }

  lemma SubmitLedger(e: Env, t: Transport, step: Step)
    requires Inv(t) && Ledger(t) && Outcomes(e.v1, t) && Enabled(e, t, step)
    requires step.Count? || step.Send? || step.Refuse? || step.Uncount? || step.DropDelivery? || step.DropDone?
    ensures Ledger(Do(e, t, step)) && Outcomes(e.v1, Do(e, t, step))
  {
    assert Outcome(e.v1, t.deliveries[Last(t)]) && ToldFits(t.deliveries[Last(t)]);
    SubmitIsQuiet(e, t, step);
    QuietLedger(e.v1, t, Do(e, t, step), Last(t));
  }

  lemma SubmitIsQuiet(e: Env, t: Transport, step: Step)
    requires step.Count? || step.Send? || step.Refuse? || step.Uncount? || step.DropDelivery? || step.DropDone?
    requires Enabled(e, t, step) && |t.deliveries| > 0
    requires ToldFits(t.deliveries[Last(t)]) && Outcome(e.v1, t.deliveries[Last(t)])
    ensures var u, d := Do(e, t, step), Last(t);
            && |u.deliveries| == |t.deliveries| && u.deliveries == t.deliveries[d := u.deliveries[d]]
            && u.succeeded == t.succeeded && u.failed == t.failed
            && SameTold(u.deliveries[d].slip, t.deliveries[d].slip) && Outcome(e.v1, u.deliveries[d])
  {
  }

  lemma StepLedger(e: Env, t: Transport, step: Step)
    requires Inv(t) && Ledger(t) && Outcomes(e.v1, t) && Enabled(e, t, step)
    ensures Ledger(Do(e, t, step)) && Outcomes(e.v1, Do(e, t, step))
  {
    match step
    case Register(batch) => RegisterLedger(e.v1, t, batch);
    case Worker(d, w) => WorkerLedger(e, t, d, w);
    case DropNotify =>
      assert Outcome(e.v1, t.deliveries[Last(t)]);
      MarkLedger(e.v1, t, Last(t), Fail);
    case Spawn =>
    case Orphan =>
    case CloseBatches =>
    case TakeBatch => QuietLedger(e.v1, t, Do(e, t, step), t.batches[0]);
    case _ => SubmitLedger(e, t, step);
  }

  // ------------------------------------------------------------ no message is lost

  /** All messages of a slip, whatever became of them. */
  function Total(s: Slip): multiset<Msg> {
    s.ok + s.bad + s.omitted + (multiset(s.owed) + multiset(s.kept))
  }

  /** The slip holds exactly the messages of the batch. */
  predicate Accounts(x: Delivery) {
    Total(x.slip) == multiset(x.batch)
  }

  ghost predicate Accounted(t: Transport) {
    forall d :: 0 <= d < |t.deliveries| ==> Accounts(t.deliveries[d])
  }

  lemma MarkAccounts(x: Delivery, k: Mark)
    requires Accounts(x) && |x.slip.owed| > 0
    ensures Accounts(x.(slip := Marked(x.slip, k)))
  {
    assert x.slip.owed == [x.slip.owed[0]] + x.slip.owed[1..];
  }

  lemma ReopenAccounts(x: Delivery, p: Phase)
    requires Accounts(x) && x.slip.owed == []
    ensures Accounts(x.(phase := p, slip := Reopened(x.slip)))
  {
  }

  lemma SameAccounts(x: Delivery, y: Delivery)
    requires Accounts(x) && y.slip == x.slip && y.batch == x.batch
    ensures Accounts(y)
  {
  }

  lemma WorkerAccounts(e: Env, t: Transport, d: nat, w: WorkerStep)
    requires Accounted(t) && WorkerEnabled(e, t, d, w)
    ensures Accounted(WorkerDo(e, t, d, w))
  {
    var x := t.deliveries[d];
    assert Accounts(x);
    WorkerShape(e, t, d, w);
    WorkerSlip(e, t, d, w);
    var y := WorkerDo(e, t, d, w).deliveries[d];
    if w.Settle? {
      MarkAccounts(x, w.mark);
    } else if w.Notify? && |x.slip.owed| > 0 {
      MarkAccounts(x, if x.phase.ok then Succeed else Fail);
    } else if w.Conclude? {
      ReopenAccounts(x, y.phase);
    } else {
      SameAccounts(x, y);
    }
  }

  lemma WorkerSlip(e: Env, t: Transport, d: nat, w: WorkerStep)
    requires WorkerEnabled(e, t, d, w)
    ensures var x, y := t.deliveries[d], WorkerDo(e, t, d, w).deliveries[d];
            if w.Settle? then y == x.(slip := Marked(x.slip, w.mark))
            else if w.Notify? && |x.slip.owed| > 0
            then y == x.(slip := Marked(x.slip, if x.phase.ok then Succeed else Fail))
            else if w.Conclude? then y == x.(phase := y.phase, slip := Reopened(x.slip))
            else y.slip == x.slip && y.batch == x.batch
  {
  }

  lemma StepAccounts(e: Env, t: Transport, step: Step)
    requires Accounted(t) && Enabled(e, t, step)
    ensures Accounted(Do(e, t, step))
  {
    match step
    case Register(batch) => assert Accounts(Delivery(batch, Registered, 0, false, Fresh(batch), Unsettled, -1));
    case Worker(d, w) => WorkerAccounts(e, t, d, w);
    case DropNotify => MarkAccounts(t.deliveries[Last(t)], Fail);
    case _ => SubmitterAccounts(e, t, step);
  }

  lemma SubmitterAccounts(e: Env, t: Transport, step: Step)
    requires Accounted(t) && Enabled(e, t, step) && !step.Register? && !step.Worker? && !step.DropNotify?
    ensures Accounted(Do(e, t, step))
  {
    var u := Do(e, t, step);
    forall d | 0 <= d < |u.deliveries| ensures Accounts(u.deliveries[d]) {
      SubmitterSlips(e, t, step, d);
      SameAccounts(t.deliveries[d], u.deliveries[d]);
    }
  }

  lemma SubmitterSlips(e: Env, t: Transport, step: Step, d: nat)
    requires Enabled(e, t, step) && !step.Register? && !step.Worker? && !step.DropNotify?
    requires d < |Do(e, t, step).deliveries|
    ensures d < |t.deliveries|
    ensures Do(e, t, step).deliveries[d].slip == t.deliveries[d].slip
    ensures Do(e, t, step).deliveries[d].batch == t.deliveries[d].batch
  {
    if step.DropDelivery? {
      CompleteIs(t, Last(t), Dropping);
    }
  }

  lemma WorkerBatches(e: Env, t: Transport, d: nat, w: WorkerStep)
    requires WorkerEnabled(e, t, d, w)
    ensures BatchesOf(WorkerDo(e, t, d, w).deliveries) == BatchesOf(t.deliveries)
  {
    WorkerShape(e, t, d, w);
    SameBatches(t.deliveries, d, WorkerDo(e, t, d, w).deliveries[d]);
  }

  lemma SameBatches(ds: seq<Delivery>, d: nat, x: Delivery)
    requires d < |ds| && x.batch == ds[d].batch
    ensures BatchesOf(ds[d := x]) == BatchesOf(ds)
  {
  }

  lemma RegisterBatches(ds: seq<Delivery>, x: Delivery)
    ensures BatchesOf(ds + [x]) == BatchesOf(ds) + [x.batch]
  {
  }

  /** A step that registers nothing and is no worker's touches at most one delivery, and not its batch. */
  lemma SubmitterBatches(e: Env, t: Transport, step: Step)
    requires Enabled(e, t, step) && !step.Register? && !step.Worker?
    ensures BatchesOf(Do(e, t, step).deliveries) == BatchesOf(t.deliveries)
  {
    var u := Do(e, t, step);
    if step.DropNotify? {
      MarkIs(t, Last(t), Fail);
      SameBatches(t.deliveries, Last(t), u.deliveries[Last(t)]);
    } else if step.TakeBatch? {
      PhaseBatches(t, u, t.batches[0]);
    } else if step.Count? || step.Send? || step.Refuse? || step.Uncount? || step.DropDelivery? || step.DropDone? {
      PhaseBatches(t, u, Last(t));
    }
  }

  lemma PhaseBatches(t: Transport, u: Transport, d: nat)
    requires d < |t.deliveries| == |u.deliveries|
    requires u.deliveries == t.deliveries[d := t.deliveries[d].(phase := u.deliveries[d].phase)]
    ensures BatchesOf(u.deliveries) == BatchesOf(t.deliveries)
  {
  }

  /** Only Register adds a batch, and no step changes one. */
  lemma StepBatches(e: Env, t: Transport, step: Step)
    requires Enabled(e, t, step)
    ensures BatchesOf(Do(e, t, step).deliveries) ==
            if step.Register? then BatchesOf(t.deliveries) + [step.batch] else BatchesOf(t.deliveries)
  {
    match step
    case Register(batch) =>
      RegisterBatches(t.deliveries, Delivery(batch, Registered, 0, false, Fresh(batch), Unsettled, -1));
    case Worker(d, w) => WorkerBatches(e, t, d, w);
    case _ => SubmitterBatches(e, t, step);
  }

  /** The callbacks still to make. */
  function Untold(ds: seq<Delivery>): multiset<Msg> {
    Sum(ds, Owings)
  }

  /** The messages that a capture-v1 answer left out, which are never told. */
  function Omitted(ds: seq<Delivery>): multiset<Msg> {
    Sum(ds, Omissions)
  }

  lemma Combine<T>(
      a: multiset<T>, b: multiset<T>, c: multiset<T>, d: multiset<T>, p: multiset<T>, q: multiset<T>, r: multiset<T>,
      s: multiset<T>, f: multiset<T>, g: multiset<T>)
    requires a + b + c + d == f && p + q + r + s == g
    ensures (a + p) + (b + q) + (c + r) + (d + s) == f + g
  {
    forall x ensures ((a + p) + (b + q) + (c + r) + (d + s))[x] == (f + g)[x] {
      assert (a + b + c + d)[x] == f[x] && (p + q + r + s)[x] == g[x];
    }
  }

  lemma FlattenLast(ds: seq<Delivery>)
    requires |ds| > 0
    ensures multiset(Flatten(BatchesOf(ds)))
         == multiset(Flatten(BatchesOf(ds[..|ds| - 1]))) + multiset(ds[|ds| - 1].batch)
  {
    assert BatchesOf(ds)[..|ds| - 1] == BatchesOf(ds[..|ds| - 1]);
  }

  lemma SumsLast(ds: seq<Delivery>)
    requires |ds| > 0
    ensures var n, s := |ds| - 1, ds[|ds| - 1].slip;
            && Sum(ds, Successes) == Sum(ds[..n], Successes) + s.ok
            && Sum(ds, Failures) == Sum(ds[..n], Failures) + s.bad
            && Omitted(ds) == Omitted(ds[..n]) + s.omitted
            && Untold(ds) == Untold(ds[..n]) + PartOf(s, Owings)
  {
  }

  /** Every message of every batch is told once, left out by an answer, or still to be told once. */
  lemma {:induction false} ToldConserved(ds: seq<Delivery>)
    requires forall d :: 0 <= d < |ds| ==> Accounts(ds[d])
    ensures Sum(ds, Successes) + Sum(ds, Failures) + Omitted(ds) + Untold(ds) == multiset(Flatten(BatchesOf(ds)))
  {
    if |ds| > 0 {
      var n := |ds| - 1;
      var s := ds[n].slip;
      ToldConserved(ds[..n]);
      FlattenLast(ds);
      SumsLast(ds);
      assert Accounts(ds[n]);
      Combine(Sum(ds[..n], Successes), Sum(ds[..n], Failures), Omitted(ds[..n]), Untold(ds[..n]),
              s.ok, s.bad, s.omitted, PartOf(s, Owings),
              multiset(Flatten(BatchesOf(ds[..n]))), multiset(ds[n].batch));
    }
  }

  lemma {:induction false} NoneIn(ds: seq<Delivery>, p: Part)
    requires forall d :: 0 <= d < |ds| ==> PartOf(ds[d].slip, p) == multiset{}
    ensures Sum(ds, p) == multiset{}
  {
    if |ds| > 0 {
      NoneIn(ds[..|ds| - 1], p);
    }
  }

  /** In legacy mode nothing is left out. */
  lemma NoneOmitted(t: Transport)
    requires Outcomes(false, t)
    ensures Omitted(t.deliveries) == multiset{}
  {
    forall d | 0 <= d < |t.deliveries| ensures PartOf(t.deliveries[d].slip, Omissions) == multiset{} {
      assert Outcome(false, t.deliveries[d]);
    }
    NoneIn(t.deliveries, Omissions);
  }

  lemma {:induction false} NothingInFlight(ds: seq<Delivery>, d: nat)
    requires InFlightOf(ds) == 0 && d < |ds|
    ensures !CountsInFlight(ds[d].phase)
  {
    if d < |ds| - 1 {
      NothingInFlight(ds[..|ds| - 1], d);
    }
  }

  lemma QuietIsGone(t: Transport, d: nat)
    requires Holders(t) && t.inFlight <= 0 && t.submitter.Idle? && d < |t.deliveries|
    ensures t.deliveries[d].phase.Gone? && PartOf(t.deliveries[d].slip, Owings) == multiset{}
  {
    NothingInFlight(t.deliveries, d);
    assert ToldFits(t.deliveries[d]);
  }

  /** With the counter at zero and no batch being submitted, no delivery is live and every callback was made. */
  lemma Quiescence(t: Transport)
    requires Inv(t) && Ledger(t) && Accounted(t) && t.inFlight <= 0 && t.submitter.Idle?
    ensures t.live == {} && t.batches == [] && t.waiting == 0
    ensures forall d :: 0 <= d < |t.deliveries| ==> t.deliveries[d].phase.Gone?
    ensures t.succeeded + t.failed + Omitted(t.deliveries) == multiset(Flatten(BatchesOf(t.deliveries)))
  {
    forall d | 0 <= d < |t.deliveries|
      ensures t.deliveries[d].phase.Gone? && PartOf(t.deliveries[d].slip, Owings) == multiset{}
    {
      QuietIsGone(t, d);
    }
    ToldConserved(t.deliveries);
    NoneIn(t.deliveries, Owings);
    NothingQueued(t);
  }

  lemma NothingQueued(t: Transport)
    requires Holders(t) && t.inFlight <= 0 && t.submitter.Idle?
    ensures t.batches == [] && t.waiting == 0
  {
    if |t.batches| > 0 {
      NothingInFlight(t.deliveries, t.batches[0]);
    }
  }
}
