/**
 Payment Service as a transition system: deliveries of order.created, the runs of HandleOrderCreated
 they start, and callbacks, each split at every database statement, gateway call and publish.
 */
module PaymentFlow {
  import opened Basics
  import opened Sums
  import opened Payments

  /** An order.created event; its id is its position among all events published. */
  datatype OrderCreated = OrderCreated(order: Id, user: Id, amount: int)

  datatype WorkerPhase = AtGateway | SavingFailure | Announcing | SavingAuthority | Finished

  /** HandleOrderCreated after its transaction committed; it works on its own copy of the payment. */
  datatype Worker = Worker(local: Payment, phase: WorkerPhase,
                           requests: nat,      // gateway requests made
                           announced: nat)     // payment.failed published

  datatype VerifierPhase = Deciding | StoringFailure | StoringSuccess | TellingFailure | TellingSuccess | Done

  /**
   A VerifyPayment call that found its row and passed the idempotency check.  `decided` is history: the outcome
   it is about to announce, has announced or failed to announce, once it is past its Update.
   */
  datatype Verifier = Verifier(payment: nat, local: Payment, phase: VerifierPhase, decided: Option<bool>)

  datatype Source = ByHandler | ByCallback(verifier: nat)

  datatype Published = Published(outcome: Outcome, source: Source)

  datatype State = State(
    events: seq<OrderCreated>,
    inbox: set<nat>,
    payments: Table,
    workers: seq<Worker>,         // worker i created payment i
    verifiers: seq<Verifier>,
    outcomes: seq<Published>)

  datatype Step =
    | Publish(event: OrderCreated)
    | Handle(e: nat, dbOk: bool)                                  // a delivery of order.created
    | AskGateway(worker: nat, reply: Option<(string, string)>)        // authority and redirect, or an error
    | Save(worker: nat, dbOk: bool)                                   // UpdateFromPending
    | Announce(worker: nat, ok: bool)                                 // PublishPaymentFailed
    | Crash(worker: nat)
    | Callback(authority: string, payment: nat)                       // GetByAuthority
    | Decide(verifier: nat, verdict: GatewayReply, statusOK: bool)
    | Store(verifier: nat, dbOk: bool)                                // Update
    | Tell(verifier: nat, ok: bool)
    | Abandon(verifier: nat)

  // ------------------------------------------------------------------ steps

  function PaymentOf(s: State, e: nat): Payment
    requires e < |s.events|
  {
    NewPendingPayment(s.events[e].order, s.events[e].user, s.events[e].amount, e)
  }

  /** The transaction of HandleOrderCreated would insert a new payment for event `e`. */
  predicate Inserts(s: State, e: nat)
    requires e < |s.events|
  {
    s.events[e].order != NIL && e !in s.inbox && Create(s.payments, PaymentOf(s, e)).Ok?
  }

  predicate Enabled(s: State, step: Step) {
    match step
    case Publish(_) => true
    case Handle(e, _) => e < |s.events|
    case AskGateway(w, _) => w < |s.workers| && s.workers[w].phase.AtGateway?
    case Save(w, _) => w < |s.workers| && (s.workers[w].phase.SavingFailure? || s.workers[w].phase.SavingAuthority?)
    case Announce(w, _) => w < |s.workers| && s.workers[w].phase.Announcing?
    case Crash(w) => w < |s.workers|
    case Callback(authority, id) => Finds(s.payments, authority, id)
    case Decide(v, _, _) => v < |s.verifiers| && s.verifiers[v].phase.Deciding?
    case Store(v, _) => v < |s.verifiers| && (s.verifiers[v].phase.StoringFailure? || s.verifiers[v].phase.StoringSuccess?)
    case Tell(v, _) => v < |s.verifiers| && (s.verifiers[v].phase.TellingFailure? || s.verifiers[v].phase.TellingSuccess?)
    case Abandon(v) => v < |s.verifiers|
  }

  function SetWorker(s: State, w: nat, wk: Worker): State
    requires w < |s.workers|
  {
    s.(workers := s.workers[w := wk])
  }

  function SetVerifier(s: State, v: nat, vf: Verifier): State
    requires v < |s.verifiers|
  {
    s.(verifiers := s.verifiers[v := vf])
  }

  function Tellings(s: State, o: Outcome, source: Source, ok: bool): seq<Published> {
    if ok then s.outcomes + [Published(o, source)] else s.outcomes
  }

  function DecideLocal(vf: Verifier, reply: GatewayReply, statusOK: bool): Verifier {
    if statusOK && reply.Verified? then
      match MarkCompleted(vf.local, "zarinpal", reply.gatewayRef)
      case Ok(p) => vf.(local := p, phase := StoringSuccess)
      case Err(_) => vf.(phase := Done)
    else vf.(local := MarkFailed(vf.local, "failed"), phase := StoringFailure)
  }

  function Apply(s: State, step: Step): State
    requires Enabled(s, step)
  {
    match step
    case Publish(event) => s.(events := s.events + [event])
    case Handle(e, dbOk) =>
      // nil order, duplicate, invalid payment, second active payment, or database error: nothing changes
      if dbOk && Inserts(s, e) then
        s.(inbox := s.inbox + {e}, payments := Create(s.payments, PaymentOf(s, e)).value,
           workers := s.workers + [Worker(PaymentOf(s, e), AtGateway, 0, 0)])
      else s
    case AskGateway(w, reply) =>
      var wk := s.workers[w].(requests := s.workers[w].requests + 1);
      SetWorker(s, w,
        match reply
        case None => wk.(local := MarkFailed(wk.local, "gateway"), phase := SavingFailure)
        case Some(r) =>
          match MarkAwaitingPayment(wk.local, "zarinpal", r.0, r.1)
          case Ok(p) => wk.(local := p, phase := SavingAuthority)
          case Err(_) => wk.(phase := Finished))
    case Save(w, dbOk) =>
      var wk := s.workers[w];
      SetWorker(s, w, wk.(phase := if wk.phase.SavingFailure? then Announcing else Finished))
      .(payments := SaveOr(s.payments, UpdateFromPending(s.payments, w, wk.local), dbOk))
    case Announce(w, ok) =>
      var wk := s.workers[w];
      SetWorker(s, w, wk.(phase := Finished, announced := wk.announced + (if ok then 1 else 0)))
      .(outcomes := Tellings(s, Outcome(w, wk.local.order, false), ByHandler, ok))
    case Crash(w) => SetWorker(s, w, s.workers[w].(phase := Finished))
    case Callback(authority, id) =>
      if CanTransitionTo(s.payments[id].status, Completed) then
        s.(verifiers := s.verifiers + [Verifier(id, s.payments[id], Deciding, None)])
      else s
    case Decide(v, reply, statusOK) => SetVerifier(s, v, DecideLocal(s.verifiers[v], reply, statusOK))
    case Store(v, dbOk) =>
      var vf := s.verifiers[v];
      var saved := Update(s.payments, vf.payment, vf.local);
      SetVerifier(s, v, if vf.phase.StoringFailure? then vf.(phase := TellingFailure, decided := Some(false))
                        else if dbOk && saved.Ok? then vf.(phase := TellingSuccess, decided := Some(true))
                        else vf.(phase := Done))
      .(payments := SaveOr(s.payments, saved, dbOk))
    case Tell(v, ok) =>
      var vf := s.verifiers[v];
      SetVerifier(s, v, vf.(phase := Done))
      .(outcomes := Tellings(s, Outcome(vf.payment, vf.local.order, vf.phase.TellingSuccess?), ByCallback(v), ok))
    case Abandon(v) => SetVerifier(s, v, s.verifiers[v].(phase := Done))
  }

  predicate Legal(s: State, run: seq<Step>)
    decreases |run|
  {
    run == [] || (Enabled(s, run[0]) && Legal(Apply(s, run[0]), run[1..]))
  }

  function Run(s: State, run: seq<Step>): State
    requires Legal(s, run)
    decreases |run|
  {
    if run == [] then s else Run(Apply(s, run[0]), run[1..])
  }

  predicate Initial(s: State) {
    s == State([], {}, [], [], [], [])
  }

  // -------------------------------------------------------- inbox exactness

  function ByWorker(i: nat): Published -> int {
    (o: Published) => if o.source.ByHandler? && o.outcome.payment == i then 1 else 0
  }

  predicate RowOk(s: State, i: nat)
    requires i < |s.payments|
  {
    var p := s.payments[i];
    && p.cause in s.inbox && p.cause < |s.events|
    && p.order == s.events[p.cause].order && p.user == s.events[p.cause].user && p.amount == s.events[p.cause].amount
    && p.amount > 0 && p.order != NIL
  }

  predicate WorkerOk(s: State, i: nat)
    requires i < |s.workers| && i < |s.payments|
  {
    var w := s.workers[i];
    && w.local.order == s.payments[i].order
    && (w.phase.AtGateway? ==> w.requests == 0) && w.requests <= 1
    && w.announced <= (if w.phase.Finished? then 1 else 0)
    && Sum(s.outcomes, ByWorker(i)) == w.announced
  }

  ghost predicate HasRow(s: State, e: nat) {
    exists i :: 0 <= i < |s.payments| && s.payments[i].cause == e
  }

  predicate OutcomeOk(s: State, o: Outcome) {
    o.payment < |s.payments| && o.order == s.payments[o.payment].order
  }

  predicate VerifierOk(s: State, v: Verifier) {
    v.payment < |s.payments| && v.local.order == s.payments[v.payment].order
  }

  ghost predicate Inv(s: State) {
    && |s.workers| == |s.payments|
    && (forall i :: 0 <= i < |s.payments| ==> RowOk(s, i) && WorkerOk(s, i))
    && (forall i, j :: 0 <= i < j < |s.payments| ==> s.payments[i].cause != s.payments[j].cause)
    && (forall e :: e in s.inbox ==> HasRow(s, e))
    && (forall o :: 0 <= o < |s.outcomes| ==> OutcomeOk(s, s.outcomes[o].outcome))
    && (forall v :: 0 <= v < |s.verifiers| ==> VerifierOk(s, s.verifiers[v]))
  }

  /** Updates change neither what a row was created for nor how many rows there are. */
  predicate SameCauses(t: Table, t': Table) {
    && |t'| == |t|
    && forall i :: 0 <= i < |t| ==>
         t'[i].cause == t[i].cause && t'[i].order == t[i].order && t'[i].user == t[i].user && t'[i].amount == t[i].amount
  }

  lemma KeepRows(s: State, s': State)
    requires Inv(s) && SameCauses(s.payments, s'.payments) && s'.inbox == s.inbox && s.events <= s'.events
    requires |s'.workers| == |s.workers|
    requires forall i :: 0 <= i < |s.payments| ==> WorkerOk(s', i)
    requires forall o :: 0 <= o < |s'.outcomes| ==> OutcomeOk(s, s'.outcomes[o].outcome)
    requires forall v :: 0 <= v < |s'.verifiers| ==> VerifierOk(s, s'.verifiers[v])
    ensures Inv(s')
  {
    forall i | 0 <= i < |s'.payments| ensures RowOk(s', i) {
      assert RowOk(s, i);
    }
    forall e | e in s'.inbox ensures HasRow(s', e) {
      assert HasRow(s, e);
      var i :| 0 <= i < |s.payments| && s.payments[i].cause == e;
      assert s'.payments[i].cause == e;
    }
  }

  lemma SameWorkers(s: State, s': State)
    requires Inv(s) && SameCauses(s.payments, s'.payments) && s'.workers == s.workers && s'.outcomes == s.outcomes
    ensures forall i :: 0 <= i < |s.payments| ==> WorkerOk(s', i)
  {
    forall i | 0 <= i < |s.payments| ensures WorkerOk(s', i) {
      assert WorkerOk(s, i);
    }
  }

  lemma HandleKeeps(s: State, e: nat)
    requires Inv(s) && e < |s.events| && Inserts(s, e)
    ensures Inv(Apply(s, Handle(e, true)))
  {
    var s' := Apply(s, Handle(e, true));
    var n := |s.payments|;
    assert s'.payments == s.payments + [s'.payments[n]];
    forall i | 0 <= i < |s'.payments| ensures RowOk(s', i) && WorkerOk(s', i) {
      if i < n {
        assert RowOk(s, i) && WorkerOk(s, i);
      } else {
        forall o | 0 <= o < |s.outcomes| ensures ByWorker(n)(s.outcomes[o]) == 0 {
          assert OutcomeOk(s, s.outcomes[o].outcome);
        }
        SumZero(s.outcomes, ByWorker(n));
      }
    }
    forall i, j | 0 <= i < j < |s'.payments| ensures s'.payments[i].cause != s'.payments[j].cause {
      assert RowOk(s, i);
    }
    forall x | x in s'.inbox ensures HasRow(s', x) {
      if x == e {
        assert s'.payments[n].cause == e;
      } else {
        assert HasRow(s, x);
        var i :| 0 <= i < |s.payments| && s.payments[i].cause == x;
        assert s'.payments[i].cause == x;
      }
    }
  }

  /** The steps of a worker, except its announcement. */
  lemma WorkerKeeps(s: State, step: Step)
    requires Inv(s) && Enabled(s, step) && (step.AskGateway? || step.Save? || step.Crash?)
    ensures Inv(Apply(s, step))
  {
    var s' := Apply(s, step);
    assert SameCauses(s.payments, s'.payments);
    forall i | 0 <= i < |s.payments| ensures WorkerOk(s', i) {
      assert WorkerOk(s, i);
    }
    KeepRows(s, s');
  }

  lemma AnnounceKeeps(s: State, w: nat, ok: bool)
    requires Inv(s) && Enabled(s, Announce(w, ok))
    ensures Inv(Apply(s, Announce(w, ok)))
  {
    var s' := Apply(s, Announce(w, ok));
    assert WorkerOk(s, w);
    forall i | 0 <= i < |s.payments| ensures WorkerOk(s', i) {
      assert WorkerOk(s, i);
      SumSnoc(s.outcomes, Published(Outcome(w, s.workers[w].local.order, false), ByHandler), ByWorker(i));
    }
    KeepRows(s, s');
  }

  lemma CallbackKeeps(s: State, step: Step)
    requires Inv(s) && Enabled(s, step)
    requires step.Callback? || step.Decide? || step.Store? || step.Abandon? || step.Publish?
    ensures Inv(Apply(s, step))
  {
    var s' := Apply(s, step);
    assert SameCauses(s.payments, s'.payments);
    SameWorkers(s, s');
    KeepRows(s, s');
  }

  lemma TellKeeps(s: State, v: nat, ok: bool)
    requires Inv(s) && Enabled(s, Tell(v, ok))
    ensures Inv(Apply(s, Tell(v, ok)))
  {
    var s' := Apply(s, Tell(v, ok));
    var vf := s.verifiers[v];
    var o := Published(Outcome(vf.payment, vf.local.order, vf.phase.TellingSuccess?), ByCallback(v));
    forall i | 0 <= i < |s.payments| ensures WorkerOk(s', i) {
      assert WorkerOk(s, i);
      SumSnoc(s.outcomes, o, ByWorker(i));
    }
    KeepRows(s, s');
  }

  lemma StepKeeps(s: State, step: Step)
    requires Inv(s) && Enabled(s, step)
    ensures Inv(Apply(s, step))
  {
    if step.Handle? {
      if step.dbOk && Inserts(s, step.e) {
        HandleKeeps(s, step.e);
      }
    } else if step.AskGateway? || step.Save? || step.Crash? {
      WorkerKeeps(s, step);
    } else if step.Announce? {
      AnnounceKeeps(s, step.worker, step.ok);
    } else if step.Tell? {
      TellKeeps(s, step.verifier, step.ok);
    } else {
      CallbackKeeps(s, step);
    }
  }

  lemma {:induction false} RunKeeps(s: State, run: seq<Step>)
    requires Inv(s) && Legal(s, run)
    ensures Inv(Run(s, run))
    decreases |run|
  {
    if run != [] {
      StepKeeps(s, run[0]);
      RunKeeps(Apply(s, run[0]), run[1..]);
    }
  }

  /**
   Inbox exactness: over any redeliveries and any concurrency, an event id is in the inbox exactly when
   one payment row exists for it, and that row carries the event's order, user and positive amount.
   */
  lemma InboxIsExact(s: State, run: seq<Step>, e: nat)
    requires Initial(s) && Legal(s, run)
    ensures var end := Run(s, run);
      && (e in end.inbox <==> HasRow(end, e))
      && (forall i, j :: 0 <= i < j < |end.payments| ==> end.payments[i].cause != end.payments[j].cause)
      && (forall i :: 0 <= i < |end.payments| && end.payments[i].cause == e ==>
            && e < |end.events|
            && OrderCreated(end.payments[i].order, end.payments[i].user, end.payments[i].amount) == end.events[e]
            && end.payments[i].amount > 0)
  {
    RunKeeps(s, run);
    var end := Run(s, run);
    if HasRow(end, e) {
      var i :| 0 <= i < |end.payments| && end.payments[i].cause == e;
      assert RowOk(end, i);
    }
    forall i | 0 <= i < |end.payments| && end.payments[i].cause == e
      ensures e < |end.events| && end.payments[i].amount > 0
      ensures OrderCreated(end.payments[i].order, end.payments[i].user, end.payments[i].amount) == end.events[e]
    {
      assert RowOk(end, i);
    }
  }

  /** What one delivery of order.created comes to: an ack, an error that requeues it, or a run of the service. */
  datatype Reply = Acked | Refused(kind: Kind) | GoesOn

  function HandleReply(s: State, e: nat, dbOk: bool): Reply
    requires e < |s.events|
  {
    if s.events[e].order == NIL then Acked
    else if !dbOk then Refused(Internal)
    else if e in s.inbox then Acked
    else match Create(s.payments, PaymentOf(s, e))
      case Ok(_) => GoesOn
      case Err(kind) => Refused(kind)
  }

  /**
   Over every run: a delivery is acked at once exactly if it names no order, or the database answers and a payment
   exists for it; it goes on exactly if it inserts that payment; and in every other case it comes back.
   */
  lemma AckedExactly(s: State, run: seq<Step>, e: nat, dbOk: bool)
    requires Initial(s) && Legal(s, run) && e < |Run(s, run).events|
    ensures var end := Run(s, run);
      && (HandleReply(end, e, dbOk).Acked? <==> end.events[e].order == NIL || (dbOk && HasRow(end, e)))
      && (HandleReply(end, e, dbOk).GoesOn? <==> Apply(end, Handle(e, dbOk)) != end)
  {
    InboxIsExact(s, run, e);
    var end := Run(s, run);
    if dbOk && Inserts(end, e) {
      assert |Apply(end, Handle(e, dbOk)).workers| == |end.workers| + 1;
    }
  }

  /**
   An order whose total is zero, or has wrapped to zero, never gets a payment: at every delivery of every run its
   order.created is refused with an error, so it is requeued and never acknowledged.
   */
  lemma ZeroTotalIsNeverHandled(s: State, run: seq<Step>, e: nat, dbOk: bool)
    requires Initial(s) && Legal(s, run) && e < |Run(s, run).events|
    requires Run(s, run).events[e].amount <= 0 && Run(s, run).events[e].order != NIL
    ensures HandleReply(Run(s, run), e, dbOk) == Refused(if dbOk then InvalidInput else Internal)
    ensures e !in Run(s, run).inbox && !HasRow(Run(s, run), e)
    ensures Apply(Run(s, run), Handle(e, dbOk)) == Run(s, run)
  {
    InboxIsExact(s, run, e);
  }

  /** For each payment, the gateway is asked at most once and payment.failed is published at most once from this path. */
  lemma AskedAndAnnouncedOnce(s: State, run: seq<Step>, i: nat)
    requires Initial(s) && Legal(s, run) && i < |Run(s, run).payments|
    ensures i < |Run(s, run).workers| == |Run(s, run).payments|
    ensures Run(s, run).workers[i].requests <= 1
    ensures Sum(Run(s, run).outcomes, ByWorker(i)) <= 1
  {
    RunKeeps(s, run);
    assert WorkerOk(Run(s, run), i);
  }

  // ------------------------------------------------ reachability as written

  /** What the four write paths can produce when the table starts empty. */
  ghost predicate Unclaimed(s: State) {
    && (forall i :: 0 <= i < |s.payments| ==>
          s.payments[i].authority == None && (s.payments[i].status == Pending || s.payments[i].status == Failed))
    && s.verifiers == []
    && (forall o :: 0 <= o < |s.outcomes| ==> s.outcomes[o].source == ByHandler && !s.outcomes[o].outcome.completed)
    && (forall w :: 0 <= w < |s.workers| ==> s.workers[w].local.status in {Pending, Failed, Awaiting})
  }

  lemma UnclaimedStep(s: State, step: Step)
    requires Unclaimed(s) && Enabled(s, step)
    ensures Unclaimed(Apply(s, step))
  {
    if step.Save? {
      var r := UpdateFromPending(s.payments, step.worker, s.workers[step.worker].local);
      if step.dbOk && r.Ok? {
        assert StatusAllowed(r.value[step.worker].status);
      }
    }
  }

  lemma {:induction false} UnclaimedRun(s: State, run: seq<Step>)
    requires Unclaimed(s) && Legal(s, run)
    ensures Unclaimed(Run(s, run))
    decreases |run|
  {
    if run != [] {
      UnclaimedStep(s, run[0]);
      UnclaimedRun(Apply(s, run[0]), run[1..]);
    }
  }

  /**
   As the code stands, starting from an empty table no run ever stores an authority: no callback finds
   a payment, no payment is ever anything but pending or failed, and payment.completed is never published.
   */
  lemma NoPaymentEverCompletes(s: State, run: seq<Step>, authority: string, id: nat)
    requires Initial(s) && Legal(s, run)
    ensures !Finds(Run(s, run).payments, authority, id)
    ensures id < |Run(s, run).payments| ==> Run(s, run).payments[id].status in {Pending, Failed}
    ensures forall o :: 0 <= o < |Run(s, run).outcomes| ==> !Run(s, run).outcomes[o].outcome.completed
  {
    UnclaimedRun(s, run);
  }

  // ------------------------------------------------------------ callbacks

  /**
   A callback that nobody interrupts does what `Payments.Verify` says: looking up, deciding, storing
   and telling, one after the other, leave its table and publish its outcome.
   */
  lemma UninterruptedCallback(s: State, c: Payments.Callback)
    requires Finds(s.payments, c.authority, c.row) && CanTransitionTo(s.payments[c.row].status, Completed)
    ensures var v := |s.verifiers|;
      var s2 := Apply(Apply(s, Step.Callback(c.authority, c.row)), Decide(v, c.gateway, c.statusOK));
      && Enabled(s2, Store(v, c.dbOk))
      && var s3 := Apply(s2, Store(v, c.dbOk));
         var s4 := if Enabled(s3, Tell(v, c.publishOk)) then Apply(s3, Tell(v, c.publishOk)) else s3;
         && s4.payments == Verify(s.payments, c).table
         && s4.outcomes == s.outcomes + (match Verify(s.payments, c).published
                                         case Some(o) => [Published(o, ByCallback(v))] case None => [])
  {
  }
}
