/** A payment the gateway has accepted is never heard of again, and neither is its order. */
module StuckPayments {
  import opened Basics
  import opened Sums
  import opened EndToEnd
  import C = SagaControl
  import F = PaymentFlow
  import P = Payments
  import S = Saga
  import T = SagaStatus

  /** No worker has written its row before it has asked the gateway. */
  predicate Fresh(pay: F.State) {
    forall w :: 0 <= w < |pay.workers| && w < |pay.payments| && pay.workers[w].phase.AtGateway? ==>
      pay.workers[w].local.status == P.Pending && pay.payments[w].status == P.Pending
  }

  /** The gateway has accepted payment `i`: its worker is to save `awaiting`, or is done. */
  predicate Waits(pay: F.State, i: nat) {
    && i < |pay.workers| && i < |pay.payments|
    && pay.workers[i].local.status == P.Awaiting
    && (pay.workers[i].phase.SavingAuthority? || pay.workers[i].phase.Finished?)
    && pay.payments[i].status == P.Pending
    && forall o :: 0 <= o < |pay.outcomes| ==> pay.outcomes[o].outcome.payment != i
  }

  /** Order Service has only handled outcomes that were published. */
  predicate Announced(pay: F.State, a: nat) {
    exists o :: 0 <= o < |pay.outcomes| && pay.outcomes[o].outcome.order == a + 1
  }

  ghost predicate HeardOnly(s: State) {
    forall h :: 0 <= h < |s.saga.handlers| ==> Announced(s.pay, s.saga.handlers[h].order)
  }

  // -------------------------------------------------------------------- steps

  lemma FreshStep(pay: F.State, step: F.Step)
    requires F.Inv(pay) && F.Unclaimed(pay) && Fresh(pay) && F.Enabled(pay, step)
    ensures Fresh(F.Apply(pay, step))
  {
  }

  lemma WaitsStep(pay: F.State, step: F.Step, i: nat)
    requires F.Inv(pay) && F.Unclaimed(pay) && Waits(pay, i) && F.Enabled(pay, step)
    ensures Waits(F.Apply(pay, step), i)
  {
    P.AwaitingIsRefused(pay.payments, i, pay.workers[i].local);
  }

  lemma OutcomesStay(pay: F.State, step: F.Step, a: nat)
    requires F.Enabled(pay, step) && Announced(pay, a)
    ensures Announced(F.Apply(pay, step), a)
  {
    var o :| 0 <= o < |pay.outcomes| && pay.outcomes[o].outcome.order == a + 1;
    assert F.Apply(pay, step).outcomes[o] == pay.outcomes[o];
  }

  lemma HandlersStay(saga: S.State, step: S.Step)
    requires S.Enabled(saga, step)
    ensures var saga' := S.Apply(saga, step);
      && |saga.handlers| <= |saga'.handlers|
      && (forall h :: 0 <= h < |saga.handlers| ==> saga'.handlers[h].order == saga.handlers[h].order)
      && (|saga'.handlers| > |saga.handlers| ==>
            step.Receive? && |saga'.handlers| == |saga.handlers| + 1 && saga'.handlers[|saga.handlers|].order == step.order)
  {
  }

  lemma HeardStep(s: State, step: Step)
    requires HeardOnly(s) && Enabled(s, step)
    ensures HeardOnly(Apply(s, step))
  {
    match step {
      case Shop(x) => HandlersStay(s.saga, x);
      case PlaceOrder(a, user, amount) =>
        HandlersStay(s.saga, S.Announce(a, true));
      case Bank(x) =>
        forall h | 0 <= h < |s.saga.handlers| { OutcomesStay(s.pay, x, s.saga.handlers[h].order); }
      case Hear(o) =>
        HandlersStay(s.saga, Heard(s, o));
        assert Announced(s.pay, s.pay.outcomes[o].outcome.order - 1);
    }
  }

  ghost predicate Sound(s: State) {
    Inv(s) && HeardOnly(s) && Fresh(s.pay)
  }

  lemma SoundStep(s: State, step: Step)
    requires Sound(s) && Enabled(s, step)
    ensures Sound(Apply(s, step))
  {
    StepKeeps(s, step);
    HeardStep(s, step);
    if step.Bank? {
      FreshStep(s.pay, step.bank);
    } else if step.PlaceOrder? {
      FreshStep(s.pay, F.Publish(F.OrderCreated(OrderId(step.a), step.user, step.amount)));
    }
  }

  lemma {:induction false} SoundRun(s: State, run: seq<Step>)
    requires Sound(s) && Legal(s, run)
    ensures Sound(Run(s, run))
    decreases |run|
  {
    if run != [] {
      SoundStep(s, run[0]);
      SoundRun(Apply(s, run[0]), run[1..]);
    }
  }

  lemma OrderStays(pay: F.State, step: F.Step, i: nat)
    requires F.Enabled(pay, step) && i < |pay.payments|
    ensures i < |F.Apply(pay, step).payments| && F.Apply(pay, step).payments[i].order == pay.payments[i].order
  {
  }

  lemma {:induction false} WaitsRun(s: State, run: seq<Step>, i: nat)
    requires Sound(s) && Waits(s.pay, i) && Legal(s, run)
    ensures Sound(Run(s, run)) && Waits(Run(s, run).pay, i)
    ensures Run(s, run).pay.payments[i].order == s.pay.payments[i].order
    decreases |run|
  {
    if run != [] {
      SoundStep(s, run[0]);
      if run[0].Bank? {
        WaitsStep(s.pay, run[0].bank, i);
        OrderStays(s.pay, run[0].bank, i);
      }
      WaitsRun(Apply(s, run[0]), run[1..], i);
    }
  }

  // ----------------------------------------------------------------- theorems

  /** Nothing was ever announced for the order of a payment that waits. */
  lemma NothingAnnounced(s: State, i: nat)
    requires Sound(s) && Waits(s.pay, i)
    ensures Placed(s.saga, s.pay.payments[i].order) && !Announced(s.pay, s.pay.payments[i].order - 1)
  {
    assert F.RowOk(s.pay, i);
    forall o | 0 <= o < |s.pay.outcomes| ensures s.pay.outcomes[o].outcome.order != s.pay.payments[i].order {
      var j := s.pay.outcomes[o].outcome.payment;
      assert F.OutcomeOk(s.pay, s.pay.outcomes[o].outcome) && F.RowOk(s.pay, j);
      assert s.pay.payments[i].cause != s.pay.payments[j].cause;
    }
  }

  /** An accepted order nobody has heard an outcome for is pending. */
  lemma OrderWaits(saga: S.State, a: nat)
    requires T.Inv(saga) && a < |saga.attempts| && saga.attempts[a].phase.Accepted?
    requires forall h :: 0 <= h < |saga.handlers| ==> saga.handlers[h].order != a
    ensures saga.attempts[a].row == Some(S.Pending)
  {
    assert T.RowOk(saga.attempts[a]) && T.HasWinner(saga, a);
  }

  /** Item `k` of order `a` is held, and no stock message was ever sent for it. */
  predicate ItemWaits(saga: S.State, a: nat, k: nat) {
    && a < |saga.attempts| && saga.attempts[a].first + k < |saga.stock.lines|
    && var l := saga.stock.lines[saga.attempts[a].first + k]; l.owner == a && l.held && l.sent == 0
  }

  /** And so is each of its items. */
  lemma ItemsWait(saga: S.State, a: nat, k: nat)
    requires C.Attempts(saga) && C.Handlers(saga) && a < |saga.attempts| && saga.attempts[a].phase.Accepted?
    requires forall h :: 0 <= h < |saga.handlers| ==> saga.handlers[h].order != a
    requires k < saga.attempts[a].size
    ensures ItemWaits(saga, a, k)
  {
    assert C.AttemptOk(saga.stock.lines, a, saga.attempts[a]) && C.SentByHandlers(saga, a, k);
    SumZero(saga.handlers, C.Passed(a, k));
  }

  lemma NobodyHeard(s: State, a: nat)
    requires C.Inv(s.saga) && T.Inv(s.saga) && HeardOnly(s) && !Announced(s.pay, a)
    requires a < |s.saga.attempts| && s.saga.attempts[a].phase.Accepted?
    ensures s.saga.attempts[a].row == Some(S.Pending)
    ensures forall k :: 0 <= k < s.saga.attempts[a].size ==> ItemWaits(s.saga, a, k)
  {
    OrderWaits(s.saga, a);
    forall k | 0 <= k < s.saga.attempts[a].size ensures ItemWaits(s.saga, a, k) {
      ItemsWait(s.saga, a, k);
    }
  }

  /**
   Payment `i` is pending and nothing was published about its order `a`, which is pending too, with every item
   reserved and no stock message ever sent for it.
   */
  predicate Stuck(s: State, i: nat) {
    && i < |s.pay.payments| && s.pay.payments[i].status == P.Pending
    && Placed(s.saga, s.pay.payments[i].order)
    && var a := s.pay.payments[i].order - 1; var at := s.saga.attempts[a];
       && !Announced(s.pay, a) && at.row == Some(S.Pending)
       && forall k :: 0 <= k < at.size ==> ItemWaits(s.saga, a, k)
  }

  lemma WaitingIsStuck(s: State, i: nat)
    requires Sound(s) && Waits(s.pay, i)
    ensures Stuck(s, i)
  {
    NothingAnnounced(s, i);
    NobodyHeard(s, s.pay.payments[i].order - 1);
  }

  lemma GatewayAccepts(pay: F.State, i: nat, reply: (string, string))
    requires F.Inv(pay) && F.Unclaimed(pay) && Fresh(pay) && F.Enabled(pay, F.AskGateway(i, Some(reply)))
    ensures Waits(F.Apply(pay, F.AskGateway(i, Some(reply))), i)
  {
    assert F.WorkerOk(pay, i);
    forall o | 0 <= o < |pay.outcomes| ensures pay.outcomes[o].outcome.payment != i {
      if pay.outcomes[o].outcome.payment == i {
        SumPart(pay.outcomes, o, F.ByWorker(i));
      }
    }
  }

  /** Once the gateway has accepted a payment request, the payment and its order are stuck in every continuation. */
  lemma AcceptedPaymentIsStuck(s: State, run: seq<Step>, i: nat, reply: (string, string), more: seq<Step>)
    requires Initial(s) && Legal(s, run) && Enabled(Run(s, run), Bank(F.AskGateway(i, Some(reply))))
    requires Legal(Apply(Run(s, run), Bank(F.AskGateway(i, Some(reply)))), more)
    ensures Stuck(Run(Apply(Run(s, run), Bank(F.AskGateway(i, Some(reply)))), more), i)
  {
    Reachable(s, []);
    SoundRun(s, run);
    SoundStep(Run(s, run), Bank(F.AskGateway(i, Some(reply))));
    GatewayAccepts(Run(s, run).pay, i, reply);
    WaitsRun(Apply(Run(s, run), Bank(F.AskGateway(i, Some(reply)))), more, i);
    WaitingIsStuck(Run(Apply(Run(s, run), Bank(F.AskGateway(i, Some(reply)))), more), i);
  }
}
