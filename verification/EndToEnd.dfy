/**
 The saga and Payment Service put together: an order's order.created is what Payment Service handles,
 and what it publishes is all that Order Service can receive.
 */
module EndToEnd {
  import opened Basics
  import opened Sums
  import C = SagaControl
  import E = StockEvents
  import F = PaymentFlow
  import L = StockLedger
  import S = Saga
  import T = SagaStatus

  datatype State = State(saga: S.State, pay: F.State)

  datatype Step =
    | Shop(shop: S.Step)                           // any saga step but the two below
    | PlaceOrder(a: nat, user: Id, amount: int)    // order.created goes out
    | Bank(bank: F.Step)                           // any step of Payment Service
    | Hear(o: nat)                                 // one delivery of a published outcome

  /** Attempt `a` stores its order under id a + 1. */
  function OrderId(a: nat): Id { a + 1 }

  function Heard(s: State, o: nat): S.Step
    requires o < |s.pay.outcomes| && s.pay.outcomes[o].outcome.order > 0
  {
    var x := s.pay.outcomes[o].outcome;
    S.Receive(x.order - 1, if x.completed then S.PaymentCompleted else S.PaymentFailed)
  }

  predicate Enabled(s: State, step: Step) {
    match step
    case Shop(x) => S.Enabled(s.saga, x) && !x.Receive? && !(x.Announce? && x.ok)
    case PlaceOrder(a, _, _) => S.Enabled(s.saga, S.Announce(a, true))
    case Bank(x) => F.Enabled(s.pay, x) && !x.Publish?
    case Hear(o) =>
      o < |s.pay.outcomes| && s.pay.outcomes[o].outcome.order > 0 && S.Enabled(s.saga, Heard(s, o))
  }

  function Apply(s: State, step: Step): State
    requires Enabled(s, step)
  {
    match step
    case Shop(x) => s.(saga := S.Apply(s.saga, x))
    case PlaceOrder(a, user, amount) =>
      State(S.Apply(s.saga, S.Announce(a, true)),
            F.Apply(s.pay, F.Publish(F.OrderCreated(OrderId(a), user, amount))))
    case Bank(x) => s.(pay := F.Apply(s.pay, x))
    case Hear(o) => s.(saga := S.Apply(s.saga, Heard(s, o)))
  }

  predicate Legal(s: State, run: seq<Step>)
    decreases |run|
  {
    run == [] || (Enabled(s, run[0]) && Legal(Apply(s, run[0]), run[1..]))
  }

  function Run(s: State, run: seq<Step>): State
    requires Legal(s, run)
    decreases |run|
  {
    if run == [] then s else Run(Apply(s, run[0]), run[1..])
  }

  predicate Initial(s: State) {
    S.Initial(s.saga) && F.Initial(s.pay)
  }

  // -------------------------------------------------------------- invariant

  predicate Placed(saga: S.State, order: Id) {
    order > 0 && order - 1 < |saga.attempts| && saga.attempts[order - 1].phase.Accepted?
  }

  ghost predicate Linked(s: State) {
    && (forall e :: 0 <= e < |s.pay.events| ==> Placed(s.saga, s.pay.events[e].order))
    && (forall e, f :: 0 <= e < f < |s.pay.events| ==> s.pay.events[e].order != s.pay.events[f].order)
    && (forall h :: 0 <= h < |s.saga.handlers| ==> s.saga.handlers[h].outcome == S.PaymentFailed)
  }

  ghost predicate Inv(s: State) {
    C.Inv(s.saga) && T.Inv(s.saga) && F.Inv(s.pay) && F.Unclaimed(s.pay) && Linked(s)
  }

  /** An accepted order stays accepted. */
  lemma PlacedStays(saga: S.State, step: S.Step, order: Id)
    requires S.Enabled(saga, step) && Placed(saga, order)
    ensures Placed(S.Apply(saga, step), order)
  {
  }

  lemma HandlersOnlyReceive(saga: S.State, step: S.Step)
    requires S.Enabled(saga, step) && !step.Receive?
    ensures var saga' := S.Apply(saga, step);
      |saga'.handlers| == |saga.handlers|
      && forall h :: 0 <= h < |saga.handlers| ==> saga'.handlers[h].outcome == saga.handlers[h].outcome
  {
  }

  lemma EventsOnlyPublished(pay: F.State, step: F.Step)
    requires F.Enabled(pay, step) && !step.Publish?
    ensures F.Apply(pay, step).events == pay.events
  {
  }

  lemma LinkedKeeps(s: State, step: Step)
    requires Linked(s) && F.Unclaimed(s.pay) && Enabled(s, step)
    ensures Linked(Apply(s, step))
  {
    match step {
      case Shop(x) =>
        forall e | 0 <= e < |s.pay.events| { PlacedStays(s.saga, x, s.pay.events[e].order); }
        HandlersOnlyReceive(s.saga, x);
      case PlaceOrder(a, user, amount) =>
        forall e | 0 <= e < |s.pay.events| { PlacedStays(s.saga, S.Announce(a, true), s.pay.events[e].order); }
        HandlersOnlyReceive(s.saga, S.Announce(a, true));
        assert forall e :: 0 <= e < |s.pay.events| ==> Placed(s.saga, s.pay.events[e].order);
      case Bank(x) =>
        EventsOnlyPublished(s.pay, x);
      case Hear(o) =>
        forall e | 0 <= e < |s.pay.events| { PlacedStays(s.saga, Heard(s, o), s.pay.events[e].order); }
    }
  }

  lemma SagaKeeps(saga: S.State, step: S.Step)
    requires C.Inv(saga) && T.Inv(saga) && S.Enabled(saga, step)
    ensures C.Inv(S.Apply(saga, step)) && T.Inv(S.Apply(saga, step))
  {
    C.StepKeeps(saga, step);
    T.StepKeeps(saga, step);
  }

  lemma PayKeeps(pay: F.State, step: F.Step)
    requires F.Inv(pay) && F.Unclaimed(pay) && F.Enabled(pay, step)
    ensures F.Inv(F.Apply(pay, step)) && F.Unclaimed(F.Apply(pay, step))
  {
    F.StepKeeps(pay, step);
    F.UnclaimedStep(pay, step);
  }

  lemma StepKeeps(s: State, step: Step)
    requires Inv(s) && Enabled(s, step)
    ensures Inv(Apply(s, step))
  {
    LinkedKeeps(s, step);
    match step {
      case Shop(x) => SagaKeeps(s.saga, x);
      case PlaceOrder(a, user, amount) =>
        SagaKeeps(s.saga, S.Announce(a, true));
        PayKeeps(s.pay, F.Publish(F.OrderCreated(OrderId(a), user, amount)));
      case Bank(x) => PayKeeps(s.pay, x);
      case Hear(o) => SagaKeeps(s.saga, Heard(s, o));
    }
  }

  lemma {:induction false} RunKeeps(s: State, run: seq<Step>)
    requires Inv(s) && Legal(s, run)
    ensures Inv(Run(s, run))
    decreases |run|
  {
    if run != [] {
      StepKeeps(s, run[0]);
      RunKeeps(Apply(s, run[0]), run[1..]);
    }
  }

  lemma Reachable(s: State, run: seq<Step>)
    requires Initial(s) && Legal(s, run)
    ensures Inv(Run(s, run))
  {
    C.InitialHolds(s.saga);
    RunKeeps(s, run);
  }

  // --------------------------------------------------------------- theorems

  /** Every stock message is a release. */
  lemma OnlyReleases(s: State, m: nat)
    requires T.Inv(s.saga) && Linked(s) && m < |s.saga.stock.messages|
    ensures s.saga.stock.messages[m].kind == E.StockRelease
  {
  }

  lemma NeverConfirmed(s: State, a: nat)
    requires T.Inv(s.saga) && Linked(s) && a < |s.saga.attempts|
    ensures s.saga.attempts[a].row != Some(S.Confirmed)
  {
  }

  lemma NothingConfirmed(s: State, p: Id)
    requires T.Inv(s.saga) && Linked(s)
    ensures L.Confirmed(s.saga.stock, p) == 0
  {
    var messages := s.saga.stock.messages;
    forall m | 0 <= m < |messages| ensures L.AppliedQty(p, E.StockConfirm)(messages[m]) == 0 {
      OnlyReleases(s, m);
    }
    SumZero(messages, L.AppliedQty(p, E.StockConfirm));
  }

  /**
   The two services as written, run together from an empty payments table: no order is ever confirmed, no
   stock confirmation is ever sent, and the total stock of no product ever changes, whatever happens.
   */
  lemma NothingIsEverSold(s: State, run: seq<Step>, p: Id, a: nat)
    requires Initial(s) && Legal(s, run)
    ensures var end := Run(s, run).saga;
      && (p in end.stock.products ==>
            p in end.stock.base && end.stock.products[p].totalStock == end.stock.base[p].totalStock)
      && (a < |end.attempts| ==> end.attempts[a].row != Some(S.Confirmed))
  {
    Reachable(s, run);
    var end := Run(s, run).saga;
    if p in end.stock.products {
      assert L.Balanced(end.stock, p);
      NothingConfirmed(Run(s, run), p);
    }
    if a < |end.attempts| {
      NeverConfirmed(Run(s, run), a);
    }
  }

  /** Every published outcome is for an order that was accepted. */
  lemma OutcomesAreForPlacedOrders(s: State, run: seq<Step>, i: nat)
    requires Initial(s) && Legal(s, run) && i < |Run(s, run).pay.outcomes|
    ensures Placed(Run(s, run).saga, Run(s, run).pay.outcomes[i].outcome.order)
  {
    Reachable(s, run);
    var pay := Run(s, run).pay;
    assert F.OutcomeOk(pay, pay.outcomes[i].outcome) && F.RowOk(pay, pay.outcomes[i].outcome.payment);
  }

  /**
   At most one outcome is ever published for an order: so an order's items are messaged more than once only
   through redelivery of that one message.
   */
  lemma OneOutcomePerOrder(s: State, run: seq<Step>, i: nat, j: nat)
    requires Initial(s) && Legal(s, run) && i < j < |Run(s, run).pay.outcomes|
    ensures Run(s, run).pay.outcomes[i].outcome.order != Run(s, run).pay.outcomes[j].outcome.order
  {
    Reachable(s, run);
    var end := Run(s, run);
    var pay := end.pay;
    var x, y := pay.outcomes[i].outcome.payment, pay.outcomes[j].outcome.payment;
    assert F.OutcomeOk(pay, pay.outcomes[i].outcome) && F.OutcomeOk(pay, pay.outcomes[j].outcome);
    assert F.RowOk(pay, x) && F.RowOk(pay, y) && F.WorkerOk(pay, x);
    assert x != y by {
      if x == y {
        SumTwoParts(pay.outcomes, i, j, F.ByWorker(x));
      }
    }
    assert pay.payments[x].cause != pay.payments[y].cause;
  }
}
