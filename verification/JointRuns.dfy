/** Joint runs of the two services, seen from each side. */
module JointRuns {
  import opened EndToEnd
  import C = SagaControl
  import F = PaymentFlow
  import S = Saga

  lemma PlacedCanHear(s: State, o: nat)
    requires C.Attempts(s.saga) && o < |s.pay.outcomes| && Placed(s.saga, s.pay.outcomes[o].outcome.order)
    ensures Enabled(s, Hear(o))
  {
    var a := s.pay.outcomes[o].outcome.order - 1;
    assert C.AttemptOk(s.saga.stock.lines, a, s.saga.attempts[a]);
  }

  /** Every published outcome can be delivered, at once and any number of times. */
  lemma OutcomesCanBeHeard(s: State, run: seq<Step>, o: nat)
    requires Initial(s) && Legal(s, run) && o < |Run(s, run).pay.outcomes|
    ensures Enabled(Run(s, run), Hear(o))
  {
    Reachable(s, run);
    OutcomesAreForPlacedOrders(s, run, o);
    PlacedCanHear(Run(s, run), o);
  }

  // ------------------------------------------------------------ the shop's side

  /** What a joint step is for Order and Product Service; order `a` is known to the bank as a + 1. */
  function ShopStep(s: State, step: Step): seq<S.Step>
    requires Enabled(s, step)
  {
    match step
    case Shop(x) => [x]
    case PlaceOrder(a, _, _) => [S.Announce(a, true)]
    case Bank(_) => []
    case Hear(o) =>
      var x := s.pay.outcomes[o].outcome;
      [S.Receive(x.order - 1, if x.completed then S.PaymentCompleted else S.PaymentFailed)]
  }

  function ShopSteps(s: State, run: seq<Step>): seq<S.Step>
    requires Legal(s, run)
    decreases |run|
  {
    if run == [] then [] else ShopStep(s, run[0]) + ShopSteps(Apply(s, run[0]), run[1..])
  }

  lemma ShopOne(s: State, step: Step)
    requires Enabled(s, step)
    ensures ShopStep(s, step) == [] ==> Apply(s, step).saga == s.saga
    ensures ShopStep(s, step) != [] ==>
      |ShopStep(s, step)| == 1 && S.Enabled(s.saga, ShopStep(s, step)[0])
      && Apply(s, step).saga == S.Apply(s.saga, ShopStep(s, step)[0])
  {
  }

  lemma ShopCons(saga: S.State, steps: seq<S.Step>, rest: seq<S.Step>)
    requires |steps| == 1 && S.Enabled(saga, steps[0]) && S.Legal(S.Apply(saga, steps[0]), rest)
    ensures S.Legal(saga, steps + rest) && S.Run(saga, steps + rest) == S.Run(S.Apply(saga, steps[0]), rest)
  {
    assert (steps + rest)[1..] == rest;
  }

  /** What the shop does in a joint run, with every outcome it hears, is a run of the saga. */
  lemma {:induction false} ShopAlone(s: State, run: seq<Step>)
    requires Legal(s, run)
    ensures S.Legal(s.saga, ShopSteps(s, run)) && S.Run(s.saga, ShopSteps(s, run)) == Run(s, run).saga
    decreases |run|
  {
    if run != [] {
      ShopOne(s, run[0]);
      ShopAlone(Apply(s, run[0]), run[1..]);
      var rest := ShopSteps(Apply(s, run[0]), run[1..]);
      if ShopStep(s, run[0]) == [] {
        assert [] + rest == rest;
      } else {
        ShopCons(s.saga, ShopStep(s, run[0]), rest);
      }
    }
  }

  // ------------------------------------------------------------ the bank's side

  function BankStep(step: Step): seq<F.Step> {
    match step
    case Shop(_) => []
    case PlaceOrder(a, user, amount) => [F.Publish(F.OrderCreated(a + 1, user, amount))]
    case Bank(x) => [x]
    case Hear(_) => []
  }

  function BankSteps(run: seq<Step>): seq<F.Step> {
    if run == [] then [] else BankStep(run[0]) + BankSteps(run[1..])
  }

  lemma BankOne(s: State, step: Step)
    requires Enabled(s, step)
    ensures BankStep(step) == [] ==> Apply(s, step).pay == s.pay
    ensures BankStep(step) != [] ==>
      |BankStep(step)| == 1 && F.Enabled(s.pay, BankStep(step)[0])
      && Apply(s, step).pay == F.Apply(s.pay, BankStep(step)[0])
  {
  }

  lemma BankCons(pay: F.State, steps: seq<F.Step>, rest: seq<F.Step>)
    requires |steps| == 1 && F.Enabled(pay, steps[0]) && F.Legal(F.Apply(pay, steps[0]), rest)
    ensures F.Legal(pay, steps + rest) && F.Run(pay, steps + rest) == F.Run(F.Apply(pay, steps[0]), rest)
  {
    assert (steps + rest)[1..] == rest;
  }

  /** What the bank does in a joint run, with every order placed, is a run of Payment Service. */
  lemma {:induction false} BankAlone(s: State, run: seq<Step>)
    requires Legal(s, run)
    ensures F.Legal(s.pay, BankSteps(run)) && F.Run(s.pay, BankSteps(run)) == Run(s, run).pay
    decreases |run|
  {
    if run != [] {
      BankOne(s, run[0]);
      BankAlone(Apply(s, run[0]), run[1..]);
      var rest := BankSteps(run[1..]);
      if BankStep(run[0]) == [] {
        assert [] + rest == rest;
      } else {
        BankCons(s.pay, BankStep(run[0]), rest);
      }
    }
  }
}
