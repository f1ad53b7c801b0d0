/** Callbacks that do not overlap on one payment, and two that do. */
module OrderlyCallbacks {
  import opened Basics
  import opened Payments
  import opened PaymentFlow
  import C = CallbackOutcomes

  /** No callback for the payment is at work. */
  predicate Idle(s: State, i: nat) {
    forall v :: 0 <= v < |s.verifiers| && s.verifiers[v].payment == i ==> s.verifiers[v].phase.Done?
  }

  predicate OrderlyStep(s: State, step: Step, i: nat)
    requires Enabled(s, step)
  {
    && (step.Callback? && step.payment == i ==> Idle(s, i))
    && (step.Store? && s.verifiers[step.verifier].payment == i ==> step.dbOk)
  }

  /** Callbacks for payment `i` do not overlap each other, and their writes reach the database. */
  predicate Orderly(s: State, run: seq<Step>, i: nat)
    requires Legal(s, run)
    decreases |run|
  {
    run == [] || (OrderlyStep(s, run[0], i) && Orderly(Apply(s, run[0]), run[1..], i))
  }

  // ---------------------------------------------------------------- invariant

  /** A callback at work sees the row as it is. */
  predicate InStep(v: Verifier, row: Payment) {
    && (v.phase.Deciding? ==> row.status == Pending && v.local == row)
    && (v.phase.StoringFailure? ==> row.status == Pending && v.local == MarkFailed(row, "failed"))
    && (v.phase.StoringSuccess? ==> row.status == Pending)
  }

  predicate AtMostOne(s: State, i: nat) {
    forall u, v :: 0 <= u < v < |s.verifiers| && s.verifiers[u].payment == i && s.verifiers[v].payment == i ==>
      s.verifiers[u].phase.Done? || s.verifiers[v].phase.Done?
  }

  ghost predicate Inv(s: State, i: nat) {
    && C.Inv(s, i) && TableOk(s.payments) && AtMostOne(s, i)
    && (forall v :: 0 <= v < |s.verifiers| && s.verifiers[v].payment == i ==> InStep(s.verifiers[v], s.payments[i]))
  }

  lemma TableStays(s: State, step: Step)
    requires TableOk(s.payments) && Enabled(s, step)
    ensures TableOk(Apply(s, step).payments)
  {
  }

  lemma OneStays(s: State, step: Step, i: nat)
    requires AtMostOne(s, i) && Enabled(s, step) && OrderlyStep(s, step, i)
    ensures AtMostOne(Apply(s, step), i)
  {
  }

  lemma InStepKeeps(s: State, step: Step, i: nat)
    requires Inv(s, i) && Enabled(s, step) && OrderlyStep(s, step, i)
    ensures var s' := Apply(s, step);
      i < |s'.payments|
      && forall v :: 0 <= v < |s'.verifiers| && s'.verifiers[v].payment == i ==> InStep(s'.verifiers[v], s'.payments[i])
  {
    var s' := Apply(s, step);
    C.RowAndDecisions(s, step, i);
    forall v | 0 <= v < |s'.verifiers| && s'.verifiers[v].payment == i ensures InStep(s'.verifiers[v], s'.payments[i]) {
      if v < |s.verifiers| {
        assert InStep(s.verifiers[v], s.payments[i]);
      }
    }
  }

  /** What such a callback announces is saved, and the payment was pending until then. */
  lemma OrderlyIsGuarded(s: State, step: Step, i: nat)
    requires Inv(s, i) && Enabled(s, step) && OrderlyStep(s, step, i)
    ensures !C.Unguarded(s, step, i)
  {
    if step.Store? && s.verifiers[step.verifier].payment == i {
      assert InStep(s.verifiers[step.verifier], s.payments[i]);
      FailureCanBeStored(s.payments, i, "failed");
    }
  }

  lemma {:induction false} OrderlyRun(s: State, run: seq<Step>, i: nat)
    requires Inv(s, i) && Legal(s, run) && Orderly(s, run, i)
    ensures !C.EverUnguarded(s, run, i)
    decreases |run|
  {
    if run != [] {
      OrderlyIsGuarded(s, run[0], i);
      C.StepKeeps(s, run[0], i);
      TableStays(s, run[0]);
      OneStays(s, run[0], i);
      InStepKeeps(s, run[0], i);
      OrderlyRun(Apply(s, run[0]), run[1..], i);
    }
  }

  /**
   One outcome per payment: from any payments table, with everything about other payments interleaved freely, if
   the callbacks for one payment do not overlap and their writes succeed, they publish at most one outcome for it,
   and the stored status is that outcome's for ever after.
   */
  lemma OneOutcomeWithoutOverlap(s: State, run: seq<Step>, i: nat, o: nat)
    requires TableOk(s.payments) && C.Start(s, i) && Legal(s, run) && Orderly(s, run, i)
    ensures i < |Run(s, run).payments| && C.Settled(Run(s, run), i)
    ensures o < |Run(s, run).outcomes| && C.ByCallbackOf(Run(s, run), o, i) ==>
      && Run(s, run).payments[i].status == C.StatusOf(Run(s, run).outcomes[o].outcome.completed)
      && forall q :: 0 <= q < |Run(s, run).outcomes| && C.ByCallbackOf(Run(s, run), q, i) ==> q == o
  {
    C.StartHolds(s, i);
    OrderlyRun(s, run, i);
    C.RunSettles(s, run, i);
    if o < |Run(s, run).outcomes| && C.ByCallbackOf(Run(s, run), o, i) {
      C.SettledMeansOne(Run(s, run), i, o);
    }
  }

  // ------------------------------------------------------------- with overlap

  lemma {:induction false} RunSnoc(s: State, run: seq<Step>, step: Step)
    requires Legal(s, run) && Enabled(Run(s, run), step)
    ensures Legal(s, run + [step]) && Run(s, run + [step]) == Apply(Run(s, run), step)
    decreases |run|
  {
    if run == [] {
      assert [step][1..] == [];
    } else {
      RunSnoc(Apply(s, run[0]), run[1..], step);
      assert (run + [step])[1..] == run[1..] + [step];
    }
  }

  function Payable(): Payment { Payment(1, 1, 500, Payments.Pending, None, None, Some("A1"), None, None, 0) }

  /** A pending payment whose authority is stored, and nothing in progress. */
  function Stored(): State {
    State([OrderCreated(1, 1, 500)], {0}, [Payable()], [Worker(Payable(), Finished, 1, 0)], [], [])
  }

  /** Two callbacks look the payment up while it is pending. */
  function Overlapping(): State {
    Stored().(verifiers := [Verifier(0, Payable(), Deciding, None), Verifier(0, Payable(), Deciding, None)])
  }

  lemma BothLookUp() returns (run: seq<Step>)
    ensures Legal(Stored(), run) && Run(Stored(), run) == Overlapping()
  {
    var first := Step.Callback("A1", 0);
    RunSnoc(Stored(), [], first);
    run := [] + [first];
    assert Run(Stored(), run).payments == [Payable()];
    RunSnoc(Stored(), run, first);
    run := run + [first];
    assert Run(Stored(), run).verifiers == Overlapping().verifiers;
  }

  function Failing(): Payment { Payable().(status := Payments.Failed, reason := Some("failed")) }
  function Paid(): Payment {
    Payable().(status := Payments.Completed, gatewayName := Some("zarinpal"), gatewayRef := Some("R1"))
  }

  lemma BothStore()
    ensures Update([Payable()], 0, Failing()) == Ok([Failing()])
    ensures Update([Failing()], 0, Paid()) == Ok([Paid()])
    ensures MarkFailed(Payable(), "failed") == Failing() && MarkCompleted(Payable(), "zarinpal", "R1") == Ok(Paid())
  {
    assert [Payable()][0 := Failing()] == [Failing()] && TableOk([Failing()]);
    assert [Failing()][0 := Paid()] == [Paid()] && TableOk([Paid()]);
  }

  /** The first decides for failure, the second for success, and each stores and announces what it decided. */
  lemma BothAnnounce() returns (run: seq<Step>)
    ensures Legal(Overlapping(), run)
    ensures Run(Overlapping(), run).outcomes
         == [Published(Outcome(0, 1, false), ByCallback(0)), Published(Outcome(0, 1, true), ByCallback(1))]
  {
    var s := Overlapping();
    BothStore();
    RunSnoc(s, [], Decide(0, Declined, false));
    run := [] + [Decide(0, Declined, false)];
    RunSnoc(s, run, Decide(1, Verified("R1"), true));
    run := run + [Decide(1, Verified("R1"), true)];
    RunSnoc(s, run, Store(0, true));
    run := run + [Store(0, true)];
    assert Run(s, run).payments == [Failing()];
    RunSnoc(s, run, Tell(0, true));
    run := run + [Tell(0, true)];
    RunSnoc(s, run, Store(1, true));
    run := run + [Store(1, true)];
    RunSnoc(s, run, Tell(1, true));
    run := run + [Tell(1, true)];
  }

  lemma {:induction false} RunConcat(s: State, run: seq<Step>, more: seq<Step>)
    requires Legal(s, run) && Legal(Run(s, run), more)
    ensures Legal(s, run + more) && Run(s, run + more) == Run(Run(s, run), more)
    decreases |run|
  {
    if run == [] {
      assert run + more == more;
    } else {
      RunConcat(Apply(s, run[0]), run[1..], more);
      assert (run + more)[1..] == run[1..] + more;
    }
  }

  /** From a stored table, two callbacks that overlap announce one payment both failed and completed. */
  lemma OverlappingCallbacksDisagree() returns (s: State, run: seq<Step>)
    ensures PaymentFlow.Inv(s) && TableOk(s.payments) && C.Start(s, 0) && Legal(s, run)
    ensures Run(s, run).outcomes
         == [Published(Outcome(0, 1, false), ByCallback(0)), Published(Outcome(0, 1, true), ByCallback(1))]
  {
    s := Stored();
    assert s.payments[0].cause == 0 && HasRow(s, 0);
    var look := BothLookUp();
    var announce := BothAnnounce();
    RunConcat(s, look, announce);
    run := look + announce;
  }
}
