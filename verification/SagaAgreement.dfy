/** What the handlers publish, compared with the status the order is stored with. */
module SagaAgreement {
  import opened Basics
  import opened Saga
  import C = SagaControl
  import D = SagaDelivery
  import E = StockEvents
  import T = SagaStatus
  import X = SagaCounterexample

  /** Message `m` was sent by a payment-outcome handler for an item of order `a`. */
  predicate HandlerMessage(s: State, m: nat, a: nat) {
    && m < |s.stock.messages| && s.stock.messages[m].source.FromHandler?
    && s.stock.messages[m].line < |s.stock.lines| && s.stock.lines[s.stock.messages[m].line].owner == a
  }

  /** The status a stock message of this kind speaks for. */
  function StatusFor(kind: E.EventKind): Status {
    if kind.StockConfirm? then Confirmed else Cancelled
  }

  predicate Fits(s: State, m: nat, a: nat)
    requires m < |s.stock.messages|
  {
    a < |s.attempts| && s.attempts[a].row == Some(StatusFor(s.stock.messages[m].kind))
  }

  /** Every message the handlers have sent for the order fits its stored status. */
  predicate Agrees(s: State, a: nat) {
    forall m :: 0 <= m < |s.stock.messages| && HandlerMessage(s, m, a) ==> Fits(s, m, a)
  }

  /** A handler publishes for an order stored with the other outcome's status. */
  predicate Contradicts(s: State, step: Step, a: nat)
    requires Enabled(s, step)
  {
    && step.Publish? && s.handlers[step.h].order == a
    && s.attempts[a].row != Some(StatusOf(s.handlers[step.h].outcome))
  }

  predicate EverContradicts(s: State, run: seq<Step>, a: nat)
    requires Legal(s, run)
    decreases |run|
  {
    run != [] && (Contradicts(s, run[0], a) || EverContradicts(Apply(s, run[0]), run[1..], a))
  }

  // ------------------------------------------------------------------ steps

  /** Where handlers have sent something, the status is final. */
  lemma SentMeansFinal(s: State, m: nat, a: nat)
    requires T.Inv(s) && HandlerMessage(s, m, a)
    ensures a < |s.attempts| && T.Final(s.attempts[a].row)
  {
    assert T.Traced(s, s.stock.messages[m]);
    assert T.HandlerRow(s, s.handlers[s.stock.messages[m].source.handler]);
  }

  lemma OwnersStay(s: State, step: Step, i: nat)
    requires Enabled(s, step) && i < |s.stock.lines|
    ensures i < |Apply(s, step).stock.lines| && Apply(s, step).stock.lines[i].owner == s.stock.lines[i].owner
  {
  }

  /** An old message still belongs to the same order, and still fits its status or still does not. */
  lemma OldMessage(s: State, step: Step, m: nat, a: nat)
    requires T.Inv(s) && Enabled(s, step) && m < |s.stock.messages|
    requires s.stock.messages[m].source.FromHandler? ==> s.stock.messages[m].line < |s.stock.lines|
    ensures m < |Apply(s, step).stock.messages|
    ensures HandlerMessage(Apply(s, step), m, a) <==> HandlerMessage(s, m, a)
    ensures HandlerMessage(s, m, a) ==> (Fits(Apply(s, step), m, a) <==> Fits(s, m, a))
  {
    D.MessageStep(s, step, m);
    assert D.SameContent(s.stock.messages[m], Apply(s, step).stock.messages[m]);
    if s.stock.messages[m].line < |s.stock.lines| {
      OwnersStay(s, step, s.stock.messages[m].line);
    }
    if HandlerMessage(s, m, a) {
      SentMeansFinal(s, m, a);
      T.FrozenStep(s, step, a);
    }
  }

  /** The only new handler message is the one a handler publishes. */
  lemma NewMessage(s: State, step: Step, a: nat)
    requires C.Attempts(s) && T.Inv(s) && Enabled(s, step)
    ensures var s' := Apply(s, step); var n := |s.stock.messages|;
      && n <= |s'.stock.messages| <= n + 1
      && (|s'.stock.messages| == n + 1 ==>
            && (HandlerMessage(s', n, a) <==> step.Publish? && s.handlers[step.h].order == a)
            && (HandlerMessage(s', n, a) ==> (Fits(s', n, a) <==> !Contradicts(s, step, a))))
      && (step.Publish? ==> |s'.stock.messages| == n + 1)
  {
    if step.Publish? {
      var hd := s.handlers[step.h];
      assert C.AttemptOk(s.stock.lines, hd.order, s.attempts[hd.order]);
    }
  }

  lemma StepAgrees(s: State, step: Step, a: nat)
    requires C.Attempts(s) && T.Inv(s) && Enabled(s, step)
    ensures Agrees(Apply(s, step), a) <==> Agrees(s, a) && !Contradicts(s, step, a)
  {
    var s' := Apply(s, step);
    var n := |s.stock.messages|;
    NewMessage(s, step, a);
    forall m | 0 <= m < n
      ensures HandlerMessage(s', m, a) <==> HandlerMessage(s, m, a)
      ensures HandlerMessage(s, m, a) ==> (Fits(s', m, a) <==> Fits(s, m, a))
    {
      assert T.Traced(s, s.stock.messages[m]);
      OldMessage(s, step, m, a);
    }
    if Contradicts(s, step, a) {
      assert HandlerMessage(s', n, a) && !Fits(s', n, a);
    }
  }

  lemma {:induction false} RunAgrees(s: State, run: seq<Step>, a: nat)
    requires C.Inv(s) && T.Inv(s) && Legal(s, run)
    ensures Agrees(Run(s, run), a) <==> Agrees(s, a) && !EverContradicts(s, run, a)
    decreases |run|
  {
    if run != [] {
      StepAgrees(s, run[0], a);
      C.StepKeeps(s, run[0]);
      T.StepKeeps(s, run[0]);
      RunAgrees(Apply(s, run[0]), run[1..], a);
    }
  }

  // --------------------------------------------------------------- theorems

  /**
   Over every run, all the stock messages the handlers sent for an order fit the status it is stored with if
   and only if no handler ever published while the other outcome's status was stored.
   */
  lemma AgreesExactlyUnlessContradicted(s: State, run: seq<Step>, a: nat)
    requires Initial(s) && Legal(s, run)
    ensures Agrees(Run(s, run), a) <==> !EverContradicts(s, run, a)
  {
    C.InitialHolds(s);
    RunAgrees(s, run, a);
  }

  predicate OneKind(s: State, a: nat, o: Outcome) {
    forall h :: 0 <= h < |s.handlers| && s.handlers[h].order == a ==> s.handlers[h].outcome == o
  }

  lemma OneKindBefore(s: State, step: Step, a: nat, o: Outcome)
    requires Enabled(s, step) && OneKind(Apply(s, step), a, o)
    ensures OneKind(s, a, o)
  {
    forall h | 0 <= h < |s.handlers| && s.handlers[h].order == a ensures s.handlers[h].outcome == o {
      assert Apply(s, step).handlers[h].order == a;
    }
  }

  /** With one kind of outcome, whoever publishes finds that outcome's status. */
  lemma OneKindFits(s: State, step: Step, a: nat, o: Outcome)
    requires T.Inv(s) && Enabled(s, step) && OneKind(s, a, o)
    ensures !Contradicts(s, step, a)
  {
    if step.Publish? && s.handlers[step.h].order == a {
      assert T.HandlerRow(s, s.handlers[step.h]) && T.HasWinner(s, a);
    }
  }

  lemma {:induction false} OneKindRun(s: State, run: seq<Step>, a: nat, o: Outcome)
    requires C.Inv(s) && T.Inv(s) && Legal(s, run) && OneKind(Run(s, run), a, o)
    ensures OneKind(s, a, o) && !EverContradicts(s, run, a)
    decreases |run|
  {
    if run != [] {
      C.StepKeeps(s, run[0]);
      T.StepKeeps(s, run[0]);
      OneKindRun(Apply(s, run[0]), run[1..], a, o);
      OneKindBefore(s, run[0], a, o);
      OneKindFits(s, run[0], a, o);
    }
  }

  /**
   In particular: if an order only ever receives one kind of payment outcome, then over any number of
   redeliveries its status is pending or that outcome's, and every stock message a handler sends for it is of
   that outcome's kind and was sent with that status stored.
   */
  lemma OneOutcomeAgrees(s: State, run: seq<Step>, a: nat, o: Outcome)
    requires Initial(s) && Legal(s, run) && OneKind(Run(s, run), a, o)
    requires a < |Run(s, run).attempts| && Run(s, run).attempts[a].phase.Accepted?
    ensures var end := Run(s, run);
      && end.attempts[a].row in {Some(Pending), Some(StatusOf(o))}
      && Agrees(end, a)
      && forall m :: 0 <= m < |end.stock.messages| && HandlerMessage(end, m, a) ==> end.stock.messages[m].kind == KindOf(o)
  {
    C.InitialHolds(s);
    T.RunKeeps(s, run);
    OneKindRun(s, run, a, o);
    AgreesExactlyUnlessContradicted(s, run, a);
    var end := Run(s, run);
    assert T.RowOk(end.attempts[a]) && T.HasWinner(end, a);
    forall m | 0 <= m < |end.stock.messages| && HandlerMessage(end, m, a) ensures end.stock.messages[m].kind == KindOf(o) {
      assert Fits(end, m, a);
    }
  }

  /** payment.completed is delivered for an order that payment.failed has already cancelled. */
  lemma CompletedAfterFailed() returns (run: seq<Step>)
    ensures Legal(X.HandledOnce(), run)
    ensures var end := Run(X.HandledOnce(), run);
      && |end.attempts| == 1 && end.attempts[0].row == Some(Cancelled)
      && |end.stock.messages| == 2 && end.stock.messages[1].kind == E.StockConfirm
  {
    var once := X.HandledOnce();
    X.RunSnoc(once, [], Receive(0, PaymentCompleted));
    run := [] + [Receive(0, PaymentCompleted)];
    X.RunSnoc(once, run, UpdateStatus(1));
    run := run + [UpdateStatus(1)];
    X.RunSnoc(once, run, Publish(1, 0));
    run := run + [Publish(1, 0)];
  }

  /** With both outcomes delivered, a confirm message goes out for an order stored as cancelled. */
  lemma BothOutcomesDisagree() returns (s: State, run: seq<Step>)
    ensures Initial(s) && Legal(s, run)
    ensures var end := Run(s, run);
      && |end.attempts| == 1 && end.attempts[0].row == Some(Cancelled)
      && |end.stock.messages| == 2 && end.stock.messages[1].kind == E.StockConfirm
  {
    s := X.Start();
    var place := X.PlaceOrder();
    var handle := X.HandleOnce();
    var more := CompletedAfterFailed();
    X.RunConcat(s, place, handle);
    X.RunConcat(s, place + handle, more);
    run := place + handle + more;
  }
}
