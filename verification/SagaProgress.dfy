/** The saga never gets stuck: calls can always be brought to an end, and stock messages into the inbox. */
module SagaProgress {
  import opened Saga
  import C = SagaControl
  import D = SagaDelivery
  import K = SagaConservation
  import L = StockLedger
  import P = Products

  lemma RunCons(s: State, step: Step, rest: seq<Step>)
    requires Enabled(s, step) && Legal(Apply(s, step), rest)
    ensures Legal(s, [step] + rest) && Run(s, [step] + rest) == Run(Apply(s, step), rest)
  {
    assert ([step] + rest)[1..] == rest;
  }

  /** The call has returned an error to its caller. */
  predicate Ended(s: State, a: nat) {
    a < |s.attempts| && s.attempts[a].phase.Rejected?
  }

  /** A step in which nothing is lost: no reply, no publish and no process. */
  predicate Lossless(step: Step) {
    !(step.Reserve? && step.reply.ReplyLost?) && !(step.Compensate? && !step.ok) && !step.Crash?
    && !(step.MarkFailed? && !step.ok)
  }

  predicate AllLossless(run: seq<Step>) {
    forall i :: 0 <= i < |run| ==> Lossless(run[i])
  }

  lemma MarkEnds(s: State, a: nat)
    requires C.Inv(s) && a < |s.attempts| && s.attempts[a].phase.MarkingFailed?
    ensures Enabled(s, MarkFailed(a, true)) && Ended(Apply(s, MarkFailed(a, true)), a)
  {
    assert C.AttemptOk(s.stock.lines, a, s.attempts[a]);
  }

  /** A compensation can always be carried through, publish by publish. */
  lemma {:induction false} CompensationCanEnd(s: State, a: nat, left: nat) returns (run: seq<Step>)
    requires C.Inv(s) && a < |s.attempts| && s.attempts[a].phase.Compensating?
    requires s.attempts[a].phase.upTo == s.attempts[a].phase.next + left
    ensures Legal(s, run) && Ended(Run(s, run), a) && AllLossless(run)
    decreases left
  {
    assert C.AttemptOk(s.stock.lines, a, s.attempts[a]);
    var step := Compensate(a, true);
    var s' := Apply(s, step);
    C.StepKeeps(s, step);
    var rest := [];
    if s'.attempts[a].phase.Compensating? {
      rest := CompensationCanEnd(s', a, left - 1);
    } else if s'.attempts[a].phase.MarkingFailed? {
      MarkEnds(s', a);
      RunCons(s', MarkFailed(a, true), []);
      rest := [MarkFailed(a, true)] + [];
    }
    RunCons(s, step, rest);
    run := [step] + rest;
  }

  /** The step by which a call that is not yet compensating fails without losing anything. */
  function Fail(s: State, a: nat): Step
    requires a < |s.attempts|
  {
    match s.attempts[a].phase
    case Reserving(_) => Reserve(a, Refused)
    case Persisting => Persist(a, false)
    case _ => Announce(a, false)
  }

  /** Wherever a call is, it can come to its end without losing anything, by failing from here on. */
  lemma CallCanEnd(s: State, a: nat) returns (run: seq<Step>)
    requires C.Inv(s) && a < |s.attempts| && InFlight(s.attempts[a].phase)
    ensures Legal(s, run) && Ended(Run(s, run), a) && AllLossless(run)
  {
    assert C.AttemptOk(s.stock.lines, a, s.attempts[a]);
    if s.attempts[a].phase.Compensating? {
      run := CompensationCanEnd(s, a, s.attempts[a].phase.upTo - s.attempts[a].phase.next);
    } else if s.attempts[a].phase.MarkingFailed? {
      MarkEnds(s, a);
      RunCons(s, MarkFailed(a, true), []);
      run := [MarkFailed(a, true)] + [];
    } else {
      var step := Fail(s, a);
      var s' := Apply(s, step);
      C.StepKeeps(s, step);
      var rest := [];
      if s'.attempts[a].phase.Compensating? {
        rest := CompensationCanEnd(s', a, s'.attempts[a].phase.upTo - s'.attempts[a].phase.next);
      }
      RunCons(s, step, rest);
      run := [step] + rest;
    }
  }

  lemma AnnounceAccepts(s: State, a: nat)
    requires C.Attempts(s) && a < |s.attempts| && s.attempts[a].phase.Announcing?
    ensures Legal(s, [Announce(a, true)])
    ensures var end := Run(s, [Announce(a, true)]);
      a < |end.attempts| && end.attempts[a].phase.Accepted? && end.stock == s.stock
  {
    assert C.AttemptOk(s.stock.lines, a, s.attempts[a]);
    RunCons(s, Announce(a, true), []);
    assert [Announce(a, true)] + [] == [Announce(a, true)];
  }

  /** A call that has everything reserved, no product twice, can come to acceptance. */
  lemma CallCanSucceed(s: State, a: nat) returns (run: seq<Step>)
    requires C.Inv(s) && a < |s.attempts| && Enabled(s, Persist(a, true))
    ensures Legal(s, run) && a < |Run(s, run).attempts| && Run(s, run).attempts[a].phase.Accepted?
    ensures Run(s, run).stock == s.stock
  {
    var s' := Apply(s, Persist(a, true));
    C.StepKeeps(s, Persist(a, true));
    AnnounceAccepts(s', a);
    RunCons(s, Persist(a, true), [Announce(a, true)]);
    run := [Persist(a, true)] + [Announce(a, true)];
  }

  /** Over every run without republishing, each stock message can still be brought into the inbox. */
  lemma MessageCanSettle(s: State, run: seq<Step>, m: nat) returns (more: seq<Step>)
    requires Initial(s) && Legal(s, run) && m < |Run(s, run).stock.messages|
    requires !K.EverRepublishes(s, run, Run(s, run).stock.messages[m].product)
    ensures Legal(Run(s, run), more) && m in Run(Run(s, run), more).stock.inbox
  {
    var end := Run(s, run);
    D.NeverLostNeverTwice(s, run, m);
    more := [];
    if m !in end.stock.inbox {
      C.InitialHolds(s);
      C.RunKeeps(s, run);
      K.RunSendsOnce(s, run, end.stock.messages[m].product);
      L.NoGenuineMessageRefused(end.stock, m);
      var s' := if m in end.unacked then end else Apply(end, Deliver(m));
      RunCons(s', Process(m), []);
      more := [Process(m)] + [];
      if m !in end.unacked {
        RunCons(end, Deliver(m), more);
        more := [Deliver(m)] + more;
      }
    }
  }

  /** A reservation can be refused, and granted, with or without its reply, exactly if the stock allows it. */
  lemma ReservationCanGo(s: State, a: nat)
    requires L.Shape(s.stock) && C.Attempts(s) && a < |s.attempts| && s.attempts[a].phase.Reserving?
    ensures Enabled(s, Reserve(a, Refused)) && Enabled(s, Crash(a))
    ensures var l := s.stock.lines[s.attempts[a].first + s.attempts[a].phase.next];
      var granted := l.product in s.stock.products && s.stock.products[l.product].isActive
        && l.quantity <= s.stock.products[l.product].totalStock - s.stock.products[l.product].reservedStock;
      (Enabled(s, Reserve(a, Granted)) <==> granted) && (Enabled(s, Reserve(a, ReplyLost)) <==> granted)
  {
    assert C.AttemptOk(s.stock.lines, a, s.attempts[a]);
    var l := s.stock.lines[Current(s.attempts[a])];
    assert L.LineOk(l, s.stock.products);
    P.StatementsStayInRange(s.stock.products, l.product, l.quantity);
  }

  /** Whatever else a call is about to do can go well or fail, and its process can die: the steps rule nothing out. */
  lemma AnythingCanHappen(s: State, a: nat)
    requires C.Attempts(s) && a < |s.attempts|
    ensures var at := s.attempts[a];
      && (InFlight(at.phase) ==> Enabled(s, Crash(a)))
      && (at.phase.Persisting? ==>
            && Enabled(s, Persist(a, false))
            && (Enabled(s, Persist(a, true)) <==> DistinctProducts(s.stock.lines[at.first..at.first + at.size])))
      && (at.phase.Announcing? ==> Enabled(s, Announce(a, true)) && Enabled(s, Announce(a, false)))
      && (at.phase.Compensating? ==> Enabled(s, Compensate(a, true)) && Enabled(s, Compensate(a, false)))
      && (at.phase.MarkingFailed? ==> Enabled(s, MarkFailed(a, true)) && Enabled(s, MarkFailed(a, false)))
      && (at.phase.Accepted? ==> Enabled(s, Receive(a, PaymentCompleted)) && Enabled(s, Receive(a, PaymentFailed)))
  {
    assert C.AttemptOk(s.stock.lines, a, s.attempts[a]);
  }

  /** A handler run can update, publish any item it has not published yet, and return or break off at any time. */
  lemma HandlerCanGoOn(s: State, h: nat, k: nat)
    requires C.Inv(s) && h < |s.handlers|
    ensures var hd := s.handlers[h];
      && hd.order < |s.attempts|
      && (hd.phase.Updating? ==> Enabled(s, UpdateStatus(h)))
      && (hd.phase.Sending? && k < s.attempts[hd.order].size && k !in hd.done ==> Enabled(s, Publish(h, k)))
      && (!hd.phase.Returned? ==> Enabled(s, Return(h)))
  {
    assert C.HandlerOk(s, s.handlers[h]);
    assert C.AttemptOk(s.stock.lines, s.handlers[h].order, s.attempts[s.handlers[h].order]);
  }

  /** The broker can deliver, redeliver and duplicate any message it has. */
  lemma BrokerCanMove(s: State, m: nat)
    requires D.Kept(s)
    ensures m in s.queued ==> Enabled(s, Deliver(m))
    ensures m in s.unacked ==> Enabled(s, Process(m)) && Enabled(s, Abort(m))
    ensures m in s.settled ==> Enabled(s, Ack(m)) && Enabled(s, Requeue(m))
    ensures m < |s.stock.messages| ==> Enabled(s, Duplicate(m))
  {
  }
}
