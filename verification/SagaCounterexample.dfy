/** A concrete run in which a redelivered payment outcome gives away stock that others had reserved. */
module SagaCounterexample {
  import opened Basics
  import opened Saga
  import E = StockEvents
  import L = StockLedger
  import P = Products

  lemma {:induction false} RunSnoc(s: State, run: seq<Step>, step: Step)
    requires Legal(s, run) && Enabled(Run(s, run), step)
    ensures Legal(s, run + [step]) && Run(s, run + [step]) == Apply(Run(s, run), step)
    decreases |run|
  {
    if run == [] {
      assert [step][1..] == [];
    } else {
      RunSnoc(Apply(s, run[0]), run[1..], step);
      assert (run + [step])[1..] == run[1..] + [step];
    }
  }

  lemma {:induction false} RunConcat(s: State, run: seq<Step>, more: seq<Step>)
    requires Legal(s, run) && Legal(Run(s, run), more)
    ensures Legal(s, run + more) && Run(s, run + more) == Run(Run(s, run), more)
    decreases |more|
  {
    if more == [] {
      assert run + more == run;
    } else {
      RunSnoc(s, run, more[0]);
      RunConcat(s, run + [more[0]], more[1..]);
      assert run + [more[0]] + more[1..] == run + more;
    }
  }

  function Row(reserved: nat): P.Product {
    P.Product(1, P.Details("book", "", "books", 500), 2, reserved, true)
  }

  /** Two copies in stock, one of them reserved by somebody else. */
  function Start(): State {
    State(L.Stock(map[1 := Row(1)], map[1 := Row(1)], [], [], {}), [], [], multiset{}, multiset{}, multiset{})
  }

  /** One order for one copy has been placed and announced. */
  function Placed(): State {
    State(L.Stock(map[1 := Row(2)], map[1 := Row(1)], [L.Line(0, 1, 1, true, 0)], [], {}),
          [Attempt(0, 1, Accepted, Some(Pending), 0)], [], multiset{}, multiset{}, multiset{})
  }

  function Sent(h: nat): L.Message { L.Message(E.StockRelease, 1, 1, 0, L.FromHandler(h), 0) }

  /** payment.failed was delivered twice, and each delivery ran the publishing loop. */
  function HandledTwice(): State {
    State(L.Stock(map[1 := Row(2)], map[1 := Row(1)], [L.Line(0, 1, 1, true, 2)], [Sent(0), Sent(1)], {}),
          [Attempt(0, 1, Accepted, Some(Cancelled), 1)],
          [Handler(0, PaymentFailed, Sending, {0}), Handler(0, PaymentFailed, Sending, {0})],
          multiset{0, 1}, multiset{}, multiset{})
  }

  lemma PlaceOrder() returns (run: seq<Step>)
    ensures Legal(Start(), run) && Run(Start(), run) == Placed()
  {
    run := [];
    RunSnoc(Start(), run, Begin([Item(1, 1)]));
    run := run + [Begin([Item(1, 1)])];
    assert Run(Start(), run).stock.lines == [L.Line(0, 1, 1, false, 0)];
    RunSnoc(Start(), run, Reserve(0, Granted));
    run := run + [Reserve(0, Granted)];
    assert Run(Start(), run).stock.products == map[1 := Row(2)];
    RunSnoc(Start(), run, Persist(0, true));
    run := run + [Persist(0, true)];
    RunSnoc(Start(), run, Announce(0, true));
    run := run + [Announce(0, true)];
  }

  /** The first delivery of payment.failed has run. */
  function HandledOnce(): State {
    State(L.Stock(map[1 := Row(2)], map[1 := Row(1)], [L.Line(0, 1, 1, true, 1)], [Sent(0)], {}),
          [Attempt(0, 1, Accepted, Some(Cancelled), 1)], [Handler(0, PaymentFailed, Sending, {0})],
          multiset{0}, multiset{}, multiset{})
  }

  lemma HandleOnce() returns (run: seq<Step>)
    ensures Legal(Placed(), run) && Run(Placed(), run) == HandledOnce()
  {
    run := [];
    RunSnoc(Placed(), run, Receive(0, PaymentFailed));
    run := run + [Receive(0, PaymentFailed)];
    RunSnoc(Placed(), run, UpdateStatus(0));
    run := run + [UpdateStatus(0)];
    RunSnoc(Placed(), run, Publish(0, 0));
    run := run + [Publish(0, 0)];
    assert Run(Placed(), run).stock.messages == [Sent(0)];
    assert Run(Placed(), run).handlers[0].done == {} + {0} == {0};
  }

  lemma HandleAgain() returns (run: seq<Step>)
    ensures Legal(HandledOnce(), run) && Run(HandledOnce(), run) == HandledTwice()
  {
    run := [];
    RunSnoc(HandledOnce(), run, Receive(0, PaymentFailed));
    run := run + [Receive(0, PaymentFailed)];
    RunSnoc(HandledOnce(), run, UpdateStatus(1));
    run := run + [UpdateStatus(1)];
    RunSnoc(HandledOnce(), run, Publish(1, 0));
    run := run + [Publish(1, 0)];
    assert Run(HandledOnce(), run).stock.messages == [Sent(0), Sent(1)];
    assert Run(HandledOnce(), run).handlers[1].done == {} + {0} == {0};
  }

  /** A stock message is delivered and its transaction commits. */
  lemma DeliverAndApply(s: State, m: nat) returns (run: seq<Step>)
    requires m in s.queued && m < |s.stock.messages| && m !in s.stock.inbox && L.Statement(s.stock, m).Ok?
    ensures Legal(s, run)
    ensures Run(s, run) == s.(stock := L.Commit(s.stock, m), queued := s.queued - multiset{m},
                              settled := s.settled + multiset{m})
  {
    RunSnoc(s, [], Deliver(m));
    RunSnoc(s, [Deliver(m)], Process(m));
    run := [Deliver(m), Process(m)];
    assert run == [Deliver(m)] + [Process(m)];
    assert s.unacked + multiset{m} - multiset{m} == s.unacked;
  }

  lemma ApplyBoth() returns (run: seq<Step>)
    ensures Legal(HandledTwice(), run) && Run(HandledTwice(), run).stock.products == map[1 := Row(0)]
    ensures Run(HandledTwice(), run).stock.base == map[1 := Row(1)]
  {
    var s := HandledTwice();
    var first := DeliverAndApply(s, 0);
    var s1 := Run(s, first);
    assert s1.stock.products == map[1 := Row(1)];
    var second := DeliverAndApply(s1, 1);
    RunConcat(s, first, second);
    run := first + second;
    assert Run(s, run).stock.products == map[1 := Row(0)];
  }

  /**
   Conservation is not unconditional: after two deliveries of one payment.failed, the shop has no
   reserved copy left although the copy reserved before this order was never released.
   */
  lemma RedeliveryGivesAwayStock() returns (s: State, run: seq<Step>)
    ensures Initial(s) && Legal(s, run)
    ensures 1 in Run(s, run).stock.products && 1 in Run(s, run).stock.base
    ensures Run(s, run).stock.products[1].reservedStock == 0 < Run(s, run).stock.base[1].reservedStock
  {
    s := Start();
    var place := PlaceOrder();
    var handle := HandleOnce();
    var again := HandleAgain();
    var settle := ApplyBoth();
    RunConcat(s, place, handle);
    RunConcat(s, place + handle, again);
    RunConcat(s, place + handle + again, settle);
    run := place + handle + again + settle;
  }
}
