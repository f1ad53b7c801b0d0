/** At-least-once delivery with an inbox: no stock message is lost, and none takes effect twice. */
module SagaDelivery {
  import opened Saga
  import C = SagaControl
  import E = StockEvents
  import L = StockLedger

  predicate Known(ms: multiset<nat>, n: nat) {
    forall m :: m in ms ==> m < n
  }

  predicate Kept(s: State) {
    && Known(s.queued, |s.stock.messages|)
    && Known(s.unacked, |s.stock.messages|)
    && (forall m :: m in s.settled ==> m in s.stock.inbox)
    && (forall m :: 0 <= m < |s.stock.messages| ==> m in s.stock.inbox || m in s.queued || m in s.unacked)
  }

  lemma ProcessKeeps(s: State, m: nat)
    requires Kept(s) && Enabled(s, Process(m))
    ensures Kept(Apply(s, Process(m)))
  {
    var s' := Apply(s, Process(m));
    forall x | 0 <= x < |s'.stock.messages| ensures x in s'.stock.inbox || x in s'.queued || x in s'.unacked {
      assert x in s.stock.inbox || x in s.queued || x in s.unacked;
    }
  }

  lemma UnackedMove(s: State, step: Step)
    requires Kept(s) && Enabled(s, step)
    requires step.Deliver? || step.Abort?
    ensures Kept(Apply(s, step))
  {
    var s' := Apply(s, step);
    forall x | 0 <= x < |s'.stock.messages| ensures x in s'.stock.inbox || x in s'.queued || x in s'.unacked {
      assert x in s.stock.inbox || x in s.queued || x in s.unacked;
    }
  }

  /** Moves between the broker's three bags. */
  lemma MoveKeeps(s: State, step: Step)
    requires Kept(s) && Enabled(s, step)
    requires step.Deliver? || step.Abort? || step.Ack? || step.Requeue? || step.Duplicate?
    requires forall i :: i in s.stock.inbox ==> i < |s.stock.messages|
    ensures Kept(Apply(s, step))
  {
    if step.Deliver? || step.Abort? {
      UnackedMove(s, step);
    } else {
      assert s.queued <= Apply(s, step).queued;
    }
  }

  lemma EnqueueKeeps(s: State, line: nat, kind: E.EventKind, source: L.Source)
    requires Kept(s) && line < |s.stock.lines|
    ensures Kept(Enqueue(s, line, kind, source))
  {
  }

  lemma StepKeeps(s: State, step: Step)
    requires L.Shape(s.stock) && Kept(s) && Enabled(s, step)
    ensures Kept(Apply(s, step))
  {
    if step.Compensate? {
      if step.ok {
        EnqueueKeeps(s, Current(s.attempts[step.a]), E.StockRelease, L.FromCompensation);
      }
    } else if step.Publish? {
      var hd := s.handlers[step.h];
      EnqueueKeeps(s, s.attempts[hd.order].first + step.item, KindOf(hd.outcome), L.FromHandler(step.h));
    } else if step.Process? {
      ProcessKeeps(s, step.m);
    } else if step.Deliver? || step.Abort? || step.Ack? || step.Requeue? || step.Duplicate? {
      MoveKeeps(s, step);
    }
  }

  lemma {:induction false} RunKeeps(s: State, run: seq<Step>)
    requires C.Inv(s) && Kept(s) && Legal(s, run)
    ensures Kept(Run(s, run))
    decreases |run|
  {
    if run != [] {
      StepKeeps(s, run[0]);
      C.StepKeeps(s, run[0]);
      RunKeeps(Apply(s, run[0]), run[1..]);
    }
  }

  /**
   At every moment of every run, a crash between commit and ack included, each message ever enqueued
   is either waiting with the broker, with no effect so far, or its event id is in the inbox and its
   effect was committed exactly once.
   */
  lemma NeverLostNeverTwice(s: State, run: seq<Step>, m: nat)
    requires Initial(s) && Legal(s, run) && m < |Run(s, run).stock.messages|
    ensures var end := Run(s, run);
      if m in end.stock.inbox then end.stock.messages[m].applied == 1
      else end.stock.messages[m].applied == 0 && (m in end.queued || m in end.unacked)
  {
    C.InitialHolds(s);
    C.RunKeeps(s, run);
    RunKeeps(s, run);
    assert L.MessageOk(Run(s, run).stock, m);
  }

  /** Processing a delivery does to the product database exactly what the consumer's transaction does. */
  lemma ProcessIsTheConsumer(s: State, m: nat)
    requires Enabled(s, Process(m))
    ensures var k, k' := s.stock, Apply(s, Process(m)).stock;
      && E.Db(k'.products, k'.inbox) == E.Deliver(E.Db(k.products, k.inbox), L.EventOf(k, m))
      && (m in Apply(s, Process(m)).queued - s.queued
          <==> E.Transact(E.Db(k.products, k.inbox), L.EventOf(k, m)).Err?)
  {
  }

  predicate SameContent(x: L.Message, y: L.Message) {
    x.(applied := 0) == y.(applied := 0)
  }

  lemma MessageStep(s: State, step: Step, m: nat)
    requires Enabled(s, step) && m < |s.stock.messages|
    ensures m < |Apply(s, step).stock.messages|
    ensures SameContent(s.stock.messages[m], Apply(s, step).stock.messages[m])
    ensures m in s.stock.inbox ==> m in Apply(s, step).stock.inbox
  {
  }

  /** A message, once enqueued, keeps its id and its content, and its effect is never undone. */
  lemma {:induction false} MessagesAreStable(s: State, run: seq<Step>, m: nat)
    requires Legal(s, run) && m < |s.stock.messages|
    ensures m < |Run(s, run).stock.messages|
    ensures SameContent(s.stock.messages[m], Run(s, run).stock.messages[m])
    ensures m in s.stock.inbox ==> m in Run(s, run).stock.inbox
    decreases |run|
  {
    if run != [] {
      MessageStep(s, run[0], m);
      MessagesAreStable(Apply(s, run[0]), run[1..], m);
    }
  }
}
