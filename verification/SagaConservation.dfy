/** Conservation of stock over every run of the saga. */
module SagaConservation {
  import opened Basics
  import opened Sums
  import opened Saga
  import C = SagaControl
  import E = StockEvents
  import L = StockLedger
  import P = Products

  /**
   The ledger, with no assumption on redelivery, failure or crash: in every run the two stock columns
   of every product are what the successful reservations and the applied messages add up to, they stay
   within 0 <= reserved <= total <= 2^31 - 1, and each message took effect at most once.
   */
  lemma LedgerOverEveryRun(s: State, run: seq<Step>, p: Id)
    requires Initial(s) && Legal(s, run) && p in Run(s, run).stock.products
    ensures var k := Run(s, run).stock;
      && p in k.base
      && k.products[p].reservedStock == k.base[p].reservedStock + L.Held(k, p) - L.Released(k, p) - L.Confirmed(k, p)
      && k.products[p].totalStock == k.base[p].totalStock - L.Confirmed(k, p)
      && 0 <= k.products[p].reservedStock <= k.products[p].totalStock <= MAX_INT32
      && (forall i :: 0 <= i < |k.messages| ==> k.messages[i].applied == (if i in k.inbox then 1 else 0))
  {
    C.InitialHolds(s);
    C.RunKeeps(s, run);
    var k := Run(s, run).stock;
    assert L.Balanced(k, p) && P.RowOk(k.products[p]);
    forall i | 0 <= i < |k.messages| ensures k.messages[i].applied == (if i in k.inbox then 1 else 0) {
      assert L.MessageOk(k, i);
    }
  }

  // ------------------------------------------------ exactly when it conserves

  /** The handler publishes for an item of product `p` that already has a stock message. */
  predicate Republishes(s: State, step: Step, p: Id)
    requires Enabled(s, step)
  {
    && step.Publish?
    && var h := s.handlers[step.h];
       var l := s.stock.lines[s.attempts[h.order].first + step.item];
       l.product == p && l.sent > 0
  }

  predicate EverRepublishes(s: State, run: seq<Step>, p: Id)
    requires Legal(s, run)
    decreases |run|
  {
    run != [] && (Republishes(s, run[0], p) || EverRepublishes(Apply(s, run[0]), run[1..], p))
  }

  lemma SendOnce(k: L.Stock, i: nat, kind: E.EventKind, source: L.Source, p: Id)
    requires i < |k.lines|
    ensures L.SentAtMostOnce(L.Send(k, i, kind, source), p)
       <==> L.SentAtMostOnce(k, p) && !(k.lines[i].product == p && k.lines[i].sent > 0)
  {
    var k' := L.Send(k, i, kind, source);
    assert k'.lines[i].sent == k.lines[i].sent + 1 && k'.lines[i].product == k.lines[i].product;
    assert forall j :: 0 <= j < |k.lines| && j != i ==> k'.lines[j] == k.lines[j];
    if L.SentAtMostOnce(k', p) {
      forall j | 0 <= j < |k.lines| && k.lines[j].product == p ensures k.lines[j].sent <= 1 {
        assert k'.lines[j].product == p;
      }
    }
  }

  lemma SameCounts(k: L.Stock, k': L.Stock, p: Id)
    requires |k'.lines| == |k.lines|
    requires forall i :: 0 <= i < |k.lines| ==>
               k'.lines[i].product == k.lines[i].product && k'.lines[i].sent == k.lines[i].sent
    ensures L.SentAtMostOnce(k', p) <==> L.SentAtMostOnce(k, p)
  {
  }

  lemma MoreLinesSendOnce(k: L.Stock, more: seq<L.Line>, p: Id)
    requires forall i :: 0 <= i < |more| ==> more[i].sent == 0
    ensures L.SentAtMostOnce(L.AddLines(k, more), p) <==> L.SentAtMostOnce(k, p)
  {
    var k' := L.AddLines(k, more);
    assert forall i :: 0 <= i < |k.lines| ==> k'.lines[i] == k.lines[i];
  }

  lemma QuietSteps(s: State, step: Step, p: Id)
    requires Enabled(s, step) && !step.Begin? && !step.Compensate? && !step.Publish?
    ensures L.SentAtMostOnce(Apply(s, step).stock, p) <==> L.SentAtMostOnce(s.stock, p)
  {
    SameCounts(s.stock, Apply(s, step).stock, p);
  }

  /** The only step that can message an item twice is a handler running over an item already messaged. */
  lemma StepSendsOnce(s: State, step: Step, p: Id)
    requires C.Attempts(s) && Enabled(s, step)
    ensures L.SentAtMostOnce(Apply(s, step).stock, p) <==> L.SentAtMostOnce(s.stock, p) && !Republishes(s, step, p)
  {
    var k := s.stock;
    match step {
      case Begin(items) => MoreLinesSendOnce(k, NewLines(|s.attempts|, items), p);
      case Compensate(a, ok) =>
        assert C.AttemptOk(k.lines, a, s.attempts[a]);
        if ok { SendOnce(k, Current(s.attempts[a]), E.StockRelease, L.FromCompensation, p); }
      case Publish(h, item) =>
        var hd := s.handlers[h];
        SendOnce(k, s.attempts[hd.order].first + item, KindOf(hd.outcome), L.FromHandler(h), p);
      case _ => QuietSteps(s, step, p);
    }
  }

  lemma {:induction false} RunSendsOnce(s: State, run: seq<Step>, p: Id)
    requires C.Inv(s) && Legal(s, run)
    ensures L.SentAtMostOnce(Run(s, run).stock, p) <==> L.SentAtMostOnce(s.stock, p) && !EverRepublishes(s, run, p)
    decreases |run|
  {
    if run != [] {
      StepSendsOnce(s, run[0], p);
      C.StepKeeps(s, run[0]);
      RunSendsOnce(Apply(s, run[0]), run[1..], p);
    }
  }

  /**
   Saga conservation.  In every run, reserved stock plus the quantity messaged in excess is the
   initial reservation plus the open holds plus the messages not yet applied.  So reserved stock
   covers every open hold and every message in flight if and only if no handler run ever published
   for an item of that product that already had a message.
   */
  lemma ConservationOverEveryRun(s: State, run: seq<Step>, p: Id)
    requires Initial(s) && Legal(s, run) && p in Run(s, run).stock.products
    ensures var k := Run(s, run).stock;
      && p in k.base
      && k.products[p].reservedStock + L.Excess(k, p)
         == k.base[p].reservedStock + L.Open(k, p) + L.Waiting(k, p)
      && (k.products[p].reservedStock >= k.base[p].reservedStock + L.Open(k, p) + L.Waiting(k, p)
          <==> !EverRepublishes(s, run, p))
  {
    C.InitialHolds(s);
    C.RunKeeps(s, run);
    var k := Run(s, run).stock;
    L.Conservation(k, p);
    L.ExactlyWhenSentOnce(k, p);
    RunSendsOnce(s, run, p);
  }

  /** In such a run no release or confirm message is ever refused: processing it takes effect. */
  lemma NoMessageRefused(s: State, run: seq<Step>, m: nat)
    requires Initial(s) && Legal(s, run) && Enabled(Run(s, run), Process(m))
    requires !EverRepublishes(s, run, Run(s, run).stock.messages[m].product)
    ensures m in Apply(Run(s, run), Process(m)).stock.inbox
    ensures m in Apply(Run(s, run), Process(m)).settled
  {
    C.InitialHolds(s);
    C.RunKeeps(s, run);
    var end := Run(s, run);
    RunSendsOnce(s, run, end.stock.messages[m].product);
    if m !in end.stock.inbox {
      L.NoGenuineMessageRefused(end.stock, m);
    }
  }

  // ------------------------------------- in terms of deliveries of an outcome

  /** No two deliveries for one order both published its item number `k`. */
  predicate PassedOnce(s: State, a: nat, k: nat) {
    forall g, h :: 0 <= g < h < |s.handlers| ==>
      C.Passed(a, k)(s.handlers[g]) == 0 || C.Passed(a, k)(s.handlers[h]) == 0
  }

  /** An item of an accepted order is messaged at most once exactly when at most one delivery got past it. */
  lemma SentOncePerDelivery(s: State, a: nat, k: nat)
    requires C.Inv(s) && a < |s.attempts| && k < s.attempts[a].size && s.attempts[a].phase.Accepted?
    ensures s.attempts[a].first + k < |s.stock.lines|
    ensures s.stock.lines[s.attempts[a].first + k].sent <= 1 <==> PassedOnce(s, a, k)
  {
    assert C.AttemptOk(s.stock.lines, a, s.attempts[a]) && C.SentByHandlers(s, a, k);
    if PassedOnce(s, a, k) {
      SumAtMostOne(s.handlers, C.Passed(a, k));
    } else {
      var g, h :| 0 <= g < h < |s.handlers| && C.Passed(a, k)(s.handlers[g]) != 0 && C.Passed(a, k)(s.handlers[h]) != 0;
      SumTwoParts(s.handlers, g, h, C.Passed(a, k));
    }
  }

  /**
   If for every order at most one delivery of its outcome gets as far as publishing, then reserved
   stock covers every open hold and every message in flight, for every product.
   */
  lemma OneDeliveryConserves(s: State, run: seq<Step>, p: Id)
    requires Initial(s) && Legal(s, run) && p in Run(s, run).stock.products
    requires var hs := Run(s, run).handlers;
             forall g, h :: 0 <= g < h < |hs| && hs[g].done != {} && hs[h].done != {} ==> hs[g].order != hs[h].order
    ensures var k := Run(s, run).stock;
            p in k.base && k.products[p].reservedStock == k.base[p].reservedStock + L.Open(k, p) + L.Waiting(k, p)
  {
    ConservationOverEveryRun(s, run, p);
    C.InitialHolds(s);
    C.RunKeeps(s, run);
    var end := Run(s, run);
    forall i | 0 <= i < |end.stock.lines| ensures end.stock.lines[i].sent <= 1 {
      assert C.Owned(end, i);
      var a := end.stock.lines[i].owner;
      assert C.AttemptOk(end.stock.lines, a, end.attempts[a]);
      if end.attempts[a].phase.Accepted? {
        SentOncePerDelivery(end, a, i - end.attempts[a].first);
      }
    }
    SumZero(end.stock.lines, L.ExcessQty(p));
  }

  // ----------------------------------------------- who owns the open holds

  function OpenIn(attempts: seq<Attempt>, p: Id, here: Phase -> bool): L.Line -> int {
    (l: L.Line) => if l.owner < |attempts| && here(attempts[l.owner].phase) then L.OpenQty(p)(l) else 0
  }

  function HeldInFlight(s: State, p: Id): int { Sum(s.stock.lines, OpenIn(s.attempts, p, InFlight)) }

  /** Held by an order whose outcome has not been acted on. */
  function HeldByOrders(s: State, p: Id): int {
    Sum(s.stock.lines, OpenIn(s.attempts, p, (x: Phase) => x.Accepted?))
  }

  /** Left behind: a reply or a compensation message was lost, or the process died. */
  function Stranded(s: State, p: Id): int {
    Sum(s.stock.lines, OpenIn(s.attempts, p, (x: Phase) => !InFlight(x) && !x.Accepted?))
  }

  /** The open holds are those of calls in progress, of orders awaiting their outcome, and the stranded ones. */
  lemma OpenHoldsSplit(s: State, p: Id)
    requires C.Inv(s)
    ensures L.Open(s.stock, p) == HeldInFlight(s, p) + HeldByOrders(s, p) + Stranded(s, p)
  {
    var live := OpenIn(s.attempts, p, InFlight);
    var placed := OpenIn(s.attempts, p, (x: Phase) => x.Accepted?);
    var lost := OpenIn(s.attempts, p, (x: Phase) => !InFlight(x) && !x.Accepted?);
    var settled := (l: L.Line) => placed(l) + lost(l);
    SumLinear(s.stock.lines, placed, 1, lost, settled);
    forall i | 0 <= i < |s.stock.lines|
      ensures L.OpenQty(p)(s.stock.lines[i]) == live(s.stock.lines[i]) + settled(s.stock.lines[i])
    {
      assert C.Owned(s, i);
    }
    SumLinear(s.stock.lines, live, 1, settled, L.OpenQty(p));
    assert HeldByOrders(s, p) == Sum(s.stock.lines, placed);
    assert Stranded(s, p) == Sum(s.stock.lines, lost);
  }
}
