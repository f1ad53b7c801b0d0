/**
 The order/payment/stock saga as one transition system.

 A state holds the stock side (`StockLedger.Stock`), every CreateOrder call ever started, every
 run of a payment-outcome handler, and the broker's view of the stock messages.  A step is one
 statement, RPC, publish or broker action; which one happens next, and every outcome the code
 cannot control, is chosen freely by the step's label.
 */
module Saga {
  import opened Basics
  import E = StockEvents
  import L = StockLedger
  import P = Products

  datatype Item = Item(product: Id, quantity: int)

  datatype Status = Pending | Confirmed | Cancelled | Failed

  /** Where one CreateOrder call stands. */
  datatype Phase =
    | Reserving(next: nat)                              // reserveItems, about to reserve item `next`
    | Persisting                                        // about to run orderRepo.Create
    | Announcing                                        // about to publish order.created
    | Compensating(next: nat, upTo: nat, placed: bool)  // compensateReservations over items[..upTo]
    | MarkingFailed                                     // about to run UpdateStatus(failed)
    | Accepted                                          // order.created is out
    | Rejected                                          // returned an error
    | Abandoned                                         // the process died

  datatype Attempt = Attempt(
    first: nat, size: nat,    // its items are stock.lines[first..first + size]
    phase: Phase,
    row: Option<Status>,      // the status column of its orders row, once there is one
    wins: nat)                // how many UpdateStatus calls on it reported success

  datatype Outcome = PaymentCompleted | PaymentFailed

  datatype HandlerPhase = Updating | Sending | Returned

  /**
   One run of handlePaymentSucceeded / handlePaymentFailed: one delivery of an outcome message.  `done` are
   the items it has published.  The items of an order share their created_at, by which they are read back,
   so each run may come to them in an order of its own.
   */
  datatype Handler = Handler(order: nat, outcome: Outcome, phase: HandlerPhase, done: set<nat>)

  datatype State = State(
    stock: L.Stock,
    attempts: seq<Attempt>,
    handlers: seq<Handler>,
    queued: multiset<nat>,     // stock messages ready for delivery
    unacked: multiset<nat>,    // delivered, handler not finished
    settled: multiset<nat>)    // handler returned nil, ack not yet received by the broker

  datatype Reply = Granted | Refused | ReplyLost

  datatype Step =
    // CreateOrder
    | Begin(items: seq<Item>)
    | Reserve(a: nat, reply: Reply)
    | Persist(a: nat, ok: bool)
    | Announce(a: nat, ok: bool)
    | Compensate(a: nat, ok: bool)
    | MarkFailed(a: nat, ok: bool)
    | Crash(a: nat)
    // payment-outcome handlers
    | Receive(order: nat, outcome: Outcome)
    | UpdateStatus(h: nat)
    | Publish(h: nat, item: nat)
    | Return(h: nat)
    // stock consumers and broker
    | Deliver(m: nat)
    | Process(m: nat)
    | Abort(m: nat)
    | Ack(m: nat)
    | Requeue(m: nat)
    | Duplicate(m: nat)
    // administration of products
    | CreateProduct(row: P.Product)
    | EditProduct(row: P.Product)

  function StatusOf(o: Outcome): Status {
    if o.PaymentCompleted? then Confirmed else Cancelled
  }

  function KindOf(o: Outcome): E.EventKind {
    if o.PaymentCompleted? then E.StockConfirm else E.StockRelease
  }

  predicate InFlight(p: Phase) {
    p.Reserving? || p.Persisting? || p.Announcing? || p.Compensating? || p.MarkingFailed?
  }

  // ------------------------------------------------------------------ steps

  function NewLines(owner: nat, items: seq<Item>): seq<L.Line> {
    seq(|items|, i requires 0 <= i < |items| => L.Line(owner, items[i].product, items[i].quantity, false, 0))
  }

  /** The line an attempt in phase Reserving or Compensating is working on. */
  function Current(at: Attempt): nat
    requires at.phase.Reserving? || at.phase.Compensating?
  {
    at.first + at.phase.next
  }

  /** compensateReservations returns at once for an empty list. */
  function StartCompensation(upTo: nat, placed: bool): Phase {
    if upTo == 0 then Rejected else Compensating(0, upTo, placed)
  }

  function AfterCompensation(placed: bool): Phase {
    if placed then MarkingFailed else Rejected
  }

  function SetAttempt(s: State, a: nat, at: Attempt): State
    requires a < |s.attempts|
  {
    s.(attempts := s.attempts[a := at])
  }

  /** orderRepo.UpdateStatus: a guarded UPDATE that only leaves `pending`. */
  function Transition(at: Attempt, next: Status): Attempt {
    if at.row == Some(Pending) then at.(row := Some(next), wins := at.wins + 1) else at
  }

  /** Publishing enqueues the message under a fresh event id. */
  function Enqueue(s: State, line: nat, kind: E.EventKind, source: L.Source): State
    requires line < |s.stock.lines|
  {
    s.(stock := L.Send(s.stock, line, kind, source), queued := s.queued + multiset{|s.stock.messages|})
  }

  predicate DistinctProducts(lines: seq<L.Line>) {
    forall i, j :: 0 <= i < j < |lines| ==> lines[i].product != lines[j].product
  }

  predicate Busy(s: State, a: nat) {
    a < |s.attempts| && s.attempts[a].first + s.attempts[a].size <= |s.stock.lines|
  }

  predicate Enabled(s: State, step: Step) {
    match step
    case Begin(items) =>
      // buildOrderItems rejects an empty list and non-positive quantities
      |items| > 0 && forall i :: 0 <= i < |items| ==> 0 < items[i].quantity <= MAX_INT32
    case Reserve(a, reply) =>
      && Busy(s, a) && s.attempts[a].phase.Reserving? && s.attempts[a].phase.next < s.attempts[a].size
      && (reply.Refused? ||
          var l := s.stock.lines[Current(s.attempts[a])];
          P.Reserve(s.stock.products, l.product, l.quantity).Ok?)
    case Persist(a, ok) =>
      && Busy(s, a) && s.attempts[a].phase.Persisting?
      && (ok ==> DistinctProducts(s.stock.lines[s.attempts[a].first..s.attempts[a].first + s.attempts[a].size]))
    case Announce(a, ok) => Busy(s, a) && s.attempts[a].phase.Announcing?
    case Compensate(a, ok) =>
      Busy(s, a) && s.attempts[a].phase.Compensating? && s.attempts[a].phase.next < s.attempts[a].size
    case MarkFailed(a, ok) => Busy(s, a) && s.attempts[a].phase.MarkingFailed?
    case Crash(a) => Busy(s, a) && InFlight(s.attempts[a].phase)
    // an outcome exists only for an order whose order.created went out
    case Receive(order, outcome) => Busy(s, order) && s.attempts[order].phase.Accepted?
    case UpdateStatus(h) => h < |s.handlers| && s.handlers[h].phase.Updating? && Busy(s, s.handlers[h].order)
    case Publish(h, k) =>
      && h < |s.handlers| && s.handlers[h].phase.Sending? && Busy(s, s.handlers[h].order)
      && k < s.attempts[s.handlers[h].order].size && k !in s.handlers[h].done
    case Return(h) => h < |s.handlers| && !s.handlers[h].phase.Returned?
    case Deliver(m) => m in s.queued
    case Process(m) => m in s.unacked && m < |s.stock.messages|
    case Abort(m) => m in s.unacked
    case Ack(m) => m in s.settled
    case Requeue(m) => m in s.settled
    case Duplicate(m) => m < |s.stock.messages|
    case CreateProduct(row) => 
      row.id != NIL && row.id !in s.stock.products && P.RowOk(row) && row.reservedStock == 0
    case EditProduct(row) => P.UpdateDetails(s.stock.products, row).Ok?
  }

  function Apply(s: State, step: Step): State
    requires Enabled(s, step)
  {
    match step
    case Begin(items) =>
      s.(stock := L.AddLines(s.stock, NewLines(|s.attempts|, items)),
         attempts := s.attempts + [Attempt(|s.stock.lines|, |items|, Reserving(0), None, 0)])
    case Reserve(a, reply) =>
      var at := s.attempts[a];
      var k := at.phase.next;
      if reply.Refused? then
        SetAttempt(s, a, at.(phase := StartCompensation(k, false)))
      else
        // ReplyLost: the statement committed but the caller got an error, so it compensates items[..k] only
        var phase := if reply.ReplyLost? then StartCompensation(k, false)
                     else if k + 1 == at.size then Persisting else Reserving(k + 1);
        SetAttempt(s.(stock := L.Hold(s.stock, Current(at))), a, at.(phase := phase))
    case Persist(a, ok) =>
      var at := s.attempts[a];
      SetAttempt(s, a, if ok then at.(phase := Announcing, row := Some(Pending))
                       else at.(phase := StartCompensation(at.size, false)))
    case Announce(a, ok) =>
      var at := s.attempts[a];
      SetAttempt(s, a, at.(phase := if ok then Accepted else StartCompensation(at.size, true)))
    case Compensate(a, ok) =>
      var at := s.attempts[a];
      // a failed publish is logged and the loop goes on
      var s1 := if ok then Enqueue(s, Current(at), E.StockRelease, L.FromCompensation) else s;
      var j := at.phase.next + 1;
      SetAttempt(s1, a, at.(phase := if j == at.phase.upTo then AfterCompensation(at.phase.placed)
                                     else Compensating(j, at.phase.upTo, at.phase.placed)))
    case MarkFailed(a, ok) =>
      var at := s.attempts[a];
      SetAttempt(s, a, (if ok then Transition(at, Failed) else at).(phase := Rejected))
    case Crash(a) =>
      SetAttempt(s, a, s.attempts[a].(phase := Abandoned))
    case Receive(order, outcome) =>
      s.(handlers := s.handlers + [Handler(order, outcome, Updating, {})])
    case UpdateStatus(h) =>
      // "already exists" is logged and the handler carries on
      var hd := s.handlers[h];
      SetAttempt(s, hd.order, Transition(s.attempts[hd.order], StatusOf(hd.outcome)))
      .(handlers := s.handlers[h := hd.(phase := Sending)])
    case Publish(h, k) =>
      var hd := s.handlers[h];
      Enqueue(s, s.attempts[hd.order].first + k, KindOf(hd.outcome), L.FromHandler(h))
      .(handlers := s.handlers[h := hd.(done := hd.done + {k})])
    case Return(h) =>
      // all items done, a database or publish error, or a crash: the delivery ends and may be redelivered (Receive)
      s.(handlers := s.handlers[h := s.handlers[h].(phase := Returned)])
    case Deliver(m) =>
      s.(queued := s.queued - multiset{m}, unacked := s.unacked + multiset{m})
    case Process(m) =>
      var rest := s.(unacked := s.unacked - multiset{m});
      if m in s.stock.inbox then
        rest.(settled := s.settled + multiset{m})
      else if L.Statement(s.stock, m).Ok? then
        rest.(stock := L.Commit(s.stock, m), settled := s.settled + multiset{m})
      else
        rest.(queued := s.queued + multiset{m})
    case Abort(m) =>
      s.(unacked := s.unacked - multiset{m}, queued := s.queued + multiset{m})
    case Ack(m) =>
      s.(settled := s.settled - multiset{m})
    case Requeue(m) =>
      // a crash between commit and ack, or a lost ack
      s.(settled := s.settled - multiset{m}, queued := s.queued + multiset{m})
    case Duplicate(m) =>
      s.(queued := s.queued + multiset{m})
    case CreateProduct(row) =>
      s.(stock := L.PutNew(s.stock, row))
    case EditProduct(row) =>
      s.(stock := L.Edit(s.stock, row))
  }

  // ------------------------------------------------------------------- runs

  predicate Legal(s: State, run: seq<Step>)
    decreases |run|
  {
    run == [] || (Enabled(s, run[0]) && Legal(Apply(s, run[0]), run[1..]))
  }

  function Run(s: State, run: seq<Step>): State
    requires Legal(s, run)
    decreases |run|
  {
    if run == [] then s else Run(Apply(s, run[0]), run[1..])
  }

  /** Any table that meets its constraints, and nothing in progress. */
  predicate Initial(s: State) {
    && P.TableOk(s.stock.products) && s.stock.base == s.stock.products
    && s.stock.lines == [] && s.stock.messages == [] && s.stock.inbox == {}
    && s.attempts == [] && s.handlers == []
    && s.queued == s.unacked == s.settled == multiset{}
  }
}
