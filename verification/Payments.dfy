/** Payment rows, the four statements that write them, and the domain rules of the payment model. */
module Payments {
  import opened Basics

  datatype Status = Pending | Completed | Failed | Canceled | Refunded | Expired | Awaiting

  datatype Payment = Payment(
    order: Id, user: Id, amount: int,
    status: Status,
    gatewayName: Option<string>, gatewayRef: Option<string>,
    authority: Option<string>, redirect: Option<string>,
    reason: Option<string>,
    cause: nat)              // history: the order.created event it was created for

  /** The payments table; a row's id is its position. */
  type Table = seq<Payment>

  function NewPendingPayment(order: Id, user: Id, amount: int, cause: nat): Payment {
    Payment(order, user, amount, Pending, None, None, None, None, None, cause)
  }

  predicate Valid(p: Payment) {
    p.order != NIL && p.user != NIL && p.amount > 0
  }

  predicate CanTransitionTo(from: Status, next: Status) {
    match from
    case Completed => next == Refunded
    case Pending => next == Completed || next == Failed || next == Canceled || next == Expired
    case _ => false
  }

  /** MarkFailed; its error is ignored by every caller. */
  function MarkFailed(p: Payment, reason: string): Payment {
    if CanTransitionTo(p.status, Failed) then p.(status := Failed, reason := Some(reason)) else p
  }

  function MarkCompleted(p: Payment, name: string, gatewayRef: string): Result<Payment> {
    if CanTransitionTo(p.status, Completed) then
      Ok(p.(status := Completed, gatewayName := Some(name), gatewayRef := Some(gatewayRef), reason := None))
    else Err(InvalidInput)
  }

  function MarkAwaitingPayment(p: Payment, name: string, authority: string, redirect: string): Result<Payment> {
    if p.status == Pending then
      Ok(p.(gatewayName := Some(name), authority := Some(authority), redirect := Some(redirect), status := Awaiting))
    else Err(InvalidInput)
  }

  // ------------------------------------------------------------ constraints

  /** The schema's CHECK on status does not list `awaiting`. */
  predicate StatusAllowed(x: Status) { x != Awaiting }

  predicate Active(x: Status) { x == Pending || x == Completed }

  /** uq_payments_single_active_order */
  predicate SingleActive(t: Table) {
    forall i, j :: 0 <= i < j < |t| && t[i].order == t[j].order ==> !Active(t[i].status) || !Active(t[j].status)
  }

  /** uq_payments_gateway_ref; NULL names never conflict. */
  predicate RefsUnique(t: Table) {
    forall i, j :: 0 <= i < j < |t| && t[i].gatewayRef.Some? && t[i].gatewayName.Some? ==>
      !(t[i].gatewayRef == t[j].gatewayRef && t[i].gatewayName == t[j].gatewayName)
  }

  predicate TableOk(t: Table) {
    SingleActive(t) && RefsUnique(t) && forall i :: 0 <= i < |t| ==> StatusAllowed(t[i].status) && t[i].amount >= 0
  }

  function Checked(t: Table): Result<Table> {
    if TableOk(t) then Ok(t) else Err(Internal)
  }

  // ------------------------------------------------------------- statements

  /** INSERT names neither authority nor redirect_url. */
  function Create(t: Table, p: Payment): Result<Table> {
    if !Valid(p) then Err(InvalidInput)
    else
      var row := Payment(p.order, p.user, p.amount, p.status, None, None, None, None, None, p.cause);
      if !SingleActive(t + [row]) then Err(AlreadyExists) else Checked(t + [row])
  }

  /** Guarded by status = 'pending'; does not write authority. */
  function UpdateFromPending(t: Table, id: nat, p: Payment): Result<Table> {
    if !Valid(p) then Err(InvalidInput)
    else if id < |t| && t[id].status == Pending then
      Checked(t[id := t[id].(status := p.status, gatewayName := p.gatewayName, gatewayRef := p.gatewayRef,
                             reason := p.reason)])
    else Err(AlreadyExists)
  }

  /** `awaiting` is not a status the table accepts, so the save fails and the row stays as it is. */
  lemma AwaitingIsRefused(t: Table, i: nat, p: Payment)
    requires p.status == Awaiting
    ensures UpdateFromPending(t, i, p).Err?
  {
    if i < |t| {
      assert !StatusAllowed(t[i := t[i].(status := p.status, gatewayName := p.gatewayName,
                                           gatewayRef := p.gatewayRef, reason := p.reason)][i].status);
    }
  }

  /** Not guarded. */
  function Update(t: Table, id: nat, p: Payment): Result<Table> {
    if id < |t| then
      Checked(t[id := t[id].(status := p.status, gatewayName := p.gatewayName, gatewayRef := p.gatewayRef,
                             authority := p.authority, redirect := p.redirect, reason := p.reason)])
    else Err(NotFound)
  }

  /** SELECT ... WHERE authority = $1 LIMIT 1 may return this row. */
  predicate Finds(t: Table, authority: string, id: nat) {
    authority != "" && id < |t| && t[id].authority == Some(authority)
  }

  /** Which columns each statement writes, and which it leaves alone. */
  lemma StatementsByColumns(t: Table, id: nat, p: Payment)
    ensures Create(t, p).Ok? ==>
      Create(t, p).value == t + [Payment(p.order, p.user, p.amount, p.status, None, None, None, None, None, p.cause)]
    ensures Create(t, p).Ok? ==> p.order != NIL && p.user != NIL && p.amount > 0
    ensures UpdateFromPending(t, id, p).Ok? ==>
      && id < |t| && t[id].status == Pending
      && UpdateFromPending(t, id, p).value
         == t[id := Payment(t[id].order, t[id].user, t[id].amount, p.status, p.gatewayName, p.gatewayRef,
                            t[id].authority, t[id].redirect, p.reason, t[id].cause)]
    ensures Update(t, id, p).Ok? ==>
      && id < |t|
      && Update(t, id, p).value
         == t[id := Payment(t[id].order, t[id].user, t[id].amount, p.status, p.gatewayName, p.gatewayRef,
                            p.authority, p.redirect, p.reason, t[id].cause)]
  {
  }

  /** The only changes of status the model allows. */
  lemma TransitionsByTable(x: Status, y: Status)
    ensures CanTransitionTo(x, y) <==>
      (x == Pending && y in {Completed, Failed, Canceled, Expired}) || (x == Completed && y == Refunded)
  {
  }

  /** What the domain methods write: the gateway's data, the status, and the reason. */
  lemma MarksByFields(p: Payment, text: string, authority: string, redirect: string)
    ensures p.status == Pending ==>
      && MarkFailed(p, text)
         == Payment(p.order, p.user, p.amount, Failed, p.gatewayName, p.gatewayRef, p.authority, p.redirect, Some(text), p.cause)
      && MarkCompleted(p, text, authority)
         == Ok(Payment(p.order, p.user, p.amount, Completed, Some(text), Some(authority), p.authority, p.redirect, None, p.cause))
      && MarkAwaitingPayment(p, text, authority, redirect)
         == Ok(Payment(p.order, p.user, p.amount, Awaiting, Some(text), p.gatewayRef, Some(authority), Some(redirect),
                       p.reason, p.cause))
    ensures p.status != Pending ==>
      && MarkFailed(p, text) == p && MarkCompleted(p, text, authority) == Err(InvalidInput)
      && MarkAwaitingPayment(p, text, authority, redirect) == Err(InvalidInput)
  {
  }

  // --------------------------------------------------- one VerifyPayment call

  datatype GatewayReply = Unreachable | Declined | Verified(gatewayRef: string)

  /** What the outside world does during one call. */
  datatype Callback = Callback(
    authority: string,
    row: nat,                 // which matching row LIMIT 1 picks
    statusOK: bool,           // zarinpalStatus == "OK"
    gateway: GatewayReply,
    dbOk: bool,               // the UPDATE reaches the database
    publishOk: bool)

  datatype Outcome = Outcome(payment: nat, order: Id, completed: bool)

  datatype Effect = Effect(table: Table, published: Option<Outcome>)

  function OutcomeStatus(o: Outcome): Status { if o.completed then Completed else Failed }

  predicate Fails(c: Callback) { !c.statusOK || !c.gateway.Verified? }

  function SaveOr(t: Table, r: Result<Table>, dbOk: bool): Table {
    if dbOk && r.Ok? then r.value else t
  }

  /** VerifyPayment as a function of the table and of what happens outside. */
  function Verify(t: Table, c: Callback): Effect {
    if !Finds(t, c.authority, c.row) || !CanTransitionTo(t[c.row].status, Completed) then
      Effect(t, None)
    else if Fails(c) then
      // the errors of Update and of the publish are dropped
      Effect(SaveOr(t, Update(t, c.row, MarkFailed(t[c.row], "failed")), c.dbOk),
             if c.publishOk then Some(Outcome(c.row, t[c.row].order, false)) else None)
    else
      var saved := Update(t, c.row, MarkCompleted(t[c.row], "zarinpal", c.gateway.gatewayRef).value);
      if c.dbOk && saved.Ok? then
        Effect(saved.value, if c.publishOk then Some(Outcome(c.row, t[c.row].order, true)) else None)
      else Effect(t, None)
  }

  /** The error replies to a callback that found its payment: not verified, or verified and not saved. */
  predicate Refuses(t: Table, c: Callback)
    requires Finds(t, c.authority, c.row)
  {
    && CanTransitionTo(t[c.row].status, Completed) && c.statusOK
    && (!c.gateway.Verified?
        || !(c.dbOk && Update(t, c.row, MarkCompleted(t[c.row], "zarinpal", c.gateway.gatewayRef).value).Ok?))
  }

  /** Marking a pending payment failed never breaks a constraint. */
  lemma FailureCanBeStored(t: Table, id: nat, reason: string)
    requires TableOk(t) && id < |t| && t[id].status == Pending
    ensures Update(t, id, MarkFailed(t[id], reason)).Ok?
  {
  }

  /** The service object: the table it writes and the outcomes it publishes. */
  class PaymentService {
    var payments: Table
    var published: seq<Outcome>

    constructor (initial: Table)
      ensures payments == initial && published == []
    {
      payments, published := initial, [];
    }

    method Save(id: nat, p: Payment, dbOk: bool) returns (err: Option<Kind>)
      modifies this`payments
      ensures payments == SaveOr(old(payments), Update(old(payments), id, p), dbOk)
      ensures err.None? <==> dbOk && Update(old(payments), id, p).Ok?
    {
      if !dbOk {
        return Some(Internal);
      }
      match Update(payments, id, p) {
        case Ok(t) => payments := t; err := None;
        case Err(kind) => err := Some(kind);
      }
    }

    method Publish(o: Outcome, ok: bool)
      modifies this`published
      ensures published == old(published) + (if ok then [o] else [])
    {
      if ok {
        published := published + [o];
      }
    }

    method VerifyPayment(c: Callback) returns (r: Result<Payment>)
      modifies this
      ensures payments == Verify(old(payments), c).table
      ensures published == old(published)
                         + (match Verify(old(payments), c).published case Some(o) => [o] case None => [])
      ensures |payments| == |old(payments)| && forall i :: 0 <= i < |payments| && i != c.row ==> payments[i] == old(payments)[i]
      ensures c.row < |payments| && payments[c.row] != old(payments)[c.row] ==>
        var was := old(payments)[c.row];
        && was.status == Pending && was.authority == Some(c.authority)
        && payments[c.row] ==
             if c.statusOK && c.gateway.Verified?
             then was.(status := Completed, gatewayName := Some("zarinpal"), gatewayRef := Some(c.gateway.gatewayRef),
                       reason := None)
             else was.(status := Failed, reason := Some("failed"))
      ensures |published| <= |old(published)| + 1 && old(published) <= published
      ensures |published| > |old(published)| ==>
        && c.row < |payments|
        && published[|old(published)|]
           == Outcome(c.row, old(payments)[c.row].order, c.statusOK && c.gateway.Verified?)
      ensures c.authority == "" ==> r == Err(InvalidInput)
      ensures c.authority != "" && !Finds(old(payments), c.authority, c.row) ==> r == Err(NotFound)
      ensures Finds(old(payments), c.authority, c.row) ==> (r.Err? <==> Refuses(old(payments), c))
      ensures r.Ok? && c.dbOk && TableOk(old(payments)) ==> r.value == payments[c.row]
    {
      if c.authority == "" {
        return Err(InvalidInput);
      }
      if !Finds(payments, c.authority, c.row) {
        return Err(NotFound);
      }
      var payment := payments[c.row];
      if !CanTransitionTo(payment.status, Completed) {
        return Ok(payment);
      }
      if !c.statusOK || !c.gateway.Verified? {
        if TableOk(payments) {
          FailureCanBeStored(payments, c.row, "failed");
        }
        payment := MarkFailed(payment, "failed");
        var _ := Save(c.row, payment, c.dbOk);
        Publish(Outcome(c.row, payment.order, false), c.publishOk);
        return if c.statusOK then Err(InvalidInput) else Ok(payment);
      }
      var marked := MarkCompleted(payment, "zarinpal", c.gateway.gatewayRef);
      var err := Save(c.row, marked.value, c.dbOk);
      if err.Some? {
        return Err(err.value);
      }
      Publish(Outcome(c.row, payment.order, true), c.publishOk);
      return Ok(marked.value);
    }
  }

  // ------------------------------------------------------ sequences of calls

  function VerifyAll(t: Table, calls: seq<Callback>): Table
    decreases |calls|
  {
    if calls == [] then t else VerifyAll(Verify(t, calls[0]).table, calls[1..])
  }

  /** What a sequence of calls publishes for payment `id`. */
  function PublishedFor(t: Table, calls: seq<Callback>, id: nat): seq<Outcome>
    decreases |calls|
  {
    if calls == [] then []
    else
      var e := Verify(t, calls[0]);
      (if e.published.Some? && e.published.value.payment == id then [e.published.value] else [])
      + PublishedFor(e.table, calls[1..], id)
  }

  /** One call: a settled payment is left alone, and constraints are kept. */
  lemma VerifyOne(t: Table, c: Callback, id: nat)
    requires TableOk(t) && id < |t|
    ensures var e := Verify(t, c);
      && |e.table| == |t| && TableOk(e.table)
      && (!CanTransitionTo(t[id].status, Completed) ==>
            e.table[id].status == t[id].status && !(e.published.Some? && e.published.value.payment == id))
      && (e.published.Some? && e.published.value.payment == id ==>
            (e.table[id].status == OutcomeStatus(e.published.value) <==> e.published.value.completed || c.dbOk))
  {
  }

  /**
   One outcome per payment, one call after the other: from any table that meets its constraints, a sequence of
   calls whose writes to the payment reach the database publishes at most one outcome for it, nothing at all if
   it was settled before, and the stored status is that outcome's for ever after.
   */
  lemma {:induction false} OneOutcome(t: Table, calls: seq<Callback>, id: nat)
    requires TableOk(t) && id < |t| && (forall i :: 0 <= i < |calls| && calls[i].row == id ==> calls[i].dbOk)
    ensures |VerifyAll(t, calls)| == |t|
    ensures |PublishedFor(t, calls, id)| <= (if CanTransitionTo(t[id].status, Completed) then 1 else 0)
    ensures |PublishedFor(t, calls, id)| == 1 ==>
              VerifyAll(t, calls)[id].status == OutcomeStatus(PublishedFor(t, calls, id)[0])
    ensures !CanTransitionTo(t[id].status, Completed) ==> VerifyAll(t, calls)[id].status == t[id].status
    decreases |calls|
  {
    if calls != [] {
      VerifyOne(t, calls[0], id);
      OneOutcome(Verify(t, calls[0]).table, calls[1..], id);
    }
  }

  /** With one lost write, the same payment is announced as failed and later as completed. */
  lemma LostWriteTwoOutcomes()
    ensures var t := [Payment(1, 1, 500, Pending, None, None, Some("A1"), None, None, 0)];
      var cancelled := Callback("A1", 0, false, Declined, false, true);
      var paid := Callback("A1", 0, true, Verified("R1"), true, true);
      && TableOk(t)
      && PublishedFor(t, [cancelled, paid], 0) == [Outcome(0, 1, false), Outcome(0, 1, true)]
  {
    var t := [Payment(1, 1, 500, Pending, None, None, Some("A1"), None, None, 0)];
    var cancelled := Callback("A1", 0, false, Declined, false, true);
    var paid := Callback("A1", 0, true, Verified("R1"), true, true);
    assert Verify(t, cancelled) == Effect(t, Some(Outcome(0, 1, false)));
    var done := Update(t, 0, MarkCompleted(t[0], "zarinpal", "R1").value);
    assert done.Ok?;
    assert Verify(t, paid).published == Some(Outcome(0, 1, true));
    assert [cancelled, paid][1..] == [paid] && [paid][1..] == [];
    assert PublishedFor(Verify(t, paid).table, [], 0) == [];
    assert PublishedFor(t, [paid], 0) == [Outcome(0, 1, true)];
  }
}
