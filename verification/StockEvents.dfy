/**
 The stock consumers' transaction, and its order-independence: at-least-once delivery in any order
 reaches the same table.
 */
module StockEvents {
  import opened Basics
  import opened Sums
  import P = Products

  datatype EventKind = StockRelease | StockConfirm

  datatype Event = Event(id: Id, kind: EventKind, product: Id, quantity: int)

  /** The two tables the consumers write. */
  datatype Db = Db(products: P.Table, inbox: set<Id>)

  function Statement(t: P.Table, e: Event): Result<P.Table> {
    if e.kind.StockRelease? then P.Release(t, e.product, e.quantity) else P.Confirm(t, e.product, e.quantity)
  }

  /** Insert the event id, skip if it was there, run the stock statement; all or nothing. */
  function Transact(db: Db, e: Event): Result<Db> {
    if e.id in db.inbox then Ok(db)
    else match Statement(db.products, e)
      case Ok(t) => Ok(Db(t, db.inbox + {e.id}))
      case Err(kind) => Err(kind)
  }

  /** What the database is after one delivery: an error rolls back. */
  function Deliver(db: Db, e: Event): Db {
    match Transact(db, e)
    case Ok(db') => db'
    case Err(_) => db
  }

  /** A delivery after the event took effect changes nothing, and is acknowledged. */
  lemma DeliverTwice(db: Db, e: Event)
    ensures Transact(db, e).Ok? ==> Transact(Deliver(db, e), e) == Ok(Deliver(db, e))
    ensures Deliver(Deliver(db, e), e) == Deliver(db, e)
  {
  }

  // ----------------------------------------------------------- what is outstanding

  function Outstanding(inbox: set<Id>, p: Id): Event -> int {
    (e: Event) => if e.product == p && e.id !in inbox then e.quantity else 0
  }

  function OutstandingConfirm(inbox: set<Id>, p: Id): Event -> int {
    (e: Event) => if e.product == p && e.id !in inbox && e.kind.StockConfirm? then e.quantity else 0
  }

  predicate Distinct(all: seq<Event>) {
    forall i, j :: 0 <= i < j < |all| ==> all[i].id != all[j].id
  }

  predicate Genuine(db: Db, e: Event) {
    0 < e.quantity && e.product in db.products
  }

  predicate Covered(db: Db, all: seq<Event>, p: Id)
    requires p in db.products
  {
    Sum(all, Outstanding(db.inbox, p)) <= db.products[p].reservedStock
  }

  /** For each product, the reserved stock covers what the outstanding events will take. */
  ghost predicate Fits(db: Db, all: seq<Event>) {
    && P.TableOk(db.products) && Distinct(all)
    && (forall i :: 0 <= i < |all| ==> Genuine(db, all[i]))
    && (forall p :: p in db.products ==> Covered(db, all, p))
  }

  function SettledRow(db: Db, all: seq<Event>, p: Id): P.Product
    requires p in db.products
  {
    db.products[p].(
      reservedStock := db.products[p].reservedStock - Sum(all, Outstanding(db.inbox, p)),
      totalStock := db.products[p].totalStock - Sum(all, OutstandingConfirm(db.inbox, p)))
  }

  /** The table once every outstanding event has taken effect, in closed form. */
  ghost function Settled(db: Db, all: seq<Event>): P.Table {
    map p | p in db.products :: SettledRow(db, all, p)
  }

  // ---------------------------------------------------------------- one delivery

  /** Marking event `i` processed removes exactly its own quantity from what is outstanding. */
  lemma {:induction false} MarkOne(all: seq<Event>, inbox: set<Id>, i: nat, p: Id)
    requires Distinct(all) && i < |all| && all[i].id !in inbox
    ensures Sum(all, Outstanding(inbox + {all[i].id}, p))
         == Sum(all, Outstanding(inbox, p)) - Outstanding(inbox, p)(all[i])
    ensures Sum(all, OutstandingConfirm(inbox + {all[i].id}, p))
         == Sum(all, OutstandingConfirm(inbox, p)) - OutstandingConfirm(inbox, p)(all[i])
  {
    var front := all[..|all| - 1];
    var inbox' := inbox + {all[i].id};
    if i == |all| - 1 {
      SumSame(front, Outstanding(inbox, p), Outstanding(inbox', p));
      SumSame(front, OutstandingConfirm(inbox, p), OutstandingConfirm(inbox', p));
    } else {
      MarkOne(front, inbox, i, p);
    }
  }

  lemma EventsNonNegative(db: Db, all: seq<Event>, p: Id)
    requires forall i :: 0 <= i < |all| ==> Genuine(db, all[i])
    ensures forall i :: 0 <= i < |all| ==> 0 <= Outstanding(db.inbox, p)(all[i])
  {
  }

  /** No outstanding event can be refused. */
  lemma Accepted(db: Db, all: seq<Event>, i: nat)
    requires Fits(db, all) && i < |all|
    ensures Transact(db, all[i]).Ok?
  {
    var e := all[i];
    assert Genuine(db, e) && Covered(db, all, e.product);
    if e.id !in db.inbox {
      EventsNonNegative(db, all, e.product);
      SumPart(all, i, Outstanding(db.inbox, e.product));
      P.StatementsStayInRange(db.products, e.product, e.quantity);
    }
  }

  lemma DeliverRow(db: Db, all: seq<Event>, i: nat, p: Id)
    requires Fits(db, all) && i < |all| && all[i].id !in db.inbox && Transact(db, all[i]).Ok? && p in db.products
    ensures p in Deliver(db, all[i]).products
    ensures Covered(Deliver(db, all[i]), all, p)
    ensures SettledRow(Deliver(db, all[i]), all, p) == SettledRow(db, all, p)
  {
    assert Covered(db, all, p);
    MarkOne(all, db.inbox, i, p);
  }

  /** Delivering any event keeps the fit and leads towards the same settled table. */
  lemma DeliverOne(db: Db, all: seq<Event>, i: nat)
    requires Fits(db, all) && i < |all|
    ensures Fits(Deliver(db, all[i]), all)
    ensures Settled(Deliver(db, all[i]), all) == Settled(db, all)
    ensures Deliver(db, all[i]).inbox == db.inbox + {all[i].id}
  {
    Accepted(db, all, i);
    var e := all[i];
    if e.id in db.inbox {
      assert db.inbox + {e.id} == db.inbox;
    } else {
      var db' := Deliver(db, e);
      P.StatementsStayInRange(db.products, e.product, e.quantity);
      assert db'.products.Keys == db.products.Keys;
      forall p | p in db'.products
        ensures Covered(db', all, p) && SettledRow(db', all, p) == SettledRow(db, all, p)
      {
        DeliverRow(db, all, i, p);
      }
      assert forall j :: 0 <= j < |all| ==> Genuine(db, all[j]) ==> Genuine(db', all[j]);
    }
  }

  // ------------------------------------------------------------------- whole runs

  /** One thing that happens to the product database. */
  datatype Op = Delivery(event: nat) | Reservation(product: Id, quantity: int)

  function Perform(db: Db, all: seq<Event>, op: Op): Db
    requires op.Delivery? ==> op.event < |all|
  {
    match op
    case Delivery(i) => Deliver(db, all[i])
    case Reservation(p, q) =>
      match P.Reserve(db.products, p, q) case Ok(t) => db.(products := t) case Err(_) => db
  }

  predicate OpsOf(all: seq<Event>, ops: seq<Op>) {
    forall i :: 0 <= i < |ops| ==> ops[i].Delivery? ==> ops[i].event < |all|
  }

  function PerformAll(db: Db, all: seq<Event>, ops: seq<Op>): Db
    requires OpsOf(all, ops)
    decreases |ops|
  {
    if ops == [] then db else PerformAll(Perform(db, all, ops[0]), all, ops[1..])
  }

  lemma ReserveKeepsFit(db: Db, all: seq<Event>, p: Id, q: int)
    requires Fits(db, all)
    ensures Fits(Perform(db, all, Reservation(p, q)), all)
  {
  }

  /**
   In any order of deliveries, with any duplication and any reservations in between, no event of the
   family is ever refused: at every point each of them would commit.
   */
  lemma {:induction false} NoneRefused(db: Db, all: seq<Event>, ops: seq<Op>, i: nat)
    requires Fits(db, all) && OpsOf(all, ops) && i < |all|
    ensures Transact(PerformAll(db, all, ops), all[i]).Ok?
    decreases |ops|
  {
    if ops == [] {
      Accepted(db, all, i);
    } else {
      match ops[0] {
        case Delivery(j) => DeliverOne(db, all, j);
        case Reservation(p, q) => ReserveKeepsFit(db, all, p, q);
      }
      NoneRefused(Perform(db, all, ops[0]), all, ops[1..], i);
    }
  }

  function DeliveredIds(all: seq<Event>, ops: seq<Op>): set<Id>
    requires OpsOf(all, ops)
  {
    set i | 0 <= i < |ops| && ops[i].Delivery? :: all[ops[i].event].id
  }

  lemma {:induction false} DeliverMany(db: Db, all: seq<Event>, ops: seq<Op>)
    requires Fits(db, all) && OpsOf(all, ops) && (forall i :: 0 <= i < |ops| ==> ops[i].Delivery?)
    ensures Settled(PerformAll(db, all, ops), all) == Settled(db, all)
    ensures PerformAll(db, all, ops).inbox == db.inbox + DeliveredIds(all, ops)
    decreases |ops|
  {
    if ops == [] {
      assert db.inbox + DeliveredIds(all, ops) == db.inbox;
    } else {
      DeliverOne(db, all, ops[0].event);
      var db' := Perform(db, all, ops[0]);
      DeliverMany(db', all, ops[1..]);
      assert DeliveredIds(all, ops) == {all[ops[0].event].id} + DeliveredIds(all, ops[1..]) by {
        assert forall i :: 0 < i < |ops| ==> ops[i] == ops[1..][i - 1];
        assert forall i :: 0 <= i < |ops| - 1 ==> ops[1..][i] == ops[i + 1];
      }
      assert db.inbox + DeliveredIds(all, ops) == db'.inbox + DeliveredIds(all, ops[1..]);
    }
  }

  lemma NothingOutstanding(db: Db, all: seq<Event>)
    requires forall i :: 0 <= i < |all| ==> all[i].id in db.inbox
    ensures Settled(db, all) == db.products
  {
    forall p | p in db.products ensures SettledRow(db, all, p) == db.products[p] {
      SumZero(all, Outstanding(db.inbox, p));
      SumZero(all, OutstandingConfirm(db.inbox, p));
    }
  }

  /**
   Convergence: if the reserved stock covers a family of events, then every delivery order in which
   each event is delivered at least once ends in one and the same table, given in closed form.
   */
  lemma Convergence(db: Db, all: seq<Event>, ops: seq<Op>)
    requires Fits(db, all) && OpsOf(all, ops) && (forall i :: 0 <= i < |ops| ==> ops[i].Delivery?)
    requires forall i :: 0 <= i < |all| ==> all[i].id in DeliveredIds(all, ops)
    ensures PerformAll(db, all, ops).products == Settled(db, all)
    ensures PerformAll(db, all, ops).inbox == db.inbox + set i | 0 <= i < |all| :: all[i].id
  {
    DeliverMany(db, all, ops);
    NothingOutstanding(PerformAll(db, all, ops), all);
  }
}
