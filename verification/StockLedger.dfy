/**
 The stock side of the saga: what has been reserved, which stock messages exist and
 which of them Product Service has applied.

 `lines` and `applied`/`sent` counters are history: they record what the run did, so that
 the numbers in the products table can be compared with it.
 */
module StockLedger {
  import opened Basics
  import opened Sums
  import E = StockEvents
  import P = Products

  /** One item of one order attempt. */
  datatype Line = Line(
    owner: nat,          // the attempt it belongs to
    product: Id,
    quantity: int,
    held: bool,          // its ReserveStock statement committed
    sent: nat)           // how many stock messages were enqueued on its account

  /** Who enqueued a message: the compensation of a failed attempt, or a run of a payment-outcome handler. */
  datatype Source = FromCompensation | FromHandler(handler: nat)

  /** A stock message.  Its event id is its position in the log of all messages ever enqueued. */
  datatype Message = Message(kind: E.EventKind, product: Id, quantity: int, line: nat, source: Source,
                             applied: nat)   // how many times its effect was committed

  datatype Stock = Stock(
    products: P.Table,
    base: P.Table,          // the table at the start of the run
    lines: seq<Line>,
    messages: seq<Message>,
    inbox: set<nat>)        // processed_events

  // ---------------------------------------------------------------- weights

  function HeldQty(p: Id): Line -> int {
    (l: Line) => if l.product == p && l.held then l.quantity else 0
  }

  function SentQty(p: Id): Line -> int {
    (l: Line) => if l.product == p then l.sent * l.quantity else 0
  }

  /** Reserved, and no stock message has been enqueued for it yet. */
  function OpenQty(p: Id): Line -> int {
    (l: Line) => if l.product == p && l.held && l.sent == 0 then l.quantity else 0
  }

  /** Messages enqueued for a line beyond the first. */
  function ExcessQty(p: Id): Line -> int {
    (l: Line) => if l.product == p && l.sent > 1 then (l.sent - 1) * l.quantity else 0
  }

  function EnqueuedQty(p: Id): Message -> int {
    (m: Message) => if m.product == p then m.quantity else 0
  }

  function AppliedQty(p: Id, kind: E.EventKind): Message -> int {
    (m: Message) => if m.product == p && m.kind == kind then m.applied * m.quantity else 0
  }

  function WaitingQty(p: Id): Message -> int {
    (m: Message) => if m.product == p && m.applied == 0 then m.quantity else 0
  }

  function Held(k: Stock, p: Id): int { Sum(k.lines, HeldQty(p)) }
  function Open(k: Stock, p: Id): int { Sum(k.lines, OpenQty(p)) }
  function Excess(k: Stock, p: Id): int { Sum(k.lines, ExcessQty(p)) }
  function Released(k: Stock, p: Id): int { Sum(k.messages, AppliedQty(p, E.StockRelease)) }
  function Confirmed(k: Stock, p: Id): int { Sum(k.messages, AppliedQty(p, E.StockConfirm)) }
  function Waiting(k: Stock, p: Id): int { Sum(k.messages, WaitingQty(p)) }

  // ------------------------------------------------------------- invariants

  predicate LineOk(l: Line, products: P.Table) {
    0 < l.quantity && (l.held ==> l.product in products) && (l.sent > 0 ==> l.held)
  }

  predicate MessageOk(k: Stock, i: nat)
    requires i < |k.messages|
  {
    var m := k.messages[i];
    && m.line < |k.lines|
    && m.product == k.lines[m.line].product && m.quantity == k.lines[m.line].quantity
    && k.lines[m.line].sent > 0
    // exactly once: the effect was committed once if the event id is in the inbox, and never otherwise
    && m.applied == (if i in k.inbox then 1 else 0)
  }

  predicate Shape(k: Stock) {
    && P.TableOk(k.products) && P.TableOk(k.base) && k.products.Keys == k.base.Keys
    && (forall i :: 0 <= i < |k.lines| ==> LineOk(k.lines[i], k.products))
    && (forall i :: 0 <= i < |k.messages| ==> MessageOk(k, i))
    && (forall i :: i in k.inbox ==> i < |k.messages|)
  }

  /** The books of one product: its two stock columns are what the run's effects add up to. */
  predicate Balanced(k: Stock, p: Id)
    requires p in k.products && p in k.base
  {
    && k.products[p].reservedStock == k.base[p].reservedStock + Held(k, p) - Released(k, p) - Confirmed(k, p)
    && k.products[p].totalStock == k.base[p].totalStock - Confirmed(k, p)
    && Sum(k.messages, EnqueuedQty(p)) == Sum(k.lines, SentQty(p))
  }

  ghost predicate Inv(k: Stock) {
    Shape(k) && forall p :: p in k.products ==> Balanced(k, p)
  }

  // ---------------------------------------------------------------- effects

  /** A ReserveStock statement commits for line `i`. */
  function Hold(k: Stock, i: nat): Stock
    requires i < |k.lines| && P.Reserve(k.products, k.lines[i].product, k.lines[i].quantity).Ok?
  {
    k.(products := P.Reserve(k.products, k.lines[i].product, k.lines[i].quantity).value,
       lines := k.lines[i := k.lines[i].(held := true)])
  }

  /** A stock message with a fresh event id is enqueued on account of line `i`. */
  function Send(k: Stock, i: nat, kind: E.EventKind, source: Source): Stock
    requires i < |k.lines|
  {
    var l := k.lines[i];
    k.(lines := k.lines[i := l.(sent := l.sent + 1)],
       messages := k.messages + [Message(kind, l.product, l.quantity, i, source, 0)])
  }

  /** The event a message carries. */
  function EventOf(k: Stock, i: nat): E.Event
    requires i < |k.messages|
  {
    E.Event(i, k.messages[i].kind, k.messages[i].product, k.messages[i].quantity)
  }

  /** The stock statement of a message: release or confirm. */
  function Statement(k: Stock, i: nat): Result<P.Table>
    requires i < |k.messages|
  {
    E.Statement(k.products, EventOf(k, i))
  }

  /** The consumer's transaction commits: inbox row and stock statement together. */
  function Commit(k: Stock, i: nat): Stock
    requires i < |k.messages| && Statement(k, i).Ok?
  {
    var m := k.messages[i];
    k.(products := Statement(k, i).value, inbox := k.inbox + {i},
       messages := k.messages[i := m.(applied := m.applied + 1)])
  }

  function AddLines(k: Stock, lines: seq<Line>): Stock {
    k.(lines := k.lines + lines)
  }

  /** An administrator creates a product (`row.reservedStock == 0`) or edits one. */
  function PutNew(k: Stock, row: P.Product): Stock {
    k.(products := k.products[row.id := row], base := k.base[row.id := row])
  }

  function Edit(k: Stock, row: P.Product): Stock
    requires P.UpdateDetails(k.products, row).Ok?
  {
    k.(products := P.UpdateDetails(k.products, row).value)
  }

  // ------------------------------------------------- every effect keeps the books

  lemma HoldBalances(k: Stock, i: nat, p: Id)
    requires i < |k.lines| && !k.lines[i].held
    requires P.Reserve(k.products, k.lines[i].product, k.lines[i].quantity).Ok?
    requires P.TableOk(k.products) && p in k.products && p in k.base && Balanced(k, p)
    ensures p in Hold(k, i).products && Balanced(Hold(k, i), p)
  {
    var l := k.lines[i];
    SumUpdate(k.lines, i, l.(held := true), HeldQty(p));
    SumUpdate(k.lines, i, l.(held := true), SentQty(p));
  }

  lemma HoldKeeps(k: Stock, i: nat)
    requires Inv(k)
    requires i < |k.lines| && !k.lines[i].held
    requires P.Reserve(k.products, k.lines[i].product, k.lines[i].quantity).Ok?
    ensures Inv(Hold(k, i))
  {
    var k' := Hold(k, i);
    P.StatementsStayInRange(k.products, k.lines[i].product, k.lines[i].quantity);
    assert k'.products.Keys == k.products.Keys;
    forall j | 0 <= j < |k'.messages| ensures MessageOk(k', j) {
      assert MessageOk(k, j);
    }
    forall p | p in k'.products ensures Balanced(k', p) {
      HoldBalances(k, i, p);
    }
  }

  lemma SentOnce(l: Line, p: Id)
    ensures SentQty(p)(l.(sent := l.sent + 1)) == SentQty(p)(l) + (if l.product == p then l.quantity else 0)
  {
  }

  /** A message counts as enqueued at once, and as applied not yet. */
  lemma NewMessage(messages: seq<Message>, m: Message, p: Id)
    requires m.applied == 0
    ensures Sum(messages + [m], EnqueuedQty(p)) == Sum(messages, EnqueuedQty(p)) + (if m.product == p then m.quantity else 0)
    ensures Sum(messages + [m], AppliedQty(p, E.StockRelease)) == Sum(messages, AppliedQty(p, E.StockRelease))
    ensures Sum(messages + [m], AppliedQty(p, E.StockConfirm)) == Sum(messages, AppliedQty(p, E.StockConfirm))
  {
  }

  lemma SendBalances(k: Stock, i: nat, kind: E.EventKind, source: Source, p: Id)
    requires i < |k.lines| && p in k.products && p in k.base && Balanced(k, p)
    ensures Balanced(Send(k, i, kind, source), p)
  {
    var l := k.lines[i];
    SentOnce(l, p);
    SumUpdate(k.lines, i, l.(sent := l.sent + 1), HeldQty(p));
    SumUpdate(k.lines, i, l.(sent := l.sent + 1), SentQty(p));
    NewMessage(k.messages, Message(kind, l.product, l.quantity, i, source, 0), p);
  }

  lemma SendKeeps(k: Stock, i: nat, kind: E.EventKind, source: Source)
    requires Inv(k) && i < |k.lines| && k.lines[i].held
    ensures Inv(Send(k, i, kind, source))
  {
    var k' := Send(k, i, kind, source);
    forall j | 0 <= j < |k'.messages| ensures MessageOk(k', j) {
      if j < |k.messages| {
        assert MessageOk(k, j);
      } else {
        assert |k.messages| !in k.inbox;
      }
    }
    forall p | p in k'.products ensures Balanced(k', p) {
      SendBalances(k, i, kind, source, p);
    }
  }

  lemma CommitBalances(k: Stock, i: nat, p: Id)
    requires i < |k.messages| && Statement(k, i).Ok?
    requires P.TableOk(k.products) && p in k.products && p in k.base && Balanced(k, p)
    ensures p in Commit(k, i).products && Balanced(Commit(k, i), p)
  {
    var m := k.messages[i];
    var m' := m.(applied := m.applied + 1);
    assert m'.applied * m.quantity == m.applied * m.quantity + m.quantity;
    SumUpdate(k.messages, i, m', EnqueuedQty(p));
    SumUpdate(k.messages, i, m', AppliedQty(p, E.StockRelease));
    SumUpdate(k.messages, i, m', AppliedQty(p, E.StockConfirm));
  }

  lemma CommitKeeps(k: Stock, i: nat)
    requires Inv(k) && i < |k.messages| && i !in k.inbox && Statement(k, i).Ok?
    ensures Inv(Commit(k, i))
  {
    var k' := Commit(k, i);
    P.StatementsStayInRange(k.products, k.messages[i].product, k.messages[i].quantity);
    assert k'.products.Keys == k.products.Keys;
    forall j | 0 <= j < |k'.messages| ensures MessageOk(k', j) {
      assert MessageOk(k, j);
    }
    forall p | p in k'.products ensures Balanced(k', p) {
      CommitBalances(k, i, p);
    }
  }

  lemma AddLinesKeeps(k: Stock, lines: seq<Line>)
    requires Inv(k)
    requires forall i :: 0 <= i < |lines| ==> 0 < lines[i].quantity && !lines[i].held && lines[i].sent == 0
    ensures Inv(AddLines(k, lines))
  {
    var k' := AddLines(k, lines);
    forall j | 0 <= j < |k'.messages| ensures MessageOk(k', j) {
      assert MessageOk(k, j);
    }
    forall p | p in k'.products ensures Balanced(k', p) {
      assert Balanced(k, p);
      SumConcat(k.lines, lines, HeldQty(p));
      SumConcat(k.lines, lines, SentQty(p));
      SumZero(lines, HeldQty(p));
      SumZero(lines, SentQty(p));
    }
  }

  /** A product that has no row yet has no held line and no message. */
  lemma NoBooksYet(k: Stock, p: Id)
    requires Shape(k) && p !in k.products
    ensures Held(k, p) == Sum(k.lines, SentQty(p)) == 0
    ensures Released(k, p) == Confirmed(k, p) == Sum(k.messages, EnqueuedQty(p)) == 0
  {
    forall i | 0 <= i < |k.messages| ensures k.messages[i].product != p {
      assert MessageOk(k, i);
      assert LineOk(k.lines[k.messages[i].line], k.products);
    }
    forall i | 0 <= i < |k.lines| ensures HeldQty(p)(k.lines[i]) == SentQty(p)(k.lines[i]) == 0 {
      assert LineOk(k.lines[i], k.products);
    }
    SumZero(k.lines, HeldQty(p));
    SumZero(k.lines, SentQty(p));
    SumZero(k.messages, AppliedQty(p, E.StockRelease));
    SumZero(k.messages, AppliedQty(p, E.StockConfirm));
    SumZero(k.messages, EnqueuedQty(p));
  }

  lemma PutNewShape(k: Stock, row: P.Product)
    requires Shape(k) && row.id != NIL && row.id !in k.products && P.RowOk(row)
    ensures Shape(PutNew(k, row))
  {
    var k' := PutNew(k, row);
    forall j | 0 <= j < |k'.messages| ensures MessageOk(k', j) {
      assert MessageOk(k, j);
    }
    forall i | 0 <= i < |k'.lines| ensures LineOk(k'.lines[i], k'.products) {
      assert LineOk(k.lines[i], k.products);
    }
  }

  lemma PutNewKeeps(k: Stock, row: P.Product)
    requires Inv(k) && row.id != NIL && row.id !in k.products && P.RowOk(row)
    ensures Inv(PutNew(k, row))
  {
    var k' := PutNew(k, row);
    PutNewShape(k, row);
    NoBooksYet(k, row.id);
    forall p | p in k'.products ensures Balanced(k', p) {
      if p != row.id {
        assert Balanced(k, p);
      }
    }
  }

  lemma EditKeeps(k: Stock, row: P.Product)
    requires Inv(k) && P.UpdateDetails(k.products, row).Ok?
    ensures Inv(Edit(k, row))
  {
    var k' := Edit(k, row);
    assert k'.products.Keys == k.products.Keys;
    forall j | 0 <= j < |k'.messages| ensures MessageOk(k', j) {
      assert MessageOk(k, j);
    }
    forall p | p in k'.products ensures Balanced(k', p) {
      assert Balanced(k, p);
    }
  }

  // --------------------------------------------------------- what the books say

  /** Every enqueued message is waiting, released or confirmed. */
  lemma MessagesSplit(k: Stock, p: Id)
    requires Shape(k)
    ensures Sum(k.messages, EnqueuedQty(p)) == Waiting(k, p) + Released(k, p) + Confirmed(k, p)
  {
    var settled := (m: Message) => if m.product == p then m.applied * m.quantity else 0;
    forall i | 0 <= i < |k.messages|
      ensures EnqueuedQty(p)(k.messages[i]) == WaitingQty(p)(k.messages[i]) + settled(k.messages[i])
    {
      assert MessageOk(k, i);
      var m := k.messages[i];
      assert m.applied * m.quantity == (if i in k.inbox then m.quantity else 0);
    }
    SumLinear(k.messages, AppliedQty(p, E.StockRelease), 1, AppliedQty(p, E.StockConfirm), settled);
    SumLinear(k.messages, WaitingQty(p), 1, settled, EnqueuedQty(p));
  }

  /**
   Conservation, with no assumption on deliveries: for every product, reserved stock plus what
   was messaged in excess equals the initial reservation plus the holds no message has been sent
   for plus the messages not yet applied.
   */
  lemma Conservation(k: Stock, p: Id)
    requires Inv(k) && p in k.products
    ensures k.products[p].reservedStock + Excess(k, p)
         == k.base[p].reservedStock + Open(k, p) + Waiting(k, p)
  {
    assert Balanced(k, p);
    var lineBalance := (l: Line) => HeldQty(p)(l) - SentQty(p)(l);
    forall i | 0 <= i < |k.lines|
      ensures lineBalance(k.lines[i]) == OpenQty(p)(k.lines[i]) - ExcessQty(p)(k.lines[i])
    {
      assert LineOk(k.lines[i], k.products);
      var l := k.lines[i];
      assert (l.sent - 1) * l.quantity == l.sent * l.quantity - l.quantity;
    }
    SumLinear(k.lines, HeldQty(p), -1, SentQty(p), lineBalance);
    SumLinear(k.lines, OpenQty(p), -1, ExcessQty(p), lineBalance);
    MessagesSplit(k, p);
  }

  lemma OpenAndExcessNonNegative(k: Stock, p: Id)
    requires Shape(k)
    ensures 0 <= Open(k, p) && 0 <= Excess(k, p) && 0 <= Waiting(k, p)
  {
    forall i | 0 <= i < |k.lines| ensures 0 <= OpenQty(p)(k.lines[i]) && 0 <= ExcessQty(p)(k.lines[i]) {
      assert LineOk(k.lines[i], k.products);
    }
    forall i | 0 <= i < |k.messages| ensures 0 <= WaitingQty(p)(k.messages[i]) {
      assert MessageOk(k, i) && LineOk(k.lines[k.messages[i].line], k.products);
    }
    SumNonNegative(k.lines, OpenQty(p));
    SumNonNegative(k.lines, ExcessQty(p));
    SumNonNegative(k.messages, WaitingQty(p));
  }

  /** Nothing was messaged twice for product `p`. */
  predicate SentAtMostOnce(k: Stock, p: Id) {
    forall i :: 0 <= i < |k.lines| && k.lines[i].product == p ==> k.lines[i].sent <= 1
  }

  lemma ExcessOf(l: Line, p: Id)
    requires 0 < l.quantity
    ensures 0 <= ExcessQty(p)(l)
    ensures ExcessQty(p)(l) == 0 <==> l.product != p || l.sent <= 1
  {
  }

  lemma ExcessOfAll(k: Stock, p: Id)
    requires Shape(k)
    ensures 0 <= Excess(k, p)
    ensures Excess(k, p) == 0 <==> SentAtMostOnce(k, p)
  {
    forall j | 0 <= j < |k.lines|
      ensures 0 <= ExcessQty(p)(k.lines[j])
      ensures ExcessQty(p)(k.lines[j]) == 0 <==> k.lines[j].product != p || k.lines[j].sent <= 1
    {
      assert LineOk(k.lines[j], k.products);
      ExcessOf(k.lines[j], p);
    }
    if SentAtMostOnce(k, p) {
      SumZero(k.lines, ExcessQty(p));
    } else {
      var i :| 0 <= i < |k.lines| && k.lines[i].product == p && k.lines[i].sent > 1;
      SumPart(k.lines, i, ExcessQty(p));
    }
    SumNonNegative(k.lines, ExcessQty(p));
  }

  /**
   Reserved stock is exactly the initial reservation plus the open holds plus the messages in
   flight if and only if no item of the product was messaged more than once.
   */
  lemma ExactlyWhenSentOnce(k: Stock, p: Id)
    requires Inv(k) && p in k.products
    ensures k.products[p].reservedStock >= k.base[p].reservedStock + Open(k, p) + Waiting(k, p)
       <==> SentAtMostOnce(k, p)
  {
    Conservation(k, p);
    ExcessOfAll(k, p);
  }

  /** Then no release or confirm that is still to be applied can be refused. */
  lemma NoGenuineMessageRefused(k: Stock, i: nat)
    requires Inv(k) && i < |k.messages| && i !in k.inbox
    requires SentAtMostOnce(k, k.messages[i].product)
    ensures Statement(k, i).Ok?
  {
    var m := k.messages[i];
    var p := m.product;
    assert MessageOk(k, i) && LineOk(k.lines[m.line], k.products);
    assert P.RowOk(k.base[p]) && P.RowOk(k.products[p]);
    ExactlyWhenSentOnce(k, p);
    OpenAndExcessNonNegative(k, p);
    forall j | 0 <= j < |k.messages| ensures 0 <= WaitingQty(p)(k.messages[j]) {
      assert MessageOk(k, j) && LineOk(k.lines[k.messages[j].line], k.products);
    }
    SumPart(k.messages, i, WaitingQty(p));
    P.StatementsStayInRange(k.products, p, m.quantity);
  }
}
