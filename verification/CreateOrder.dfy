/** CreateOrder with its helpers: build the items, reserve them one by one, persist, announce, compensate. */
module CreateOrder {
  import opened Basics
  import opened OrderModel
  import opened OrderRepository
  import S = Saga

  // ------------------------------------------------------------------ values

  /** A UUID as text.  uuid.Parse accepts several spellings; uuid.String gives the canonical one. */
  datatype IdText = Canonical(id: Id) | OtherSpelling(id: Id, form: nat) | NotAnId(text: string)

  function Parse(t: IdText): Option<Id> {
    if t.NotAnId? then None else Some(t.id)
  }

  datatype RequestItem = RequestItem(product: IdText, quantity: Int32)

  /** A product as Product Service returns it. */
  datatype ProductInfo = ProductInfo(id: IdText, name: string, price: Int64, active: bool)

  datatype Line = Line(product: Id, quantity: Int32)

  datatype Reason = ReservationFailed | OrderPersistFailed | PublishFailed

  /** One attempt to publish stock.release_requested, and whether the broker took it. */
  datatype Release = Release(line: Line, reason: Reason, published: bool)

  datatype CreatedItem = CreatedItem(product: Id, quantity: Int32, unitPrice: Int64)
  datatype OrderCreated = OrderCreated(order: Id, user: Id, total: Int64, items: seq<CreatedItem>)

  /** Everything outside Order Service that decides how one call goes. */
  datatype World = World(
    claims: Result<IdText>,               // requireAuthenticated
    lookup: Result<seq<ProductInfo>>,     // GetProductsByIDs
    refusal: nat -> Option<Kind>,         // the error of the i-th ReserveStock call, if it has one
    taken: nat -> bool,                   // whether the broker takes the i-th release
    freshId: Id, rows: seq<Returned>, faults: Faults,   // orderRepo.Create
    announced: bool,                      // whether the broker takes order.created
    markFault: bool)                      // whether UpdateStatus(failed) errs

  function LineOf(item: OrderItem): Line { Line(item.product, item.quantity) }

  function LinesOf(items: seq<OrderItem>): seq<Line> {
    seq(|items|, i requires 0 <= i < |items| => LineOf(items[i]))
  }

  function Attempts(lines: seq<Line>, reason: Reason, taken: nat -> bool): seq<Release> {
    seq(|lines|, i requires 0 <= i < |lines| => Release(lines[i], reason, taken(i)))
  }

  function CreatedItems(items: seq<OrderItem>): seq<CreatedItem> {
    seq(|items|, i requires 0 <= i < |items| => CreatedItem(items[i].product, items[i].quantity, items[i].unitPrice))
  }

  /** The order.created message of an order. */
  function Announcement(user: Id, items: seq<OrderItem>, w: World): OrderCreated {
    OrderCreated(w.freshId, user, WrappingTotal(items), CreatedItems(items))
  }

  // ------------------------------------------------- what an order is made of

  predicate WellFormed(req: seq<Option<RequestItem>>) {
    forall i :: 0 <= i < |req| ==> req[i].Some? && req[i].value.quantity > 0 && !req[i].value.product.NotAnId?
  }

  /** Product Service's answer for one text; the last one counts if it answers twice. */
  function Answer(products: seq<ProductInfo>, text: IdText): Option<ProductInfo> {
    if products == [] then None
    else
      var last := products[|products| - 1];
      if last.id == text then Some(last) else Answer(products[..|products| - 1], text)
  }

  /** The k-th product is the last one answered for this text. */
  predicate LastAnswer(products: seq<ProductInfo>, text: IdText, k: int) {
    0 <= k < |products| && products[k].id == text && forall j :: k < j < |products| ==> products[j].id != text
  }

  lemma {:induction false} AnswerIsLast(products: seq<ProductInfo>, text: IdText)
    ensures forall k :: LastAnswer(products, text, k) ==> Answer(products, text) == Some(products[k])
    ensures Answer(products, text).Some? ==> exists k :: LastAnswer(products, text, k)
  {
    if products != [] {
      var n := |products| - 1;
      AnswerIsLast(products[..n], text);
      if products[n].id == text {
        assert LastAnswer(products, text, n);
      } else if Answer(products, text).Some? {
        var k :| LastAnswer(products[..n], text, k);
        assert LastAnswer(products, text, k);
      }
      forall k | LastAnswer(products, text, k) ensures Answer(products, text) == Some(products[k]) {
        if k < n { assert LastAnswer(products[..n], text, k); }
      }
    }
  }

  /** The product was answered, and the answer that counts says it is active. */
  predicate Available(products: seq<ProductInfo>, text: IdText) {
    Answer(products, text).Some? && Answer(products, text).value.active
  }

  lemma AvailableExactly(products: seq<ProductInfo>, text: IdText)
    ensures Available(products, text) <==> exists k :: LastAnswer(products, text, k) && products[k].active
  {
    AnswerIsLast(products, text);
  }

  predicate AllAvailable(req: seq<Option<RequestItem>>, products: seq<ProductInfo>) {
    forall i :: 0 <= i < |req| ==> req[i].Some? && Available(products, req[i].value.product)
  }

  predicate Buildable(req: seq<Option<RequestItem>>, lookup: Result<seq<ProductInfo>>) {
    req != [] && WellFormed(req) && lookup.Ok? && AllAvailable(req, lookup.value)
  }

  /** The item for one request line: the requested quantity at the product's present name and price. */
  function Snapshot(r: RequestItem, p: ProductInfo): OrderItem
    requires !r.product.NotAnId?
  {
    OrderItem(NIL, NIL, r.product.id, p.name, p.price, r.quantity, Wrap64(r.quantity * p.price))
  }

  function Snapshots(req: seq<Option<RequestItem>>, products: seq<ProductInfo>): seq<OrderItem>
    requires WellFormed(req) && AllAvailable(req, products)
  {
    seq(|req|, i requires 0 <= i < |req| => Snapshot(req[i].value, Answer(products, req[i].value.product).value))
  }

  // ---------------------------------------------------------------- building

  /** The first loop of buildOrderItems. */
  method CheckRequest(req: seq<Option<RequestItem>>) returns (r: Result<seq<IdText>>)
    ensures r.Ok? <==> WellFormed(req)
    ensures r.Err? ==> r.kind == InvalidInput
    ensures r.Ok? ==> |r.value| == |req| && forall i :: 0 <= i < |req| ==> r.value[i] == req[i].value.product
  {
    var ids: seq<IdText> := [];
    for k := 0 to |req|
      invariant |ids| == k && WellFormed(req[..k])
      invariant forall i :: 0 <= i < k ==> ids[i] == req[i].value.product
    {
      if req[k].None? { return Err(InvalidInput); }
      if req[k].value.quantity <= 0 { return Err(InvalidInput); }
      if Parse(req[k].value.product).None? { return Err(InvalidInput); }
      assert req[..k + 1] == req[..k] + [req[k]];
      ids := ids + [req[k].value.product];
    }
    assert req[..|req|] == req;
    return Ok(ids);
  }

  /** The product map, which is filled front to back. */
  method MapProducts(products: seq<ProductInfo>) returns (m: map<IdText, ProductInfo>)
    ensures forall t :: t in m <==> Answer(products, t).Some?
    ensures forall t :: t in m ==> Answer(products, t) == Some(m[t])
  {
    m := map[];
    for k := 0 to |products|
      invariant forall t :: t in m <==> Answer(products[..k], t).Some?
      invariant forall t :: t in m ==> Answer(products[..k], t) == Some(m[t])
    {
      assert products[..k + 1][..k] == products[..k];
      m := m[products[k].id := products[k]];
    }
    assert products[..|products|] == products;
  }

  predicate FirstUnavailable(req: seq<Option<RequestItem>>, products: seq<ProductInfo>, i: int) {
    && 0 <= i < |req| && req[i].Some? && !Available(products, req[i].value.product)
    && AllAvailable(req[..i], products)
  }

  /** buildOrderItems: one item per request line, in order, or the error of the first check that fails. */
  method BuildOrderItems(req: seq<Option<RequestItem>>, lookup: Result<seq<ProductInfo>>)
    returns (r: Result<array<OrderItem>>)
    ensures r.Ok? <==> Buildable(req, lookup)
    ensures r.Ok? ==> fresh(r.value) && r.value[..] == Snapshots(req, lookup.value)
    ensures req == [] || !WellFormed(req) ==> r == Err(InvalidInput)
    ensures req != [] && WellFormed(req) && lookup.Err? ==> r == Err(lookup.kind)
    ensures req != [] && WellFormed(req) && lookup.Ok? && r.Err? ==>
      exists i :: FirstUnavailable(req, lookup.value, i)
        && r.kind == (if exists k :: LastAnswer(lookup.value, req[i].value.product, k) then InvalidInput else NotFound)
  {
    if |req| == 0 {
      return Err(InvalidInput);
    }
    var ids := CheckRequest(req);
    if ids.Err? {
      return Err(ids.kind);
    }
    if lookup.Err? {
      return Err(lookup.kind);
    }
    var m := MapProducts(lookup.value);
    var items: seq<OrderItem> := [];
    for k := 0 to |req|
      invariant AllAvailable(req[..k], lookup.value)
      invariant items == Snapshots(req[..k], lookup.value)
    {
      var text, quantity := req[k].value.product, req[k].value.quantity;
      AnswerIsLast(lookup.value, text);
      if text !in m {
        assert FirstUnavailable(req, lookup.value, k);
        return Err(NotFound);
      }
      var p := m[text];
      if !p.active {
        assert FirstUnavailable(req, lookup.value, k);
        return Err(InvalidInput);
      }
      assert req[..k + 1] == req[..k] + [req[k]];
      items := items + [OrderItem(NIL, NIL, text.id, p.name, p.price, quantity, Wrap64(quantity * p.price))];
    }
    assert req[..|req|] == req;
    var a := new OrderItem[|items|](i requires 0 <= i < |items| => items[i]);
    assert a[..] == items;
    return Ok(a);
  }

  /** Request lines name pairwise different products. */
  predicate NoProductTwice(req: seq<Option<RequestItem>>)
    requires WellFormed(req)
  {
    forall i, j :: 0 <= i < j < |req| ==> req[i].value.product.id != req[j].value.product.id
  }

  /** The unique constraint on (order, product) is about what the request lines mean, however they are spelt. */
  lemma DistinctExactlyAsRequested(req: seq<Option<RequestItem>>, products: seq<ProductInfo>)
    requires WellFormed(req) && AllAvailable(req, products)
    ensures DistinctProducts(Snapshots(req, products)) <==> NoProductTwice(req)
  {
    var items := Snapshots(req, products);
    assert forall i :: 0 <= i < |req| ==> items[i].product == req[i].value.product.id;
    if DistinctProducts(items) {
      forall i, j | 0 <= i < j < |req| ensures req[i].value.product.id != req[j].value.product.id {
        assert items[i].product != items[j].product;
      }
    }
  }

  /** A returned row carries the generated subtotal of its product's item. */
  predicate Generated(items: seq<OrderItem>, row: Returned) {
    forall i :: 0 <= i < |items| && items[i].product == row.product ==> row.subtotal == ExactSubtotal(items[i])
  }

  /** The database's generated subtotals are the ones the service had computed, so the stored total is their sum. */
  lemma GeneratedSubtotalsAgree(before: seq<OrderItem>, after: seq<OrderItem>, orderId: Id, rows: seq<Returned>)
    requires Scattered(before, after, orderId, rows) && SubtotalsFit(before)
    requires forall i :: 0 <= i < |before| ==> Built(before[i])
    requires forall r :: 0 <= r < |rows| ==> Generated(before, rows[r])
    ensures forall i :: 0 <= i < |after| ==> after[i].subtotal == before[i].subtotal == ExactSubtotal(after[i])
  {
  }

  lemma SnapshotsAreBuilt(req: seq<Option<RequestItem>>, products: seq<ProductInfo>)
    requires WellFormed(req) && AllAvailable(req, products)
    ensures forall i :: 0 <= i < |req| ==> Built(Snapshots(req, products)[i])
  {
    forall i | 0 <= i < |req| ensures Built(Snapshots(req, products)[i]) {
      var r, p := req[i].value, Answer(products, req[i].value.product).value;
      assert r.quantity * p.price == p.price * r.quantity;
    }
  }

  // ---------------------------------------- in the request's and the lookup's terms

  /** The first lines of the request, as reservations. */
  predicate ReservedAsAsked(made: seq<Line>, req: seq<Option<RequestItem>>)
    requires WellFormed(req)
  {
    && |made| <= |req|
    && (forall i :: 0 <= i < |made| ==>
          made[i].product == req[i].value.product.id && made[i].quantity == req[i].value.quantity)
  }

  /** Each stored row has the line's product and quantity, and the name and price that were answered last. */
  ghost predicate StoredAsAsked(rows: seq<ItemRow>, orderId: Id, req: seq<Option<RequestItem>>, products: seq<ProductInfo>)
    requires WellFormed(req)
  {
    && |rows| == |req|
    && (forall i :: 0 <= i < |rows| ==>
          && rows[i].orderId == orderId && rows[i].product == req[i].value.product.id
          && rows[i].quantity == req[i].value.quantity)
    && (forall i, k :: 0 <= i < |rows| && LastAnswer(products, req[i].value.product, k) ==>
          rows[i].name == products[k].name && rows[i].unitPrice == products[k].price)
  }

  ghost predicate AnnouncedAsAsked(items: seq<CreatedItem>, req: seq<Option<RequestItem>>, products: seq<ProductInfo>)
    requires WellFormed(req)
  {
    && |items| == |req|
    && (forall i :: 0 <= i < |items| ==>
          items[i].product == req[i].value.product.id && items[i].quantity == req[i].value.quantity)
    && (forall i, k :: 0 <= i < |items| && LastAnswer(products, req[i].value.product, k) ==>
          items[i].unitPrice == products[k].price)
  }

  /** The sum over the request lines of quantity times answered price. */
  function AskedTotal(req: seq<Option<RequestItem>>, products: seq<ProductInfo>): int
    requires WellFormed(req) && AllAvailable(req, products)
  {
    if req == [] then 0
    else
      var n := |req| - 1;
      AskedTotal(req[..n], products) + req[n].value.quantity * Answer(products, req[n].value.product).value.price
  }

  lemma {:induction false} ExactTotalIsAsked(req: seq<Option<RequestItem>>, products: seq<ProductInfo>)
    requires WellFormed(req) && AllAvailable(req, products)
    ensures ExactTotal(Snapshots(req, products)) == AskedTotal(req, products)
  {
    if req != [] {
      var n := |req| - 1;
      ExactTotalIsAsked(req[..n], products);
      var items := Snapshots(req, products);
      assert items[..n] == Snapshots(req[..n], products);
    }
  }

  lemma LinesAsAsked(req: seq<Option<RequestItem>>, products: seq<ProductInfo>, k: nat)
    requires WellFormed(req) && AllAvailable(req, products) && k <= |req|
    ensures |LinesOf(Snapshots(req, products)[..k])| == k
    ensures ReservedAsAsked(LinesOf(Snapshots(req, products)[..k]), req)
  {
  }

  /** What is built from a request is what the request and the lookup say. */
  lemma BuiltAsAsked(req: seq<Option<RequestItem>>, products: seq<ProductInfo>, orderId: Id)
    requires WellFormed(req) && AllAvailable(req, products)
    ensures var items := Snapshots(req, products);
      && StoredAsAsked(RowsOf(items, orderId), orderId, req, products)
      && AnnouncedAsAsked(CreatedItems(items), req, products)
      && WrappingTotal(items) == Wrap64(AskedTotal(req, products))
  {
    SnapshotsAreBuilt(req, products);
    WrappedTotalIsWrappedSum(Snapshots(req, products));
    ExactTotalIsAsked(req, products);
    forall i | 0 <= i < |req|
      ensures forall k :: LastAnswer(products, req[i].value.product, k) ==>
        Answer(products, req[i].value.product) == Some(products[k])
    {
      AnswerIsLast(products, req[i].value.product);
    }
  }

  // ----------------------------------------------------------------- service

  /** When a call gets as far as reserving. */
  predicate Ready(request: Option<seq<Option<RequestItem>>>, w: World) {
    request.Some? && w.claims.Ok? && !w.claims.value.NotAnId? && Buildable(request.value, w.lookup)
  }

  /** When, besides, every reservation is granted. */
  predicate AllReserved(request: Option<seq<Option<RequestItem>>>, w: World) {
    && Ready(request, w)
    && (forall i: nat :: i < |request.value| ==> w.refusal(i).None?)
  }

  /** When orderRepo.Create stores these items with the total CalculateTotal has computed. */
  predicate Persistable(items: seq<OrderItem>, w: World) {
    && (forall i :: 0 <= i < |items| ==> items[i].unitPrice >= 0)
    && Insertable(items, WrappingTotal(items), w.rows, w.faults) && !w.faults.commit
  }

  /** When a call stores its order. */
  predicate Stores(request: Option<seq<Option<RequestItem>>>, w: World) {
    AllReserved(request, w) && Persistable(Snapshots(request.value, w.lookup.value), w)
  }

  predicate AskedFor(req: seq<Option<RequestItem>>, product: Id)
    requires WellFormed(req)
  {
    exists i :: 0 <= i < |req| && req[i].value.product.id == product
  }

  /** The answered price of a line is not negative, and times the quantity it fits BIGINT. */
  ghost predicate PriceFits(line: RequestItem, products: seq<ProductInfo>) {
    forall k :: LastAnswer(products, line.product, k) ==>
      0 <= products[k].price && line.quantity * products[k].price < TWO_63
  }

  lemma PricesFit(req: seq<Option<RequestItem>>, products: seq<ProductInfo>)
    requires WellFormed(req) && AllAvailable(req, products)
    ensures var items := Snapshots(req, products);
      (forall i :: 0 <= i < |items| ==> items[i].unitPrice >= 0) && SubtotalsFit(items)
      <==> forall i :: 0 <= i < |req| ==> PriceFits(req[i].value, products)
  {
    var items := Snapshots(req, products);
    forall i | 0 <= i < |req|
      ensures items[i].unitPrice >= 0 && -TWO_63 <= ExactSubtotal(items[i]) < TWO_63 <==> PriceFits(req[i].value, products)
    {
      AnswerIsLast(products, req[i].value.product);
      var k :| LastAnswer(products, req[i].value.product, k);
      assert items[i].unitPrice == products[k].price && items[i].quantity == req[i].value.quantity;
      if products[k].price >= 0 {
        ProductBound(products[k].price, req[i].value.quantity, products[k].price, req[i].value.quantity);
      }
    }
  }

  lemma RowsComplete(req: seq<Option<RequestItem>>, products: seq<ProductInfo>, rows: seq<Returned>)
    requires WellFormed(req) && AllAvailable(req, products)
    ensures Complete(Snapshots(req, products), rows)
      <==> |rows| == |req| && forall r :: 0 <= r < |rows| ==> AskedFor(req, rows[r].product)
  {
    var items := Snapshots(req, products);
    assert forall i :: 0 <= i < |req| ==> items[i].product == req[i].value.product.id;
    forall r | 0 <= r < |rows| ensures Names(items, rows[r].product) <==> AskedFor(req, rows[r].product) {
      if Names(items, rows[r].product) {
        var i :| 0 <= i < |items| && items[i].product == rows[r].product;
        assert req[i].value.product.id == rows[r].product;
      }
      if AskedFor(req, rows[r].product) {
        var i :| 0 <= i < |req| && req[i].value.product.id == rows[r].product;
        assert items[i].product == rows[r].product;
      }
    }
  }

  /**
   When an order is stored, in the terms of the request, the lookup and the faults alone: every line reserved, no
   product twice, prices and subtotals in range, a total that has not wrapped below zero, and a database that
   carries out every statement and returns one row for each line.
   */
  lemma StoresExactly(request: Option<seq<Option<RequestItem>>>, w: World)
    ensures Stores(request, w) <==>
      && AllReserved(request, w)
      && NoProductTwice(request.value)
      && (forall i :: 0 <= i < |request.value| ==> PriceFits(request.value[i].value, w.lookup.value))
      && 0 <= Wrap64(AskedTotal(request.value, w.lookup.value))
      && !w.faults.insertOrder && !w.faults.insertItems && !w.faults.commit
      && (w.faults.scan.None? || w.faults.scan.value >= |w.rows|)
      && |w.rows| == |request.value|
      && (forall r :: 0 <= r < |w.rows| ==> AskedFor(request.value, w.rows[r].product))
  {
    if AllReserved(request, w) {
      DistinctExactlyAsRequested(request.value, w.lookup.value);
      PricesFit(request.value, w.lookup.value);
      RowsComplete(request.value, w.lookup.value, w.rows);
      BuiltAsAsked(request.value, w.lookup.value, w.freshId);
    }
  }

  /** The reason a failing call gives for its releases. */
  function FailureReason(request: Option<seq<Option<RequestItem>>>, w: World): Reason {
    if !AllReserved(request, w) then ReservationFailed
    else if !Stores(request, w) then OrderPersistFailed
    else PublishFailed
  }

  /** The row a call leaves behind: pending, or failed when order.created could not be published. */
  function LeftBehind(user: Id, items: seq<OrderItem>, w: World): OrderRow {
    OrderRow(user, WrappingTotal(items), if w.announced || w.markFault then S.Pending else S.Failed)
  }

  /** The k-th reservation is the first to fail. */
  predicate StoppedAt(refusal: nat -> Option<Kind>, k: nat, kind: Kind) {
    refusal(k) == Some(kind) && forall i: nat :: i < k ==> refusal(i).None?
  }

  lemma SameLines(xs: seq<OrderItem>, ys: seq<OrderItem>)
    requires SameGoodsAll(xs, ys)
    ensures LinesOf(xs) == LinesOf(ys) && CreatedItems(xs) == CreatedItems(ys)
  {
  }

  class OrderService {
    const repo: Repository
    var reservations: seq<Line>        // every ReserveStock that succeeded
    var releases: seq<Release>         // every stock.release_requested attempted
    var announced: seq<OrderCreated>   // every order.created the broker took

    constructor (repo: Repository)
      ensures this.repo == repo && reservations == [] && releases == [] && announced == []
    {
      this.repo := repo;
      reservations, releases, announced := [], [], [];
    }

    /** compensateReservations: `held` are the items, by position, that were reserved. */
    method CompensateReservations(items: array<OrderItem>, held: nat, reason: Reason, taken: nat -> bool)
      requires held <= items.Length
      modifies this`releases
      ensures releases == old(releases) + Attempts(LinesOf(items[..held]), reason, taken)
    {
      if held == 0 {
        return;
      }
      for k := 0 to held
        invariant releases == old(releases) + Attempts(LinesOf(items[..k]), reason, taken)
      {
        // a publish that fails is logged and the loop goes on
        releases := releases + [Release(Line(items[k].product, items[k].quantity), reason, taken(k))];
        assert items[..k + 1] == items[..k] + [items[k]];
      }
    }

    /** reserveItems: all of them, or the first error after releasing those before it. */
    method ReserveItems(items: array<OrderItem>, refusal: nat -> Option<Kind>, taken: nat -> bool)
      returns (r: Result<nat>)
      modifies this`reservations, this`releases
      ensures r.Ok? <==> forall i: nat :: i < items.Length ==> refusal(i).None?
      ensures r.Ok? ==> r.value == items.Length && releases == old(releases)
      ensures r.Ok? ==> reservations == old(reservations) + LinesOf(items[..])
      ensures r.Err? ==> exists k: nat ::
        (&& k < items.Length && StoppedAt(refusal, k, r.kind)
         && reservations == old(reservations) + LinesOf(items[..k])
         && releases == old(releases) + Attempts(LinesOf(items[..k]), ReservationFailed, taken))
    {
      var held := 0;
      while held < items.Length
        invariant held <= items.Length && releases == old(releases)
        invariant reservations == old(reservations) + LinesOf(items[..held])
        invariant forall i: nat :: i < held ==> refusal(i).None?
      {
        var err := refusal(held);
        if err.Some? {
          CompensateReservations(items, held, ReservationFailed, taken);
          assert StoppedAt(refusal, held, err.value);
          return Err(err.value);
        }
        reservations := reservations + [Line(items[held].product, items[held].quantity)];
        assert items[..held + 1] == items[..held] + [items[held]];
        held := held + 1;
      }
      assert items[..held] == items[..];
      return Ok(held);
    }

    /** PublishOrderCreated; a failed publish enqueues nothing. */
    method PublishOrderCreated(order: Order, taken: bool) returns (ok: bool)
      modifies this`announced
      ensures ok == taken
      ensures announced == if ok
        then old(announced) + [OrderCreated(order.id, order.user, order.totalAmount, CreatedItems(order.items[..]))]
        else old(announced)
    {
      var lines: seq<CreatedItem> := [];
      for k := 0 to order.items.Length
        invariant lines == CreatedItems(order.items[..k])
      {
        var item := order.items[k];
        assert order.items[..k + 1] == order.items[..k] + [item];
        lines := lines + [CreatedItem(item.product, item.quantity, item.unitPrice)];
      }
      assert order.items[..order.items.Length] == order.items[..];
      if taken {
        announced := announced + [OrderCreated(order.id, order.user, order.totalAmount, lines)];
      }
      ok := taken;
    }

    /**
     CreateOrder.  Compensation is exact: whatever fails and wherever, the releases a failing call attempts
     are the reservations it made, in order; a successful call attempts none, and every item it was asked
     for is reserved, stored and announced, at the price and under the name Product Service answered.  It succeeds
     exactly when nothing it depends on fails: the total check in orderRepo.Create never turns an order away.
     */
    method CreateOrder(request: Option<seq<Option<RequestItem>>>, w: World) returns (r: Result<Order>)
      requires RowsUnique(w.rows) && w.freshId !in repo.orders
      modifies this, repo
      ensures r.Ok? <==> Stores(request, w) && w.announced
      // errors
      ensures request.None? || request.value == [] ==> r == Err(InvalidInput)
      ensures request.Some? && request.value != [] && w.claims.Err? ==> r == Err(w.claims.kind)
      ensures request.Some? && request.value != [] && w.claims.Ok? && w.claims.value.NotAnId? ==> r == Err(Internal)
      ensures Stores(request, w) && !w.announced ==> r == Err(Internal)
      // reservations: the lines of the request, up to the first refusal
      ensures old(reservations) <= reservations && old(releases) <= releases
      ensures !Ready(request, w) ==> reservations == old(reservations)
      ensures Ready(request, w) ==> ReservedAsAsked(reservations[|old(reservations)|..], request.value)
      ensures Ready(request, w) ==> forall i: nat :: i < |reservations| - |old(reservations)| ==> w.refusal(i).None?
      ensures Ready(request, w) && |reservations| - |old(reservations)| < |request.value| ==>
        var k := |reservations| - |old(reservations)|; w.refusal(k).Some? && r == Err(w.refusal(k).value)
      // releases: what was reserved, if the call fails
      ensures r.Ok? ==> releases == old(releases)
      ensures r.Err? ==> |releases| - |old(releases)| == |reservations| - |old(reservations)|
      ensures r.Err? ==> forall i :: 0 <= i < |reservations| - |old(reservations)| ==>
        releases[|old(releases)| + i]
          == Release(reservations[|old(reservations)| + i], FailureReason(request, w), w.taken(i))
      // rows
      ensures !Stores(request, w) ==> repo.orders == old(repo.orders) && repo.itemRows == old(repo.itemRows)
      ensures Stores(request, w) ==>
        && repo.orders == old(repo.orders)[w.freshId := OrderRow(w.claims.value.id,
             Wrap64(AskedTotal(request.value, w.lookup.value)),
             if w.announced || w.markFault then S.Pending else S.Failed)]
        && w.freshId in repo.itemRows && repo.itemRows == old(repo.itemRows)[w.freshId := repo.itemRows[w.freshId]]
        && StoredAsAsked(repo.itemRows[w.freshId], w.freshId, request.value, w.lookup.value)
      // order.created
      ensures r.Err? ==> announced == old(announced)
      ensures r.Ok? ==>
        && |announced| == |old(announced)| + 1 && old(announced) <= announced
        && var e := announced[|old(announced)|];
           && e.order == w.freshId && e.user == w.claims.value.id
           && e.total == Wrap64(AskedTotal(request.value, w.lookup.value))
           && AnnouncedAsAsked(e.items, request.value, w.lookup.value)
      ensures r.Ok? ==> Scattered(Snapshots(request.value, w.lookup.value), r.value.items[..], w.freshId, w.rows)
    {
      r := Perform(request, w);
      if Ready(request, w) {
        BuiltAsAsked(request.value, w.lookup.value, w.freshId);
      }
    }

    /** The steps of CreateOrder, against the functions of this module. */
    method Perform(request: Option<seq<Option<RequestItem>>>, w: World) returns (r: Result<Order>)
      requires RowsUnique(w.rows) && w.freshId !in repo.orders
      modifies this, repo
      ensures r.Ok? <==> Stores(request, w) && w.announced
      ensures request.None? || request.value == [] ==> r == Err(InvalidInput)
      ensures request.Some? && request.value != [] && w.claims.Err? ==> r == Err(w.claims.kind)
      ensures request.Some? && request.value != [] && w.claims.Ok? && w.claims.value.NotAnId? ==> r == Err(Internal)
      ensures Stores(request, w) && !w.announced ==> r == Err(Internal)
      ensures old(reservations) <= reservations
      ensures !Ready(request, w) ==> reservations == old(reservations)
      ensures Ready(request, w) ==> ReservedAsAsked(reservations[|old(reservations)|..], request.value)
      ensures Ready(request, w) ==> forall i: nat :: i < |reservations| - |old(reservations)| ==> w.refusal(i).None?
      ensures Ready(request, w) && |reservations| - |old(reservations)| < |request.value| ==>
        var k := |reservations| - |old(reservations)|; w.refusal(k).Some? && r == Err(w.refusal(k).value)
      ensures var made := reservations[|old(reservations)|..];
        releases == old(releases) + (if r.Ok? then [] else Attempts(made, FailureReason(request, w), w.taken))
      ensures AllReserved(request, w) ==>
        reservations == old(reservations) + LinesOf(Snapshots(request.value, w.lookup.value))
      ensures !Stores(request, w) ==> repo.orders == old(repo.orders) && repo.itemRows == old(repo.itemRows)
      ensures Stores(request, w) ==>
        var items := Snapshots(request.value, w.lookup.value);
        && repo.orders == old(repo.orders)[w.freshId := LeftBehind(w.claims.value.id, items, w)]
        && repo.itemRows == old(repo.itemRows)[w.freshId := RowsOf(items, w.freshId)]
      ensures r.Err? ==> announced == old(announced)
      ensures r.Ok? ==>
        var items := Snapshots(request.value, w.lookup.value);
        && announced == old(announced) + [Announcement(w.claims.value.id, items, w)]
        && Scattered(items, r.value.items[..], w.freshId, w.rows)
    {
      if request.None? || |request.value| == 0 {
        return Err(InvalidInput);
      }
      if w.claims.Err? {
        return Err(w.claims.kind);
      }
      var user := Parse(w.claims.value);
      if user.None? {
        return Err(Internal);
      }
      var built := BuildOrderItems(request.value, w.lookup);
      if built.Err? {
        return Err(built.kind);
      }
      var items := built.value;
      SnapshotsAreBuilt(request.value, w.lookup.value);
      ghost var reservations0, releases0 := reservations, releases;
      var reserved := ReserveItems(items, w.refusal, w.taken);
      if reserved.Err? {
        ghost var k: nat :| k < items.Length && StoppedAt(w.refusal, k, reserved.kind)
          && reservations == reservations0 + LinesOf(items[..k])
          && releases == releases0 + Attempts(LinesOf(items[..k]), ReservationFailed, w.taken);
        LinesAsAsked(request.value, w.lookup.value, k);
        return Err(reserved.kind);
      }
      LinesAsAsked(request.value, w.lookup.value, items.Length);
      assert items[..items.Length] == items[..];
      r := Place(user.value, items, reserved.value, w);
    }

    /** The order object, its total, and orderRepo.Create. */
    method Persist(user: Id, items: array<OrderItem>, w: World) returns (order: Order, err: Option<Kind>)
      requires RowsUnique(w.rows)
      requires items.Length > 0 && forall i :: 0 <= i < items.Length ==> Built(items[i])
      modifies repo, items
      ensures fresh(order) && order.items == items && order.user == user
      ensures order.totalAmount == WrappingTotal(old(items[..]))
      ensures SameGoodsAll(old(items[..]), items[..])
      ensures err.None? <==> Persistable(old(items[..]), w)
      ensures err.Some? ==> repo.orders == old(repo.orders) && repo.itemRows == old(repo.itemRows)
      ensures err.None? ==> order.id == w.freshId
      ensures err.None? ==> repo.orders == old(repo.orders)[w.freshId := OrderRow(user, order.totalAmount, S.Pending)]
      ensures err.None? ==> repo.itemRows == old(repo.itemRows)[w.freshId := RowsOf(old(items[..]), w.freshId)]
      ensures err.None? ==> Scattered(old(items[..]), items[..], w.freshId, w.rows)
    {
      ghost var wanted := items[..];
      assert forall i :: 0 <= i < |wanted| ==> Built(wanted[i]);
      order := new Order(user, items);
      var total := order.CalculateTotal();
      order.totalAmount := total;
      BuiltStays(wanted);
      err := repo.Create(order, w.freshId, w.rows, w.faults);
      GoodsDecide(wanted, items[..], w.rows, w.freshId);
    }

    /** CreateOrder from where all items are reserved. */
    method Place(user: Id, items: array<OrderItem>, held: nat, w: World) returns (r: Result<Order>)
      requires RowsUnique(w.rows) && w.freshId !in repo.orders
      requires held == items.Length > 0 && forall i :: 0 <= i < items.Length ==> Built(items[i])
      modifies this`releases, this`announced, repo, items
      ensures r.Ok? <==> Persistable(old(items[..]), w) && w.announced
      ensures r.Ok? ==> releases == old(releases)
      ensures r.Err? ==>
        var reason := if Persistable(old(items[..]), w) then PublishFailed else OrderPersistFailed;
        releases == old(releases) + Attempts(LinesOf(old(items[..])), reason, w.taken)
      ensures !Persistable(old(items[..]), w) ==> repo.orders == old(repo.orders) && repo.itemRows == old(repo.itemRows)
      ensures Persistable(old(items[..]), w) ==>
        && repo.orders == old(repo.orders)[w.freshId := LeftBehind(user, old(items[..]), w)]
        && repo.itemRows == old(repo.itemRows)[w.freshId := RowsOf(old(items[..]), w.freshId)]
      ensures Persistable(old(items[..]), w) && !w.announced ==> r == Err(Internal)
      ensures r.Err? ==> announced == old(announced)
      ensures r.Ok? ==> announced == old(announced) + [Announcement(user, old(items[..]), w)]
      ensures r.Ok? ==> r.value.items == items && Scattered(old(items[..]), items[..], w.freshId, w.rows)
    {
      ghost var wanted := items[..];
      var order, err := Persist(user, items, w);
      SameLines(wanted, items[..]);
      assert items[..held] == items[..];
      if err.Some? {
        CompensateReservations(items, held, OrderPersistFailed, w.taken);
        return Err(err.value);
      }
      var ok := PublishOrderCreated(order, w.announced);
      if !ok {
        CompensateReservations(items, held, PublishFailed, w.taken);
        var _ := repo.UpdateStatus(order.id, S.Failed, w.markFault);
        return Err(Internal);
      }
      return Ok(order);
    }
  }
}
