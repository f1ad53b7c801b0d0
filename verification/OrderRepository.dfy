/** orderRepository: the bulk insert that scatters returned rows over the items, and the guarded status update. */
module OrderRepository {
  import opened Basics
  import opened OrderModel
  import S = Saga

  /** A row of the items INSERT's RETURNING list. */
  datatype Returned = Returned(id: Id, product: Id, subtotal: Int64)

  /** The columns of order_items that the INSERT fills in. */
  datatype ItemRow = ItemRow(orderId: Id, product: Id, name: string, unitPrice: Int64, quantity: Int32)

  datatype OrderRow = OrderRow(user: Id, total: Int64, status: S.Status)

  /** What the primary key and uq_order_product guarantee of the inserted rows. */
  predicate RowsUnique(rows: seq<Returned>) {
    forall i, j :: 0 <= i < j < |rows| ==> rows[i].id != rows[j].id && rows[i].product != rows[j].product
  }

  predicate DistinctProducts(items: seq<OrderItem>) {
    forall i, j :: 0 <= i < j < |items| ==> items[i].product != items[j].product
  }

  /** The generated column unit_price * quantity has to fit BIGINT. */
  predicate SubtotalsFit(items: seq<OrderItem>) {
    forall i :: 0 <= i < |items| ==> -TWO_63 <= ExactSubtotal(items[i]) < TWO_63
  }

  function RowOf(item: OrderItem, orderId: Id): ItemRow {
    ItemRow(orderId, item.product, item.name, item.unitPrice, item.quantity)
  }

  function RowsOf(items: seq<OrderItem>, orderId: Id): seq<ItemRow> {
    seq(|items|, i requires 0 <= i < |items| => RowOf(items[i], orderId))
  }

  /** What no statement of Create changes in an item. */
  predicate SameGoods(x: OrderItem, y: OrderItem) {
    x.product == y.product && x.name == y.name && x.unitPrice == y.unitPrice && x.quantity == y.quantity
  }

  predicate SameGoodsAll(xs: seq<OrderItem>, ys: seq<OrderItem>) {
    |xs| == |ys| && forall i :: 0 <= i < |xs| ==> SameGoods(xs[i], ys[i])
  }

  /** An item after Create: its own order id, and the row id and subtotal of its own product's row. */
  function Stamp(item: OrderItem, orderId: Id, row: Returned): OrderItem {
    item.(orderId := orderId, id := row.id, subtotal := row.subtotal)
  }

  predicate HasItsRow(before: OrderItem, after: OrderItem, orderId: Id, rows: seq<Returned>) {
    exists r | 0 <= r < |rows| :: rows[r].product == before.product && after == Stamp(before, orderId, rows[r])
  }

  predicate Scattered(before: seq<OrderItem>, after: seq<OrderItem>, orderId: Id, rows: seq<Returned>) {
    && |after| == |before| == |rows|
    && (forall i :: 0 <= i < |before| ==> HasItsRow(before[i], after[i], orderId, rows))
    && (forall i, j :: 0 <= i < j < |after| ==> after[i].id != after[j].id && after[i].product != after[j].product)
  }

  predicate Names(items: seq<OrderItem>, product: Id) {
    exists i :: 0 <= i < |items| && items[i].product == product
  }

  /** One returned row for every item: the list RETURNING gives when nothing goes wrong, in any order. */
  predicate Complete(items: seq<OrderItem>, rows: seq<Returned>) {
    |rows| == |items| && forall r :: 0 <= r < |rows| ==> Names(items, rows[r].product)
  }

  // -------------------------------------------------------------- pigeonhole

  type Index = map<Id, nat>

  predicate Covers(index: Index, rows: seq<Returned>, k: nat) {
    k <= |rows| && forall r :: 0 <= r < k ==> rows[r].product in index
  }

  function Hits(rows: seq<Returned>, index: Index, k: nat): set<nat>
    requires Covers(index, rows, k)
  {
    if k == 0 then {} else Hits(rows, index, k - 1) + {index[rows[k - 1].product]}
  }

  predicate Injective(index: Index) {
    forall p, q :: p in index && q in index && p != q ==> index[p] != index[q]
  }

  lemma {:induction false} HitBy(rows: seq<Returned>, index: Index, k: nat, i: nat) returns (r: nat)
    requires Covers(index, rows, k) && i in Hits(rows, index, k)
    ensures r < k && index[rows[r].product] == i
  {
    if index[rows[k - 1].product] == i {
      r := k - 1;
    } else {
      r := HitBy(rows, index, k - 1, i);
    }
  }

  lemma {:induction false} HitsSize(rows: seq<Returned>, index: Index, k: nat)
    requires RowsUnique(rows) && Injective(index) && Covers(index, rows, k)
    ensures |Hits(rows, index, k)| == k
  {
    if k > 0 {
      HitsSize(rows, index, k - 1);
      var last := index[rows[k - 1].product];
      if last in Hits(rows, index, k - 1) {
        var r := HitBy(rows, index, k - 1, last);
        assert false;
      }
    }
  }

  function Below(n: nat): set<nat> { if n == 0 then {} else Below(n - 1) + {n - 1} }

  lemma {:induction false} BelowIs(n: nat)
    ensures |Below(n)| == n
    ensures forall i :: i in Below(n) <==> 0 <= i < n
  {
    if n > 0 {
      BelowIs(n - 1);
    }
  }

  lemma SameSizeSubset(a: set<nat>, b: set<nat>)
    requires a <= b && |a| == |b|
    ensures a == b
  {
    assert |b - a| == |b| - |a|;
  }

  /** As many distinct rows as items, each naming an item: so no item is missed. */
  lemma NoItemMissed(rows: seq<Returned>, index: Index, i: nat) returns (r: nat)
    requires RowsUnique(rows) && Injective(index) && Covers(index, rows, |rows|) && i < |rows|
    requires forall p :: p in index ==> index[p] < |rows|
    ensures r < |rows| && index[rows[r].product] == i
  {
    var n := |rows|;
    HitsSize(rows, index, n);
    BelowIs(n);
    forall x | x in Hits(rows, index, n) ensures x in Below(n) {
      var q := HitBy(rows, index, n, x);
      assert rows[q].product in index;
    }
    SameSizeSubset(Hits(rows, index, n), Below(n));
    assert i in Hits(rows, index, n);
    r := HitBy(rows, index, n, i);
  }

  // -------------------------------------------------------------- the loops

  predicate IndexOf(index: Index, items: seq<OrderItem>) {
    && (forall p :: p in index ==> index[p] < |items| && items[index[p]].product == p)
    && (forall i :: 0 <= i < |items| ==> items[i].product in index)
  }

  lemma IndexIsInjective(index: Index, items: seq<OrderItem>)
    requires IndexOf(index, items)
    ensures Injective(index)
  {
  }

  lemma IndexCovers(index: Index, items: seq<OrderItem>, rows: seq<Returned>)
    requires IndexOf(index, items)
    ensures Complete(items, rows) <==> |rows| == |items| && Covers(index, rows, |rows|)
  {
  }

  /** The first loop: stamps the order id and fills the five parallel arrays. */
  method FillColumns(items: array<OrderItem>, orderId: Id)
    returns (orderIds: array<Id>, products: array<Id>, names: array<string>, prices: array<Int64>, quantities: array<Int32>)
    modifies items
    ensures forall i :: 0 <= i < items.Length ==> items[i] == old(items[i]).(orderId := orderId)
    ensures orderIds.Length == products.Length == names.Length == prices.Length == quantities.Length == items.Length
    ensures forall i :: 0 <= i < items.Length ==> orderIds[i] == orderId && products[i] == old(items[i]).product
    ensures forall i :: 0 <= i < items.Length ==>
      names[i] == old(items[i]).name && prices[i] == old(items[i]).unitPrice && quantities[i] == old(items[i]).quantity
  {
    var n := items.Length;
    orderIds, products, names := new Id[n], new Id[n], new string[n];
    prices, quantities := new Int64[n], new Int32[n];
    for i := 0 to n
      invariant forall j :: 0 <= j < i ==> items[j] == old(items[j]).(orderId := orderId)
      invariant forall j :: i <= j < n ==> items[j] == old(items[j])
      invariant forall j :: 0 <= j < i ==> orderIds[j] == orderId && products[j] == old(items[j]).product
      invariant forall j :: 0 <= j < i ==>
        names[j] == old(items[j]).name && prices[j] == old(items[j]).unitPrice && quantities[j] == old(items[j]).quantity
    {
      items[i] := items[i].(orderId := orderId);
      orderIds[i] := items[i].orderId;
      products[i] := items[i].product;
      names[i] := items[i].name;
      prices[i] := items[i].unitPrice;
      quantities[i] := items[i].quantity;
    }
  }

  /** SELECT unnest($1), unnest($2), ...: the rows the INSERT stores. */
  function Unnest(orderIds: seq<Id>, products: seq<Id>, names: seq<string>, prices: seq<Int64>, quantities: seq<Int32>)
    : seq<ItemRow>
    requires |orderIds| == |products| == |names| == |prices| == |quantities|
  {
    seq(|orderIds|, i requires 0 <= i < |orderIds| =>
      ItemRow(orderIds[i], products[i], names[i], prices[i], quantities[i]))
  }

  method IndexByProduct(items: array<OrderItem>) returns (index: Index)
    ensures IndexOf(index, items[..])
  {
    index := map[];
    for i := 0 to items.Length
      invariant forall p :: p in index ==> index[p] < i && items[index[p]].product == p
      invariant forall j :: 0 <= j < i ==> items[j].product in index
    {
      index := index[items[i].product := i];
    }
  }

  /** Row r has reached the item of its product. */
  predicate Placed(before: seq<OrderItem>, after: seq<OrderItem>, index: Index, row: Returned) {
    && row.product in index && index[row.product] < |before| && |before| == |after|
    && after[index[row.product]] == before[index[row.product]].(id := row.id, subtotal := row.subtotal)
  }

  predicate ScanFails(broken: Option<nat>, rows: seq<Returned>) {
    broken.Some? && broken.value < |rows|
  }

  predicate Untouched(index: Index, rows: seq<Returned>, k: nat, i: nat)
    requires Covers(index, rows, k)
  {
    forall r :: 0 <= r < k ==> index[rows[r].product] != i
  }

  /** The scan loop: each returned row goes to the item of its product; `broken` is a row that fails to scan. */
  method Scatter(items: array<OrderItem>, index: Index, rows: seq<Returned>, broken: Option<nat>)
    returns (err: Option<Kind>, scanned: nat)
    requires IndexOf(index, items[..]) && RowsUnique(rows)
    modifies items
    ensures err.None? <==> !ScanFails(broken, rows) && Covers(index, rows, |rows|)
    ensures err.None? ==> scanned == |rows|
    ensures err.None? ==> forall r :: 0 <= r < |rows| ==> Placed(old(items[..]), items[..], index, rows[r])
    ensures SameGoodsAll(old(items[..]), items[..])
  {
    ghost var before := items[..];
    IndexIsInjective(index, before);
    err, scanned := None, 0;
    for k := 0 to |rows|
      invariant scanned == k && err.None? && Covers(index, rows, k)
      invariant broken.Some? ==> k <= broken.value
      invariant forall r :: 0 <= r < k ==> Placed(before, items[..], index, rows[r])
      invariant forall i :: 0 <= i < items.Length && Untouched(index, rows, k, i) ==> items[i] == before[i]
      invariant SameGoodsAll(before, items[..])
    {
      if broken == Some(k) {
        return Some(Internal), scanned;
      }
      if rows[k].product !in index {
        return Some(Internal), scanned;
      }
      var i := index[rows[k].product];
      assert forall r :: 0 <= r < k ==> rows[r].product != rows[k].product;
      assert Untouched(index, rows, k, i);
      items[i] := items[i].(id := rows[k].id, subtotal := rows[k].subtotal);
      scanned := scanned + 1;
      forall j | 0 <= j < items.Length && Untouched(index, rows, k + 1, j) ensures items[j] == before[j] {
        assert index[rows[k].product] != j;
        assert Untouched(index, rows, k, j);
      }
    }
  }

  lemma AllScattered(before: seq<OrderItem>, stamped: seq<OrderItem>, after: seq<OrderItem>, orderId: Id,
                     rows: seq<Returned>, index: Index)
    requires |before| == |stamped| == |after| == |rows| && RowsUnique(rows) && IndexOf(index, stamped)
    requires forall i :: 0 <= i < |before| ==> stamped[i] == before[i].(orderId := orderId)
    requires forall r :: 0 <= r < |rows| ==> Placed(stamped, after, index, rows[r])
    ensures Scattered(before, after, orderId, rows)
  {
    IndexIsInjective(index, stamped);
    forall i | 0 <= i < |before| ensures HasItsRow(before[i], after[i], orderId, rows) {
      var r := NoItemMissed(rows, index, i);
      assert Placed(stamped, after, index, rows[r]);
      assert rows[r].product == before[i].product && after[i] == Stamp(before[i], orderId, rows[r]);
    }
    forall i, j | 0 <= i < j < |after| ensures after[i].id != after[j].id && after[i].product != after[j].product {
      var r := NoItemMissed(rows, index, i);
      var q := NoItemMissed(rows, index, j);
      assert Placed(stamped, after, index, rows[r]) && Placed(stamped, after, index, rows[q]);
      assert rows[r].id != rows[q].id && rows[r].product != rows[q].product by {
        if r < q { assert rows[r].id != rows[q].id; } else { assert rows[q].id != rows[r].id; }
      }
    }
  }

  // ----------------------------------------------------- goods are preserved

  lemma FillKeepsGoods(items: seq<OrderItem>)
    ensures SameGoodsAll(items, FillAll(items))
  {
  }

  /** Everything the statements test depends on the goods alone. */
  lemma GoodsDecide(xs: seq<OrderItem>, ys: seq<OrderItem>, rows: seq<Returned>, orderId: Id)
    requires SameGoodsAll(xs, ys)
    ensures DistinctProducts(xs) == DistinctProducts(ys)
    ensures SubtotalsFit(xs) == SubtotalsFit(ys)
    ensures Complete(xs, rows) == Complete(ys, rows)
    ensures RowsOf(xs, orderId) == RowsOf(ys, orderId)
    ensures QuantitiesAndPricesOk(xs) == QuantitiesAndPricesOk(ys)
  {
  }

  lemma SameGoodsTrans(xs: seq<OrderItem>, ys: seq<OrderItem>, zs: seq<OrderItem>)
    requires SameGoodsAll(xs, ys) && SameGoodsAll(ys, zs)
    ensures SameGoodsAll(xs, zs)
  {
  }

  /** Which statements of one Create call fail. */
  datatype Faults = Faults(insertOrder: bool, insertItems: bool, scan: Option<nat>, commit: bool)

  predicate ItemsInsertable(items: seq<OrderItem>, rows: seq<Returned>, faults: Faults) {
    && !faults.insertItems && SubtotalsFit(items) && DistinctProducts(items)
    && !ScanFails(faults.scan, rows) && Complete(items, rows)
  }

  /** When the transaction's callback goes through. */
  predicate Insertable(items: seq<OrderItem>, total: Int64, rows: seq<Returned>, faults: Faults) {
    !faults.insertOrder && total >= 0 && ItemsInsertable(items, rows, faults)
  }

  /** When Create goes through. */
  predicate Creatable(items: seq<OrderItem>, total: Int64, rows: seq<Returned>, faults: Faults) {
    && items != [] && QuantitiesAndPricesOk(items) && total == WrappingTotal(FillAll(items))
    && Insertable(items, total, rows, faults) && !faults.commit
  }

  class Repository {
    var orders: map<Id, OrderRow>
    var itemRows: map<Id, seq<ItemRow>>

    constructor ()
      ensures orders == map[] && itemRows == map[]
    {
      orders, itemRows := map[], map[];
    }

    /**
     Create, for every order in which the rows may come back.  On success each item carries its order id
     and the id and subtotal of its own product's row, with no item missed; on any error nothing is stored.
     */
    method Create(order: Order, freshId: Id, rows: seq<Returned>, faults: Faults) returns (err: Option<Kind>)
      requires RowsUnique(rows)
      modifies this, order, order.items
      ensures order.user == old(order.user) && order.totalAmount == old(order.totalAmount)
      ensures SameGoodsAll(old(order.items[..]), order.items[..])
      ensures err.None? <==> Creatable(old(order.items[..]), order.totalAmount, rows, faults)
      ensures err.Some? ==> orders == old(orders) && itemRows == old(itemRows)
      ensures err.None? ==> order.id == freshId
      ensures err.None? ==> orders == old(orders)[freshId := OrderRow(order.user, order.totalAmount, S.Pending)]
      ensures err.None? ==> itemRows == old(itemRows)[freshId := RowsOf(order.items[..], freshId)]
      ensures err.None? ==> Scattered(FillAll(old(order.items[..])), order.items[..], freshId, rows)
    {
      ghost var given := order.items[..];
      FillKeepsGoods(given);
      err := order.Validate();
      if err.Some? {
        return;
      }
      ghost var filled := order.items[..];
      GoodsDecide(given, filled, rows, freshId);
      err := WithTx(order, freshId, rows, faults);
      SameGoodsTrans(given, filled, order.items[..]);
      GoodsDecide(filled, order.items[..], rows, freshId);
    }

    /** postgres.WithTx around the callback: everything it stored stays, or none of it. */
    method WithTx(order: Order, freshId: Id, rows: seq<Returned>, faults: Faults) returns (err: Option<Kind>)
      requires RowsUnique(rows)
      modifies this, order`id, order.items
      ensures SameGoodsAll(old(order.items[..]), order.items[..])
      ensures err.None? <==> Insertable(old(order.items[..]), order.totalAmount, rows, faults) && !faults.commit
      ensures err.Some? ==> orders == old(orders) && itemRows == old(itemRows)
      ensures err.None? ==> order.id == freshId
      ensures err.None? ==> orders == old(orders)[freshId := OrderRow(order.user, order.totalAmount, S.Pending)]
      ensures err.None? ==> itemRows == old(itemRows)[freshId := RowsOf(old(order.items[..]), freshId)]
      ensures err.None? ==> Scattered(old(order.items[..]), order.items[..], freshId, rows)
    {
      var orders0, itemRows0 := orders, itemRows;
      err := InsertAll(order, freshId, rows, faults);
      if err.None? && faults.commit {
        err := Some(Internal);
      }
      if err.Some? {
        orders, itemRows := orders0, itemRows0;   // rollback
      }
    }

    /** The transaction's callback. */
    method InsertAll(order: Order, freshId: Id, rows: seq<Returned>, faults: Faults) returns (err: Option<Kind>)
      requires RowsUnique(rows)
      modifies this, order`id, order.items
      ensures SameGoodsAll(old(order.items[..]), order.items[..])
      ensures err.None? <==> Insertable(old(order.items[..]), order.totalAmount, rows, faults)
      ensures err.None? ==> order.id == freshId
      ensures err.None? ==> orders == old(orders)[freshId := OrderRow(order.user, order.totalAmount, S.Pending)]
      ensures err.None? ==> itemRows == old(itemRows)[freshId := RowsOf(old(order.items[..]), freshId)]
      ensures err.None? ==> Scattered(old(order.items[..]), order.items[..], freshId, rows)
    {
      if faults.insertOrder || order.totalAmount < 0 {   // CHECK (total_amount >= 0)
        return Some(Internal);
      }
      order.id := freshId;
      orders := orders[freshId := OrderRow(order.user, order.totalAmount, S.Pending)];
      err := InsertItems(order, rows, faults);
    }

    /** The bulk insert of the items and the scatter of the returned rows. */
    method InsertItems(order: Order, rows: seq<Returned>, faults: Faults) returns (err: Option<Kind>)
      requires RowsUnique(rows)
      modifies this`itemRows, order.items
      ensures SameGoodsAll(old(order.items[..]), order.items[..])
      ensures err.None? <==> ItemsInsertable(old(order.items[..]), rows, faults)
      ensures err.None? ==> itemRows == old(itemRows)[order.id := RowsOf(old(order.items[..]), order.id)]
      ensures err.None? ==> Scattered(old(order.items[..]), order.items[..], order.id, rows)
    {
      ghost var before := order.items[..];
      var n := order.items.Length;
      var orderIds, products, names, prices, quantities := FillColumns(order.items, order.id);
      ghost var stamped := order.items[..];
      GoodsDecide(before, stamped, rows, order.id);
      if faults.insertItems || !SubtotalsFit(order.items[..]) {
        return Some(Internal);
      }
      if !DistinctProducts(order.items[..]) {            // uq_order_product
        return Some(InvalidInput);
      }
      itemRows := itemRows[order.id := Unnest(orderIds[..], products[..], names[..], prices[..], quantities[..])];
      assert itemRows[order.id] == RowsOf(before, order.id);
      var index := IndexByProduct(order.items);
      var scanned;
      err, scanned := Scatter(order.items, index, rows, faults.scan);
      SameGoodsTrans(before, stamped, order.items[..]);
      IndexCovers(index, stamped, rows);
      if err.Some? {
        return;
      }
      if scanned != n {
        return Some(Internal);
      }
      AllScattered(before, stamped, order.items[..], order.id, rows, index);
    }

    /** UPDATE orders SET status = $1 WHERE id = $2 AND status = 'pending'. */
    method UpdateStatus(id: Id, next: S.Status, fault: bool) returns (err: Option<Kind>)
      modifies this`orders
      ensures err.None? <==> !fault && id in old(orders) && old(orders)[id].status == S.Pending
      ensures err.Some? ==> err == Some(if fault then Internal else AlreadyExists)
      ensures orders == (if err.None? then old(orders)[id := old(orders)[id].(status := next)] else old(orders))
    {
      if fault {
        return Some(Internal);
      }
      if id in orders && orders[id].status == S.Pending {
        orders := orders[id := orders[id].(status := next)];
        return None;
      }
      return Some(AlreadyExists);
    }
  }
}
