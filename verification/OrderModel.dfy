/** Order items and totals, with the wrap-around of Go's int64 written out. */
module OrderModel {
  import opened Basics
  import opened Sums

  const TWO_63: int := 0x8000_0000_0000_0000
  const TWO_64: int := 0x1_0000_0000_0000_0000

  /** Conversion to a signed 64-bit integer. */
  function Wrap64(x: int): (r: int)
    ensures -TWO_63 <= r < TWO_63
  {
    (x + TWO_63) % TWO_64 - TWO_63
  }

  datatype OrderItem = OrderItem(
    id: Id, orderId: Id, product: Id, name: string,
    unitPrice: Int64, quantity: Int32, subtotal: Int64)

  /** unitPrice * int64(quantity) as a mathematical integer. */
  function ExactSubtotal(item: OrderItem): int { item.unitPrice * item.quantity }

  function CalculateSubtotal(item: OrderItem): Int64 { Wrap64(ExactSubtotal(item)) }

  /** CalculateTotal fills in a subtotal that is still zero. */
  function Fill(item: OrderItem): OrderItem {
    if item.subtotal == 0 && item.quantity > 0 then item.(subtotal := CalculateSubtotal(item)) else item
  }

  function FillAll(items: seq<OrderItem>): seq<OrderItem> {
    seq(|items|, i requires 0 <= i < |items| => Fill(items[i]))
  }

  /** The running total of CalculateTotal, wrapping at every addition. */
  function WrappingTotal(items: seq<OrderItem>): (r: Int64) {
    if items == [] then 0 else Wrap64(WrappingTotal(items[..|items| - 1]) + items[|items| - 1].subtotal)
  }

  lemma TotalSnoc(items: seq<OrderItem>, x: OrderItem)
    ensures WrappingTotal(items + [x]) == Wrap64(WrappingTotal(items) + x.subtotal)
  {
  }

  function StoredOf(): OrderItem -> int { (x: OrderItem) => x.subtotal }
  function ExactOf(): OrderItem -> int { (x: OrderItem) => ExactSubtotal(x) }

  /** The sum of price times quantity, as a mathematical integer. */
  function ExactTotal(items: seq<OrderItem>): int { Sum(items, ExactOf()) }

  predicate QuantitiesAndPricesOk(items: seq<OrderItem>) {
    forall i :: 0 <= i < |items| ==> items[i].quantity > 0 && items[i].unitPrice >= 0
  }

  class Order {
    var id: Id
    var user: Id
    var totalAmount: Int64
    const items: array<OrderItem>

    constructor (user: Id, items: array<OrderItem>)
      ensures this.user == user && this.items == items && totalAmount == 0 && id == NIL
    {
      this.id, this.user, this.items, this.totalAmount := NIL, user, items, 0;
    }

    method CalculateTotal() returns (total: Int64)
      modifies items
      ensures items[..] == FillAll(old(items[..]))
      ensures total == WrappingTotal(items[..])
      ensures forall i :: 0 <= i < items.Length ==>
        var x := old(items[i]);
        items[i] == x.(subtotal := if x.subtotal == 0 && x.quantity > 0 then Wrap64(x.unitPrice * x.quantity) else x.subtotal)
    {
      total := 0;
      ghost var before := items[..];
      var i := 0;
      while i < items.Length
        invariant 0 <= i <= items.Length
        invariant forall j :: 0 <= j < i ==> items[j] == Fill(before[j])
        invariant forall j :: i <= j < items.Length ==> items[j] == before[j]
        invariant total == WrappingTotal(items[..i])
      {
        if items[i].subtotal == 0 && items[i].quantity > 0 {
          items[i] := items[i].(subtotal := CalculateSubtotal(items[i]));
        }
        total := Wrap64(total + items[i].subtotal);
        TotalSnoc(items[..i], items[i]);
        assert items[..i + 1] == items[..i] + [items[i]];
        i := i + 1;
      }
      assert items[..i] == items[..];
    }

    method Validate() returns (err: Option<Kind>)
      modifies items
      ensures err == None <==> items.Length > 0 && QuantitiesAndPricesOk(old(items[..]))
                               && totalAmount == WrappingTotal(FillAll(old(items[..])))
      ensures items[..] == old(items[..]) || items[..] == FillAll(old(items[..]))
      ensures err == None ==> items[..] == FillAll(old(items[..]))
      ensures err == None || err == Some(InvalidInput)
    {
      if items.Length == 0 {
        return Some(InvalidInput);
      }
      for i := 0 to items.Length
        invariant items[..] == old(items[..])
        invariant QuantitiesAndPricesOk(items[..i])
      {
        assert items[..i + 1] == items[..i] + [items[i]];
        if items[i].quantity <= 0 || items[i].unitPrice < 0 {
          assert !QuantitiesAndPricesOk(items[..]) by { assert items[..][i] == items[i]; }
          return Some(InvalidInput);
        }
      }
      assert items[..items.Length] == items[..];
      var total := CalculateTotal();
      if totalAmount != total {
        return Some(InvalidInput);
      }
      err := None;
    }
  }

  // ------------------------------------------------------------ second pass

  /** Filling twice is filling once, wrap-around included. */
  lemma FillTwice(items: seq<OrderItem>)
    ensures FillAll(FillAll(items)) == FillAll(items)
  {
  }

  /**
   The total is computed twice on the way to the database, and always comes out the same: for every item
   list, the total check of Validate accepts the total CalculateTotal has just stored.
   */
  method TotalAgreesWithItself(order: Order) returns (err: Option<Kind>)
    modifies order, order.items
    ensures err == None <==> order.items.Length > 0 && QuantitiesAndPricesOk(old(order.items[..]))
  {
    ghost var before := order.items[..];
    var total := order.CalculateTotal();
    order.totalAmount := total;
    FillTwice(before);
    assert QuantitiesAndPricesOk(FillAll(before)) <==> QuantitiesAndPricesOk(before) by {
      assert forall i :: 0 <= i < |before| ==> FillAll(before)[i] == Fill(before[i]);
      if QuantitiesAndPricesOk(FillAll(before)) {
        forall i | 0 <= i < |before| ensures before[i].quantity > 0 && before[i].unitPrice >= 0 {
          assert FillAll(before)[i] == Fill(before[i]);
        }
      }
    }
    err := order.Validate();
  }

  // -------------------------------------------------------------- exactness

  lemma WrapInRange(x: int)
    ensures Wrap64(x) == x <==> -TWO_63 <= x < TWO_63
  {
  }

  /** Wrapping a summand does not change a wrapped sum. */
  lemma WrapAdd(a: int, b: int)
    ensures Wrap64(Wrap64(a) + Wrap64(b)) == Wrap64(a + b)
  {
  }

  /** Wrapping at every addition gives the wrapped sum of the subtotals. */
  lemma {:induction false} TotalIsWrappedSum(items: seq<OrderItem>)
    ensures WrappingTotal(items) == Wrap64(Sum(items, StoredOf()))
  {
    if items != [] {
      var front, last := items[..|items| - 1], items[|items| - 1];
      TotalIsWrappedSum(front);
      WrapInRange(last.subtotal);
      WrapAdd(Sum(front, StoredOf()), last.subtotal);
    }
  }

  /** Items as buildOrderItems makes them. */
  predicate Built(item: OrderItem) {
    item.quantity > 0 && item.subtotal == Wrap64(ExactSubtotal(item))
  }

  lemma {:induction false} WrappedTotalIsWrappedSum(items: seq<OrderItem>)
    requires forall i :: 0 <= i < |items| ==> Built(items[i])
    ensures WrappingTotal(items) == Wrap64(ExactTotal(items))
  {
    if items != [] {
      var front, last := items[..|items| - 1], items[|items| - 1];
      WrappedTotalIsWrappedSum(front);
      assert Built(last);
      WrapAdd(ExactTotal(front), ExactSubtotal(last));
    }
  }

  lemma BuiltStays(items: seq<OrderItem>)
    requires forall i :: 0 <= i < |items| ==> Built(items[i])
    ensures FillAll(items) == items
  {
  }

  lemma ProductBound(a: nat, b: nat, c: nat, d: nat)
    requires a <= c && b <= d
    ensures 0 <= a * b <= c * d
  {
  }

  lemma ExactTotalNonNegative(items: seq<OrderItem>)
    requires forall i :: 0 <= i < |items| ==> items[i].quantity > 0 && items[i].unitPrice >= 0
    ensures 0 <= ExactTotal(items)
  {
    forall i | 0 <= i < |items| ensures 0 <= ExactOf()(items[i]) {
      ProductBound(items[i].unitPrice, items[i].quantity, items[i].unitPrice, items[i].quantity);
    }
    SumNonNegative(items, ExactOf());
  }

  /**
   The stored total is exactly the sum of price times quantity if and only if that sum fits 63 bits.
   (For item lists as buildOrderItems makes them, whose subtotals CalculateTotal leaves alone.)
   */
  lemma TotalExactlyWhenItFits(items: seq<OrderItem>)
    requires forall i :: 0 <= i < |items| ==> Built(items[i]) && items[i].unitPrice >= 0
    ensures FillAll(items) == items
    ensures WrappingTotal(items) == ExactTotal(items) <==> ExactTotal(items) < TWO_63
  {
    BuiltStays(items);
    ExactTotalNonNegative(items);
    WrappedTotalIsWrappedSum(items);
    WrapInRange(ExactTotal(items));
  }

  lemma {:induction false} TotalBound(items: seq<OrderItem>, bound: nat)
    requires forall i :: 0 <= i < |items| ==> ExactSubtotal(items[i]) <= bound
    ensures ExactTotal(items) <= |items| * bound
  {
    if items != [] {
      var front, last := items[..|items| - 1], items[|items| - 1];
      TotalBound(front, bound);
      assert |items| * bound == |front| * bound + bound;
    }
  }

  /**
   In particular, whenever n * max price * max quantity < 2^63 the total and every subtotal are exact,
   so they equal the sum and the values of the database's generated subtotal column.
   */
  lemma TotalExactWithinBounds(items: seq<OrderItem>, price: nat, quantity: nat)
    requires forall i :: 0 <= i < |items| ==>
               Built(items[i]) && 0 <= items[i].unitPrice <= price && items[i].quantity <= quantity
    requires |items| * (price * quantity) < TWO_63
    ensures WrappingTotal(items) == ExactTotal(items)
    ensures forall i :: 0 <= i < |items| ==> items[i].subtotal == ExactSubtotal(items[i])
  {
    TotalExactlyWhenItFits(items);
    var bound := price * quantity;
    forall i | 0 <= i < |items| ensures 0 <= ExactSubtotal(items[i]) <= bound {
      assert Built(items[i]);
      ProductBound(items[i].unitPrice, items[i].quantity, price, quantity);
    }
    TotalBound(items, bound);
    forall i | 0 <= i < |items| ensures items[i].subtotal == ExactSubtotal(items[i]) {
      assert Built(items[i]);
      ProductBound(1, bound, |items|, bound);
      WrapInRange(ExactSubtotal(items[i]));
    }
  }

  /** Four items of 2^62 each: every subtotal is exact, and the total is stored as zero. */
  lemma TotalCanWrapToZero()
    ensures var x := OrderItem(0, 0, 1, "", 0x4000_0000_0000_0000, 1, 0x4000_0000_0000_0000);
      var items := [x, x.(product := 2), x.(product := 3), x.(product := 4)];
      && (forall i :: 0 <= i < |items| ==> Built(items[i]) && items[i].subtotal == ExactSubtotal(items[i]))
      && WrappingTotal(items) == 0 && ExactTotal(items) == TWO_64
  {
    var x := OrderItem(0, 0, 1, "", 0x4000_0000_0000_0000, 1, 0x4000_0000_0000_0000);
    var y, z, w := x.(product := 2), x.(product := 3), x.(product := 4);
    SumSnoc([x, y, z], w, ExactOf());
    SumSnoc([x, y], z, ExactOf());
    SumSnoc([x], y, ExactOf());
    SumSnoc([], x, ExactOf());
    assert [] + [x] == [x] && [x] + [y] == [x, y] && [x, y] + [z] == [x, y, z] && [x, y, z] + [w] == [x, y, z, w];
    WrappedTotalIsWrappedSum([x, y, z, w]);
  }
}
