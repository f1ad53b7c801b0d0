/** PaymentEventConsumer: from one payment outcome to an order status and one stock message per item. */
module PaymentOutcomes {
  import opened Basics
  import opened OrderRepository
  import opened Sums
  import S = Saga

  /** A stock message: stock.confirm_requested or stock.release_requested ("payment_failed"). */
  datatype StockMessage = StockMessage(outcome: S.Outcome, product: Id, quantity: Int32)

  /**
   What one delivery meets.  The items of an order share their created_at, by which they are read back, so
   each delivery reads them in an order of its own: `rows`.
   */
  datatype Delivery = Delivery(updateFault: bool, fetchFault: bool, rows: seq<ItemRow>, taken: nat -> bool)

  predicate Permutation(order: seq<nat>, n: nat) {
    && |order| == n && (forall i :: 0 <= i < n ==> order[i] < n)
    && (forall i, j :: 0 <= i < j < n ==> order[i] != order[j])
  }

  ghost predicate Permutes<T>(xs: seq<T>, ys: seq<T>, order: seq<nat>) {
    Permutation(order, |ys|) && |xs| == |ys| && forall i :: 0 <= i < |xs| ==> xs[i] == ys[order[i]]
  }

  /** The elements of `ys`, in some order. */
  ghost predicate Shuffled<T>(xs: seq<T>, ys: seq<T>) {
    exists order :: Permutes(xs, ys, order)
  }

  /** The rows a delivery reads are the stored ones, in some order. */
  ghost predicate Reads(d: Delivery, items: seq<ItemRow>) {
    Shuffled(d.rows, items)
  }

  ghost predicate AllRead(ds: seq<Delivery>, items: seq<ItemRow>) {
    forall i :: 0 <= i < |ds| ==> Reads(ds[i], items)
  }

  function MessagesFor(outcome: S.Outcome, items: seq<ItemRow>): seq<StockMessage> {
    seq(|items|, i requires 0 <= i < |items| => StockMessage(outcome, items[i].product, items[i].quantity))
  }

  /** How many publishes succeed before the first that does not, out of n, starting with the k-th. */
  function Streak(taken: nat -> bool, k: nat, n: nat): (r: nat)
    requires k <= n
    ensures k <= r <= n
    ensures forall i: nat :: k <= i < r ==> taken(i)
    ensures r < n ==> !taken(r)
    decreases n - k
  {
    if k == n || !taken(k) then k else Streak(taken, k + 1, n)
  }

  /** How many stock messages one delivery publishes. */
  function SentBy(d: Delivery, found: bool): (r: nat)
    ensures r <= |d.rows|
  {
    if d.updateFault || d.fetchFault || !found then 0 else Streak(d.taken, 0, |d.rows|)
  }

  /** Whether the handler returns nil. */
  predicate Clean(d: Delivery, found: bool) {
    !d.updateFault && !d.fetchFault && found && SentBy(d, found) == |d.rows|
  }

  /** The stock messages one delivery publishes. */
  function Sending(outcome: S.Outcome, d: Delivery, found: bool): seq<StockMessage> {
    MessagesFor(outcome, d.rows)[..SentBy(d, found)]
  }

  /** The orders table after UpdateStatus(next) has, or has not, reached it. */
  function Decided(orders: map<Id, OrderRow>, id: Id, next: S.Status, reached: bool): map<Id, OrderRow> {
    if reached && id in orders && orders[id].status == S.Pending then orders[id := orders[id].(status := next)] else orders
  }

  /** Messages of all deliveries of one outcome, up to and including the first clean one. */
  function SentByAll(outcome: S.Outcome, found: bool, ds: seq<Delivery>): seq<StockMessage> {
    if ds == [] then []
    else
      var first := Sending(outcome, ds[0], found);
      if Clean(ds[0], found) then first else first + SentByAll(outcome, found, ds[1..])
  }

  /** Some delivery's status update got through to the database. */
  predicate Reached(ds: seq<Delivery>) {
    ds != [] && (!ds[0].updateFault || Reached(ds[1..]))
  }

  /** A message of this outcome, with the product and the quantity of one of the items. */
  predicate SpeaksFor(m: StockMessage, outcome: S.Outcome, items: seq<ItemRow>) {
    m.outcome == outcome && exists i :: 0 <= i < |items| && items[i].product == m.product && items[i].quantity == m.quantity
  }

  predicate AnyClean(ds: seq<Delivery>, found: bool) {
    exists i :: 0 <= i < |ds| && Clean(ds[i], found)
  }

  lemma CleanTail(ds: seq<Delivery>, found: bool)
    requires ds != [] && !Clean(ds[0], found)
    ensures AnyClean(ds, found) <==> AnyClean(ds[1..], found)
  {
    if AnyClean(ds[1..], found) {
      var i :| 0 <= i < |ds[1..]| && Clean(ds[1..][i], found);
      assert Clean(ds[i + 1], found);
    }
  }

  /** A status update that comes again changes nothing. */
  lemma DecidedTwice(orders: map<Id, OrderRow>, id: Id, next: S.Status, once: bool, again: bool)
    requires next != S.Pending
    ensures Decided(Decided(orders, id, next, once), id, next, again) == Decided(orders, id, next, once || again)
  {
  }

  lemma SpeaksForRead(outcome: S.Outcome, d: Delivery, found: bool, items: seq<ItemRow>)
    requires Reads(d, items)
    ensures forall m :: 0 <= m < |Sending(outcome, d, found)| ==> SpeaksFor(Sending(outcome, d, found)[m], outcome, items)
  {
    var order :| Permutes(d.rows, items, order);
    forall m | 0 <= m < |Sending(outcome, d, found)| ensures SpeaksFor(Sending(outcome, d, found)[m], outcome, items) {
      assert d.rows[m] == items[order[m]];
    }
  }

  class PaymentEventConsumer {
    const repo: Repository
    var published: seq<StockMessage>

    constructor (repo: Repository)
      ensures this.repo == repo && published == []
    {
      this.repo := repo;
      published := [];
    }

    /** orderRepo.GetByID, for the items: the stored rows, in the order this read gets them. */
    method GetByID(id: Id, d: Delivery) returns (r: Result<seq<ItemRow>>)
      requires Reads(d, ItemsOf(id))
      ensures r.Ok? <==> !d.fetchFault && id in repo.orders
      ensures r.Ok? ==> r.value == d.rows && Shuffled(r.value, ItemsOf(id))
    {
      if d.fetchFault { return Err(Internal); }
      if id !in repo.orders { return Err(NotFound); }
      return Ok(d.rows);
    }

    function ItemsOf(id: Id): seq<ItemRow>
      reads repo
    {
      if id in repo.itemRows then repo.itemRows[id] else []
    }

    /** The publishing loop: one message per item, up to the first publish that fails. */
    method PublishAll(outcome: S.Outcome, items: seq<ItemRow>, taken: nat -> bool) returns (all: bool)
      modifies this`published
      ensures published == old(published) + MessagesFor(outcome, items)[..Streak(taken, 0, |items|)]
      ensures all <==> Streak(taken, 0, |items|) == |items|
    {
      ghost var messages := MessagesFor(outcome, items);
      for k := 0 to |items|
        invariant published == old(published) + messages[..k]
        invariant Streak(taken, 0, |items|) == Streak(taken, k, |items|)
      {
        if !taken(k) {
          assert Streak(taken, k, |items|) == k;
          return false;
        }
        published := published + [StockMessage(outcome, items[k].product, items[k].quantity)];
        assert messages[..k + 1] == messages[..k] + [messages[k]];
      }
      return true;
    }

    /** handlePaymentSucceeded and handlePaymentFailed, which differ in the status and the message kind only. */
    method Handle(id: Id, outcome: S.Outcome, d: Delivery) returns (err: Option<Kind>)
      requires Reads(d, ItemsOf(id))
      modifies repo`orders, this`published
      ensures repo.orders == Decided(old(repo.orders), id, S.StatusOf(outcome), !d.updateFault)
      ensures err.None? <==> Clean(d, id in repo.orders)
      ensures err.Some? ==> err == Some(Internal)
      ensures published == old(published) + Sending(outcome, d, id in repo.orders)
      ensures |old(published)| <= |published| <= |old(published)| + |d.rows|
      ensures err.None? ==> |published| == |old(published)| + |d.rows|
      ensures forall i :: 0 <= i < |published| - |old(published)| ==>
        && published[|old(published)| + i].outcome == outcome
        && published[|old(published)| + i].product == d.rows[i].product
        && published[|old(published)| + i].quantity == d.rows[i].quantity
    {
      var failure := repo.UpdateStatus(id, S.StatusOf(outcome), d.updateFault);
      if failure.Some? && failure != Some(AlreadyExists) {
        return Some(Internal);
      }
      var found := GetByID(id, d);
      if found.Err? {
        return Some(Internal);
      }
      var all := PublishAll(outcome, found.value, d.taken);
      return if all then None else Some(Internal);
    }

    /** The broker redelivers an outcome until its handler returns nil. */
    method DeliverUntilAcked(id: Id, outcome: S.Outcome, ds: seq<Delivery>) returns (acked: bool)
      requires AllRead(ds, ItemsOf(id))
      modifies repo`orders, this`published
      ensures acked <==> AnyClean(ds, id in repo.orders)
      ensures published == old(published) + SentByAll(outcome, id in repo.orders, ds)
      ensures repo.orders == Decided(old(repo.orders), id, S.StatusOf(outcome), Reached(ds))
      ensures old(published) <= published
      ensures forall m :: |old(published)| <= m < |published| ==> SpeaksFor(published[m], outcome, ItemsOf(id))
      decreases |ds|
    {
      if |ds| == 0 {
        return false;
      }
      assert Reads(ds[0], ItemsOf(id));
      var err := Handle(id, outcome, ds[0]);
      SpeaksForRead(outcome, ds[0], id in repo.orders, ItemsOf(id));
      if err.None? {
        return true;
      }
      acked := DeliverUntilAcked(id, outcome, ds[1..]);
      DecidedTwice(old(repo.orders), id, S.StatusOf(outcome), !ds[0].updateFault, Reached(ds[1..]));
      CleanTail(ds, id in repo.orders);
    }
  }

  /** The first clean delivery. */
  predicate FirstClean(ds: seq<Delivery>, found: bool, f: nat) {
    f < |ds| && Clean(ds[f], found) && forall i :: 0 <= i < f ==> !Clean(ds[i], found)
  }

  lemma FirstCleanTail(ds: seq<Delivery>, found: bool, f: nat)
    requires FirstClean(ds, found, f) && f > 0
    ensures FirstClean(ds[1..], found, f - 1)
  {
    forall i | 0 <= i < f - 1 ensures !Clean(ds[1..][i], found) { assert ds[1..][i] == ds[i + 1]; }
  }

  /** No delivery before the f-th published anything. */
  predicate SilentBefore(ds: seq<Delivery>, found: bool, f: nat)
    requires f <= |ds|
  {
    forall i :: 0 <= i < f ==> SentBy(ds[i], found) == 0
  }

  lemma SilentTail(ds: seq<Delivery>, found: bool, f: nat)
    requires 0 < f <= |ds|
    ensures SilentBefore(ds, found, f) <==> SentBy(ds[0], found) == 0 && SilentBefore(ds[1..], found, f - 1)
  {
    assert forall i :: 1 <= i < |ds| ==> ds[i] == ds[1..][i - 1];
    if SilentBefore(ds, found, f) {
      forall i | 0 <= i < f - 1 ensures SentBy(ds[1..][i], found) == 0 { assert ds[1..][i] == ds[i + 1]; }
    }
  }

  predicate EndsWith(s: seq<StockMessage>, t: seq<StockMessage>) {
    |t| <= |s| && s[|s| - |t|..] == t
  }

  lemma Prepend(first: seq<StockMessage>, rest: seq<StockMessage>, all: seq<StockMessage>)
    requires EndsWith(rest, all)
    ensures EndsWith(first + rest, all)
    ensures first + rest == all <==> first == [] && rest == all
  {
    if first + rest == all { assert |first| + |rest| == |all|; assert first + rest == rest; }
  }

  /** What is published before an ack ends with the clean delivery's messages, and is these if nothing came before. */
  lemma {:induction false} EndsWithClean(outcome: S.Outcome, found: bool, ds: seq<Delivery>, f: nat)
    requires FirstClean(ds, found, f)
    ensures EndsWith(SentByAll(outcome, found, ds), MessagesFor(outcome, ds[f].rows))
    ensures SentByAll(outcome, found, ds) == MessagesFor(outcome, ds[f].rows) <==> SilentBefore(ds, found, f)
  {
    var all := MessagesFor(outcome, ds[f].rows);
    var first := Sending(outcome, ds[0], found);
    if f > 0 {
      FirstCleanTail(ds, found, f);
      SilentTail(ds, found, f);
      EndsWithClean(outcome, found, ds[1..], f - 1);
      Prepend(first, SentByAll(outcome, found, ds[1..]), all);
    } else {
      assert first == all;
    }
  }

  /** Reading the items in another order gives the same messages in another order. */
  lemma MessagesShuffled(outcome: S.Outcome, xs: seq<ItemRow>, ys: seq<ItemRow>)
    requires Shuffled(xs, ys)
    ensures Shuffled(MessagesFor(outcome, xs), MessagesFor(outcome, ys))
  {
    var order :| Permutes(xs, ys, order);
    assert Permutes(MessagesFor(outcome, xs), MessagesFor(outcome, ys), order);
  }

  // ------------------------------------------------------------ how many of each

  function RowIs(product: Id, quantity: int): ItemRow -> int {
    (r: ItemRow) => if r.product == product && r.quantity == quantity then 1 else 0
  }

  function MessageIs(outcome: S.Outcome, product: Id, quantity: int): StockMessage -> int {
    (m: StockMessage) => if m.outcome == outcome && m.product == product && m.quantity == quantity then 1 else 0
  }

  /** The order with the place `j` taken out. */
  function Without(order: seq<nat>, j: nat): seq<nat> {
    seq(|order|, i requires 0 <= i < |order| => if order[i] > j then order[i] - 1 else order[i])
  }

  lemma PermutesWithout<T>(xs: seq<T>, ys: seq<T>, order: seq<nat>)
    requires Permutes(xs, ys, order) && xs != []
    ensures var n := |xs| - 1; var j := order[n];
      Permutes(xs[..n], ys[..j] + ys[j + 1..], Without(order[..n], j))
  {
  }

  lemma SumWithout<T>(ys: seq<T>, j: nat, w: T -> int)
    requires j < |ys|
    ensures Sum(ys, w) == Sum(ys[..j] + ys[j + 1..], w) + w(ys[j])
  {
    SumConcat(ys[..j], ys[j + 1..], w);
    SumConcat(ys[..j] + [ys[j]], ys[j + 1..], w);
    SumSnoc(ys[..j], ys[j], w);
    assert ys == ys[..j] + [ys[j]] + ys[j + 1..];
  }

  /** A shuffled sequence has the same sum. */
  lemma {:induction false} SumShuffled<T>(xs: seq<T>, ys: seq<T>, order: seq<nat>, w: T -> int)
    requires Permutes(xs, ys, order)
    ensures Sum(xs, w) == Sum(ys, w)
    decreases |xs|
  {
    if xs != [] {
      var n := |xs| - 1;
      var j := order[n];
      var rest, shorter := ys[..j] + ys[j + 1..], Without(order[..n], j);
      PermutesWithout(xs, ys, order);
      SumShuffled(xs[..n], rest, shorter, w);
      SumWithout(ys, j, w);
    }
  }

  lemma {:induction false} MessagesCount(outcome: S.Outcome, rows: seq<ItemRow>, product: Id, quantity: int)
    ensures Sum(MessagesFor(outcome, rows), MessageIs(outcome, product, quantity)) == Sum(rows, RowIs(product, quantity))
  {
    if rows != [] {
      var n := |rows| - 1;
      MessagesCount(outcome, rows[..n], product, quantity);
      assert MessagesFor(outcome, rows)[..n] == MessagesFor(outcome, rows[..n]);
    }
  }

  /**
   Once an outcome has been acked, what was published for it ends with one message for every item, whatever
   order each delivery read them in; and there is no more than that if and only if every delivery before the
   clean one published nothing.
   */
  lemma AckedMessages(outcome: S.Outcome, items: seq<ItemRow>, found: bool, ds: seq<Delivery>, f: nat)
    requires FirstClean(ds, found, f) && AllRead(ds, items)
    ensures var sent, all := SentByAll(outcome, found, ds), MessagesFor(outcome, items);
      && |all| <= |sent| && Shuffled(sent[|sent| - |all|..], all)
      && (Shuffled(sent, all) <==> SilentBefore(ds, found, f))
  {
    assert Reads(ds[f], items);
    MessagesShuffled(outcome, ds[f].rows, items);
    EndsWithClean(outcome, found, ds, f);
    var sent := SentByAll(outcome, found, ds);
    assert |sent| == |items| ==> sent[0..] == sent;
  }

  lemma NoMoreExactly(outcome: S.Outcome, found: bool, ds: seq<Delivery>, f: nat)
    requires FirstClean(ds, found, f)
    ensures |SentByAll(outcome, found, ds)| == |ds[f].rows| <==> SilentBefore(ds, found, f)
  {
    EndsWithClean(outcome, found, ds, f);
    var sent := SentByAll(outcome, found, ds);
    assert |sent| == |ds[f].rows| ==> sent[0..] == sent;
  }

  /**
   Nothing is forgotten and nothing repeated without need: once an outcome has been acked, among the last messages
   published for it there are, for every product and quantity, exactly as many of that outcome as the order has
   items, whatever order each delivery read them in; and there are no others if and only if every delivery before
   the clean one published nothing.
   */
  lemma AckedMeansComplete(outcome: S.Outcome, items: seq<ItemRow>, found: bool, ds: seq<Delivery>, f: nat,
                           product: Id, quantity: int)
    requires FirstClean(ds, found, f) && AllRead(ds, items)
    ensures var sent := SentByAll(outcome, found, ds);
      && |items| <= |sent|
      && Sum(sent[|sent| - |items|..], MessageIs(outcome, product, quantity)) == Sum(items, RowIs(product, quantity))
      && (|sent| == |items| <==> SilentBefore(ds, found, f))
  {
    assert Reads(ds[f], items);
    var order :| Permutes(ds[f].rows, items, order);
    EndsWithClean(outcome, found, ds, f);
    MessagesCount(outcome, ds[f].rows, product, quantity);
    SumShuffled(ds[f].rows, items, order, RowIs(product, quantity));
    NoMoreExactly(outcome, found, ds, f);
  }
}
