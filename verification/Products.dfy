/**
 The products table of Product Service and the statements its repository runs.

 Each single-statement guarded UPDATE is a function from a table to a table or an
 error.  A row that would leave the INTEGER range or break a CHECK constraint makes
 the statement fail with an internal error, as PostgreSQL does.
 */
module Products {
  import opened Basics

  datatype Details = Details(name: string, description: string, category: string, price: Int64)

  datatype Product = Product(id: Id, details: Details, totalStock: int, reservedStock: int, isActive: bool)

  type Table = map<Id, Product>

  /** The column types and CHECK constraints of the schema. */
  predicate RowOk(row: Product) {
    0 <= row.reservedStock <= row.totalStock <= MAX_INT32 && 0 <= row.details.price
  }

  /** Every row meets its constraints and is filed under its generated, hence non-nil, id. */
  predicate TableOk(t: Table) {
    NIL !in t && forall id :: id in t ==> t[id].id == id && RowOk(t[id])
  }

  function Store(t: Table, row: Product): Result<Table> {
    if RowOk(row) then Ok(t[row.id := row]) else Err(Internal)
  }

  function Reserve(t: Table, id: Id, quantity: int): Result<Table> {
    if quantity <= 0 then Err(InvalidInput)
    else if id in t && t[id].isActive && t[id].totalStock - t[id].reservedStock >= quantity then
      Store(t, t[id].(reservedStock := t[id].reservedStock + quantity))
    else Err(InvalidInput)
  }

  function Release(t: Table, id: Id, quantity: int): Result<Table> {
    if quantity <= 0 then Err(InvalidInput)
    else if id in t && t[id].reservedStock >= quantity then
      Store(t, t[id].(reservedStock := t[id].reservedStock - quantity))
    else Err(InvalidInput)
  }

  function Confirm(t: Table, id: Id, quantity: int): Result<Table> {
    if quantity <= 0 then Err(InvalidInput)
    else if id in t && t[id].reservedStock >= quantity then
      Store(t, t[id].(totalStock := t[id].totalStock - quantity, reservedStock := t[id].reservedStock - quantity))
    else Err(InvalidInput)
  }

  /** `p.Validate()`: rejects a negative price and more reserved than total. */
  predicate Valid(p: Product) {
    p.details.price >= 0 && p.reservedStock <= p.totalStock
  }

  /** Stock columns are not written: only the details and the active flag. */
  function UpdateDetails(t: Table, p: Product): Result<Table> {
    if !Valid(p) then Err(InvalidInput)
    else if p.id !in t then Err(NotFound)
    else Store(t, t[p.id].(details := p.details, isActive := p.isActive))
  }

  function SoftDelete(t: Table, id: Id): Result<Table> {
    if id in t && t[id].isActive then Store(t, t[id].(isActive := false)) else Err(NotFound)
  }

  function Find(t: Table, id: Id): Result<Product> {
    if id == NIL then Err(InvalidInput) else if id in t then Ok(t[id]) else Err(NotFound)
  }

  /** What raw GetByIDs may return, as a set: the active rows among the ids asked for. */
  ghost function ActiveRows(t: Table, ids: seq<Id>): set<Product> {
    set id | id in ids && id in t && t[id].isActive :: t[id]
  }

  /** Which columns the statements write, and which errors they give. */
  lemma StatementsByColumns(t: Table, id: Id, quantity: int, p: Product)
    requires TableOk(t)
    ensures Reserve(t, id, quantity).Ok? ==>
      Reserve(t, id, quantity).value
        == t[id := Product(id, t[id].details, t[id].totalStock, t[id].reservedStock + quantity, t[id].isActive)]
    ensures Release(t, id, quantity).Ok? ==>
      Release(t, id, quantity).value
        == t[id := Product(id, t[id].details, t[id].totalStock, t[id].reservedStock - quantity, t[id].isActive)]
    ensures Confirm(t, id, quantity).Ok? ==>
      Confirm(t, id, quantity).value
        == t[id := Product(id, t[id].details, t[id].totalStock - quantity, t[id].reservedStock - quantity, t[id].isActive)]
    ensures UpdateDetails(t, p) ==
      (if p.details.price < 0 || p.reservedStock > p.totalStock then Err(InvalidInput)
       else if p.id !in t then Err(NotFound)
       else Ok(t[p.id := Product(p.id, p.details, t[p.id].totalStock, t[p.id].reservedStock, p.isActive)]))
    ensures SoftDelete(t, id) ==
      (if id !in t || !t[id].isActive then Err(NotFound)
       else Ok(t[id := Product(id, t[id].details, t[id].totalStock, t[id].reservedStock, false)]))
  {
    if id in t { assert t[id].id == id && RowOk(t[id]); }
    if p.id in t { assert t[p.id].id == p.id && RowOk(t[p.id]); }
  }

  /**
   From a table that meets its constraints, no stock statement can overflow an INTEGER or
   hit a CHECK constraint: it is refused exactly by its own guard, and the constraints hold again.
   */
  lemma StatementsStayInRange(t: Table, id: Id, quantity: int)
    requires TableOk(t)
    ensures Reserve(t, id, quantity) != Err(Internal)
    ensures Release(t, id, quantity) != Err(Internal)
    ensures Confirm(t, id, quantity) != Err(Internal)
    ensures Reserve(t, id, quantity).Ok? <==>
            quantity > 0 && id in t && t[id].isActive && t[id].reservedStock + quantity <= t[id].totalStock
    ensures Release(t, id, quantity).Ok? <==> quantity > 0 && id in t && quantity <= t[id].reservedStock
    ensures Confirm(t, id, quantity).Ok? <==> Release(t, id, quantity).Ok?
    ensures Reserve(t, id, quantity).Ok? ==> TableOk(Reserve(t, id, quantity).value)
    ensures Release(t, id, quantity).Ok? ==> TableOk(Release(t, id, quantity).value)
    ensures Confirm(t, id, quantity).Ok? ==> TableOk(Confirm(t, id, quantity).value)
  {
  }

  /** Releasing what was just reserved restores the whole table; confirming it takes it out of the total. */
  lemma ReserveThenSettle(t: Table, id: Id, quantity: int)
    requires TableOk(t) && Reserve(t, id, quantity).Ok?
    ensures Release(Reserve(t, id, quantity).value, id, quantity) == Ok(t)
    ensures Confirm(Reserve(t, id, quantity).value, id, quantity)
         == Ok(t[id := t[id].(totalStock := t[id].totalStock - quantity)])
  {
    assert RowOk(t[id]) && t[id].id == id;
    var held := Reserve(t, id, quantity).value;
    assert held[id := t[id]] == t;
    var sold := t[id].(totalStock := t[id].totalStock - quantity);
    assert held[id := sold] == t[id := sold];
  }
}
