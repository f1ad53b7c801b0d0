/**
 The caching decorator of Product Service, with the raw repository and the stock consumers it must
 agree with.  Redis is one key space shared by products and searches; entries may expire at any time.
 */
module ProductCache {
  import opened Basics
  import opened CacheKeys
  import E = StockEvents
  import P = Products

  /** What a Redis key holds. */
  datatype Value = ProductValue(product: P.Product) | SearchValue(products: seq<P.Product>)

  type Redis = map<string, Value>

  /** Every cached product is the row it was read from. */
  ghost predicate CoherentWith(t: P.Table, redis: Redis) {
    forall id :: ProductKey(id) in redis ==>
      id in t && redis[ProductKey(id)] == ProductValue(t[id])
  }

  type Answers = set<(SearchArgs, seq<P.Product>)>

  /** Raw search gave this answer, if not for these arguments then for some with the same key. */
  ghost predicate AnsweredAlike(a: SearchArgs, rows: seq<P.Product>, answered: Answers) {
    exists b :: (b, rows) in answered && Alike(a, b)
  }

  /** No other search that was ever made has the key of this one. */
  predicate Alone(a: SearchArgs, answered: Answers) {
    forall p :: p in answered && Alike(a, p.0) ==> p.0 == a
  }

  /** Every cached search result is one the database gave for arguments with that key. */
  ghost predicate SearchesAnswered(redis: Redis, answered: Answers) {
    forall a :: SearchKey(a) in redis ==>
      redis[SearchKey(a)].SearchValue? && AnsweredAlike(a, redis[SearchKey(a)].products, answered)
  }

  // ---------------------------------------------------- pure facts about the cache

  lemma FillProduct(t: P.Table, redis: Redis, id: Id)
    requires CoherentWith(t, redis) && id in t
    ensures CoherentWith(t, redis[ProductKey(id) := ProductValue(t[id])])
  {
    var redis' := redis[ProductKey(id) := ProductValue(t[id])];
    forall x | ProductKey(x) in redis' ensures x in t && redis'[ProductKey(x)] == ProductValue(t[x]) {
      if ProductKey(x) == ProductKey(id) {
        ProductKeyInjective(x, id);
      }
    }
  }

  lemma FillProductKeepsSearches(redis: Redis, answered: Answers, id: Id, v: Value)
    requires SearchesAnswered(redis, answered)
    ensures SearchesAnswered(redis[ProductKey(id) := v], answered)
  {
    forall a { KeySpacesDisjoint(a, id); }
  }

  lemma FillSearch(redis: Redis, answered: Answers, a: SearchArgs, rows: seq<P.Product>)
    requires SearchesAnswered(redis, answered) && (a, rows) in answered
    ensures SearchesAnswered(redis[SearchKey(a) := SearchValue(rows)], answered)
  {
    forall b | SearchKey(b) == SearchKey(a) ensures AnsweredAlike(b, rows, answered) {
      SearchKeysCollide(b, a);
    }
  }

  /** For a search free of ':' only searches whose category contains ':' are in the way. */
  lemma AloneWithoutColons(a: SearchArgs, answered: Answers)
    requires ':' !in a.category && forall p :: p in answered ==> ':' !in p.0.category
    ensures Alone(a, answered)
  {
    forall p | p in answered && Alike(a, p.0) ensures p.0 == a {
      SearchKeysCollide(a, p.0);
      SearchKeyInjective(a, p.0);
    }
  }

  lemma FillSearchKeepsProducts(t: P.Table, redis: Redis, a: SearchArgs, v: Value)
    requires CoherentWith(t, redis)
    ensures CoherentWith(t, redis[SearchKey(a) := v])
  {
    forall id { KeySpacesDisjoint(a, id); }
  }

  /**
   A write that changes one row: dropping its key makes the cache agree with the new table; leaving
   the key does so exactly when the row was not cached.
   */
  lemma InvalidationIsWhatIsNeeded(t: P.Table, t': P.Table, redis: Redis, id: Id)
    requires CoherentWith(t, redis) && id in t && t'.Keys == t.Keys
    requires forall x :: x in t && x != id ==> t'[x] == t[x]
    ensures CoherentWith(t', redis - {ProductKey(id)})
    ensures t'[id] != t[id] ==> (CoherentWith(t', redis) <==> ProductKey(id) !in redis)
  {
  }

  /** The stock statements and edits change at most the row they name. */
  predicate WritesOnly(t: P.Table, r: Result<P.Table>, id: Id) {
    r.Ok? ==> id in t && r.value.Keys == t.Keys && forall x :: x in t && x != id ==> r.value[x] == t[x]
  }

  lemma StockWrites(t: P.Table, id: Id, q: int)
    requires P.TableOk(t)
    ensures WritesOnly(t, P.Reserve(t, id, q), id) && WritesOnly(t, P.Release(t, id, q), id)
    ensures WritesOnly(t, P.Confirm(t, id, q), id)
    ensures P.Reserve(t, id, q).Ok? ==> P.TableOk(P.Reserve(t, id, q).value)
    ensures P.Release(t, id, q).Ok? ==> P.TableOk(P.Release(t, id, q).value)
    ensures P.Confirm(t, id, q).Ok? ==> P.TableOk(P.Confirm(t, id, q).value)
  {
  }

  lemma EditWrites(t: P.Table, id: Id, p: P.Product)
    requires P.TableOk(t)
    ensures WritesOnly(t, P.UpdateDetails(t, p), p.id) && WritesOnly(t, P.SoftDelete(t, id), id)
    ensures P.UpdateDetails(t, p).Ok? ==> P.TableOk(P.UpdateDetails(t, p).value)
    ensures P.SoftDelete(t, id).Ok? ==> P.TableOk(P.SoftDelete(t, id).value)
  {
    assert id in t ==> t[id].id == id && P.RowOk(t[id]);
    assert p.id in t ==> t[p.id].id == p.id && P.RowOk(t[p.id]);
  }

  /** Cache hits for some ids and the active rows of the others make up the active rows of all. */
  lemma MergeIsComplete(t: P.Table, ids: seq<Id>, hits: seq<P.Product>, rows: seq<P.Product>)
    requires forall p :: p in hits ==> p.id in ids && p.id in t && p == t[p.id]
    requires forall p :: p in rows ==> p.id in ids && p.id in t && p == t[p.id]
    requires forall i :: 0 <= i < |ids| && ids[i] in t && t[ids[i]].isActive ==> t[ids[i]] in hits + rows
    ensures (set p | p in hits + rows && p.isActive) == P.ActiveRows(t, ids)
  {
  }

  /** Which of the fallible external calls of one operation fail. */
  datatype Faults = Faults(
    cacheReads: set<Id>,   // ids whose cache lookup errors (or whose entry has just expired)
    database: bool,        // the database call errors
    cacheWrites: bool,     // cache writes error
    invalidation: bool)    // the cache delete errors

  datatype Body = Malformed | Decoded(event: E.Event)

  class ProductService {
    var products: P.Table
    var inbox: set<Id>
    var redis: Redis
    ghost var answered: Answers   // every answer raw Search ever gave

    ghost predicate Valid()
      reads this
    {
      P.TableOk(products) && SearchesAnswered(redis, answered)
    }

    ghost predicate Coherent()
      reads this
    {
      CoherentWith(products, redis)
    }

    constructor (initial: P.Table)
      requires P.TableOk(initial)
      ensures Valid() && Coherent() && products == initial && inbox == {} && redis == map[] && answered == {}
    {
      products, inbox, redis, answered := initial, {}, map[], {};
    }

    /** TTLs run out: any keys may disappear at any time. */
    method Expire(keys: set<string>)
      requires Valid()
      modifies this`redis
      ensures redis == old(redis) - keys && Valid()
      ensures old(Coherent()) ==> Coherent()
    {
      redis := redis - keys;
    }

    // ---------------------------------------------------------------- reads

    /** productCacheStore.GetProduct: a hit, or nothing. */
    method CacheGet(id: Id, faults: Faults) returns (hit: Option<P.Product>)
      ensures hit.Some? <==> id !in faults.cacheReads && ProductKey(id) in redis && redis[ProductKey(id)].ProductValue?
      ensures hit.Some? ==> redis[ProductKey(id)] == ProductValue(hit.value)
    {
      var key := ProductKey(id);
      if id in faults.cacheReads || key !in redis {
        return None;
      }
      match redis[key] {
        case ProductValue(p) => return Some(p);
        case SearchValue(_) => return None;   // does not decode as a product
      }
    }

    method CacheSet(p: P.Product, faults: Faults)
      requires Valid() && Coherent() && p.id in products && p == products[p.id]
      modifies this`redis
      ensures Valid() && Coherent()
      ensures redis == if faults.cacheWrites then old(redis) else old(redis)[ProductKey(p.id) := ProductValue(p)]
    {
      if !faults.cacheWrites {
        FillProduct(products, redis, p.id);
        FillProductKeepsSearches(redis, answered, p.id, ProductValue(p));
        redis := redis[ProductKey(p.id) := ProductValue(p)];
      }
    }

    /** Cached GetByID answers what raw GetByID answers. */
    method GetByID(id: Id, faults: Faults) returns (r: Result<P.Product>)
      requires Valid() && Coherent()
      modifies this`redis
      ensures Valid() && Coherent()
      ensures r == P.Find(products, id) || (faults.database && r == Err(Internal))
      ensures !faults.database ==>
        r == if id == NIL then Err(InvalidInput) else if id in products then Ok(products[id]) else Err(NotFound)
      ensures r.Ok? && !faults.cacheWrites ==> redis == old(redis)[ProductKey(id) := ProductValue(r.value)]
      ensures r.Err? || faults.cacheWrites ==> redis == old(redis)
    {
      var hit := CacheGet(id, faults);
      if hit.Some? {
        return Ok(hit.value);
      }
      if faults.database {
        return Err(Internal);
      }
      r := P.Find(products, id);
      if r.Ok? {
        CacheSet(r.value, faults);
      }
    }

    /** Raw GetByIDs: the active rows among `ids`, each once, in an order the database chooses. */
    method RawGetByIDs(ids: seq<Id>) returns (rows: seq<P.Product>)
      requires Valid()
      ensures (set p | p in rows) == P.ActiveRows(products, ids)
      ensures forall p :: p in rows ==> p.isActive
      ensures forall id :: id in ids && id in products && products[id].isActive ==> products[id] in rows
      ensures forall i, j :: 0 <= i < j < |rows| ==> rows[i] != rows[j]
      ensures forall p :: p in rows ==> p.id in ids && p.id in products && p == products[p.id]
    {
      rows := [];
      var todo := set id | id in ids && id in products && products[id].isActive;
      while todo != {}
        invariant forall id :: id in todo ==> id in ids && id in products && products[id].isActive
        invariant forall p :: p in rows ==> p.id in ids && p.id in products && p == products[p.id] && p.id !in todo
        invariant forall p :: p in rows ==> p.isActive
        invariant forall id :: id in ids && id in products && products[id].isActive && id !in todo ==> products[id] in rows
        invariant forall i, j :: 0 <= i < j < |rows| ==> rows[i] != rows[j]
        decreases todo
      {
        var id :| id in todo;
        assert products[id].id == id;
        rows := rows + [products[id]];
        todo := todo - {id};
      }
    }

    /**
     Cached GetByIDs: everything returned is the current row of an id asked for, and the active
     products returned are, as a set, exactly what raw GetByIDs gives.
     */
    method GetByIDs(ids: seq<Id>, faults: Faults) returns (r: Result<seq<P.Product>>)
      requires Valid() && Coherent()
      modifies this`redis
      ensures Valid() && Coherent()
      ensures r.Err? ==> faults.database
      ensures r.Ok? ==> forall p :: p in r.value ==> p.id in ids && p.id in products && p == products[p.id]
      ensures r.Ok? ==> (set p | p in r.value && p.isActive) == P.ActiveRows(products, ids)
      ensures r.Ok? ==> forall id :: id in ids && id in products && products[id].isActive ==> products[id] in r.value
      ensures r.Ok? && !faults.cacheWrites ==> forall p :: p in r.value ==> ProductKey(p.id) in redis
    {
      if |ids| == 0 {
        return Ok([]);
      }
      var result: seq<P.Product> := [];
      var missing: seq<Id> := [];
      for i := 0 to |ids|
        invariant Valid() && Coherent()
        invariant forall p :: p in result ==> p.id in ids && p.id in products && p == products[p.id]
        invariant forall p :: p in result ==> ProductKey(p.id) in redis
        invariant forall x :: x in missing ==> x in ids
        invariant forall j :: 0 <= j < i ==> ids[j] in missing || (ids[j] in products && products[ids[j]] in result)
      {
        var hit := CacheGet(ids[i], faults);
        if hit.Some? {
          assert hit.value == products[ids[i]] && hit.value.id == ids[i];
          result := result + [hit.value];
        } else {
          missing := missing + [ids[i]];
        }
      }
      if |missing| == 0 {
        MergeIsComplete(products, ids, result, []);
        return Ok(result);
      }
      if faults.database {
        return Err(Internal);
      }
      var fromDB := RawGetByIDs(missing);
      ghost var hits := result;
      for i := 0 to |fromDB|
        invariant Valid() && Coherent()
        invariant result == hits + fromDB[..i]
        invariant !faults.cacheWrites ==> forall p :: p in result ==> ProductKey(p.id) in redis
      {
        result := result + [fromDB[i]];
        CacheSet(fromDB[i], faults);
      }
      assert result == hits + fromDB;
      forall i | 0 <= i < |ids| && ids[i] in products && products[ids[i]].isActive
        ensures products[ids[i]] in hits + fromDB
      {
        if ids[i] in missing {
          assert products[ids[i]] in P.ActiveRows(products, missing);
          assert products[ids[i]] in (set p | p in fromDB);
        }
      }
      MergeIsComplete(products, ids, hits, fromDB);
      r := Ok(result);
    }

    /**
     Search, for every category: an answer is one raw Search gave for arguments with the same key, and for
     these very arguments if no other search ever made has their key.
     */
    method Search(a: SearchArgs, faults: Faults, cacheRead: bool, raw: seq<P.Product>) returns (r: Result<seq<P.Product>>)
      requires Valid()
      modifies this`redis, this`answered
      ensures Valid()
      ensures old(Coherent()) ==> Coherent()
      ensures r.Ok? ==> AnsweredAlike(a, r.value, answered)
      ensures r.Ok? && Alone(a, answered) ==> (a, r.value) in answered
      ensures var hit := cacheRead && SearchKey(a) in old(redis);
        && (hit ==> r == Ok(old(redis)[SearchKey(a)].products))
        && (!hit ==> r == if faults.database then Err(Internal) else Ok(raw))
        && answered == (if hit || faults.database then old(answered) else old(answered) + {(a, raw)})
        && redis == (if hit || faults.database || faults.cacheWrites then old(redis)
                     else old(redis)[SearchKey(a) := SearchValue(raw)])
    {
      var key := SearchKey(a);
      if cacheRead && key in redis && redis[key].SearchValue? {
        return Ok(redis[key].products);
      }
      if faults.database {
        return Err(Internal);
      }
      answered := answered + {(a, raw)};
      if !faults.cacheWrites {
        FillSearch(redis, answered, a, raw);
        ghost var before := redis;
        redis := redis[key := SearchValue(raw)];
        if CoherentWith(products, before) {
          FillSearchKeepsProducts(products, before, a, SearchValue(raw));
        }
      }
      r := Ok(raw);
    }

    // --------------------------------------------------------------- writes

    /** Store a statement's result and drop the product's key; a failed delete is ignored. */
    method Commit(r: Result<P.Table>, id: Id, faults: Faults) returns (err: Option<Kind>)
      requires Valid() && WritesOnly(products, r, id) && (r.Ok? ==> P.TableOk(r.value))
      modifies this`products, this`redis
      ensures Valid()
      ensures err == (if faults.database then Some(Internal) else if r.Err? then Some(r.kind) else None)
      ensures products == (if err.None? then r.value else old(products))
      ensures err.Some? ==> redis == old(redis)
      ensures old(Coherent()) && !faults.invalidation ==> Coherent()
      ensures old(Coherent()) && faults.invalidation ==>
                (Coherent() <==> products == old(products) || ProductKey(id) !in old(redis))
    {
      if faults.database {
        return Some(Internal);
      }
      if r.Err? {
        return Some(r.kind);
      }
      ghost var t, t', before := products, r.value, redis;
      products := r.value;
      if !faults.invalidation {
        redis := redis - {ProductKey(id)};
      }
      if CoherentWith(t, before) {
        InvalidationIsWhatIsNeeded(t, t', before, id);
        if t'[id] == t[id] {
          assert t' == t;
        }
      }
      err := None;
    }

    method Update(p: P.Product, faults: Faults) returns (err: Option<Kind>)
      requires Valid()
      modifies this`products, this`redis
      ensures Valid()
      ensures err.None? <==> !faults.database && P.UpdateDetails(old(products), p).Ok?
      ensures products == (if err.None? then P.UpdateDetails(old(products), p).value else old(products))
      ensures old(Coherent()) && !faults.invalidation ==> Coherent()
    {
      EditWrites(products, p.id, p);
      err := Commit(P.UpdateDetails(products, p), p.id, faults);
    }

    method Delete(id: Id, faults: Faults) returns (err: Option<Kind>)
      requires Valid()
      modifies this`products, this`redis
      ensures Valid()
      ensures err.None? <==> !faults.database && P.SoftDelete(old(products), id).Ok?
      ensures products == (if err.None? then P.SoftDelete(old(products), id).value else old(products))
      ensures old(Coherent()) && !faults.invalidation ==> Coherent()
    {
      if id in products {
        EditWrites(products, id, products[id]);
      }
      err := Commit(P.SoftDelete(products, id), id, faults);
    }

    method ReserveStock(id: Id, quantity: Int32, faults: Faults) returns (err: Option<Kind>)
      requires Valid()
      modifies this`products, this`redis
      ensures Valid()
      ensures err.None? <==> !faults.database && P.Reserve(old(products), id, quantity).Ok?
      ensures products == (if err.None? then P.Reserve(old(products), id, quantity).value else old(products))
      ensures old(Coherent()) && !faults.invalidation ==> Coherent()
    {
      StockWrites(products, id, quantity);
      err := Commit(P.Reserve(products, id, quantity), id, faults);
    }

    method ReleaseStock(id: Id, quantity: Int32, faults: Faults) returns (err: Option<Kind>)
      requires Valid()
      modifies this`products, this`redis
      ensures Valid()
      ensures err.None? <==> !faults.database && P.Release(old(products), id, quantity).Ok?
      ensures products == (if err.None? then P.Release(old(products), id, quantity).value else old(products))
      ensures old(Coherent()) && !faults.invalidation ==> Coherent()
    {
      StockWrites(products, id, quantity);
      err := Commit(P.Release(products, id, quantity), id, faults);
    }

    method ConfirmStock(id: Id, quantity: Int32, faults: Faults) returns (err: Option<Kind>)
      requires Valid()
      modifies this`products, this`redis
      ensures Valid()
      ensures err.None? <==> !faults.database && P.Confirm(old(products), id, quantity).Ok?
      ensures products == (if err.None? then P.Confirm(old(products), id, quantity).value else old(products))
      ensures old(Coherent()) && !faults.invalidation ==> Coherent()
    {
      StockWrites(products, id, quantity);
      err := Commit(P.Confirm(products, id, quantity), id, faults);
    }

    // ------------------------------------------------------------ consumers

    /** MarkProcessed: INSERT ... ON CONFLICT DO NOTHING. */
    method MarkProcessed(id: Id) returns (alreadyProcessed: bool)
      modifies this`inbox
      ensures alreadyProcessed <==> id in old(inbox)
      ensures inbox == old(inbox) + {id}
    {
      alreadyProcessed := id in inbox;
      inbox := inbox + {id};
    }

    /** WithTx around the inbox insert and the stock statement. */
    method InTransaction(e: E.Event, fault: bool) returns (err: Option<Kind>)
      requires Valid()
      modifies this`products, this`inbox
      ensures Valid()
      ensures err.None? <==> !fault && E.Transact(E.Db(old(products), old(inbox)), e).Ok?
      ensures E.Db(products, inbox) == (if fault then E.Db(old(products), old(inbox))
                                        else E.Deliver(E.Db(old(products), old(inbox)), e))
      ensures products != old(products) ==> WritesOnly(old(products), Ok(products), e.product)
    {
      err := None;
      var products0, inbox0 := products, inbox;
      var already := MarkProcessed(e.id);
      if !already && !fault {
        StockWrites(products, e.product, e.quantity);
        match E.Statement(products, e) {
          case Ok(t) => products := t;
          case Err(kind) => err := Some(kind);
        }
      }
      if fault {
        err := Some(Internal);
      }
      if err.Some? {
        products, inbox := products0, inbox0;   // rollback
      }
      assert already ==> inbox == inbox0;
    }

    /**
     Handle of the release and confirm consumers.  nil is returned, and the message acknowledged, for a
     malformed body or a committed transaction; otherwise nothing is changed.
     */
    method Handle(body: Body, faults: Faults) returns (err: Option<Kind>)
      requires Valid()
      modifies this`products, this`inbox, this`redis
      ensures Valid()
      ensures body.Malformed? ==> err.None? && products == old(products) && inbox == old(inbox) && redis == old(redis)
      ensures body.Decoded? ==>
                (err.None? <==> !faults.database && E.Transact(E.Db(old(products), old(inbox)), body.event).Ok?)
      ensures body.Decoded? ==>
                E.Db(products, inbox) == (if faults.database then E.Db(old(products), old(inbox))
                                          else E.Deliver(E.Db(old(products), old(inbox)), body.event))
      ensures err.Some? ==> redis == old(redis)
      ensures old(Coherent()) && !faults.invalidation ==> Coherent()
    {
      if body.Malformed? {
        return None;
      }
      var e := body.event;
      ghost var products0, before := products, redis;
      err := InTransaction(e, faults.database);
      if err.Some? {
        return;
      }
      if !faults.invalidation {
        redis := redis - {ProductKey(e.product)};
      }
      if CoherentWith(products0, before) && products != products0 {
        InvalidationIsWhatIsNeeded(products0, products, before, e.product);
      }
    }
  }

  /**
   The second of two searches, with the first one's answer still cached, is given that answer if and only if
   they have the same key, whether or not the first was made with its arguments.
   */
  method SecondSearch(a: SearchArgs, b: SearchArgs, forA: seq<P.Product>, forB: seq<P.Product>)
    returns (r: Result<seq<P.Product>>)
    ensures r == Ok(if Alike(a, b) then forB else forA)
  {
    var service := new ProductService(map[]);
    var none := Faults({}, false, false, false);
    var _ := service.Search(b, none, true, forB);
    SearchKeysCollide(a, b);
    r := service.Search(a, none, true, forA);
  }

  /**
   A search whose category contains ':' is followed by one whose category does not: the second is given the
   answer to the first, whatever raw Search would have answered it.
   */
  method SpoiledSearch(a: SearchArgs, forA: seq<P.Product>, forVictim: seq<P.Product>)
    returns (victim: SearchArgs, r: Result<seq<P.Product>>)
    requires ':' in a.category
    ensures victim != a && ':' !in victim.category && r == Ok(forA)
  {
    victim := Victim(a);
    r := SecondSearch(victim, a, forVictim, forA);
  }
}
