/**
 * Inventory: stock records per product and warehouse, and the routes that
 * create a record, adjust it by a delta, list a product's records and reset
 * a product's quantity.
 *
 * The schema puts no lower bound on `quantity`; only the adjust route
 * refuses to go below zero.
 */
module Inventory {
  import opened Common

  const DefaultQuantity := 0
  const DefaultSafeStock := 10
  const DefaultWarehouse := "default"

  datatype Record = Record(id: Id, product: Id, quantity: int, safeStock: int, warehouse: string)

  datatype InventoryError =
    | ProductNotFound     // 404 on create
    | CastFailed          // a malformed id made the query throw: 500
    | NotFound            // 404
    | InsufficientStock   // 400: the adjusted quantity would be negative
  {
    function Status(): int {
      match this
      case CastFailed => 500
      case InsufficientStock => 400
      case _ => 404
    }
  }

  /** `new Inventory({...})`: a field the client left out takes its schema default. */
  function NewRecord(id: Id, productId: Id, quantity: Option<int>, safeStock: Option<int>, warehouse: Option<string>): (r: Record)
    ensures r.id == id && r.product == Canonical(productId)
    ensures quantity.None? ==> r.quantity == 0
    ensures safeStock.None? ==> r.safeStock == 10
    ensures warehouse.None? ==> r.warehouse == "default"
    ensures quantity.Some? ==> r.quantity == quantity.value
    ensures safeStock.Some? ==> r.safeStock == safeStock.value
    ensures warehouse.Some? ==> r.warehouse == warehouse.value
  {
    Record(id, Canonical(productId),
      match quantity case Some(q) => q case None => DefaultQuantity,
      match safeStock case Some(s) => s case None => DefaultSafeStock,
      match warehouse case Some(w) => w case None => DefaultWarehouse)
  }

  /** The guard of `PUT /inventory/:id`: the new quantity, unless it would be negative. */
  function Adjusted(quantity: int, quantityChange: int): (r: Option<int>)
    ensures r.Some? <==> quantity + quantityChange >= 0
    ensures r.Some? ==> r.value >= 0 && r.value - quantity == quantityChange
  {
    var next := quantity + quantityChange;
    if next < 0 then None else Some(next)
  }

  /** A restock of `k` followed by a withdrawal of `k` is accepted and restores the quantity. */
  lemma AdjustRoundTrip(quantity: int, k: nat)
    requires quantity >= 0
    ensures Adjusted(quantity, k).Some?
    ensures Adjusted(Adjusted(quantity, k).value, -(k as int)) == Some(quantity)
  {
  }

  /**
   * From a negative quantity, which a reset or a create may store, the round
   * trip fails: a restock that reaches zero or more is accepted, and taking
   * the same amount out again is refused.
   */
  lemma NegativeRoundTripRefused(quantity: int, k: nat)
    requires quantity < 0 && quantity + k >= 0
    ensures Adjusted(quantity, k).Some?
    ensures Adjusted(Adjusted(quantity, k).value, -(k as int)).None?
  {
  }

  /** Applies adjustments in turn, skipping each one the route refuses. */
  function AdjustAll(quantity: int, changes: seq<int>): int
    decreases changes
  {
    if changes == [] then quantity
    else
      match Adjusted(quantity, changes[0])
      case None => AdjustAll(quantity, changes[1..])
      case Some(next) => AdjustAll(next, changes[1..])
  }

  /** No sequence of adjustments drives a non-negative quantity below zero. */
  lemma {:induction false} AdjustAllNonNegative(quantity: int, changes: seq<int>)
    requires quantity >= 0
    ensures AdjustAll(quantity, changes) >= 0
    decreases changes
  {
    if changes != [] {
      match Adjusted(quantity, changes[0])
      case None => AdjustAllNonNegative(quantity, changes[1..]);
      case Some(next) => AdjustAllNonNegative(next, changes[1..]);
    }
  }

  /** `Inventory.findById(id)` on a well-formed id. */
  function IndexOfId(records: seq<Record>, id: Id): (i: int)
    ensures -1 <= i < |records|
    ensures 0 <= i ==> records[i].id == Canonical(id)
    ensures i == -1 <==> forall j :: 0 <= j < |records| ==> records[j].id != Canonical(id)
  {
    var key := Canonical(id);
    FindFirst(records, (r: Record) => r.id == key)
  }

  /** `Inventory.findOne({ product })`: the first record of the product in collection order. */
  function IndexOfProduct(records: seq<Record>, productId: Id): (i: int)
    ensures -1 <= i < |records|
    ensures 0 <= i ==> records[i].product == Canonical(productId)
    ensures 0 <= i ==> forall j :: 0 <= j < i ==> records[j].product != Canonical(productId)
    ensures i == -1 <==> forall j :: 0 <= j < |records| ==> records[j].product != Canonical(productId)
  {
    var key := Canonical(productId);
    FindFirst(records, (r: Record) => r.product == key)
  }

  /** `Inventory.find({ product })`: every record of the product, in collection order. */
  function RecordsOf(records: seq<Record>, productId: Id): (r: seq<Record>)
    ensures forall i :: 0 <= i < |r| ==> r[i].product == Canonical(productId)
    ensures forall i :: 0 <= i < |records| && records[i].product == Canonical(productId) ==> records[i] in r
    ensures forall x :: x in r ==> x in records
    ensures forall x :: multiset(r)[x] == if x.product == Canonical(productId) then multiset(records)[x] else 0
  {
    var key := Canonical(productId);
    FilterCount(records, (x: Record) => x.product == key);
    Filter(records, (x: Record) => x.product == key)
  }

  /** The inventory collection. */
  class InventoryStore {
    var records: seq<Record>

    ghost predicate Valid()
      reads this
    {
      && (forall i :: 0 <= i < |records| ==> IsCanonicalId(records[i].id) && IsCanonicalId(records[i].product))
      && (forall i, j :: 0 <= i < j < |records| ==> records[i].id != records[j].id)
    }

    constructor ()
      ensures Valid() && records == []
    {
      records := [];
    }

    /** `POST /inventory`: `catalog` holds the existing product ids, `newId` the id the database assigns. */
    method Create(productId: Id, quantity: Option<int>, safeStock: Option<int>, warehouse: Option<string>,
                  catalog: set<Id>, newId: Id) returns (r: Result<Record, InventoryError>)
      requires Valid()
      requires IsCanonicalId(newId) && forall j :: 0 <= j < |records| ==> records[j].id != newId
      modifies this
      ensures Valid()
      ensures !IsObjectId(productId) ==> r == Failure(CastFailed) && records == old(records)
      ensures IsObjectId(productId) && Canonical(productId) !in catalog ==>
        r == Failure(ProductNotFound) && records == old(records)
      ensures IsObjectId(productId) && Canonical(productId) in catalog ==>
        var rec := NewRecord(newId, productId, quantity, safeStock, warehouse);
        r == Success(rec) && records == old(records) + [rec]
    {
      if !IsObjectId(productId) {
        return Failure(CastFailed);
      }
      if Canonical(productId) !in catalog {
        return Failure(ProductNotFound);
      }
      CanonicalOfObjectId(productId);
      var rec := NewRecord(newId, productId, quantity, safeStock, warehouse);
      records := records + [rec];
      r := Success(rec);
    }

    /**
     * `PUT /inventory/:id`: adds `quantityChange` to the record's quantity;
     * a result below zero is answered with 400 and not saved.
     */
    method Adjust(id: Id, quantityChange: int) returns (r: Result<Record, InventoryError>)
      requires Valid()
      modifies this
      ensures Valid()
      ensures !IsObjectId(id) ==> r == Failure(CastFailed) && records == old(records)
      ensures IsObjectId(id) && IndexOfId(old(records), id) == -1 ==> r == Failure(NotFound) && records == old(records)
      ensures var i := IndexOfId(old(records), id);
        IsObjectId(id) && 0 <= i ==>
          var rec := old(records)[i];
          match Adjusted(rec.quantity, quantityChange)
          case None => r == Failure(InsufficientStock) && records == old(records)
          case Some(q) => r == Success(rec.(quantity := q)) && records == old(records)[i := rec.(quantity := q)]
    {
      if !IsObjectId(id) {
        return Failure(CastFailed);
      }
      var i := IndexOfId(records, id);
      if i == -1 {
        return Failure(NotFound);
      }
      var rec := records[i];
      rec := rec.(quantity := rec.quantity + quantityChange);
      if rec.quantity < 0 {
        return Failure(InsufficientStock);
      }
      records := records[i := rec];
      r := Success(rec);
    }

    /** `GET /inventory/:productId`: the product's records, or 404 when there are none. */
    method ForProduct(productId: Id) returns (r: Result<seq<Record>, InventoryError>)
      ensures !IsObjectId(productId) ==> r == Failure(CastFailed)
      ensures IsObjectId(productId) && IndexOfProduct(records, productId) == -1 ==> r == Failure(NotFound)
      ensures IsObjectId(productId) && IndexOfProduct(records, productId) != -1 ==>
        r.Success? && r.value == RecordsOf(records, productId) && |r.value| > 0
    {
      if !IsObjectId(productId) {
        return Failure(CastFailed);
      }
      var found := RecordsOf(records, productId);
      if |found| == 0 {
        return Failure(NotFound);
      }
      assert found[0] in records;
      r := Success(found);
    }

    /** `PUT /inventory/reset/:productId`: overwrites the first record's quantity, with no sign check. */
    method Reset(productId: Id, quantity: int) returns (r: Result<Record, InventoryError>)
      requires Valid()
      modifies this
      ensures Valid()
      ensures !IsObjectId(productId) ==> r == Failure(CastFailed) && records == old(records)
      ensures IsObjectId(productId) && IndexOfProduct(old(records), productId) == -1 ==>
        r == Failure(NotFound) && records == old(records)
      ensures var i := IndexOfProduct(old(records), productId);
        IsObjectId(productId) && 0 <= i ==>
          r == Success(old(records)[i].(quantity := quantity))
          && records == old(records)[i := old(records)[i].(quantity := quantity)]
    {
      if !IsObjectId(productId) {
        return Failure(CastFailed);
      }
      var i := IndexOfProduct(records, productId);
      if i == -1 {
        return Failure(NotFound);
      }
      var rec := records[i].(quantity := quantity);
      records := records[i := rec];
      r := Success(rec);
    }
  }
}
