/**
 * Carts: one cart per user holding a list of lines, and the five cart
 * routes (get, add, update quantity, remove a product, clear).
 *
 * Lines are matched with `item.product.toString() === productId`, a
 * case-sensitive string comparison against the lower-case form the stored
 * ObjectId prints as, while a pushed line stores the id after casting.
 */
module Carts {
  import opened Common

  /** A cart line: product reference, quantity (`min: 1`) and custom fields. */
  datatype CartLine = CartLine(product: Id, quantity: int, customFields: map<string, string>)

  /** What `cartItemSchema` accepts on save: a cast product id and `quantity >= 1`. */
  predicate SavedLines(items: seq<CartLine>) {
    forall i :: 0 <= i < |items| ==> items[i].quantity >= 1 && IsCanonicalId(items[i].product)
  }

  /** At most one line per product. */
  predicate UniqueProducts(items: seq<CartLine>) {
    forall i, j :: 0 <= i < j < |items| ==> items[i].product != items[j].product
  }

  function TotalQuantity(items: seq<CartLine>): int {
    if items == [] then 0 else items[0].quantity + TotalQuantity(items[1..])
  }

  /** `cart.items.findIndex(item => item.product.toString() === productId)`. */
  function IndexOfProduct(items: seq<CartLine>, productId: Id): (i: int)
    ensures -1 <= i < |items|
    ensures 0 <= i ==> items[i].product == productId
    ensures 0 <= i ==> forall j :: 0 <= j < i ==> items[j].product != productId
    ensures i == -1 <==> forall j :: 0 <= j < |items| ==> items[j].product != productId
  {
    FindFirst(items, (l: CartLine) => l.product == productId)
  }

  /**
   * Reference definition of adding to a cart, by walking the lines: the
   * first line whose product prints as `productId` grows by `quantity`;
   * when there is none, a new line for the cast id goes at the end.
   */
  function MergeInto(items: seq<CartLine>, productId: Id, quantity: int, customFields: map<string, string>): (r: seq<CartLine>)
  {
    if items == [] then [CartLine(Canonical(productId), quantity, customFields)]
    else if items[0].product == productId then [items[0].(quantity := items[0].quantity + quantity)] + items[1..]
    else [items[0]] + MergeInto(items[1..], productId, quantity, customFields)
  }

  /** What `POST /cart` does to the lines, in the route's own terms: find the index, then `+=` or `push`. */
  function AddLine(items: seq<CartLine>, productId: Id, quantity: int, customFields: map<string, string>): (r: seq<CartLine>)
  {
    var i := IndexOfProduct(items, productId);
    if i > -1 then items[i := items[i].(quantity := items[i].quantity + quantity)]
    else items + [CartLine(Canonical(productId), quantity, customFields)]
  }

  /** When no line matches, the walk appends the new line at the end. */
  lemma {:induction false} MergeAbsent(items: seq<CartLine>, productId: Id, quantity: int, customFields: map<string, string>)
    requires forall j :: 0 <= j < |items| ==> items[j].product != productId
    ensures MergeInto(items, productId, quantity, customFields) == items + [CartLine(Canonical(productId), quantity, customFields)]
  {
    if items != [] {
      MergeAbsent(items[1..], productId, quantity, customFields);
      assert items == [items[0]] + items[1..];
    }
  }

  /** When line `i` is the first match, the walk grows exactly that line. */
  lemma {:induction false} MergePresent(items: seq<CartLine>, productId: Id, quantity: int, customFields: map<string, string>, i: nat)
    requires i < |items| && items[i].product == productId
    requires forall j :: 0 <= j < i ==> items[j].product != productId
    ensures MergeInto(items, productId, quantity, customFields) == items[i := items[i].(quantity := items[i].quantity + quantity)]
  {
    if i > 0 {
      MergePresent(items[1..], productId, quantity, customFields, i - 1);
      assert items[i := items[i].(quantity := items[i].quantity + quantity)]
          == [items[0]] + items[1..][i - 1 := items[i].(quantity := items[i].quantity + quantity)];
    }
  }

  /** The route's index-and-update agrees with the reference walk on every cart. */
  lemma AddLineIsMerge(items: seq<CartLine>, productId: Id, quantity: int, customFields: map<string, string>)
    ensures AddLine(items, productId, quantity, customFields) == MergeInto(items, productId, quantity, customFields)
  {
    var i := IndexOfProduct(items, productId);
    if i == -1 {
      MergeAbsent(items, productId, quantity, customFields);
    } else {
      MergePresent(items, productId, quantity, customFields, i);
    }
  }

  /** Adding changes the total quantity in the cart by exactly the requested amount. */
  lemma {:induction false} MergeAddsQuantity(items: seq<CartLine>, productId: Id, quantity: int, customFields: map<string, string>)
    ensures TotalQuantity(MergeInto(items, productId, quantity, customFields)) == TotalQuantity(items) + quantity
  {
    if items == [] {
    } else if items[0].product == productId {
      var r := MergeInto(items, productId, quantity, customFields);
      assert r[1..] == items[1..];
    } else {
      var r := MergeInto(items, productId, quantity, customFields);
      assert r[1..] == MergeInto(items[1..], productId, quantity, customFields);
      MergeAddsQuantity(items[1..], productId, quantity, customFields);
    }
  }

  /** Adding a product already present keeps the number of lines; a new product adds exactly one line at the end. */
  lemma AddLineShape(items: seq<CartLine>, productId: Id, quantity: int, customFields: map<string, string>)
    ensures var r := AddLine(items, productId, quantity, customFields);
      var i := IndexOfProduct(items, productId);
      && (i >= 0 ==> |r| == |items| && r[i].quantity == items[i].quantity + quantity
                     && forall j :: 0 <= j < |items| && j != i ==> r[j] == items[j])
      && (i == -1 ==> |r| == |items| + 1 && r[..|items|] == items && r[|items|] == CartLine(Canonical(productId), quantity, customFields))
  {
  }

  /** With an id written the way the database prints it, adding keeps one line per product. */
  lemma AddKeepsUniqueProducts(items: seq<CartLine>, productId: Id, quantity: int, customFields: map<string, string>)
    requires UniqueProducts(items) && IsCanonicalId(productId)
    ensures UniqueProducts(AddLine(items, productId, quantity, customFields))
  {
    CanonicalIdFixed(productId);
  }

  /**
   * An id sent with upper-case hex digits for a product already in the cart
   * is not recognised by the strict comparison, so the route appends a
   * second line for the same product.
   */
  lemma UpperCaseIdDuplicatesLine(items: seq<CartLine>, sent: Id, quantity: int, customFields: map<string, string>)
    requires SavedLines(items) && IsObjectId(sent) && Canonical(sent) != sent
    requires exists j :: 0 <= j < |items| && items[j].product == Canonical(sent)
    ensures !UniqueProducts(AddLine(items, sent, quantity, customFields))
    ensures quantity >= 1 ==> SavedLines(AddLine(items, sent, quantity, customFields))
  {
    CanonicalOfObjectId(sent);
    var j :| 0 <= j < |items| && items[j].product == Canonical(sent);
    forall k | 0 <= k < |items| ensures items[k].product != sent {
      if items[k].product == sent {
        CanonicalIdFixed(sent);
      }
    }
    var r := AddLine(items, sent, quantity, customFields);
    assert r[j].product == r[|items|].product;
  }

  /** Removing a product: `cart.items.filter(item => item.product.toString() !== productId)`. */
  function WithoutProduct(items: seq<CartLine>, productId: Id): (r: seq<CartLine>)
    ensures forall i :: 0 <= i < |r| ==> r[i].product != productId
    ensures forall i :: 0 <= i < |items| && items[i].product != productId ==> items[i] in r
    ensures forall l :: l in r ==> l in items
    ensures forall l :: multiset(r)[l] == if l.product != productId then multiset(items)[l] else 0
    ensures |r| <= |items|
    ensures SavedLines(items) ==> SavedLines(r)
  {
    var r := Filter(items, (l: CartLine) => l.product != productId);
    FilterCount(items, (l: CartLine) => l.product != productId);
    SublistSaved(items, r);
    r
  }

  lemma SublistSaved(items: seq<CartLine>, r: seq<CartLine>)
    requires forall l :: l in r ==> l in items
    ensures SavedLines(items) ==> SavedLines(r)
  {
    if SavedLines(items) {
      forall i | 0 <= i < |r| ensures r[i].quantity >= 1 && IsCanonicalId(r[i].product) {
        assert r[i] in items;
      }
    }
  }

  /** Removing an absent product leaves the lines exactly as they were. */
  lemma RemoveAbsentIsIdentity(items: seq<CartLine>, productId: Id)
    requires IndexOfProduct(items, productId) == -1
    ensures WithoutProduct(items, productId) == items
  {
    FilterKeepsAll(items, (l: CartLine) => l.product != productId);
  }

  /** Removal works line by line: the lines kept from `a + b` are those kept from `a`, then from `b`. */
  lemma RemoveKeepsOrder(a: seq<CartLine>, b: seq<CartLine>, productId: Id)
    ensures WithoutProduct(a + b, productId) == WithoutProduct(a, productId) + WithoutProduct(b, productId)
  {
    FilterAppend(a, b, (l: CartLine) => l.product != productId);
  }

  datatype CartError =
    | InvalidProductId      // 400 on add and remove
    | ProductNotFound       // 404
    | InvalidRequest        // 400 on update: bad id or quantity < 1
    | CartNotFound          // 404
    | NotInCart             // 404
    | ValidationFailed      // save threw (quantity below 1): 500
  {
    function Status(): int {
      match this
      case InvalidProductId => 400
      case InvalidRequest => 400
      case ValidationFailed => 500
      case _ => 404
    }
  }

  /** The cart collection: the user index is unique, so a map from user id to lines. */
  class CartStore {
    var carts: map<Id, seq<CartLine>>

    ghost predicate Valid()
      reads this
    {
      forall u :: u in carts ==> SavedLines(carts[u])
    }

    /** The lines of the user's cart, or none when the user has no cart. */
    function ItemsOf(user: Id): seq<CartLine>
      reads this
    {
      if user in carts then carts[user] else []
    }

    constructor ()
      ensures Valid() && carts == map[]
    {
      carts := map[];
    }

    /** `GET /cart`: a user without a cart sees an empty list of lines. */
    method Get(user: Id) returns (items: seq<CartLine>)
      ensures user !in carts ==> items == []
      ensures user in carts ==> items == carts[user]
    {
      if user in carts {
        items := carts[user];
      } else {
        items := [];
      }
    }

    /**
     * `POST /cart`: `catalog` holds the ids of the existing products. A
     * rejected request changes no cart; a user without a cart gets one.
     */
    method Add(user: Id, productId: Id, quantity: int, customFields: map<string, string>, catalog: set<Id>)
      returns (r: Result<seq<CartLine>, CartError>)
      requires Valid()
      modifies this
      ensures Valid()
      ensures !IsObjectId(productId) ==> r == Failure(InvalidProductId) && carts == old(carts)
      ensures IsObjectId(productId) && Canonical(productId) !in catalog ==>
        r == Failure(ProductNotFound) && carts == old(carts)
      ensures IsObjectId(productId) && Canonical(productId) in catalog ==>
        var items := MergeInto(old(ItemsOf(user)), productId, quantity, customFields);
        if SavedLines(items) then r == Success(items) && carts == old(carts)[user := items]
        else r == Failure(ValidationFailed) && carts == old(carts)
    {
      if !IsObjectId(productId) {
        return Failure(InvalidProductId);
      }
      if Canonical(productId) !in catalog {
        return Failure(ProductNotFound);
      }
      var before := if user in carts then carts[user] else [];
      var items := before;
      var i := IndexOfProduct(items, productId);
      if i > -1 {
        items := items[i := items[i].(quantity := items[i].quantity + quantity)];
      } else {
        items := items + [CartLine(Canonical(productId), quantity, customFields)];
      }
      assert items == AddLine(before, productId, quantity, customFields);
      AddLineIsMerge(before, productId, quantity, customFields);
      if !SavedLines(items) {
        return Failure(ValidationFailed);
      }
      carts := carts[user := items];
      r := Success(items);
    }

    /** `PUT /cart`: sets the quantity of the first line for the product, nothing else. */
    method Update(user: Id, productId: Id, quantity: int) returns (r: Result<seq<CartLine>, CartError>)
      requires Valid()
      modifies this
      ensures Valid()
      ensures !IsObjectId(productId) || quantity < 1 ==> r == Failure(InvalidRequest) && carts == old(carts)
      ensures IsObjectId(productId) && quantity >= 1 && user !in old(carts) ==>
        r == Failure(CartNotFound) && carts == old(carts)
      ensures IsObjectId(productId) && quantity >= 1 && user in old(carts) ==>
        var items := old(carts)[user];
        var i := IndexOfProduct(items, productId);
        if i == -1 then r == Failure(NotInCart) && carts == old(carts)
        else
          var updated := items[i := items[i].(quantity := quantity)];
          r == Success(updated) && carts == old(carts)[user := updated]
    {
      if !IsObjectId(productId) || quantity < 1 {
        return Failure(InvalidRequest);
      }
      if user !in carts {
        return Failure(CartNotFound);
      }
      var items := carts[user];
      var i := IndexOfProduct(items, productId);
      if i == -1 {
        return Failure(NotInCart);
      }
      items := items[i := items[i].(quantity := quantity)];
      carts := carts[user := items];
      r := Success(items);
    }

    /** `DELETE /cart/:productId`: drops every line for the product, keeping the rest in order. */
    method Remove(user: Id, productId: Id) returns (r: Result<seq<CartLine>, CartError>)
      requires Valid()
      modifies this
      ensures Valid()
      ensures !IsObjectId(productId) ==> r == Failure(InvalidProductId) && carts == old(carts)
      ensures IsObjectId(productId) && user !in old(carts) ==> r == Failure(CartNotFound) && carts == old(carts)
      ensures IsObjectId(productId) && user in old(carts) ==>
        var items := WithoutProduct(old(carts)[user], productId);
        r == Success(items) && carts == old(carts)[user := items]
    {
      if !IsObjectId(productId) {
        return Failure(InvalidProductId);
      }
      if user !in carts {
        return Failure(CartNotFound);
      }
      var items := WithoutProduct(carts[user], productId);
      carts := carts[user := items];
      r := Success(items);
    }

    /** `DELETE /cart`: empties the user's cart when there is one; always answers success. */
    method Clear(user: Id)
      requires Valid()
      modifies this
      ensures Valid()
      ensures user in old(carts) ==> carts == old(carts)[user := []]
      ensures user !in old(carts) ==> carts == old(carts)
    {
      if user in carts {
        carts := carts[user := []];
      }
    }
  }
}
