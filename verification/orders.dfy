/**
 * Orders: the `orderSchema` record with its status and shipping enums,
 * and the routes that create an order, list a user's or all orders, update
 * status and tracking number, and cancel a pending order.
 *
 * `POST /orders` builds the document from `userId`, `items` and the total
 * only; `shippingAddress` and `paymentDetails` are not schema paths, and the
 * required `shippingMethod` and receiver fields are never supplied, so the
 * save always fails validation.
 */
module Orders {
  import opened Common

  datatype Status = Pending | Paid | Shipped | Completed | Cancelled

  /** The strings of the `status` enum. */
  function StatusName(s: Status): string {
    match s
    case Pending => "Pending"
    case Paid => "Paid"
    case Shipped => "Shipped"
    case Completed => "Completed"
    case Cancelled => "Cancelled"
  }

  /** Enum validation on save: a string the enum admits, or `None`. */
  function ParseStatus(s: string): (r: Option<Status>)
    ensures r.Some? ==> StatusName(r.value) == s
  {
    if s == "Pending" then Some(Pending)
    else if s == "Paid" then Some(Paid)
    else if s == "Shipped" then Some(Shipped)
    else if s == "Completed" then Some(Completed)
    else if s == "Cancelled" then Some(Cancelled)
    else None
  }

  /** Every status survives being written out and validated again. */
  lemma StatusRoundTrip(s: Status)
    ensures ParseStatus(StatusName(s)) == Some(s)
  {
  }

  /** `CVS` is convenience-store pickup, `HOME` home delivery. */
  datatype ShippingMethod = CVS | HOME

  datatype OrderItem = OrderItem(product: Id, quantity: int, price: real)

  /** The required part of the `logistics` sub-record. */
  datatype Logistics = Logistics(receiverName: Option<string>, receiverPhone: Option<string>, receiverEmail: Option<string>)

  /** The flags of the `payment` sub-record, both `false` by default. */
  datatype Payment = Payment(isPaid: bool, simulatePaid: bool)

  datatype Order = Order(
    id: Id,
    user: Option<Id>,
    items: seq<OrderItem>,
    totalAmount: real,
    createdAt: int,
    status: Status,
    shippingMethod: Option<ShippingMethod>,
    logistics: Logistics,
    payment: Payment,
    trackingNumber: Option<string>)

  /** What `orderSchema` accepts on save. */
  predicate WellFormed(o: Order) {
    && IsCanonicalId(o.id)
    && o.user.Some? && IsCanonicalId(o.user.value)
    && (forall i :: 0 <= i < |o.items| ==> IsCanonicalId(o.items[i].product))
    && o.shippingMethod.Some?
    && Truthy(o.logistics.receiverName)
    && Truthy(o.logistics.receiverPhone)
    && Truthy(o.logistics.receiverEmail)
  }

  function LineAmount(item: OrderItem): real {
    item.price * item.quantity as real
  }

  /** The sum of `price * quantity` over the items. */
  function Sum(items: seq<OrderItem>): real {
    if items == [] then 0.0 else Sum(items[..|items| - 1]) + LineAmount(items[|items| - 1])
  }

  /** The `forEach` of `POST /orders` that accumulates `totalAmount` over the items. */
  method OrderTotal(items: seq<OrderItem>) returns (total: real)
    ensures total == Sum(items)
    ensures items == [] ==> total == 0.0
  {
    total := 0.0;
    var i := 0;
    while i < |items|
      invariant 0 <= i <= |items|
      invariant total == Sum(items[..i])
    {
      assert items[..i + 1][..i] == items[..i];
      total := total + items[i].price * items[i].quantity as real;
      i := i + 1;
    }
    assert items[..i] == items;
  }

  /** The total of a concatenation is the sum of the totals. */
  lemma {:induction false} SumAppend(a: seq<OrderItem>, b: seq<OrderItem>)
    ensures Sum(a + b) == Sum(a) + Sum(b)
    decreases |b|
  {
    if b != [] {
      var b' := b[..|b| - 1];
      assert (a + b)[..|a + b| - 1] == a + b';
      assert (a + b)[|a + b| - 1] == b[|b| - 1];
      SumAppend(a, b');
    } else {
      assert a + b == a;
    }
  }

  /**
   * The document `new Order({...})` builds in `POST /orders`: the client's
   * items and prices as sent, the computed total, the schema defaults, and
   * nothing for `shippingMethod` or the receiver.
   */
  function CreatedDocument(id: Id, userId: Option<Id>, items: seq<OrderItem>, totalAmount: real, now: int): (o: Order)
    ensures o.items == items && o.totalAmount == totalAmount && o.status == Pending
    ensures !o.payment.isPaid && !o.payment.simulatePaid
  {
    Order(id, if userId.Some? then Some(Canonical(userId.value)) else None, items, totalAmount, now, Pending, None,
          Logistics(None, None, None), Payment(false, false), None)
  }

  /** The document the create route builds never passes validation. */
  lemma CreatedDocumentRejected(id: Id, userId: Option<Id>, items: seq<OrderItem>, totalAmount: real, now: int)
    ensures !WellFormed(CreatedDocument(id, userId, items, totalAmount, now))
  {
  }

  /** Orders listed newest first. */
  predicate NewestFirst(orders: seq<Order>) {
    forall i, j :: 0 <= i < j < |orders| ==> orders[i].createdAt >= orders[j].createdAt
  }

  /** Orders in collection order, which is creation order. */
  predicate OldestFirst(orders: seq<Order>) {
    forall i, j :: 0 <= i < j < |orders| ==> orders[i].createdAt <= orders[j].createdAt
  }

  function Reverse(orders: seq<Order>): (r: seq<Order>)
    ensures |r| == |orders|
    ensures forall i :: 0 <= i < |orders| ==> r[i] == orders[|orders| - 1 - i]
    ensures multiset(r) == multiset(orders)
  {
    if orders == [] then []
    else
      assert orders == [orders[0]] + orders[1..];
      Reverse(orders[1..]) + [orders[0]]
  }

  function OrdersOf(orders: seq<Order>, user: Id): (r: seq<Order>)
    ensures forall i :: 0 <= i < |r| ==> r[i].user == Some(user)
    ensures forall i :: 0 <= i < |orders| && orders[i].user == Some(user) ==> orders[i] in r
    ensures forall o :: o in r ==> o in orders
    ensures forall o :: multiset(r)[o] == if o.user == Some(user) then multiset(orders)[o] else 0
  {
    FilterCount(orders, (o: Order) => o.user == Some(user));
    Filter(orders, (o: Order) => o.user == Some(user))
  }

  lemma {:induction false} FilterKeepsOldestFirst(orders: seq<Order>, user: Id)
    requires OldestFirst(orders)
    ensures OldestFirst(OrdersOf(orders, user))
  {
    if orders != [] {
      FilterKeepsOldestFirst(orders[1..], user);
      var rest := OrdersOf(orders[1..], user);
      if orders[0].user == Some(user) {
        forall k | 0 <= k < |rest| ensures orders[0].createdAt <= rest[k].createdAt {
          var j :| 0 <= j < |orders[1..]| && orders[1..][j] == rest[k];
          assert orders[j + 1] == rest[k];
        }
        assert OrdersOf(orders, user) == [orders[0]] + rest;
        PrependKeepsOldestFirst(orders[0], rest);
      } else {
        assert OrdersOf(orders, user) == rest;
      }
    }
  }

  lemma PrependKeepsOldestFirst(o: Order, rest: seq<Order>)
    requires OldestFirst(rest)
    requires forall k :: 0 <= k < |rest| ==> o.createdAt <= rest[k].createdAt
    ensures OldestFirst([o] + rest)
  {
    var s := [o] + rest;
    forall i, j | 0 <= i < j < |s| ensures s[i].createdAt <= s[j].createdAt {
      assert s[j] == rest[j - 1];
      if i > 0 {
        assert s[i] == rest[i - 1];
      }
    }
  }

  /** `find(...).sort({ createdAt: -1 })` over a collection kept in creation order. */
  function NewestFirstOf(orders: seq<Order>): (r: seq<Order>)
    requires OldestFirst(orders)
    ensures NewestFirst(r)
    ensures forall o :: o in r <==> o in orders
    ensures |r| == |orders| && multiset(r) == multiset(orders)
  {
    var r := Reverse(orders);
    assert forall o :: o in orders ==> o in r by {
      forall o | o in orders ensures o in r {
        var i :| 0 <= i < |orders| && orders[i] == o;
        assert r[|orders| - 1 - i] == o;
      }
    }
    r
  }

  datatype OrderError =
    | CastFailed          // a malformed id made the query throw: 500
    | ValidationFailed    // save rejected the document: 500
    | NoOrders            // 404 on my-orders
    | NotFound            // 404
    | NotCancellable      // 400: cancel of an order that is not Pending
  {
    function Status(): int {
      match this
      case CastFailed => 500
      case ValidationFailed => 500
      case NotCancellable => 400
      case _ => 404
    }
  }

  /**
   * `PUT /orders/:id` on a found order: a truthy `status` replaces the
   * status, a truthy `trackingNumber` the tracking number; `None` when the
   * new status is not in the enum and the save fails.
   */
  function Updated(o: Order, status: Option<string>, trackingNumber: Option<string>): (r: Option<Order>)
    ensures r.Some? ==> r.value == o.(status := r.value.status, trackingNumber := r.value.trackingNumber)
    ensures r.Some? && !Truthy(status) ==> r.value.status == o.status
    ensures r.Some? && Truthy(status) ==> ParseStatus(status.value) == Some(r.value.status) && StatusName(r.value.status) == status.value
    ensures r.Some? && !Truthy(trackingNumber) ==> r.value.trackingNumber == o.trackingNumber
    ensures r.Some? && Truthy(trackingNumber) ==> r.value.trackingNumber == trackingNumber
    ensures r.None? <==> Truthy(status) && ParseStatus(status.value).None?
  {
    var withStatus :=
      if Truthy(status) then
        match ParseStatus(status.value)
        case Some(s) => Some(o.(status := s))
        case None => None
      else Some(o);
    match withStatus
    case None => None
    case Some(p) => Some(if Truthy(trackingNumber) then p.(trackingNumber := trackingNumber) else p)
  }

  /** There is no transition guard: any order can be moved to any status, backwards included. */
  lemma AnyTransitionAccepted(o: Order, target: Status)
    ensures Updated(o, Some(StatusName(target)), None) == Some(o.(status := target))
  {
    StatusRoundTrip(target);
  }

  /** The order collection, kept in creation order. */
  class OrderStore {
    var orders: seq<Order>

    ghost predicate Valid()
      reads this
    {
      && (forall i :: 0 <= i < |orders| ==> WellFormed(orders[i]))
      && (forall i, j :: 0 <= i < j < |orders| ==> orders[i].id != orders[j].id)
      && OldestFirst(orders)
    }

    constructor ()
      ensures Valid() && orders == []
    {
      orders := [];
    }

    /** `order.save()` on a new document: validation, then insertion. */
    method Insert(doc: Order) returns (r: Result<Order, OrderError>)
      requires Valid()
      requires forall j :: 0 <= j < |orders| ==> orders[j].id != doc.id && orders[j].createdAt <= doc.createdAt
      modifies this
      ensures Valid()
      ensures !WellFormed(doc) ==> r == Failure(ValidationFailed) && orders == old(orders)
      ensures WellFormed(doc) ==> r == Success(doc) && orders == old(orders) + [doc]
    {
      if !WellFormed(doc) {
        return Failure(ValidationFailed);
      }
      orders := orders + [doc];
      r := Success(doc);
    }

    /**
     * `POST /orders`: the total is computed, the document built and saved;
     * the save always fails, so no order is ever created. That `now` is not
     * older than any stored order is a modelling assumption the attempted
     * insert needs; the route itself answers 500 whatever the clock says.
     */
    method Create(userId: Option<Id>, items: seq<OrderItem>, now: int, newId: Id) returns (r: Result<Order, OrderError>)
      requires Valid()
      requires forall j :: 0 <= j < |orders| ==> orders[j].id != newId && orders[j].createdAt <= now
      modifies this
      ensures Valid()
      ensures r == Failure(ValidationFailed) && orders == old(orders)
    {
      var totalAmount := OrderTotal(items);
      var doc := CreatedDocument(newId, userId, items, totalAmount, now);
      CreatedDocumentRejected(newId, userId, items, totalAmount, now);
      r := Insert(doc);
    }

    /** `GET /orders/my-orders`: the user's orders newest first, or 404 when there are none. */
    method MyOrders(user: Id) returns (r: Result<seq<Order>, OrderError>)
      requires Valid()
      ensures !IsObjectId(user) ==> r == Failure(CastFailed)
      ensures IsObjectId(user) ==>
        if exists i :: 0 <= i < |orders| && orders[i].user == Some(Canonical(user))
        then r.Success? && NewestFirst(r.value) && |r.value| > 0
             && (forall o :: o in r.value <==> o in orders && o.user == Some(Canonical(user)))
             && forall o :: multiset(r.value)[o] == if o.user == Some(Canonical(user)) then multiset(orders)[o] else 0
        else r == Failure(NoOrders)
    {
      if !IsObjectId(user) {
        return Failure(CastFailed);
      }
      var mine := OrdersOf(orders, Canonical(user));
      if |mine| == 0 {
        return Failure(NoOrders);
      }
      assert mine[0] in orders;
      FilterKeepsOldestFirst(orders, Canonical(user));
      r := Success(NewestFirstOf(mine));
    }

    /** `GET /orders`: every order, newest first. */
    method All() returns (r: seq<Order>)
      requires Valid()
      ensures NewestFirst(r) && |r| == |orders|
      ensures forall o :: o in r <==> o in orders
      ensures multiset(r) == multiset(orders)
    {
      r := NewestFirstOf(orders);
    }

    /** `PUT /orders/:id`: status and tracking number, unguarded beyond the enum. */
    method Update(id: Id, status: Option<string>, trackingNumber: Option<string>) returns (r: Result<Order, OrderError>)
      requires Valid()
      modifies this
      ensures Valid()
      ensures !IsObjectId(id) ==> r == Failure(CastFailed) && orders == old(orders)
      ensures IsObjectId(id) && IndexOfId(old(orders), id) == -1 ==> r == Failure(NotFound) && orders == old(orders)
      ensures var i := IndexOfId(old(orders), id);
        IsObjectId(id) && 0 <= i ==>
          match Updated(old(orders)[i], status, trackingNumber)
          case None => r == Failure(ValidationFailed) && orders == old(orders)
          case Some(o) => r == Success(o) && orders == old(orders)[i := o]
    {
      if !IsObjectId(id) {
        return Failure(CastFailed);
      }
      var i := IndexOfId(orders, id);
      if i == -1 {
        return Failure(NotFound);
      }
      var order := orders[i];
      if Truthy(status) {
        var parsed := ParseStatus(status.value);
        if parsed.None? {
          return Failure(ValidationFailed);
        }
        order := order.(status := parsed.value);
      }
      if Truthy(trackingNumber) {
        order := order.(trackingNumber := trackingNumber);
      }
      orders := orders[i := order];
      r := Success(order);
    }

    /** `DELETE /orders/:id`: only a Pending order is removed. */
    method Cancel(id: Id) returns (r: Result<Order, OrderError>)
      requires Valid()
      modifies this
      ensures Valid()
      ensures !IsObjectId(id) ==> r == Failure(CastFailed) && orders == old(orders)
      ensures IsObjectId(id) && IndexOfId(old(orders), id) == -1 ==> r == Failure(NotFound) && orders == old(orders)
      ensures var i := IndexOfId(old(orders), id);
        IsObjectId(id) && 0 <= i ==>
          if old(orders)[i].status != Pending then r == Failure(NotCancellable) && orders == old(orders)
          else r == Success(old(orders)[i]) && orders == RemoveAt(old(orders), i)
    {
      if !IsObjectId(id) {
        return Failure(CastFailed);
      }
      var i := IndexOfId(orders, id);
      if i == -1 {
        return Failure(NotFound);
      }
      if orders[i].status != Pending {
        return Failure(NotCancellable);
      }
      r := Success(orders[i]);
      orders := RemoveAt(orders, i);
    }
  }

  /** `Order.findById(id)` on a well-formed id. */
  function IndexOfId(orders: seq<Order>, id: Id): (i: int)
    ensures -1 <= i < |orders|
    ensures 0 <= i ==> orders[i].id == Canonical(id)
    ensures i == -1 <==> forall j :: 0 <= j < |orders| ==> orders[j].id != Canonical(id)
  {
    var key := Canonical(id);
    FindFirst(orders, (o: Order) => o.id == key)
  }
}
