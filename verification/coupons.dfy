/**
 * Coupons: the `couponSchema` record, admin creation, the
 * `POST /coupons/validate` guard chain with its discount and usage
 * counter, and the admin disable and delete operations.
 *
 * The route compares `type` with "FixedAmount" and "Percentage" while the
 * schema only admits "fixed" and "percentage"; the model keeps both as
 * written, so every stored coupon gets a discount of 0.
 */
module Coupons {
  import opened Common

  /** The strings the validate route compares `type` with. */
  const FixedAmountKind := "FixedAmount"
  const PercentageKind := "Percentage"

  /** The `type` enum of the schema. */
  predicate IsSchemaKind(k: string) {
    k == "fixed" || k == "percentage"
  }

  /** A stored coupon document; dates are instants on one integer clock. */
  datatype Coupon = Coupon(
    id: Id,
    code: string,
    kind: string,
    value: real,
    maxDiscount: Option<real>,
    minPurchase: real,
    usageLimit: int,
    usedCount: int,
    applicableToProducts: seq<Id>,
    applicableToCategories: seq<Id>,
    startDate: int,
    endDate: int,
    isActive: bool)

  /** What the schema admits on save: required code and type, type in the enum, ids cast. */
  predicate WellFormed(c: Coupon) {
    && IsCanonicalId(c.id)
    && c.code != ""
    && IsSchemaKind(c.kind)
    && (forall i :: 0 <= i < |c.applicableToProducts| ==> IsCanonicalId(c.applicableToProducts[i]))
    && (forall i :: 0 <= i < |c.applicableToCategories| ==> IsCanonicalId(c.applicableToCategories[i]))
  }

  /** The body of `POST /coupons`; `None` is a field the client left out. */
  datatype CouponInput = CouponInput(
    code: Option<string>,
    kind: Option<string>,
    value: Option<real>,
    maxDiscount: Option<real>,
    minPurchase: Option<real>,
    startDate: Option<int>,
    endDate: Option<int>,
    applicableToProducts: seq<Id>,
    applicableToCategories: seq<Id>,
    usageLimit: Option<int>)

  datatype CouponError =
    | Forbidden                            // ensureAdminAuth
    | CreateRejected                       // save threw: validation, cast or duplicate code
    | CastFailed                           // findById on a malformed id threw
    | NotFound
    | Invalid                              // outside [startDate, endDate] or inactive
    | MinPurchaseNotMet(minPurchase: real)
    | UsageLimitReached
    | NotApplicableToProducts
    | NotApplicableToCategories
  {
    /** The HTTP status the route answers with. */
    function Status(): int {
      match this
      case Forbidden => 403
      case CastFailed => 500
      case NotFound => 404
      case _ => 400
    }
  }

  /**
   * The answer of a successful validation. `None` is a `NaN` amount, which
   * the JSON body carries as `null`: the arithmetic on a request without
   * `totalAmount` produces it.
   */
  datatype Redemption = Redemption(discount: Option<real>, finalAmount: Option<real>)

  /**
   * The document `new Coupon(...)` builds from the request, with the schema
   * defaults filled in, or `None` when validation on save rejects it.
   */
  function FromInput(input: CouponInput, id: Id): (r: Option<Coupon>)
    requires IsCanonicalId(id)
    ensures r.Some? <==>
      && input.code.Some? && input.code.value != ""
      && input.kind.Some? && IsSchemaKind(input.kind.value)
      && input.value.Some? && input.startDate.Some? && input.endDate.Some?
      && AllObjectIds(input.applicableToProducts) && AllObjectIds(input.applicableToCategories)
    ensures r.Some? ==> WellFormed(r.value) && r.value.id == id && r.value.code == input.code.value
    ensures r.Some? ==> r.value.usedCount == 0 && r.value.isActive
    ensures r.Some? ==> r.value.usageLimit == (if input.usageLimit.Some? then input.usageLimit.value else 1)
    ensures r.Some? ==> r.value.minPurchase == (if input.minPurchase.Some? then input.minPurchase.value else 0.0)
    ensures r.Some? ==> r.value.maxDiscount == input.maxDiscount
  {
    if && input.code.Some? && input.code.value != ""
       && input.kind.Some? && IsSchemaKind(input.kind.value)
       && input.value.Some? && input.startDate.Some? && input.endDate.Some?
       && AllObjectIds(input.applicableToProducts) && AllObjectIds(input.applicableToCategories)
    then
      CanonicalAllOfObjectIds(input.applicableToProducts);
      CanonicalAllOfObjectIds(input.applicableToCategories);
      Some(Coupon(
        id, input.code.value, input.kind.value, input.value.value, input.maxDiscount,
        match input.minPurchase case Some(m) => m case None => 0.0,
        match input.usageLimit case Some(n) => n case None => 1,
        0,
        CanonicalAll(input.applicableToProducts), CanonicalAll(input.applicableToCategories),
        input.startDate.value, input.endDate.value, true))
    else None
  }

  lemma CanonicalAllOfObjectIds(ids: seq<Id>)
    requires AllObjectIds(ids)
    ensures forall i :: 0 <= i < |ids| ==> IsCanonicalId(CanonicalAll(ids)[i])
  {
    forall i | 0 <= i < |ids| ensures IsCanonicalId(CanonicalAll(ids)[i]) {
      CanonicalOfObjectId(ids[i]);
    }
  }

  /**
   * The discount the validate route computes: the value for "FixedAmount",
   * the percentage of the total for "Percentage" (capped by a truthy
   * `maxDiscount`), and 0 for every other type string. A percentage of a
   * missing total is `NaN` (`None`), and `Math.min` keeps it so.
   */
  function Discount(kind: string, value: real, maxDiscount: Option<real>, totalAmount: Option<real>): (d: Option<real>)
    ensures d.None? <==> kind == PercentageKind && totalAmount.None?
    ensures kind != FixedAmountKind && kind != PercentageKind ==> d == Some(0.0)
    ensures kind == FixedAmountKind ==> d == Some(value)
    ensures kind == PercentageKind && totalAmount.Some? ==> d.value <= totalAmount.value * value / 100.0
    ensures kind == PercentageKind && totalAmount.Some? && maxDiscount.Some? && maxDiscount.value != 0.0 ==>
      d.value <= maxDiscount.value && (d.value == maxDiscount.value || d.value == totalAmount.value * value / 100.0)
    ensures kind == PercentageKind && totalAmount.Some? && (maxDiscount.None? || maxDiscount.value == 0.0) ==>
      d.value == totalAmount.value * value / 100.0
  {
    if kind == FixedAmountKind then Some(value)
    else if kind == PercentageKind then
      match totalAmount
      case None => None
      case Some(t) =>
        var pct := t * value / 100.0;
        if maxDiscount.Some? && maxDiscount.value != 0.0 && maxDiscount.value < pct
        then Some(maxDiscount.value)
        else Some(pct)
    else Some(0.0)
  }

  /** `ids.some(id => list.includes(id))`: strict string comparison. */
  predicate Overlaps(ids: seq<Id>, list: seq<Id>) {
    exists i :: 0 <= i < |ids| && ids[i] in list
  }

  /** The first guard: inside `[startDate, endDate]` and active. */
  predicate IsCurrent(c: Coupon, now: int) {
    c.startDate <= now <= c.endDate && c.isActive
  }

  /**
   * The minimum-purchase guard fails only for a total below the minimum;
   * a missing total (`undefined < minPurchase` is false) passes it.
   */
  predicate BelowMinimum(c: Coupon, totalAmount: Option<real>) {
    totalAmount.Some? && totalAmount.value < c.minPurchase
  }

  /** The usage guard. */
  predicate UsedUp(c: Coupon) {
    c.usedCount >= c.usageLimit
  }

  /** The product guard: a non-empty product list that none of the request's ids is in. */
  predicate ProductsMiss(c: Coupon, productIds: seq<Id>) {
    |c.applicableToProducts| > 0 && !Overlaps(productIds, c.applicableToProducts)
  }

  /** The category guard, alike. */
  predicate CategoriesMiss(c: Coupon, categoryIds: seq<Id>) {
    |c.applicableToCategories| > 0 && !Overlaps(categoryIds, c.applicableToCategories)
  }

  /**
   * The first guard of the validate route that fails, or `None` when the
   * coupon is admitted: each error is answered exactly when every earlier
   * guard passed and its own failed.
   */
  function Rejection(c: Coupon, now: int, totalAmount: Option<real>, productIds: seq<Id>, categoryIds: seq<Id>): (e: Option<CouponError>)
    ensures e.None? <==>
      && IsCurrent(c, now) && !BelowMinimum(c, totalAmount) && !UsedUp(c)
      && !ProductsMiss(c, productIds) && !CategoriesMiss(c, categoryIds)
    ensures e == Some(Invalid) <==> !IsCurrent(c, now)
    ensures e == Some(MinPurchaseNotMet(c.minPurchase)) <==> IsCurrent(c, now) && BelowMinimum(c, totalAmount)
    ensures e == Some(UsageLimitReached) <==> IsCurrent(c, now) && !BelowMinimum(c, totalAmount) && UsedUp(c)
    ensures e == Some(NotApplicableToProducts) <==>
      IsCurrent(c, now) && !BelowMinimum(c, totalAmount) && !UsedUp(c) && ProductsMiss(c, productIds)
    ensures e == Some(NotApplicableToCategories) <==>
      && IsCurrent(c, now) && !BelowMinimum(c, totalAmount) && !UsedUp(c) && !ProductsMiss(c, productIds)
      && CategoriesMiss(c, categoryIds)
    ensures e.Some? ==> e.value.Status() == 400
  {
    if now < c.startDate || now > c.endDate || !c.isActive then Some(Invalid)
    else if totalAmount.Some? && totalAmount.value < c.minPurchase then Some(MinPurchaseNotMet(c.minPurchase))
    else if c.usedCount >= c.usageLimit then Some(UsageLimitReached)
    else if |c.applicableToProducts| > 0 && !Overlaps(productIds, c.applicableToProducts) then Some(NotApplicableToProducts)
    else if |c.applicableToCategories| > 0 && !Overlaps(categoryIds, c.applicableToCategories) then Some(NotApplicableToCategories)
    else None
  }

  /**
   * What an admitted coupon answers: the discount and `totalAmount - discount`,
   * unclamped; without a total the final amount is `NaN`.
   */
  function Redeemed(c: Coupon, totalAmount: Option<real>): (r: Redemption)
    ensures r.discount == Discount(c.kind, c.value, c.maxDiscount, totalAmount)
    ensures r.finalAmount.Some? <==> totalAmount.Some?
    ensures r.finalAmount.Some? ==> r.finalAmount.value + r.discount.value == totalAmount.value
  {
    var d := Discount(c.kind, c.value, c.maxDiscount, totalAmount);
    match totalAmount
    case None => Redemption(d, None)
    case Some(t) => Redemption(d, Some(t - d.value))
  }

  /** `Coupon.findOne({ code })`: the position of the coupon with this code, or -1. */
  function IndexOfCode(coupons: seq<Coupon>, code: string): (i: int)
    ensures -1 <= i < |coupons|
    ensures 0 <= i ==> coupons[i].code == code
    ensures i == -1 <==> forall j :: 0 <= j < |coupons| ==> coupons[j].code != code
  {
    FindFirst(coupons, (c: Coupon) => c.code == code)
  }

  /** `Coupon.findById(id)` on a well-formed id: the position of that document, or -1. */
  function IndexOfId(coupons: seq<Coupon>, id: Id): (i: int)
    ensures -1 <= i < |coupons|
    ensures 0 <= i ==> coupons[i].id == Canonical(id)
    ensures i == -1 <==> forall j :: 0 <= j < |coupons| ==> coupons[j].id != Canonical(id)
  {
    var key := Canonical(id);
    FindFirst(coupons, (c: Coupon) => c.id == key)
  }

  /** One `POST /coupons/validate` request, with the server clock reading `now`. */
  datatype ValidateRequest = ValidateRequest(totalAmount: Option<real>, productIds: seq<Id>, categoryIds: seq<Id>, now: int)

  /**
   * Runs requests against one coupon in turn, as the route would one after
   * another: returns the coupon afterwards and how many were admitted.
   */
  function RedeemAll(c: Coupon, reqs: seq<ValidateRequest>): (r: (Coupon, nat))
    ensures r.0 == c.(usedCount := c.usedCount + r.1)
    ensures r.1 <= |reqs|
    decreases reqs
  {
    if reqs == [] then (c, 0)
    else
      var q := reqs[0];
      if Rejection(c, q.now, q.totalAmount, q.productIds, q.categoryIds).Some?
      then RedeemAll(c, reqs[1..])
      else
        var rest := RedeemAll(c.(usedCount := c.usedCount + 1), reqs[1..]);
        (rest.0, rest.1 + 1)
  }

  /**
   * The usage budget: however the requests look, at most
   * `usageLimit - usedCount` of them are admitted, and `usedCount` never
   * passes `usageLimit` when it started at or below it.
   */
  lemma {:induction false} AdmissionsWithinBudget(c: Coupon, reqs: seq<ValidateRequest>)
    ensures RedeemAll(c, reqs).1 <= if c.usageLimit > c.usedCount then c.usageLimit - c.usedCount else 0
    ensures c.usedCount <= c.usageLimit ==> RedeemAll(c, reqs).0.usedCount <= c.usageLimit
    decreases reqs
  {
    if reqs != [] {
      var q := reqs[0];
      if Rejection(c, q.now, q.totalAmount, q.productIds, q.categoryIds).Some? {
        AdmissionsWithinBudget(c, reqs[1..]);
      } else {
        AdmissionsWithinBudget(c.(usedCount := c.usedCount + 1), reqs[1..]);
      }
    }
  }

  /** A freshly created coupon that keeps the default usage limit is admitted exactly once. */
  lemma DefaultCouponSingleUse(input: CouponInput, id: Id, first: ValidateRequest, second: ValidateRequest)
    requires IsCanonicalId(id)
    requires FromInput(input, id).Some? && input.usageLimit.None?
    requires Rejection(FromInput(input, id).value, first.now, first.totalAmount, first.productIds, first.categoryIds).None?
    ensures RedeemAll(FromInput(input, id).value, [first, second]).1 == 1
  {
    var c := FromInput(input, id).value;
    var used := c.(usedCount := 1);
    assert Rejection(used, second.now, second.totalAmount, second.productIds, second.categoryIds).Some?;
    assert [first, second][1..] == [second];
    assert [second][1..] == [];
  }

  /** Every coupon the schema admits is charged the full amount: its type never matches the route's strings. */
  lemma StoredCouponsGetNoDiscount(c: Coupon, totalAmount: Option<real>)
    requires WellFormed(c)
    ensures Redeemed(c, totalAmount) == Redemption(Some(0.0), totalAmount)
  {
  }

  /**
   * A request without `totalAmount` slips past the minimum-purchase guard:
   * a current coupon with uses left and no product or category list admits
   * it whatever its minimum, spends a use, and answers a `NaN` final amount.
   */
  lemma MissingTotalAdmitted(c: Coupon, now: int, productIds: seq<Id>, categoryIds: seq<Id>)
    requires IsCurrent(c, now) && !UsedUp(c)
    requires c.applicableToProducts == [] && c.applicableToCategories == []
    ensures Rejection(c, now, None, productIds, categoryIds).None?
    ensures RedeemAll(c, [ValidateRequest(None, productIds, categoryIds, now)]) == (c.(usedCount := c.usedCount + 1), 1)
    ensures Redeemed(c, None).finalAmount.None?
  {
    var q := ValidateRequest(None, productIds, categoryIds, now);
    assert [q][1..] == [];
  }

  /** A disabled coupon fails the validity check whatever else holds. */
  lemma DisabledCouponRejected(c: Coupon, q: ValidateRequest)
    ensures Rejection(c.(isActive := false), q.now, q.totalAmount, q.productIds, q.categoryIds) == Some(Invalid)
  {
  }

  /** The coupon collection and the admin and public routes over it. */
  class CouponStore {
    var coupons: seq<Coupon>

    /** Schema validity and the unique `_id` and `code` indexes. */
    ghost predicate Valid()
      reads this
    {
      && (forall i :: 0 <= i < |coupons| ==> WellFormed(coupons[i]))
      && (forall i, j :: 0 <= i < j < |coupons| ==> coupons[i].id != coupons[j].id)
      && (forall i, j :: 0 <= i < j < |coupons| ==> coupons[i].code != coupons[j].code)
    }

    constructor ()
      ensures Valid() && coupons == []
    {
      coupons := [];
    }

    /** `POST /coupons`: `newId` is the id the database assigns. */
    method Create(isAdmin: bool, input: CouponInput, newId: Id) returns (r: Result<Coupon, CouponError>)
      requires Valid()
      requires IsCanonicalId(newId) && forall j :: 0 <= j < |coupons| ==> coupons[j].id != newId
      modifies this
      ensures Valid()
      ensures !isAdmin ==> r == Failure(Forbidden) && coupons == old(coupons)
      ensures isAdmin && FromInput(input, newId).None? ==> r == Failure(CreateRejected) && coupons == old(coupons)
      ensures isAdmin && FromInput(input, newId).Some? && IndexOfCode(old(coupons), input.code.value) != -1 ==>
        r == Failure(CreateRejected) && coupons == old(coupons)
      ensures isAdmin && FromInput(input, newId).Some? && IndexOfCode(old(coupons), input.code.value) == -1 ==>
        r == Success(FromInput(input, newId).value) && coupons == old(coupons) + [FromInput(input, newId).value]
    {
      if !isAdmin {
        return Failure(Forbidden);
      }
      var doc := FromInput(input, newId);
      if doc.None? || IndexOfCode(coupons, doc.value.code) != -1 {
        return Failure(CreateRejected);
      }
      coupons := coupons + [doc.value];
      r := Success(doc.value);
    }

    /** `GET /coupons`. */
    method List(isAdmin: bool) returns (r: Result<seq<Coupon>, CouponError>)
      ensures !isAdmin ==> r == Failure(Forbidden)
      ensures isAdmin ==> r == Success(coupons)
    {
      if !isAdmin {
        return Failure(Forbidden);
      }
      r := Success(coupons);
    }

    /**
     * `POST /coupons/validate`: the coupon with `code` is looked up, every
     * guard runs in order, and only an admitted request writes the coupon,
     * adding exactly one use.
     */
    method Validate(code: string, totalAmount: Option<real>, productIds: seq<Id>, categoryIds: seq<Id>, now: int)
      returns (r: Result<Redemption, CouponError>)
      requires Valid()
      modifies this
      ensures Valid()
      ensures |coupons| == |old(coupons)|
      ensures IndexOfCode(old(coupons), code) == -1 ==> r == Failure(NotFound) && coupons == old(coupons)
      ensures var i := IndexOfCode(old(coupons), code);
        0 <= i ==>
          var c := old(coupons)[i];
          match Rejection(c, now, totalAmount, productIds, categoryIds)
          case Some(e) => r == Failure(e) && coupons == old(coupons)
          case None =>
            && r == Success(Redeemed(c, totalAmount))
            && coupons == old(coupons)[i := c.(usedCount := c.usedCount + 1)]
    {
      var i := IndexOfCode(coupons, code);
      if i == -1 {
        return Failure(NotFound);
      }
      var coupon := coupons[i];
      var rejected := Rejection(coupon, now, totalAmount, productIds, categoryIds);
      if rejected.Some? {
        return Failure(rejected.value);
      }
      coupons := coupons[i := coupon.(usedCount := coupon.usedCount + 1)];
      r := Success(Redeemed(coupon, totalAmount));
    }

    /** `PUT /coupons/:id/disable`: clears `isActive`, nothing else. */
    method Disable(isAdmin: bool, id: Id) returns (r: Result<Coupon, CouponError>)
      requires Valid()
      modifies this
      ensures Valid()
      ensures !isAdmin ==> r == Failure(Forbidden) && coupons == old(coupons)
      ensures isAdmin && !IsObjectId(id) ==> r == Failure(CastFailed) && coupons == old(coupons)
      ensures isAdmin && IsObjectId(id) && IndexOfId(old(coupons), id) == -1 ==>
        r == Failure(NotFound) && coupons == old(coupons)
      ensures var i := IndexOfId(old(coupons), id);
        isAdmin && IsObjectId(id) && 0 <= i ==>
          && r == Success(old(coupons)[i].(isActive := false))
          && coupons == old(coupons)[i := old(coupons)[i].(isActive := false)]
    {
      if !isAdmin {
        return Failure(Forbidden);
      }
      if !IsObjectId(id) {
        return Failure(CastFailed);
      }
      var i := IndexOfId(coupons, id);
      if i == -1 {
        return Failure(NotFound);
      }
      var disabled := coupons[i].(isActive := false);
      coupons := coupons[i := disabled];
      r := Success(disabled);
    }

    /** `DELETE /coupons/:id`. */
    method Delete(isAdmin: bool, id: Id) returns (r: Result<Coupon, CouponError>)
      requires Valid()
      modifies this
      ensures Valid()
      ensures !isAdmin ==> r == Failure(Forbidden) && coupons == old(coupons)
      ensures isAdmin && !IsObjectId(id) ==> r == Failure(CastFailed) && coupons == old(coupons)
      ensures isAdmin && IsObjectId(id) && IndexOfId(old(coupons), id) == -1 ==>
        r == Failure(NotFound) && coupons == old(coupons)
      ensures var i := IndexOfId(old(coupons), id);
        isAdmin && IsObjectId(id) && 0 <= i ==>
          r == Success(old(coupons)[i]) && coupons == RemoveAt(old(coupons), i)
    {
      if !isAdmin {
        return Failure(Forbidden);
      }
      if !IsObjectId(id) {
        return Failure(CastFailed);
      }
      var i := IndexOfId(coupons, id);
      if i == -1 {
        return Failure(NotFound);
      }
      r := Success(coupons[i]);
      coupons := RemoveAt(coupons, i);
    }
  }
}
