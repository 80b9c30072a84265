/**
 * Categories: the `categorySchema` record, a tree (or, since the routes do
 * not prevent it, a graph) of categories linked by `parentCategory`, and the
 * routes that list, read, create, update and delete them.
 */
module Categories {
  import opened Common

  datatype Category = Category(
    id: Id,
    name: string,
    description: Option<string>,
    parentCategory: Option<Id>,
    isActive: bool,
    order: int)

  datatype CategoryError =
    | InvalidId           // 400: the path id is not an ObjectId
    | InvalidParentId     // 400: a parent was given that is not an ObjectId
    | ParentNotFound      // 404
    | NotFound            // 404
    | ValidationFailed    // 500: save rejected the document (missing or empty name)
    | HasSubCategories    // 400
    | UsedByProducts      // 400
  {
    function Status(): int {
      match this
      case ParentNotFound => 404
      case NotFound => 404
      case ValidationFailed => 500
      case _ => 400
    }
  }

  /** The `parentCategory` a request value is stored as: a falsy value stores none. */
  function ParentOf(parentCategory: Option<Id>): (p: Option<Id>)
    ensures p.Some? <==> Truthy(parentCategory)
    ensures p.Some? ==> p.value == Canonical(parentCategory.value)
  {
    if Truthy(parentCategory) then Some(Canonical(parentCategory.value)) else None
  }

  /** `Category.findById(id)` on a well-formed id. */
  function IndexOfId(categories: seq<Category>, id: Id): (i: int)
    ensures -1 <= i < |categories|
    ensures 0 <= i ==> categories[i].id == Canonical(id)
    ensures i == -1 <==> forall j :: 0 <= j < |categories| ==> categories[j].id != Canonical(id)
  {
    var key := Canonical(id);
    FindFirst(categories, (c: Category) => c.id == key)
  }

  /**
   * The categories whose parent is `id`: the `{ parentCategory: id }` query
   * behind both the `subCategories` virtual and the delete route's check.
   */
  function ChildrenOf(categories: seq<Category>, id: Id): (r: seq<Category>)
    ensures forall i :: 0 <= i < |r| ==> r[i].parentCategory == Some(Canonical(id))
    ensures forall i :: 0 <= i < |categories| && categories[i].parentCategory == Some(Canonical(id)) ==> categories[i] in r
    ensures forall c :: c in r ==> c in categories
    ensures forall c :: multiset(r)[c] == if c.parentCategory == Some(Canonical(id)) then multiset(categories)[c] else 0
  {
    var key := Canonical(id);
    FilterCount(categories, (c: Category) => c.parentCategory == Some(key));
    Filter(categories, (c: Category) => c.parentCategory == Some(key))
  }

  predicate HasId(categories: seq<Category>, id: Id) {
    exists j :: 0 <= j < |categories| && categories[j].id == id
  }

  /** Every stored parent refers to a stored category. */
  predicate ParentsExist(categories: seq<Category>) {
    forall i :: 0 <= i < |categories| && categories[i].parentCategory.Some? ==>
      HasId(categories, categories[i].parentCategory.value)
  }

  /** What `categorySchema` accepts on save, with ids as the database stores them. */
  predicate WellFormed(c: Category) {
    && IsCanonicalId(c.id)
    && c.name != ""
    && (c.parentCategory.Some? ==> IsCanonicalId(c.parentCategory.value))
  }

  /** `new Category({...})`: a field the client left out takes its schema default. */
  function NewCategory(id: Id, name: string, description: Option<string>, parentCategory: Option<Id>,
                       isActive: Option<bool>, order: Option<int>): (c: Category)
    ensures c.id == id && c.name == name && c.description == description
    ensures c.parentCategory == ParentOf(parentCategory)
    ensures isActive.None? ==> c.isActive
    ensures isActive.Some? ==> c.isActive == isActive.value
    ensures order.None? ==> c.order == 0
    ensures order.Some? ==> c.order == order.value
  {
    Category(id, name, description, ParentOf(parentCategory),
      match isActive case Some(b) => b case None => true,
      match order case Some(n) => n case None => 0)
  }

  /**
   * `PUT /categories/:id` on a found category: `name`, `description` and `order` are replaced unless
   * nullish, `isActive` only by a boolean, and `parentCategory` is always
   * overwritten, so leaving it out removes the parent.
   */
  function Updated(c: Category, name: Option<string>, description: Option<string>, parentCategory: Option<Id>,
                   isActive: Option<bool>, order: Option<int>): (r: Category)
    ensures r.id == c.id
    ensures r.name == if name.Some? then name.value else c.name
    ensures r.description == if description.Some? then description else c.description
    ensures r.parentCategory == ParentOf(parentCategory)
    ensures r.isActive == if isActive.Some? then isActive.value else c.isActive
    ensures r.order == if order.Some? then order.value else c.order
  {
    c.(name := match name case Some(n) => n case None => c.name,
       description := if description.Some? then description else c.description,
       parentCategory := ParentOf(parentCategory),
       isActive := match isActive case Some(b) => b case None => c.isActive,
       order := match order case Some(n) => n case None => c.order)
  }

  /** Removing a category no one points at leaves every remaining parent in place. */
  lemma DeleteLeavesNoOrphans(categories: seq<Category>, i: nat)
    requires i < |categories|
    requires ParentsExist(categories)
    requires forall j :: 0 <= j < |categories| && j != i ==> categories[j].id != categories[i].id
    requires forall j :: 0 <= j < |categories| ==> categories[j].parentCategory != Some(categories[i].id)
    ensures ParentsExist(RemoveAt(categories, i))
  {
    var r := RemoveAt(categories, i);
    forall k | 0 <= k < |r| && r[k].parentCategory.Some?
      ensures HasId(r, r[k].parentCategory.value)
    {
      var src := if k < i then k else k + 1;
      assert r[k] == categories[src];
      var p := r[k].parentCategory.value;
      var j :| 0 <= j < |categories| && categories[j].id == p;
      assert j != i;
      if j < i {
        assert r[j].id == p;
      } else {
        assert r[j - 1].id == p;
      }
    }
  }

  /** Replacing one category keeps parents in place when its id stays and its new parent exists. */
  lemma ReplaceKeepsParents(categories: seq<Category>, i: nat, c: Category)
    requires i < |categories|
    requires ParentsExist(categories)
    requires c.id == categories[i].id
    requires c.parentCategory.Some? ==> HasId(categories, c.parentCategory.value)
    ensures ParentsExist(categories[i := c])
  {
    var r := categories[i := c];
    forall k | 0 <= k < |r| && r[k].parentCategory.Some?
      ensures HasId(r, r[k].parentCategory.value)
    {
      var p := r[k].parentCategory.value;
      var j :| 0 <= j < |categories| && categories[j].id == p;
      assert r[j].id == p;
    }
  }

  /** Schema validity, unique ids, and every parent stored. */
  predicate Consistent(categories: seq<Category>) {
    && (forall i :: 0 <= i < |categories| ==> WellFormed(categories[i]))
    && (forall i, j :: 0 <= i < j < |categories| ==> categories[i].id != categories[j].id)
    && ParentsExist(categories)
  }

  /** An update that keeps the id and names a stored parent keeps the collection consistent. */
  lemma ReplaceKeepsConsistent(categories: seq<Category>, i: nat, c: Category)
    requires i < |categories| && Consistent(categories)
    requires c.id == categories[i].id && WellFormed(c)
    requires c.parentCategory.Some? ==> HasId(categories, c.parentCategory.value)
    ensures Consistent(categories[i := c])
  {
    ReplaceKeepsParents(categories, i, c);
  }

  /** The update route accepts a category as its own parent: the hierarchy need not be a tree. */
  lemma SelfParentAccepted(categories: seq<Category>, i: nat, name: Option<string>, description: Option<string>,
                           isActive: Option<bool>, order: Option<int>)
    requires i < |categories|
    requires ParentsExist(categories)
    requires IsCanonicalId(categories[i].id)
    ensures var c := Updated(categories[i], name, description, Some(categories[i].id), isActive, order);
      c.parentCategory == Some(c.id) && ParentsExist(categories[i := c])
  {
    CanonicalIdFixed(categories[i].id);
    ReplaceKeepsParents(categories, i, Updated(categories[i], name, description, Some(categories[i].id), isActive, order));
  }

  /** Ascending by `order`. */
  predicate SortedByOrder(s: seq<Category>) {
    forall i :: 0 < i < |s| ==> s[i - 1].order <= s[i].order
  }

  function InsertByOrder(c: Category, s: seq<Category>): (r: seq<Category>)
    requires SortedByOrder(s)
    ensures SortedByOrder(r)
    ensures multiset(r) == multiset(s) + multiset{c}
    ensures |r| == |s| + 1
    ensures r[0] == c || (|s| > 0 && r[0] == s[0])
  {
    if s == [] || c.order <= s[0].order then [c] + s
    else
      assert s == [s[0]] + s[1..];
      [s[0]] + InsertByOrder(c, s[1..])
  }

  /** `.sort({ order: 1 })`: the categories in ascending `order`, none lost or added. */
  function SortByOrder(s: seq<Category>): (r: seq<Category>)
    ensures SortedByOrder(r)
    ensures multiset(r) == multiset(s)
  {
    if s == [] then []
    else
      assert s == [s[0]] + s[1..];
      InsertByOrder(s[0], SortByOrder(s[1..]))
  }

  /** The category collection. */
  class CategoryStore {
    var categories: seq<Category>

    ghost predicate Valid()
      reads this
    {
      Consistent(categories)
    }

    constructor ()
      ensures Valid() && categories == []
    {
      categories := [];
    }

    /** `GET /categories`: every category, ascending by `order`. */
    method List() returns (r: seq<Category>)
      ensures SortedByOrder(r)
      ensures multiset(r) == multiset(categories)
    {
      r := SortByOrder(categories);
    }

    /**
     * `GET /categories/:id`: the category alone. The route populates the
     * `subCategories` virtual, but virtuals are not part of the JSON body,
     * so the answer carries only the stored fields.
     */
    method Get(id: Id) returns (r: Result<Category, CategoryError>)
      ensures !IsObjectId(id) ==> r == Failure(InvalidId)
      ensures IsObjectId(id) && IndexOfId(categories, id) == -1 ==> r == Failure(NotFound)
      ensures IsObjectId(id) && 0 <= IndexOfId(categories, id) ==>
        r == Success(categories[IndexOfId(categories, id)]) && r.value.id == Canonical(id)
    {
      if !IsObjectId(id) {
        return Failure(InvalidId);
      }
      var i := IndexOfId(categories, id);
      if i == -1 {
        return Failure(NotFound);
      }
      r := Success(categories[i]);
    }

    /** `POST /categories`: `newId` is the id the database assigns. */
    method Create(name: Option<string>, description: Option<string>, parentCategory: Option<Id>,
                  isActive: Option<bool>, order: Option<int>, newId: Id) returns (r: Result<Category, CategoryError>)
      requires Valid()
      requires IsCanonicalId(newId) && forall j :: 0 <= j < |categories| ==> categories[j].id != newId
      modifies this
      ensures Valid()
      ensures Truthy(parentCategory) && !IsObjectId(parentCategory.value) ==>
        r == Failure(InvalidParentId) && categories == old(categories)
      ensures Truthy(parentCategory) && IsObjectId(parentCategory.value) && IndexOfId(old(categories), parentCategory.value) == -1 ==>
        r == Failure(ParentNotFound) && categories == old(categories)
      ensures !Truthy(parentCategory) || (IsObjectId(parentCategory.value) && 0 <= IndexOfId(old(categories), parentCategory.value)) ==>
        if !Truthy(name) then r == Failure(ValidationFailed) && categories == old(categories)
        else
          var c := NewCategory(newId, name.value, description, parentCategory, isActive, order);
          r == Success(c) && categories == old(categories) + [c]
    {
      if Truthy(parentCategory) {
        if !IsObjectId(parentCategory.value) {
          return Failure(InvalidParentId);
        }
        if IndexOfId(categories, parentCategory.value) == -1 {
          return Failure(ParentNotFound);
        }
        CanonicalOfObjectId(parentCategory.value);
      }
      if !Truthy(name) {
        return Failure(ValidationFailed);
      }
      var c := NewCategory(newId, name.value, description, parentCategory, isActive, order);
      var old_ := categories;
      categories := categories + [c];
      forall k | 0 <= k < |categories| && categories[k].parentCategory.Some?
        ensures HasId(categories, categories[k].parentCategory.value)
      {
        if k < |old_| {
          var j :| 0 <= j < |old_| && old_[j].id == categories[k].parentCategory.value;
          assert categories[j].id == old_[j].id;
        } else {
          var j := IndexOfId(old_, parentCategory.value);
          assert categories[j].id == old_[j].id;
        }
      }
      r := Success(c);
    }

    /** `PUT /categories/:id`: see `Updated`; the saved result must still have a name. */
    method Update(id: Id, name: Option<string>, description: Option<string>, parentCategory: Option<Id>,
                  isActive: Option<bool>, order: Option<int>) returns (r: Result<Category, CategoryError>)
      requires Valid()
      modifies this
      ensures Valid()
      ensures !IsObjectId(id) ==> r == Failure(InvalidId) && categories == old(categories)
      ensures IsObjectId(id) && IndexOfId(old(categories), id) == -1 ==> r == Failure(NotFound) && categories == old(categories)
      ensures var i := IndexOfId(old(categories), id);
        IsObjectId(id) && 0 <= i ==>
          if Truthy(parentCategory) && !IsObjectId(parentCategory.value) then
            r == Failure(InvalidParentId) && categories == old(categories)
          else if Truthy(parentCategory) && IndexOfId(old(categories), parentCategory.value) == -1 then
            r == Failure(ParentNotFound) && categories == old(categories)
          else
            var c := Updated(old(categories)[i], name, description, parentCategory, isActive, order);
            if c.name == "" then r == Failure(ValidationFailed) && categories == old(categories)
            else r == Success(c) && categories == old(categories)[i := c]
    {
      if !IsObjectId(id) {
        return Failure(InvalidId);
      }
      var i := IndexOfId(categories, id);
      if i == -1 {
        return Failure(NotFound);
      }
      if Truthy(parentCategory) {
        if !IsObjectId(parentCategory.value) {
          return Failure(InvalidParentId);
        }
        var p := IndexOfId(categories, parentCategory.value);
        if p == -1 {
          return Failure(ParentNotFound);
        }
        CanonicalOfObjectId(parentCategory.value);
        assert categories[p].id == Canonical(parentCategory.value);
      }
      var c := Updated(categories[i], name, description, parentCategory, isActive, order);
      if c.name == "" {
        return Failure(ValidationFailed);
      }
      ReplaceKeepsConsistent(categories, i, c);
      categories := categories[i := c];
      r := Success(c);
    }

    /**
     * `DELETE /categories/:id`: refused while any category names it as
     * parent or any product is filed under it; `productCategories` holds the
     * category ids the products use.
     */
    method Delete(id: Id, productCategories: set<Id>) returns (r: Result<Category, CategoryError>)
      requires Valid()
      modifies this
      ensures Valid()
      ensures !IsObjectId(id) ==> r == Failure(InvalidId) && categories == old(categories)
      ensures IsObjectId(id) && IndexOfId(old(categories), id) == -1 ==> r == Failure(NotFound) && categories == old(categories)
      ensures var i := IndexOfId(old(categories), id);
        IsObjectId(id) && 0 <= i ==>
          if |ChildrenOf(old(categories), id)| > 0 then r == Failure(HasSubCategories) && categories == old(categories)
          else if Canonical(id) in productCategories then r == Failure(UsedByProducts) && categories == old(categories)
          else r == Success(old(categories)[i]) && categories == RemoveAt(old(categories), i)
    {
      if !IsObjectId(id) {
        return Failure(InvalidId);
      }
      var i := IndexOfId(categories, id);
      if i == -1 {
        return Failure(NotFound);
      }
      var children := ChildrenOf(categories, id);
      if |children| > 0 {
        return Failure(HasSubCategories);
      }
      if Canonical(id) in productCategories {
        return Failure(UsedByProducts);
      }
      DeleteLeavesNoOrphans(categories, i);
      r := Success(categories[i]);
      categories := RemoveAt(categories, i);
    }
  }
}
