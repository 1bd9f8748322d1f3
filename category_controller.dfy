/** The state-changing handlers of Backend/src/controller/CategoryController.js. Each takes the
    store, the request's fields and the caller's id (`req.user._id`) and answers an outcome;
    every error a handler throws reaches the error middleware, so its status is
    `ErrorHandler.StatusOf` of that error. */
module CategoryController {
  import opened Common
  import opened Text
  import opened CategorySchema
  import opened SubcategorySchema
  import opened ProductSchema
  import opened Store
  import ErrorHandler

  /** The fields of a create or update request body that the handlers read. */
  datatype CategoryBody = CategoryBody(
    name: Option<string>,
    description: Option<string>,
    icon: Option<string>,
    color: Option<string>,
    sortOrder: Option<int>,
    isActive: Option<bool>)

  /** `findOne({ name: /^name$/i })` finds a record: some stored name equals `name` ignoring
      case (the name is put in the pattern unescaped; see README). */
  predicate NameTaken(categories: map<Id, Category>, name: string) {
    exists id | id in categories :: EqualsIgnoreCase(categories[id].name, name)
  }

  /** The document `Category.create` builds: trimmed strings, `sortOrder || 0`, `isActive`
      defaulting to true, no colour (the handler does not pass one) and the slug still unset. */
  function NewCategory(body: CategoryBody, user: Id): Category
    requires body.name.Some?
  {
    Category(Trim(body.name.value), TrimOption(body.description), "", body.isActive.GetOr(true),
             TrimOption(body.icon), None, body.sortOrder.GetOr(0), user, None)
  }

  /** What `createCategory` answers: the name is required and must be free ignoring case,
      and the save must go through. */
  function CreateOutcome(categories: map<Id, Category>, body: CategoryBody, newId: Id, user: Id)
    : (r: Outcome<Category>)
    ensures r.status == CREATED || r.status == BAD_REQUEST
    ensures r.data.Some? <==> r.status == CREATED
    ensures !Truthy(body.name) ==> r.status == BAD_REQUEST
    ensures Truthy(body.name) && NameTaken(categories, body.name.value) ==> r.status == BAD_REQUEST
    ensures r.status == CREATED <==>
      Truthy(body.name) && !NameTaken(categories, body.name.value)
      && CategorySave(categories, newId, NewCategory(body, user), true).Saved?
    ensures r.status == CREATED ==>
      var n := r.data.value;
      n.name == Trim(body.name.value) && n.slug == Slugify(Trim(body.name.value))
      && n.isActive == body.isActive.GetOr(true) && n.sortOrder == body.sortOrder.GetOr(0)
      && n.createdBy == user
  {
    if !Truthy(body.name) then Outcome(BAD_REQUEST, None)
    else if NameTaken(categories, body.name.value) then Outcome(BAD_REQUEST, None)
    else
      var r := CategorySave(categories, newId, NewCategory(body, user), true);
      if r.Failed? then Outcome(ErrorHandler.StatusOf(r.error), None)
      else Outcome(CREATED, Some(r.record))
  }

  /** A successful create stores a record the store's invariant accepts. */
  lemma CreateKeepsStoreOk(categories: map<Id, Category>, subcategories: map<Id, Subcategory>, products: map<Id, Product>,
                           body: CategoryBody, newId: Id, user: Id)
    requires StoreOk(categories, subcategories, products)
    ensures var r := CreateOutcome(categories, body, newId, user);
      r.status == CREATED ==> StoreOk(categories[newId := r.data.value], subcategories, products)
  {
    var r := CreateOutcome(categories, body, newId, user);
    if r.status == CREATED {
      CategorySaveKeepsValid(categories, newId, NewCategory(body, user), true);
      MoreCategoriesKeepValid(categories, subcategories, products, categories[newId := r.data.value]);
    }
  }

  /** `createCategory`. */
  method CreateCategory(db: Catalog, body: CategoryBody, newId: Id, user: Id) returns (out: Outcome<Category>)
    requires db.Valid()
    requires newId !in db.categories
    modifies db
    ensures db.Valid()
    ensures out == CreateOutcome(old(db.categories), body, newId, user)
    ensures db.subcategories == old(db.subcategories) && db.products == old(db.products)
    ensures db.categories ==
      if out.status == CREATED then old(db.categories)[newId := out.data.value] else old(db.categories)
  {
    out := CreateOutcome(db.categories, body, newId, user);
    CreateKeepsStoreOk(db.categories, db.subcategories, db.products, body, newId, user);
    db.categories := if out.status == CREATED then db.categories[newId := out.data.value] else db.categories;
  }

  /** The record after `updateCategory`'s assignments (before the save hook). */
  function UpdatedCategory(c: Category, body: CategoryBody, user: Id): Category {
    c.(name := if Truthy(body.name) then Trim(body.name.value) else c.name,
       description := if body.description.Some? then TrimOption(body.description) else c.description,
       icon := if body.icon.Some? then TrimOption(body.icon) else c.icon,
       color := if body.color.Some? then TrimOption(body.color) else c.color,
       sortOrder := body.sortOrder.GetOr(c.sortOrder),
       isActive := body.isActive.GetOr(c.isActive),
       updatedBy := Some(user))
  }

  /** The duplicate check of `updateCategory`: it runs only for a truthy name that differs
      from the stored one as written, and then looks the name up ignoring case. */
  predicate RenameTaken(categories: map<Id, Category>, c: Category, body: CategoryBody) {
    Truthy(body.name) && body.name.value != c.name && NameTaken(categories, body.name.value)
  }

  /** What `updateCategory` answers. Deactivating through an update does not cascade. */
  function UpdateOutcome(categories: map<Id, Category>, id: Id, body: CategoryBody, user: Id): (r: Outcome<Category>)
    ensures r.status in {OK, BAD_REQUEST, NOT_FOUND}
    ensures r.data.Some? <==> r.status == OK
    ensures r.status == NOT_FOUND <==> id !in categories
    ensures id in categories && RenameTaken(categories, categories[id], body) ==> r.status == BAD_REQUEST
    // A case variant of the category's own name finds the category itself.
    ensures (id in categories && Truthy(body.name) && body.name.value != categories[id].name
      && EqualsIgnoreCase(body.name.value, categories[id].name)) ==> r.status == BAD_REQUEST
    ensures r.status == OK ==>
      id in categories
      && var c, n := categories[id], r.data.value;
      n.name == (if Truthy(body.name) then Trim(body.name.value) else c.name)
      && n.slug == (if n.name != c.name then Slugify(n.name) else c.slug)
      && n.description == (if body.description.Some? then TrimOption(body.description) else c.description)
      && n.icon == (if body.icon.Some? then TrimOption(body.icon) else c.icon)
      && n.color == (if body.color.Some? then TrimOption(body.color) else c.color)
      && n.sortOrder == body.sortOrder.GetOr(c.sortOrder)
      && n.isActive == body.isActive.GetOr(c.isActive)
      && n.createdBy == c.createdBy && n.updatedBy == Some(user)
      && CategoryErrors(n) == []
  {
    if id !in categories then Outcome(NOT_FOUND, None)
    else
      var c := categories[id];
      if RenameTaken(categories, c, body) then
        EqualsIgnoreCaseSpec(c.name, c.name, c.name);
        Outcome(BAD_REQUEST, None)
      else
        var updated := UpdatedCategory(c, body, user);
        var r := CategorySave(categories, id, updated, updated.name != c.name);
        if r.Failed? then Outcome(ErrorHandler.StatusOf(r.error), None)
        else
          assert CategoryErrors(r.record) == CategoryErrors(updated);
          Outcome(OK, Some(r.record))
  }

  /** An update succeeds exactly when the category exists, the duplicate check lets the name
      through, and the save of the assigned record goes through. */
  lemma UpdatedExactly(categories: map<Id, Category>, id: Id, body: CategoryBody, user: Id)
    ensures UpdateOutcome(categories, id, body, user).status == OK <==>
      id in categories && !RenameTaken(categories, categories[id], body)
      && var u := UpdatedCategory(categories[id], body, user);
      CategorySave(categories, id, u, u.name != categories[id].name).Saved?
  {
  }

  /** Sending the stored name again, or no name, is never refused as taken: on a valid
      collection such an update whose other fields are valid always succeeds. */
  lemma OwnNameNeverTaken(categories: map<Id, Category>, id: Id, body: CategoryBody, user: Id)
    requires CategoriesOk(categories) && id in categories
    requires body.name.None? || body.name == Some(categories[id].name)
    requires IsTrimmed(categories[id].name)
    requires CategoryErrors(UpdatedCategory(categories[id], body, user)) == []
    ensures !RenameTaken(categories, categories[id], body)
    ensures UpdateOutcome(categories, id, body, user).status == OK
  {
    var c := categories[id];
    var u := UpdatedCategory(c, body, user);
    assert u.name == c.name && u.slug == c.slug by {
      TrimOfTrimmed(c.name);
    }
    assert CategorySave(categories, id, u, false).Saved? by {
      SameNameSaves(categories, id, u);
    }
    UpdatedExactly(categories, id, body, user);
  }

  /** A valid record that keeps the stored name and slug of `id` is saved as it is: no other
      category has that name or that slug. */
  lemma SameNameSaves(categories: map<Id, Category>, id: Id, u: Category)
    requires CategoriesOk(categories) && id in categories
    requires u.name == categories[id].name && u.slug == categories[id].slug
    requires CategoryErrors(u) == []
    ensures CategorySave(categories, id, u, false) == Saved(u)
  {
    forall o | o in categories && o != id
      ensures categories[o].name != u.name && categories[o].slug != u.slug
    {
      assert categories[o].name != categories[id].name && categories[o].slug != categories[id].slug;
    }
  }

  /** A successful update keeps the store's invariant; the children are untouched. */
  lemma UpdateKeepsStoreOk(categories: map<Id, Category>, subcategories: map<Id, Subcategory>, products: map<Id, Product>,
                           id: Id, body: CategoryBody, user: Id)
    requires StoreOk(categories, subcategories, products)
    ensures var r := UpdateOutcome(categories, id, body, user);
      StoreOk(if r.status == OK then categories[id := r.data.value] else categories, subcategories, products)
  {
    var r := UpdateOutcome(categories, id, body, user);
    if r.status == OK {
      var c := categories[id];
      var updated := UpdatedCategory(c, body, user);
      CategorySaveKeepsValid(categories, id, updated, updated.name != c.name);
      MoreCategoriesKeepValid(categories, subcategories, products, categories[id := r.data.value]);
    }
  }

  /** `updateCategory`. */
  method UpdateCategory(db: Catalog, id: Id, body: CategoryBody, user: Id) returns (out: Outcome<Category>)
    requires db.Valid()
    modifies db
    ensures db.Valid()
    ensures out == UpdateOutcome(old(db.categories), id, body, user)
    ensures db.subcategories == old(db.subcategories) && db.products == old(db.products)
    ensures db.categories == if out.status == OK then old(db.categories)[id := out.data.value] else old(db.categories)
  {
    out := UpdateOutcome(db.categories, id, body, user);
    UpdateKeepsStoreOk(db.categories, db.subcategories, db.products, id, body, user);
    db.categories := if out.status == OK then db.categories[id := out.data.value] else db.categories;
  }

  /** `deleteCategory` as written: after the 404 check it calls `category.canDelete()`, which
      the schema does not define (it defines `canBeDeleted`), so the call throws a TypeError
      and the error middleware answers 500; nothing is ever deleted. */
  method DeleteCategory(db: Catalog, id: Id) returns (out: Outcome<Category>)
    ensures out.data.None?
    ensures id !in db.categories ==> out.status == NOT_FOUND
    ensures id in db.categories ==> out.status == SERVER_ERROR
  {
    if id !in db.categories {
      return Outcome(NOT_FOUND, None);
    }
    var thrown := ErrorHandler.TypeError("category.canDelete is not a function");
    ErrorHandler.UnclassifiedIsServerError(thrown);
    out := Outcome(ErrorHandler.StatusOf(thrown), None);
  }

  /** The flip `toggleCategoryStatus` applies before saving. */
  function Toggled(c: Category, user: Id): (r: Category)
    ensures r.isActive == !c.isActive && r.updatedBy == Some(user)
    ensures CategoryRestamped(c, r)
  {
    c.(isActive := !c.isActive, updatedBy := Some(user))
  }

  /** `Subcategory.updateMany({ category: id }, { isActive: false, updatedBy })`: the
      subcategories of the category become inactive, and nothing else changes. */
  function SubcategoriesDeactivated(subcategories: map<Id, Subcategory>, id: Id, user: Id): (r: map<Id, Subcategory>)
    ensures SubcategoriesRestamped(subcategories, r)
    ensures forall s | s in r :: r[s].isActive == (subcategories[s].isActive && subcategories[s].category != id)
    ensures forall s | s in r && subcategories[s].category == id :: r[s].updatedBy == Some(user)
    ensures forall s | s in r && subcategories[s].category != id :: r[s] == subcategories[s]
  {
    map s | s in subcategories ::
      if subcategories[s].category == id then subcategories[s].(isActive := false, updatedBy := Some(user))
      else subcategories[s]
  }

  /** `Product.updateMany({ category: id }, { isActive: false, updatedBy })`. */
  function ProductsDeactivated(products: map<Id, Product>, id: Id, user: Id): (r: map<Id, Product>)
    ensures ProductsRestamped(products, r)
    ensures forall p | p in r :: r[p].isActive == (products[p].isActive && products[p].category != id)
    ensures forall p | p in r && products[p].category == id :: r[p].updatedBy == Some(user)
    ensures forall p | p in r && products[p].category != id :: r[p] == products[p]
  {
    map p | p in products ::
      if products[p].category == id then products[p].(isActive := false, updatedBy := Some(user))
      else products[p]
  }

  /** Saving a flipped category always succeeds (its fields were valid and its name and slug
      are unchanged), and neither the flip nor the cascade breaks the store's invariant. */
  lemma ToggleKeepsValid(categories: map<Id, Category>, subcategories: map<Id, Subcategory>, products: map<Id, Product>,
                         id: Id, user: Id)
    requires StoreOk(categories, subcategories, products)
    requires id in categories
    ensures CategorySave(categories, id, Toggled(categories[id], user), false) == Saved(Toggled(categories[id], user))
    ensures StoreOk(categories[id := Toggled(categories[id], user)], subcategories, products)
    ensures StoreOk(categories[id := Toggled(categories[id], user)],
                    SubcategoriesDeactivated(subcategories, id, user), ProductsDeactivated(products, id, user))
  {
    var c := categories[id];
    var flipped := Toggled(c, user);
    var categories' := categories[id := flipped];
    assert CategoryErrors(flipped) == CategoryErrors(c);
    forall o | o in categories && o != id
      ensures categories[o].name != flipped.name && categories[o].slug != flipped.slug
    {
      assert categories[o].name != c.name && categories[o].slug != c.slug;
    }
    assert CategoriesRestamped(categories, categories');
    RestampKeepsCategoriesValid(categories, categories');
    MoreCategoriesKeepValid(categories, subcategories, products, categories');
    var subcategories' := SubcategoriesDeactivated(subcategories, id, user);
    RestampKeepsSubcategoriesValid(subcategories, subcategories', categories', categories');
    RestampKeepsProductsValid(products, ProductsDeactivated(products, id, user), categories', categories',
                              subcategories, subcategories');
  }

  /** `toggleCategoryStatus`: flip and save the category; when it is now inactive, two
      `updateMany` calls deactivate every subcategory and every product of the category. */
  method ToggleCategoryStatus(db: Catalog, id: Id, user: Id) returns (out: Outcome<Category>)
    requires db.Valid()
    modifies db
    ensures db.Valid()
    ensures id !in old(db.categories) ==>
      out == Outcome(NOT_FOUND, None) && db.categories == old(db.categories)
      && db.subcategories == old(db.subcategories) && db.products == old(db.products)
    ensures id in old(db.categories) ==>
      out == Outcome(OK, Some(Toggled(old(db.categories[id]), user)))
      && db.categories == old(db.categories)[id := Toggled(old(db.categories[id]), user)]
    // Activating touches no child.
    ensures id in old(db.categories) && !old(db.categories[id].isActive) ==>
      db.subcategories == old(db.subcategories) && db.products == old(db.products)
    // Deactivating deactivates exactly the children of this category.
    ensures id in old(db.categories) && old(db.categories[id].isActive) ==>
      db.subcategories == SubcategoriesDeactivated(old(db.subcategories), id, user)
      && db.products == ProductsDeactivated(old(db.products), id, user)
  {
    if id !in db.categories {
      return Outcome(NOT_FOUND, None);
    }
    ToggleKeepsValid(db.categories, db.subcategories, db.products, id, user);
    var flipped := Toggled(db.categories[id], user);
    var r := CategorySave(db.categories, id, flipped, false);
    db.categories := db.categories[id := r.record];
    if !flipped.isActive {
      db.subcategories := SubcategoriesDeactivated(db.subcategories, id, user);
      db.products := ProductsDeactivated(db.products, id, user);
    }
    out := Outcome(OK, Some(flipped));
  }

  /** The update `reorderCategories` sends for the category at position `position`. */
  function Reordered(c: Category, position: nat, user: Id): (r: Category)
    ensures r.sortOrder == position && r.updatedBy == Some(user)
    ensures CategoryRestamped(c, r)
  {
    c.(sortOrder := position, updatedBy := Some(user))
  }

  /** Renumbering the categories only restamps them (every record keeps its name, slug and
      flags), so a valid catalog stays valid. */
  lemma ReorderKeepsStoreOk(categories: map<Id, Category>, subcategories: map<Id, Subcategory>,
                            products: map<Id, Product>, ids: seq<Id>,
                            stamp: (Category, nat) -> Category, user: Id)
    requires StoreOk(categories, subcategories, products)
    requires Distinct(ids)
    requires forall c, i :: stamp(c, i) == Reordered(c, i, user)
    ensures CategoriesRestamped(categories, Resequenced(categories, ids, stamp))
    ensures StoreOk(Resequenced(categories, ids, stamp), subcategories, products)
  {
    ResequencedSpec(categories, ids, stamp);
    var r := Resequenced(categories, ids, stamp);
    forall id | id in categories ensures CategoryRestamped(categories[id], r[id]) {
      if id in ids {
        var i :| 0 <= i < |ids| && ids[i] == id;
      }
    }
    RestampKeepsCategoriesValid(categories, r);
    MoreCategoriesKeepValid(categories, subcategories, products, r);
  }

  /** `reorderCategories`: `None` stands for a body whose `CategoryIds` is not an array. The
      writes are `findByIdAndUpdate(id, { sortOrder: index + 1, updatedBy })`, which skip
      unknown ids and run no validators; they are made one after the other. */
  method ReorderCategories(db: Catalog, categoryIds: Option<seq<Id>>, user: Id) returns (out: Outcome<Category>)
    requires db.Valid()
    requires categoryIds.Some? ==> Distinct(categoryIds.value)
    modifies db
    ensures db.Valid()
    ensures db.subcategories == old(db.subcategories) && db.products == old(db.products)
    ensures out.data.None?
    ensures categoryIds.None? ==> out.status == BAD_REQUEST && db.categories == old(db.categories)
    ensures categoryIds.Some? ==>
      out.status == OK
      && db.categories == Resequenced(old(db.categories), categoryIds.value, (c, i) => Reordered(c, i, user))
  {
    if categoryIds.None? {
      return Outcome(BAD_REQUEST, None);
    }
    var ids := categoryIds.value;
    var stamp: (Category, nat) -> Category := (c: Category, i: nat) => Reordered(c, i, user);
    var renumbered := Renumber(db.categories, ids, stamp);
    ReorderKeepsStoreOk(db.categories, db.subcategories, db.products, ids, stamp, user);
    db.categories := renumbered;
    out := Outcome(OK, None);
  }
}
