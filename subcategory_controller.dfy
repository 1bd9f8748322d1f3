/** The state-changing handlers of Backend/src/controller/subcategoryController.js, over the
    same store as the category handlers. */
module SubcategoryController {
  import opened Common
  import opened Text
  import opened CategorySchema
  import opened SubcategorySchema
  import opened ProductSchema
  import opened Dependents
  import opened Store
  import ErrorHandler

  /** The fields of a create or update request body that the handlers read; the parent may be
      given as `categoryId` or as `category`, and `categoryId` wins. */
  datatype SubcategoryBody = SubcategoryBody(
    name: Option<string>,
    description: Option<string>,
    category: Option<Id>,
    categoryId: Option<Id>,
    icon: Option<string>,
    color: Option<string>,
    sortOrder: Option<int>,
    isActive: Option<bool>)

  /** `categoryId || category`. */
  function TargetCategory(body: SubcategoryBody): Option<Id> {
    FirstPresent(body.categoryId, body.category)
  }

  /** `findOne({ name: /^name$/i, category })`: a subcategory of that category has the name,
      ignoring case. */
  predicate NameTakenIn(subcategories: map<Id, Subcategory>, category: Id, name: string) {
    exists id | id in subcategories :: subcategories[id].category == category && EqualsIgnoreCase(subcategories[id].name, name)
  }

  /** `findOne({ name: /^name$/i })` with no category filter, as `updateSubcategory` sends it. */
  predicate NameTakenAnywhere(subcategories: map<Id, Subcategory>, name: string) {
    exists id | id in subcategories :: EqualsIgnoreCase(subcategories[id].name, name)
  }

  /** The document `Subcategory.create` builds: trimmed strings, `sortOrder || 0`, `isActive`
      defaulting to true, the slug still unset. A missing description is stored as the empty
      string, which the required validator refuses like an absent one. */
  function NewSubcategory(body: SubcategoryBody, category: Id, user: Id): Subcategory
    requires body.name.Some?
  {
    Subcategory(Trim(body.name.value), Trim(body.description.GetOr("")), "", category,
                body.isActive.GetOr(true), TrimOption(body.icon), TrimOption(body.color),
                body.sortOrder.GetOr(0), user, None)
  }

  /** Adding or replacing a subcategory whose save went through keeps the store's invariant:
      the products keep every subcategory they refer to. */
  lemma SaveKeepsStoreOk(categories: map<Id, Category>, subcategories: map<Id, Subcategory>, products: map<Id, Product>,
                         id: Id, s: Subcategory, nameModified: bool, categoryModified: bool)
    requires StoreOk(categories, subcategories, products)
    requires nameModified || s.slug == Slugify(s.name)
    requires SubcategorySave(categories, subcategories, id, s, nameModified, categoryModified).Saved?
    ensures StoreOk(categories,
                    subcategories[id := SubcategorySave(categories, subcategories, id, s, nameModified, categoryModified).record],
                    products)
  {
    var saved := SubcategorySave(categories, subcategories, id, s, nameModified, categoryModified).record;
    SubcategorySaveKeepsValid(categories, subcategories, id, s, nameModified, categoryModified);
    SubcategoryKeysKeepProductsValid(products, categories, subcategories, subcategories[id := saved]);
  }

  /** The slug index is global while the handlers' duplicate checks are not: a save that sets
      a name equal, ignoring case, to that of any other subcategory (in whatever category) is
      refused. */
  lemma {:induction false} NameUsedAnywhereRefused(categories: map<Id, Category>, subcategories: map<Id, Subcategory>,
                                                   id: Id, s: Subcategory, categoryModified: bool, other: Id)
    requires other in subcategories && other != id
    requires subcategories[other].slug == Slugify(subcategories[other].name)
    requires EqualsIgnoreCase(subcategories[other].name, s.name)
    ensures SubcategorySave(categories, subcategories, id, s, true, categoryModified).Failed?
  {
    SlugIgnoresCase(subcategories[other].name, s.name);
    assert subcategories[other].slug == SubcategorySchema.SlugHook(s, true).slug;
  }

  /** What `createSubcategory` answers: the name and an active parent are required, the name
      must be free (ignoring case) among the parent's subcategories, and the save must go
      through. */
  function CreateOutcome(categories: map<Id, Category>, subcategories: map<Id, Subcategory>,
                         body: SubcategoryBody, newId: Id, user: Id): (r: Outcome<Subcategory>)
    ensures r.status == CREATED || r.status == BAD_REQUEST
    ensures r.data.Some? <==> r.status == CREATED
    ensures !Truthy(body.name) || TargetCategory(body).None? ==> r.status == BAD_REQUEST
    ensures TargetCategory(body).Some? && !ParentActive(TargetCategory(body).value, categories) ==>
      r.status == BAD_REQUEST
    ensures (Truthy(body.name) && TargetCategory(body).Some?
      && NameTakenIn(subcategories, TargetCategory(body).value, body.name.value)) ==> r.status == BAD_REQUEST
    ensures r.status == CREATED <==>
      Truthy(body.name) && TargetCategory(body).Some? && ParentActive(TargetCategory(body).value, categories)
      && !NameTakenIn(subcategories, TargetCategory(body).value, body.name.value)
      && SubcategorySave(categories, subcategories, newId, NewSubcategory(body, TargetCategory(body).value, user),
                         true, true).Saved?
    ensures r.status == CREATED ==>
      var n := r.data.value;
      n.name == Trim(body.name.value) && n.slug == Slugify(n.name) && n.category == TargetCategory(body).value
      && n.isActive == body.isActive.GetOr(true) && n.sortOrder == body.sortOrder.GetOr(0) && n.createdBy == user
  {
    var target := TargetCategory(body);
    if !Truthy(body.name) || target.None? then Outcome(BAD_REQUEST, None)
    else if target.value !in categories || !categories[target.value].isActive then Outcome(BAD_REQUEST, None)
    else if NameTakenIn(subcategories, target.value, body.name.value) then Outcome(BAD_REQUEST, None)
    else
      var r := SubcategorySave(categories, subcategories, newId, NewSubcategory(body, target.value, user), true, true);
      if r.Failed? then Outcome(ErrorHandler.StatusOf(r.error), None)
      else Outcome(CREATED, Some(r.record))
  }

  /** A successful create stores a record the store's invariant accepts. */
  lemma CreateKeepsStoreOk(categories: map<Id, Category>, subcategories: map<Id, Subcategory>, products: map<Id, Product>,
                           body: SubcategoryBody, newId: Id, user: Id)
    requires StoreOk(categories, subcategories, products)
    ensures var r := CreateOutcome(categories, subcategories, body, newId, user);
      r.status == CREATED ==> StoreOk(categories, subcategories[newId := r.data.value], products)
  {
    var r := CreateOutcome(categories, subcategories, body, newId, user);
    if r.status == CREATED {
      var created := NewSubcategory(body, TargetCategory(body).value, user);
      SaveKeepsStoreOk(categories, subcategories, products, newId, created, true, true);
    }
  }

  /** `createSubcategory`. */
  method CreateSubcategory(db: Catalog, body: SubcategoryBody, newId: Id, user: Id) returns (out: Outcome<Subcategory>)
    requires db.Valid()
    requires newId !in db.subcategories
    modifies db
    ensures db.Valid()
    ensures out == CreateOutcome(old(db.categories), old(db.subcategories), body, newId, user)
    ensures db.categories == old(db.categories) && db.products == old(db.products)
    ensures db.subcategories ==
      if out.status == CREATED then old(db.subcategories)[newId := out.data.value] else old(db.subcategories)
  {
    out := CreateOutcome(db.categories, db.subcategories, body, newId, user);
    CreateKeepsStoreOk(db.categories, db.subcategories, db.products, body, newId, user);
    db.subcategories := if out.status == CREATED then db.subcategories[newId := out.data.value] else db.subcategories;
  }

  /** The record after `updateSubcategory`'s assignments (before the save hooks). */
  function UpdatedSubcategory(s: Subcategory, body: SubcategoryBody, user: Id): Subcategory {
    s.(name := if Truthy(body.name) then Trim(body.name.value) else s.name,
       description := if body.description.Some? then Trim(body.description.value) else s.description,
       category := TargetCategory(body).GetOr(s.category),
       icon := if body.icon.Some? then TrimOption(body.icon) else s.icon,
       color := if body.color.Some? then TrimOption(body.color) else s.color,
       sortOrder := body.sortOrder.GetOr(s.sortOrder),
       isActive := body.isActive.GetOr(s.isActive),
       updatedBy := Some(user))
  }

  /** The request moves the subcategory: a parent is given and differs from the current one. */
  predicate Moves(s: Subcategory, body: SubcategoryBody) {
    TargetCategory(body).Some? && TargetCategory(body).value != s.category
  }

  /** What `updateSubcategory` answers. The duplicate check looks for `name || subcategory.name`
      in the whole collection, the subcategory itself included. */
  function UpdateOutcome(categories: map<Id, Category>, subcategories: map<Id, Subcategory>, id: Id,
                         body: SubcategoryBody, user: Id): (r: Outcome<Subcategory>)
    ensures r.status in {OK, BAD_REQUEST, NOT_FOUND}
    ensures r.status != OK ==> r.data.None?
    ensures id !in subcategories ==> r.status == NOT_FOUND
    ensures id in subcategories && Moves(subcategories[id], body) ==>
      (TargetCategory(body).value !in categories ==> r.status == NOT_FOUND)
      && ((TargetCategory(body).value in categories && !categories[TargetCategory(body).value].isActive)
            ==> r.status == BAD_REQUEST)
    // Moving without a new name always fails: the duplicate check finds the subcategory itself.
    ensures id in subcategories && Moves(subcategories[id], body) && !Truthy(body.name) ==> r.status != OK
    ensures (id in subcategories && Truthy(body.name) && body.name.value != subcategories[id].name
      && NameTakenAnywhere(subcategories, body.name.value)
      && (Moves(subcategories[id], body) ==> TargetCategory(body).value in categories))
      ==> r.status == BAD_REQUEST
    ensures r.status == OK ==>
      id in subcategories && r.data.Some?
      && var s, n := subcategories[id], r.data.value;
      n.name == (if Truthy(body.name) then Trim(body.name.value) else s.name)
      && n.slug == (if n.name != s.name then Slugify(n.name) else s.slug)
      && n.description == (if body.description.Some? then Trim(body.description.value) else s.description)
      && n.category == TargetCategory(body).GetOr(s.category)
      && ParentActive(n.category, categories)
      && n.icon == (if body.icon.Some? then TrimOption(body.icon) else s.icon)
      && n.color == (if body.color.Some? then TrimOption(body.color) else s.color)
      && n.sortOrder == body.sortOrder.GetOr(s.sortOrder)
      && n.isActive == body.isActive.GetOr(s.isActive)
      && n.createdBy == s.createdBy && n.updatedBy == Some(user)
  {
    if id !in subcategories then Outcome(NOT_FOUND, None)
    else
      var s := subcategories[id];
      var target := TargetCategory(body);
      if Moves(s, body) && target.value !in categories then Outcome(NOT_FOUND, None)
      else if Moves(s, body) && !categories[target.value].isActive then Outcome(BAD_REQUEST, None)
      else if ((Truthy(body.name) && body.name.value != s.name) || Moves(s, body))
              && NameTakenAnywhere(subcategories, if Truthy(body.name) then body.name.value else s.name)
      then
        EqualsIgnoreCaseSpec(s.name, s.name, s.name);
        Outcome(BAD_REQUEST, None)
      else
        var updated := UpdatedSubcategory(s, body, user);
        var r := SubcategorySave(categories, subcategories, id, updated, updated.name != s.name, updated.category != s.category);
        if r.Failed? then Outcome(ErrorHandler.StatusOf(r.error), None)
        else Outcome(OK, Some(r.record))
  }

  /** An update succeeds exactly when the subcategory exists, a new parent (if any) exists and
      is active, the whole-collection duplicate check lets the name through, and the save of
      the assigned record goes through. */
  lemma UpdatedExactly(categories: map<Id, Category>, subcategories: map<Id, Subcategory>, id: Id,
                       body: SubcategoryBody, user: Id)
    ensures UpdateOutcome(categories, subcategories, id, body, user).status == OK <==>
      id in subcategories
      && var s := subcategories[id];
      (Moves(s, body) ==> ParentActive(TargetCategory(body).value, categories))
      && !(((Truthy(body.name) && body.name.value != s.name) || Moves(s, body))
           && NameTakenAnywhere(subcategories, if Truthy(body.name) then body.name.value else s.name))
      && var u := UpdatedSubcategory(s, body, user);
      SubcategorySave(categories, subcategories, id, u, u.name != s.name, u.category != s.category).Saved?
  {
  }

  /** A successful update stores a record the store's invariant accepts. */
  lemma UpdateKeepsStoreOk(categories: map<Id, Category>, subcategories: map<Id, Subcategory>, products: map<Id, Product>,
                           id: Id, body: SubcategoryBody, user: Id)
    requires StoreOk(categories, subcategories, products)
    requires UpdateOutcome(categories, subcategories, id, body, user).status == OK
    ensures StoreOk(categories, subcategories[id := UpdateOutcome(categories, subcategories, id, body, user).data.value], products)
  {
    var s := subcategories[id];
    var updated := UpdatedSubcategory(s, body, user);
    var save := SubcategorySave(categories, subcategories, id, updated, updated.name != s.name, updated.category != s.category);
    assert save.Saved? && UpdateOutcome(categories, subcategories, id, body, user).data == Some(save.record) by {
      UpdatedExactly(categories, subcategories, id, body, user);
    }
    assert updated.name != s.name || updated.slug == Slugify(updated.name) by {
      assert SubcategoryStored(s, categories);
    }
    SaveKeepsStoreOk(categories, subcategories, products, id, updated, updated.name != s.name, updated.category != s.category);
  }

  /** `updateSubcategory`. */
  method UpdateSubcategory(db: Catalog, id: Id, body: SubcategoryBody, user: Id) returns (out: Outcome<Subcategory>)
    requires db.Valid()
    modifies db
    ensures db.Valid()
    ensures out == UpdateOutcome(old(db.categories), old(db.subcategories), id, body, user)
    // A move never touches the subcategory's products, whose `category` then no longer
    // matches their subcategory's.
    ensures db.categories == old(db.categories) && db.products == old(db.products)
    ensures db.subcategories ==
      if out.status == OK then old(db.subcategories)[id := out.data.value] else old(db.subcategories)
  {
    out := UpdateOutcome(db.categories, db.subcategories, id, body, user);
    if out.status == OK {
      UpdateKeepsStoreOk(db.categories, db.subcategories, db.products, id, body, user);
      db.subcategories := db.subcategories[id := out.data.value];
    }
  }

  /** Removing a subcategory no product refers to keeps the store's invariant. */
  lemma DeleteKeepsStoreOk(categories: map<Id, Category>, subcategories: map<Id, Subcategory>, products: map<Id, Product>,
                           id: Id)
    requires StoreOk(categories, subcategories, products)
    requires SubcategoryCanBeDeleted(id, products)
    ensures StoreOk(categories, subcategories - {id}, products)
  {
    SubcategoryCanBeDeletedSpec(id, products);
    SubcategoryKeysKeepProductsValid(products, categories, subcategories, subcategories - {id});
  }

  /** `deleteSubcategory`: refused while a product refers to the subcategory (see
      `Dependents.SubcategoryCanBeDeletedSpec`). */
  method DeleteSubcategory(db: Catalog, id: Id) returns (out: Outcome<Subcategory>)
    requires db.Valid()
    modifies db
    ensures db.Valid()
    ensures db.categories == old(db.categories) && db.products == old(db.products)
    ensures out.data.None?
    ensures id !in old(db.subcategories) ==> out.status == NOT_FOUND && db.subcategories == old(db.subcategories)
    ensures id in old(db.subcategories) && !SubcategoryCanBeDeleted(id, old(db.products)) ==>
      out.status == BAD_REQUEST && db.subcategories == old(db.subcategories)
    ensures id in old(db.subcategories) && SubcategoryCanBeDeleted(id, old(db.products)) ==>
      out.status == OK && db.subcategories == old(db.subcategories) - {id}
  {
    if id !in db.subcategories {
      return Outcome(NOT_FOUND, None);
    }
    if !SubcategoryCanBeDeleted(id, db.products) {
      return Outcome(BAD_REQUEST, None);
    }
    DeleteKeepsStoreOk(db.categories, db.subcategories, db.products, id);
    db.subcategories := db.subcategories - {id};
    out := Outcome(OK, None);
  }

  /** The flip `toggleSubcategoryStatus` applies before saving. */
  function Toggled(s: Subcategory, user: Id): (r: Subcategory)
    ensures r.isActive == !s.isActive && r.updatedBy == Some(user)
    ensures SubcategoryRestamped(s, r)
  {
    s.(isActive := !s.isActive, updatedBy := Some(user))
  }

  /** Saving a flipped subcategory fails exactly when its category is inactive (the parent
      validator runs on every save, deactivation included); otherwise the flipped record is
      stored as it is. */
  lemma ToggleSave(categories: map<Id, Category>, subcategories: map<Id, Subcategory>, products: map<Id, Product>,
                   id: Id, user: Id)
    requires StoreOk(categories, subcategories, products)
    requires id in subcategories
    ensures var s := subcategories[id];
      SubcategorySave(categories, subcategories, id, Toggled(s, user), false, false)
      == if ParentActive(s.category, categories) then Saved(Toggled(s, user))
         else Failed(ErrorHandler.ValidationError(["category"]))
  {
    var s := subcategories[id];
    var flipped := Toggled(s, user);
    assert SubcategoryStored(s, categories);
    assert SubcategoryErrors(flipped, categories) == if ParentActive(s.category, categories) then [] else ["category"];
    forall o | o in subcategories && o != id ensures subcategories[o].slug != flipped.slug {
      assert subcategories[o].slug != s.slug;
    }
  }

  /** Storing the flipped record keeps the store's invariant. */
  lemma ToggleKeepsStoreOk(categories: map<Id, Category>, subcategories: map<Id, Subcategory>, products: map<Id, Product>,
                           id: Id, user: Id)
    requires StoreOk(categories, subcategories, products)
    requires id in subcategories
    ensures StoreOk(categories, subcategories[id := Toggled(subcategories[id], user)], products)
  {
    var subcategories' := subcategories[id := Toggled(subcategories[id], user)];
    assert SubcategoriesRestamped(subcategories, subcategories');
    RestampKeepsSubcategoriesValid(subcategories, subcategories', categories, categories);
    SubcategoryKeysKeepProductsValid(products, categories, subcategories, subcategories');
  }

  /** `toggleSubcategoryStatus`. After deactivating, the handler sends
      `Subcategory.updateMany({ subcategory: id }, …)` — to the Subcategory collection, whose
      documents have no `subcategory` path — so no document matches and no product is
      deactivated. */
  method ToggleSubcategoryStatus(db: Catalog, id: Id, user: Id) returns (out: Outcome<Subcategory>)
    requires db.Valid()
    modifies db
    ensures db.Valid()
    ensures db.categories == old(db.categories) && db.products == old(db.products)
    ensures id !in old(db.subcategories) ==> out == Outcome(NOT_FOUND, None) && db.subcategories == old(db.subcategories)
    ensures id in old(db.subcategories) && !ParentActive(old(db.subcategories[id].category), old(db.categories)) ==>
      out == Outcome(BAD_REQUEST, None) && db.subcategories == old(db.subcategories)
    ensures id in old(db.subcategories) && ParentActive(old(db.subcategories[id].category), old(db.categories)) ==>
      out == Outcome(OK, Some(Toggled(old(db.subcategories[id]), user)))
      && db.subcategories == old(db.subcategories)[id := Toggled(old(db.subcategories[id]), user)]
  {
    if id !in db.subcategories {
      return Outcome(NOT_FOUND, None);
    }
    ToggleSave(db.categories, db.subcategories, db.products, id, user);
    ToggleKeepsStoreOk(db.categories, db.subcategories, db.products, id, user);
    var flipped := Toggled(db.subcategories[id], user);
    var r := SubcategorySave(db.categories, db.subcategories, id, flipped, false, false);
    if r.Failed? {
      return Outcome(ErrorHandler.StatusOf(r.error), None);
    }
    db.subcategories := db.subcategories[id := r.record];
    out := Outcome(OK, Some(flipped));
  }

  /** The update `reorderSubcategories` sends for the subcategory at position `position`. */
  function Reordered(s: Subcategory, position: nat, user: Id): (r: Subcategory)
    ensures r.sortOrder == position && r.updatedBy == Some(user)
    ensures SubcategoryRestamped(s, r)
  {
    s.(sortOrder := position, updatedBy := Some(user))
  }

  /** Renumbering the subcategories only restamps them (every record keeps its name, slug,
      parent and flags), so a valid catalog stays valid. */
  lemma ReorderKeepsStoreOk(categories: map<Id, Category>, subcategories: map<Id, Subcategory>,
                            products: map<Id, Product>, ids: seq<Id>,
                            stamp: (Subcategory, nat) -> Subcategory, user: Id)
    requires StoreOk(categories, subcategories, products)
    requires Distinct(ids)
    requires forall s, i :: stamp(s, i) == Reordered(s, i, user)
    ensures SubcategoriesRestamped(subcategories, Resequenced(subcategories, ids, stamp))
    ensures StoreOk(categories, Resequenced(subcategories, ids, stamp), products)
  {
    ResequencedSpec(subcategories, ids, stamp);
    var r := Resequenced(subcategories, ids, stamp);
    forall id | id in subcategories ensures SubcategoryRestamped(subcategories[id], r[id]) {
      if id in ids {
        var i :| 0 <= i < |ids| && ids[i] == id;
      }
    }
    RestampKeepsSubcategoriesValid(subcategories, r, categories, categories);
    SubcategoryKeysKeepProductsValid(products, categories, subcategories, r);
  }

  /** `reorderSubcategories`: as `reorderCategories`, over the subcategories. */
  method ReorderSubcategories(db: Catalog, subcategoryIds: Option<seq<Id>>, user: Id) returns (out: Outcome<Subcategory>)
    requires db.Valid()
    requires subcategoryIds.Some? ==> Distinct(subcategoryIds.value)
    modifies db
    ensures db.Valid()
    ensures db.categories == old(db.categories) && db.products == old(db.products)
    ensures out.data.None?
    ensures subcategoryIds.None? ==> out.status == BAD_REQUEST && db.subcategories == old(db.subcategories)
    ensures subcategoryIds.Some? ==>
      out.status == OK
      && db.subcategories == Resequenced(old(db.subcategories), subcategoryIds.value, (s, i) => Reordered(s, i, user))
  {
    if subcategoryIds.None? {
      return Outcome(BAD_REQUEST, None);
    }
    var ids := subcategoryIds.value;
    var stamp: (Subcategory, nat) -> Subcategory := (s: Subcategory, i: nat) => Reordered(s, i, user);
    var renumbered := Renumber(db.subcategories, ids, stamp);
    ReorderKeepsStoreOk(db.categories, old(db.subcategories), db.products, ids, stamp, user);
    db.subcategories := renumbered;
    out := Outcome(OK, None);
  }
}
