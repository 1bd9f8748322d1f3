/** The state-changing handlers of Backend/src/controller/productController.js and the
    `updateStock` document method of Backend/src/models/Producto.js. Each handler's answer is a
    function of the store and the request; the method applies it to the store. */
module ProductController {
  import opened Common
  import opened Text
  import opened CategorySchema
  import opened SubcategorySchema
  import opened ProductSchema
  import opened Store
  import ErrorHandler

  /** The fields of a create or update request body that the handlers read (`seoTitle` is read
      too but is not a path of the schema, so it is never stored). */
  datatype ProductBody = ProductBody(
    name: Option<string>,
    description: Option<string>,
    shortDescription: Option<string>,
    sku: Option<string>,
    category: Option<Id>,
    subcategory: Option<Id>,
    price: Option<real>,
    comparePrice: Option<real>,
    cost: Option<real>,
    stock: Option<StockInput>,
    dimensions: Option<Dimensions>,
    images: Option<seq<Image>>,
    tags: Option<seq<string>>,
    isActive: Option<bool>,
    isFeatured: Option<bool>,
    isDigital: Option<bool>,
    sortOrder: Option<int>,
    seoDescription: Option<string>)

  // ---------------------------------------------------------------- setters

  /** The `trim` and `lowercase` setters of a tag. */
  function NormalizeTag(tag: string): string {
    Lower(Trim(tag))
  }

  function NormalizeTags(tags: seq<string>): seq<string> {
    seq(|tags|, i requires 0 <= i < |tags| => NormalizeTag(tags[i]))
  }

  /** The `trim` setters of an image's url and alt text. */
  function CastImage(img: Image): Image {
    Image(Trim(img.url), TrimOption(img.alt), img.isPrimary)
  }

  function CastImages(images: seq<Image>): seq<Image> {
    seq(|images| , i requires 0 <= i < |images| => CastImage(images[i]))
  }

  /** A stored tag is trimmed and has no upper-case letter, and normalising it again changes
      nothing. */
  lemma NormalizeTagSpec(tag: string)
    ensures IsTrimmed(NormalizeTag(tag))
    ensures forall i :: 0 <= i < |NormalizeTag(tag)| ==> !IsUpperAscii(NormalizeTag(tag)[i])
    ensures NormalizeTag(NormalizeTag(tag)) == NormalizeTag(tag)
  {
    var t := Trim(tag);
    TrimSpec(tag);
    LowerSpec(t);
    LowerKeepsTrimmed(t);
    TrimOfTrimmed(Lower(t));
  }

  /** Lower-casing changes no white-space character, so a trimmed string stays trimmed. */
  lemma LowerKeepsTrimmed(s: string)
    requires IsTrimmed(s)
    ensures IsTrimmed(Lower(s))
  {
    LowerSpec(s);
    if |s| > 0 {
      assert !IsUpperAscii(s[0]) ==> Lower(s)[0] == s[0];
      assert !IsUpperAscii(s[|s| - 1]) ==> Lower(s)[|s| - 1] == s[|s| - 1];
    }
  }

  // ---------------------------------------------------------------- createProduct

  /** The checks `createProduct` makes before building the document: the category exists (its
      activity is left to the validator), the subcategory exists and is active, and it belongs
      to that category. */
  predicate HierarchyGiven(body: ProductBody, categories: map<Id, Category>, subcategories: map<Id, Subcategory>) {
    body.category.Some? && body.category.value in categories
    && body.subcategory.Some? && SubcategoryActive(body.subcategory.value, subcategories)
    && subcategories[body.subcategory.value].category == body.category.value
  }

  /** The document `Product.create` builds: the SKU upper-cased, the stock, tags, flags and
      order defaulted, strings trimmed; a missing required string is stored as the empty
      string, which the required validator refuses like an absent one. */
  function NewProduct(body: ProductBody, user: Id): Product
    requires body.sku.Some? && body.category.Some? && body.subcategory.Some?
  {
    Product(Trim(body.name.GetOr("")), Trim(body.description.GetOr("")), Trim(body.shortDescription.GetOr("")),
            "", Upper(body.sku.value), body.category.value, body.subcategory.value,
            body.price, body.comparePrice, body.cost, StockFrom(body.stock),
            body.dimensions.GetOr(Dimensions(None, None, None, None)), CastImages(body.images.GetOr([])),
            NormalizeTags(body.tags.GetOr([])), body.isActive.GetOr(true), body.isFeatured.GetOr(false),
            body.isDigital.GetOr(false), body.sortOrder.GetOr(0), TrimOption(body.seoDescription), user, None)
  }

  /** What `createProduct` answers. Calling `toUpperCase` on a missing SKU throws a TypeError
      (500); the hierarchy hook never fires, because the handler has already checked the pair. */
  function CreateOutcome(categories: map<Id, Category>, subcategories: map<Id, Subcategory>, products: map<Id, Product>,
                         newId: Id, body: ProductBody, user: Id): (r: Outcome<Product>)
    ensures r.status in {CREATED, BAD_REQUEST, SERVER_ERROR}
    ensures r.data.Some? <==> r.status == CREATED
    ensures !HierarchyGiven(body, categories, subcategories) ==> r.status == BAD_REQUEST
    ensures r.status == SERVER_ERROR <==> HierarchyGiven(body, categories, subcategories) && body.sku.None?
  {
    if !HierarchyGiven(body, categories, subcategories) then Outcome(BAD_REQUEST, None)
    else if body.sku.None? then
      var thrown := ErrorHandler.TypeError("Cannot read properties of undefined (reading 'toUpperCase')");
      ErrorHandler.UnclassifiedIsServerError(thrown);
      Outcome(ErrorHandler.StatusOf(thrown), None)
    else
      var p := NewProduct(body, user);
      var r := ProductSave(categories, subcategories, products, newId, p, true, true);
      if r.Failed? then
        ProductErrorsSpec(p, categories, subcategories);
        HierarchyHookSpec(p, categories, subcategories, true);
        Outcome(ErrorHandler.StatusOf(r.error), None)
      else Outcome(CREATED, Some(r.record))
  }

  /** The created record: the trimmed name and its slug, the upper-cased SKU, parents that are
      active and belong together, and the defaults for what the body leaves out. */
  lemma CreatedRecord(categories: map<Id, Category>, subcategories: map<Id, Subcategory>, products: map<Id, Product>,
                      newId: Id, body: ProductBody, user: Id)
    ensures CreateOutcome(categories, subcategories, products, newId, body, user).status == CREATED ==>
      body.name.Some? && body.sku.Some? && body.category.Some? && body.subcategory.Some?
      && var n := CreateOutcome(categories, subcategories, products, newId, body, user).data.value;
      n.name == Trim(body.name.value) && n.slug == Slugify(n.name) && n.sku == Upper(body.sku.value)
      && n.category == body.category.value && n.subcategory == body.subcategory.value
      && ParentActive(n.category, categories) && SubcategoryActive(n.subcategory, subcategories)
      && subcategories[n.subcategory].category == n.category
      && n.stock == StockFrom(body.stock) && n.tags == NormalizeTags(body.tags.GetOr([]))
      && n.isActive == body.isActive.GetOr(true) && n.isFeatured == body.isFeatured.GetOr(false)
      && n.isDigital == body.isDigital.GetOr(false) && n.sortOrder == body.sortOrder.GetOr(0)
      && n.createdBy == user && n.updatedBy.None?
  {
    if CreateOutcome(categories, subcategories, products, newId, body, user).status == CREATED {
      ProductErrorsSpec(NewProduct(body, user), categories, subcategories);
    }
  }

  /** A product is created exactly when the handler's checks pass, a SKU is given and the save
      of the built document goes through. */
  lemma CreatedExactly(categories: map<Id, Category>, subcategories: map<Id, Subcategory>, products: map<Id, Product>,
                       newId: Id, body: ProductBody, user: Id)
    ensures CreateOutcome(categories, subcategories, products, newId, body, user).status == CREATED <==>
      HierarchyGiven(body, categories, subcategories) && body.sku.Some?
      && ProductSave(categories, subcategories, products, newId, NewProduct(body, user), true, true).Saved?
  {
  }

  /** A created product is one the store's invariant accepts. */
  lemma CreateKeepsStoreOk(categories: map<Id, Category>, subcategories: map<Id, Subcategory>, products: map<Id, Product>,
                           newId: Id, body: ProductBody, user: Id)
    requires StoreOk(categories, subcategories, products)
    ensures var r := CreateOutcome(categories, subcategories, products, newId, body, user);
      StoreOk(categories, subcategories, if r.status == CREATED then products[newId := r.data.value] else products)
  {
    if CreateOutcome(categories, subcategories, products, newId, body, user).status == CREATED {
      UpperSpec(body.sku.value);
      ProductSaveKeepsValid(categories, subcategories, products, newId, NewProduct(body, user), true, true);
    }
  }

  /** `createProduct`. `new Producto(...)` gets a fresh ObjectId. */
  method CreateProduct(db: Catalog, body: ProductBody, newId: Id, user: Id) returns (out: Outcome<Product>)
    requires db.Valid() && newId !in db.products
    modifies db
    ensures db.Valid()
    ensures out == CreateOutcome(old(db.categories), old(db.subcategories), old(db.products), newId, body, user)
    ensures db.categories == old(db.categories) && db.subcategories == old(db.subcategories)
    ensures db.products ==
      if out.status == CREATED then old(db.products)[newId := out.data.value] else old(db.products)
  {
    out := CreateOutcome(db.categories, db.subcategories, db.products, newId, body, user);
    CreateKeepsStoreOk(db.categories, db.subcategories, db.products, newId, body, user);
    db.products := if out.status == CREATED then db.products[newId := out.data.value] else db.products;
  }

  // ---------------------------------------------------------------- updateProduct

  /** The request names a category or a subcategory. */
  predicate RefsGiven(body: ProductBody) {
    body.category.Some? || body.subcategory.Some?
  }

  /** The checks `updateProduct` makes when a category or a subcategory is given: with the
      missing one taken from the product, the category exists and is active, the subcategory
      exists and is active, and it belongs to the category. */
  predicate TargetsOk(p: Product, body: ProductBody, categories: map<Id, Category>, subcategories: map<Id, Subcategory>) {
    var c, s := body.category.GetOr(p.category), body.subcategory.GetOr(p.subcategory);
    ParentActive(c, categories) && SubcategoryActive(s, subcategories) && subcategories[s].category == c
  }

  /** `findOne({ sku })` finds another product. */
  predicate SkuTaken(products: map<Id, Product>, sku: string) {
    exists o | o in products :: products[o].sku == sku
  }

  /** The record after `updateProduct`'s assignments (before the save hooks). */
  function UpdatedProduct(p: Product, body: ProductBody, user: Id): Product {
    p.(name := if Truthy(body.name) then Trim(body.name.value) else p.name,
       description := if body.description.Some? then Trim(body.description.value) else p.description,
       shortDescription := if body.shortDescription.Some? then Trim(body.shortDescription.value) else p.shortDescription,
       sku := if Truthy(body.sku) then Upper(body.sku.value) else p.sku,
       category := body.category.GetOr(p.category),
       subcategory := body.subcategory.GetOr(p.subcategory),
       price := if body.price.Some? then body.price else p.price,
       comparePrice := if body.comparePrice.Some? then body.comparePrice else p.comparePrice,
       cost := if body.cost.Some? then body.cost else p.cost,
       stock := if body.stock.Some? then StockFrom(body.stock) else p.stock,
       dimensions := body.dimensions.GetOr(p.dimensions),
       images := if body.images.Some? then CastImages(body.images.value) else p.images,
       tags := if body.tags.Some? then NormalizeTags(body.tags.value) else p.tags,
       isActive := body.isActive.GetOr(p.isActive),
       isFeatured := body.isFeatured.GetOr(p.isFeatured),
       isDigital := body.isDigital.GetOr(p.isDigital),
       sortOrder := body.sortOrder.GetOr(p.sortOrder),
       seoDescription := if body.seoDescription.Some? then TrimOption(body.seoDescription) else p.seoDescription,
       updatedBy := Some(user))
  }

  /** `isModified('category') || isModified('subcategory')`. */
  predicate RefsModified(p: Product, q: Product) {
    q.category != p.category || q.subcategory != p.subcategory
  }

  /** What `updateProduct` answers. A new SKU already in use is refused first; then, when a
      category or subcategory is given, a bad pair answers 404. The hierarchy hook never fires:
      a changed pair has just been checked. */
  function UpdateOutcome(categories: map<Id, Category>, subcategories: map<Id, Subcategory>, products: map<Id, Product>,
                         id: Id, body: ProductBody, user: Id): (r: Outcome<Product>)
    ensures r.status in {OK, BAD_REQUEST, NOT_FOUND}
    ensures r.data.Some? <==> r.status == OK
    ensures id !in products ==> r.status == NOT_FOUND
    ensures (id in products && Truthy(body.sku) && Upper(body.sku.value) != products[id].sku
      && SkuTaken(products, Upper(body.sku.value))) ==> r.status == BAD_REQUEST
    ensures (id in products && RefsGiven(body) && !TargetsOk(products[id], body, categories, subcategories)
      && !(Truthy(body.sku) && Upper(body.sku.value) != products[id].sku && SkuTaken(products, Upper(body.sku.value))))
      ==> r.status == NOT_FOUND
    ensures r.status == NOT_FOUND ==> id !in products || (RefsGiven(body) && !TargetsOk(products[id], body, categories, subcategories))
    ensures r.status == OK ==>
      id in products && r.data.value == ProductSchema.SlugHook(UpdatedProduct(products[id], body, user),
                                                               UpdatedProduct(products[id], body, user).name != products[id].name)
      && ProductErrors(UpdatedProduct(products[id], body, user), categories, subcategories) == []
      && (RefsGiven(body) ==> subcategories[r.data.value.subcategory].category == r.data.value.category)
      && (!RefsGiven(body) ==> r.data.value.category == products[id].category
                               && r.data.value.subcategory == products[id].subcategory)
  {
    if id !in products then Outcome(NOT_FOUND, None)
    else
      var p := products[id];
      if Truthy(body.sku) && Upper(body.sku.value) != p.sku && SkuTaken(products, Upper(body.sku.value)) then
        Outcome(BAD_REQUEST, None)
      else if RefsGiven(body) && !TargetsOk(p, body, categories, subcategories) then Outcome(NOT_FOUND, None)
      else
        var q := UpdatedProduct(p, body, user);
        var r := ProductSave(categories, subcategories, products, id, q, q.name != p.name, RefsModified(p, q));
        HierarchyHookSpec(q, categories, subcategories, RefsModified(p, q));
        if r.Failed? then Outcome(ErrorHandler.StatusOf(r.error), None)
        else Outcome(OK, Some(r.record))
  }

  /** An update succeeds exactly when the product exists, a new SKU is not in use, a given
      category or subcategory passes the handler's checks, and the save of the assigned record
      goes through. */
  lemma UpdatedExactly(categories: map<Id, Category>, subcategories: map<Id, Subcategory>, products: map<Id, Product>,
                       id: Id, body: ProductBody, user: Id)
    ensures UpdateOutcome(categories, subcategories, products, id, body, user).status == OK <==>
      id in products
      && var p := products[id];
      !(Truthy(body.sku) && Upper(body.sku.value) != p.sku && SkuTaken(products, Upper(body.sku.value)))
      && (RefsGiven(body) ==> TargetsOk(p, body, categories, subcategories))
      && var q := UpdatedProduct(p, body, user);
      ProductSave(categories, subcategories, products, id, q, q.name != p.name, RefsModified(p, q)).Saved?
  {
  }

  /** A successful update stores a record the store's invariant accepts. */
  lemma UpdateKeepsStoreOk(categories: map<Id, Category>, subcategories: map<Id, Subcategory>, products: map<Id, Product>,
                           id: Id, body: ProductBody, user: Id)
    requires StoreOk(categories, subcategories, products)
    ensures var r := UpdateOutcome(categories, subcategories, products, id, body, user);
      StoreOk(categories, subcategories, if r.status == OK then products[id := r.data.value] else products)
  {
    if UpdateOutcome(categories, subcategories, products, id, body, user).status != OK {
      return;
    }
    var p := products[id];
    var q := UpdatedProduct(p, body, user);
    if Truthy(body.sku) {
      UpperSpec(body.sku.value);
    }
    assert ProductStored(p, categories, subcategories);
    ProductSaveKeepsValid(categories, subcategories, products, id, q, q.name != p.name, RefsModified(p, q));
  }

  /** `updateProduct`. */
  method UpdateProduct(db: Catalog, id: Id, body: ProductBody, user: Id) returns (out: Outcome<Product>)
    requires db.Valid()
    modifies db
    ensures db.Valid()
    ensures out == UpdateOutcome(old(db.categories), old(db.subcategories), old(db.products), id, body, user)
    ensures db.categories == old(db.categories) && db.subcategories == old(db.subcategories)
    ensures db.products == if out.status == OK then old(db.products)[id := out.data.value] else old(db.products)
  {
    out := UpdateOutcome(db.categories, db.subcategories, db.products, id, body, user);
    UpdateKeepsStoreOk(db.categories, db.subcategories, db.products, id, body, user);
    db.products := if out.status == OK then db.products[id := out.data.value] else db.products;
  }

  // ---------------------------------------------------------------- deleteProduct

  /** Nothing refers to a product, so removing one keeps the store's invariant. */
  lemma DeleteKeepsStoreOk(categories: map<Id, Category>, subcategories: map<Id, Subcategory>, products: map<Id, Product>,
                           id: Id)
    requires StoreOk(categories, subcategories, products)
    ensures StoreOk(categories, subcategories, products - {id})
  {
  }

  /** `deleteProduct`: any product can go. */
  method DeleteProduct(db: Catalog, id: Id) returns (out: Outcome<Product>)
    requires db.Valid()
    modifies db
    ensures db.Valid()
    ensures db.categories == old(db.categories) && db.subcategories == old(db.subcategories)
    ensures out.data.None?
    ensures id !in old(db.products) ==> out.status == NOT_FOUND && db.products == old(db.products)
    ensures id in old(db.products) ==> out.status == OK && db.products == old(db.products) - {id}
  {
    out := if id in db.products then Outcome(OK, None) else Outcome(NOT_FOUND, None);
    DeleteKeepsStoreOk(db.categories, db.subcategories, db.products, id);
    db.products := if id in db.products then db.products - {id} else db.products;
  }

  // ---------------------------------------------------------------- saves that keep name, SKU and parents

  /** Saving a product whose name, slug, SKU and parents are those of the stored one: only
      validation can refuse it, and its own fields are checked along with the parents being
      active (a save under a deactivated parent fails with 400). */
  lemma SameIdentitySave(categories: map<Id, Category>, subcategories: map<Id, Subcategory>, products: map<Id, Product>,
                         id: Id, q: Product)
    requires StoreOk(categories, subcategories, products)
    requires id in products
    requires q.name == products[id].name && q.slug == products[id].slug && q.sku == products[id].sku
    requires q.category == products[id].category && q.subcategory == products[id].subcategory
    ensures ProductSave(categories, subcategories, products, id, q, false, false) ==
      if ProductErrors(q, categories, subcategories) == [] then Saved(q)
      else Failed(ErrorHandler.ValidationError(ProductErrors(q, categories, subcategories)))
    ensures ProductErrors(q, categories, subcategories) == [] <==>
      ProductSchema.OwnFieldsOk(q) && ParentActive(q.category, categories) && SubcategoryActive(q.subcategory, subcategories)
    ensures ProductErrors(q, categories, subcategories) == [] ==> StoreOk(categories, subcategories, products[id := q])
  {
    var p := products[id];
    ProductErrorsSpec(q, categories, subcategories);
    assert ProductStored(p, categories, subcategories);
    forall o | o in products && o != id ensures products[o].slug != q.slug && products[o].sku != q.sku {
      assert products[o].slug != p.slug && products[o].sku != p.sku;
    }
    if ProductErrors(q, categories, subcategories) == [] {
      ProductSaveKeepsValid(categories, subcategories, products, id, q, false, false);
    }
  }

  // ---------------------------------------------------------------- toggleProductStatus

  function Toggled(p: Product, user: Id): (r: Product)
    ensures r.isActive == !p.isActive && r.updatedBy == Some(user)
    ensures ProductRestamped(p, r)
  {
    p.(isActive := !p.isActive, updatedBy := Some(user))
  }

  /** What `toggleProductStatus` answers: the flip is saved unless a parent is inactive, and
      then the validators refuse it with 400. */
  function ToggleOutcome(categories: map<Id, Category>, subcategories: map<Id, Subcategory>, products: map<Id, Product>,
                         id: Id, user: Id): (r: Outcome<Product>)
    requires StoreOk(categories, subcategories, products)
    ensures id !in products ==> r == Outcome(NOT_FOUND, None)
    ensures id in products ==>
      var p := products[id];
      if ParentActive(p.category, categories) && SubcategoryActive(p.subcategory, subcategories)
      then r == Outcome(OK, Some(Toggled(p, user)))
      else r == Outcome(BAD_REQUEST, None)
  {
    if id !in products then Outcome(NOT_FOUND, None)
    else
      var q := Toggled(products[id], user);
      assert ProductStored(products[id], categories, subcategories);
      SameIdentitySave(categories, subcategories, products, id, q);
      var r := ProductSave(categories, subcategories, products, id, q, false, false);
      if r.Failed? then Outcome(ErrorHandler.StatusOf(r.error), None) else Outcome(OK, Some(r.record))
  }

  /** A successful flip keeps the store's invariant. */
  lemma ToggleKeepsStoreOk(categories: map<Id, Category>, subcategories: map<Id, Subcategory>, products: map<Id, Product>,
                           id: Id, user: Id)
    requires StoreOk(categories, subcategories, products)
    ensures var r := ToggleOutcome(categories, subcategories, products, id, user);
      StoreOk(categories, subcategories, if r.status == OK then products[id := r.data.value] else products)
  {
    if id in products {
      SameIdentitySave(categories, subcategories, products, id, Toggled(products[id], user));
    }
  }

  /** `toggleProductStatus`. */
  method ToggleProductStatus(db: Catalog, id: Id, user: Id) returns (out: Outcome<Product>)
    requires db.Valid()
    modifies db
    ensures db.Valid()
    ensures out == ToggleOutcome(old(db.categories), old(db.subcategories), old(db.products), id, user)
    ensures db.categories == old(db.categories) && db.subcategories == old(db.subcategories)
    ensures db.products == if out.status == OK then old(db.products)[id := out.data.value] else old(db.products)
  {
    out := ToggleOutcome(db.categories, db.subcategories, db.products, id, user);
    ToggleKeepsStoreOk(db.categories, db.subcategories, db.products, id, user);
    db.products := if out.status == OK then db.products[id := out.data.value] else db.products;
  }

  // ---------------------------------------------------------------- updateProductStock

  /** The body of a successful stock update. `previousStock` is read after the change, so it
      equals `newStock`; `isLowStock` names no virtual of the schema and is left out. */
  datatype StockReport = StockReport(sku: string, name: string, previousStock: int, newStock: int, isOutOfStock: bool)

  /** The quantity `updateProductStock` assigns; `None` for an unknown operation. As written,
      `add` assigns the given quantity instead of adding it. */
  function StockQuantityAfter(current: int, quantity: int, operation: string): (r: Option<int>)
    ensures operation == "set" || operation == "add" ==> r == Some(quantity)
    ensures operation == "subtract" ==>
      r.Some? && r.value >= 0 && r.value == (if current - quantity > 0 then current - quantity else 0)
    ensures r.Some? <==> operation in {"set", "add", "subtract"}
  {
    if operation == "set" then Some(quantity)
    else if operation == "add" then Some(quantity)
    else if operation == "subtract" then Some(if 0 > current - quantity then 0 else current - quantity)
    else None
  }

  /** `add` and `set` behave alike: adding to a stock does not keep what was there. */
  lemma AddReplacesStock(current: int, quantity: int)
    ensures StockQuantityAfter(current, quantity, "add") == StockQuantityAfter(current, quantity, "set")
    ensures current != 0 ==> StockQuantityAfter(current, quantity, "add") != Some(current + quantity)
  {
  }

  /** The product after a stock update. */
  function Restocked(p: Product, quantity: int, user: Id): (r: Product)
    ensures r.stock == p.stock.(quantity := quantity) && r.updatedBy == Some(user)
    ensures r.(stock := p.stock, updatedBy := p.updatedBy) == p
  {
    p.(stock := p.stock.(quantity := quantity), updatedBy := Some(user))
  }

  /** What `updateProductStock` answers: the missing quantity, the unknown product (answered
      with 400, not 404), a product without stock tracking and an unknown operation are refused
      in that order; the saved quantity must pass the `min: 0` validator. */
  function StockOutcome(categories: map<Id, Category>, subcategories: map<Id, Subcategory>, products: map<Id, Product>,
                        id: Id, quantity: Option<int>, operation: Option<string>, user: Id): (r: Outcome<StockReport>)
    requires StoreOk(categories, subcategories, products)
    ensures r.status in {OK, BAD_REQUEST}
    ensures r.data.Some? <==> r.status == OK
    ensures quantity.None? || id !in products ==> r.status == BAD_REQUEST
    ensures id in products && !products[id].stock.trackStock ==> r.status == BAD_REQUEST
    ensures operation.Some? && operation.value !in {"set", "add", "subtract"} ==> r.status == BAD_REQUEST
    ensures r.status == OK ==>
      quantity.Some? && id in products && products[id].stock.trackStock
      && var p := products[id];
      var q := StockQuantityAfter(p.stock.quantity, quantity.value, operation.GetOr("set"));
      q.Some? && q.value >= 0 && ParentActive(p.category, categories) && SubcategoryActive(p.subcategory, subcategories)
      && r.data.value == StockReport(p.sku, p.name, q.value, q.value, q.value == 0)
    ensures (quantity.Some? && id in products && products[id].stock.trackStock
      && StockQuantityAfter(products[id].stock.quantity, quantity.value, operation.GetOr("set")).Some?
      && StockQuantityAfter(products[id].stock.quantity, quantity.value, operation.GetOr("set")).value >= 0
      && ParentActive(products[id].category, categories) && SubcategoryActive(products[id].subcategory, subcategories))
      ==> r.status == OK
  {
    if quantity.None? || id !in products || !products[id].stock.trackStock then Outcome(BAD_REQUEST, None)
    else
      var p := products[id];
      var after := StockQuantityAfter(p.stock.quantity, quantity.value, operation.GetOr("set"));
      if after.None? then Outcome(BAD_REQUEST, None)
      else
        var q := Restocked(p, after.value, user);
        assert ProductStored(p, categories, subcategories);
        SameIdentitySave(categories, subcategories, products, id, q);
        var r := ProductSave(categories, subcategories, products, id, q, false, false);
        if r.Failed? then Outcome(ErrorHandler.StatusOf(r.error), None)
        else Outcome(OK, Some(StockReport(q.sku, q.name, q.stock.quantity, q.stock.quantity, IsOutOfStock(q.stock))))
  }

  /** A successful stock update keeps the store's invariant. */
  lemma StockKeepsStoreOk(categories: map<Id, Category>, subcategories: map<Id, Subcategory>, products: map<Id, Product>,
                          id: Id, quantity: Option<int>, operation: Option<string>, user: Id)
    requires StoreOk(categories, subcategories, products)
    ensures var r := StockOutcome(categories, subcategories, products, id, quantity, operation, user);
      r.status == OK ==>
        id in products
        && StoreOk(categories, subcategories, products[id := Restocked(products[id], r.data.value.newStock, user)])
  {
    var r := StockOutcome(categories, subcategories, products, id, quantity, operation, user);
    if r.status == OK {
      SameIdentitySave(categories, subcategories, products, id, Restocked(products[id], r.data.value.newStock, user));
    }
  }

  /** `updateProductStock`. */
  method UpdateProductStock(db: Catalog, id: Id, quantity: Option<int>, operation: Option<string>, user: Id)
    returns (out: Outcome<StockReport>)
    requires db.Valid()
    modifies db
    ensures db.Valid()
    ensures out == StockOutcome(old(db.categories), old(db.subcategories), old(db.products), id, quantity, operation, user)
    ensures db.categories == old(db.categories) && db.subcategories == old(db.subcategories)
    ensures db.products ==
      if out.status == OK
      then old(db.products)[id := Restocked(old(db.products[id]), out.data.value.newStock, user)]
      else old(db.products)
  {
    out := StockOutcome(db.categories, db.subcategories, db.products, id, quantity, operation, user);
    StockKeepsStoreOk(db.categories, db.subcategories, db.products, id, quantity, operation, user);
    db.products :=
      if out.status == OK then db.products[id := Restocked(db.products[id], out.data.value.newStock, user)]
      else db.products;
  }

  // ---------------------------------------------------------------- updateStock

  /** The save `updateStock` makes: only the parents being inactive can refuse it (the new
      quantity is never negative, and name, slug, SKU and parents are unchanged). */
  function DeltaOutcome(categories: map<Id, Category>, subcategories: map<Id, Subcategory>, products: map<Id, Product>,
                        id: Id, delta: int): (r: SaveResult<Product>)
    requires StoreOk(categories, subcategories, products) && id in products
    ensures var p := products[id];
      var q := p.(stock := StockAfterDelta(p.stock, delta));
      r == (if ParentActive(p.category, categories) && SubcategoryActive(p.subcategory, subcategories)
            then Saved(q) else Failed(ErrorHandler.ValidationError(ProductErrors(q, categories, subcategories))))
  {
    var p := products[id];
    var q := p.(stock := StockAfterDelta(p.stock, delta));
    assert ProductStored(p, categories, subcategories);
    SameIdentitySave(categories, subcategories, products, id, q);
    ProductSave(categories, subcategories, products, id, q, false, false)
  }

  /** A successful stock save keeps the store's invariant. */
  lemma DeltaKeepsStoreOk(categories: map<Id, Category>, subcategories: map<Id, Subcategory>, products: map<Id, Product>,
                          id: Id, delta: int)
    requires StoreOk(categories, subcategories, products) && id in products
    ensures var r := DeltaOutcome(categories, subcategories, products, id, delta);
      r.Saved? ==> StoreOk(categories, subcategories, products[id := r.record])
  {
    var p := products[id];
    var q := p.(stock := StockAfterDelta(p.stock, delta));
    SameIdentitySave(categories, subcategories, products, id, q);
  }

  /** `product.updateStock(quantity)`: the signed amount is added (clamped at zero) when the
      product tracks stock, then the product is saved; `updatedBy` is not touched. The result
      is the save's. */
  method UpdateStock(db: Catalog, id: Id, delta: int) returns (r: SaveResult<Product>)
    requires db.Valid()
    requires id in db.products
    modifies db
    ensures db.Valid()
    ensures db.categories == old(db.categories) && db.subcategories == old(db.subcategories)
    ensures r == DeltaOutcome(old(db.categories), old(db.subcategories), old(db.products), id, delta)
    ensures db.products == if r.Saved? then old(db.products)[id := r.record] else old(db.products)
  {
    r := DeltaOutcome(db.categories, db.subcategories, db.products, id, delta);
    if r.Saved? {
      DeltaKeepsStoreOk(db.categories, db.subcategories, db.products, id, delta);
      db.products := db.products[id := r.record];
    }
  }
}
