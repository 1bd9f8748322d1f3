/** The three catalog collections and what one `document.save()` does to them.

    A save runs, in this order: every path's validators (a failure is a ValidationError, 400),
    the `pre('save')` hooks in the order the schema registers them (the slug hook, then the
    parent or hierarchy hook, whose failure is a plain Error, 500), and finally the write,
    which the unique indexes can refuse (a duplicate key, code 11000, 400). The indexes are
    Category `name` and `slug`, Subcategory `slug`, and Product `slug` and `sku`. */
module Store {
  import opened Common
  import opened Text
  import opened CategorySchema
  import opened SubcategorySchema
  import opened ProductSchema
  import ErrorHandler

  datatype SaveResult<R> = Saved(record: R) | Failed(error: ErrorHandler.Error)

  // ---------------------------------------------------------------- what every stored record satisfies

  /** A stored category passed its validators and carries the slug of its name. */
  predicate CategoryStored(c: Category) {
    CategoryErrors(c) == [] && c.slug == Slugify(c.name)
  }

  /** Every stored category is valid, and names and slugs are unique (the two unique indexes). */
  predicate CategoriesOk(categories: map<Id, Category>) {
    (forall id | id in categories :: CategoryStored(categories[id]))
    && (forall a, b | a in categories && b in categories && a != b ::
          categories[a].name != categories[b].name && categories[a].slug != categories[b].slug)
  }

  /** A stored subcategory passed its own validators, carries the slug of its name and refers
      to a category that exists (it may have been deactivated since). */
  predicate SubcategoryStored(s: Subcategory, categories: map<Id, Category>) {
    SubcategorySchema.OwnFieldsOk(s) && s.slug == Slugify(s.name) && s.category in categories
  }

  /** Every stored subcategory is valid, and slugs are unique across the whole collection. */
  predicate SubcategoriesOk(subcategories: map<Id, Subcategory>, categories: map<Id, Category>) {
    (forall id | id in subcategories :: SubcategoryStored(subcategories[id], categories))
    && (forall a, b | a in subcategories && b in subcategories && a != b ::
          subcategories[a].slug != subcategories[b].slug)
  }

  /** A stored product passed its own validators, carries the slug of its name, an upper-case
      SKU, and refers to a category and a subcategory that exist. */
  predicate ProductStored(p: Product, categories: map<Id, Category>, subcategories: map<Id, Subcategory>) {
    ProductSchema.OwnFieldsOk(p) && p.slug == Slugify(p.name) && p.sku == Upper(p.sku)
    && p.category in categories && p.subcategory in subcategories
  }

  /** Every stored product is valid, and SKUs and slugs are unique. */
  predicate ProductsOk(products: map<Id, Product>, categories: map<Id, Category>, subcategories: map<Id, Subcategory>) {
    (forall id | id in products :: ProductStored(products[id], categories, subcategories))
    && (forall a, b | a in products && b in products && a != b ::
          products[a].sku != products[b].sku && products[a].slug != products[b].slug)
  }

  predicate StoreOk(categories: map<Id, Category>, subcategories: map<Id, Subcategory>, products: map<Id, Product>) {
    CategoriesOk(categories) && SubcategoriesOk(subcategories, categories)
    && ProductsOk(products, categories, subcategories)
  }

  // ---------------------------------------------------------------- the collections

  class Catalog {
    var categories: map<Id, Category>
    var subcategories: map<Id, Subcategory>
    var products: map<Id, Product>

    predicate Valid()
      reads this
    {
      StoreOk(categories, subcategories, products)
    }

    constructor ()
      ensures Valid()
      ensures categories == map[] && subcategories == map[] && products == map[]
    {
      categories := map[];
      subcategories := map[];
      products := map[];
    }
  }

  // ---------------------------------------------------------------- saves

  /** `category.save()` of the record `c` under `id` (new or existing). */
  function CategorySave(categories: map<Id, Category>, id: Id, c: Category, nameModified: bool)
    : (r: SaveResult<Category>)
    ensures CategoryErrors(c) != [] ==> r == Failed(ErrorHandler.ValidationError(CategoryErrors(c)))
    ensures r.Failed? ==> ErrorHandler.StatusOf(r.error) == BAD_REQUEST
    ensures r.Saved? ==> CategoryErrors(c) == [] && r.record == SaveHook(c, nameModified)
    ensures r.Saved? <==> (CategoryErrors(c) == [] &&
      forall o | o in categories && o != id ::
        categories[o].name != SaveHook(c, nameModified).name && categories[o].slug != SaveHook(c, nameModified).slug)
  {
    var errors := CategoryErrors(c);
    if errors != [] then Failed(ErrorHandler.ValidationError(errors))
    else
      var saved := SaveHook(c, nameModified);
      if exists o | o in categories && o != id :: categories[o].name == saved.name then
        Failed(ErrorHandler.DuplicateKey("name"))
      else if exists o | o in categories && o != id :: categories[o].slug == saved.slug then
        Failed(ErrorHandler.DuplicateKey("slug"))
      else Saved(saved)
  }

  /** `subcategory.save()`. */
  function SubcategorySave(categories: map<Id, Category>, subcategories: map<Id, Subcategory>, id: Id,
                           s: Subcategory, nameModified: bool, categoryModified: bool)
    : (r: SaveResult<Subcategory>)
    ensures SubcategoryErrors(s, categories) != [] ==>
      r == Failed(ErrorHandler.ValidationError(SubcategoryErrors(s, categories)))
    ensures r.Failed? ==> ErrorHandler.StatusOf(r.error) == BAD_REQUEST
    ensures r.Saved? ==> SubcategoryErrors(s, categories) == [] && r.record == SubcategorySchema.SlugHook(s, nameModified)
    ensures r.Saved? ==> ParentActive(s.category, categories)
    ensures r.Saved? <==> (SubcategoryErrors(s, categories) == [] &&
      forall o | o in subcategories && o != id ::
        subcategories[o].slug != SubcategorySchema.SlugHook(s, nameModified).slug)
  {
    var errors := SubcategoryErrors(s, categories);
    if errors != [] then Failed(ErrorHandler.ValidationError(errors))
    else
      var saved := SubcategorySchema.SlugHook(s, nameModified);
      // The parent hook runs next; validation has already refused a missing or inactive
      // parent, so it lets every such save through.
      ParentHookSpec(saved, categories, categoryModified);
      assert ParentHook(saved, categories, categoryModified).None?;
      if exists o | o in subcategories && o != id :: subcategories[o].slug == saved.slug then
        Failed(ErrorHandler.DuplicateKey("slug"))
      else Saved(saved)
  }

  /** `product.save()`. The hierarchy hook can refuse with a plain Error (500). */
  function ProductSave(categories: map<Id, Category>, subcategories: map<Id, Subcategory>, products: map<Id, Product>,
                       id: Id, p: Product, nameModified: bool, refsModified: bool)
    : (r: SaveResult<Product>)
    ensures ProductErrors(p, categories, subcategories) != [] ==>
      r == Failed(ErrorHandler.ValidationError(ProductErrors(p, categories, subcategories)))
    ensures r.Failed? ==> ErrorHandler.StatusOf(r.error) in {BAD_REQUEST, SERVER_ERROR}
    ensures r.Failed? && ErrorHandler.StatusOf(r.error) == SERVER_ERROR ==>
      HierarchyHook(p, subcategories, refsModified).Some?
    ensures r.Saved? ==> ProductErrors(p, categories, subcategories) == [] && r.record == ProductSchema.SlugHook(p, nameModified)
    ensures r.Saved? <==> (ProductErrors(p, categories, subcategories) == []
      && HierarchyHook(p, subcategories, refsModified).None?
      && forall o | o in products && o != id ::
           products[o].slug != ProductSchema.SlugHook(p, nameModified).slug && products[o].sku != p.sku)
  {
    var errors := ProductErrors(p, categories, subcategories);
    if errors != [] then Failed(ErrorHandler.ValidationError(errors))
    else
      var saved := ProductSchema.SlugHook(p, nameModified);
      var hook := HierarchyHook(saved, subcategories, refsModified);
      if hook.Some? then Failed(hook.value)
      else if exists o | o in products && o != id :: products[o].slug == saved.slug then
        Failed(ErrorHandler.DuplicateKey("slug"))
      else if exists o | o in products && o != id :: products[o].sku == saved.sku then
        Failed(ErrorHandler.DuplicateKey("sku"))
      else Saved(saved)
  }

  // ---------------------------------------------------------------- saves keep the store consistent

  /** A successful category save leaves the collection valid, provided the record's slug was
      already that of its name or the name was modified (so the hook recomputes it). */
  lemma CategorySaveKeepsValid(categories: map<Id, Category>, id: Id, c: Category, nameModified: bool)
    requires CategoriesOk(categories)
    requires nameModified || c.slug == Slugify(c.name)
    requires CategorySave(categories, id, c, nameModified).Saved?
    ensures CategoriesOk(categories[id := CategorySave(categories, id, c, nameModified).record])
  {
    var saved := CategorySave(categories, id, c, nameModified).record;
    var m := categories[id := saved];
    assert CategoryStored(saved);
    forall a, b | a in m && b in m && a != b
      ensures m[a].name != m[b].name && m[a].slug != m[b].slug
    {
      if a == id {
        assert m[b] == categories[b];
      } else if b == id {
        assert m[a] == categories[a];
      } else {
        assert m[a] == categories[a] && m[b] == categories[b];
      }
    }
  }

  /** Because names that differ only in case have the same slug, the slug index makes stored
      category names unique ignoring case, although the name index alone only compares them
      exactly. */
  lemma CategoryNamesUniqueIgnoringCase(categories: map<Id, Category>, a: Id, b: Id)
    requires CategoriesOk(categories)
    requires a in categories && b in categories && a != b
    ensures !EqualsIgnoreCase(categories[a].name, categories[b].name)
  {
    if EqualsIgnoreCase(categories[a].name, categories[b].name) {
      SlugIgnoresCase(categories[a].name, categories[b].name);
    }
  }

  /** The same holds of subcategories across the whole collection, whatever their category:
      two subcategories never have names that are equal ignoring case. */
  lemma SubcategoryNamesUniqueIgnoringCase(subcategories: map<Id, Subcategory>, categories: map<Id, Category>, a: Id, b: Id)
    requires SubcategoriesOk(subcategories, categories)
    requires a in subcategories && b in subcategories && a != b
    ensures !EqualsIgnoreCase(subcategories[a].name, subcategories[b].name)
  {
    if EqualsIgnoreCase(subcategories[a].name, subcategories[b].name) {
      SlugIgnoresCase(subcategories[a].name, subcategories[b].name);
    }
  }

  /** A successful subcategory save leaves the collection valid. */
  lemma SubcategorySaveKeepsValid(categories: map<Id, Category>, subcategories: map<Id, Subcategory>, id: Id,
                                  s: Subcategory, nameModified: bool, categoryModified: bool)
    requires SubcategoriesOk(subcategories, categories)
    requires nameModified || s.slug == Slugify(s.name)
    requires SubcategorySave(categories, subcategories, id, s, nameModified, categoryModified).Saved?
    ensures SubcategoriesOk(subcategories[id := SubcategorySave(categories, subcategories, id, s, nameModified, categoryModified).record], categories)
  {
    var saved := SubcategorySave(categories, subcategories, id, s, nameModified, categoryModified).record;
    var m := subcategories[id := saved];
    SubcategoryErrorsSpec(s, categories);
    assert SubcategoryStored(saved, categories);
    forall a, b | a in m && b in m && a != b
      ensures m[a].slug != m[b].slug
    {
      if a == id {
        assert m[b] == subcategories[b];
      } else if b == id {
        assert m[a] == subcategories[a];
      } else {
        assert m[a] == subcategories[a] && m[b] == subcategories[b];
      }
    }
  }

  /** A successful product save leaves the collection valid, provided the SKU was upper-cased
      (the schema's `uppercase` setter) and the slug was current or the name was modified. */
  lemma ProductSaveKeepsValid(categories: map<Id, Category>, subcategories: map<Id, Subcategory>, products: map<Id, Product>,
                              id: Id, p: Product, nameModified: bool, refsModified: bool)
    requires ProductsOk(products, categories, subcategories)
    requires nameModified || p.slug == Slugify(p.name)
    requires p.sku == Upper(p.sku)
    requires ProductSave(categories, subcategories, products, id, p, nameModified, refsModified).Saved?
    ensures ProductsOk(products[id := ProductSave(categories, subcategories, products, id, p, nameModified, refsModified).record],
                       categories, subcategories)
  {
    var saved := ProductSave(categories, subcategories, products, id, p, nameModified, refsModified).record;
    var m := products[id := saved];
    ProductErrorsSpec(p, categories, subcategories);
    assert ProductStored(saved, categories, subcategories);
    forall a, b | a in m && b in m && a != b
      ensures m[a].sku != m[b].sku && m[a].slug != m[b].slug
    {
      if a == id {
        assert m[b] == products[b];
      } else if b == id {
        assert m[a] == products[a];
      } else {
        assert m[a] == products[a] && m[b] == products[b];
      }
    }
  }

  // ---------------------------------------------------------------- writes that bypass validation

  /** `updateMany` and `findByIdAndUpdate` with `{ isActive }`, `{ sortOrder }` and `updatedBy`
      run no validators; they leave every other field as it was. */
  predicate CategoryRestamped(before: Category, after: Category) {
    after == before.(isActive := after.isActive, sortOrder := after.sortOrder, updatedBy := after.updatedBy)
  }

  predicate SubcategoryRestamped(before: Subcategory, after: Subcategory) {
    after == before.(isActive := after.isActive, sortOrder := after.sortOrder, updatedBy := after.updatedBy)
  }

  predicate ProductRestamped(before: Product, after: Product) {
    after == before.(isActive := after.isActive, sortOrder := after.sortOrder, updatedBy := after.updatedBy)
  }

  predicate CategoriesRestamped(before: map<Id, Category>, after: map<Id, Category>) {
    before.Keys == after.Keys && forall id | id in before :: CategoryRestamped(before[id], after[id])
  }

  predicate SubcategoriesRestamped(before: map<Id, Subcategory>, after: map<Id, Subcategory>) {
    before.Keys == after.Keys && forall id | id in before :: SubcategoryRestamped(before[id], after[id])
  }

  predicate ProductsRestamped(before: map<Id, Product>, after: map<Id, Product>) {
    before.Keys == after.Keys && forall id | id in before :: ProductRestamped(before[id], after[id])
  }

  /** Changing only status, order and updater keeps each collection valid: none of those
      fields has a validator, a unique index or a reference. */
  lemma RestampKeepsCategoriesValid(categories: map<Id, Category>, categories': map<Id, Category>)
    requires CategoriesOk(categories)
    requires CategoriesRestamped(categories, categories')
    ensures CategoriesOk(categories')
  {
    forall id | id in categories' ensures CategoryStored(categories'[id]) {
      assert CategoryStored(categories[id]);
    }
    forall a, b | a in categories' && b in categories' && a != b
      ensures categories'[a].name != categories'[b].name && categories'[a].slug != categories'[b].slug
    {
      assert categories[a].name != categories[b].name && categories[a].slug != categories[b].slug;
    }
  }

  lemma RestampKeepsSubcategoriesValid(subcategories: map<Id, Subcategory>, subcategories': map<Id, Subcategory>,
                                       categories: map<Id, Category>, categories': map<Id, Category>)
    requires SubcategoriesOk(subcategories, categories)
    requires SubcategoriesRestamped(subcategories, subcategories')
    requires categories.Keys == categories'.Keys
    ensures SubcategoriesOk(subcategories', categories')
  {
    forall id | id in subcategories' ensures SubcategoryStored(subcategories'[id], categories') {
      assert SubcategoryStored(subcategories[id], categories);
    }
    forall a, b | a in subcategories' && b in subcategories' && a != b
      ensures subcategories'[a].slug != subcategories'[b].slug
    {
      assert subcategories[a].slug != subcategories[b].slug;
    }
  }

  lemma RestampKeepsProductsValid(products: map<Id, Product>, products': map<Id, Product>,
                                  categories: map<Id, Category>, categories': map<Id, Category>,
                                  subcategories: map<Id, Subcategory>, subcategories': map<Id, Subcategory>)
    requires ProductsOk(products, categories, subcategories)
    requires ProductsRestamped(products, products')
    requires categories.Keys == categories'.Keys && subcategories.Keys == subcategories'.Keys
    ensures ProductsOk(products', categories', subcategories')
  {
    forall id | id in products' ensures ProductStored(products'[id], categories', subcategories') {
      assert ProductStored(products[id], categories, subcategories);
    }
    forall a, b | a in products' && b in products' && a != b
      ensures products'[a].sku != products'[b].sku && products'[a].slug != products'[b].slug
    {
      assert products[a].sku != products[b].sku && products[a].slug != products[b].slug;
    }
  }

  // ---------------------------------------------------------------- reordering

  /** The collection after `findByIdAndUpdate(ids[i], stamp(i + 1))` for each index in turn:
      an id the collection does not hold is skipped. */
  function Resequenced<R>(m: map<Id, R>, ids: seq<Id>, stamp: (R, nat) -> R): (r: map<Id, R>)
    ensures r.Keys == m.Keys
    ensures forall id | id in m && id !in ids :: r[id] == m[id]
    decreases |ids|
  {
    if ids == [] then m
    else
      var before := Resequenced(m, ids[..|ids| - 1], stamp);
      var id := ids[|ids| - 1];
      if id in before then before[id := stamp(before[id], |ids|)] else before
  }

  /** One more listed id stamps one more record, with its one-based position. */
  lemma ResequencedStep<R>(m: map<Id, R>, ids: seq<Id>, k: nat, stamp: (R, nat) -> R)
    requires k < |ids|
    ensures var before := Resequenced(m, ids[..k], stamp);
      Resequenced(m, ids[..k + 1], stamp)
        == if ids[k] in before then before[ids[k] := stamp(before[ids[k]], k + 1)] else before
  {
    assert ids[..k + 1][..k] == ids[..k];
  }

  /** The reorder loop: one update per listed id, in list order, each stamping the record with
      its one-based position; ids with no record are skipped. */
  method Renumber<R>(m: map<Id, R>, ids: seq<Id>, stamp: (R, nat) -> R) returns (r: map<Id, R>)
    ensures r == Resequenced(m, ids, stamp)
  {
    r := m;
    var k := 0;
    while k < |ids|
      invariant 0 <= k <= |ids|
      invariant r == Resequenced(m, ids[..k], stamp)
    {
      ResequencedStep(m, ids, k, stamp);
      if ids[k] in r {
        r := r[ids[k] := stamp(r[ids[k]], k + 1)];
      }
      k := k + 1;
    }
    assert ids[..k] == ids;
  }

  predicate Distinct(ids: seq<Id>) {
    forall i, j :: 0 <= i < j < |ids| ==> ids[i] != ids[j]
  }

  /** With distinct ids, the record listed at index i is stamped with position i + 1, exactly
      once; records that are not listed are unchanged; no record is added or removed. */
  lemma {:induction false} ResequencedSpec<R>(m: map<Id, R>, ids: seq<Id>, stamp: (R, nat) -> R)
    requires Distinct(ids)
    ensures forall i | 0 <= i < |ids| && ids[i] in m :: Resequenced(m, ids, stamp)[ids[i]] == stamp(m[ids[i]], i + 1)
    decreases |ids|
  {
    if ids != [] {
      var prefix := ids[..|ids| - 1];
      var last := ids[|ids| - 1];
      ResequencedSpec(m, prefix, stamp);
      assert last !in prefix by {
        forall i | 0 <= i < |prefix| ensures prefix[i] != last {
          assert prefix[i] == ids[i];
        }
      }
      forall i | 0 <= i < |ids| - 1 && ids[i] in m
        ensures Resequenced(m, ids, stamp)[ids[i]] == stamp(m[ids[i]], i + 1)
      {
        assert ids[i] == prefix[i];
      }
      forall id | id in m && id !in ids ensures Resequenced(m, ids, stamp)[id] == m[id] {
        assert id !in prefix;
      }
    }
  }

  // ---------------------------------------------------------------- references

  /** Adding categories does not invalidate subcategories or products. */
  lemma MoreCategoriesKeepValid(categories: map<Id, Category>, subcategories: map<Id, Subcategory>, products: map<Id, Product>,
                                categories': map<Id, Category>)
    requires SubcategoriesOk(subcategories, categories) && ProductsOk(products, categories, subcategories)
    requires categories.Keys <= categories'.Keys
    ensures SubcategoriesOk(subcategories, categories') && ProductsOk(products, categories', subcategories)
  {
    forall id | id in subcategories ensures SubcategoryStored(subcategories[id], categories') {
      assert SubcategoryStored(subcategories[id], categories);
    }
    forall id | id in products ensures ProductStored(products[id], categories', subcategories) {
      assert ProductStored(products[id], categories, subcategories);
    }
  }

  /** Adding or replacing subcategories does not invalidate products; removing one does not
      either, as long as no product refers to it. */
  lemma SubcategoryKeysKeepProductsValid(products: map<Id, Product>, categories: map<Id, Category>,
                                         subcategories: map<Id, Subcategory>, subcategories': map<Id, Subcategory>)
    requires ProductsOk(products, categories, subcategories)
    requires forall id | id in products :: products[id].subcategory in subcategories'
    ensures ProductsOk(products, categories, subcategories')
  {
    forall id | id in products ensures ProductStored(products[id], categories, subcategories') {
      assert ProductStored(products[id], categories, subcategories);
    }
  }
}
