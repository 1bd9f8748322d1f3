/** The Product schema (Backend/src/models/Producto.js): the stored record, its field validators
    (two of which look the parents up), the hierarchy pre-save hook, the stock defaults, the
    `isOutOfStock` and `primaryImage` virtuals, `getFullPath` and `updateStock`'s arithmetic. */
module ProductSchema {
  import opened Common
  import opened Text
  import opened SlugHooks
  import opened CategorySchema
  import opened SubcategorySchema
  import ErrorHandler

  datatype Stock = Stock(quantity: int, minStock: int, trackStock: bool)

  datatype Image = Image(url: string, alt: Option<string>, isPrimary: bool)

  datatype Dimensions = Dimensions(
    weight: Option<real>,
    length: Option<real>,
    width: Option<real>,
    height: Option<real>)

  datatype Product = Product(
    name: string,
    description: string,
    shortDescription: string,
    slug: string,
    sku: string,
    category: Id,
    subcategory: Id,
    price: Option<real>,
    comparePrice: Option<real>,
    cost: Option<real>,
    stock: Stock,
    dimensions: Dimensions,
    images: seq<Image>,
    tags: seq<string>,
    isActive: bool,
    isFeatured: bool,
    isDigital: bool,
    sortOrder: int,
    seoDescription: Option<string>,
    createdBy: Id,
    updatedBy: Option<Id>)

  // ---------------------------------------------------------------- validators

  /** `min: 0` on an optional number: absent, or at least zero. */
  predicate OptionalNonNegative(x: Option<real>) {
    x.None? || x.value >= 0.0
  }

  /** Required, 3 to 20 characters. */
  predicate SkuOk(sku: string) {
    3 <= |sku| <= 20
  }

  predicate PriceOk(price: Option<real>) {
    price.Some? && price.value >= 0.0
  }

  predicate StockOk(s: Stock) {
    s.quantity >= 0 && s.minStock >= 0
  }

  predicate DimensionsOk(d: Dimensions) {
    OptionalNonNegative(d.weight) && OptionalNonNegative(d.length)
    && OptionalNonNegative(d.width) && OptionalNonNegative(d.height)
  }

  predicate ImageOk(img: Image) {
    img.url != "" && (img.alt.None? || |img.alt.value| <= 200)
  }

  predicate ImagesOk(images: seq<Image>) {
    forall i :: 0 <= i < |images| ==> ImageOk(images[i])
  }

  predicate TagsOk(tags: seq<string>) {
    forall i :: 0 <= i < |tags| ==> |tags[i]| <= 50
  }

  predicate ShortDescriptionOk(s: string) {
    s != "" && |s| <= 250
  }

  predicate SeoDescriptionOk(s: Option<string>) {
    s.None? || |s.value| <= 160
  }

  /** The validators that look at the record alone. */
  predicate OwnFieldsOk(p: Product) {
    NameOk(p.name) && RequiredDescriptionOk(p.description) && ShortDescriptionOk(p.shortDescription)
    && SkuOk(p.sku) && PriceOk(p.price) && OptionalNonNegative(p.comparePrice)
    && OptionalNonNegative(p.cost) && StockOk(p.stock) && DimensionsOk(p.dimensions)
    && ImagesOk(p.images) && TagsOk(p.tags) && SeoDescriptionOk(p.seoDescription)
  }

  /** The `subcategory` path's async validator: the subcategory exists and is active. */
  predicate SubcategoryActive(subcategoryId: Id, subcategories: map<Id, Subcategory>) {
    subcategoryId in subcategories && subcategories[subcategoryId].isActive
  }

  /** The validators of each path, in schema order. */
  function ProductChecks(p: Product, categories: map<Id, Category>, subcategories: map<Id, Subcategory>)
    : seq<(bool, string)>
  {
    [ (NameOk(p.name), "name"),
      (RequiredDescriptionOk(p.description), "description"),
      (ShortDescriptionOk(p.shortDescription), "shortDescription"),
      (SkuOk(p.sku), "sku"),
      (ParentActive(p.category, categories), "category"),
      (SubcategoryActive(p.subcategory, subcategories), "subcategory"),
      (PriceOk(p.price), "price"),
      (OptionalNonNegative(p.comparePrice), "comparePrice"),
      (OptionalNonNegative(p.cost), "cost"),
      (p.stock.quantity >= 0, "stock.quantity"),
      (p.stock.minStock >= 0, "stock.minStock"),
      (DimensionsOk(p.dimensions), "dimensions"),
      (ImagesOk(p.images), "images"),
      (TagsOk(p.tags), "tags"),
      (SeoDescriptionOk(p.seoDescription), "seoDescription") ]
  }

  /** The failing paths, in schema order, each at most once. A product that passes has a
      price, and its money fields and stock counters are never negative. */
  function ProductErrors(p: Product, categories: map<Id, Category>, subcategories: map<Id, Subcategory>)
    : (r: seq<string>)
    ensures |r| <= 15
    ensures r == [] ==>
      p.price.Some? && p.price.value >= 0.0
      && (p.comparePrice.Some? ==> p.comparePrice.value >= 0.0)
      && (p.cost.Some? ==> p.cost.value >= 0.0)
      && p.stock.quantity >= 0 && p.stock.minStock >= 0
  {
    var checks := ProductChecks(p, categories, subcategories);
    FailingPathsSpec(checks);
    assert FailingPaths(checks) == [] ==> checks[6].0 && checks[7].0 && checks[8].0 && checks[9].0 && checks[10].0;
    FailingPaths(checks)
  }

  /** Validation passes exactly when the record's own fields are valid and both parents
      exist and are active; a parent is reported exactly when it is missing or inactive. */
  lemma ProductErrorsSpec(p: Product, categories: map<Id, Category>, subcategories: map<Id, Subcategory>)
    ensures ProductErrors(p, categories, subcategories) == [] <==>
      OwnFieldsOk(p) && ParentActive(p.category, categories)
      && SubcategoryActive(p.subcategory, subcategories)
    ensures "category" in ProductErrors(p, categories, subcategories) <==> !ParentActive(p.category, categories)
    ensures "subcategory" in ProductErrors(p, categories, subcategories) <==>
      !SubcategoryActive(p.subcategory, subcategories)
  {
    var checks := ProductChecks(p, categories, subcategories);
    FailingPathsSpec(checks);
    if forall i :: 0 <= i < |checks| ==> checks[i].0 {
      assert checks[0].0 && checks[1].0 && checks[2].0 && checks[3].0 && checks[4].0;
      assert checks[5].0 && checks[6].0 && checks[7].0 && checks[8].0 && checks[9].0;
      assert checks[10].0 && checks[11].0 && checks[12].0 && checks[13].0 && checks[14].0;
    }
    assert checks[4].1 == "category" && checks[5].1 == "subcategory";
    forall i | 0 <= i < |checks| && i != 4 ensures checks[i].1 != "category" {}
    forall i | 0 <= i < |checks| && i != 5 ensures checks[i].1 != "subcategory" {}
  }

  // ---------------------------------------------------------------- hooks

  /** The first `pre('save')` hook: the slug follows the name only when it was modified. */
  function SlugHook(p: Product, nameModified: bool): (r: Product)
    ensures r.(slug := p.slug) == p
    ensures nameModified ==> r.slug == Slugify(p.name)
    ensures !nameModified ==> r == p
  {
    p.(slug := SlugOnSave(p.slug, p.name, nameModified))
  }

  /** The second `pre('save')` hook: when the category or the subcategory was modified, the
      subcategory must exist and belong to the product's category. */
  function HierarchyHook(p: Product, subcategories: map<Id, Subcategory>, refsModified: bool)
    : (r: Option<ErrorHandler.Error>)
    ensures !refsModified ==> r.None?
    ensures r.Some? ==> ErrorHandler.StatusOf(r.value) == SERVER_ERROR
  {
    if !refsModified then None
    else if p.subcategory !in subcategories then
      Some(ErrorHandler.PlainError("La subcategoría debe existir y estar activa"))
    else if subcategories[p.subcategory].category != p.category then
      Some(ErrorHandler.PlainError("La subcategoría debe pertenecer a la categoría especificada"))
    else None
  }

  /** The hook refuses exactly a modified pair whose subcategory is missing or belongs to
      another category; after validation (which needs the subcategory to exist) only the
      mismatch can make it fire. */
  lemma HierarchyHookSpec(p: Product, categories: map<Id, Category>, subcategories: map<Id, Subcategory>, refsModified: bool)
    ensures HierarchyHook(p, subcategories, refsModified).Some? <==>
      refsModified && (p.subcategory !in subcategories || subcategories[p.subcategory].category != p.category)
    ensures ProductErrors(p, categories, subcategories) == [] ==>
      p.subcategory in subcategories && (HierarchyHook(p, subcategories, refsModified).Some? <==>
        refsModified && subcategories[p.subcategory].category != p.category)
  {
    ProductErrorsSpec(p, categories, subcategories);
  }

  // ---------------------------------------------------------------- stock

  /** The stock object of a request: any of its fields may be missing. */
  datatype StockInput = StockInput(quantity: Option<int>, minStock: Option<int>, trackStock: Option<bool>)

  /** `stock || { quantity: 0, minStock: 0, trackStock: true }`, with the schema defaults
      filling any field the given object leaves out. */
  function StockFrom(input: Option<StockInput>): (s: Stock)
    ensures input.None? ==> s == Stock(0, 0, true)
    ensures input.Some? ==>
      s.quantity == input.value.quantity.GetOr(0) && s.minStock == input.value.minStock.GetOr(0)
      && s.trackStock == input.value.trackStock.GetOr(true)
  {
    match input
    case None => Stock(0, 0, true)
    case Some(i) => Stock(i.quantity.GetOr(0), i.minStock.GetOr(0), i.trackStock.GetOr(true))
  }

  /** The `isOutOfStock` virtual. Without stock tracking a product is never out of stock;
      with it, a valid stock is out exactly at zero. */
  function IsOutOfStock(s: Stock): (r: bool)
    ensures !s.trackStock ==> !r
    ensures StockOk(s) ==> (r <==> s.trackStock && s.quantity == 0)
  {
    if !s.trackStock then false else s.quantity <= 0
  }

  /** `updateStock(quantity)`'s arithmetic: with tracking, the signed amount is added and the
      result clamped at zero, so a tracked quantity never goes negative; without tracking the
      stock is left as it is. Only the quantity changes, and a valid stock stays valid. */
  function StockAfterDelta(s: Stock, delta: int): (r: Stock)
    ensures s.trackStock && s.quantity + delta >= 0 ==> r.quantity == s.quantity + delta
    ensures s.trackStock && s.quantity + delta < 0 ==> r.quantity == 0
    ensures s.trackStock ==> r.quantity >= 0
    ensures !s.trackStock ==> r == s
    ensures r.minStock == s.minStock && r.trackStock == s.trackStock
    ensures StockOk(s) ==> StockOk(r)
  {
    if s.trackStock then
      var q := s.quantity + delta;
      s.(quantity := if q < 0 then 0 else q)
    else s
  }

  // ---------------------------------------------------------------- images and paths

  /** The index of the first image marked primary, if any (`images.find(img => img.isPrimary)`). */
  function FirstPrimary(images: seq<Image>): (r: Option<nat>)
    ensures r.Some? ==> r.value < |images| && images[r.value].isPrimary
    ensures r.Some? ==> forall j :: 0 <= j < r.value ==> !images[j].isPrimary
    ensures r.None? ==> forall j :: 0 <= j < |images| ==> !images[j].isPrimary
  {
    if images == [] then None
    else if images[0].isPrimary then Some(0)
    else match FirstPrimary(images[1..])
      case None => None
      case Some(k) => Some(k + 1)
  }

  /** The `primaryImage` virtual: the first primary image, otherwise the first image, and
      nothing for a product without images. */
  function PrimaryImage(images: seq<Image>): (r: Option<Image>)
    ensures r.Some? <==> |images| > 0
    ensures r.Some? && r.value.isPrimary ==>
      exists i :: 0 <= i < |images| && images[i] == r.value && forall j :: 0 <= j < i ==> !images[j].isPrimary
    ensures (forall j :: 0 <= j < |images| ==> !images[j].isPrimary) && |images| > 0 ==> r == Some(images[0])
    ensures (exists j :: 0 <= j < |images| && images[j].isPrimary) ==> r.Some? && r.value.isPrimary
  {
    match FirstPrimary(images)
    case Some(k) => Some(images[k])
    case None => if |images| > 0 then Some(images[0]) else None
  }

  /** `getFullPath`: `<category>><subcategory>><product>`, with no separating spaces (unlike
      the subcategory's path); missing parents make it throw, modelled as no path. */
  function ProductFullPath(p: Product, categories: map<Id, Category>, subcategories: map<Id, Subcategory>)
    : (r: Option<string>)
    ensures r.Some? <==> p.category in categories && p.subcategory in subcategories
    ensures r.Some? ==>
      var c := categories[p.category].name;
      var s := subcategories[p.subcategory].name;
      |r.value| == |c| + |s| + |p.name| + 2 && r.value[..|c|] == c && r.value[|c|] == '>'
      && r.value[|c| + 1..|c| + 1 + |s|] == s && r.value[|c| + 1 + |s|] == '>'
      && r.value[|c| + 2 + |s|..] == p.name
  {
    if p.category in categories && p.subcategory in subcategories then
      Some(categories[p.category].name + ">" + subcategories[p.subcategory].name + ">" + p.name)
    else None
  }
}
