/** The two `canBeDeleted` methods (Category.js:88-96, Subcategory.js:120-124): a record may be
    deleted when no other record refers to it. The counts `countDocuments` returns are the sizes
    of the sets of referring ids. */
module Dependents {
  import opened Common
  import opened CategorySchema
  import opened SubcategorySchema
  import opened ProductSchema

  /** The subcategories whose `category` is `id`. */
  function SubcategoriesOf(id: Id, subcategories: map<Id, Subcategory>): (r: set<Id>)
    ensures forall s :: s in r <==> s in subcategories && subcategories[s].category == id
  {
    set s | s in subcategories && subcategories[s].category == id
  }

  /** The products whose `category` is `id`. */
  function ProductsOfCategory(id: Id, products: map<Id, Product>): (r: set<Id>)
    ensures forall p :: p in r <==> p in products && products[p].category == id
  {
    set p | p in products && products[p].category == id
  }

  /** The products whose `subcategory` is `id`. */
  function ProductsOfSubcategory(id: Id, products: map<Id, Product>): (r: set<Id>)
    ensures forall p :: p in r <==> p in products && products[p].subcategory == id
  {
    set p | p in products && products[p].subcategory == id
  }

  /** `category.canBeDeleted()`: both counts are zero, so no subcategory and no product
      refers to the category. */
  predicate CategoryCanBeDeleted(id: Id, subcategories: map<Id, Subcategory>, products: map<Id, Product>)
    ensures CategoryCanBeDeleted(id, subcategories, products) ==>
      (forall s :: s in subcategories ==> subcategories[s].category != id)
      && (forall p :: p in products ==> products[p].category != id)
  {
    |SubcategoriesOf(id, subcategories)| == 0 && |ProductsOfCategory(id, products)| == 0
  }

  /** `subcategory.canBeDeleted()`: the product count is zero, so no product refers to the
      subcategory. */
  predicate SubcategoryCanBeDeleted(id: Id, products: map<Id, Product>)
    ensures SubcategoryCanBeDeleted(id, products) ==> forall p :: p in products ==> products[p].subcategory != id
  {
    |ProductsOfSubcategory(id, products)| == 0
  }

  /** A category can be deleted exactly when no subcategory and no product refers to it. */
  lemma CategoryCanBeDeletedSpec(id: Id, subcategories: map<Id, Subcategory>, products: map<Id, Product>)
    ensures CategoryCanBeDeleted(id, subcategories, products) <==>
      (forall s :: s in subcategories ==> subcategories[s].category != id)
      && (forall p :: p in products ==> products[p].category != id)
  {
    var subs := SubcategoriesOf(id, subcategories);
    var prods := ProductsOfCategory(id, products);
    if |subs| == 0 && |prods| == 0 {
      assert subs == {} && prods == {};
    } else if |subs| != 0 {
      var s :| s in subs;
    } else {
      var p :| p in prods;
    }
  }

  /** A subcategory can be deleted exactly when no product refers to it. */
  lemma SubcategoryCanBeDeletedSpec(id: Id, products: map<Id, Product>)
    ensures SubcategoryCanBeDeleted(id, products) <==>
      forall p :: p in products ==> products[p].subcategory != id
  {
    var prods := ProductsOfSubcategory(id, products);
    if |prods| == 0 {
      assert prods == {};
    } else {
      var p :| p in prods;
    }
  }
}
