/** The Subcategory schema (Backend/src/models/Subcategory.js): the stored record, its field
    validators (one of which looks the parent category up), its two pre-save hooks and
    `getFullPath`. `canBeDeleted` is in module Dependents. */
module SubcategorySchema {
  import opened Common
  import opened Text
  import opened SlugHooks
  import opened CategorySchema
  import ErrorHandler

  datatype Subcategory = Subcategory(
    name: string,
    description: string,
    slug: string,
    category: Id,
    isActive: bool,
    icon: Option<string>,
    color: Option<string>,
    sortOrder: int,
    createdBy: Id,
    updatedBy: Option<Id>)

  /** Required (so not empty) and at most 500 characters. */
  predicate RequiredDescriptionOk(description: string) {
    description != "" && |description| <= 500
  }

  /** The `category` path's async validator: the category exists and is active. */
  predicate ParentActive(categoryId: Id, categories: map<Id, Category>) {
    categoryId in categories && categories[categoryId].isActive
  }

  /** The validators that look at the record alone. */
  predicate OwnFieldsOk(s: Subcategory) {
    NameOk(s.name) && RequiredDescriptionOk(s.description) && ColorOk(s.color)
  }

  /** The failing paths, in schema order: each of the four validated paths at most once. A
      subcategory that passes has an existing, active parent. */
  function SubcategoryErrors(s: Subcategory, categories: map<Id, Category>): (r: seq<string>)
    ensures |r| <= 4
    ensures r == [] ==> ParentActive(s.category, categories)
  {
    (if NameOk(s.name) then [] else ["name"])
    + (if RequiredDescriptionOk(s.description) then [] else ["description"])
    + (if ParentActive(s.category, categories) then [] else ["category"])
    + (if ColorOk(s.color) then [] else ["color"])
  }

  /** Validation passes exactly when the name has 2 to 100 characters, the description is
      present with at most 500, the colour is empty or a hex code, and the parent category
      exists and is active. */
  lemma SubcategoryErrorsSpec(s: Subcategory, categories: map<Id, Category>)
    ensures SubcategoryErrors(s, categories) == [] <==>
      OwnFieldsOk(s) && s.category in categories && categories[s.category].isActive
    ensures "category" in SubcategoryErrors(s, categories) <==> !ParentActive(s.category, categories)
    ensures "description" in SubcategoryErrors(s, categories) <==>
      s.description == "" || |s.description| > 500
  {
  }

  /** The first `pre('save')` hook: the slug follows the name only when it was modified. */
  function SlugHook(s: Subcategory, nameModified: bool): (r: Subcategory)
    ensures r.(slug := s.slug) == s
    ensures nameModified ==> r.slug == Slugify(s.name)
    ensures !nameModified ==> r == s
  {
    s.(slug := SlugOnSave(s.slug, s.name, nameModified))
  }

  /** The second `pre('save')` hook: when `category` was modified, a missing or inactive
      category aborts the save with a plain Error. */
  function ParentHook(s: Subcategory, categories: map<Id, Category>, categoryModified: bool)
    : (r: Option<ErrorHandler.Error>)
    ensures !categoryModified ==> r.None?
    ensures r.Some? ==> ErrorHandler.StatusOf(r.value) == SERVER_ERROR
  {
    if !categoryModified then None
    else if s.category !in categories then
      Some(ErrorHandler.PlainError("La categoria especificada no existe o no esta activa"))
    else if !categories[s.category].isActive then
      Some(ErrorHandler.PlainError("La categoria especificada no esta activa"))
    else None
  }

  /** The hook refuses exactly a modified category that is missing or inactive. Validation
      runs before any pre-save hook and already refuses such a parent, so once validation has
      passed the hook never fires. */
  lemma ParentHookSpec(s: Subcategory, categories: map<Id, Category>, categoryModified: bool)
    ensures ParentHook(s, categories, categoryModified).Some? <==>
      categoryModified && !ParentActive(s.category, categories)
    ensures SubcategoryErrors(s, categories) == [] ==> ParentHook(s, categories, categoryModified).None?
  {
  }

  /** `getFullPath`: `<category name> > <subcategory name>`; with the category gone, reading
      its name throws, which is modelled as no path. */
  function FullPath(s: Subcategory, categories: map<Id, Category>): Option<string> {
    if s.category in categories then Some(categories[s.category].name + " > " + s.name) else None
  }

  /** The path exists exactly when the parent does; it starts with the parent's name, ends
      with the subcategory's name, and the two are joined by " > ". */
  lemma FullPathSpec(s: Subcategory, categories: map<Id, Category>)
    ensures FullPath(s, categories).Some? <==> s.category in categories
    ensures s.category in categories ==>
      var p := FullPath(s, categories).value;
      var n := categories[s.category].name;
      |p| == |n| + 3 + |s.name| && p[..|n|] == n && p[|n|..|n| + 3] == " > " && p[|n| + 3..] == s.name
  {
  }
}
