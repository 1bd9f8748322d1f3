/** The two slug hooks every catalog schema registers (Category.js:54-66, Subcategory.js:68-81,
    Producto.js:192-205): `pre('save')` recomputes the slug when the name was modified, and
    `pre('findOneAndUpdate')` adds a slug to an update that carries a name. */
module SlugHooks {
  import opened Common
  import opened Text

  /** The slug a document has after its `pre('save')` slug hook: recomputed from the name when
      the name was modified in this save, otherwise the one it already had. */
  function SlugOnSave(slug: string, name: string, nameModified: bool): (r: string)
    ensures nameModified ==> r == Slugify(name)
    ensures !nameModified ==> r == slug
  {
    if nameModified then Slugify(name) else slug
  }

  /** The fields of a `findOneAndUpdate` / `findByIdAndUpdate` update document that the catalog
      uses: a name, a slug, a sort order and the updater. */
  datatype UpdateDoc = UpdateDoc(
    name: Option<string>,
    slug: Option<string>,
    sortOrder: Option<int>,
    updatedBy: Option<Id>)

  /** `pre('findOneAndUpdate')`: when the update carries a (truthy) name, the update also sets
      the slug derived from that name, as given, before any setter trims it. */
  function PreFindOneAndUpdate(u: UpdateDoc): (r: UpdateDoc)
    ensures Truthy(u.name) ==> r == u.(slug := Some(Slugify(u.name.value)))
    ensures !Truthy(u.name) ==> r == u
  {
    if Truthy(u.name) then u.(slug := Some(Slugify(u.name.value))) else u
  }

  /** Once a slug has been derived, running the hook again changes nothing; and an update
      without a name (such as a reorder's `{ sortOrder, updatedBy }`) never gets a slug. */
  lemma PreFindOneAndUpdateSpec(u: UpdateDoc)
    ensures PreFindOneAndUpdate(PreFindOneAndUpdate(u)) == PreFindOneAndUpdate(u)
    ensures u.name.None? ==> PreFindOneAndUpdate(u).slug == u.slug
    ensures Truthy(u.name) ==> IsSlug(PreFindOneAndUpdate(u).slug.value)
  {
    if Truthy(u.name) {
      SlugifyIsSlug(u.name.value);
    }
  }

  /** The hook slugifies the update's name as given: a padded name yields hyphens at the ends
      that the trimmed stored name would not produce. */
  lemma PaddedNameSlug(name: string)
    ensures PreFindOneAndUpdate(UpdateDoc(Some(" " + name), None, None, None)).slug
      == Some("-" + Slugify(name))
  {
    SlugOfOneChar(' ');
    SlugifyAppend(" ", name);
  }
}
