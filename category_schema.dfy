/** The Category schema (Backend/src/models/Category.js): the stored record, its field
    validators and its save hook. `canBeDeleted`, which counts other collections, is in
    module Dependents. */
module CategorySchema {
  import opened Common
  import opened Text
  import opened SlugHooks

  datatype Category = Category(
    name: string,
    description: Option<string>,
    slug: string,
    isActive: bool,
    icon: Option<string>,
    color: Option<string>,
    sortOrder: int,
    createdBy: Id,
    updatedBy: Option<Id>)

  /** `match` passes an empty string, otherwise it needs `#` and 3 or 6 hex digits. */
  predicate ColorOk(color: Option<string>) {
    color.None? || color.value == "" || IsHexColor(color.value)
  }

  /** Required, 2 to 100 characters (after the trim setter, which the handlers apply). */
  predicate NameOk(name: string) {
    2 <= |name| <= 100
  }

  predicate DescriptionOk(description: Option<string>) {
    description.None? || |description.value| <= 500
  }

  /** The paths whose validators fail, in schema order: what the ValidationError lists. It
      names each of the three validated paths at most once, and an empty list means the
      name has an allowed length and the colour is absent, empty or a hex code. */
  function CategoryErrors(c: Category): (r: seq<string>)
    ensures |r| <= 3
    ensures r == [] ==> NameOk(c.name) && ColorOk(c.color)
  {
    (if NameOk(c.name) then [] else ["name"])
    + (if DescriptionOk(c.description) then [] else ["description"])
    + (if ColorOk(c.color) then [] else ["color"])
  }

  /** A category passes validation exactly when its name has 2 to 100 characters, its
      description (if any) at most 500, and its colour (if any, and not empty) is a hex code;
      each failing path is reported once. */
  lemma CategoryErrorsSpec(c: Category)
    ensures CategoryErrors(c) == [] <==> NameOk(c.name) && DescriptionOk(c.description) && ColorOk(c.color)
    ensures "name" in CategoryErrors(c) <==> !(2 <= |c.name| <= 100)
    ensures "description" in CategoryErrors(c) <==> c.description.Some? && |c.description.value| > 500
    ensures "color" in CategoryErrors(c) <==>
      c.color.Some? && c.color.value != "" && !IsHexColor(c.color.value)
  {
  }

  /** `t` is a run of exactly `n` hex digits, read one character at a time as the pattern's
      `[0-9a-f]{n}` with the `i` flag does. */
  predicate HexRun(t: string, n: nat) {
    if n == 0 then t == [] else |t| > 0 && IsHexDigit(t[0]) && HexRun(t[1..], n - 1)
  }

  lemma {:induction false} HexRunAll(t: string, n: nat)
    ensures HexRun(t, n) <==> |t| == n && forall i :: 0 <= i < |t| ==> IsHexDigit(t[i])
  {
    if n > 0 && |t| > 0 {
      HexRunAll(t[1..], n - 1);
      if forall i :: 0 <= i < |t[1..]| ==> IsHexDigit(t[1..][i]) {
        assert forall i :: 1 <= i < |t| ==> IsHexDigit(t[i]) by {
          forall i | 1 <= i < |t| ensures IsHexDigit(t[i]) {
            assert t[i] == t[1..][i - 1];
          }
        }
      }
    }
  }

  /** A colour that is given passes exactly when it is empty, or is `#` followed by one of
      the pattern's two alternatives: three hex digits or six. */
  lemma ColorOkSpec(s: string)
    ensures ColorOk(Some(s)) <==> s == "" || (s[0] == '#' && (HexRun(s[1..], 3) || HexRun(s[1..], 6)))
  {
    if s != "" {
      HexRunAll(s[1..], 3);
      HexRunAll(s[1..], 6);
      assert (forall i :: 0 <= i < |s[1..]| ==> IsHexDigit(s[1..][i]))
        <==> (forall i :: 1 <= i < |s| ==> IsHexDigit(s[i])) by {
        forall i | 1 <= i < |s| ensures s[i] == s[1..][i - 1] { }
      }
    }
  }

  /** `pre('save')`: the slug follows the name only when the name was modified. */
  function SaveHook(c: Category, nameModified: bool): (r: Category)
    ensures r.(slug := c.slug) == c
    ensures nameModified ==> r.slug == Slugify(c.name)
    ensures !nameModified ==> r == c
  {
    c.(slug := SlugOnSave(c.slug, c.name, nameModified))
  }
}
