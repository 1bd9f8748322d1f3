/** String operations shared by the schemas: Mongoose's `trim` setter, ASCII case mapping,
    the case-insensitive name lookup and the slug derivation of the three catalog schemas. */
module Text {
  import opened Common

  // ---------------------------------------------------------------- trimming

  /** The characters ECMAScript's String.prototype.trim removes: WhiteSpace and LineTerminator. */
  predicate IsWhite(c: char) {
    c == ' ' || ('\t' <= c <= '\r') || c == '\U{00A0}' || c == '\U{1680}'
    || ('\U{2000}' <= c <= '\U{200A}') || ('\U{2028}' <= c <= '\U{2029}')
    || c == '\U{202F}' || c == '\U{205F}' || c == '\U{3000}' || c == '\U{FEFF}'
  }

  function TrimStart(s: string): (r: string)
    ensures |r| <= |s| && r == s[|s| - |r|..]
    ensures r == [] || !IsWhite(r[0])
    ensures forall i :: 0 <= i < |s| - |r| ==> IsWhite(s[i])
  {
    if |s| > 0 && IsWhite(s[0]) then TrimStart(s[1..]) else s
  }

  function TrimEnd(s: string): (r: string)
    ensures |r| <= |s| && r == s[..|r|]
    ensures r == [] || !IsWhite(r[|r| - 1])
    ensures forall i :: |r| <= i < |s| ==> IsWhite(s[i])
  {
    if |s| > 0 && IsWhite(s[|s| - 1]) then TrimEnd(s[..|s| - 1]) else s
  }

  /** The `trim: true` setter of a Mongoose string path. */
  function Trim(s: string): string {
    TrimEnd(TrimStart(s))
  }

  /** The `trim` setter applied to an optional field: an absent value stays absent, and a
      present one comes out no longer and without surrounding white space. */
  function TrimOption(s: Option<string>): (r: Option<string>)
    ensures r.Some? <==> s.Some?
    ensures r.Some? ==> |r.value| <= |s.value| && IsTrimmed(r.value)
  {
    if s.Some? then
      TrimSpec(s.value);
      Some(Trim(s.value))
    else None
  }

  predicate IsTrimmed(s: string) {
    s == [] || (!IsWhite(s[0]) && !IsWhite(s[|s| - 1]))
  }

  /** What trimming keeps: the piece of the input after the leading white space, cut to the
      length of the result. */
  lemma {:induction false} TrimSlice(s: string)
    ensures var i := |s| - |TrimStart(s)|;
      i + |Trim(s)| <= |s| && Trim(s) == s[i..i + |Trim(s)|]
  {
    var a := TrimStart(s);
    var r := TrimEnd(a);
    var i := |s| - |a|;
    assert a == s[i..];
    assert r == a[..|r|];
  }

  /** What trimming cuts off after the result is white space. */
  lemma {:induction false} TrimCutsWhite(s: string)
    ensures forall k :: |s| - |TrimStart(s)| + |Trim(s)| <= k < |s| ==> IsWhite(s[k])
  {
    var a := TrimStart(s);
    var r := TrimEnd(a);
    var i := |s| - |a|;
    assert a == s[i..];
    forall k | i + |r| <= k < |s| ensures IsWhite(s[k]) {
      assert s[k] == a[k - i];
    }
  }

  /** Trim removes exactly the surrounding white space: the result is the piece of the input
      that starts after the leading white space, it has no white space at either end, and
      everything cut off on either side is white space. */
  lemma {:induction false} TrimSpec(s: string)
    ensures IsTrimmed(Trim(s))
    ensures var i := |s| - |TrimStart(s)|;
      i + |Trim(s)| <= |s| && Trim(s) == s[i..i + |Trim(s)|]
      && (forall k :: 0 <= k < i ==> IsWhite(s[k]))
      && (forall k :: i + |Trim(s)| <= k < |s| ==> IsWhite(s[k]))
  {
    TrimSlice(s);
    TrimCutsWhite(s);
    var a := TrimStart(s);
    var r := TrimEnd(a);
    if r != [] {
      assert r[0] == a[0];
    }
  }

  lemma {:induction false} TrimStartOfTrimmed(s: string)
    requires s == [] || !IsWhite(s[0])
    ensures TrimStart(s) == s
  {
  }

  lemma {:induction false} TrimEndOfTrimmed(s: string)
    requires s == [] || !IsWhite(s[|s| - 1])
    ensures TrimEnd(s) == s
  {
  }

  /** Trimming a string without surrounding white space changes nothing. */
  lemma TrimOfTrimmed(s: string)
    requires IsTrimmed(s)
    ensures Trim(s) == s
  {
    TrimStartOfTrimmed(s);
    TrimEndOfTrimmed(s);
  }

  /** Trimming twice is trimming once: a stored name is already in its trimmed form. */
  lemma TrimIdempotent(s: string)
    ensures Trim(Trim(s)) == Trim(s)
  {
    var t := Trim(s);
    TrimSpec(s);
    TrimStartOfTrimmed(t);
    TrimEndOfTrimmed(t);
  }

  // ---------------------------------------------------------------- case mapping

  predicate IsUpperAscii(c: char) { 'A' <= c <= 'Z' }
  predicate IsLowerAscii(c: char) { 'a' <= c <= 'z' }
  predicate IsDigit(c: char) { '0' <= c <= '9' }

  function LowerChar(c: char): char {
    if IsUpperAscii(c) then (c as int + 32) as char else c
  }

  function UpperChar(c: char): char {
    if IsLowerAscii(c) then (c as int - 32) as char else c
  }

  /** String.prototype.toLowerCase on the ASCII letters. */
  function Lower(s: string): (r: string)
    ensures |r| == |s|
  {
    seq(|s|, i requires 0 <= i < |s| => LowerChar(s[i]))
  }

  /** String.prototype.toUpperCase on the ASCII letters. */
  function Upper(s: string): (r: string)
    ensures |r| == |s|
  {
    seq(|s|, i requires 0 <= i < |s| => UpperChar(s[i]))
  }

  /** Lower-casing leaves no upper-case letter, keeps every other character, and is idempotent. */
  lemma LowerSpec(s: string)
    ensures forall i :: 0 <= i < |s| ==> !IsUpperAscii(Lower(s)[i])
    ensures forall i :: 0 <= i < |s| && !IsUpperAscii(s[i]) ==> Lower(s)[i] == s[i]
    ensures Lower(Lower(s)) == Lower(s)
  {
  }

  /** Upper-casing leaves no lower-case letter, keeps every other character (the digits and
      hyphens of a SKU) and is idempotent (an upper-cased SKU stays as it is). */
  lemma UpperSpec(s: string)
    ensures forall i :: 0 <= i < |s| ==> !IsLowerAscii(Upper(s)[i])
    ensures forall i :: 0 <= i < |s| && !IsLowerAscii(s[i]) ==> Upper(s)[i] == s[i]
    ensures Upper(Upper(s)) == Upper(s)
  {
  }

  /** The anchored, case-insensitive lookup `{ name: /^name$/i }` on a stored name. */
  predicate EqualsIgnoreCase(a: string, b: string) {
    Lower(a) == Lower(b)
  }

  /** Case-insensitive equality relates two names of the same length that agree letter by letter
      up to case, and it is an equivalence. */
  lemma EqualsIgnoreCaseSpec(a: string, b: string, c: string)
    ensures EqualsIgnoreCase(a, b) <==>
      |a| == |b| && forall i :: 0 <= i < |a| ==> LowerChar(a[i]) == LowerChar(b[i])
    ensures EqualsIgnoreCase(a, a)
    ensures EqualsIgnoreCase(a, b) ==> EqualsIgnoreCase(b, a)
    ensures EqualsIgnoreCase(a, b) && EqualsIgnoreCase(b, c) ==> EqualsIgnoreCase(a, c)
  {
    if |a| == |b| && forall i :: 0 <= i < |a| ==> LowerChar(a[i]) == LowerChar(b[i]) {
      assert Lower(a) == Lower(b);
    }
    if Lower(a) == Lower(b) {
      forall i | 0 <= i < |a| ensures LowerChar(a[i]) == LowerChar(b[i]) {
        assert Lower(a)[i] == Lower(b)[i];
      }
    }
  }

  // ---------------------------------------------------------------- slugs

  /** `\w` or `-`: what `.replace(/[^\w-]+/g, '')` keeps. */
  predicate IsWordOrHyphen(c: char) {
    IsUpperAscii(c) || IsLowerAscii(c) || IsDigit(c) || c == '_' || c == '-'
  }

  /** A character that can appear in a slug. */
  predicate IsSlugChar(c: char) {
    IsLowerAscii(c) || IsDigit(c) || c == '_' || c == '-'
  }

  /** `.replace(/ /g, '-')`: each single space becomes one hyphen; other white space is left
      for the next step to remove. */
  function ReplaceSpaces(s: string): (r: string)
    ensures |r| == |s|
  {
    seq(|s|, i requires 0 <= i < |s| => if s[i] == ' ' then '-' else s[i])
  }

  /** `.replace(/[^\w-]+/g, '')`: every character outside [A-Za-z0-9_-] is removed. */
  function StripNonWord(s: string): string
  {
    if s == [] then []
    else (if IsWordOrHyphen(s[0]) then [s[0]] else []) + StripNonWord(s[1..])
  }

  /** The slug the pre-save and pre-findOneAndUpdate hooks derive from a name
      (Category.js, Subcategory.js and Producto.js use the same expression). As written,
      each single space becomes its own hyphen, so a run of spaces gives a run of hyphens. */
  function Slugify(name: string): string {
    StripNonWord(ReplaceSpaces(Lower(name)))
  }

  predicate IsSlug(s: string) {
    forall i :: 0 <= i < |s| ==> IsSlugChar(s[i])
  }

  /** StripNonWord keeps only word characters and hyphens, invents no character, and a
      string made only of those passes through unchanged. */
  lemma {:induction false} StripNonWordSpec(s: string)
    ensures forall i :: 0 <= i < |StripNonWord(s)| ==> IsWordOrHyphen(StripNonWord(s)[i])
    ensures forall c :: c in StripNonWord(s) ==> c in s
    ensures (forall i :: 0 <= i < |s| ==> IsWordOrHyphen(s[i])) ==> StripNonWord(s) == s
  {
    if s != [] {
      StripNonWordSpec(s[1..]);
      var head: string := if IsWordOrHyphen(s[0]) then [s[0]] else [];
      var r := StripNonWord(s);
      assert r == head + StripNonWord(s[1..]);
      forall c | c in r ensures c in s {
        if c in head { assert c == s[0]; } else { assert c in StripNonWord(s[1..]); assert c in s[1..]; }
      }
      forall i | 0 <= i < |r| ensures IsWordOrHyphen(r[i]) {
        if i >= |head| { assert r[i] == StripNonWord(s[1..])[i - |head|]; }
      }
    }
  }

  /** Every character of a slug is a lower-case letter, a digit, `_` or `-`. */
  lemma SlugifyIsSlug(name: string)
    ensures IsSlug(Slugify(name))
  {
    var lowered := Lower(name);
    var replaced := ReplaceSpaces(lowered);
    LowerSpec(name);
    StripNonWordSpec(replaced);
    forall i | 0 <= i < |Slugify(name)| ensures IsSlugChar(Slugify(name)[i]) {
      var c := Slugify(name)[i];
      assert c in replaced;
      var j :| 0 <= j < |replaced| && replaced[j] == c;
      assert !IsUpperAscii(lowered[j]);
    }
  }

  /** A slug is its own slug: deriving the slug of a slug changes nothing. */
  lemma SlugifyIdempotent(name: string)
    ensures Slugify(Slugify(name)) == Slugify(name)
  {
    var s := Slugify(name);
    SlugifyIsSlug(name);
    assert Lower(s) == s;
    assert ReplaceSpaces(s) == s;
    StripNonWordSpec(s);
  }

  /** Names that are equal ignoring case have the same slug, so a unique slug index also
      rejects case variants of an existing name. */
  lemma SlugIgnoresCase(a: string, b: string)
    requires EqualsIgnoreCase(a, b)
    ensures Slugify(a) == Slugify(b)
  {
  }

  lemma {:induction false} StripNonWordAppend(x: string, y: string)
    ensures StripNonWord(x + y) == StripNonWord(x) + StripNonWord(y)
  {
    if x == [] {
      assert x + y == y;
    } else {
      assert (x + y)[0] == x[0];
      assert (x + y)[1..] == x[1..] + y;
      StripNonWordAppend(x[1..], y);
    }
  }

  /** The slug is computed character by character: the slug of a concatenation is the
      concatenation of the slugs. */
  lemma SlugifyAppend(x: string, y: string)
    ensures Slugify(x + y) == Slugify(x) + Slugify(y)
  {
    assert Lower(x + y) == Lower(x) + Lower(y);
    assert ReplaceSpaces(Lower(x + y)) == ReplaceSpaces(Lower(x)) + ReplaceSpaces(Lower(y));
    StripNonWordAppend(ReplaceSpaces(Lower(x)), ReplaceSpaces(Lower(y)));
  }

  lemma SlugOfOneChar(c: char)
    ensures Slugify([c]) ==
      if c == ' ' then "-" else if IsWordOrHyphen(c) then [LowerChar(c)] else []
  {
    var x := if c == ' ' then '-' else LowerChar(c);
    assert Lower([c]) == [LowerChar(c)];
    assert ReplaceSpaces([LowerChar(c)]) == [x];
    assert IsWordOrHyphen(x) <==> c == ' ' || IsWordOrHyphen(c);
    assert StripNonWord([x]) == (if IsWordOrHyphen(x) then [x] else []) + StripNonWord([x][1..]);
    assert [x][1..] == [];
  }

  /** As written, each single space becomes its own hyphen: two spaces between two words give
      two hyphens (`"Home  Garden!!"` gives `home--garden`), and characters outside
      [A-Za-z0-9_-] vanish without a trace. */
  lemma SlugOfDoubleSpace(a: string, b: string)
    ensures Slugify(a + "  " + b) == Slugify(a) + "--" + Slugify(b)
    ensures Slugify(a + "!") == Slugify(a)
  {
    SlugOfOneChar(' ');
    SlugOfOneChar('!');
    assert "  " == [' '] + [' '];
    SlugifyAppend([' '], [' ']);
    SlugifyAppend(a, "  ");
    SlugifyAppend(a + "  ", b);
    SlugifyAppend(a, "!");
  }

  // ---------------------------------------------------------------- colours

  predicate IsHexDigit(c: char) {
    IsDigit(c) || ('a' <= c <= 'f') || ('A' <= c <= 'F')
  }

  /** `/^#([0-9a-f]{3}|[0-9a-f]{6})$/i`: a hash followed by three or six hex digits, either case. */
  predicate IsHexColor(s: string) {
    (|s| == 4 || |s| == 7) && s[0] == '#' && forall i :: 1 <= i < |s| ==> IsHexDigit(s[i])
  }
}
