/** The category repository's get-or-create: a category name is trimmed and
    lower-cased, its slug is that name with spaces turned into dashes, and the
    category table, keyed by slug, gains an entry only for a new slug. */
module Categories {

  /** A category row. */
  datatype Category = Category(slug: string, name: string)

  /** The characters `String.prototype.trim` removes: the ECMAScript
      WhiteSpace and LineTerminator code points. */
  predicate IsWhiteSpace(c: char) {
    c == '\t' || c == '\n' || c == '\U{000B}' || c == '\U{000C}' || c == '\r' || c == ' ' ||
    c == '\U{00A0}' || c == '\U{1680}' || ('\U{2000}' <= c <= '\U{200A}') ||
    c == '\U{2028}' || c == '\U{2029}' || c == '\U{202F}' || c == '\U{205F}' ||
    c == '\U{3000}' || c == '\U{FEFF}'
  }

  predicate AllWhiteSpace(s: string) {
    forall k :: 0 <= k < |s| ==> IsWhiteSpace(s[k])
  }

  /** `s` with its leading white space removed. */
  function TrimStart(s: string): (r: string)
    ensures |r| <= |s| && r == s[|s| - |r|..]
    ensures AllWhiteSpace(s[..|s| - |r|])
    ensures r == [] || !IsWhiteSpace(r[0])
  {
    if s != [] && IsWhiteSpace(s[0]) then TrimStart(s[1..]) else s
  }

  /** `s` with its trailing white space removed. */
  function TrimEnd(s: string): (r: string)
    ensures |r| <= |s| && r == s[..|r|]
    ensures AllWhiteSpace(s[|r|..])
    ensures r == [] || !IsWhiteSpace(r[|r| - 1])
  {
    if s != [] && IsWhiteSpace(s[|s| - 1]) then
      var r := TrimEnd(s[..|s| - 1]);
      PrefixOfInit(s, r);
      r
    else s
  }

  /** A prefix `r` of `s` without its white last character leaves only white
      space of `s` after it. */
  lemma PrefixOfInit(s: string, r: string)
    requires s != [] && IsWhiteSpace(s[|s| - 1])
    requires |r| <= |s| - 1 && r == s[..|s| - 1][..|r|] && AllWhiteSpace(s[..|s| - 1][|r|..])
    ensures r == s[..|r|] && AllWhiteSpace(s[|r|..])
  {
    assert s[|r|..] == s[..|s| - 1][|r|..] + [s[|s| - 1]];
  }

  /** `String.prototype.trim`. */
  function Trim(s: string): string {
    TrimEnd(TrimStart(s))
  }

  /** Trimming keeps one infix of `s` that neither starts nor ends with white
      space, and drops only white space around it. */
  lemma TrimKeepsInfix(s: string)
    ensures exists i, j :: 0 <= i <= j <= |s| && Trim(s) == s[i..j] &&
                           AllWhiteSpace(s[..i]) && AllWhiteSpace(s[j..])
    ensures Trim(s) == [] || (!IsWhiteSpace(Trim(s)[0]) && !IsWhiteSpace(Trim(s)[|Trim(s)| - 1]))
  {
    var t := TrimStart(s);
    var r := TrimEnd(t);
    InfixOfSuffix(s, t, r);
    assert r == [] || r[0] == t[0];
  }

  /** A prefix `r` of a suffix `t` of `s`, with only white space around it,
      is such an infix of `s`. */
  lemma InfixOfSuffix(s: string, t: string, r: string)
    requires |t| <= |s| && t == s[|s| - |t|..] && AllWhiteSpace(s[..|s| - |t|])
    requires |r| <= |t| && r == t[..|r|] && AllWhiteSpace(t[|r|..])
    ensures exists i, j :: 0 <= i <= j <= |s| && r == s[i..j] && AllWhiteSpace(s[..i]) && AllWhiteSpace(s[j..])
  {
    var i := |s| - |t|;
    assert t[|r|..] == s[i + |r|..];
    assert r == s[i..i + |r|];
  }

  /** `toLowerCase` on one character: upper-case ASCII letters become lower case. */
  function LowerChar(c: char): (r: char)
    ensures IsWhiteSpace(r) <==> IsWhiteSpace(c)
    ensures !('A' <= r <= 'Z')
  {
    if 'A' <= c <= 'Z' then (c as int - 'A' as int + 'a' as int) as char else c
  }

  /** `toLowerCase` on a string, character by character. */
  function Lower(s: string): (r: string)
    ensures |r| == |s|
    ensures forall k :: 0 <= k < |s| ==> r[k] == LowerChar(s[k])
  {
    if s == [] then [] else [LowerChar(s[0])] + Lower(s[1..])
  }

  /** The stored name: the input trimmed, then lower-cased. */
  function CategoryName(name: string): (r: string)
    ensures r == [] || (!IsWhiteSpace(r[0]) && !IsWhiteSpace(r[|r| - 1]))
    ensures forall k :: 0 <= k < |r| ==> !('A' <= r[k] <= 'Z')
  {
    Lower(Trim(name))
  }

  /** `replace(/ /g, '-')`: every space becomes a dash, everything else stays. */
  function Slugify(name: string): (r: string)
    ensures |r| == |name|
    ensures forall k :: 0 <= k < |name| ==> r[k] == if name[k] == ' ' then '-' else name[k]
    ensures ' ' !in r
  {
    if name == [] then [] else [if name[0] == ' ' then '-' else name[0]] + Slugify(name[1..])
  }

  /** The slug a category name is stored under. */
  function SlugOf(name: string): string {
    Slugify(CategoryName(name))
  }

  /** The category table keys every category by its own slug. */
  predicate KeyedBySlug(table: map<string, Category>) {
    forall s :: s in table ==> table[s].slug == s
  }

  /** The table step of `getOrCreate` for a normalised name and its slug:
      the category found under the slug, or a new category `{slug, name}`
      added under it; with the table after. */
  function FindOrInsert(table: map<string, Category>, slug: string, name: string): (r: (Category, map<string, Category>))
    ensures slug in r.1 && r.1[slug] == r.0
    ensures r.1.Keys == table.Keys + {slug}
    ensures forall s :: s in table ==> r.1[s] == table[s]
    ensures slug !in table ==> r.0 == Category(slug, name)
    ensures KeyedBySlug(table) ==> r.0.slug == slug && KeyedBySlug(r.1)
  {
    if slug in table then (table[slug], table)
    else (Category(slug, name), table[slug := Category(slug, name)])
  }

  /** `getOrCreate` on a table, from the name as given. */
  function GetOrCreateSpec(table: map<string, Category>, name: string): (Category, map<string, Category>) {
    FindOrInsert(table, SlugOf(name), CategoryName(name))
  }

  class CategoryRepository {
    var categories: map<string, Category>

    ghost predicate Valid()
      reads this
    {
      KeyedBySlug(categories)
    }

    constructor ()
      ensures Valid() && categories == map[]
    {
      categories := map[];
    }

    /** `getOrCreate`: returns the category stored under the input's slug,
        saving a new one first when there is none. */
    method GetOrCreate(name: string) returns (category: Category)
      requires Valid()
      modifies this
      ensures Valid()
      ensures (category, categories) == GetOrCreateSpec(old(categories), name)
      ensures old(SlugOf(name) in categories) ==> categories == old(categories)
      ensures SlugOf(name) !in old(categories) ==>
                category == Category(SlugOf(name), CategoryName(name)) &&
                categories == old(categories)[SlugOf(name) := category]
    {
      var categoryName := Lower(Trim(name));
      var categorySlug := Slugify(categoryName);
      if categorySlug in categories {
        category := categories[categorySlug];
      } else {
        category := Category(categorySlug, categoryName);
        categories := categories[categorySlug := category];
      }
    }
  }

  /** Calling get-or-create again with a name of the same slug returns the
      category of the first call and adds nothing. */
  lemma GetOrCreateIdempotent(table: map<string, Category>, first: string, second: string)
    requires KeyedBySlug(table)
    ensures SlugOf(first) == SlugOf(second) ==>
              GetOrCreateSpec(GetOrCreateSpec(table, first).1, second) == GetOrCreateSpec(table, first)
  {
  }

  /** Leading white space does not survive trimming. */
  lemma {:induction false} TrimStartSkips(w: string, s: string)
    requires AllWhiteSpace(w)
    ensures TrimStart(w + s) == TrimStart(s)
  {
    if w != [] {
      assert (w + s)[1..] == w[1..] + s;
      TrimStartSkips(w[1..], s);
    } else {
      assert w + s == s;
    }
  }

  /** Trailing white space does not survive trimming. */
  lemma {:induction false} TrimEndSkips(s: string, w: string)
    requires AllWhiteSpace(w)
    ensures TrimEnd(s + w) == TrimEnd(s)
    decreases |w|
  {
    if w != [] {
      assert (s + w)[..|s + w| - 1] == s + w[..|w| - 1];
      TrimEndSkips(s, w[..|w| - 1]);
    } else {
      assert s + w == s;
    }
  }

  /** Trimming the start of `s + w` leaves `w` in place unless `s` is all white space. */
  lemma {:induction false} TrimStartKeepsTail(s: string, w: string)
    requires AllWhiteSpace(w)
    ensures TrimStart(s + w) == if TrimStart(s) == [] then [] else TrimStart(s) + w
  {
    if s == [] {
      assert s + w == w;
      TrimStartSkips(w, []);
      assert w + [] == w;
    } else if IsWhiteSpace(s[0]) {
      assert (s + w)[1..] == s[1..] + w;
      TrimStartKeepsTail(s[1..], w);
    }
  }

  /** Trailing white space does not change the trimmed name. */
  lemma TrimTail(name: string, after: string)
    requires AllWhiteSpace(after)
    ensures Trim(name + after) == Trim(name)
  {
    TrimStartKeepsTail(name, after);
    if TrimStart(name) != [] {
      TrimEndSkips(TrimStart(name), after);
    }
  }

  /** Trimming removes outer white space whatever its extent. */
  lemma TrimPadding(before: string, name: string, after: string)
    requires AllWhiteSpace(before) && AllWhiteSpace(after)
    ensures Trim(before + name + after) == Trim(name)
  {
    var rest := name + after;
    assert before + name + after == before + rest;
    TrimStartSkips(before, rest);
    assert Trim(before + rest) == Trim(rest);
    TrimTail(name, after);
  }

  /** Outer white space around a name does not change the stored name. */
  lemma PaddingIgnored(before: string, name: string, after: string)
    requires AllWhiteSpace(before) && AllWhiteSpace(after)
    ensures CategoryName(before + name + after) == CategoryName(name)
  {
    TrimPadding(before, name, after);
  }

  /** Lower-casing and trimming the start commute. */
  lemma {:induction false} TrimStartLower(s: string)
    ensures TrimStart(Lower(s)) == Lower(TrimStart(s))
  {
    if s != [] {
      assert Lower(s)[1..] == Lower(s[1..]);
      TrimStartLower(s[1..]);
    }
  }

  /** Lower-casing and trimming the end commute. */
  lemma {:induction false} TrimEndLower(s: string)
    ensures TrimEnd(Lower(s)) == Lower(TrimEnd(s))
    decreases |s|
  {
    if s != [] {
      assert Lower(s)[..|s| - 1] == Lower(s[..|s| - 1]);
      TrimEndLower(s[..|s| - 1]);
    }
  }

  /** Names that differ only in letter case are stored under the same name. */
  lemma CaseIgnored(a: string, b: string)
    requires Lower(a) == Lower(b)
    ensures CategoryName(a) == CategoryName(b)
  {
    TrimStartLower(a);
    TrimEndLower(TrimStart(a));
    TrimStartLower(b);
    TrimEndLower(TrimStart(b));
  }
}
