/**
 * Slugs: the stable keys that identify a checklist question
 * (apps/api/src/utils/slug.ts). A slug is the text without accents, in
 * lower case, with every run of characters other than `a-z`/`0-9` written
 * as one `_`, and with no `_` at either end.
 */
module Slug {
  import opened Text

  /** The characters a slug keeps: `[a-z0-9]`. */
  predicate IsSlugChar(c: char) {
    'a' <= c <= 'z' || '0' <= c <= '9'
  }

  /** The complement class `[^a-z0-9]`. */
  predicate NotSlugChar(c: char) {
    !IsSlugChar(c)
  }

  /**
   * The `edgePattern` option: `/^_+|_+$/g` (the default) drops every `_` at
   * either end, `/^_|_$/g` (what `slugify` passes) drops one at each end.
   */
  datatype EdgePattern = AllEdges | OneEdge

  /** The shape every slug has: slug characters and single inner underscores. */
  predicate IsSlug(s: string) {
    && SlugAlphabet(s)
    && (s == [] || (s[0] != '_' && s[|s| - 1] != '_'))
    && NoDoubleUnderscore(s)
  }

  predicate NoDoubleUnderscore(s: string) {
    forall i :: 0 <= i < |s| - 1 && s[i] == '_' ==> s[i + 1] != '_'
  }

  /** `s.replace(/[^a-z0-9]+/g, "_")`. */
  function Underscore(s: string, inRun: bool): string {
    ReplaceRuns(s, NotSlugChar, '_', inRun)
  }

  /** The underscored text holds slug characters and single underscores, and starts with none inside a run. */
  lemma {:induction false} UnderscoreShape(s: string, inRun: bool)
    ensures var r := Underscore(s, inRun);
      && SlugAlphabet(r)
      && NoDoubleUnderscore(r)
      && (inRun && r != [] ==> r[0] != '_')
  {
    if s != [] {
      var next := NotSlugChar(s[0]);
      UnderscoreShape(s[1..], next);
      var rest := Underscore(s[1..], next);
      var head: string := if next then (if inRun then [] else ['_']) else [s[0]];
      assert Underscore(s, inRun) == head + rest;
    }
  }

  function DropLeading(s: string, all: bool): (r: string)
    ensures |r| <= |s| && r == s[|s| - |r|..]
  {
    if s != [] && s[0] == '_' then (if all then DropLeading(s[1..], true) else s[1..]) else s
  }

  function DropTrailing(s: string, all: bool): (r: string)
    ensures |r| <= |s| && r == s[..|r|]
  {
    if s != [] && s[|s| - 1] == '_' then (if all then DropTrailing(s[..|s| - 1], true) else s[..|s| - 1]) else s
  }

  /** `slug.replace(edgePattern, "")`. */
  function StripEdges(s: string, edge: EdgePattern): string {
    var all := edge == AllEdges;
    DropTrailing(DropLeading(s, all), all)
  }

  /** `toSlug(input, { trimWhitespace, edgePattern })`. */
  function ToSlug(input: string, trimWhitespace: bool, edge: EdgePattern): (r: string)
    ensures IsSlug(r)
  {
    var value := if trimWhitespace then Trim(input) else input;
    var folded := Lower(RemoveChars(Nfd(value), IsCombiningMark));
    var underscored := Underscore(folded, false);
    UnderscoreShape(folded, false);
    StripEdgesShape(underscored, edge);
    StripEdges(underscored, edge)
  }

  /** `slugify`. */
  function Slugify(input: string): (r: string)
    ensures IsSlug(r)
  {
    ToSlug(input, true, OneEdge)
  }

  /** `slugifyItem`. */
  function SlugifyItem(input: string): (r: string)
    ensures IsSlug(r)
  {
    ToSlug(input, true, AllEdges)
  }

  lemma NoDoubleUnderscoreSlice(s: string, i: int, j: int)
    requires NoDoubleUnderscore(s) && 0 <= i <= j <= |s|
    ensures NoDoubleUnderscore(s[i..j])
  {
    assert forall k :: 0 <= k < j - i ==> s[i..j][k] == s[i + k];
  }

  /** Slug characters and underscores, as every stage after the replacement holds. */
  predicate SlugAlphabet(s: string) {
    forall i :: 0 <= i < |s| ==> IsSlugChar(s[i]) || s[i] == '_'
  }

  /** Dropping the first character keeps both properties of the alphabet. */
  lemma TailShape(s: string)
    requires s != [] && SlugAlphabet(s) && NoDoubleUnderscore(s)
    ensures SlugAlphabet(s[1..]) && NoDoubleUnderscore(s[1..])
  {
    var t := s[1..];
    forall k | 0 <= k < |t|
      ensures IsSlugChar(t[k]) || t[k] == '_'
    {
      assert t[k] == s[k + 1];
    }
    forall k | 0 <= k < |t| - 1 && t[k] == '_'
      ensures t[k + 1] != '_'
    {
      assert t[k] == s[k + 1] && t[k + 1] == s[k + 2];
    }
  }

  /** With no second underscore behind it, the default pattern drops just the first one. */
  lemma LeadingOnce(s: string)
    requires s != [] && s[0] == '_' && (|s| < 2 || s[1] != '_')
    ensures DropLeading(s, true) == s[1..]
  {
    assert DropLeading(s[1..], true) == s[1..];
  }

  lemma LeadingDropped(s: string)
    requires SlugAlphabet(s) && NoDoubleUnderscore(s)
    ensures var t := DropLeading(s, false);
      && DropLeading(s, true) == t
      && SlugAlphabet(t) && NoDoubleUnderscore(t) && (t == [] || t[0] != '_')
  {
    if s != [] && s[0] == '_' {
      assert |s| < 2 || s[1] != '_';
      LeadingOnce(s);
      TailShape(s);
    }
  }

  lemma TrailingDropped(t: string)
    requires SlugAlphabet(t) && NoDoubleUnderscore(t) && (t == [] || t[0] != '_')
    ensures var u := DropTrailing(t, false);
      DropTrailing(t, true) == u && IsSlug(u)
  {
    var u := DropTrailing(t, false);
    if t != [] && t[|t| - 1] == '_' {
      assert u == t[..|t| - 1];
      if |t| > 1 {
        assert t[|t| - 2] != '_';
        assert u[|u| - 1] == t[|t| - 2];
      }
      assert DropTrailing(u, true) == u;
    }
    NoDoubleUnderscoreSlice(t, 0, |u|);
  }

  /** On text without a double underscore, dropping every edge underscore drops at most one at each end. */
  lemma EdgePatternsAgree(s: string)
    requires SlugAlphabet(s) && NoDoubleUnderscore(s)
    ensures StripEdges(s, AllEdges) == StripEdges(s, OneEdge)
  {
    LeadingDropped(s);
    TrailingDropped(DropLeading(s, false));
  }

  /** Stripping the edges of underscored text leaves a slug. */
  lemma StripEdgesShape(s: string, edge: EdgePattern)
    requires SlugAlphabet(s) && NoDoubleUnderscore(s)
    ensures IsSlug(StripEdges(s, edge))
  {
    LeadingDropped(s);
    TrailingDropped(DropLeading(s, false));
  }

  /** `slugify` and `slugifyItem` always agree: their edge patterns differ only on text that never arises. */
  lemma SlugifyIsSlugifyItem(input: string)
    ensures Slugify(input) == SlugifyItem(input)
  {
    var folded := Lower(RemoveChars(Nfd(Trim(input)), IsCombiningMark));
    UnderscoreShape(folded, false);
    EdgePatternsAgree(Underscore(folded, false));
  }

  /** Whitespace around the input does not change its slug. */
  lemma SlugIgnoresSurroundingWhitespace(w1: string, input: string, w2: string, edge: EdgePattern)
    requires AllWhitespace(w1) && AllWhitespace(w2)
    ensures ToSlug(w1 + input + w2, true, edge) == ToSlug(input, true, edge)
  {
    TrimIgnoresSurroundingWhitespace(w1, input, w2);
  }

  // ---------------------------------------------------------------------
  // Idempotence
  // ---------------------------------------------------------------------

  lemma {:induction false} NfdOfBasicLatin(s: string)
    requires forall i :: 0 <= i < |s| ==> s[i] < '\U{C0}'
    ensures Nfd(s) == s
  {
    if s != [] {
      NfdOfBasicLatin(s[1..]);
    }
  }

  lemma {:induction false} UnderscoreOfSlug(s: string, inRun: bool)
    requires SlugAlphabet(s) && NoDoubleUnderscore(s)
    requires !(inRun && s != [] && s[0] == '_')
    ensures Underscore(s, inRun) == s
  {
    if s != [] {
      NoDoubleUnderscoreSlice(s, 1, |s|);
      if s[0] == '_' {
        assert s[1..] == [] || s[1..][0] != '_';
        UnderscoreOfSlug(s[1..], true);
      } else {
        UnderscoreOfSlug(s[1..], false);
      }
    }
  }

  lemma TrimOfSlug(s: string)
    requires IsSlug(s)
    ensures Trim(s) == s
  {
    if s != [] {
      assert !IsWhitespace(s[0]);
      assert TrimStart(s) == s;
      assert !IsWhitespace(s[|s| - 1]);
    }
  }

  lemma LowerOfSlug(s: string)
    requires SlugAlphabet(s)
    ensures Lower(s) == s
  {
    assert forall i :: 0 <= i < |s| ==> LowerChar(s[i]) == s[i];
  }

  /** A slug is its own slug. */
  lemma SlugOfSlug(s: string, edge: EdgePattern)
    requires IsSlug(s)
    ensures ToSlug(s, true, edge) == s
  {
    TrimOfSlug(s);
    NfdOfBasicLatin(s);
    RemoveCharsKeeps(s, IsCombiningMark);
    LowerOfSlug(s);
    UnderscoreOfSlug(s, false);
  }

  /** Slugging is idempotent. */
  lemma SlugifyIdempotent(input: string)
    ensures Slugify(Slugify(input)) == Slugify(input)
  {
    SlugOfSlug(Slugify(input), OneEdge);
  }
}
