/**
 * Status names of tickets (chamados) and schedules (agendamentos) and the
 * tolerant normalisers that map any spelling of a status onto its canonical
 * value (apps/api/src/utils/status.ts).
 *
 * `NormalizeBase` is written as the source's sequence of string steps. The
 * lemma `NormalizeBaseIsCanonical` proves it equal to a one-pass reference
 * definition, `Canonical`: fold accents and case character by character,
 * then write every run of separators (whitespace, `_`, `-`) between two words
 * as one space and drop the separators at both ends. The tolerance
 * properties (case, accents, separators, idempotence) are proved on the
 * reference definition.
 */
module Status {
  import opened Text

  // ---------------------------------------------------------------------
  // Character classes
  // ---------------------------------------------------------------------

  /** The characters of the regular expression class `[_-]`. */
  predicate IsDash(c: char) {
    c == '_' || c == '-'
  }

  /** A character that separates words for the normaliser: `\s`, `_` or `-`. */
  predicate IsSeparator(c: char) {
    IsWhitespace(c) || IsDash(c)
  }

  /** The Unicode `Diacritic` property (`\p{Diacritic}`) on U+0000..U+036F. */
  predicate IsDiacritic(c: char) {
    || c == '^' || c == '`' || c == '\U{A8}' || c == '\U{AF}' || c == '\U{B4}' || c == '\U{B7}' || c == '\U{B8}'
    || ('\U{2B0}' <= c <= '\U{34E}') || ('\U{350}' <= c <= '\U{357}') || ('\U{35D}' <= c <= '\U{362}')
  }

  predicate AllSeparators(s: string) {
    forall i :: 0 <= i < |s| ==> IsSeparator(s[i])
  }

  predicate NoDash(s: string) {
    forall i :: 0 <= i < |s| ==> !IsDash(s[i])
  }

  // ---------------------------------------------------------------------
  // normalizeBase, step by step
  // ---------------------------------------------------------------------

  /**
   * `normalizeBase`: decompose, strip diacritics, turn each run of `_`/`-`
   * into a space, lower-case, trim, and turn each run of whitespace into one
   * space. Its argument is the `String(value ?? '')` of the source.
   */
  function NormalizeBase(value: string): string {
    var stripped := RemoveChars(Nfd(value), IsDiacritic);
    var undashed := ReplaceRuns(stripped, IsDash, ' ', false);
    ReplaceRuns(Trim(Lower(undashed)), IsWhitespace, ' ', false)
  }

  // ---------------------------------------------------------------------
  // The reference definition
  // ---------------------------------------------------------------------

  /** One character with its accents removed and its case folded. */
  function FoldChar(c: char): string {
    Lower(RemoveChars(Decompose(c), IsDiacritic))
  }

  /** `FoldChar` applied to every character. */
  function Fold(s: string): string {
    if s == [] then [] else FoldChar(s[0]) + Fold(s[1..])
  }

  /**
   * Where a scan of the text stands: before the first word, inside a word,
   * or after a word and some separators (a space is owed if a word follows).
   */
  datatype Gap = Leading | InWord | Pending

  function Pause(g: Gap): Gap {
    if g == InWord then Pending else g
  }

  /** The words of `s`, joined by single spaces; `g` is the state before `s`. */
  function Squash(s: string, g: Gap): string {
    if s == [] then []
    else if IsSeparator(s[0]) then Squash(s[1..], Pause(g))
    else (if g == Pending then " " else "") + [s[0]] + Squash(s[1..], InWord)
  }

  /** The state after scanning `s` from state `g`. */
  function After(s: string, g: Gap): Gap {
    if s == [] then g else After(s[1..], if IsSeparator(s[0]) then Pause(g) else InWord)
  }

  /** The canonical form of a status text. */
  function Canonical(value: string): string {
    Squash(Fold(value), Leading)
  }

  // ---------------------------------------------------------------------
  // Squash
  // ---------------------------------------------------------------------

  lemma {:induction false} SquashConcat(a: string, b: string, g: Gap)
    ensures Squash(a + b, g) == Squash(a, g) + Squash(b, After(a, g))
  {
    if a == [] {
      assert a + b == b;
    } else {
      assert (a + b)[0] == a[0] && (a + b)[1..] == a[1..] + b;
      SquashConcat(a[1..], b, if IsSeparator(a[0]) then Pause(g) else InWord);
    }
  }

  /** A run of separators writes nothing and leaves a space owed. */
  lemma {:induction false} SeparatorRun(r: string, g: Gap)
    requires r != [] && AllSeparators(r)
    ensures Squash(r, g) == [] && After(r, g) == Pause(g)
  {
    if |r| > 1 {
      SeparatorRun(r[1..], Pause(g));
    }
  }

  lemma SquashSkipsLeading(a: string, s: string, g: Gap)
    requires AllSeparators(a) && g != InWord
    ensures Squash(a + s, g) == Squash(s, g)
  {
    SquashConcat(a, s, g);
    if a != [] {
      SeparatorRun(a, g);
    }
  }

  lemma SquashDropsTrailing(t: string, b: string, g: Gap)
    requires AllSeparators(b)
    ensures Squash(t + b, g) == Squash(t, g)
  {
    SquashConcat(t, b, g);
    if b != [] {
      SeparatorRun(b, After(t, g));
    }
  }

  /** Runs of `_`/`-` turned into spaces are still separator runs: Squash does not see the step. */
  lemma {:induction false} SquashIgnoresDashRuns(u: string, inRun: bool, g: Gap)
    requires inRun ==> g != InWord
    ensures Squash(ReplaceRuns(u, IsDash, ' ', inRun), g) == Squash(u, g)
  {
    if u != [] {
      var rest := u[1..];
      if IsDash(u[0]) {
        var r := ReplaceRuns(rest, IsDash, ' ', true);
        SquashIgnoresDashRuns(rest, true, Pause(g));
        if !inRun {
          assert ([' '] + r)[1..] == r;
        } else {
          assert [] + r == r;
        }
      } else {
        var r := ReplaceRuns(rest, IsDash, ' ', false);
        assert ([u[0]] + r)[0] == u[0] && ([u[0]] + r)[1..] == r;
        SquashIgnoresDashRuns(rest, false, if IsSeparator(u[0]) then Pause(g) else InWord);
      }
    }
  }

  /** On text without dashes that ends in a word, the whitespace replacement is Squash from inside a word. */
  lemma {:induction false} ReplaceRunsIsSquash(w: string, inRun: bool)
    requires NoDash(w) && (w == [] || !IsWhitespace(w[|w| - 1]))
    ensures Squash(w, if inRun then Pending else InWord)
         == (if inRun && w != [] then " " else "") + ReplaceRuns(w, IsWhitespace, ' ', inRun)
  {
    if w != [] {
      var rest := w[1..];
      var g := if inRun then Pending else InWord;
      assert rest == [] || rest[|rest| - 1] == w[|w| - 1];
      assert NoDash(rest) by {
        forall i | 0 <= i < |rest| ensures !IsDash(rest[i]) {
          assert rest[i] == w[i + 1];
        }
      }
      if IsWhitespace(w[0]) {
        assert rest != [];
        assert Squash(w, g) == Squash(rest, Pending);
        assert ReplaceRuns(w, IsWhitespace, ' ', inRun)
            == (if inRun then [] else [' ']) + ReplaceRuns(rest, IsWhitespace, ' ', true);
        ReplaceRunsIsSquash(rest, true);
      } else {
        assert !IsSeparator(w[0]);
        assert Squash(w, g) == (if inRun then " " else "") + [w[0]] + Squash(rest, InWord);
        assert ReplaceRuns(w, IsWhitespace, ' ', inRun) == [w[0]] + ReplaceRuns(rest, IsWhitespace, ' ', false);
        ReplaceRunsIsSquash(rest, false);
      }
    }
  }

  lemma WhitespaceRunIsSeparatorRun(s: string)
    requires AllWhitespace(s)
    ensures AllSeparators(s)
  {
  }

  lemma NoDashSlice(v: string, i: int, j: int)
    requires NoDash(v) && 0 <= i <= j <= |v|
    ensures NoDash(v[i..j])
  {
    assert forall k :: 0 <= k < j - i ==> v[i..j][k] == v[i + k];
  }

  /** On trimmed text without dashes, writing each whitespace run as one space is Squash. */
  lemma TrimmedReplaceIsSquash(t: string)
    requires NoDash(t) && (t == [] || (!IsWhitespace(t[0]) && !IsWhitespace(t[|t| - 1])))
    ensures ReplaceRuns(t, IsWhitespace, ' ', false) == Squash(t, Leading)
  {
    if t != [] {
      assert !IsSeparator(t[0]);
      assert Squash(t, Leading) == Squash(t, InWord);
      ReplaceRunsIsSquash(t, false);
    }
  }

  lemma SquashIgnoresTrimStart(v: string)
    ensures Squash(TrimStart(v), Leading) == Squash(v, Leading)
  {
    var s1 := TrimStart(v);
    TrimStartShape(v);
    var k := |v| - |s1|;
    var w := v[..k];
    assert v == w + s1;
    WhitespaceRunIsSeparatorRun(w);
    SquashSkipsLeading(w, s1, Leading);
  }

  lemma SquashIgnoresTrimEnd(s1: string)
    ensures Squash(TrimEnd(s1), Leading) == Squash(s1, Leading)
  {
    var t := TrimEnd(s1);
    TrimEndShape(s1);
    var w := s1[|t|..];
    assert s1 == t + w;
    WhitespaceRunIsSeparatorRun(w);
    SquashDropsTrailing(t, w, Leading);
  }

  /** Squash does not see the whitespace `Trim` removes. */
  lemma SquashIgnoresTrim(v: string)
    ensures Squash(Trim(v), Leading) == Squash(v, Leading)
  {
    SquashIgnoresTrimStart(v);
    SquashIgnoresTrimEnd(TrimStart(v));
  }

  /** Trimming, then writing each whitespace run as one space, is Squash on text without dashes. */
  lemma TrimThenReplaceIsSquash(v: string)
    requires NoDash(v)
    ensures ReplaceRuns(Trim(v), IsWhitespace, ' ', false) == Squash(v, Leading)
  {
    var s1 := TrimStart(v);
    var t := TrimEnd(s1);
    TrimStartShape(v);
    TrimEndShape(s1);
    var k := |v| - |s1|;
    assert t == v[k..k + |t|];
    NoDashSlice(v, k, k + |t|);
    TrimmedReplaceIsSquash(t);
    SquashIgnoresTrim(v);
  }

  // ---------------------------------------------------------------------
  // Folding
  // ---------------------------------------------------------------------

  lemma {:induction false} FoldConcat(a: string, b: string)
    ensures Fold(a + b) == Fold(a) + Fold(b)
  {
    if a == [] {
      assert a + b == b;
    } else {
      assert (a + b)[0] == a[0] && (a + b)[1..] == a[1..] + b;
      FoldConcat(a[1..], b);
    }
  }

  /** Decomposing, stripping diacritics and lower-casing is folding character by character. */
  lemma {:induction false} FoldSteps(x: string)
    ensures Lower(RemoveChars(Nfd(x), IsDiacritic)) == Fold(x)
  {
    if x != [] {
      FoldSteps(x[1..]);
      RemoveCharsConcat(Decompose(x[0]), Nfd(x[1..]), IsDiacritic);
      LowerConcat(RemoveChars(Decompose(x[0]), IsDiacritic), RemoveChars(Nfd(x[1..]), IsDiacritic));
    }
  }

  lemma {:induction false} LowerCommutesWithDashRuns(s: string, inRun: bool)
    ensures Lower(ReplaceRuns(s, IsDash, ' ', inRun)) == ReplaceRuns(Lower(s), IsDash, ' ', inRun)
  {
    if s != [] {
      var ls := Lower(s);
      assert ls[0] == LowerChar(s[0]) && ls[1..] == Lower(s[1..]);
      var next := IsDash(s[0]);
      LowerCommutesWithDashRuns(s[1..], next);
      var head: string := if IsDash(s[0]) then (if inRun then [] else [' ']) else [s[0]];
      LowerConcat(head, ReplaceRuns(s[1..], IsDash, ' ', next));
    }
  }

  /** NormalizeBase is the canonical form: the source's steps agree with the reference definition. */
  lemma NormalizeBaseIsCanonical(value: string)
    ensures NormalizeBase(value) == Canonical(value)
  {
    var stripped := RemoveChars(Nfd(value), IsDiacritic);
    LowerCommutesWithDashRuns(stripped, false);
    FoldSteps(value);
    var v := ReplaceRuns(Fold(value), IsDash, ' ', false);
    ReplaceRunsChars(Fold(value), IsDash, ' ', false);
    assert NoDash(v);
    TrimThenReplaceIsSquash(v);
    SquashIgnoresDashRuns(Fold(value), false, Leading);
  }

  // ---------------------------------------------------------------------
  // Properties of the canonical form
  // ---------------------------------------------------------------------

  /** A character folding leaves as it is. */
  predicate Folded(c: char) {
    FoldChar(c) == [c]
  }

  predicate AllFolded(s: string) {
    forall i :: 0 <= i < |s| ==> Folded(s[i])
  }

  /** Every separator sits between two words and is a single space. */
  predicate WellSpaced(s: string) {
    forall i :: 0 <= i < |s| && IsSeparator(s[i]) ==> s[i] == ' ' && i < |s| - 1 && !IsSeparator(s[i + 1])
  }

  lemma LatinPartsIgnoreCase(k: int)
    requires k != 31
    ensures LatinParts(k, true) == LatinParts(k, false)
  {
  }

  /** A character that does not decompose lower-cases to one that does not either. */
  lemma DecomposeLowerChar(c: char)
    requires Decompose(c) == [c]
    ensures Decompose(LowerChar(c)) == [LowerChar(c)]
  {
    if '\U{C0}' <= c <= '\U{DE}' && c != '\U{D7}' {
      LatinPartsIgnoreCase(c as int - 0xC0);
    }
  }

  lemma FoldCharFolded(c: char)
    ensures AllFolded(FoldChar(c))
  {
    var d := Decompose(c);
    if |d| == 1 {
      if !IsDiacritic(c) {
        assert RemoveChars(d, IsDiacritic) == [c];
        DecomposeLowerChar(c);
        var l := LowerChar(c);
        assert RemoveChars([l], IsDiacritic) == [l];
        LowerCharIdempotent(c);
        assert FoldChar(c) == [l];
      } else {
        assert RemoveChars(d, IsDiacritic) == [];
      }
    } else {
      assert RemoveChars(d, IsDiacritic) == [d[0]];
      var l := LowerChar(d[0]);
      assert RemoveChars([l], IsDiacritic) == [l];
      assert FoldChar(c) == [l];
    }
  }

  lemma AllFoldedConcat(a: string, b: string)
    requires AllFolded(a) && AllFolded(b)
    ensures AllFolded(a + b)
  {
  }

  /** Folded text holds only characters folding leaves alone. */
  lemma {:induction false} FoldIsFolded(x: string)
    ensures AllFolded(Fold(x))
  {
    if x != [] {
      FoldCharFolded(x[0]);
      FoldIsFolded(x[1..]);
      AllFoldedConcat(FoldChar(x[0]), Fold(x[1..]));
    }
  }

  lemma {:induction false} FoldOfFolded(s: string)
    requires AllFolded(s)
    ensures Fold(s) == s
  {
    if s != [] {
      FoldOfFolded(s[1..]);
    }
  }

  lemma {:induction false} SquashKeepsFolded(s: string, g: Gap)
    requires AllFolded(s)
    ensures AllFolded(Squash(s, g))
  {
    if s != [] {
      if IsSeparator(s[0]) {
        SquashKeepsFolded(s[1..], Pause(g));
      } else {
        SquashKeepsFolded(s[1..], InWord);
        assert Folded(' ');
        AllFoldedConcat((if g == Pending then " " else "") + [s[0]], Squash(s[1..], InWord));
      }
    }
  }

  function Resume(g: Gap): Gap {
    if g == Pending then InWord else g
  }

  /** Squashing squashed text changes nothing. */
  lemma {:induction false} SquashIdempotent(z: string, g: Gap)
    ensures Squash(Squash(z, g), Resume(g)) == Squash(z, g)
  {
    if z != [] {
      var rest := z[1..];
      if IsSeparator(z[0]) {
        SquashIdempotent(rest, Pause(g));
      } else {
        var r := Squash(rest, InWord);
        SquashIdempotent(rest, InWord);
        var word := [z[0]] + r;
        assert word[0] == z[0] && word[1..] == r;
        if g == Pending {
          var out := " " + word;
          assert out[0] == ' ' && out[1..] == word;
          assert Squash(out, InWord) == Squash(word, Pending);
        }
      }
    }
  }

  lemma CanonicalIdempotent(value: string)
    ensures Canonical(Canonical(value)) == Canonical(value)
  {
    var n := Canonical(value);
    FoldIsFolded(value);
    SquashKeepsFolded(Fold(value), Leading);
    FoldOfFolded(n);
    SquashIdempotent(Fold(value), Leading);
  }

  /** `normalizeBase` is idempotent: a normalised text normalises to itself. */
  lemma NormalizeBaseIdempotent(value: string)
    ensures NormalizeBase(NormalizeBase(value)) == NormalizeBase(value)
  {
    NormalizeBaseIsCanonical(value);
    NormalizeBaseIsCanonical(NormalizeBase(value));
    CanonicalIdempotent(value);
  }

  /** A letter with an accent folds to the lower-case letter alone. */
  lemma FoldCharPair(c: char)
    requires |Decompose(c)| == 2
    ensures FoldChar(c) == [LowerChar(Decompose(c)[0])]
  {
    var d := Decompose(c);
    assert RemoveChars(d, IsDiacritic) == [d[0]];
  }

  /** A character that neither decomposes nor is a diacritic folds to its lower case. */
  lemma FoldCharPlain(c: char)
    requires Decompose(c) == [c] && !IsDiacritic(c)
    ensures FoldChar(c) == [LowerChar(c)]
  {
    assert RemoveChars([c], IsDiacritic) == [c];
  }

  /** An upper-case Latin-1 letter decomposes like its lower case, up to the case of the base letter. */
  lemma DecomposeLatinLower(c: char)
    requires '\U{C0}' <= c <= '\U{DE}' && c != '\U{D7}'
    ensures |Decompose(LowerChar(c))| == |Decompose(c)|
    ensures |Decompose(c)| == 2 ==> Decompose(LowerChar(c))[0] == LowerChar(Decompose(c)[0])
  {
    LatinPartsIgnoreCase(c as int - 0xC0);
  }

  lemma FoldCharLower(c: char)
    ensures FoldChar(LowerChar(c)) == FoldChar(c)
  {
    var l := LowerChar(c);
    if '\U{C0}' <= c <= '\U{DE}' && c != '\U{D7}' {
      DecomposeLatinLower(c);
      if |Decompose(c)| == 2 {
        FoldCharPair(c);
        FoldCharPair(l);
        LowerCharIdempotent(Decompose(c)[0]);
      } else {
        FoldCharPlain(c);
        FoldCharPlain(l);
        LowerCharIdempotent(c);
      }
    } else if 'A' <= c <= 'Z' {
      FoldCharPlain(c);
      FoldCharPlain(l);
      LowerCharIdempotent(c);
    }
  }

  lemma {:induction false} FoldLower(x: string)
    ensures Fold(Lower(x)) == Fold(x)
  {
    if x != [] {
      var lx := Lower(x);
      assert lx[0] == LowerChar(x[0]) && lx[1..] == Lower(x[1..]);
      FoldCharLower(x[0]);
      FoldLower(x[1..]);
    }
  }

  /** Status texts compare without regard to case: `"EM ANDAMENTO"` is `"em andamento"`. */
  lemma NormalizeBaseIgnoresCase(value: string)
    ensures NormalizeBase(Lower(value)) == NormalizeBase(value)
  {
    NormalizeBaseIsCanonical(value);
    NormalizeBaseIsCanonical(Lower(value));
    FoldLower(value);
  }

  lemma FoldSingle(c: char)
    ensures Fold([c]) == FoldChar(c)
  {
    assert [c][1..] == [];
  }

  lemma FoldCharAccent(c: char)
    requires |Decompose(c)| == 2
    ensures FoldChar(c) == FoldChar(Decompose(c)[0])
  {
    var d := Decompose(c);
    assert RemoveChars(d, IsDiacritic) == [d[0]];
    assert Decompose(d[0]) == [d[0]];
    assert RemoveChars([d[0]], IsDiacritic) == [d[0]];
  }

  /** An accented letter counts as its base letter: `"Concluído"` is `"Concluido"`. */
  lemma NormalizeBaseIgnoresAccents(a: string, c: char, b: string)
    requires |Decompose(c)| == 2
    ensures NormalizeBase(a + [c] + b) == NormalizeBase(a + [Decompose(c)[0]] + b)
  {
    var base := Decompose(c)[0];
    NormalizeBaseIsCanonical(a + [c] + b);
    NormalizeBaseIsCanonical(a + [base] + b);
    FoldConcat(a + [c], b);
    FoldConcat(a, [c]);
    FoldConcat(a + [base], b);
    FoldConcat(a, [base]);
    FoldSingle(c);
    FoldSingle(base);
    FoldCharAccent(c);
  }

  lemma {:induction false} FoldSeparators(r: string)
    requires AllSeparators(r)
    ensures Fold(r) == r
  {
    if r != [] {
      var c := r[0];
      assert Decompose(c) == [c];
      assert RemoveChars([c], IsDiacritic) == [c];
      FoldSeparators(r[1..]);
    }
  }

  lemma FoldThenSeparators(a: string, r: string)
    requires AllSeparators(r)
    ensures Fold(a + r) == Fold(a) + r
  {
    FoldConcat(a, r);
    FoldSeparators(r);
  }

  lemma FoldAroundSeparators(a: string, r: string, b: string)
    requires AllSeparators(r)
    ensures Fold(a + r + b) == Fold(a) + r + Fold(b)
  {
    FoldConcat(a + r, b);
    FoldThenSeparators(a, r);
  }

  lemma SquashAroundSeparatorRun(fa: string, r: string, fb: string)
    requires r != [] && AllSeparators(r)
    ensures Squash(fa + r + fb, Leading) == Squash(fa, Leading) + Squash(fb, Pause(After(fa, Leading)))
  {
    var g := After(fa, Leading);
    assert fa + r + fb == fa + (r + fb);
    SquashConcat(fa, r + fb, Leading);
    SquashConcat(r, fb, g);
    SeparatorRun(r, g);
  }

  lemma CanonicalSeparatorRun(a: string, r: string, b: string)
    requires r != [] && AllSeparators(r)
    ensures Canonical(a + r + b) == Squash(Fold(a), Leading) + Squash(Fold(b), Pause(After(Fold(a), Leading)))
  {
    FoldAroundSeparators(a, r, b);
    SquashAroundSeparatorRun(Fold(a), r, Fold(b));
  }

  /** Any nonempty run of separators between two words counts as one space: `"em_andamento"` is `"em andamento"`. */
  lemma NormalizeBaseSeparatorRuns(a: string, r1: string, r2: string, b: string)
    requires r1 != [] && AllSeparators(r1) && r2 != [] && AllSeparators(r2)
    ensures NormalizeBase(a + r1 + b) == NormalizeBase(a + r2 + b)
  {
    NormalizeBaseIsCanonical(a + r1 + b);
    NormalizeBaseIsCanonical(a + r2 + b);
    CanonicalSeparatorRun(a, r1, b);
    CanonicalSeparatorRun(a, r2, b);
  }

  lemma FoldEdges(w1: string, value: string, w2: string)
    requires AllSeparators(w1) && AllSeparators(w2)
    ensures Fold(w1 + value + w2) == w1 + Fold(value) + w2
  {
    FoldConcat(w1 + value, w2);
    FoldConcat(w1, value);
    FoldSeparators(w1);
    FoldSeparators(w2);
  }

  lemma SquashEdges(w1: string, fv: string, w2: string)
    requires AllSeparators(w1) && AllSeparators(w2)
    ensures Squash(w1 + fv + w2, Leading) == Squash(fv, Leading)
  {
    assert w1 + fv + w2 == w1 + (fv + w2);
    SquashSkipsLeading(w1, fv + w2, Leading);
    SquashDropsTrailing(fv, w2, Leading);
  }

  lemma CanonicalIgnoresEdgeSeparators(w1: string, value: string, w2: string)
    requires AllSeparators(w1) && AllSeparators(w2)
    ensures Canonical(w1 + value + w2) == Canonical(value)
  {
    FoldEdges(w1, value, w2);
    SquashEdges(w1, Fold(value), w2);
  }

  /** Separators around the text do not count: `" aberto_"` is `"aberto"`. */
  lemma NormalizeBaseIgnoresEdgeSeparators(w1: string, value: string, w2: string)
    requires AllSeparators(w1) && AllSeparators(w2)
    ensures NormalizeBase(w1 + value + w2) == NormalizeBase(value)
  {
    NormalizeBaseIsCanonical(w1 + value + w2);
    NormalizeBaseIsCanonical(value);
    CanonicalIgnoresEdgeSeparators(w1, value, w2);
  }

  lemma {:induction false} SquashWellSpaced(s: string)
    requires WellSpaced(s)
    ensures Squash(s, InWord) == s
  {
    if s != [] {
      if IsSeparator(s[0]) {
        var rest := s[2..];
        assert WellSpaced(rest) by {
          forall i | 0 <= i < |rest| && IsSeparator(rest[i])
            ensures rest[i] == ' ' && i < |rest| - 1 && !IsSeparator(rest[i + 1])
          {
            assert rest[i] == s[i + 2];
          }
        }
        SquashWellSpaced(rest);
        assert s[1..][0] == s[1] && s[1..][1..] == rest;
        assert s == [' ', s[1]] + rest;
      } else {
        var rest := s[1..];
        assert WellSpaced(rest) by {
          forall i | 0 <= i < |rest| && IsSeparator(rest[i])
            ensures rest[i] == ' ' && i < |rest| - 1 && !IsSeparator(rest[i + 1])
          {
            assert rest[i] == s[i + 1];
          }
        }
        SquashWellSpaced(rest);
      }
    }
  }

  /** Text already in canonical form (folded, words joined by single spaces) is its own normal form. */
  lemma NormalizeBaseOfCanonical(s: string)
    requires AllFolded(s) && WellSpaced(s) && (s == [] || !IsSeparator(s[0]))
    ensures NormalizeBase(s) == s
  {
    NormalizeBaseIsCanonical(s);
    FoldOfFolded(s);
    SquashWellSpaced(s);
  }

  /** Lower-case letters, digits and single inner spaces are canonical. */
  lemma PlainIsCanonical(s: string)
    requires forall i :: 0 <= i < |s| ==> 'a' <= s[i] <= 'z' || '0' <= s[i] <= '9' || s[i] == ' '
    requires WellSpaced(s) && (s == [] || !IsSeparator(s[0]))
    ensures NormalizeBase(s) == s
  {
    forall i | 0 <= i < |s| ensures Folded(s[i]) {
      var c := s[i];
      assert Decompose(c) == [c];
      assert RemoveChars([c], IsDiacritic) == [c];
    }
    NormalizeBaseOfCanonical(s);
  }

  // ---------------------------------------------------------------------
  // Literal texts
  // ---------------------------------------------------------------------

  lemma NotStartsWithAt(s: string, p: string, k: nat)
    requires k < |p| && (k >= |s| || s[k] != p[k])
    ensures !StartsWith(s, p)
  {
    if |p| <= |s| {
      assert s[..|p|][k] == s[k];
    }
  }

  lemma {:induction false} ShortNotContains(s: string, p: string)
    requires |s| < |p|
    ensures !Contains(s, p)
  {
    if s != [] {
      ShortNotContains(s[1..], p);
    }
  }

  /** A label whose lower-case form is canonical normalises to that form. */
  lemma LabelText(x: string)
    requires forall i :: 0 <= i < |Lower(x)| ==> 'a' <= Lower(x)[i] <= 'z' || Lower(x)[i] == ' '
    requires WellSpaced(Lower(x)) && (Lower(x) == [] || !IsSeparator(Lower(x)[0]))
    ensures NormalizeBase(x) == Lower(x)
  {
    NormalizeBaseIgnoresCase(x);
    PlainIsCanonical(Lower(x));
  }

  // ---------------------------------------------------------------------
  // Ticket status
  // ---------------------------------------------------------------------

  /** The four ticket states of `CHAMADO_STATUS`. */
  datatype ChamadoStatus = Aberto | EmAndamento | Concluido | Cancelado

  /** The stored spelling of each state (the values of `CHAMADO_STATUS`). */
  function Label(s: ChamadoStatus): string {
    match s
    case Aberto => "Aberto"
    case EmAndamento => "Em Andamento"
    case Concluido => "Concluido"
    case Cancelado => "Cancelado"
  }

  /** The machine key of each state (`CHAMADO_STATUS_KEY`). */
  function Key(s: ChamadoStatus): string {
    match s
    case Aberto => "aberto"
    case EmAndamento => "em_andamento"
    case Concluido => "concluido"
    case Cancelado => "cancelado"
  }

  /** The rules of `normalizeChamadoStatus`, in order, on an already normalised text. */
  function ClassifyChamado(n: string): ChamadoStatus {
    if StartsWith(n, "conclu") then Concluido
    else if Contains(n, "andament") then EmAndamento
    else if StartsWith(n, "cancel") then Cancelado
    else if StartsWith(n, "abert") then Aberto
    else Aberto
  }

  /**
   * `normalizeChamadoStatus`: the first rule that matches the normalised text
   * decides; anything unrecognised is `Aberto`.
   */
  function NormalizeChamadoStatus(value: string): ChamadoStatus {
    ClassifyChamado(NormalizeBase(value))
  }

  /** `chamadoStatusKey`: the key of the state a text denotes. */
  function ChamadoStatusKey(value: string): (k: string)
    ensures k in {"aberto", "em_andamento", "concluido", "cancelado"}
  {
    Key(NormalizeChamadoStatus(value))
  }

  /** `isStatusAtivo`: the text denotes a ticket that is still open or in progress. */
  predicate IsStatusAtivo(value: string) {
    var s := NormalizeChamadoStatus(value);
    s == Aberto || s == EmAndamento
  }

  lemma ReadAberto(n: string)
    requires n == "aberto"
    ensures !StartsWith(n, "conclu") && !Contains(n, "andament") && !StartsWith(n, "cancel") && StartsWith(n, "abert")
  {
    NotStartsWithAt(n, "conclu", 0);
    ShortNotContains(n, "andament");
    NotStartsWithAt(n, "cancel", 0);
  }

  lemma ReadEmAndamento(n: string)
    requires n == "em andamento"
    ensures !StartsWith(n, "conclu") && Contains(n, "andament")
  {
    NotStartsWithAt(n, "conclu", 0);
    ContainsAt(n, "andament", 3);
  }

  lemma ReadConcluido(n: string)
    requires n == "concluido"
    ensures StartsWith(n, "conclu")
  {
  }

  lemma ReadCancelado(n: string)
    requires n == "cancelado"
    ensures !StartsWith(n, "conclu") && !Contains(n, "andament") && StartsWith(n, "cancel")
  {
    NotStartsWithAt(n, "conclu", 1);
    NotStartsWithAt(n, "andament", 0);
    NotStartsWithAt(n[1..], "andament", 2);
    ShortNotContains(n[1..][1..], "andament");
  }

  /** The canonical form of each label. */
  function CanonicalLabel(s: ChamadoStatus): string {
    match s
    case Aberto => "aberto"
    case EmAndamento => "em andamento"
    case Concluido => "concluido"
    case Cancelado => "cancelado"
  }

  lemma LowerLabel(s: ChamadoStatus)
    ensures Lower(Label(s)) == CanonicalLabel(s)
  {
  }

  /** Position `i` of `s` holds a lower-case letter, or a single space before one. */
  predicate WordAt(s: string, i: nat)
    requires i < |s|
  {
    'a' <= s[i] <= 'z' || (s[i] == ' ' && i < |s| - 1 && 'a' <= s[i + 1] <= 'z')
  }

  /** Lower-case words separated by single spaces are well spaced. */
  lemma WordsWellSpaced(s: string)
    requires s != [] && 'a' <= s[0] <= 'z'
    requires forall i :: 0 <= i < |s| ==> WordAt(s, i)
    ensures WellSpaced(s) && !IsSeparator(s[0])
  {
    forall i | 0 <= i < |s| && IsSeparator(s[i])
      ensures s[i] == ' ' && i < |s| - 1 && !IsSeparator(s[i + 1])
    {
      assert WordAt(s, i);
    }
  }

  lemma CanonicalLabelIsPlain(s: ChamadoStatus)
    ensures forall i :: 0 <= i < |CanonicalLabel(s)| ==> 'a' <= CanonicalLabel(s)[i] <= 'z' || CanonicalLabel(s)[i] == ' '
    ensures WellSpaced(CanonicalLabel(s)) && !IsSeparator(CanonicalLabel(s)[0])
  {
    WordsWellSpaced(CanonicalLabel(s));
  }

  lemma NormalizeLabel(s: ChamadoStatus)
    ensures NormalizeBase(Label(s)) == CanonicalLabel(s)
  {
    LowerLabel(s);
    CanonicalLabelIsPlain(s);
    LabelText(Label(s));
  }

  lemma ClassifyCanonicalLabel(s: ChamadoStatus)
    ensures ClassifyChamado(CanonicalLabel(s)) == s
  {
    var n := CanonicalLabel(s);
    match s
    case Aberto => ReadAberto(n);
    case EmAndamento => ReadEmAndamento(n);
    case Concluido => ReadConcluido(n);
    case Cancelado => ReadCancelado(n);
  }

  /** The normaliser reads every stored label back as its own state. */
  lemma ChamadoStatusLabelRoundTrip(s: ChamadoStatus)
    ensures NormalizeChamadoStatus(Label(s)) == s
  {
    NormalizeLabel(s);
    ClassifyCanonicalLabel(s);
  }

  /** `"em_andamento"` normalises like `"em andamento"`. */
  lemma EmAndamentoKeyText(k: string, n: string)
    requires k == "em_andamento" && n == "em andamento"
    ensures NormalizeBase(k) == NormalizeBase(n)
  {
    var a, r1, r2, b := k[..2], k[2..3], n[2..3], k[3..];
    assert k == a + r1 + b;
    assert n == a + r2 + b;
    NormalizeBaseSeparatorRuns(a, r1, r2, b);
  }

  lemma NormalizeKey(s: ChamadoStatus)
    ensures NormalizeBase(Key(s)) == CanonicalLabel(s)
  {
    CanonicalLabelIsPlain(s);
    PlainIsCanonical(CanonicalLabel(s));
    if s == EmAndamento {
      EmAndamentoKeyText(Key(s), CanonicalLabel(s));
    } else {
      assert Key(s) == CanonicalLabel(s);
    }
  }

  /** The normaliser reads every key back as its own state: keys and labels name the same states. */
  lemma ChamadoStatusKeyRoundTrip(s: ChamadoStatus)
    ensures NormalizeChamadoStatus(Key(s)) == s
  {
    NormalizeKey(s);
    ClassifyCanonicalLabel(s);
  }

  /** Writing a state as its key keeps the state: `normalize(chamadoStatusKey(x)) == normalize(x)`. */
  lemma ChamadoStatusKeyPreservesStatus(value: string)
    ensures NormalizeChamadoStatus(ChamadoStatusKey(value)) == NormalizeChamadoStatus(value)
  {
    ChamadoStatusKeyRoundTrip(NormalizeChamadoStatus(value));
  }

  /** The active states are exactly Aberto and Em Andamento. */
  lemma IsStatusAtivoLabels(s: ChamadoStatus)
    ensures IsStatusAtivo(Label(s)) <==> (s == Aberto || s == EmAndamento)
  {
    ChamadoStatusLabelRoundTrip(s);
  }

  /** Empty and unrecognised texts fall back to Aberto. */
  lemma ChamadoStatusFallback(value: string)
    ensures NormalizeChamadoStatus("") == Aberto
    ensures var n := NormalizeBase(value);
      !StartsWith(n, "conclu") && !Contains(n, "andament") && !StartsWith(n, "cancel") ==> NormalizeChamadoStatus(value) == Aberto
  {
    assert NormalizeBase("") == "";
  }

  /** Letter case does not change the state a text denotes. */
  lemma ChamadoStatusIgnoresCase(value: string)
    ensures NormalizeChamadoStatus(Lower(value)) == NormalizeChamadoStatus(value)
  {
    NormalizeBaseIgnoresCase(value);
  }

  /** Any run of separators (`_`, `-`, whitespace) between words reads like any other. */
  lemma ChamadoStatusIgnoresSeparatorRuns(a: string, r1: string, r2: string, b: string)
    requires r1 != [] && AllSeparators(r1) && r2 != [] && AllSeparators(r2)
    ensures NormalizeChamadoStatus(a + r1 + b) == NormalizeChamadoStatus(a + r2 + b)
  {
    NormalizeBaseSeparatorRuns(a, r1, r2, b);
  }

  /** Separators before and after the text do not matter. */
  lemma ChamadoStatusIgnoresEdgeSeparators(w1: string, value: string, w2: string)
    requires AllSeparators(w1) && AllSeparators(w2)
    ensures NormalizeChamadoStatus(w1 + value + w2) == NormalizeChamadoStatus(value)
  {
    NormalizeBaseIgnoresEdgeSeparators(w1, value, w2);
  }

  /** Normalising is idempotent: the label of the state a text denotes denotes the same state. */
  lemma ChamadoStatusIdempotent(value: string)
    ensures NormalizeChamadoStatus(Label(NormalizeChamadoStatus(value))) == NormalizeChamadoStatus(value)
  {
    ChamadoStatusLabelRoundTrip(NormalizeChamadoStatus(value));
  }

  /** A text that is its own fold and squash stays in front of whatever follows it. */
  lemma NormalizeBaseKeepsPrefix(c: string, x: string)
    requires Fold(c) == c && Squash(c, Leading) == c
    ensures StartsWith(NormalizeBase(c + x), c)
  {
    NormalizeBaseIsCanonical(c + x);
    FoldConcat(c, x);
    SquashConcat(c, Fold(x), Leading);
    var n := NormalizeBase(c + x);
    assert n == c + Squash(Fold(x), After(c, Leading));
    assert n[..|c|] == c;
  }

  /** A lower-case ASCII letter folds to itself. */
  lemma LetterFolded(c: char)
    requires 'a' <= c <= 'z'
    ensures Folded(c)
  {
    assert Decompose(c) == [c];
    assert RemoveChars([c], IsDiacritic) == [c];
  }

  /** A word of lower-case ASCII letters is already folded and squashed. */
  lemma LowerWordIsCanonical(w: string)
    requires w != [] && forall i :: 0 <= i < |w| ==> 'a' <= w[i] <= 'z'
    ensures Fold(w) == w && Squash(w, Leading) == w
  {
    forall i | 0 <= i < |w| ensures Folded(w[i]) && WordAt(w, i) {
      LetterFolded(w[i]);
    }
    FoldOfFolded(w);
    WordsWellSpaced(w);
    PlainIsCanonical(w);
    NormalizeBaseIsCanonical(w);
  }

  /**
   * `"conclu"` is matched first: a text that starts with it is Concluido
   * whatever follows, `"andament"` included.
   */
  lemma ChamadoStatusConcluPrecedes(x: string)
    ensures NormalizeChamadoStatus("conclu" + x) == Concluido
  {
    var c := "conclu";
    assert forall i :: 0 <= i < |c| ==> 'a' <= c[i] <= 'z';
    LowerWordIsCanonical(c);
    NormalizeBaseKeepsPrefix(c, x);
  }

  // ---------------------------------------------------------------------
  // Schedule status
  // ---------------------------------------------------------------------

  /** The four schedule states of `AGENDAMENTO_STATUS`. */
  datatype AgendamentoStatus = Agendado | Iniciado | AgConcluido | AgCancelado

  /** The stored spelling of each schedule state. */
  function AgendamentoLabel(s: AgendamentoStatus): string {
    match s
    case Agendado => "agendado"
    case Iniciado => "iniciado"
    case AgConcluido => "concluido"
    case AgCancelado => "cancelado"
  }

  /** The rules of `normalizeAgendamentoStatus`, in order, on an already normalised text. */
  function ClassifyAgendamento(n: string): AgendamentoStatus {
    if StartsWith(n, "conclu") then AgConcluido
    else if StartsWith(n, "inici") then Iniciado
    else if StartsWith(n, "cancel") then AgCancelado
    else if StartsWith(n, "agend") then Agendado
    else Agendado
  }

  /** `normalizeAgendamentoStatus`; anything unrecognised is `agendado`. */
  function NormalizeAgendamentoStatus(value: string): AgendamentoStatus {
    ClassifyAgendamento(NormalizeBase(value))
  }

  lemma AgendamentoLabelIsPlain(s: AgendamentoStatus)
    ensures forall i :: 0 <= i < |AgendamentoLabel(s)| ==> 'a' <= AgendamentoLabel(s)[i] <= 'z'
    ensures WellSpaced(AgendamentoLabel(s)) && !IsSeparator(AgendamentoLabel(s)[0])
  {
    WordsWellSpaced(AgendamentoLabel(s));
  }

  lemma ClassifyAgendamentoLabel(s: AgendamentoStatus)
    ensures ClassifyAgendamento(AgendamentoLabel(s)) == s
  {
    var n := AgendamentoLabel(s);
    match s
    case Agendado =>
      NotStartsWithAt(n, "conclu", 0);
      NotStartsWithAt(n, "inici", 0);
      NotStartsWithAt(n, "cancel", 0);
    case Iniciado =>
      NotStartsWithAt(n, "conclu", 0);
    case AgConcluido =>
    case AgCancelado =>
      NotStartsWithAt(n, "conclu", 1);
      NotStartsWithAt(n, "inici", 0);
  }

  /** The normaliser reads every stored schedule label back as its own state. */
  lemma AgendamentoStatusLabelRoundTrip(s: AgendamentoStatus)
    ensures NormalizeAgendamentoStatus(AgendamentoLabel(s)) == s
  {
    AgendamentoLabelIsPlain(s);
    PlainIsCanonical(AgendamentoLabel(s));
    ClassifyAgendamentoLabel(s);
  }

  /** Empty and unrecognised texts fall back to agendado. */
  lemma AgendamentoStatusFallback(value: string)
    ensures NormalizeAgendamentoStatus("") == Agendado
    ensures var n := NormalizeBase(value);
      !StartsWith(n, "conclu") && !StartsWith(n, "inici") && !StartsWith(n, "cancel") ==> NormalizeAgendamentoStatus(value) == Agendado
  {
    assert NormalizeBase("") == "";
  }

  /** Letter case does not change the schedule state a text denotes. */
  lemma AgendamentoStatusIgnoresCase(value: string)
    ensures NormalizeAgendamentoStatus(Lower(value)) == NormalizeAgendamentoStatus(value)
  {
    NormalizeBaseIgnoresCase(value);
  }

  /** Normalising a schedule status is idempotent. */
  lemma AgendamentoStatusIdempotent(value: string)
    ensures NormalizeAgendamentoStatus(AgendamentoLabel(NormalizeAgendamentoStatus(value))) == NormalizeAgendamentoStatus(value)
  {
    AgendamentoStatusLabelRoundTrip(NormalizeAgendamentoStatus(value));
  }
}
