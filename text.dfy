/**
 * The JavaScript (and PostgreSQL) string built-ins the core relies on:
 * `trim`, the `\s` class, `toLowerCase`/`lower`, `normalize('NFD')`,
 * global regular-expression replacement of character runs, `startsWith`,
 * `includes`, `parseInt(_, 10)` and the decimal form of an integer.
 *
 * Characters are Unicode scalar values. Case mapping and canonical
 * decomposition are modelled on Basic Latin and Latin-1 only (see README).
 */
module Text {
  import opened Wrappers

  // ---------------------------------------------------------------------
  // Whitespace and trimming
  // ---------------------------------------------------------------------

  /** The code points JavaScript's `\s` matches and `trim` removes (WhiteSpace and LineTerminator). */
  predicate IsWhitespace(c: char) {
    || c == '\t' || c == '\n' || c == '\U{B}' || c == '\U{C}' || c == '\r' || c == ' '
    || c == '\U{A0}' || c == '\U{1680}' || ('\U{2000}' <= c <= '\U{200A}')
    || c == '\U{2028}' || c == '\U{2029}' || c == '\U{202F}' || c == '\U{205F}'
    || c == '\U{3000}' || c == '\U{FEFF}'
  }

  predicate AllWhitespace(s: string) {
    forall i :: 0 <= i < |s| ==> IsWhitespace(s[i])
  }

  /** The suffix of `s` left after dropping its leading whitespace. */
  function TrimStart(s: string): (r: string)
    ensures |r| <= |s|
    ensures r == [] || !IsWhitespace(r[0])
  {
    if s != [] && IsWhitespace(s[0]) then TrimStart(s[1..]) else s
  }

  /** What `TrimStart` drops is a whitespace prefix. */
  lemma {:induction false} TrimStartShape(s: string)
    ensures var r := TrimStart(s); r == s[|s| - |r|..] && AllWhitespace(s[..|s| - |r|])
  {
    if s != [] && IsWhitespace(s[0]) {
      TrimStartShape(s[1..]);
    }
  }

  /** The prefix of `s` left after dropping its trailing whitespace. */
  function TrimEnd(s: string): (r: string)
    ensures |r| <= |s|
    ensures r == [] || !IsWhitespace(r[|r| - 1])
  {
    if s != [] && IsWhitespace(s[|s| - 1]) then TrimEnd(s[..|s| - 1]) else s
  }

  /** What `TrimEnd` drops is a whitespace suffix. */
  lemma {:induction false} TrimEndShape(s: string)
    ensures var r := TrimEnd(s); r == s[..|r|] && AllWhitespace(s[|r|..])
  {
    if s != [] && IsWhitespace(s[|s| - 1]) {
      TrimEndShape(s[..|s| - 1]);
    }
  }

  /** Text with no whitespace at either end, which is what `trim` leaves. */
  predicate Trimmed(s: string) {
    s == [] || (!IsWhitespace(s[0]) && !IsWhitespace(s[|s| - 1]))
  }

  /** `String.prototype.trim`. */
  function Trim(s: string): (r: string)
    ensures Trimmed(r)
    ensures |r| <= |s|
  {
    TrimEndShape(TrimStart(s));
    TrimEnd(TrimStart(s))
  }

  lemma {:induction false} TrimStartOfWhitespacePrefix(w: string, s: string)
    requires AllWhitespace(w)
    ensures TrimStart(w + s) == TrimStart(s)
  {
    if w != [] {
      assert (w + s)[1..] == w[1..] + s;
      TrimStartOfWhitespacePrefix(w[1..], s);
    } else {
      assert w + s == s;
    }
  }

  lemma {:induction false} TrimEndOfWhitespaceSuffix(s: string, w: string)
    requires AllWhitespace(w)
    ensures TrimEnd(s + w) == TrimEnd(s)
  {
    if w != [] {
      var w' := w[..|w| - 1];
      assert (s + w)[..|s + w| - 1] == s + w';
      TrimEndOfWhitespaceSuffix(s, w');
    } else {
      assert s + w == s;
    }
  }

  lemma TrimStartKeepsNonWhitespaceStart(s: string)
    requires s == [] || !IsWhitespace(s[0])
    ensures TrimStart(s) == s
  {
  }

  /** Trimming ignores whitespace around the text: `" x ".trim() == "x".trim()`. */
  lemma TrimIgnoresSurroundingWhitespace(w1: string, s: string, w2: string)
    requires AllWhitespace(w1) && AllWhitespace(w2)
    ensures Trim(w1 + s + w2) == Trim(s)
  {
    TrimStartOfWhitespacePrefix(w1, s + w2);
    assert w1 + s + w2 == w1 + (s + w2);
    var t := TrimStart(s);
    TrimStartShape(s);
    // TrimStart(s + w2) is t + w2 when s holds a non-whitespace character, otherwise a suffix of w2
    if |t| == 0 {
      assert AllWhitespace(s);
      AllWhitespaceConcat(s, w2);
      TrimStartOfWhitespacePrefix(s + w2, []);
      assert s + w2 + [] == s + w2;
      assert TrimStart(s + w2) == TrimStart([]) == [];
    } else {
      var k := |s| - |t|;
      assert s == s[..k] + t;
      assert s + w2 == s[..k] + (t + w2);
      TrimStartOfWhitespacePrefix(s[..k], t + w2);
      TrimStartKeepsNonWhitespaceStart(t + w2);
      TrimEndOfWhitespaceSuffix(t, w2);
    }
  }

  /** Text with no whitespace at either end is left as it is. */
  lemma TrimOfTrimmed(s: string)
    requires Trimmed(s)
    ensures Trim(s) == s
  {
    TrimStartKeepsNonWhitespaceStart(s);
  }

  /** Trimming twice is trimming once. */
  lemma TrimIdempotent(s: string)
    ensures Trim(Trim(s)) == Trim(s)
  {
    TrimOfTrimmed(Trim(s));
  }

  lemma AllWhitespaceConcat(a: string, b: string)
    requires AllWhitespace(a) && AllWhitespace(b)
    ensures AllWhitespace(a + b)
  {
  }

  // ---------------------------------------------------------------------
  // Character-wise maps and filters
  // ---------------------------------------------------------------------

  /** `s` with `f` applied to every character, in order. */
  function MapChars(s: string, f: char -> char): (r: string)
    ensures |r| == |s|
    ensures forall i :: 0 <= i < |s| ==> r[i] == f(s[i])
  {
    if s == [] then [] else [f(s[0])] + MapChars(s[1..], f)
  }

  /** `s` without the characters `drop` selects (a global replace by ""). */
  function RemoveChars(s: string, drop: char -> bool): (r: string)
    ensures |r| <= |s|
    ensures forall i :: 0 <= i < |r| ==> !drop(r[i]) && r[i] in s
  {
    if s == [] then []
    else if drop(s[0]) then RemoveChars(s[1..], drop)
    else [s[0]] + RemoveChars(s[1..], drop)
  }

  lemma {:induction false} RemoveCharsConcat(a: string, b: string, drop: char -> bool)
    ensures RemoveChars(a + b, drop) == RemoveChars(a, drop) + RemoveChars(b, drop)
  {
    if a != [] {
      assert (a + b)[0] == a[0] && (a + b)[1..] == a[1..] + b;
      RemoveCharsConcat(a[1..], b, drop);
      if !drop(a[0]) {
        var x, y := RemoveChars(a[1..], drop), RemoveChars(b, drop);
        assert [a[0]] + (x + y) == ([a[0]] + x) + y;
      }
    } else {
      assert a + b == b;
    }
  }

  /** A string none of whose characters `drop` selects is left as it is. */
  lemma {:induction false} RemoveCharsKeeps(s: string, drop: char -> bool)
    requires forall i :: 0 <= i < |s| ==> !drop(s[i])
    ensures RemoveChars(s, drop) == s
  {
    if s != [] {
      RemoveCharsKeeps(s[1..], drop);
    }
  }

  // ---------------------------------------------------------------------
  // Case mapping
  // ---------------------------------------------------------------------

  /** `toLowerCase` on one character: ASCII and Latin-1 capitals map to their small letters. */
  function LowerChar(c: char): (d: char)
    ensures d == c || ('A' <= c <= 'Z' && d == (c as int + 32) as char)
                   || ('\U{C0}' <= c <= '\U{DE}' && c != '\U{D7}' && d == (c as int + 32) as char)
  {
    if 'A' <= c <= 'Z' || ('\U{C0}' <= c <= '\U{DE}' && c != '\U{D7}') then (c as int + 32) as char else c
  }

  /** `String.prototype.toLowerCase` (and PostgreSQL `lower`). */
  function Lower(s: string): (r: string)
    ensures |r| == |s| && forall i :: 0 <= i < |s| ==> r[i] == LowerChar(s[i])
  {
    MapChars(s, LowerChar)
  }

  lemma LowerCharIdempotent(c: char)
    ensures LowerChar(LowerChar(c)) == LowerChar(c)
  {
  }

  /** Lower-casing twice is lower-casing once. */
  lemma LowerIdempotent(s: string)
    ensures Lower(Lower(s)) == Lower(s)
  {
    forall i | 0 <= i < |s| ensures Lower(Lower(s))[i] == Lower(s)[i] {
      LowerCharIdempotent(s[i]);
    }
  }

  lemma LowerConcat(a: string, b: string)
    ensures Lower(a + b) == Lower(a) + Lower(b)
  {
    assert forall i :: 0 <= i < |a + b| ==> Lower(a + b)[i] == (Lower(a) + Lower(b))[i];
  }

  /** Lower-casing neither makes nor removes whitespace. */
  lemma LowerCharKeepsWhitespace(c: char)
    ensures IsWhitespace(LowerChar(c)) <==> IsWhitespace(c)
  {
  }

  lemma {:induction false} TrimStartLower(s: string)
    ensures TrimStart(Lower(s)) == Lower(TrimStart(s))
  {
    if s != [] {
      LowerCharKeepsWhitespace(s[0]);
      assert Lower(s)[1..] == Lower(s[1..]);
      if IsWhitespace(s[0]) {
        TrimStartLower(s[1..]);
      }
    }
  }

  lemma {:induction false} TrimEndLower(s: string)
    ensures TrimEnd(Lower(s)) == Lower(TrimEnd(s))
  {
    if s != [] {
      var init := s[..|s| - 1];
      LowerCharKeepsWhitespace(s[|s| - 1]);
      assert Lower(s)[..|s| - 1] == Lower(init);
      if IsWhitespace(s[|s| - 1]) {
        TrimEndLower(init);
      }
    }
  }

  /** Trimming and lower-casing commute: `s.toLowerCase().trim() == s.trim().toLowerCase()`. */
  lemma TrimLower(s: string)
    ensures Trim(Lower(s)) == Lower(Trim(s))
  {
    TrimStartLower(s);
    TrimEndLower(TrimStart(s));
  }

  // ---------------------------------------------------------------------
  // Canonical decomposition (NFD) of precomposed Latin-1 letters
  // ---------------------------------------------------------------------

  const GRAVE: char := '\U{300}'
  const ACUTE: char := '\U{301}'
  const CIRCUMFLEX: char := '\U{302}'
  const TILDE: char := '\U{303}'
  const DIAERESIS: char := '\U{308}'
  const RING: char := '\U{30A}'
  const CEDILLA: char := '\U{327}'

  /** A code point of the Combining Diacritical Marks block, U+0300..U+036F. */
  predicate IsCombiningMark(c: char) {
    '\U{300}' <= c <= '\U{36F}'
  }

  /**
   * The NFD parts of the Latin-1 letter at offset `k` from U+00C0 (capitals)
   * or U+00E0 (small letters): its capital base letter and its combining mark.
   */
  function LatinParts(k: int, small: bool): (r: Option<(char, char)>)
    ensures r.Some? ==> 'A' <= r.value.0 <= 'Z' && '\U{300}' <= r.value.1 <= '\U{327}'
  {
    if 0 <= k <= 5 then Some(('A', [GRAVE, ACUTE, CIRCUMFLEX, TILDE, DIAERESIS, RING][k]))
    else if k == 7 then Some(('C', CEDILLA))
    else if 8 <= k <= 11 then Some(('E', [GRAVE, ACUTE, CIRCUMFLEX, DIAERESIS][k - 8]))
    else if 12 <= k <= 15 then Some(('I', [GRAVE, ACUTE, CIRCUMFLEX, DIAERESIS][k - 12]))
    else if k == 17 then Some(('N', TILDE))
    else if 18 <= k <= 22 then Some(('O', [GRAVE, ACUTE, CIRCUMFLEX, TILDE, DIAERESIS][k - 18]))
    else if 25 <= k <= 28 then Some(('U', [GRAVE, ACUTE, CIRCUMFLEX, DIAERESIS][k - 25]))
    else if k == 29 then Some(('Y', ACUTE))
    else if k == 31 && small then Some(('Y', DIAERESIS))
    else None
  }

  /** The canonical decomposition of `c`: a precomposed Latin-1 letter splits into base and mark. */
  function Decompose(c: char): (r: seq<char>)
    ensures |r| == 1 || |r| == 2
    ensures |r| == 1 ==> r[0] == c
    ensures |r| == 2 ==> ('A' <= r[0] <= 'Z' || 'a' <= r[0] <= 'z') && IsCombiningMark(r[1])
                         && '\U{C0}' <= c <= '\U{FF}'
  {
    if '\U{C0}' <= c <= '\U{FF}' then
      var small := '\U{E0}' <= c;
      var k := c as int - (if small then 0xE0 else 0xC0);
      match LatinParts(k, small)
      case None => [c]
      case Some(p) => [if small then (p.0 as int + 32) as char else p.0, p.1]
    else [c]
  }

  /** `String.prototype.normalize('NFD')`. */
  function Nfd(s: string): string {
    if s == [] then [] else Decompose(s[0]) + Nfd(s[1..])
  }

  lemma {:induction false} NfdConcat(a: string, b: string)
    ensures Nfd(a + b) == Nfd(a) + Nfd(b)
  {
    if a != [] {
      assert (a + b)[1..] == a[1..] + b;
      NfdConcat(a[1..], b);
    } else {
      assert a + b == b;
    }
  }

  // ---------------------------------------------------------------------
  // Regular-expression replacement of character runs
  // ---------------------------------------------------------------------

  /**
   * `s.replace(/[class]+/g, rep)`: every maximal run of characters of the class
   * becomes one `rep`. `inRun` says that the character before `s` was of the
   * class and its run has already been replaced.
   */
  function ReplaceRuns(s: string, inClass: char -> bool, rep: char, inRun: bool): string {
    if s == [] then []
    else if inClass(s[0]) then (if inRun then [] else [rep]) + ReplaceRuns(s[1..], inClass, rep, true)
    else [s[0]] + ReplaceRuns(s[1..], inClass, rep, false)
  }

  /** After the replacement only the replacement character is left of the class. */
  lemma {:induction false} ReplaceRunsChars(s: string, inClass: char -> bool, rep: char, inRun: bool)
    ensures forall i :: 0 <= i < |ReplaceRuns(s, inClass, rep, inRun)| ==>
      var c := ReplaceRuns(s, inClass, rep, inRun)[i]; c == rep || (!inClass(c) && c in s)
  {
    if s != [] {
      if inClass(s[0]) {
        ReplaceRunsChars(s[1..], inClass, rep, true);
      } else {
        ReplaceRunsChars(s[1..], inClass, rep, false);
      }
    }
  }

  // ---------------------------------------------------------------------
  // Searching
  // ---------------------------------------------------------------------

  /** `s.startsWith(p)`. */
  predicate StartsWith(s: string, p: string) {
    |p| <= |s| && s[..|p|] == p
  }

  /** `s.includes(p)`. */
  predicate Contains(s: string, p: string) {
    StartsWith(s, p) || (s != [] && Contains(s[1..], p))
  }

  /** An occurrence at `i` makes `includes` true. */
  lemma {:induction false} ContainsAt(s: string, p: string, i: nat)
    requires i + |p| <= |s| && s[i..i + |p|] == p
    ensures Contains(s, p)
  {
    if i > 0 {
      assert s[1..][i - 1..i - 1 + |p|] == s[i..i + |p|];
      ContainsAt(s[1..], p, i - 1);
    } else {
      assert s[..|p|] == s[0..|p|];
    }
  }

  /** The position of the first `c` in `s`. */
  function IndexOf(s: string, c: char): (i: nat)
    requires c in s
    ensures i < |s| && s[i] == c && c !in s[..i]
  {
    if s[0] == c then 0
    else
      assert c in s[1..];
      var j := IndexOf(s[1..], c);
      assert s[..j + 1] == [s[0]] + s[1..][..j];
      j + 1
  }

  /** `s.split(sep)` for a one-character separator: the pieces between the separators. */
  function Split(s: string, sep: char): (r: seq<string>)
    ensures |r| >= 1 && forall k :: 0 <= k < |r| ==> sep !in r[k]
    decreases |s|
  {
    if sep !in s then [s]
    else
      var i := IndexOf(s, sep);
      [s[..i]] + Split(s[i + 1..], sep)
  }

  /** `parts.join(sep)`. */
  function JoinWith(parts: seq<string>, sep: char): string
    requires |parts| >= 1
  {
    if |parts| == 1 then parts[0] else parts[0] + [sep] + JoinWith(parts[1..], sep)
  }

  /** Splitting loses nothing: joining the pieces back gives the text. */
  lemma {:induction false} JoinSplit(s: string, sep: char)
    ensures JoinWith(Split(s, sep), sep) == s
    decreases |s|
  {
    if sep in s {
      var i := IndexOf(s, sep);
      var rest := Split(s[i + 1..], sep);
      assert Split(s, sep) == [s[..i]] + rest;
      JoinCons(s[..i], rest, sep);
      JoinSplit(s[i + 1..], sep);
      assert s == s[..i] + [sep] + s[i + 1..];
    }
  }

  /** Joining one more piece in front. */
  lemma JoinCons(p: string, rest: seq<string>, sep: char)
    requires |rest| >= 1
    ensures JoinWith([p] + rest, sep) == p + [sep] + JoinWith(rest, sep)
  {
    assert ([p] + rest)[0] == p && ([p] + rest)[1..] == rest;
  }

  /** A carriage return before the line break is trimmed away with the rest of the whitespace. */
  lemma TrimDropsCarriageReturn(x: string)
    ensures Trim(x + "\r") == Trim(x)
  {
    assert AllWhitespace("") && AllWhitespace("\r");
    TrimIgnoresSurroundingWhitespace("", x, "\r");
    assert "" + x + "\r" == x + "\r";
  }

  // ---------------------------------------------------------------------
  // Decimal numbers
  // ---------------------------------------------------------------------

  predicate IsDigit(c: char) {
    '0' <= c <= '9'
  }

  /** The longest prefix of `s` made of ASCII digits. */
  function DigitPrefix(s: string): (r: string)
    ensures StartsWith(s, r) && forall i :: 0 <= i < |r| ==> IsDigit(r[i])
    ensures |r| == |s| || !IsDigit(s[|r|])
  {
    if s != [] && IsDigit(s[0]) then [s[0]] + DigitPrefix(s[1..]) else []
  }

  /** The number a string of ASCII digits denotes. */
  function DigitsValue(d: string): nat
    requires forall i :: 0 <= i < |d| ==> IsDigit(d[i])
  {
    if d == [] then 0 else DigitsValue(d[..|d| - 1]) * 10 + DigitValue(d[|d| - 1])
  }

  function DigitValue(c: char): (v: nat)
    requires IsDigit(c)
    ensures v < 10
  {
    c as int - '0' as int
  }

  /**
   * `parseInt(s, 10)`: leading whitespace, an optional sign, then the longest run
   * of digits; `None` stands for NaN (no digit).
   */
  function ParseInt(s: string): Option<int> {
    var t := TrimStart(s);
    var negative := t != [] && t[0] == '-';
    var u := if t != [] && (t[0] == '-' || t[0] == '+') then t[1..] else t;
    var d := DigitPrefix(u);
    var v: int := DigitsValue(d);
    if d == [] then None else Some(if negative then -v else v)
  }

  /** The value of a nonempty all-digit text. */
  function DecimalValue(s: string): Option<nat> {
    if s != [] && forall i :: 0 <= i < |s| ==> IsDigit(s[i]) then Some(DigitsValue(s)) else None
  }

  /** The decimal form of `n`, as `String(n)` writes it. */
  function NatToString(n: nat): (r: string)
    ensures r != [] && forall i :: 0 <= i < |r| ==> IsDigit(r[i])
  {
    if n < 10 then [('0' as int + n) as char] else NatToString(n / 10) + [('0' as int + n % 10) as char]
  }

  /** `String(n)` is read back by `parseInt`: the two are inverse on naturals. */
  lemma {:induction false} DecimalRoundTrip(n: nat)
    ensures DecimalValue(NatToString(n)) == Some(n)
  {
    var r := NatToString(n);
    if n >= 10 {
      DecimalRoundTrip(n / 10);
      assert r[..|r| - 1] == NatToString(n / 10);
      assert DigitValue(r[|r| - 1]) == n % 10;
      assert DigitsValue(r) == DigitsValue(NatToString(n / 10)) * 10 + n % 10;
    } else {
      assert DigitsValue(r) == DigitsValue(r[..0]) * 10 + DigitValue(r[0]);
    }
  }

  lemma {:induction false} DigitPrefixOfDigits(s: string)
    requires forall i :: 0 <= i < |s| ==> IsDigit(s[i])
    ensures DigitPrefix(s) == s
  {
    if s != [] {
      DigitPrefixOfDigits(s[1..]);
      assert s == [s[0]] + s[1..];
    }
  }

  /** `parseInt(String(n), 10) == n` on naturals. */
  lemma ParseIntOfDecimal(n: nat)
    ensures ParseInt(NatToString(n)) == Some(n)
  {
    var r := NatToString(n);
    TrimStartKeepsNonWhitespaceStart(r);
    DigitPrefixOfDigits(r);
    DecimalRoundTrip(n);
  }

  /** The digits that remain after `regexp_replace(s, '[^0-9]', '', 'g')`. */
  function DigitsOnly(s: string): (r: string)
    ensures forall i :: 0 <= i < |r| ==> IsDigit(r[i])
  {
    RemoveChars(s, NotDigit)
  }

  predicate NotDigit(c: char) {
    !IsDigit(c)
  }

  /** Keeping the digits of two texts one after the other. */
  lemma DigitsOnlyConcat(a: string, b: string)
    ensures DigitsOnly(a + b) == DigitsOnly(a) + DigitsOnly(b)
  {
    RemoveCharsConcat(a, b, NotDigit);
  }

  /** A text without digits keeps none. */
  lemma {:induction false} DigitsOnlyOfNoDigits(s: string)
    requires forall i :: 0 <= i < |s| ==> !IsDigit(s[i])
    ensures DigitsOnly(s) == []
  {
    if s != [] {
      DigitsOnlyOfNoDigits(s[1..]);
    }
  }
}
