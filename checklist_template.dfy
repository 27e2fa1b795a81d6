/**
 * The checklist template of a preventive schedule entry
 * (`toChecklistItem` and `normalizeChecklist` in
 * apps/api/src/routes/agendamentos.ts): whatever the client sent — an
 * array of strings or of `{ texto, key }` objects, a JSON text of such an
 * array, or plain text with one item per line — becomes a list of items,
 * each a non-empty trimmed text and a slug key.
 */
module ChecklistTemplate {
  import opened Wrappers
  import opened Text
  import opened Js
  import opened Slug

  /** `{ texto, key }`. */
  datatype TemplateItem = TemplateItem(texto: string, key: string)

  /** A stored item: its text is trimmed and not empty, its key is a slug. */
  predicate WellFormed(it: TemplateItem) {
    it.texto != [] && Trimmed(it.texto) && IsSlug(it.key)
  }

  /** `String(candidate?.texto ?? value ?? '').trim()`. */
  function ItemText(value: Value): (t: string)
    ensures Trimmed(t)
  {
    Trim(ToStr(Coalesce(Coalesce(Get(value, "texto"), value), Str(""))))
  }

  /**
   * `toChecklistItem`: an item with no text is dropped; the key is the slug of
   * `key` when that is truthy, of the text otherwise. (The `String(index)`
   * fallback is never reached: the text is not empty there.)
   */
  function ToChecklistItem(value: Value): (r: Option<TemplateItem>)
    ensures r.Some? <==> ItemText(value) != []
    ensures r.Some? ==> WellFormed(r.value) && r.value.texto == ItemText(value)
    ensures r.Some? && !Truthy(Get(value, "key")) ==> r.value.key == Slugify(r.value.texto)
    ensures r.Some? && Truthy(Get(value, "key")) ==> r.value.key == Slugify(ToStr(Get(value, "key")))
  {
    var texto := ItemText(value);
    if texto == [] then None
    else
      var keySource := Coalesce(Get(value, "key"), Null);
      var key := if Truthy(keySource) then Slugify(ToStr(keySource)) else Slugify(texto);
      Some(TemplateItem(texto, key))
  }

  /** `xs.map(f).filter(Boolean)`, with `None` for the falsy results. */
  function FilterMap<A, B>(xs: seq<A>, f: A -> Option<B>): (r: seq<B>)
    ensures |r| <= |xs|
  {
    if xs == [] then []
    else
      var rest := FilterMap(xs[1..], f);
      match f(xs[0])
      case None => rest
      case Some(y) => [y] + rest
  }

  /** Every result comes from some entry. */
  lemma {:induction false} FilterMapFrom<A, B>(xs: seq<A>, f: A -> Option<B>)
    ensures forall k :: 0 <= k < |FilterMap(xs, f)| ==> exists j :: 0 <= j < |xs| && f(xs[j]) == Some(FilterMap(xs, f)[k])
  {
    if xs != [] {
      var rest := xs[1..];
      FilterMapFrom(rest, f);
      var r, rr := FilterMap(xs, f), FilterMap(rest, f);
      forall k | 0 <= k < |r|
        ensures exists j :: 0 <= j < |xs| && f(xs[j]) == Some(r[k])
      {
        if f(xs[0]).Some? && k == 0 {
          assert r == [f(xs[0]).value] + rr;
          assert f(xs[0]) == Some(r[0]);
        } else {
          var k' := if f(xs[0]).Some? then k - 1 else k;
          assert r == if f(xs[0]).Some? then [f(xs[0]).value] + rr else rr;
          assert r[k] == rr[k'];
          var j :| 0 <= j < |rest| && f(rest[j]) == Some(rr[k']);
          assert xs[j + 1] == rest[j];
          assert f(xs[j + 1]) == Some(r[k]);
        }
      }
      assert r == FilterMap(xs, f);
    } else {
      assert FilterMap(xs, f) == [];
    }
  }

  /** Mapping and filtering keep the order: the results of a concatenation are those of its parts, in turn. */
  lemma {:induction false} FilterMapConcat<A, B>(a: seq<A>, b: seq<A>, f: A -> Option<B>)
    ensures FilterMap(a + b, f) == FilterMap(a, f) + FilterMap(b, f)
  {
    if a != [] {
      assert (a + b)[1..] == a[1..] + b;
      FilterMapConcat(a[1..], b, f);
    } else {
      assert a + b == b;
    }
  }

  /** When no entry is dropped, the results are the entries' results index by index. */
  lemma {:induction false} FilterMapKeepsAll<A, B>(xs: seq<A>, f: A -> Option<B>)
    requires forall k :: 0 <= k < |xs| ==> f(xs[k]).Some?
    ensures |FilterMap(xs, f)| == |xs|
    ensures forall k :: 0 <= k < |xs| ==> Some(FilterMap(xs, f)[k]) == f(xs[k])
  {
    if xs != [] {
      var rest := xs[1..];
      FilterMapKeepsAll(rest, f);
      var r, rr := FilterMap(xs, f), FilterMap(rest, f);
      assert r == [f(xs[0]).value] + rr;
      forall k | 1 <= k < |xs|
        ensures Some(r[k]) == f(xs[k])
      {
        assert rest[k - 1] == xs[k];
        assert r[k] == rr[k - 1];
      }
    }
  }

  /** `raw.map(toChecklistItem).filter(Boolean)`. */
  function NormalizeArray(xs: seq<Value>): (r: seq<TemplateItem>)
    ensures |r| <= |xs|
    ensures forall k :: 0 <= k < |r| ==> WellFormed(r[k])
  {
    FilterMapFrom(xs, ToChecklistItem);
    FilterMap(xs, ToChecklistItem)
  }

  /** Reading an array keeps the order of its entries. */
  lemma NormalizeArrayConcat(a: seq<Value>, b: seq<Value>)
    ensures NormalizeArray(a + b) == NormalizeArray(a) + NormalizeArray(b)
  {
    FilterMapConcat(a, b, ToChecklistItem);
  }

  /** When every entry has a text, nothing is dropped and each item comes from the entry at its index. */
  lemma NormalizeArrayKeepsAll(xs: seq<Value>)
    requires forall k :: 0 <= k < |xs| ==> ItemText(xs[k]) != []
    ensures |NormalizeArray(xs)| == |xs|
    ensures forall k :: 0 <= k < |xs| ==> Some(NormalizeArray(xs)[k]) == ToChecklistItem(xs[k])
  {
    FilterMapKeepsAll(xs, ToChecklistItem);
  }

  /** A piece of text as a line: trimmed, or dropped when blank. */
  function Line(piece: string): (r: Option<string>)
    ensures r.Some? ==> r.value != [] && Trimmed(r.value)
  {
    var line := Trim(piece);
    if line == [] then None else Some(line)
  }

  /** The lines of a text: split at line breaks, trimmed, the empty ones dropped. */
  function TextLines(pieces: seq<string>): (r: seq<string>)
    ensures |r| <= |pieces|
    ensures forall k :: 0 <= k < |r| ==> r[k] != [] && Trimmed(r[k])
  {
    FilterMapFrom(pieces, Line);
    FilterMap(pieces, Line)
  }

  /** The lines as JSON strings. */
  function StrValues(lines: seq<string>): (r: seq<Value>)
    ensures |r| == |lines| && forall k :: 0 <= k < |r| ==> r[k] == Str(lines[k])
  {
    seq(|lines|, k requires 0 <= k < |lines| => Str(lines[k]))
  }

  /** A line that is already trimmed and not empty becomes an item with its own text, keyed by its slug. */
  lemma ItemOfLine(line: string)
    requires line != [] && Trimmed(line)
    ensures ToChecklistItem(Str(line)) == Some(TemplateItem(line, Slugify(line)))
  {
    var v := Str(line);
    assert Get(v, "texto") == Undefined && Get(v, "key") == Undefined;
    assert Coalesce(Coalesce(Get(v, "texto"), v), Str("")) == v;
    TrimOfTrimmed(line);
    assert ItemText(v) == line;
    assert Coalesce(Get(v, "key"), Null) == Null;
  }

  /**
   * `normalizeChecklist(raw)`, with `parse` for `JSON.parse` (`None` when it
   * throws): an array is read item by item; a text that parses as an array
   * is read as that array, any other text line by line (a `\r` before each
   * line break is trimmed away, see `TrimDropsCarriageReturn`); anything
   * else gives no items.
   */
  function NormalizeChecklist(raw: Value, parse: string -> Option<Value>): (r: seq<TemplateItem>)
    ensures raw.Arr? ==> r == NormalizeArray(raw.items)
    ensures raw.Str? && parse(raw.s).Some? && parse(raw.s).value.Arr? ==> r == NormalizeArray(parse(raw.s).value.items)
    ensures !raw.Arr? && !raw.Str? ==> r == []
    ensures forall k :: 0 <= k < |r| ==> WellFormed(r[k])
  {
    match raw
    case Arr(xs) => NormalizeArray(xs)
    case Str(s) =>
      var parsed := parse(s);
      if parsed.Some? && parsed.value.Arr? then NormalizeArray(parsed.value.items)
      else NormalizeArray(StrValues(TextLines(Split(s, '\n'))))
    case _ => []
  }

  /** A text that is not a JSON array gives one item per non-blank line, in order, keyed by the line's slug. */
  lemma NormalizeChecklistOfLines(s: string, parse: string -> Option<Value>)
    requires parse(s).None? || !parse(s).value.Arr?
    ensures var lines := TextLines(Split(s, '\n'));
      var r := NormalizeChecklist(Str(s), parse);
      |r| == |lines| && forall k :: 0 <= k < |r| ==> r[k] == TemplateItem(lines[k], Slugify(lines[k]))
  {
    var lines := TextLines(Split(s, '\n'));
    var vs := StrValues(lines);
    forall k | 0 <= k < |vs|
      ensures ItemText(vs[k]) != []
    {
      ItemOfLine(lines[k]);
    }
    NormalizeArrayKeepsAll(vs);
    forall k | 0 <= k < |vs|
      ensures NormalizeArray(vs)[k] == TemplateItem(lines[k], Slugify(lines[k]))
    {
      ItemOfLine(lines[k]);
    }
  }

  /** How an item is stored (`JSON.stringify` of `{ texto, key }`). */
  function ItemJson(it: TemplateItem): Value {
    Obj([("texto", Str(it.texto)), ("key", Str(it.key))])
  }

  /** How a list of items is stored in `itens_checklist`. */
  function TemplateJson(items: seq<TemplateItem>): (v: Value)
    ensures v.Arr? && |v.items| == |items| && forall k :: 0 <= k < |items| ==> v.items[k] == ItemJson(items[k])
  {
    Arr(seq(|items|, k requires 0 <= k < |items| => ItemJson(items[k])))
  }

  /**
   * A stored item reads back as itself, provided its key is not empty or is
   * the slug of its text: an empty key is falsy and is replaced by the slug of
   * the text when the template is read again.
   */
  lemma ItemJsonRoundTrip(it: TemplateItem)
    requires WellFormed(it) && (it.key != [] || it.key == Slugify(it.texto))
    ensures ToChecklistItem(ItemJson(it)) == Some(it)
  {
    var v := ItemJson(it);
    ItemJsonFields(it);
    TrimOfTrimmed(it.texto);
    assert ItemText(v) == it.texto;
    var r := ToChecklistItem(v);
    if it.key != [] {
      assert Truthy(Get(v, "key")) && ToStr(Get(v, "key")) == it.key;
      SlugOfSlugKey(it.key);
    } else {
      assert !Truthy(Get(v, "key"));
    }
    assert r.value.key == it.key;
  }

  /** The two properties of a stored item read back as written. */
  lemma ItemJsonFields(it: TemplateItem)
    ensures Get(ItemJson(it), "texto") == Str(it.texto) && Get(ItemJson(it), "key") == Str(it.key)
  {
    LookupCons("texto", Str(it.texto), [("key", Str(it.key))], "texto");
    LookupCons("texto", Str(it.texto), [("key", Str(it.key))], "key");
    LookupCons("key", Str(it.key), [], "key");
    assert "texto" != "key";
  }

  /** A slug is its own slug. */
  lemma SlugOfSlugKey(k: string)
    requires IsSlug(k)
    ensures Slugify(k) == k
  {
    SlugOfSlug(k, OneEdge);
  }

  /** A stored template whose keys are all kept reads back unchanged. */
  lemma {:induction false} StoredTemplateRoundTrip(items: seq<TemplateItem>, parse: string -> Option<Value>)
    requires forall k :: 0 <= k < |items| ==> WellFormed(items[k]) && (items[k].key != [] || items[k].key == Slugify(items[k].texto))
    ensures NormalizeChecklist(TemplateJson(items), parse) == items
  {
    var vs := TemplateJson(items).items;
    forall k | 0 <= k < |vs|
      ensures ItemText(vs[k]) != [] && ToChecklistItem(vs[k]) == Some(items[k])
    {
      ItemJsonRoundTrip(items[k]);
    }
    NormalizeArrayKeepsAll(vs);
  }
}
