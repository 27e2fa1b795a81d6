/**
 * The request-body schemas shared by the web client and the API
 * (packages/shared/src/schemas/chamados.ts), as the zod library applies
 * them: a schema either rejects the value or returns it transformed
 * (trimmed strings, normalised checklist answers), and object schemas drop
 * the properties they do not name.
 */
module Schemas {
  import opened Wrappers
  import opened Text
  import opened Js
  import Status

  /** What one optional property's schema makes of a value: a rejection, no value, or the transformed value. */
  datatype Field<+T> = Invalid | Absent | Present(value: T)

  /** The property's value for the parsed object: `undefined` when absent. */
  function FieldValue<T>(f: Field<T>): Option<T>
    requires !f.Invalid?
  {
    if f.Present? then Some(f.value) else None
  }

  // ---------------------------------------------------------------------
  // Status enums
  // ---------------------------------------------------------------------

  /** `ChamadoStatus`. */
  const ChamadoStatusValues: seq<string> := ["Aberto", "Em Andamento", "Concluido", "Cancelado"]

  /** `ChamadoStatusKey`. */
  const ChamadoStatusKeyValues: seq<string> := ["aberto", "em_andamento", "concluido", "cancelado"]

  /** The shared enums list exactly the API's stored labels and keys, in the same order. */
  lemma StatusEnumsMatchApi()
    ensures |ChamadoStatusValues| == 4 && |ChamadoStatusKeyValues| == 4
    ensures ChamadoStatusValues == [Status.Label(Status.Aberto), Status.Label(Status.EmAndamento), Status.Label(Status.Concluido), Status.Label(Status.Cancelado)]
    ensures ChamadoStatusKeyValues == [Status.Key(Status.Aberto), Status.Key(Status.EmAndamento), Status.Key(Status.Concluido), Status.Key(Status.Cancelado)]
    ensures forall s: Status.ChamadoStatus :: Status.Label(s) in ChamadoStatusValues && Status.Key(s) in ChamadoStatusKeyValues
  {
  }

  // ---------------------------------------------------------------------
  // Primitive schemas
  // ---------------------------------------------------------------------

  /** `z.string().trim().optional()`; like zod's `optional`, it does not accept `null`. */
  function OptionalTrimmed(v: Value): (f: Field<string>)
    ensures f.Present? ==> v.Str? && f.value == Trim(v.s)
    ensures f.Absent? <==> v.Undefined?
    ensures f.Invalid? <==> !v.Undefined? && !v.Str?
  {
    match v
    case Undefined => Absent
    case Str(s) => Present(Trim(s))
    case _ => Invalid
  }

  /** A string property that is missing or empty once trimmed, which the two preprocessed schemas treat as absent. */
  predicate Blank(v: Value) {
    v.Undefined? || (v.Str? && Trim(v.s) == [])
  }

  /** `optionalNonEmptyString`: a blank string counts as absent; otherwise a string, kept trimmed. */
  function OptionalNonEmptyString(v: Value): (f: Field<string>)
    ensures f.Absent? <==> Blank(v)
    ensures f.Present? <==> v.Str? && Trim(v.s) != []
    ensures f.Present? ==> f.value == Trim(v.s) && f.value != []
  {
    if Blank(v) then Absent
    else if v.Str? then Present(Trim(v.s))
    else Invalid
  }

  /** `optionalEmail`: a blank string counts as absent; otherwise an e-mail address, taken as written. */
  function OptionalEmail(v: Value, isEmail: string -> bool): (f: Field<string>)
    ensures f.Absent? <==> Blank(v)
    ensures f.Present? <==> v.Str? && Trim(v.s) != [] && isEmail(v.s)
    ensures f.Present? ==> f.value == v.s
  {
    if Blank(v) then Absent
    else if v.Str? && isEmail(v.s) then Present(v.s)
    else Invalid
  }

  /** `z.string().trim().min(n)`, a required property. */
  function TrimmedMin(v: Value, n: nat): (r: Option<string>)
    ensures r.Some? <==> v.Str? && |Trim(v.s)| >= n
    ensures r.Some? ==> r.value == Trim(v.s) && |r.value| >= n
  {
    if v.Str? && |Trim(v.s)| >= n then Some(Trim(v.s)) else None
  }

  /** `z.array(element)`: every element must pass, in order. */
  function ParseArray<T>(items: seq<Value>, element: Value -> Option<T>): (r: Option<seq<T>>)
    ensures r.Some? ==> |r.value| == |items| && forall i :: 0 <= i < |items| ==> element(items[i]) == Some(r.value[i])
    ensures r.None? ==> exists i :: 0 <= i < |items| && element(items[i]).None?
  {
    if items == [] then Some([])
    else
      match element(items[0])
      case None => None
      case Some(x) =>
        match ParseArray(items[1..], element)
        case None => None
        case Some(xs) => Some([x] + xs)
  }

  // ---------------------------------------------------------------------
  // Checklist items
  // ---------------------------------------------------------------------

  /** A checklist answer. */
  datatype Resposta = Sim | Nao

  function RespostaText(r: Resposta): string {
    match r
    case Sim => "sim"
    case Nao => "nao"
  }

  /** A checklist item as the schema outputs it. */
  datatype ChecklistItem = ChecklistItem(item: string, resposta: Resposta, comentario: Option<string>)

  /**
   * `(resposta ?? status ?? "sim").toLowerCase().startsWith("n")`: the first
   * answer given decides (even an empty one), and it is "nao" iff it starts
   * with an `n` of either case.
   */
  function ReadResposta(resposta: Option<string>, status: Option<string>): (r: Resposta)
    ensures var t := resposta.GetOr(status.GetOr("sim"));
      r == Nao <==> t != [] && (t[0] == 'n' || t[0] == 'N')
  {
    var t := resposta.GetOr(status.GetOr("sim"));
    if t != [] && LowerChar(t[0]) == 'n' then Nao else Sim
  }

  /** The test above is `t.toLowerCase().startsWith("n")`. */
  lemma StartsWithSmallN(t: string)
    ensures StartsWith(Lower(t), "n") <==> t != [] && LowerChar(t[0]) == 'n'
  {
    if t != [] {
      assert Lower(t)[..1] == [LowerChar(t[0])];
    }
  }

  /** `comentario: z.string().trim().optional().nullable()` read through `?? undefined`. */
  function ReadComentario(v: Value): (f: Field<string>)
    ensures f.Absent? <==> v.Undefined? || v.Null?
    ensures f.Present? <==> v.Str?
    ensures f.Present? ==> f.value == Trim(v.s) && Trimmed(f.value)
  {
    match v
    case Undefined => Absent
    case Null => Absent
    case Str(s) => Present(Trim(s))
    case _ => Invalid
  }

  /** An item whose texts are already trimmed, as every parsed item is. */
  predicate WellFormedItem(c: ChecklistItem) {
    && c.item != [] && Trimmed(c.item)
    && (c.comentario.Some? ==> Trimmed(c.comentario.value))
  }

  /** The object branch of `ChecklistItemSchema`, given what the schemas of its four properties made of them. */
  function ItemFromFields(i: Option<string>, a: Field<string>, s: Field<string>, c: Field<string>): (r: Option<ChecklistItem>)
    ensures r.Some? <==> i.Some? && !a.Invalid? && !s.Invalid? && !c.Invalid?
    ensures r.Some? ==> r.value.item == i.value && r.value.resposta == ReadResposta(FieldValue(a), FieldValue(s))
    ensures r.Some? ==> (r.value.comentario.Some? <==> c.Present?) && (c.Present? ==> r.value.comentario == Some(c.value))
  {
    if i.None? || a.Invalid? || s.Invalid? || c.Invalid? then None
    else
      var comment := if c.Present? then Some(c.value) else None;
      Some(ChecklistItem(i.value, ReadResposta(FieldValue(a), FieldValue(s)), comment))
  }

  /** The object branch of `ChecklistItemSchema`, given the values of its four properties. */
  function ParseItemObject(item: Value, resposta: Value, status: Value, comentario: Value): (r: Option<ChecklistItem>)
    ensures r.Some? ==> WellFormedItem(r.value) && item.Str? && r.value.item == Trim(item.s)
  {
    ItemFromFields(TrimmedMin(item, 1), OptionalTrimmed(resposta), OptionalTrimmed(status), ReadComentario(comentario))
  }

  /**
   * `ChecklistItemSchema`: a non-blank string becomes an item answered "sim";
   * an object needs a non-blank `item`, and its answer is read from
   * `resposta`, then `status`.
   */
  function ParseChecklistItem(v: Value): (r: Option<ChecklistItem>)
    ensures r.Some? ==> WellFormedItem(r.value)
    ensures v.Str? ==> (r.Some? <==> Trim(v.s) != [])
    ensures v.Str? && r.Some? ==> r.value == ChecklistItem(Trim(v.s), Sim, None)
    ensures r.Some? ==> v.Str? || v.Obj?
  {
    if v.Str? then
      if Trim(v.s) != [] then Some(ChecklistItem(Trim(v.s), Sim, None)) else None
    else if v.Obj? then
      ParseItemObject(Get(v, "item"), Get(v, "resposta"), Get(v, "status"), Get(v, "comentario"))
    else None
  }

  /** `JSON.stringify` of an item, as the handlers store it (an absent comment is left out). */
  function ChecklistItemJson(c: ChecklistItem): Value {
    Obj([("item", Str(c.item)), ("resposta", Str(RespostaText(c.resposta)))]
      + (if c.comentario.Some? then [("comentario", Str(c.comentario.value))] else []))
  }

  /** A stored array of items. */
  function ChecklistJson(cs: seq<ChecklistItem>): (v: Value)
    ensures v.Arr? && |v.items| == |cs|
    ensures forall i :: 0 <= i < |cs| ==> v.items[i] == ChecklistItemJson(cs[i])
  {
    Arr(seq(|cs|, i requires 0 <= i < |cs| => ChecklistItemJson(cs[i])))
  }

  lemma AnswerTextsAreTrimmed(r: Resposta)
    ensures Trimmed(RespostaText(r))
  {
  }

  lemma ReadAnswerText(r: Resposta, status: Option<string>)
    ensures ReadResposta(Some(RespostaText(r)), status) == r
  {
  }

  /** The four properties of a stored item, as the schema looks them up. */
  lemma StoredItemProperties(c: ChecklistItem)
    ensures var v := ChecklistItemJson(c);
      && Get(v, "item") == Str(c.item)
      && Get(v, "resposta") == Str(RespostaText(c.resposta))
      && Get(v, "status") == Undefined
      && Get(v, "comentario") == if c.comentario.Some? then Str(c.comentario.value) else Undefined
  {
    var tail: seq<(string, Value)> := if c.comentario.Some? then [("comentario", Str(c.comentario.value))] else [];
    var second := [("resposta", Str(RespostaText(c.resposta)))] + tail;
    var p := [("item", Str(c.item))] + second;
    assert ChecklistItemJson(c).props == p;
    forall key | key in ["item", "resposta", "status", "comentario"]
      ensures Lookup(p, key) == if key == "item" then Str(c.item) else Lookup(second, key)
      ensures Lookup(second, key) == if key == "resposta" then Str(RespostaText(c.resposta)) else Lookup(tail, key)
    {
      LookupCons("item", Str(c.item), second, key);
      LookupCons("resposta", Str(RespostaText(c.resposta)), tail, key);
    }
    if c.comentario.Some? {
      LookupCons("comentario", Str(c.comentario.value), [], "status");
      LookupCons("comentario", Str(c.comentario.value), [], "comentario");
    }
  }

  lemma TrimmedMinOfTrimmed(x: string)
    requires x != [] && Trimmed(x)
    ensures TrimmedMin(Str(x), 1) == Some(x)
  {
    TrimOfTrimmed(x);
  }

  lemma OptionalTrimmedOfTrimmed(x: string)
    requires Trimmed(x)
    ensures OptionalTrimmed(Str(x)) == Present(x)
  {
    TrimOfTrimmed(x);
  }

  /** A stored comment reads back as it was. */
  lemma ReadStoredComentario(x: string)
    requires Trimmed(x)
    ensures ReadComentario(Str(x)) == Present(x)
  {
    TrimOfTrimmed(x);
  }

  /** The object branch reads trimmed stored properties back as they are. */
  lemma ParseStoredProperties(item: string, answer: string, comment: Option<string>)
    requires item != [] && Trimmed(item) && Trimmed(answer) && (comment.Some? ==> Trimmed(comment.value))
    ensures ParseItemObject(Str(item), Str(answer), Undefined, if comment.Some? then Str(comment.value) else Undefined)
      == Some(ChecklistItem(item, ReadResposta(Some(answer), None), comment))
  {
    var cv := if comment.Some? then Str(comment.value) else Undefined;
    var cf := if comment.Some? then Present(comment.value) else Absent;
    TrimmedMinOfTrimmed(item);
    OptionalTrimmedOfTrimmed(answer);
    if comment.Some? {
      ReadStoredComentario(comment.value);
    }
    assert ParseItemObject(Str(item), Str(answer), Undefined, cv) == ItemFromFields(Some(item), Present(answer), Absent, cf);
  }

  /** The stored form of a well-formed item is read back as the same item: what the handlers store passes the schema again. */
  lemma ChecklistItemRoundTrip(c: ChecklistItem)
    requires WellFormedItem(c)
    ensures ParseChecklistItem(ChecklistItemJson(c)) == Some(c)
  {
    var v := ChecklistItemJson(c);
    StoredItemProperties(c);
    AnswerTextsAreTrimmed(c.resposta);
    ParseStoredProperties(c.item, RespostaText(c.resposta), c.comentario);
    ReadAnswerText(c.resposta, None);
    assert ParseChecklistItem(v) == ParseItemObject(Get(v, "item"), Get(v, "resposta"), Get(v, "status"), Get(v, "comentario"));
  }

  /** When every element passes, the array passes with those results. */
  lemma {:induction false} ParseArrayOfParsed<T>(items: seq<Value>, element: Value -> Option<T>, xs: seq<T>)
    requires |items| == |xs| && forall i :: 0 <= i < |xs| ==> element(items[i]) == Some(xs[i])
    ensures ParseArray(items, element) == Some(xs)
  {
    if items != [] {
      ParseArrayOfParsed(items[1..], element, xs[1..]);
      assert xs == [xs[0]] + xs[1..];
    }
  }

  /** A whole stored checklist is read back as itself. */
  lemma ChecklistRoundTrip(cs: seq<ChecklistItem>)
    requires forall i :: 0 <= i < |cs| ==> WellFormedItem(cs[i])
    ensures ParseArray(ChecklistJson(cs).items, ParseChecklistItem) == Some(cs)
  {
    var items := ChecklistJson(cs).items;
    forall i | 0 <= i < |cs|
      ensures ParseChecklistItem(items[i]) == Some(cs[i])
    {
      ChecklistItemRoundTrip(cs[i]);
    }
    ParseArrayOfParsed(items, ParseChecklistItem, cs);
  }

  // ---------------------------------------------------------------------
  // Request bodies
  // ---------------------------------------------------------------------

  /** `req.body ?? {}`. */
  function BodyOrEmpty(body: Value): Value {
    Coalesce(body, Obj([]))
  }

  /** `tipo: z.enum(["corretiva", "preventiva"])`. */
  datatype TipoChamado = Corretiva | Preventiva

  function TipoName(t: TipoChamado): string {
    match t
    case Corretiva => "corretiva"
    case Preventiva => "preventiva"
  }

  function OptionalTipo(v: Value): (f: Field<TipoChamado>)
    ensures f.Present? <==> v.Str? && (v.s == "corretiva" || v.s == "preventiva")
    ensures f.Present? ==> TipoName(f.value) == v.s
  {
    if v.Undefined? then Absent
    else if v == Str("corretiva") then Present(Corretiva)
    else if v == Str("preventiva") then Present(Preventiva)
    else Invalid
  }

  /** `checklistItems: z.array(z.string().trim().min(1)).optional()`. */
  function OptionalItemTexts(v: Value): (f: Field<seq<string>>)
    ensures f.Absent? <==> v.Undefined?
    ensures f.Present? <==> v.Arr? && forall i :: 0 <= i < |v.items| ==> v.items[i].Str? && |Trim(v.items[i].s)| >= 1
    ensures f.Present? ==> |f.value| == |v.items| && forall i :: 0 <= i < |v.items| ==> TrimmedMin(v.items[i], 1) == Some(f.value[i])
  {
    if v.Undefined? then Absent
    else if v.Arr? then
      match ParseArray(v.items, (x: Value) => TrimmedMin(x, 1))
      case Some(ts) => Present(ts)
      case None => Invalid
    else Invalid
  }

  /** The data `CreateChamadoSchema` returns. */
  datatype CreateChamadoInput = CreateChamadoInput(
    maquinaId: Option<string>,
    maquinaTag: Option<string>,
    maquinaNome: Option<string>,
    descricao: string,
    tipo: Option<TipoChamado>,
    manutentorEmail: Option<string>,
    checklistItems: Option<seq<string>>,
    status: Option<string>,
    agendamentoId: Option<string>,
    criadoPorEmail: Option<string>)

  /** The properties `CreateChamadoSchema` names; all others are dropped. */
  const CreateKeys: seq<string> := ["maquinaId", "maquinaTag", "maquinaNome", "descricao", "tipo",
    "manutentorEmail", "checklistItems", "status", "agendamentoId", "criadoPorEmail"]

  /** A property `optionalNonEmptyString` accepts: missing, or any string (a blank one counts as missing). */
  predicate OptionalStringOk(v: Value) {
    v.Undefined? || v.Str?
  }

  /** `o` is what `optionalNonEmptyString` made of `v`: nothing for a blank one, else its trimmed text. */
  predicate NonEmptyStringOf(o: Option<string>, v: Value) {
    (o.None? <==> Blank(v)) && (o.Some? ==> v.Str? && o.value == Trim(v.s))
  }

  lemma NonEmptyStringField(v: Value)
    ensures OptionalNonEmptyString(v).Invalid? <==> !OptionalStringOk(v)
    ensures !OptionalNonEmptyString(v).Invalid? ==> NonEmptyStringOf(FieldValue(OptionalNonEmptyString(v)), v)
  {
  }

  /** A property `optionalEmail` accepts: blank, or an e-mail address. */
  predicate OptionalEmailOk(v: Value, isEmail: string -> bool) {
    Blank(v) || (v.Str? && isEmail(v.s))
  }

  /** `o` is what `optionalEmail` made of `v`: nothing for a blank one, else the address as written. */
  predicate EmailOf(o: Option<string>, v: Value) {
    (o.None? <==> Blank(v)) && (o.Some? ==> v == Str(o.value))
  }

  lemma EmailField(v: Value, isEmail: string -> bool)
    ensures OptionalEmail(v, isEmail).Invalid? <==> !OptionalEmailOk(v, isEmail)
    ensures !OptionalEmail(v, isEmail).Invalid? ==> EmailOf(FieldValue(OptionalEmail(v, isEmail)), v)
  {
  }

  /** A `tipo` the schema accepts: missing, or one of the two names. */
  predicate TipoOk(v: Value) {
    v.Undefined? || v == Str("corretiva") || v == Str("preventiva")
  }

  /** `o` is the `tipo` read from `v`. */
  predicate TipoOf(o: Option<TipoChamado>, v: Value) {
    (o.None? <==> v.Undefined?) && (o.Some? ==> v == Str(TipoName(o.value)))
  }

  lemma TipoField(v: Value)
    ensures OptionalTipo(v).Invalid? <==> !TipoOk(v)
    ensures !OptionalTipo(v).Invalid? ==> TipoOf(FieldValue(OptionalTipo(v)), v)
  {
  }

  /** `checklistItems` values the schema accepts: missing, or an array of strings that are not blank. */
  predicate ItemTextsOk(v: Value) {
    v.Undefined? || (v.Arr? && forall i :: 0 <= i < |v.items| ==> v.items[i].Str? && |Trim(v.items[i].s)| >= 1)
  }

  /** `o` holds the trimmed texts of the array `v`, one for one. */
  predicate ItemTextsOf(o: Option<seq<string>>, v: Value) {
    && (o.None? <==> v.Undefined?)
    && (o.Some? ==> (v.Arr? && |o.value| == |v.items|
         && forall i :: 0 <= i < |v.items| ==> v.items[i].Str? && o.value[i] == Trim(v.items[i].s)))
  }

  lemma ItemTextsField(v: Value)
    ensures OptionalItemTexts(v).Invalid? <==> !ItemTextsOk(v)
    ensures !OptionalItemTexts(v).Invalid? ==> ItemTextsOf(FieldValue(OptionalItemTexts(v)), v)
  {
    if OptionalItemTexts(v).Present? {
      var ts := OptionalItemTexts(v).value;
      forall i | 0 <= i < |v.items|
        ensures v.items[i].Str? && ts[i] == Trim(v.items[i].s)
      {
        assert TrimmedMin(v.items[i], 1) == Some(ts[i]);
      }
    }
  }

  /** `o` is what `z.string().trim().optional()` made of `v`. */
  predicate TrimmedOf(o: Option<string>, v: Value) {
    (o.None? <==> v.Undefined?) && (o.Some? ==> v.Str? && o.value == Trim(v.s))
  }

  lemma TrimmedField(v: Value)
    ensures OptionalTrimmed(v).Invalid? <==> !(v.Undefined? || v.Str?)
    ensures !OptionalTrimmed(v).Invalid? ==> TrimmedOf(FieldValue(OptionalTrimmed(v)), v)
  {
  }

  /** The values of the properties `CreateChamadoSchema` names, in the order of `CreateKeys`, meet their rules. */
  predicate CreateFieldsOk(f: seq<Value>, isEmail: string -> bool)
    requires |f| == |CreateKeys|
  {
    && OptionalStringOk(f[0]) && OptionalStringOk(f[1]) && OptionalStringOk(f[2])
    && f[3].Str? && |Trim(f[3].s)| >= 5
    && TipoOk(f[4])
    && OptionalEmailOk(f[5], isEmail)
    && ItemTextsOk(f[6])
    && (f[7].Undefined? || f[7].Str?)
    && OptionalStringOk(f[8])
    && OptionalEmailOk(f[9], isEmail)
  }

  /** `c` is what `CreateChamadoSchema` makes of the property values `f`, property by property. */
  predicate DescribesCreate(c: CreateChamadoInput, f: seq<Value>)
    requires |f| == |CreateKeys|
  {
    && NonEmptyStringOf(c.maquinaId, f[0]) && NonEmptyStringOf(c.maquinaTag, f[1]) && NonEmptyStringOf(c.maquinaNome, f[2])
    && f[3].Str? && c.descricao == Trim(f[3].s)
    && TipoOf(c.tipo, f[4])
    && EmailOf(c.manutentorEmail, f[5])
    && ItemTextsOf(c.checklistItems, f[6])
    && TrimmedOf(c.status, f[7])
    && NonEmptyStringOf(c.agendamentoId, f[8])
    && EmailOf(c.criadoPorEmail, f[9])
  }

  /** `CreateChamadoSchema` given the values of the properties it names, in the order of `CreateKeys`. */
  function CreateFromFields(f: seq<Value>, isEmail: string -> bool): (r: Option<CreateChamadoInput>)
    requires |f| == |CreateKeys|
    ensures r.Some? <==> CreateFieldsOk(f, isEmail)
    ensures r.Some? ==> DescribesCreate(r.value, f)
    ensures r.Some? ==> |r.value.descricao| >= 5
    ensures r.Some? ==> forall t :: t in r.value.checklistItems.GetOr([]) ==> t != []
  {
    var maquinaId := OptionalNonEmptyString(f[0]);
    var maquinaTag := OptionalNonEmptyString(f[1]);
    var maquinaNome := OptionalNonEmptyString(f[2]);
    var descricao := TrimmedMin(f[3], 5);
    var tipo := OptionalTipo(f[4]);
    var manutentorEmail := OptionalEmail(f[5], isEmail);
    var checklistItems := OptionalItemTexts(f[6]);
    var status := OptionalTrimmed(f[7]);
    var agendamentoId := OptionalNonEmptyString(f[8]);
    var criadoPorEmail := OptionalEmail(f[9], isEmail);
    NonEmptyStringField(f[0]); NonEmptyStringField(f[1]); NonEmptyStringField(f[2]); TipoField(f[4]);
    EmailField(f[5], isEmail); ItemTextsField(f[6]); TrimmedField(f[7]); NonEmptyStringField(f[8]); EmailField(f[9], isEmail);
    if maquinaId.Invalid? || maquinaTag.Invalid? || maquinaNome.Invalid? || descricao.None? || tipo.Invalid?
      || manutentorEmail.Invalid? || checklistItems.Invalid? || status.Invalid? || agendamentoId.Invalid?
      || criadoPorEmail.Invalid?
    then None
    else
      Some(CreateChamadoInput(FieldValue(maquinaId), FieldValue(maquinaTag), FieldValue(maquinaNome),
        descricao.value, FieldValue(tipo), FieldValue(manutentorEmail), FieldValue(checklistItems),
        FieldValue(status), FieldValue(agendamentoId), FieldValue(criadoPorEmail)))
  }

  /** The values of `keys` in an object. */
  function Fields(props: seq<(string, Value)>, keys: seq<string>): (f: seq<Value>)
    ensures |f| == |keys| && forall i :: 0 <= i < |keys| ==> f[i] == Lookup(props, keys[i])
  {
    seq(|keys|, i requires 0 <= i < |keys| => Lookup(props, keys[i]))
  }

  /** The properties `CreateChamadoSchema` reads, by name. */
  function CreateValues(body: Value): (f: seq<Value>)
    ensures |f| == |CreateKeys|
  {
    [Get(body, "maquinaId"), Get(body, "maquinaTag"), Get(body, "maquinaNome"), Get(body, "descricao"), Get(body, "tipo"),
     Get(body, "manutentorEmail"), Get(body, "checklistItems"), Get(body, "status"), Get(body, "agendamentoId"),
     Get(body, "criadoPorEmail")]
  }

  /** `CreateChamadoSchema.safeParse(body)`: only an object passes. */
  function ParseCreateChamado(body: Value, isEmail: string -> bool): (r: Option<CreateChamadoInput>)
    ensures r.Some? <==> body.Obj? && CreateFieldsOk(CreateValues(body), isEmail)
    ensures r.Some? ==> DescribesCreate(r.value, CreateValues(body))
    ensures r.Some? ==> body.Obj?
    ensures r.Some? ==> (Get(body, "descricao").Str? && |r.value.descricao| >= 5
      && r.value.descricao == Trim(Get(body, "descricao").s))
    ensures r.Some? ==> (r.value.tipo.None? <==> Get(body, "tipo").Undefined?)
    ensures r.Some? && r.value.tipo.Some? ==> Get(body, "tipo") == Str(TipoName(r.value.tipo.value))
  {
    if body.Obj? then
      assert Fields(body.props, CreateKeys) == CreateValues(body);
      CreateFromFields(Fields(body.props, CreateKeys), isEmail)
    else None
  }

  /** Unknown properties are dropped, not rejected: adding one changes nothing. */
  lemma CreateSchemaStripsUnknownKeys(props: seq<(string, Value)>, k: string, v: Value, isEmail: string -> bool)
    requires k !in CreateKeys
    ensures ParseCreateChamado(Obj(props + [(k, v)]), isEmail) == ParseCreateChamado(Obj(props), isEmail)
  {
    forall i | 0 <= i < |CreateKeys|
      ensures Lookup(props + [(k, v)], CreateKeys[i]) == Lookup(props, CreateKeys[i])
    {
      LookupIgnoresLaterKey(props, k, v, CreateKeys[i]);
    }
    assert Fields(props + [(k, v)], CreateKeys) == Fields(props, CreateKeys);
  }

  /** The data `ConcluirChamadoSchema` returns. */
  datatype ConcluirInput = ConcluirInput(checklist: Option<seq<ChecklistItem>>, causa: Option<string>, solucao: Option<string>)

  /** An array every element of which `ChecklistItemSchema` accepts. */
  predicate ChecklistArrayOk(v: Value) {
    v.Arr? && forall i :: 0 <= i < |v.items| ==> ParseChecklistItem(v.items[i]).Some?
  }

  /** `cs` is an array's elements as `ChecklistItemSchema` parses them, one for one. */
  predicate ParsedItemsOf(cs: seq<ChecklistItem>, v: Value) {
    v.Arr? && |cs| == |v.items| && forall i :: 0 <= i < |v.items| ==> ParseChecklistItem(v.items[i]) == Some(cs[i])
  }

  /** `checklist: z.array(ChecklistItemSchema)`, optional or required. */
  function ItemsField(v: Value): (f: Field<seq<ChecklistItem>>)
    ensures f.Present? <==> ChecklistArrayOk(v)
    ensures f.Present? ==> ParsedItemsOf(f.value, v)
    ensures f.Present? ==> v.Arr? && |f.value| == |v.items|
    ensures f.Present? ==> forall i :: 0 <= i < |f.value| ==> ParseChecklistItem(v.items[i]) == Some(f.value[i])
    ensures f.Absent? <==> v.Undefined?
  {
    if v.Undefined? then Absent
    else if v.Arr? then
      match ParseArray(v.items, ParseChecklistItem)
      case Some(cs) => Present(cs)
      case None => Invalid
    else Invalid
  }

  /** The three properties of `ConcluirChamadoSchema` meet their rules: each missing, or an array of items, or a string. */
  predicate ConcluirFieldsOk(checklist: Value, causa: Value, solucao: Value) {
    (checklist.Undefined? || ChecklistArrayOk(checklist)) && (causa.Undefined? || causa.Str?) && (solucao.Undefined? || solucao.Str?)
  }

  /** `c` is what `ConcluirChamadoSchema` makes of the three property values. */
  predicate DescribesConcluir(c: ConcluirInput, checklist: Value, causa: Value, solucao: Value) {
    && (c.checklist.None? <==> checklist.Undefined?) && (c.checklist.Some? ==> ParsedItemsOf(c.checklist.value, checklist))
    && (c.causa.None? <==> causa.Undefined?) && (c.causa.Some? ==> causa.Str? && c.causa.value == Trim(causa.s))
    && (c.solucao.None? <==> solucao.Undefined?) && (c.solucao.Some? ==> solucao.Str? && c.solucao.value == Trim(solucao.s))
  }

  /** `ConcluirChamadoSchema` given its three properties. */
  function ConcluirFromFields(checklist: Value, causa: Value, solucao: Value): (r: Option<ConcluirInput>)
    ensures r.Some? <==> ConcluirFieldsOk(checklist, causa, solucao)
    ensures r.Some? ==> DescribesConcluir(r.value, checklist, causa, solucao)
    ensures r.Some? && r.value.causa.Some? ==> causa.Str? && r.value.causa.value == Trim(causa.s)
    ensures r.Some? && r.value.solucao.Some? ==> solucao.Str? && r.value.solucao.value == Trim(solucao.s)
    ensures r.Some? ==> (r.value.checklist.Some? <==> checklist.Arr?)
  {
    var c := ItemsField(checklist);
    var a := OptionalTrimmed(causa);
    var s := OptionalTrimmed(solucao);
    if c.Invalid? || a.Invalid? || s.Invalid? then None
    else Some(ConcluirInput(FieldValue(c), FieldValue(a), FieldValue(s)))
  }

  /** `ConcluirChamadoSchema.safeParse(body)`: every property is optional, but those given must pass. */
  function ParseConcluir(body: Value): (r: Option<ConcluirInput>)
    ensures r.Some? ==> body.Obj?
    ensures r.Some? <==> body.Obj? && ConcluirFieldsOk(Get(body, "checklist"), Get(body, "causa"), Get(body, "solucao"))
    ensures r.Some? ==> DescribesConcluir(r.value, Get(body, "checklist"), Get(body, "causa"), Get(body, "solucao"))
  {
    if body.Obj? then ConcluirFromFields(Get(body, "checklist"), Get(body, "causa"), Get(body, "solucao")) else None
  }

  /** The data `PatchChecklistSchema` returns. */
  datatype PatchChecklistInput = PatchChecklistInput(checklist: seq<ChecklistItem>, userEmail: Option<string>)

  /** `PatchChecklistSchema.safeParse(body)`: the checklist is required; a given `userEmail` must be an address. */
  function ParsePatchChecklist(body: Value, isEmail: string -> bool): (r: Option<PatchChecklistInput>)
    ensures r.Some? ==> body.Obj? && Get(body, "checklist").Arr?
    ensures r.Some? ==> |r.value.checklist| == |Get(body, "checklist").items|
    ensures var email := Get(body, "userEmail");
      r.Some? <==> body.Obj? && ChecklistArrayOk(Get(body, "checklist")) && (email.Undefined? || (email.Str? && isEmail(email.s)))
    ensures r.Some? ==> ParsedItemsOf(r.value.checklist, Get(body, "checklist"))
    ensures r.Some? ==> ((r.value.userEmail.None? <==> Get(body, "userEmail").Undefined?)
      && (r.value.userEmail.Some? ==> Get(body, "userEmail") == Str(r.value.userEmail.value)))
  {
    if !body.Obj? then None
    else
      var checklist := ItemsField(Get(body, "checklist"));
      var email := Get(body, "userEmail");
      if !checklist.Present? then None
      else if !email.Undefined? && !(email.Str? && isEmail(email.s)) then None
      else Some(PatchChecklistInput(checklist.value, if email.Str? then Some(email.s) else None))
  }

  /** `ObservacaoSchema.safeParse(body)`: a text of at least two characters after trimming. */
  function ParseObservacao(body: Value): (r: Option<string>)
    ensures r.Some? ==> |r.value| >= 2 && Trimmed(r.value)
    ensures r.Some? <==> body.Obj? && Get(body, "texto").Str? && |Trim(Get(body, "texto").s)| >= 2
    ensures r.Some? ==> r.value == Trim(Get(body, "texto").s)
  {
    if !body.Obj? then None
    else
      var texto := TrimmedMin(Get(body, "texto"), 2);
      texto
  }
}
