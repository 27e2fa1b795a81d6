/**
 * The operators' daily checklist (`POST /checklists/daily/submit`,
 * apps/api/src/routes/checklists.ts): the submission is stored once per
 * operator, machine and local day, and every question answered `nao` opens a
 * predictive ticket unless an open one already exists for that question on
 * that machine.
 */
module Checklists {
  import opened Wrappers
  import opened Text
  import Js
  import opened Http
  import opened Db
  import opened Slug

  // ---------------------------------------------------------------------
  // Request validation
  // ---------------------------------------------------------------------

  /** A destructuring default: it replaces `undefined` only, never `null`. */
  function Default(v: Js.Value, d: Js.Value): (r: Js.Value)
    ensures v.Undefined? ==> r == d
    ensures !v.Undefined? ==> r == v
  {
    if v.Undefined? then d else v
  }

  /** The fields of a submission after validation and the two lookups. */
  datatype SubmitPlan = SubmitPlan(
    operadorId: Id,
    operadorNome: string,
    operadorEmail: string,
    maquinaId: Id,
    maquinaNome: string,
    respostas: Js.Value,
    turno: Option<string>)

  /** How the `turno` parameter reaches SQL: `null` is SQL NULL, anything else its text. */
  function TurnoParam(v: Js.Value): (t: Option<string>)
    ensures t.None? <==> v.Null?
  {
    if v.Null? then None else Some(Js.ToStr(v))
  }

  /** `req.body || {}`. */
  function BodyOrEmpty(body: Js.Value): Js.Value {
    Js.Or(body, Js.Obj([]))
  }

  /** `operadorNome || u.nome || ''`. */
  function OperatorName(given: Js.Value, u: User): string {
    if Js.Truthy(given) then Js.ToStr(given) else u.nome.GetOr("")
  }

  /** `maquinaNome || m.nome || ''`. */
  function MachineName(given: Js.Value, m: Machine): string {
    if Js.Truthy(given) then Js.ToStr(given) else m.nome
  }

  /** The operator e-mail a submission names: the body's, by default the authenticated user's. */
  function SubmitOperatorEmail(auth: Option<RequestUser>, body: Js.Value): string {
    Js.ToStr(Default(Js.Get(BodyOrEmpty(body), "operadorEmail"), Js.Str(if auth.Some? then auth.value.email else "")))
  }

  /** The guards before the lookups pass: an authenticated e-mail, an operator e-mail, a machine id and an answers object. */
  predicate SubmitFieldsGiven(auth: Option<RequestUser>, body: Js.Value) {
    var b := BodyOrEmpty(body);
    var respostas := Default(Js.Get(b, "respostas"), Js.Obj([]));
    && auth.Some? && auth.value.email != []
    && Js.Truthy(Default(Js.Get(b, "operadorEmail"), Js.Str(auth.value.email)))
    && Js.Truthy(Js.Get(b, "maquinaId"))
    && (respostas.Obj? || respostas.Arr?)
  }

  /**
   * The guards of the submit route, in order: an authenticated e-mail (401),
   * the required fields (400), the operator by exact e-mail (404), the
   * machine by id (404; an id PostgreSQL cannot read fails the query).
   */
  function PlanSubmit(users: seq<User>, machines: seq<Machine>, castId: IdCast, auth: Option<RequestUser>, body: Js.Value)
    : (r: Result<SubmitPlan, Failure>)
    ensures (auth.None? || auth.value.email == []) ==> r == Err(Fail(401, "Sem Usu\U{E1}rio no header."))
    ensures r.Ok? ==> auth.Some? && auth.value.email != []
    ensures var b := BodyOrEmpty(body);
      var operadorEmail := Default(Js.Get(b, "operadorEmail"), Js.Str(if auth.Some? then auth.value.email else ""));
      var respostas := Default(Js.Get(b, "respostas"), Js.Obj([]));
      && (auth.Some? && auth.value.email != [] &&
          (!Js.Truthy(operadorEmail) || !Js.Truthy(Js.Get(b, "maquinaId")) || !(respostas.Obj? || respostas.Arr?)) ==>
            r == Err(Fail(400, "Dados inv\U{E1}lidos.")))
      && (r.Ok? ==> (Js.Truthy(operadorEmail) && Js.Truthy(Js.Get(b, "maquinaId"))
            && r.value.respostas == respostas && (respostas.Obj? || respostas.Arr?)
            && r.value.operadorEmail == Js.ToStr(operadorEmail)
            && FindUser(users, Js.ToStr(operadorEmail)).Some?
            && r.value.operadorId == FindUser(users, Js.ToStr(operadorEmail)).value.id
            && castId(Js.Get(b, "maquinaId")) == Some(r.value.maquinaId)
            && FindMachine(machines, r.value.maquinaId).Some?
            && r.value.turno == TurnoParam(Default(Js.Get(b, "turno"), Js.Str("")))))
      && (r.Err? && r.error.code == 404 ==>
            (r.error == Fail(404, "Operador n\U{E3}o encontrado.") <==> FindUser(users, Js.ToStr(operadorEmail)).None?))
    ensures SubmitFieldsGiven(auth, body) && FindUser(users, SubmitOperatorEmail(auth, body)).None? ==>
      r == Err(Fail(404, "Operador n\U{E3}o encontrado."))
    ensures var maquinaId := Js.Get(BodyOrEmpty(body), "maquinaId");
      SubmitFieldsGiven(auth, body) && FindUser(users, SubmitOperatorEmail(auth, body)).Some? && castId(maquinaId).None? ==>
      r == Err(DatabaseError)
    ensures var maquinaId := Js.Get(BodyOrEmpty(body), "maquinaId");
      (SubmitFieldsGiven(auth, body) && FindUser(users, SubmitOperatorEmail(auth, body)).Some? && castId(maquinaId).Some?
       && FindMachine(machines, castId(maquinaId).value).None?) ==>
      r == Err(Fail(404, "M\U{E1}quina n\U{E3}o encontrada."))
    ensures var maquinaId := Js.Get(BodyOrEmpty(body), "maquinaId");
      r.Ok? <==> (SubmitFieldsGiven(auth, body) && FindUser(users, SubmitOperatorEmail(auth, body)).Some?
        && castId(maquinaId).Some? && FindMachine(machines, castId(maquinaId).value).Some?)
    ensures var b := BodyOrEmpty(body);
      r.Ok? ==> (r.value.operadorNome == OperatorName(Default(Js.Get(b, "operadorNome"), Js.Str("")),
          FindUser(users, SubmitOperatorEmail(auth, body)).value)
        && r.value.maquinaNome == MachineName(Default(Js.Get(b, "maquinaNome"), Js.Str("")),
          FindMachine(machines, r.value.maquinaId).value))
  {
    if auth.None? || auth.value.email == [] then Err(Fail(401, "Sem Usu\U{E1}rio no header."))
    else
      var b := BodyOrEmpty(body);
      var operadorEmail := Default(Js.Get(b, "operadorEmail"), Js.Str(auth.value.email));
      var operadorNome := Default(Js.Get(b, "operadorNome"), Js.Str(""));
      var maquinaId := Js.Get(b, "maquinaId");
      var maquinaNome := Default(Js.Get(b, "maquinaNome"), Js.Str(""));
      var respostas := Default(Js.Get(b, "respostas"), Js.Obj([]));
      var turno := Default(Js.Get(b, "turno"), Js.Str(""));
      if !Js.Truthy(operadorEmail) || !Js.Truthy(maquinaId) || !(respostas.Obj? || respostas.Arr?) then
        Err(Fail(400, "Dados inv\U{E1}lidos."))
      else
        match FindUser(users, Js.ToStr(operadorEmail))
        case None => Err(Fail(404, "Operador n\U{E3}o encontrado."))
        case Some(u) =>
          match castId(maquinaId)
          case None => Err(DatabaseError)
          case Some(mid) =>
            var m := FindMachine(machines, mid);
            if m.None? then Err(Fail(404, "M\U{E1}quina n\U{E3}o encontrada."))
            else
              Ok(SubmitPlan(u.id, OperatorName(operadorNome, u), Js.ToStr(operadorEmail), m.value.id,
                MachineName(maquinaNome, m.value), respostas, TurnoParam(turno)))
  }

  // ---------------------------------------------------------------------
  // Shift
  // ---------------------------------------------------------------------

  const FirstShift: string := "1\U{BA}"
  const SecondShift: string := "2\U{BA}"

  /** The spellings the `CASE` maps to the first shift, compared after `lower`. */
  predicate FirstShiftSpelling(s: string) {
    s in {"turno1", "1", "1\U{BA}", "1o", "1\U{B0}", "primeiro"}
  }

  /** The spellings the `CASE` maps to the second shift. */
  predicate SecondShiftSpelling(s: string) {
    s in {"turno2", "2", "2\U{BA}", "2o", "2\U{B0}", "segundo"}
  }

  /** The hour rule: before 14:00 in America/Sao_Paulo is the first shift. */
  function ShiftByHour(beforeTwoPm: bool): string {
    if beforeTwoPm then FirstShift else SecondShift
  }

  /** The `CASE` expression that normalises `turno` inside the `INSERT`; `beforeTwoPm` is the local clock. */
  function NormalizeTurno(turno: Option<string>, beforeTwoPm: bool): (r: string)
    ensures r == FirstShift || r == SecondShift
    ensures turno.Some? && FirstShiftSpelling(Lower(turno.value)) ==> r == FirstShift
    ensures turno.Some? && SecondShiftSpelling(Lower(turno.value)) ==> r == SecondShift
    ensures (turno.None? || turno.value == []) ==> r == ShiftByHour(beforeTwoPm)
    ensures turno.Some? && !FirstShiftSpelling(Lower(turno.value)) && !SecondShiftSpelling(Lower(turno.value)) && turno.value != [] ==>
      r == (if DigitsOnly(Lower(turno.value)) == "1" then FirstShift
            else if DigitsOnly(Lower(turno.value)) == "2" then SecondShift
            else ShiftByHour(beforeTwoPm))
  {
    if turno.Some? && FirstShiftSpelling(Lower(turno.value)) then FirstShift
    else if turno.Some? && SecondShiftSpelling(Lower(turno.value)) then SecondShift
    else if turno.None? || turno.value == [] then ShiftByHour(beforeTwoPm)
    else
      var digits := DigitsOnly(Lower(turno.value));
      if digits == "1" then FirstShift
      else if digits == "2" then SecondShift
      else ShiftByHour(beforeTwoPm)
  }

  /** A stored shift reads back as itself, whatever the clock says. */
  lemma NormalizeTurnoIdempotent(turno: Option<string>, beforeTwoPm: bool, later: bool)
    ensures NormalizeTurno(Some(NormalizeTurno(turno, beforeTwoPm)), later) == NormalizeTurno(turno, beforeTwoPm)
  {
    var r := NormalizeTurno(turno, beforeTwoPm);
    assert Lower(FirstShift) == FirstShift;
    assert Lower(SecondShift) == SecondShift;
    assert FirstShiftSpelling(FirstShift);
    assert SecondShiftSpelling(SecondShift);
  }

  /** The shift does not depend on the case of what was typed. */
  lemma NormalizeTurnoIgnoresCase(s: string, beforeTwoPm: bool)
    ensures NormalizeTurno(Some(Lower(s)), beforeTwoPm) == NormalizeTurno(Some(s), beforeTwoPm)
  {
    LowerIdempotent(s);
  }

  /** A text with a single digit 1 or 2 among other characters names that shift, e.g. "Turno 2" or "2nd". */
  lemma NormalizeTurnoByDigit(a: string, d: char, b: string, beforeTwoPm: bool)
    requires d == '1' || d == '2'
    requires forall i :: 0 <= i < |a| ==> !IsDigit(a[i])
    requires forall i :: 0 <= i < |b| ==> !IsDigit(b[i])
    requires !FirstShiftSpelling(Lower(a + [d] + b)) && !SecondShiftSpelling(Lower(a + [d] + b))
    ensures NormalizeTurno(Some(a + [d] + b), beforeTwoPm) == (if d == '1' then FirstShift else SecondShift)
  {
    var s := a + [d] + b;
    LowerConcat(a + [d], b);
    LowerConcat(a, [d]);
    assert Lower([d]) == [d];
    NoDigitsLower(a);
    NoDigitsLower(b);
    DigitsOnlyConcat(Lower(a) + [d], Lower(b));
    DigitsOnlyConcat(Lower(a), [d]);
    DigitsOnlyOfNoDigits(Lower(a));
    DigitsOnlyOfNoDigits(Lower(b));
    assert DigitsOnly([d]) == [d];
    assert s != [];
  }

  lemma NoDigitsLower(s: string)
    requires forall i :: 0 <= i < |s| ==> !IsDigit(s[i])
    ensures forall i :: 0 <= i < |Lower(s)| ==> !IsDigit(Lower(s)[i])
  {
  }

  // ---------------------------------------------------------------------
  // Submission upsert
  // ---------------------------------------------------------------------

  /**
   * `INSERT ... ON CONFLICT (operador_id, maquina_id, data_ref) DO UPDATE`:
   * a first submission of the day is inserted; a later one replaces the
   * answers, the shift and both names and stamps `updated_at`, keeping the
   * stored e-mail and creation time.
   */
  function Upsert(subs: map<SubmissionKey, Submission>, key: SubmissionKey, s: Submission, now: Time)
    : (r: map<SubmissionKey, Submission>)
    ensures r.Keys == subs.Keys + {key}
    ensures forall k :: k in subs && k != key ==> r[k] == subs[k]
    ensures key !in subs ==> r[key] == s
    ensures key in subs ==> (r[key].respostas == s.respostas && r[key].turno == s.turno
      && r[key].operadorNome == s.operadorNome && r[key].maquinaNome == s.maquinaNome
      && r[key].operadorEmail == subs[key].operadorEmail && r[key].createdAt == subs[key].createdAt
      && r[key].updatedAt == Some(now))
  {
    if key in subs then
      subs[key := subs[key].(respostas := s.respostas, turno := s.turno, operadorNome := s.operadorNome,
                             maquinaNome := s.maquinaNome, updatedAt := Some(now))]
    else subs[key := s]
  }

  /** Submitting twice on one day leaves one row: the second answers over the first row's e-mail and creation time. */
  lemma UpsertTwice(subs: map<SubmissionKey, Submission>, key: SubmissionKey, s1: Submission, s2: Submission, t1: Time, t2: Time)
    requires key !in subs
    ensures var r := Upsert(Upsert(subs, key, s1, t1), key, s2, t2);
      r.Keys == subs.Keys + {key}
      && r[key] == s1.(respostas := s2.respostas, turno := s2.turno, operadorNome := s2.operadorNome,
                       maquinaNome := s2.maquinaNome, updatedAt := Some(t2))
  {
    var m1 := Upsert(subs, key, s1, t1);
    var r := Upsert(m1, key, s2, t2);
    assert m1[key] == s1;
    assert r[key].operadorEmail == s1.operadorEmail && r[key].createdAt == s1.createdAt;
  }

  /** The row `POST /checklists/daily/submit` upserts. */
  function SubmissionOf(p: SubmitPlan, beforeTwoPm: bool, now: Time): Submission {
    Submission(p.operadorNome, p.operadorEmail, p.maquinaNome, p.respostas, NormalizeTurno(p.turno, beforeTwoPm), now, None)
  }

  // ---------------------------------------------------------------------
  // Predictive tickets
  // ---------------------------------------------------------------------

  /** A predictive ticket of the machine that is still `Aberto` or `Em Andamento` as stored, and has an item key. */
  predicate OpenPredictive(t: Ticket, maquinaId: Id) {
    t.maquinaId == maquinaId && t.tipo == Some("preditiva") && t.checklistItemKey.Some?
    && (t.status == "Aberto" || t.status == "Em Andamento")
  }

  /** The de-duplication query: an open predictive ticket of this machine for this item key. */
  predicate OpenFor(t: Ticket, maquinaId: Id, key: string) {
    OpenPredictive(t, maquinaId) && t.checklistItemKey == Some(key)
  }

  /** The item keys that already have an open predictive ticket on the machine. */
  function OpenKeys(tickets: map<Id, Ticket>, maquinaId: Id): set<string> {
    set id | id in tickets && OpenPredictive(tickets[id], maquinaId) :: tickets[id].checklistItemKey.value
  }

  /** A key is open exactly when the de-duplication query finds a row. */
  lemma OpenKeysMeaning(tickets: map<Id, Ticket>, maquinaId: Id, key: string)
    ensures key in OpenKeys(tickets, maquinaId) <==> exists id :: id in tickets && OpenFor(tickets[id], maquinaId, key)
  {
    if key in OpenKeys(tickets, maquinaId) {
      var id :| id in tickets && OpenPredictive(tickets[id], maquinaId) && tickets[id].checklistItemKey.value == key;
      assert OpenFor(tickets[id], maquinaId, key);
    }
  }

  /** `Checklist: item "<pergunta>" marcado como NÃO.` */
  function SpawnDescription(pergunta: string): string {
    "Checklist: item \"" + pergunta + "\" marcado como N\U{C3}O."
  }

  /** The ticket a `nao` answer opens: predictive, `Aberto`, unassigned, created by the operator. */
  function SpawnedTicket(maquinaId: Id, operadorId: Id, pergunta: string, key: string, now: Time): (t: Ticket)
    ensures OpenFor(t, maquinaId, key)
    ensures t.item == Some(pergunta) && t.criadoPorId == operadorId && t.manutentorId.None?
    ensures t.descricao == SpawnDescription(pergunta) && t.status == "Aberto"
  {
    // The INSERT names maquina_id, tipo, status, descricao, criado_por_id, item and checklist_item_key.
    Ticket(maquinaId, Some("preditiva"), "Aberto", SpawnDescription(pergunta), operadorId, None, None,
      None, None, None, None, None, None, None, None, None, None, None, None, None, None,
      Some(pergunta), Some(key), now, None)
  }

  /** A new open ticket adds its key to the open keys and nothing else. */
  lemma OpenKeysInsert(tickets: map<Id, Ticket>, id: Id, t: Ticket, maquinaId: Id, key: string)
    requires id !in tickets && OpenFor(t, maquinaId, key)
    ensures OpenKeys(tickets[id := t], maquinaId) == OpenKeys(tickets, maquinaId) + {key}
  {
    var after := tickets[id := t];
    forall k | k in OpenKeys(after, maquinaId) ensures k in OpenKeys(tickets, maquinaId) + {key} {
      var j :| j in after && OpenPredictive(after[j], maquinaId) && after[j].checklistItemKey.value == k;
      if j != id {
        assert j in tickets && OpenPredictive(tickets[j], maquinaId);
      }
    }
    forall k | k in OpenKeys(tickets, maquinaId) ensures k in OpenKeys(after, maquinaId) {
      var j :| j in tickets && OpenPredictive(tickets[j], maquinaId) && tickets[j].checklistItemKey.value == k;
      assert after[j] == tickets[j];
    }
    assert after[id] == t;
  }

  /**
   * The questions that open a ticket, in the order of `Object.entries`: an
   * answer exactly `nao` whose item key (`keyOf`, which is `slugify`) has no
   * open ticket yet, counting the ones spawned earlier in the same submission.
   */
  function Spawned(entries: seq<(string, Js.Value)>, open: set<string>, keyOf: string -> string): (qs: seq<string>)
    decreases |entries|
  {
    if entries == [] then []
    else
      var (pergunta, valor) := entries[0];
      if valor == Js.Str("nao") && keyOf(pergunta) !in open then
        [pergunta] + Spawned(entries[1..], open + {keyOf(pergunta)}, keyOf)
      else Spawned(entries[1..], open, keyOf)
  }

  /** The keys of some questions. */
  function KeysOf(qs: seq<string>, keyOf: string -> string): set<string> {
    set i | 0 <= i < |qs| :: keyOf(qs[i])
  }

  /** Every question that opens a ticket was answered exactly `nao`. */
  lemma {:induction false} SpawnedAnsweredNao(entries: seq<(string, Js.Value)>, open: set<string>, keyOf: string -> string)
    ensures forall q :: q in Spawned(entries, open, keyOf) ==> (q, Js.Str("nao")) in entries
    decreases |entries|
  {
    if entries != [] {
      var pergunta := entries[0].0;
      var open' := if entries[0].1 == Js.Str("nao") && keyOf(pergunta) !in open then open + {keyOf(pergunta)} else open;
      SpawnedAnsweredNao(entries[1..], open', keyOf);
      forall q | q in Spawned(entries[1..], open', keyOf) ensures (q, Js.Str("nao")) in entries {
        assert (q, Js.Str("nao")) in entries[1..];
      }
    }
  }

  /** No spawned ticket repeats a key that was open before the submission. */
  lemma {:induction false} SpawnedKeysFresh(entries: seq<(string, Js.Value)>, open: set<string>, keyOf: string -> string)
    ensures forall q :: q in Spawned(entries, open, keyOf) ==> keyOf(q) !in open
    decreases |entries|
  {
    if entries != [] {
      var pergunta := entries[0].0;
      if entries[0].1 == Js.Str("nao") && keyOf(pergunta) !in open {
        SpawnedKeysFresh(entries[1..], open + {keyOf(pergunta)}, keyOf);
      } else {
        SpawnedKeysFresh(entries[1..], open, keyOf);
      }
    }
  }

  /** No two tickets of one submission share an item key: two questions with one slug open at most one ticket. */
  lemma {:induction false} SpawnedKeysDistinct(entries: seq<(string, Js.Value)>, open: set<string>, keyOf: string -> string)
    ensures forall i, j :: 0 <= i < j < |Spawned(entries, open, keyOf)| ==>
      keyOf(Spawned(entries, open, keyOf)[i]) != keyOf(Spawned(entries, open, keyOf)[j])
    decreases |entries|
  {
    if entries != [] {
      var pergunta := entries[0].0;
      if entries[0].1 == Js.Str("nao") && keyOf(pergunta) !in open {
        var open' := open + {keyOf(pergunta)};
        SpawnedKeysDistinct(entries[1..], open', keyOf);
        SpawnedKeysFresh(entries[1..], open', keyOf);
        var rest := Spawned(entries[1..], open', keyOf);
        var qs := [pergunta] + rest;
        assert qs == Spawned(entries, open, keyOf);
        forall i, j | 0 <= i < j < |qs| ensures keyOf(qs[i]) != keyOf(qs[j]) {
          assert qs[j] == rest[j - 1] && rest[j - 1] in rest;
          if i > 0 {
            assert qs[i] == rest[i - 1];
          }
        }
      } else {
        SpawnedKeysDistinct(entries[1..], open, keyOf);
      }
    }
  }

  /** After a submission, every question answered `nao` has an open ticket for its item key. */
  lemma {:induction false} SpawnedCoverNao(entries: seq<(string, Js.Value)>, open: set<string>, keyOf: string -> string)
    ensures forall i :: 0 <= i < |entries| && entries[i].1 == Js.Str("nao") ==>
      keyOf(entries[i].0) in open + KeysOf(Spawned(entries, open, keyOf), keyOf)
    decreases |entries|
  {
    if entries != [] {
      var (pergunta, valor) := entries[0];
      if valor == Js.Str("nao") && keyOf(pergunta) !in open {
        var open' := open + {keyOf(pergunta)};
        SpawnedCoverNao(entries[1..], open', keyOf);
        var rest := Spawned(entries[1..], open', keyOf);
        var qs := [pergunta] + rest;
        assert qs == Spawned(entries, open, keyOf);
        assert keyOf(qs[0]) in KeysOf(qs, keyOf);
        forall i | 0 <= i < |entries| && entries[i].1 == Js.Str("nao") ensures keyOf(entries[i].0) in open + KeysOf(qs, keyOf) {
          if i > 0 {
            assert entries[i] == entries[1..][i - 1];
            var k := keyOf(entries[i].0);
            if k !in open' {
              var j :| 0 <= j < |rest| && keyOf(rest[j]) == k;
              assert qs[j + 1] == rest[j];
            }
          }
        }
      } else {
        SpawnedCoverNao(entries[1..], open, keyOf);
        var rest := Spawned(entries[1..], open, keyOf);
        assert rest == Spawned(entries, open, keyOf);
        forall i | 0 <= i < |entries| && entries[i].1 == Js.Str("nao") ensures keyOf(entries[i].0) in open + KeysOf(rest, keyOf) {
          if i > 0 {
            assert entries[i] == entries[1..][i - 1];
          }
        }
      }
    }
  }

  /** One step of `Spawned` at position `i`. */
  lemma SpawnedStep(entries: seq<(string, Js.Value)>, i: nat, open: set<string>, keyOf: string -> string)
    requires i < |entries|
    ensures Spawned(entries[i..], open, keyOf) ==
      if entries[i].1 == Js.Str("nao") && keyOf(entries[i].0) !in open
      then [entries[i].0] + Spawned(entries[i + 1..], open + {keyOf(entries[i].0)}, keyOf)
      else Spawned(entries[i + 1..], open, keyOf)
  {
    assert entries[i..][0] == entries[i] && entries[i..][1..] == entries[i + 1..];
  }

  /** `m` with the tickets `ts` inserted under the keys `next`, `next + 1`, .... */
  function Appended(m: map<Id, Ticket>, next: Id, ts: seq<Ticket>): map<Id, Ticket>
    decreases |ts|
  {
    if ts == [] then m
    else Appended(m, next, ts[..|ts| - 1])[(next + |ts| - 1) as Id := ts[|ts| - 1]]
  }

  /** The ids after the inserts: the old ones and `next` up to, not including, `next + |ts|`. */
  lemma {:induction false} AppendedDomain(m: map<Id, Ticket>, next: Id, ts: seq<Ticket>)
    ensures forall k :: k in Appended(m, next, ts) <==> k in m || next <= k < next + |ts|
    decreases |ts|
  {
    if ts != [] {
      AppendedDomain(m, next, ts[..|ts| - 1]);
    }
  }

  /** Inserted tickets are stored under their ids, and the rows that were there are kept. */
  lemma {:induction false} AppendedContents(m: map<Id, Ticket>, next: Id, ts: seq<Ticket>)
    requires forall k :: k in m ==> k < next
    ensures forall k :: 0 <= k < |ts| ==> (next + k) as Id in Appended(m, next, ts) && Appended(m, next, ts)[(next + k) as Id] == ts[k]
    ensures forall k :: k in m ==> k in Appended(m, next, ts) && Appended(m, next, ts)[k] == m[k]
    decreases |ts|
  {
    if ts != [] {
      AppendedContents(m, next, ts[..|ts| - 1]);
      AppendedDomain(m, next, ts[..|ts| - 1]);
      var before := Appended(m, next, ts[..|ts| - 1]);
      assert Appended(m, next, ts) == before[(next + |ts| - 1) as Id := ts[|ts| - 1]];
      forall k | 0 <= k < |ts|
        ensures (next + k) as Id in Appended(m, next, ts) && Appended(m, next, ts)[(next + k) as Id] == ts[k]
      {
        if k < |ts| - 1 {
          assert ts[..|ts| - 1][k] == ts[k];
        }
      }
    }
  }

  /** The tickets a list of questions opens. */
  function SpawnedTickets(maquinaId: Id, operadorId: Id, qs: seq<string>, keyOf: string -> string, now: Time): (ts: seq<Ticket>)
    ensures |ts| == |qs| && forall i :: 0 <= i < |qs| ==> ts[i] == SpawnedTicket(maquinaId, operadorId, qs[i], keyOf(qs[i]), now)
  {
    seq(|qs|, i requires 0 <= i < |qs| => SpawnedTicket(maquinaId, operadorId, qs[i], keyOf(qs[i]), now))
  }

  /** One more insert after the others. */
  lemma AppendedStep(m: map<Id, Ticket>, next: Id, ts: seq<Ticket>, t: Ticket)
    ensures Appended(m, next, ts + [t]) == Appended(m, next, ts)[(next + |ts|) as Id := t]
  {
    assert (ts + [t])[..|ts|] == ts;
  }

  /** One more question after the others. */
  lemma SpawnedTicketsStep(maquinaId: Id, operadorId: Id, qs: seq<string>, q: string, keyOf: string -> string, now: Time)
    ensures SpawnedTickets(maquinaId, operadorId, qs + [q], keyOf, now)
      == SpawnedTickets(maquinaId, operadorId, qs, keyOf, now) + [SpawnedTicket(maquinaId, operadorId, q, keyOf(q), now)]
  {
    var ts := SpawnedTickets(maquinaId, operadorId, qs + [q], keyOf, now);
    var us := SpawnedTickets(maquinaId, operadorId, qs, keyOf, now) + [SpawnedTicket(maquinaId, operadorId, q, keyOf(q), now)];
    assert |ts| == |us|;
    forall i | 0 <= i < |ts| ensures ts[i] == us[i] {
      assert (qs + [q])[i] == if i < |qs| then qs[i] else q;
    }
  }

  lemma ConcatAssoc<T>(a: seq<T>, b: seq<T>, c: seq<T>)
    ensures a + (b + c) == (a + b) + c
  {
  }

  lemma KeysOfStep(qs: seq<string>, q: string, keyOf: string -> string)
    ensures KeysOf(qs + [q], keyOf) == KeysOf(qs, keyOf) + {keyOf(q)}
  {
    var ps := qs + [q];
    forall k | k in KeysOf(ps, keyOf) ensures k in KeysOf(qs, keyOf) + {keyOf(q)} {
      var i :| 0 <= i < |ps| && keyOf(ps[i]) == k;
      if i < |qs| {
        assert ps[i] == qs[i];
      }
    }
    forall k | k in KeysOf(qs, keyOf) ensures k in KeysOf(ps, keyOf) {
      var i :| 0 <= i < |qs| && keyOf(qs[i]) == k;
      assert ps[i] == qs[i];
    }
    assert ps[|qs|] == q;
  }

  /** The open keys after the loop: those open before, and one per opened ticket. */
  lemma {:induction false} OpenKeysAppended(m: map<Id, Ticket>, next: Id, maquinaId: Id, operadorId: Id, qs: seq<string>,
                                            keyOf: string -> string, now: Time)
    requires forall k :: k in m ==> k < next
    ensures OpenKeys(Appended(m, next, SpawnedTickets(maquinaId, operadorId, qs, keyOf, now)), maquinaId)
      == OpenKeys(m, maquinaId) + KeysOf(qs, keyOf)
    decreases |qs|
  {
    if qs == [] {
      assert SpawnedTickets(maquinaId, operadorId, qs, keyOf, now) == [];
      assert KeysOf(qs, keyOf) == {};
    } else {
      var ps := qs[..|qs| - 1];
      var q := qs[|qs| - 1];
      assert qs == ps + [q];
      OpenKeysAppended(m, next, maquinaId, operadorId, ps, keyOf, now);
      var before := Appended(m, next, SpawnedTickets(maquinaId, operadorId, ps, keyOf, now));
      var t := SpawnedTicket(maquinaId, operadorId, q, keyOf(q), now);
      SpawnedTicketsStep(maquinaId, operadorId, ps, q, keyOf, now);
      AppendedStep(m, next, SpawnedTickets(maquinaId, operadorId, ps, keyOf, now), t);
      var id := (next + |ps|) as Id;
      AppendedDomain(m, next, SpawnedTickets(maquinaId, operadorId, ps, keyOf, now));
      assert id !in before;
      OpenKeysInsert(before, id, t, maquinaId, keyOf(q));
      KeysOfStep(ps, q, keyOf);
    }
  }

  /**
   * After a submission every question answered `nao` has an open predictive
   * ticket for its item key on that machine, whether it was open before or
   * opened now.
   */
  lemma SubmissionLeavesNaoOpen(tickets: map<Id, Ticket>, next: Id, maquinaId: Id, operadorId: Id,
                                entries: seq<(string, Js.Value)>, now: Time)
    requires forall k :: k in tickets ==> k < next
    ensures var after := Appended(tickets, next,
        SpawnedTickets(maquinaId, operadorId, Spawned(entries, OpenKeys(tickets, maquinaId), Slugify), Slugify, now));
      forall i :: 0 <= i < |entries| && entries[i].1 == Js.Str("nao") ==> Slugify(entries[i].0) in OpenKeys(after, maquinaId)
  {
    var qs := Spawned(entries, OpenKeys(tickets, maquinaId), Slugify);
    SpawnedCoverNao(entries, OpenKeys(tickets, maquinaId), Slugify);
    OpenKeysAppended(tickets, next, maquinaId, operadorId, qs, Slugify, now);
  }

  /** One answer of the loop: a `nao` whose key has no open ticket opens one. */
  method VisitAnswer(db: Database, maquinaId: Id, operadorId: Id, pergunta: string, valor: Js.Value, keyOf: string -> string, now: Time)
    returns (spawned: bool)
    requires db.Valid()
    modifies db`chamados, db`nextChamadoId
    ensures db.Valid()
    ensures spawned <==> valor == Js.Str("nao") && keyOf(pergunta) !in OpenKeys(old(db.chamados), maquinaId)
    ensures spawned ==> (old(db.nextChamadoId) !in old(db.chamados)
      && db.chamados == old(db.chamados)[old(db.nextChamadoId) := SpawnedTicket(maquinaId, operadorId, pergunta, keyOf(pergunta), now)]
      && db.nextChamadoId == old(db.nextChamadoId) + 1
      && OpenKeys(db.chamados, maquinaId) == OpenKeys(old(db.chamados), maquinaId) + {keyOf(pergunta)})
    ensures !spawned ==> db.chamados == old(db.chamados) && db.nextChamadoId == old(db.nextChamadoId)
  {
    spawned := false;
    if valor == Js.Str("nao") {
      var key := keyOf(pergunta);
      if key !in OpenKeys(db.chamados, maquinaId) {
        var t := SpawnedTicket(maquinaId, operadorId, pergunta, key, now);
        var id := db.InsertChamado(t);
        OpenKeysInsert(old(db.chamados), id, t, maquinaId, key);
        spawned := true;
      }
    }
  }

  /**
   * Where the ticket loop stands after `i` answers: `done` are the questions
   * opened so far, `open` the keys open now, `tickets` the table now.
   */
  ghost predicate Progress(entries: seq<(string, Js.Value)>, i: nat, open0: set<string>, keyOf: string -> string,
                           done: seq<string>, open: set<string>, tickets: map<Id, Ticket>, m0: map<Id, Ticket>, n0: Id,
                           maquinaId: Id, operadorId: Id, now: Time)
  {
    && i <= |entries|
    && done + Spawned(entries[i..], open, keyOf) == Spawned(entries, open0, keyOf)
    && tickets == Appended(m0, n0, SpawnedTickets(maquinaId, operadorId, done, keyOf, now))
  }

  /** The loop's invariant after an answer that opened a ticket. */
  lemma LoopStepSpawned(entries: seq<(string, Js.Value)>, i: nat, open0: set<string>, keyOf: string -> string,
                        done: seq<string>, open: set<string>, before: map<Id, Ticket>, after: map<Id, Ticket>,
                        m0: map<Id, Ticket>, n0: Id, maquinaId: Id, operadorId: Id, now: Time)
    requires i < |entries| && Progress(entries, i, open0, keyOf, done, open, before, m0, n0, maquinaId, operadorId, now)
    requires entries[i].1 == Js.Str("nao") && keyOf(entries[i].0) !in open
    requires after == before[(n0 + |done|) as Id := SpawnedTicket(maquinaId, operadorId, entries[i].0, keyOf(entries[i].0), now)]
    ensures Progress(entries, i + 1, open0, keyOf, done + [entries[i].0], open + {keyOf(entries[i].0)}, after, m0, n0,
                     maquinaId, operadorId, now)
  {
    var q := entries[i].0;
    SpawnedStep(entries, i, open, keyOf);
    ConcatAssoc(done, [q], Spawned(entries[i + 1..], open + {keyOf(q)}, keyOf));
    SpawnedTicketsStep(maquinaId, operadorId, done, q, keyOf, now);
    AppendedStep(m0, n0, SpawnedTickets(maquinaId, operadorId, done, keyOf, now), SpawnedTicket(maquinaId, operadorId, q, keyOf(q), now));
  }

  /** The loop's invariant after an answer that opened nothing. */
  lemma LoopStepSkipped(entries: seq<(string, Js.Value)>, i: nat, open0: set<string>, keyOf: string -> string,
                        done: seq<string>, open: set<string>, tickets: map<Id, Ticket>,
                        m0: map<Id, Ticket>, n0: Id, maquinaId: Id, operadorId: Id, now: Time)
    requires i < |entries| && Progress(entries, i, open0, keyOf, done, open, tickets, m0, n0, maquinaId, operadorId, now)
    requires !(entries[i].1 == Js.Str("nao") && keyOf(entries[i].0) !in open)
    ensures Progress(entries, i + 1, open0, keyOf, done, open, tickets, m0, n0, maquinaId, operadorId, now)
  {
    SpawnedStep(entries, i, open, keyOf);
  }

  /** At the end of the loop the opened questions are exactly `Spawned`. */
  lemma LoopDone(entries: seq<(string, Js.Value)>, open0: set<string>, keyOf: string -> string,
                 done: seq<string>, open: set<string>, tickets: map<Id, Ticket>,
                 m0: map<Id, Ticket>, n0: Id, maquinaId: Id, operadorId: Id, now: Time)
    requires Progress(entries, |entries|, open0, keyOf, done, open, tickets, m0, n0, maquinaId, operadorId, now)
    ensures done == Spawned(entries, open0, keyOf)
    ensures tickets == Appended(m0, n0, SpawnedTickets(maquinaId, operadorId, Spawned(entries, open0, keyOf), keyOf, now))
  {
    assert entries[|entries|..] == [];
    assert done + [] == done;
  }

  /** One turn of the loop, carrying `Progress` from answer `i` to answer `i + 1`. */
  method LoopTurn(db: Database, entries: seq<(string, Js.Value)>, i: nat, maquinaId: Id, operadorId: Id,
                  keyOf: string -> string, now: Time, ghost open0: set<string>, ghost done: seq<string>, ghost open: set<string>,
                  ghost m0: map<Id, Ticket>, ghost n0: Id)
    returns (spawned: bool, ghost done': seq<string>, ghost open': set<string>)
    requires i < |entries| && db.Valid() && open == OpenKeys(db.chamados, maquinaId) && db.nextChamadoId == n0 + |done|
    requires Progress(entries, i, open0, keyOf, done, open, db.chamados, m0, n0, maquinaId, operadorId, now)
    modifies db`chamados, db`nextChamadoId
    ensures db.Valid() && open' == OpenKeys(db.chamados, maquinaId) && db.nextChamadoId == n0 + |done'|
    ensures |done'| == |done| + (if spawned then 1 else 0)
    ensures Progress(entries, i + 1, open0, keyOf, done', open', db.chamados, m0, n0, maquinaId, operadorId, now)
  {
    ghost var before := db.chamados;
    spawned := VisitAnswer(db, maquinaId, operadorId, entries[i].0, entries[i].1, keyOf, now);
    if spawned {
      LoopStepSpawned(entries, i, open0, keyOf, done, open, before, db.chamados, m0, n0, maquinaId, operadorId, now);
      open' := open + {keyOf(entries[i].0)};
      done' := done + [entries[i].0];
    } else {
      LoopStepSkipped(entries, i, open0, keyOf, done, open, db.chamados, m0, n0, maquinaId, operadorId, now);
      open', done' := open, done;
    }
  }

  /** The loop itself, leaving `Progress` at the last answer. */
  method SpawnLoop(db: Database, entries: seq<(string, Js.Value)>, maquinaId: Id, operadorId: Id, keyOf: string -> string, now: Time)
    returns (gerados: nat, ghost done: seq<string>, ghost open: set<string>)
    requires db.Valid()
    modifies db`chamados, db`nextChamadoId
    ensures db.Valid()
    ensures gerados == |done| && db.nextChamadoId == old(db.nextChamadoId) + gerados
    ensures Progress(entries, |entries|, OpenKeys(old(db.chamados), maquinaId), keyOf, done, open, db.chamados,
                     old(db.chamados), old(db.nextChamadoId), maquinaId, operadorId, now)
  {
    ghost var m0, n0 := db.chamados, db.nextChamadoId;
    ghost var open0 := OpenKeys(db.chamados, maquinaId);
    open := open0;
    done := [];
    gerados := 0;
    var i := 0;
    while i < |entries|
      invariant db.Valid() && i <= |entries|
      invariant gerados == |done| && db.nextChamadoId == n0 + gerados && open == OpenKeys(db.chamados, maquinaId)
      invariant Progress(entries, i, open0, keyOf, done, open, db.chamados, m0, n0, maquinaId, operadorId, now)
    {
      var spawned;
      spawned, done, open := LoopTurn(db, entries, i, maquinaId, operadorId, keyOf, now, open0, done, open, m0, n0);
      if spawned {
        gerados := gerados + 1;
      }
      i := i + 1;
    }
  }

  /**
   * The ticket loop of the submit route: each answer is checked against the
   * tickets as they stand, including those spawned earlier in the loop.
   * `keyOf` is how a question becomes its item key: `Submit` passes
   * `Slugify`. Returns `chamados_gerados`.
   */
  method SpawnTickets(db: Database, entries: seq<(string, Js.Value)>, maquinaId: Id, operadorId: Id, keyOf: string -> string, now: Time)
    returns (gerados: nat)
    requires db.Valid()
    modifies db`chamados, db`nextChamadoId
    ensures db.Valid()
    ensures var qs := Spawned(entries, OpenKeys(old(db.chamados), maquinaId), keyOf);
      && gerados == |qs|
      && db.nextChamadoId == old(db.nextChamadoId) + gerados
      && db.chamados == Appended(old(db.chamados), old(db.nextChamadoId), SpawnedTickets(maquinaId, operadorId, qs, keyOf, now))
  {
    ghost var done, open;
    gerados, done, open := SpawnLoop(db, entries, maquinaId, operadorId, keyOf, now);
    LoopDone(entries, OpenKeys(old(db.chamados), maquinaId), keyOf, done, open, db.chamados, old(db.chamados), old(db.nextChamadoId),
      maquinaId, operadorId, now);
  }

  /**
   * `POST /checklists/daily/submit`: the plan's checks, then the upsert of
   * the day's submission (`today` is the local calendar day), then the
   * ticket loop. Nothing changes on an error.
   */
  method Submit(db: Database, castId: IdCast, auth: Option<RequestUser>, body: Js.Value, today: nat, beforeTwoPm: bool, now: Time)
    returns (r: Result<nat, Failure>)
    requires db.Valid()
    modifies db`submissoes, db`chamados, db`nextChamadoId
    ensures db.Valid()
    ensures var plan := PlanSubmit(old(db.usuarios), old(db.maquinas), castId, auth, body);
      && (plan.Err? ==> r == Err(plan.error) && db.submissoes == old(db.submissoes) && db.chamados == old(db.chamados))
      && (plan.Ok? ==> (
           var p := plan.value;
           var qs := Spawned(Js.Entries(p.respostas), OpenKeys(old(db.chamados), p.maquinaId), Slugify);
           && r == Ok(|qs|)
           && db.submissoes == Upsert(old(db.submissoes), SubmissionKey(p.operadorId, p.maquinaId, today),
                                      SubmissionOf(p, beforeTwoPm, now), now)
           && db.chamados == Appended(old(db.chamados), old(db.nextChamadoId), SpawnedTickets(p.maquinaId, p.operadorId, qs, Slugify, now))))
  {
    var plan := PlanSubmit(db.usuarios, db.maquinas, castId, auth, body);
    if plan.Err? {
      return Err(plan.error);
    }
    var p := plan.value;
    db.submissoes := Upsert(db.submissoes, SubmissionKey(p.operadorId, p.maquinaId, today), SubmissionOf(p, beforeTwoPm, now), now);
    var gerados := SpawnTickets(db, Js.Entries(p.respostas), p.maquinaId, p.operadorId, Slugify, now);
    r := Ok(gerados);
  }
}
