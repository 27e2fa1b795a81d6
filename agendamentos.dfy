/**
 * The preventive schedule routes (apps/api/src/routes/agendamentos.ts):
 * the list limit, creating a schedule entry, rescheduling it, and starting
 * the maintenance it plans, which opens a preventive ticket.
 */
module Agendamentos {
  import opened Wrappers
  import opened Text
  import Js
  import opened Status
  import opened Roles
  import opened Http
  import opened Db
  import opened ChecklistTemplate

  // ---------------------------------------------------------------------
  // GET /agendamentos
  // ---------------------------------------------------------------------

  /** `Math.min(Math.max(parseInt(limit ?? '0', 10) || 0, 0), 500)`; 0 means no `LIMIT`. */
  function ListLimit(limit: Option<string>): (n: nat)
    ensures n <= 500
  {
    var p := ParseInt(limit.GetOr("0"));
    var v: int := if p.None? then 0 else p.value;
    if v < 0 then 0 else if v > 500 then 500 else v
  }

  /** A limit written in decimal is that limit, cut at 500. */
  lemma ListLimitOfDecimal(k: nat)
    ensures ListLimit(Some(NatToString(k))) == if k > 500 then 500 else k
  {
    ParseIntOfDecimal(k);
  }

  /** A missing limit and a negative one both mean no limit. */
  lemma ListLimitDefaults(k: nat)
    ensures ListLimit(None) == 0
    ensures ListLimit(Some("-" + NatToString(k))) == 0
  {
    ParseIntOfDecimal(0);
    var s := "-" + NatToString(k);
    var d := NatToString(k);
    assert s[0] == '-' && !IsWhitespace(s[0]);
    TrimStartKeepsNonWhitespaceStart(s);
    assert s[1..] == d;
    DigitPrefixOfDigits(d);
  }

  /** The order of the list: `order === 'recent'` is newest first, anything else by start time. */
  datatype ListOrder = RecentFirst | ByStart

  function ListOrderOf(order: Option<string>): (o: ListOrder)
    ensures o == RecentFirst <==> order == Some("recent")
  {
    if order == Some("recent") then RecentFirst else ByStart
  }

  // ---------------------------------------------------------------------
  // POST /agendamentos
  // ---------------------------------------------------------------------

  /** The row a new schedule entry gets: status `agendado`, both start columns from `start`, both end columns from `end`. */
  function NewSchedule(maquinaId: Id, descricao: Js.Value, itens: Js.Value, start: Js.Value, end: Js.Value,
                       parse: string -> Option<Js.Value>, now: Time): (s: Schedule)
    ensures NormalizeAgendamentoStatus(s.status) == Agendado
    ensures s.startTs == start && s.originalStart == start && s.endTs == end && s.originalEnd == end
    ensures s.descricao == Trim(Js.ToStr(descricao)) && s.itensChecklist == TemplateJson(NormalizeChecklist(itens, parse))
    ensures s.criadoEm == now && s.iniciadoEm.None? && s.concluidoEm.None?
  {
    AgendamentoStatusLabelRoundTrip(Agendado);
    Schedule(maquinaId, Trim(Js.ToStr(descricao)), TemplateJson(NormalizeChecklist(itens, parse)), start, end, start, end,
      AgendamentoLabel(Agendado), now, None, None)
  }

  /**
   * The decision of `POST /agendamentos` (which has no role check): the four
   * required fields must be truthy; a machine id the database does not take
   * as an existing machine makes the `INSERT` fail.
   */
  function PlanCreateSchedule(machines: seq<Machine>, castId: IdCast, body: Js.Value, parse: string -> Option<Js.Value>, now: Time)
    : (r: Result<Schedule, Failure>)
    ensures var maquinaId, descricao := Js.Get(body, "maquinaId"), Js.Get(body, "descricao");
      var start, end := Js.Get(body, "start"), Js.Get(body, "end");
      && ((!Js.Truthy(maquinaId) || !Js.Truthy(descricao) || !Js.Truthy(start) || !Js.Truthy(end)) ==>
           r == Err(Fail(400, "Campos obrigatorios: maquinaId, descricao, start, end.")))
      && (r.Ok? ==> (castId(maquinaId) == Some(r.value.maquinaId) && FindMachine(machines, r.value.maquinaId).Some?
           && r.value == NewSchedule(r.value.maquinaId, descricao, Js.Get(body, "itensChecklist"), start, end, parse, now)))
      && (Js.Truthy(maquinaId) && Js.Truthy(descricao) && Js.Truthy(start) && Js.Truthy(end) && r.Err? ==> r.error == DatabaseError)
    ensures var maquinaId := Js.Get(body, "maquinaId");
      Js.Truthy(maquinaId) && Js.Truthy(Js.Get(body, "descricao")) && Js.Truthy(Js.Get(body, "start")) && Js.Truthy(Js.Get(body, "end"))
      && castId(maquinaId).Some? && FindMachine(machines, castId(maquinaId).value).Some? ==>
      r == Ok(NewSchedule(castId(maquinaId).value, Js.Get(body, "descricao"), Js.Get(body, "itensChecklist"),
        Js.Get(body, "start"), Js.Get(body, "end"), parse, now))
  {
    var maquinaId, descricao := Js.Get(body, "maquinaId"), Js.Get(body, "descricao");
    var start, end := Js.Get(body, "start"), Js.Get(body, "end");
    if !Js.Truthy(maquinaId) || !Js.Truthy(descricao) || !Js.Truthy(start) || !Js.Truthy(end) then
      Err(Fail(400, "Campos obrigatorios: maquinaId, descricao, start, end."))
    else
      match castId(maquinaId)
      case None => Err(DatabaseError)
      case Some(mid) =>
        if FindMachine(machines, mid).None? then Err(DatabaseError)
        else Ok(NewSchedule(mid, descricao, Js.Get(body, "itensChecklist"), start, end, parse, now))
  }

  /** `POST /agendamentos`: the entry is inserted with the next id, or nothing changes. */
  method CreateSchedule(db: Database, castId: IdCast, body: Js.Value, parse: string -> Option<Js.Value>, now: Time) returns (r: Result<Id, Failure>)
    requires db.Valid()
    modifies db`agendamentos, db`nextAgendamentoId
    ensures db.Valid()
    ensures var plan := PlanCreateSchedule(db.maquinas, castId, body, parse, now);
      && (plan.Err? ==> r == Err(plan.error) && db.agendamentos == old(db.agendamentos))
      && (plan.Ok? ==> (r == Ok(old(db.nextAgendamentoId)) && old(db.nextAgendamentoId) !in old(db.agendamentos)
           && db.agendamentos == old(db.agendamentos)[old(db.nextAgendamentoId) := plan.value]))
  {
    var plan := PlanCreateSchedule(db.maquinas, castId, body, parse, now);
    if plan.Err? {
      return Err(plan.error);
    }
    var id := db.InsertAgendamento(plan.value);
    r := Ok(id);
  }

  /** The template a new entry stores reads back unchanged whenever its keys are kept (see `StoredTemplateRoundTrip`). */
  lemma NewScheduleTemplateIsStable(itens: Js.Value, parse: string -> Option<Js.Value>, parse2: string -> Option<Js.Value>)
    requires var items := NormalizeChecklist(itens, parse);
      forall k :: 0 <= k < |items| ==> items[k].key != [] || items[k].key == Slug.Slugify(items[k].texto)
    ensures NormalizeChecklist(TemplateJson(NormalizeChecklist(itens, parse)), parse2) == NormalizeChecklist(itens, parse)
  {
    StoredTemplateRoundTrip(NormalizeChecklist(itens, parse), parse2);
  }

  // ---------------------------------------------------------------------
  // PATCH /agendamentos/:id
  // ---------------------------------------------------------------------

  /** `req.user?.role ?? 'operador'`. */
  function ScheduleRole(user: Option<RequestUser>): Role {
    if user.Some? then user.value.role else Operador
  }

  /** The `SET` list of a reschedule: each column the body gives a value for. */
  datatype ScheduleChanges = ScheduleChanges(start: Option<Js.Value>, end: Option<Js.Value>, status: Option<AgendamentoStatus>)

  /** A truthy `start` or `end` is written; a `status` other than `undefined` is normalised (never failing) and written. */
  function ChangesOf(body: Js.Value): (c: ScheduleChanges)
    ensures c.start.Some? <==> Js.Truthy(Js.Get(body, "start"))
    ensures c.end.Some? <==> Js.Truthy(Js.Get(body, "end"))
    ensures c.status.Some? <==> !Js.Get(body, "status").Undefined?
    ensures c.start.Some? ==> c.start.value == Js.Get(body, "start")
    ensures c.end.Some? ==> c.end.value == Js.Get(body, "end")
    ensures c.status.Some? ==> c.status.value == NormalizeAgendamentoStatus(Js.ToStr(Js.Get(body, "status")))
  {
    var start, end, status := Js.Get(body, "start"), Js.Get(body, "end"), Js.Get(body, "status");
    ScheduleChanges(
      if Js.Truthy(start) then Some(start) else None,
      if Js.Truthy(end) then Some(end) else None,
      if status.Undefined? then None else Some(NormalizeAgendamentoStatus(Js.ToStr(status))))
  }

  /** The `UPDATE` of a reschedule: a written status also sets `concluido_em`, to now for `concluido` and to NULL otherwise. */
  function Reschedule(s: Schedule, c: ScheduleChanges, now: Time): (t: Schedule)
    ensures t.startTs == (if c.start.Some? then c.start.value else s.startTs)
    ensures t.endTs == (if c.end.Some? then c.end.value else s.endTs)
    ensures c.status.Some? ==> (NormalizeAgendamentoStatus(t.status) == c.status.value
      && (t.concluidoEm.Some? <==> c.status.value == AgConcluido) && (t.concluidoEm.Some? ==> t.concluidoEm == Some(now)))
    ensures c.status.None? ==> t.status == s.status && t.concluidoEm == s.concluidoEm
    ensures t.(startTs := s.startTs, endTs := s.endTs, status := s.status, concluidoEm := s.concluidoEm) == s
  {
    var s1 := if c.start.Some? then s.(startTs := c.start.value) else s;
    var s2 := if c.end.Some? then s1.(endTs := c.end.value) else s1;
    if c.status.Some? then
      AgendamentoStatusLabelRoundTrip(c.status.value);
      s2.(status := AgendamentoLabel(c.status.value),
          concluidoEm := if c.status.value == AgConcluido then Some(now) else None)
    else s2
  }

  /** The decision of `PATCH /agendamentos/:id`: gestor only, something to change, an entry that exists. */
  function PlanReschedule(schedules: map<Id, Schedule>, user: Option<RequestUser>, id: Id, body: Js.Value, now: Time)
    : (r: Result<Schedule, Failure>)
    ensures ScheduleRole(user) != Gestor ==> r == Err(Fail(403, "Somente gestor pode reagendar."))
    ensures ScheduleRole(user) == Gestor && ChangesOf(body) == ScheduleChanges(None, None, None) ==>
      r == Err(Fail(400, "Nada para atualizar."))
    ensures ScheduleRole(user) == Gestor && ChangesOf(body) != ScheduleChanges(None, None, None) && id !in schedules ==>
      r == Err(Fail(404, "Agendamento nao encontrado."))
    ensures r.Ok? <==> ScheduleRole(user) == Gestor && ChangesOf(body) != ScheduleChanges(None, None, None) && id in schedules
    ensures r.Ok? ==> r.value == Reschedule(schedules[id], ChangesOf(body), now)
  {
    if ScheduleRole(user) != Gestor then Err(Fail(403, "Somente gestor pode reagendar."))
    else
      var c := ChangesOf(body);
      if c == ScheduleChanges(None, None, None) then Err(Fail(400, "Nada para atualizar."))
      else if id !in schedules then Err(Fail(404, "Agendamento nao encontrado."))
      else Ok(Reschedule(schedules[id], c, now))
  }

  /** `String(null)` is "null", which falls back to `agendado`: a `null` status puts the entry back on the calendar and clears its completion time. */
  lemma NullStatusReschedules(s: Schedule, now: Time)
    ensures var c := ChangesOf(Js.Obj([("status", Js.Null)]));
      c.status == Some(Agendado) && Reschedule(s, c, now).concluidoEm.None?
  {
    var v := Js.Obj([("status", Js.Null)]);
    assert Js.Get(v, "status") == Js.Null;
    assert Js.ToStr(Js.Null) == "null";
    NullIsAgendado();
  }

  /** "null" names no schedule status, so it falls back to `agendado`. */
  lemma NullIsAgendado()
    ensures NormalizeAgendamentoStatus("null") == Agendado
  {
    var n := "null";
    assert forall i :: 0 <= i < |n| ==> 'a' <= n[i] <= 'z';
    WordsWellSpaced(n);
    PlainIsCanonical(n);
    NotStartsWithAt(n, "conclu", 0);
    NotStartsWithAt(n, "inici", 0);
    NotStartsWithAt(n, "cancel", 0);
  }

  /** `PATCH /agendamentos/:id`: the entry is rewritten as planned, or nothing changes. */
  method RescheduleEntry(db: Database, user: Option<RequestUser>, id: Id, body: Js.Value, now: Time) returns (r: Result<Schedule, Failure>)
    modifies db`agendamentos
    ensures r == PlanReschedule(old(db.agendamentos), user, id, body, now)
    ensures r.Ok? ==> db.agendamentos == old(db.agendamentos)[id := r.value]
    ensures r.Err? ==> db.agendamentos == old(db.agendamentos)
  {
    r := PlanReschedule(db.agendamentos, user, id, body, now);
    if r.Ok? {
      db.UpdateAgendamento(id, r.value);
    }
  }

  // ---------------------------------------------------------------------
  // POST /agendamentos/:id/iniciar
  // ---------------------------------------------------------------------

  /** `String(req.body?.criadoPorEmail || user?.email || '').trim().toLowerCase()`. */
  function StarterEmail(user: Option<RequestUser>, body: Js.Value): (e: string)
    ensures Js.Truthy(Js.Get(body, "criadoPorEmail")) ==> e == Lower(Trim(Js.ToStr(Js.Get(body, "criadoPorEmail"))))
    ensures !Js.Truthy(Js.Get(body, "criadoPorEmail")) && user.Some? && user.value.email != [] ==> e == Lower(Trim(user.value.email))
    ensures !Js.Truthy(Js.Get(body, "criadoPorEmail")) && (user.None? || user.value.email == []) ==> e == []
  {
    var header := if user.Some? then Js.Str(user.value.email) else Js.Undefined;
    Lower(Trim(Js.ToStr(Js.Or(Js.Or(Js.Get(body, "criadoPorEmail"), header), Js.Str("")))))
  }

  /** `req.body?.manutentorEmail ? String(...).trim().toLowerCase() : null`. */
  function StartAssigneeEmail(body: Js.Value): (e: Option<string>)
    ensures e.Some? <==> Js.Truthy(Js.Get(body, "manutentorEmail"))
    ensures e.Some? ==> e.value == Lower(Trim(Js.ToStr(Js.Get(body, "manutentorEmail"))))
  {
    var v := Js.Get(body, "manutentorEmail");
    if Js.Truthy(v) then Some(Lower(Trim(Js.ToStr(v)))) else None
  }

  /** `COALESCE(a.itens_checklist, '[]'::jsonb)`. */
  function StoredItems(s: Schedule): Js.Value {
    if s.itensChecklist.Null? then Js.Arr([]) else s.itensChecklist
  }

  /** `Preventiva: ${descricao || maquina_nome}`, trimmed. */
  function StartDescription(s: Schedule, m: Machine): string {
    Trim("Preventiva: " + (if s.descricao != [] then s.descricao else m.nome))
  }

  /** The preventive ticket a start opens: Em Andamento exactly when an assignee was found. */
  function StartTicket(s: Schedule, m: Machine, criadorId: Id, manutentorId: Option<Id>, parse: string -> Option<Js.Value>, now: Time)
    : (t: Ticket)
    ensures StateOf(t) == (if manutentorId.Some? then EmAndamento else Aberto)
    ensures t.tipo == Some("preventiva") && t.tipoChecklist == Some(["preventiva"])
    ensures t.maquinaId == s.maquinaId && t.criadoPorId == criadorId
    ensures t.manutentorId == manutentorId && t.responsavelAtualId == manutentorId
    ensures t.descricao == StartDescription(s, m)
    ensures t.checklist == Some(TemplateJson(NormalizeChecklist(StoredItems(s), parse)))
    ensures t.agendamentoId.None? && t.concluidoEm.None? && t.criadoEm == now
  {
    var st := if manutentorId.Some? then EmAndamento else Aberto;
    ChamadoStatusLabelRoundTrip(st);
    NewTicket(s.maquinaId, "preventiva", Label(st), StartDescription(s, m), criadorId, manutentorId,
      Some(TemplateJson(NormalizeChecklist(StoredItems(s), parse))), now).(tipoChecklist := Some(["preventiva"]))
  }

  /** A ticket's state as the handlers read it. */
  function StateOf(t: Ticket): ChamadoStatus {
    NormalizeChamadoStatus(t.status)
  }

  /** The assignee of a start: looked up only when a non-blank e-mail was given. */
  function StartAssignee(users: seq<User>, email: Option<string>): (r: Result<Option<Id>, Failure>)
    ensures (email.None? || email.value == []) ==> r == Ok(None)
    ensures email.Some? && email.value != [] ==> (r.Ok? <==> FindUserCi(users, email.value).Some?)
    ensures email.Some? && email.value != [] && r.Ok? ==> r.value == Some(FindUserCi(users, email.value).value.id)
    ensures r.Err? ==> r.error == Fail(400, "Manutentor informado nao existe em usuarios.")
  {
    if email.Some? && email.value != [] then
      match FindUserCi(users, email.value)
      case None => Err(Fail(400, "Manutentor informado nao existe em usuarios."))
      case Some(u) => Ok(Some(u.id))
    else Ok(None)
  }

  /** The guards of a start before the user lookups pass: the role, a starter e-mail, an entry with its machine, still `agendado`. */
  predicate StartReady(machines: seq<Machine>, schedules: map<Id, Schedule>, user: Option<RequestUser>, id: Id, body: Js.Value) {
    && (ScheduleRole(user) == Manutentor || ScheduleRole(user) == Gestor)
    && StarterEmail(user, body) != []
    && id in schedules && FindMachine(machines, schedules[id].maquinaId).Some?
    && NormalizeAgendamentoStatus(schedules[id].status) == Agendado
  }

  /** What a start writes: the new ticket; the entry itself becomes `iniciado`. */
  function PlanStart(users: seq<User>, machines: seq<Machine>, schedules: map<Id, Schedule>, user: Option<RequestUser>,
                     id: Id, body: Js.Value, parse: string -> Option<Js.Value>, now: Time): (r: Result<Ticket, Failure>)
    ensures ScheduleRole(user) != Manutentor && ScheduleRole(user) != Gestor ==>
      r == Err(Fail(403, "Apenas manutentor/gestor podem iniciar manutencao."))
    ensures (ScheduleRole(user) == Manutentor || ScheduleRole(user) == Gestor) && StarterEmail(user, body) == [] ==>
      r == Err(Fail(400, "Informe criadoPorEmail."))
    ensures r.Ok? ==> (ScheduleRole(user) == Manutentor || ScheduleRole(user) == Gestor) && StarterEmail(user, body) != []
    ensures r.Ok? ==> (id in schedules && FindMachine(machines, schedules[id].maquinaId).Some?
      && NormalizeAgendamentoStatus(schedules[id].status) == Agendado)
    ensures (StarterEmail(user, body) != [] && (ScheduleRole(user) == Manutentor || ScheduleRole(user) == Gestor) &&
      (id !in schedules || FindMachine(machines, schedules[id].maquinaId).None?)) ==> r == Err(Fail(404, "Agendamento nao encontrado."))
    ensures (StarterEmail(user, body) != [] && (ScheduleRole(user) == Manutentor || ScheduleRole(user) == Gestor) &&
      id in schedules && FindMachine(machines, schedules[id].maquinaId).Some? &&
      NormalizeAgendamentoStatus(schedules[id].status) != Agendado) ==>
      r == Err(Fail(409, "Agendamento nao esta disponivel para inicio."))
    ensures StartReady(machines, schedules, user, id, body) && FindUserCi(users, StarterEmail(user, body)).None? ==>
      r == Err(Fail(400, "Usuario (criadoPorEmail) nao existe em usuarios."))
    ensures (StartReady(machines, schedules, user, id, body) && FindUserCi(users, StarterEmail(user, body)).Some?
      && StartAssignee(users, StartAssigneeEmail(body)).Err?) ==> r == Err(StartAssignee(users, StartAssigneeEmail(body)).error)
    ensures r.Ok? <==> (StartReady(machines, schedules, user, id, body) && FindUserCi(users, StarterEmail(user, body)).Some?
      && StartAssignee(users, StartAssigneeEmail(body)).Ok?)
    ensures r.Ok? ==> (FindUserCi(users, StarterEmail(user, body)).Some?
      && StartAssignee(users, StartAssigneeEmail(body)).Ok?
      && r.value == StartTicket(schedules[id], FindMachine(machines, schedules[id].maquinaId).value,
           FindUserCi(users, StarterEmail(user, body)).value.id, StartAssignee(users, StartAssigneeEmail(body)).value, parse, now))
  {
    var role := ScheduleRole(user);
    if role != Manutentor && role != Gestor then Err(Fail(403, "Apenas manutentor/gestor podem iniciar manutencao."))
    else
      var criadoPorEmail := StarterEmail(user, body);
      if criadoPorEmail == [] then Err(Fail(400, "Informe criadoPorEmail."))
      else if id !in schedules || FindMachine(machines, schedules[id].maquinaId).None? then Err(Fail(404, "Agendamento nao encontrado."))
      else
        var s := schedules[id];
        var m := FindMachine(machines, s.maquinaId).value;
        if NormalizeAgendamentoStatus(s.status) != Agendado then Err(Fail(409, "Agendamento nao esta disponivel para inicio."))
        else
          StartWithUsers(users, s, m, criadoPorEmail, body, parse, now)
  }

  /** The user lookups of a start, once the guards pass: the starter must exist, and so must a named assignee. */
  function StartWithUsers(users: seq<User>, s: Schedule, m: Machine, email: string, body: Js.Value,
                          parse: string -> Option<Js.Value>, now: Time): (r: Result<Ticket, Failure>)
    ensures FindUserCi(users, email).None? ==> r == Err(Fail(400, "Usuario (criadoPorEmail) nao existe em usuarios."))
    ensures FindUserCi(users, email).Some? && StartAssignee(users, StartAssigneeEmail(body)).Err? ==>
      r == Err(StartAssignee(users, StartAssigneeEmail(body)).error)
    ensures r.Ok? <==> FindUserCi(users, email).Some? && StartAssignee(users, StartAssigneeEmail(body)).Ok?
    ensures r.Ok? ==> r.value == StartTicket(s, m, FindUserCi(users, email).value.id,
      StartAssignee(users, StartAssigneeEmail(body)).value, parse, now)
  {
    match FindUserCi(users, email)
    case None => Err(Fail(400, "Usuario (criadoPorEmail) nao existe em usuarios."))
    case Some(criador) =>
      match StartAssignee(users, StartAssigneeEmail(body))
      case Err(e) => Err(e)
      case Ok(mid) => Ok(StartTicket(s, m, criador.id, mid, parse, now))
  }

  /** The entry a start consumes is marked `iniciado`; its start time is left as it was. */
  function MarkStarted(s: Schedule): (t: Schedule)
    ensures NormalizeAgendamentoStatus(t.status) == Iniciado
    ensures t == s.(status := AgendamentoLabel(Iniciado))
  {
    AgendamentoStatusLabelRoundTrip(Iniciado);
    s.(status := AgendamentoLabel(Iniciado))
  }

  /** An entry can be started once: after a start it is no longer `agendado`, so a second start conflicts. */
  lemma StartOnce(users: seq<User>, machines: seq<Machine>, schedules: map<Id, Schedule>, user: Option<RequestUser>,
                  id: Id, body: Js.Value, parse: string -> Option<Js.Value>, now: Time)
    requires PlanStart(users, machines, schedules, user, id, body, parse, now).Ok?
    ensures PlanStart(users, machines, schedules[id := MarkStarted(schedules[id])], user, id, body, parse, now)
      == Err(Fail(409, "Agendamento nao esta disponivel para inicio."))
  {
    var after := schedules[id := MarkStarted(schedules[id])];
    assert after[id].maquinaId == schedules[id].maquinaId;
  }

  /** The writes of a successful start, inside one transaction. */
  method ApplyStart(db: Database, id: Id, t: Ticket) returns (ticketId: Id)
    requires db.Valid() && id in db.agendamentos
    modifies db`chamados, db`nextChamadoId, db`agendamentos
    ensures db.Valid()
    ensures ticketId == old(db.nextChamadoId) && ticketId !in old(db.chamados)
    ensures db.chamados == old(db.chamados)[ticketId := t]
    ensures db.agendamentos == old(db.agendamentos)[id := MarkStarted(old(db.agendamentos)[id])]
  {
    ticketId := db.InsertChamado(t);
    db.UpdateAgendamento(id, MarkStarted(db.agendamentos[id]));
  }

  /** The transaction of a start: the ticket is inserted and the entry marked started, or, on any error, nothing changes. */
  method Start(db: Database, user: Option<RequestUser>, id: Id, body: Js.Value, parse: string -> Option<Js.Value>, now: Time)
    returns (r: Result<Id, Failure>)
    requires db.Valid()
    modifies db`chamados, db`nextChamadoId, db`agendamentos
    ensures db.Valid()
    ensures var plan := PlanStart(old(db.usuarios), old(db.maquinas), old(db.agendamentos), user, id, body, parse, now);
      && (plan.Err? ==> r == Err(plan.error) && db.chamados == old(db.chamados) && db.agendamentos == old(db.agendamentos))
      && (plan.Ok? ==> (r == Ok(old(db.nextChamadoId)) && old(db.nextChamadoId) !in old(db.chamados)
           && db.chamados == old(db.chamados)[old(db.nextChamadoId) := plan.value]
           && db.agendamentos == old(db.agendamentos)[id := MarkStarted(old(db.agendamentos)[id])]))
  {
    var plan := PlanStart(db.usuarios, db.maquinas, db.agendamentos, user, id, body, parse, now);
    if plan.Err? {
      return Err(plan.error);
    }
    var ticketId := ApplyStart(db, id, plan.value);
    r := Ok(ticketId);
  }
}
