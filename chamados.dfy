/**
 * The ticket routes (apps/api/src/routes/chamados.ts): the paging
 * arithmetic of the list, and the state machine over the `chamados` table
 * that claiming (`atender`), completing (`concluir`), the live checklist
 * patch, creation and the administrative status patch make up. Each
 * handler is one method over the database; its error answers are `Err`
 * values, and on an error nothing is written.
 */
module Chamados {
  import opened Wrappers
  import opened Text
  import Js
  import opened Status
  import opened Roles
  import opened Http
  import opened RoleGate
  import opened Schemas
  import opened Db

  // ---------------------------------------------------------------------
  // List paging
  // ---------------------------------------------------------------------

  /** `Math.max(parseInt(String(page ?? "1"), 10) || 1, 1)`. */
  function PageNumber(page: Option<string>): (p: nat)
    ensures p >= 1
  {
    var n := ParseInt(page.GetOr("1"));
    var v := if n.None? || n.value == 0 then 1 else n.value;
    if v < 1 then 1 else v
  }

  /** `Math.min(Math.max(parseInt(String(pageSize ?? "20"), 10) || 20, 1), 100)`. */
  function PageSize(pageSize: Option<string>): (s: nat)
    ensures 1 <= s <= 100
  {
    var n := ParseInt(pageSize.GetOr("20"));
    var v := if n.None? || n.value == 0 then 20 else n.value;
    if v < 1 then 1 else if v > 100 then 100 else v
  }

  /** The rows the page skips. */
  function Offset(page: nat, pageSize: nat): nat
    requires page >= 1
  {
    (page - 1) * pageSize
  }

  /** `hasNext: offset + items.length < total`. */
  predicate HasNext(offset: nat, count: nat, total: nat) {
    offset + count < total
  }

  /** How many rows `LIMIT pageSize OFFSET offset` returns out of `total` matching rows. */
  function PageRows(total: nat, offset: nat, pageSize: nat): (n: nat)
    ensures (n <= pageSize && offset + n <= total) || (n == 0 && offset >= total)
  {
    if total <= offset then 0 else if total - offset < pageSize then total - offset else pageSize
  }

  /** A page number written in decimal is read as that number. */
  lemma PageNumberOfDecimal(k: nat)
    requires k >= 1
    ensures PageNumber(Some(NatToString(k))) == k
  {
    ParseIntOfDecimal(k);
  }

  /** A page size from 1 to 100 written in decimal is read as that size; one above 100 is cut to 100. */
  lemma PageSizeOfDecimal(k: nat)
    requires k >= 1
    ensures PageSize(Some(NatToString(k))) == if k > 100 then 100 else k
  {
    ParseIntOfDecimal(k);
  }

  /** With the rows the database returns, there is a next page iff the matching rows outnumber the pages so far. */
  lemma HasNextIffMoreRows(total: nat, page: nat, pageSize: nat)
    requires page >= 1 && pageSize >= 1
    ensures var offset := Offset(page, pageSize);
      HasNext(offset, PageRows(total, offset, pageSize), total) <==> total > page * pageSize
  {
    var offset := Offset(page, pageSize);
    assert offset + pageSize == page * pageSize;
  }

  /** The date column the `from`/`to` filters and the ordering use. */
  datatype DateColumn = CriadoEm | ConcluidoEmColumn

  /** `isConcluido ? "c.concluido_em" : "c.criado_em"`, where `isConcluido` needs a non-empty status filter. */
  function ListDateColumn(status: Option<string>): (c: DateColumn)
    ensures c == ConcluidoEmColumn <==> status.Some? && status.value != [] && NormalizeChamadoStatus(status.value) == Concluido
  {
    if status.Some? && status.value != [] && NormalizeChamadoStatus(status.value) == Concluido then ConcluidoEmColumn
    else CriadoEm
  }

  /** Filtering by a stored label or key uses `concluido_em` exactly for the Concluido state. */
  lemma ListDateColumnOfState(s: ChamadoStatus)
    ensures ListDateColumn(Some(Label(s))) == ConcluidoEmColumn <==> s == Concluido
    ensures ListDateColumn(Some(Key(s))) == ConcluidoEmColumn <==> s == Concluido
  {
    ChamadoStatusLabelRoundTrip(s);
    ChamadoStatusKeyRoundTrip(s);
  }

  // ---------------------------------------------------------------------
  // Shared rules
  // ---------------------------------------------------------------------

  /** SQL `COALESCE(a, b)` on two nullable values. */
  function SqlCoalesce<T>(a: Option<T>, b: Option<T>): (r: Option<T>)
    ensures a.Some? ==> r == a
    ensures a.None? ==> r == b
  {
    if a.Some? then a else b
  }

  /**
   * The ticket is associated with the user: the id is one of the non-null
   * `manutentor_id`, `responsavel_atual_id`, `atendido_por_id`.
   */
  predicate Associated(t: Ticket, uid: Id) {
    t.manutentorId == Some(uid) || t.responsavelAtualId == Some(uid) || t.atendidoPorId == Some(uid)
  }

  /** The permission rule `concluir` and the checklist patch share: a gestor, or a user associated with the ticket. */
  predicate MayWork(t: Ticket, user: RequestUser)
    requires user.id.Some?
  {
    user.role == Gestor || Associated(t, user.id.value)
  }

  /** The stored state of a ticket, as the handlers read it. */
  function StateOf(t: Ticket): ChamadoStatus {
    NormalizeChamadoStatus(t.status)
  }

  /** `STATE_CONFLICT`, answered with the stored status text. */
  function Conflict(t: Ticket): Failure {
    Failure(409, "STATE_CONFLICT", Some(t.status))
  }

  // ---------------------------------------------------------------------
  // POST /chamados/:id/atender
  // ---------------------------------------------------------------------

  /** `user.email ? String(user.email).trim() : null`. */
  function ClaimerEmail(user: RequestUser): (e: Option<string>)
    ensures e.Some? <==> user.email != []
  {
    if user.email != [] then Some(Trim(user.email)) else None
  }

  /** `user.name ? String(user.name).trim() : null`. */
  function ClaimerName(user: RequestUser): (n: Option<string>)
    ensures n.Some? <==> user.name.Some? && user.name.value != []
  {
    if user.name.Some? && user.name.value != [] then Some(Trim(user.name.value)) else None
  }

  /**
   * The claim `UPDATE`: the ticket goes to Em Andamento, and the assignee and
   * "attended by" columns are filled only where they were NULL.
   */
  function Claim(t: Ticket, actor: Id, email: Option<string>, nome: Option<string>, now: Time): (c: Ticket)
    ensures StateOf(c) == EmAndamento
    ensures c.manutentorId.Some? && c.responsavelAtualId.Some? && c.atendidoPorId.Some? && c.atendidoEm.Some?
  {
    ChamadoStatusLabelRoundTrip(EmAndamento);
    t.(status := Label(EmAndamento),
       manutentorId := SqlCoalesce(t.manutentorId, Some(actor)),
       responsavelAtualId := SqlCoalesce(t.responsavelAtualId, Some(actor)),
       atendidoPorId := SqlCoalesce(t.atendidoPorId, Some(actor)),
       atendidoPorEmail := SqlCoalesce(t.atendidoPorEmail, email),
       atendidoPorNome := SqlCoalesce(t.atendidoPorNome, nome),
       atendidoEm := SqlCoalesce(t.atendidoEm, Some(now)),
       atualizadoEm := Some(now))
  }

  /** A value already present is kept; a NULL one becomes the claimer's. */
  lemma ClaimFillsOnlyNulls(t: Ticket, actor: Id, email: Option<string>, nome: Option<string>, now: Time)
    ensures var c := Claim(t, actor, email, nome, now);
      && c.manutentorId == (if t.manutentorId.Some? then t.manutentorId else Some(actor))
      && c.responsavelAtualId == (if t.responsavelAtualId.Some? then t.responsavelAtualId else Some(actor))
      && c.atendidoPorId == (if t.atendidoPorId.Some? then t.atendidoPorId else Some(actor))
      && c.atendidoPorEmail == (if t.atendidoPorEmail.Some? then t.atendidoPorEmail else email)
      && c.atendidoPorNome == (if t.atendidoPorNome.Some? then t.atendidoPorNome else nome)
      && c.atendidoEm == (if t.atendidoEm.Some? then t.atendidoEm else Some(now))
  {
  }

  /** The claim touches no column besides the status, the claim columns and `atualizado_em`. */
  lemma ClaimKeepsOtherColumns(t: Ticket, actor: Id, email: Option<string>, nome: Option<string>, now: Time)
    ensures var c := Claim(t, actor, email, nome, now);
      c.(status := t.status, manutentorId := t.manutentorId, responsavelAtualId := t.responsavelAtualId,
         atendidoPorId := t.atendidoPorId, atendidoPorEmail := t.atendidoPorEmail,
         atendidoPorNome := t.atendidoPorNome, atendidoEm := t.atendidoEm, atualizadoEm := t.atualizadoEm) == t
  {
  }

  /** Claiming twice: after one successful claim the ticket is no longer Aberto, so a second claim conflicts. */
  lemma SecondClaimConflicts(t: Ticket, actor: Id, email: Option<string>, nome: Option<string>, now: Time)
    ensures StateOf(Claim(t, actor, email, nome, now)) != Aberto
  {
  }

  /**
   * `POST /chamados/:id/atender` behind `requireRole(["manutentor"])`: a
   * missing ticket is 404, a ticket not in Aberto is a state conflict, and
   * otherwise the ticket is claimed.
   */
  method Atender(db: Database, user: Option<RequestUser>, id: Id, now: Time) returns (r: Result<Ticket, Failure>)
    modifies db`chamados
    ensures RequireRole(user, [Manutentor]).Err? ==> r == Err(RequireRole(user, [Manutentor]).error)
    ensures RequireRole(user, [Manutentor]).Ok? && id !in old(db.chamados) ==> r == Err(Fail(404, "CHAMADO_NAO_ENCONTRADO"))
    ensures RequireRole(user, [Manutentor]).Ok? && id in old(db.chamados) && StateOf(old(db.chamados)[id]) != Aberto ==>
      r == Err(Conflict(old(db.chamados)[id]))
    ensures r.Ok? <==> RequireRole(user, [Manutentor]).Ok? && id in old(db.chamados) && StateOf(old(db.chamados)[id]) == Aberto
    ensures r.Ok? ==> var u := user.value;
      r.value == Claim(old(db.chamados)[id], u.id.value, ClaimerEmail(u), ClaimerName(u), now)
      && db.chamados == old(db.chamados)[id := r.value]
    ensures r.Err? ==> db.chamados == old(db.chamados)
  {
    var gate := RequireRole(user, [Manutentor]);
    if gate.Err? {
      return Err(gate.error);
    }
    var u := gate.value;
    if id !in db.chamados {
      return Err(Fail(404, "CHAMADO_NAO_ENCONTRADO"));
    }
    var atual := db.chamados[id];
    if StateOf(atual) != Aberto {
      return Err(Conflict(atual));
    }
    var claimed := Claim(atual, u.id.value, ClaimerEmail(u), ClaimerName(u), now);
    db.UpdateChamado(id, claimed);
    r := Ok(claimed);
  }

  // ---------------------------------------------------------------------
  // PATCH /chamados/:id/checklist
  // ---------------------------------------------------------------------

  /** The checklist patch writes the parsed checklist as JSON and the update time, nothing else. */
  function WithChecklist(t: Ticket, cs: seq<ChecklistItem>, now: Time): (c: Ticket)
    ensures c.checklist == Some(ChecklistJson(cs)) && c.atualizadoEm == Some(now)
    ensures c.(checklist := t.checklist, atualizadoEm := t.atualizadoEm) == t
  {
    t.(checklist := Some(ChecklistJson(cs)), atualizadoEm := Some(now))
  }

  /** Which users the checklist patch lets through, given an existing ticket not yet closed. */
  function ChecklistPatchGate(t: Ticket, user: RequestUser): (r: Result<(), Failure>)
    requires user.id.Some?
    ensures r.Ok? <==> StateOf(t) != Concluido && StateOf(t) != Cancelado && MayWork(t, user)
    ensures (StateOf(t) == Concluido || StateOf(t) == Cancelado) ==> r == Err(Failure(409, "INVALID_STATE", Some(t.status)))
    ensures StateOf(t) != Concluido && StateOf(t) != Cancelado && !MayWork(t, user) ==> r == Err(Fail(403, "PERMISSAO_NEGADA"))
  {
    var s := StateOf(t);
    if s == Concluido || s == Cancelado then Err(Failure(409, "INVALID_STATE", Some(t.status)))
    else if !MayWork(t, user) then Err(Fail(403, "PERMISSAO_NEGADA"))
    else Ok(())
  }

  /** A gestor may patch the checklist of any open ticket; an admin only of an open ticket associated with it. */
  lemma ChecklistPatchRoles(t: Ticket, user: RequestUser)
    requires user.id.Some? && StateOf(t) in {Aberto, EmAndamento}
    ensures user.role == Gestor ==> ChecklistPatchGate(t, user).Ok?
    ensures user.role == Admin ==> (ChecklistPatchGate(t, user).Ok? <==> Associated(t, user.id.value))
  {
  }

  /**
   * `PATCH /chamados/:id/checklist` behind `requireRole(["manutentor", "gestor"])`:
   * the body must pass `PatchChecklistSchema`; the ticket must exist, must not
   * be Concluido or Cancelado, and the user must be a gestor or associated.
   */
  method PatchChecklist(db: Database, user: Option<RequestUser>, id: Id, body: Js.Value, isEmail: string -> bool, now: Time)
    returns (r: Result<Ticket, Failure>)
    modifies db`chamados
    ensures RequireRole(user, [Manutentor, Gestor]).Err? ==> r == Err(RequireRole(user, [Manutentor, Gestor]).error)
    ensures RequireRole(user, [Manutentor, Gestor]).Ok? && ParsePatchChecklist(BodyOrEmpty(body), isEmail).None? ==>
      r == Err(Fail(400, "VALIDATION_ERROR"))
    ensures (RequireRole(user, [Manutentor, Gestor]).Ok? && ParsePatchChecklist(BodyOrEmpty(body), isEmail).Some?
      && id !in old(db.chamados)) ==> r == Err(Fail(404, "CHAMADO_NAO_ENCONTRADO"))
    ensures (RequireRole(user, [Manutentor, Gestor]).Ok? && ParsePatchChecklist(BodyOrEmpty(body), isEmail).Some?
      && id in old(db.chamados) && ChecklistPatchGate(old(db.chamados)[id], user.value).Err?) ==>
      r == Err(ChecklistPatchGate(old(db.chamados)[id], user.value).error)
    ensures r.Ok? <==> (RequireRole(user, [Manutentor, Gestor]).Ok? && ParsePatchChecklist(BodyOrEmpty(body), isEmail).Some?
      && id in old(db.chamados) && ChecklistPatchGate(old(db.chamados)[id], user.value).Ok?)
    ensures r.Ok? ==>
      r.value == WithChecklist(old(db.chamados)[id], ParsePatchChecklist(BodyOrEmpty(body), isEmail).value.checklist, now)
      && db.chamados == old(db.chamados)[id := r.value]
    ensures r.Err? ==> db.chamados == old(db.chamados)
  {
    var gate := RequireRole(user, [Manutentor, Gestor]);
    if gate.Err? {
      return Err(gate.error);
    }
    var u := gate.value;
    var parsed := ParsePatchChecklist(BodyOrEmpty(body), isEmail);
    if parsed.None? {
      return Err(Fail(400, "VALIDATION_ERROR"));
    }
    if id !in db.chamados {
      return Err(Fail(404, "CHAMADO_NAO_ENCONTRADO"));
    }
    var atual := db.chamados[id];
    var allowed := ChecklistPatchGate(atual, u);
    if allowed.Err? {
      return Err(allowed.error);
    }
    var updated := WithChecklist(atual, parsed.value.checklist, now);
    db.UpdateChamado(id, updated);
    r := Ok(updated);
  }

  // ---------------------------------------------------------------------
  // POST /chamados/:id/concluir
  // ---------------------------------------------------------------------

  /** `typeof body.x === "string" && body.x.trim().length > 0`. */
  predicate NonBlank(s: Option<string>) {
    s.Some? && Trim(s.value) != []
  }

  /** `typeof atual.tipo === "string" ? atual.tipo.toLowerCase() : ""`. */
  function TipoOf(t: Ticket): string {
    if t.tipo.Some? then Lower(t.tipo.value) else ""
  }

  /** What the completion `UPDATE` is given: NULL (`None`) keeps the stored value. */
  datatype ConclusionValues = ConclusionValues(checklist: Option<Js.Value>, causa: Option<string>, solucao: Option<string>)

  /** `Array.isArray(body.checklist) && body.checklist.length` (the JSON to store), for the types that take an optional checklist. */
  function OptionalChecklist(checklist: Option<seq<ChecklistItem>>): (j: Option<Js.Value>)
    ensures j.Some? <==> checklist.Some? && checklist.value != []
    ensures j.Some? ==> j.value == ChecklistJson(checklist.value)
  {
    if checklist.Some? && checklist.value != [] then Some(ChecklistJson(checklist.value)) else None
  }

  /** `causaFinal`/`solucaoFinal`: a corretiva ticket always gets the trimmed text; other types a non-blank one or NULL. */
  function FinalText(tipo: string, s: Option<string>): (f: Option<string>)
    ensures tipo == "corretiva" ==> f == Some(Trim(s.GetOr("")))
    ensures tipo != "corretiva" ==> (f.Some? <==> NonBlank(s)) && (f.Some? ==> f.value == Trim(s.value))
  {
    if tipo == "corretiva" then Some(Trim(s.GetOr("")))
    else if s.Some? && Trim(s.value) != [] then Some(Trim(s.value))
    else None
  }

  /**
   * The per-type rules, all checked before anything is written: preventiva
   * needs a non-empty checklist; corretiva needs a non-blank `causa`, then a
   * non-blank `solucao`; any other type takes an optional checklist.
   */
  function ConclusionRules(tipo: string, body: ConcluirInput): (r: Result<ConclusionValues, Failure>)
    ensures tipo == "preventiva" ==> (r.Err? <==> body.checklist.None? || body.checklist.value == [])
    ensures tipo == "preventiva" && r.Err? ==> r.error == Fail(400, "CHECKLIST_OBRIGATORIO")
    ensures tipo == "corretiva" && !NonBlank(body.causa) ==> r == Err(Fail(400, "CAUSA_OBRIGATORIA"))
    ensures tipo == "corretiva" && NonBlank(body.causa) && !NonBlank(body.solucao) ==> r == Err(Fail(400, "SOLUCAO_OBRIGATORIA"))
    ensures tipo == "corretiva" ==> (r.Ok? <==> NonBlank(body.causa) && NonBlank(body.solucao))
    ensures tipo != "preventiva" && tipo != "corretiva" ==> r.Ok?
    ensures r.Ok? ==> r.value.checklist == OptionalChecklist(body.checklist)
    ensures r.Ok? ==> r.value.causa == FinalText(tipo, body.causa) && r.value.solucao == FinalText(tipo, body.solucao)
  {
    if tipo == "preventiva" && (body.checklist.None? || body.checklist.value == []) then
      Err(Fail(400, "CHECKLIST_OBRIGATORIO"))
    else if tipo == "corretiva" && !NonBlank(body.causa) then
      Err(Fail(400, "CAUSA_OBRIGATORIA"))
    else if tipo == "corretiva" && !NonBlank(body.solucao) then
      Err(Fail(400, "SOLUCAO_OBRIGATORIA"))
    else
      Ok(ConclusionValues(OptionalChecklist(body.checklist), FinalText(tipo, body.causa), FinalText(tipo, body.solucao)))
  }

  /**
   * The unlocked read and the guards of `concluir`, on the table as it was
   * read: 404, state conflict unless Em Andamento, 403 unless a gestor or
   * associated, then the per-type rules.
   */
  function ReadConclusion(tickets: map<Id, Ticket>, user: RequestUser, id: Id, body: ConcluirInput): (r: Result<ConclusionValues, Failure>)
    requires user.id.Some?
    ensures id !in tickets ==> r == Err(Fail(404, "CHAMADO_NAO_ENCONTRADO"))
    ensures id in tickets && StateOf(tickets[id]) != EmAndamento ==> r == Err(Conflict(tickets[id]))
    ensures id in tickets && StateOf(tickets[id]) == EmAndamento && !MayWork(tickets[id], user) ==> r == Err(Fail(403, "PERMISSAO_NEGADA"))
    ensures r.Ok? ==> id in tickets && StateOf(tickets[id]) == EmAndamento && MayWork(tickets[id], user)
    ensures id in tickets && StateOf(tickets[id]) == EmAndamento && MayWork(tickets[id], user) ==>
      r == ConclusionRules(TipoOf(tickets[id]), body)
  {
    if id !in tickets then Err(Fail(404, "CHAMADO_NAO_ENCONTRADO"))
    else
      var atual := tickets[id];
      if StateOf(atual) != EmAndamento then Err(Conflict(atual))
      else if !MayWork(atual, user) then Err(Fail(403, "PERMISSAO_NEGADA"))
      else ConclusionRules(TipoOf(atual), body)
  }

  /**
   * The completion `UPDATE`: Concluido, completed now by the user; checklist,
   * `causa`, `solucao` and `servico_realizado` are overwritten only by
   * non-NULL values.
   */
  function Conclude(t: Ticket, v: ConclusionValues, user: RequestUser, actor: Id, now: Time): (c: Ticket)
    ensures StateOf(c) == Concluido
    ensures c.concluidoEm == Some(now) && c.concluidoPorId == Some(actor)
    ensures c.concluidoPorEmail == Some(user.email) && c.concluidoPorNome == user.name
    ensures c.checklist == (if v.checklist.Some? then v.checklist else t.checklist)
    ensures c.causa == (if v.causa.Some? then v.causa else t.causa)
    ensures c.solucao == (if v.solucao.Some? then v.solucao else t.solucao)
    ensures c.servicoRealizado == (if v.solucao.Some? then v.solucao else t.servicoRealizado)
    ensures c.(status := t.status, concluidoEm := t.concluidoEm, checklist := t.checklist, causa := t.causa,
      solucao := t.solucao, servicoRealizado := t.servicoRealizado, concluidoPorId := t.concluidoPorId,
      concluidoPorEmail := t.concluidoPorEmail, concluidoPorNome := t.concluidoPorNome, atualizadoEm := t.atualizadoEm) == t
  {
    ChamadoStatusLabelRoundTrip(Concluido);
    t.(status := Label(Concluido),
       concluidoEm := Some(now),
       checklist := SqlCoalesce(v.checklist, t.checklist),
       causa := SqlCoalesce(v.causa, t.causa),
       solucao := SqlCoalesce(v.solucao, t.solucao),
       servicoRealizado := SqlCoalesce(v.solucao, t.servicoRealizado),
       concluidoPorId := Some(actor),
       concluidoPorEmail := Some(user.email),
       concluidoPorNome := user.name,
       atualizadoEm := Some(now))
  }

  /** The `UPDATE` does not look at the status it overwrites: had the ticket changed state since the read, it is completed all the same. */
  lemma ConcludeIgnoresCurrentStatus(t: Ticket, s: string, v: ConclusionValues, user: RequestUser, actor: Id, now: Time)
    ensures Conclude(t.(status := s), v, user, actor, now) == Conclude(t, v, user, actor, now)
  {
  }

  /** On a ticket that is not corretiva, a blank `causa` or `solucao` keeps what was stored. */
  lemma BlankTextKeepsStored(t: Ticket, body: ConcluirInput, user: RequestUser, actor: Id, now: Time)
    requires TipoOf(t) != "corretiva" && ConclusionRules(TipoOf(t), body).Ok?
    ensures var c := Conclude(t, ConclusionRules(TipoOf(t), body).value, user, actor, now);
      && (!NonBlank(body.causa) ==> c.causa == t.causa)
      && (!NonBlank(body.solucao) ==> c.solucao == t.solucao && c.servicoRealizado == t.servicoRealizado)
  {
  }

  /** The completion cascade: the linked schedule entry becomes `concluido`, completed now. */
  function CompleteSchedule(s: Schedule, now: Time): (c: Schedule)
    ensures NormalizeAgendamentoStatus(c.status) == AgConcluido && c.concluidoEm == Some(now)
    ensures c.(status := s.status, concluidoEm := s.concluidoEm) == s
  {
    AgendamentoStatusLabelRoundTrip(AgConcluido);
    s.(status := AgendamentoLabel(AgConcluido), concluidoEm := Some(now))
  }

  /**
   * The transaction of `concluir`: the `UPDATE` (which does not re-check the
   * status), then, when the ticket names a schedule entry that exists, that
   * entry is completed too. A ticket gone since the read is a 500.
   */
  method ApplyConclusion(db: Database, user: RequestUser, id: Id, v: ConclusionValues, now: Time) returns (r: Result<Ticket, Failure>)
    requires user.id.Some?
    modifies db`chamados, db`agendamentos
    ensures id !in old(db.chamados) ==> r == Err(Fail(500, "FALHA_ATUALIZAR_CHAMADO"))
    ensures r.Ok? <==> id in old(db.chamados)
    ensures r.Ok? ==> (r.value == Conclude(old(db.chamados)[id], v, user, user.id.value, now)
      && db.chamados == old(db.chamados)[id := r.value])
    ensures r.Ok? && r.value.agendamentoId.Some? && r.value.agendamentoId.value in old(db.agendamentos) ==>
      db.agendamentos == old(db.agendamentos)[r.value.agendamentoId.value := CompleteSchedule(old(db.agendamentos)[r.value.agendamentoId.value], now)]
    ensures r.Ok? && (r.value.agendamentoId.None? || r.value.agendamentoId.value !in old(db.agendamentos)) ==>
      db.agendamentos == old(db.agendamentos)
    ensures r.Err? ==> db.chamados == old(db.chamados) && db.agendamentos == old(db.agendamentos)
  {
    if id !in db.chamados {
      return Err(Fail(500, "FALHA_ATUALIZAR_CHAMADO"));
    }
    var row := Conclude(db.chamados[id], v, user, user.id.value, now);
    db.UpdateChamado(id, row);
    if row.agendamentoId.Some? && row.agendamentoId.value in db.agendamentos {
      var sid := row.agendamentoId.value;
      db.UpdateAgendamento(sid, CompleteSchedule(db.agendamentos[sid], now));
    }
    r := Ok(row);
  }

  /**
   * `POST /chamados/:id/concluir` behind `requireRole(['manutentor'])`: the
   * body must pass `ConcluirChamadoSchema`; the guards run on a plain read of
   * the row, and only then is the transaction run.
   */
  method Concluir(db: Database, user: Option<RequestUser>, id: Id, body: Js.Value, now: Time) returns (r: Result<Ticket, Failure>)
    modifies db`chamados, db`agendamentos
    ensures RequireRole(user, [Manutentor]).Err? ==> r == Err(RequireRole(user, [Manutentor]).error)
    ensures RequireRole(user, [Manutentor]).Ok? && ParseConcluir(BodyOrEmpty(body)).None? ==> r == Err(Fail(400, "VALIDATION_ERROR"))
    ensures (RequireRole(user, [Manutentor]).Ok? && ParseConcluir(BodyOrEmpty(body)).Some?
      && ReadConclusion(old(db.chamados), user.value, id, ParseConcluir(BodyOrEmpty(body)).value).Err?) ==>
      r == Err(ReadConclusion(old(db.chamados), user.value, id, ParseConcluir(BodyOrEmpty(body)).value).error)
    ensures r.Ok? <==> (RequireRole(user, [Manutentor]).Ok? && ParseConcluir(BodyOrEmpty(body)).Some?
      && ReadConclusion(old(db.chamados), user.value, id, ParseConcluir(BodyOrEmpty(body)).value).Ok?)
    ensures r.Ok? ==> (r.value == Conclude(old(db.chamados)[id],
      ReadConclusion(old(db.chamados), user.value, id, ParseConcluir(BodyOrEmpty(body)).value).value,
      user.value, user.value.id.value, now)
      && db.chamados == old(db.chamados)[id := r.value])
    ensures r.Ok? && r.value.agendamentoId.Some? && r.value.agendamentoId.value in old(db.agendamentos) ==>
      db.agendamentos == old(db.agendamentos)[r.value.agendamentoId.value := CompleteSchedule(old(db.agendamentos)[r.value.agendamentoId.value], now)]
    ensures r.Ok? && (r.value.agendamentoId.None? || r.value.agendamentoId.value !in old(db.agendamentos)) ==>
      db.agendamentos == old(db.agendamentos)
    ensures r.Err? ==> db.chamados == old(db.chamados) && db.agendamentos == old(db.agendamentos)
  {
    var gate := RequireRole(user, [Manutentor]);
    if gate.Err? {
      return Err(gate.error);
    }
    var u := gate.value;
    var parsed := ParseConcluir(BodyOrEmpty(body));
    if parsed.None? {
      return Err(Fail(400, "VALIDATION_ERROR"));
    }
    var values := ReadConclusion(db.chamados, u, id, parsed.value);
    if values.Err? {
      return Err(values.error);
    }
    r := ApplyConclusion(db, u, id, values.value, now);
  }

  /** A gestor is refused by the middleware in front of `concluir`, before the handler's own gestor rule is reached. */
  lemma GestorCannotConcluir(user: RequestUser)
    requires user.id.Some? && user.role == Gestor
    ensures RequireRole(Some(user), [Manutentor]) == Err(Fail(403, "PERMISSAO_NEGADA"))
  {
    ManutentorGate(user);
  }

  // ---------------------------------------------------------------------
  // POST /chamados
  // ---------------------------------------------------------------------

  /** `String(tipo || "corretiva").toLowerCase() === "preventiva" ? "preventiva" : "corretiva"`. */
  function TipoFromValue(v: Js.Value): (t: string)
    ensures t == "preventiva" || t == "corretiva"
  {
    if Lower(Js.ToStr(Js.Or(v, Js.Str("corretiva")))) == "preventiva" then "preventiva" else "corretiva"
  }

  /** The type a new ticket gets, read from `req.body?.tipo`. */
  function CreateTipo(body: Js.Value): (t: string)
    ensures t == "preventiva" || t == "corretiva"
  {
    TipoFromValue(Js.Get(body, "tipo"))
  }

  /** On the values the schema lets through, the type is preventiva exactly when the value says so. */
  lemma TipoFromValueOfSchema(v: Js.Value)
    requires v.Undefined? || v == Js.Str("corretiva") || v == Js.Str("preventiva")
    ensures TipoFromValue(v) == "preventiva" <==> v == Js.Str("preventiva")
  {
    if v == Js.Str("preventiva") {
      LowerOfSmallLetters("preventiva");
    } else {
      assert Js.Or(v, Js.Str("corretiva")) == Js.Str("corretiva");
      assert |Lower("corretiva")| != |"preventiva"|;
    }
  }

  /** `req.body?.tipo` and the property the schema read from `req.body ?? {}` are the same value. */
  lemma GetOfBodyOrEmpty(body: Js.Value, key: string)
    ensures Js.Get(BodyOrEmpty(body), key) == Js.Get(body, key)
  {
  }

  /** On a body the schema accepted, the type written is preventiva exactly when the body asked for it. */
  lemma CreateTipoOfParsed(body: Js.Value, isEmail: string -> bool)
    requires ParseCreateChamado(BodyOrEmpty(body), isEmail).Some?
    ensures CreateTipo(body) == "preventiva" <==> ParseCreateChamado(BodyOrEmpty(body), isEmail).value.tipo == Some(Preventiva)
  {
    var tipo := ParseCreateChamado(BodyOrEmpty(body), isEmail).value.tipo;
    GetOfBodyOrEmpty(body, "tipo");
    assert tipo.Some? ==> Js.Get(body, "tipo") == Js.Str(TipoName(tipo.value));
    TipoFromValueOfSchema(Js.Get(body, "tipo"));
  }

  /** The state a new ticket is created in: `normalizeChamadoStatus(status)`, "Aberto" when the body has none. */
  function CreateStatus(input: CreateChamadoInput): ChamadoStatus {
    NormalizeChamadoStatus(input.status.GetOr("Aberto"))
  }

  /** `manutentorEmail` is given (a truthy string). */
  predicate NamesManutentor(input: CreateChamadoInput) {
    input.manutentorEmail.Some? && input.manutentorEmail.value != []
  }

  /** The status and role rules of creation: only active states, and an operador only opens unassigned tickets. */
  function CreateRules(role: Role, s: ChamadoStatus, input: CreateChamadoInput): (r: Result<(), Failure>)
    ensures r.Ok? <==> (s == Aberto || s == EmAndamento) && (role == Operador ==> s == Aberto && !NamesManutentor(input))
    ensures s != Aberto && s != EmAndamento ==> r == Err(Fail(400, "Status invalido para criacao."))
    ensures role == Operador && s == EmAndamento ==> r == Err(Fail(403, "Operador s\U{F3} pode criar chamados em 'Aberto'."))
    ensures role == Operador && s == Aberto && NamesManutentor(input) ==>
      r == Err(Fail(403, "Operador n\U{E3}o pode atribuir manutentor ao criar."))
  {
    IsStatusAtivoLabels(s);
    if !IsStatusAtivo(Label(s)) then Err(Fail(400, "Status invalido para criacao."))
    else if role == Operador && s != Aberto then Err(Fail(403, "Operador s\U{F3} pode criar chamados em 'Aberto'."))
    else if role == Operador && NamesManutentor(input) then Err(Fail(403, "Operador n\U{E3}o pode atribuir manutentor ao criar."))
    else Ok(())
  }

  /** The checklist base a schedule entry gives: each template entry becomes `{ item: String(t), resposta: "sim" }`. */
  function TemplateItems(itens: Js.Value): (cs: seq<ChecklistItem>)
    ensures itens.Arr? ==> |cs| == |itens.items| && forall i :: 0 <= i < |cs| ==> cs[i] == ChecklistItem(Js.ToStr(itens.items[i]), Sim, None)
    ensures !itens.Arr? ==> cs == []
  {
    if itens.Arr? then seq(|itens.items|, i requires 0 <= i < |itens.items| => ChecklistItem(Js.ToStr(itens.items[i]), Sim, None))
    else []
  }

  /**
   * The schedule entries the preventive calendar stores hold objects
   * (`{ texto, key }`), and `String` of an object is "[object Object]": the
   * checklist a ticket copies from a schedule entry carries that text
   * instead of the item's.
   */
  lemma TemplateItemsOfStoredTemplate(props: seq<(string, Js.Value)>)
    ensures TemplateItems(Js.Arr([Js.Obj(props)])) == [ChecklistItem("[object Object]", Sim, None)]
  {
  }

  /** The schedule entry `agendamentoId` names, read with `SELECT ... WHERE a.id = $1`; `None` when the body names none. */
  function LinkedSchedule(schedules: map<Id, Schedule>, castId: IdCast, agendamentoId: Option<string>): (r: Result<Option<Id>, Failure>)
    ensures agendamentoId.None? ==> r == Ok(None)
    ensures r.Ok? && r.value.Some? ==> (agendamentoId.Some? && r.value.value in schedules
      && castId(Js.Str(agendamentoId.value)) == Some(r.value.value))
    ensures agendamentoId.Some? && castId(Js.Str(agendamentoId.value)).None? ==> r == Err(DatabaseError)
    ensures agendamentoId.Some? && r.Ok? ==> r.value.Some?
    ensures agendamentoId.Some? && castId(Js.Str(agendamentoId.value)).Some? ==>
      (r.Ok? <==> castId(Js.Str(agendamentoId.value)).value in schedules)
    ensures agendamentoId.Some? && castId(Js.Str(agendamentoId.value)).Some? && r.Err? ==>
      r.error == Fail(400, "agendamentoId inv\U{E1}lido.")
  {
    if agendamentoId.None? then Ok(None)
    else
      match castId(Js.Str(agendamentoId.value))
      case None => Err(DatabaseError)
      case Some(sid) => if sid in schedules then Ok(Some(sid)) else Err(Fail(400, "agendamentoId inv\U{E1}lido."))
  }

  /** `checklistFinal`: the body's items when it lists some, otherwise the schedule's. */
  function FinalChecklist(items: Option<seq<string>>, template: seq<ChecklistItem>): (cs: seq<ChecklistItem>)
    ensures items.Some? && items.value != [] ==> (|cs| == |items.value|
      && forall i :: 0 <= i < |cs| ==> cs[i] == ChecklistItem(items.value[i], Sim, None))
    ensures (items.None? || items.value == []) ==> cs == template
  {
    if items.Some? && items.value != [] then
      seq(|items.value|, i requires 0 <= i < |items.value| => ChecklistItem(items.value[i], Sim, None))
    else template
  }

  /** `manutentorId`: looked up only for a ticket created Em Andamento with a manutentor named. */
  function CreateManutentor(users: seq<User>, s: ChamadoStatus, input: CreateChamadoInput): (r: Result<Option<Id>, Failure>)
    ensures r.Ok? && r.value.Some? ==> (s == EmAndamento && NamesManutentor(input)
      && FindUserCi(users, input.manutentorEmail.value).Some?
      && r.value.value == FindUserCi(users, input.manutentorEmail.value).value.id)
    ensures s == EmAndamento && NamesManutentor(input) ==> (r.Ok? <==> FindUserCi(users, input.manutentorEmail.value).Some?)
    ensures s == EmAndamento && NamesManutentor(input) && r.Err? ==> r.error == Fail(400, "manutentorEmail inv\U{E1}lido.")
    ensures !(s == EmAndamento && NamesManutentor(input)) ==> r == Ok(None)
  {
    if s == EmAndamento && NamesManutentor(input) then
      match FindUserCi(users, input.manutentorEmail.value)
      case None => Err(Fail(400, "manutentorEmail inv\U{E1}lido."))
      case Some(u) => Ok(Some(u.id))
    else Ok(None)
  }

  /** The machine of the new ticket: the schedule entry's, otherwise the first one matching the tag or the name. */
  function CreateMachine(machines: seq<Machine>, fromSchedule: Option<Id>, input: CreateChamadoInput): (r: Result<Id, Failure>)
    ensures fromSchedule.Some? ==> r == Ok(fromSchedule.value)
    ensures fromSchedule.None? ==> (r.Ok? <==> FindMachineByTagOrName(machines, input.maquinaTag, input.maquinaNome).Some?)
    ensures fromSchedule.None? && r.Ok? ==> r.value == FindMachineByTagOrName(machines, input.maquinaTag, input.maquinaNome).value.id
  {
    if fromSchedule.Some? then Ok(fromSchedule.value)
    else
      match FindMachineByTagOrName(machines, input.maquinaTag, input.maquinaNome)
      case None => Err(Fail(400, "M\U{E1}quina n\U{E3}o encontrada (tag/nome)."))
      case Some(m) => Ok(m.id)
  }

  /** What the lookups of creation resolve: the schedule entry, the creator, the assignee, the machine and the checklist. */
  datatype Resolved = Resolved(schedule: Option<Id>, criadorId: Id, manutentorId: Option<Id>, maquinaId: Id,
                               checklist: seq<ChecklistItem>)

  /** The machine a schedule entry gives, if the ticket comes from one. */
  function ScheduleMachine(schedules: map<Id, Schedule>, linked: Option<Id>): Option<Id> {
    if linked.Some? && linked.value in schedules then Some(schedules[linked.value].maquinaId) else None
  }

  /** The checklist template a schedule entry gives, if the ticket comes from one. */
  function ScheduleTemplate(schedules: map<Id, Schedule>, linked: Option<Id>): seq<ChecklistItem> {
    if linked.Some? && linked.value in schedules then TemplateItems(schedules[linked.value].itensChecklist) else []
  }

  /** The body or the schedule entry says which machine the ticket is for. */
  predicate MachineNamed(schedules: map<Id, Schedule>, linked: Option<Id>, input: CreateChamadoInput) {
    ScheduleMachine(schedules, linked).Some? || input.maquinaTag.Some? || input.maquinaNome.Some?
  }

  /** The lookups of creation after the schedule entry, in the order the route runs them. */
  function ResolveFromSchedule(users: seq<User>, machines: seq<Machine>, schedules: map<Id, Schedule>, email: string,
                               s: ChamadoStatus, input: CreateChamadoInput, linked: Option<Id>): (r: Result<Resolved, Failure>)
    ensures !MachineNamed(schedules, linked, input) ==> r == Err(Fail(400, "Informe maquinaTag ou maquinaNome (ou agendamentoId)."))
    ensures MachineNamed(schedules, linked, input) && FindUserCi(users, email).None? ==>
      r == Err(Fail(400, "criadoPorEmail inv\U{E1}lido (header)"))
    ensures (MachineNamed(schedules, linked, input) && FindUserCi(users, email).Some? && CreateManutentor(users, s, input).Err?) ==>
      r == Err(CreateManutentor(users, s, input).error)
    ensures (MachineNamed(schedules, linked, input) && FindUserCi(users, email).Some? && CreateManutentor(users, s, input).Ok?
      && CreateMachine(machines, ScheduleMachine(schedules, linked), input).Err?) ==>
      r == Err(CreateMachine(machines, ScheduleMachine(schedules, linked), input).error)
    ensures r.Ok? <==> (MachineNamed(schedules, linked, input) && FindUserCi(users, email).Some?
      && CreateManutentor(users, s, input).Ok? && CreateMachine(machines, ScheduleMachine(schedules, linked), input).Ok?)
    ensures r.Ok? ==> r.value.schedule == linked
    ensures r.Ok? ==> r.value.criadorId == FindUserCi(users, email).value.id
    ensures r.Ok? ==> CreateManutentor(users, s, input) == Ok(r.value.manutentorId)
    ensures r.Ok? ==> CreateMachine(machines, ScheduleMachine(schedules, linked), input) == Ok(r.value.maquinaId)
    ensures r.Ok? ==> r.value.checklist == FinalChecklist(input.checklistItems, ScheduleTemplate(schedules, linked))
  {
    var fromSchedule := ScheduleMachine(schedules, linked);
    if fromSchedule.None? && input.maquinaTag.None? && input.maquinaNome.None? then
      Err(Fail(400, "Informe maquinaTag ou maquinaNome (ou agendamentoId)."))
    else
      var criador := FindUserCi(users, email);
      if criador.None? then Err(Fail(400, "criadoPorEmail inv\U{E1}lido (header)"))
      else
        var mant := CreateManutentor(users, s, input);
        if mant.Err? then Err(mant.error)
        else
          var maquina := CreateMachine(machines, fromSchedule, input);
          if maquina.Err? then Err(maquina.error)
          else Ok(Resolved(linked, criador.value.id, mant.value, maquina.value,
            FinalChecklist(input.checklistItems, ScheduleTemplate(schedules, linked))))
  }

  /** The lookups of creation, in the order the route runs them, each answering 400 when it finds nothing. */
  function ResolveCreate(users: seq<User>, machines: seq<Machine>, schedules: map<Id, Schedule>, castId: IdCast, email: string,
                         s: ChamadoStatus, input: CreateChamadoInput): (r: Result<Resolved, Failure>)
    ensures LinkedSchedule(schedules, castId, input.agendamentoId).Err? ==> r == Err(LinkedSchedule(schedules, castId, input.agendamentoId).error)
    ensures var l := LinkedSchedule(schedules, castId, input.agendamentoId);
      l.Ok? && !MachineNamed(schedules, l.value, input) ==>
      r == Err(Fail(400, "Informe maquinaTag ou maquinaNome (ou agendamentoId)."))
    ensures var l := LinkedSchedule(schedules, castId, input.agendamentoId);
      l.Ok? && MachineNamed(schedules, l.value, input) && FindUserCi(users, email).None? ==>
      r == Err(Fail(400, "criadoPorEmail inv\U{E1}lido (header)"))
    ensures var l := LinkedSchedule(schedules, castId, input.agendamentoId);
      (l.Ok? && MachineNamed(schedules, l.value, input) && FindUserCi(users, email).Some?
       && CreateManutentor(users, s, input).Err?) ==> r == Err(CreateManutentor(users, s, input).error)
    ensures var l := LinkedSchedule(schedules, castId, input.agendamentoId);
      (l.Ok? && MachineNamed(schedules, l.value, input) && FindUserCi(users, email).Some? && CreateManutentor(users, s, input).Ok?
       && CreateMachine(machines, ScheduleMachine(schedules, l.value), input).Err?) ==>
      r == Err(CreateMachine(machines, ScheduleMachine(schedules, l.value), input).error)
    ensures var l := LinkedSchedule(schedules, castId, input.agendamentoId);
      r.Ok? <==> (l.Ok? && MachineNamed(schedules, l.value, input) && FindUserCi(users, email).Some?
        && CreateManutentor(users, s, input).Ok? && CreateMachine(machines, ScheduleMachine(schedules, l.value), input).Ok?)
    ensures r.Ok? ==> LinkedSchedule(schedules, castId, input.agendamentoId) == Ok(r.value.schedule)
    ensures r.Ok? ==> (r.value.schedule.Some? || input.maquinaTag.Some? || input.maquinaNome.Some?)
    ensures r.Ok? ==> FindUserCi(users, email).Some? && r.value.criadorId == FindUserCi(users, email).value.id
    ensures r.Ok? ==> CreateManutentor(users, s, input) == Ok(r.value.manutentorId)
    ensures r.Ok? ==> CreateMachine(machines, ScheduleMachine(schedules, r.value.schedule), input) == Ok(r.value.maquinaId)
    ensures r.Ok? ==> r.value.checklist == FinalChecklist(input.checklistItems, ScheduleTemplate(schedules, r.value.schedule))
  {
    var linked := LinkedSchedule(schedules, castId, input.agendamentoId);
    if linked.Err? then Err(linked.error)
    else ResolveFromSchedule(users, machines, schedules, email, s, input, linked.value)
  }

  /** What a successful creation writes: the new row, and the schedule entry to mark as started. */
  datatype CreatePlan = CreatePlan(ticket: Ticket, schedule: Option<Id>)

  /** The new row from what was resolved. */
  function CreatedTicket(body: Js.Value, s: ChamadoStatus, input: CreateChamadoInput, res: Resolved, now: Time): (t: Ticket)
    ensures StateOf(t) == s && t.status == Label(s)
    ensures t.tipo == Some(CreateTipo(body)) && t.descricao == Trim(input.descricao)
    ensures t.criadoPorId == res.criadorId && t.maquinaId == res.maquinaId
    ensures t.manutentorId == res.manutentorId && t.responsavelAtualId == res.manutentorId
    ensures t.checklist == Some(ChecklistJson(res.checklist)) && t.criadoEm == now
    ensures t.agendamentoId.None? && t.atendidoPorId.None? && t.concluidoEm.None?
  {
    ChamadoStatusLabelRoundTrip(s);
    NewTicket(res.maquinaId, CreateTipo(body), Label(s), Trim(input.descricao), res.criadorId,
      res.manutentorId, Some(ChecklistJson(res.checklist)), now)
  }

  /** The guards of creation after validation and the header, in the order the route runs them. */
  function PlanFromInput(users: seq<User>, machines: seq<Machine>, schedules: map<Id, Schedule>, castId: IdCast, user: RequestUser,
                         body: Js.Value, input: CreateChamadoInput, now: Time): (r: Result<CreatePlan, Failure>)
    ensures CreateRules(user.role, CreateStatus(input), input).Err? ==> r == Err(CreateRules(user.role, CreateStatus(input), input).error)
    ensures CreateRules(user.role, CreateStatus(input), input).Ok? ==>
      r == match ResolveCreate(users, machines, schedules, castId, user.email, CreateStatus(input), input)
        case Err(e) => Err(e)
        case Ok(res) => Ok(CreatePlan(CreatedTicket(body, CreateStatus(input), input, res, now), res.schedule))
  {
    var s := CreateStatus(input);
    var rules := CreateRules(user.role, s, input);
    if rules.Err? then Err(rules.error)
    else
      match ResolveCreate(users, machines, schedules, castId, user.email, s, input)
      case Err(e) => Err(e)
      case Ok(res) => Ok(CreatePlan(CreatedTicket(body, s, input, res, now), res.schedule))
  }

  /** The whole decision of `POST /chamados`: validation, the user header, then the guards above. */
  function PlanCreate(users: seq<User>, machines: seq<Machine>, schedules: map<Id, Schedule>, castId: IdCast, user: Option<RequestUser>,
                      body: Js.Value, isEmail: string -> bool, now: Time): (r: Result<CreatePlan, Failure>)
    ensures ParseCreateChamado(BodyOrEmpty(body), isEmail).None? ==> r == Err(Fail(400, "VALIDATION_ERROR"))
    ensures ParseCreateChamado(BodyOrEmpty(body), isEmail).Some? && (user.None? || user.value.email == []) ==>
      r == Err(Fail(401, "USUARIO_NAO_CADASTRADO"))
    ensures ParseCreateChamado(BodyOrEmpty(body), isEmail).Some? && user.Some? && user.value.email != [] ==>
      r == PlanFromInput(users, machines, schedules, castId, user.value, body, ParseCreateChamado(BodyOrEmpty(body), isEmail).value, now)
    ensures r.Ok? ==> ParseCreateChamado(BodyOrEmpty(body), isEmail).Some? && user.Some? && user.value.email != []
    ensures r.Ok? ==> r == PlanFromInput(users, machines, schedules, castId, user.value, body,
      ParseCreateChamado(BodyOrEmpty(body), isEmail).value, now)
  {
    var parsed := ParseCreateChamado(BodyOrEmpty(body), isEmail);
    if parsed.None? then Err(Fail(400, "VALIDATION_ERROR"))
    else if user.None? || user.value.email == [] then Err(Fail(401, "USUARIO_NAO_CADASTRADO"))
    else PlanFromInput(users, machines, schedules, castId, user.value, body, parsed.value, now)
  }

  /** What every created ticket satisfies: an active state, its creator found by e-mail, an assignee only when Em Andamento. */
  lemma {:induction false} CreatedTicketProperties(users: seq<User>, machines: seq<Machine>, schedules: map<Id, Schedule>, castId: IdCast,
                                 user: RequestUser, body: Js.Value, input: CreateChamadoInput, now: Time)
    requires PlanFromInput(users, machines, schedules, castId, user, body, input, now).Ok?
    ensures var t := PlanFromInput(users, machines, schedules, castId, user, body, input, now).value.ticket;
      && (StateOf(t) == Aberto || StateOf(t) == EmAndamento)
      && (user.role == Operador ==> StateOf(t) == Aberto && t.manutentorId.None? && t.responsavelAtualId.None?)
      && (t.manutentorId.Some? ==> StateOf(t) == EmAndamento)
      && (exists u :: u in users && u.id == t.criadoPorId && Lower(u.email) == Lower(user.email))
  {
    var s := CreateStatus(input);
    var res := ResolveCreate(users, machines, schedules, castId, user.email, s, input).value;
    var t := CreatedTicket(body, s, input, res, now);
    assert PlanFromInput(users, machines, schedules, castId, user, body, input, now).value.ticket == t;
    var u := FindUserCi(users, user.email).value;
    assert u in users && u.id == t.criadoPorId && Lower(u.email) == Lower(user.email);
  }

  /** The machine of a ticket created without a schedule entry is one whose tag or name the body gave. */
  lemma CreatedTicketMachine(users: seq<User>, machines: seq<Machine>, schedules: map<Id, Schedule>, castId: IdCast,
                             user: RequestUser, body: Js.Value, input: CreateChamadoInput, now: Time)
    requires PlanFromInput(users, machines, schedules, castId, user, body, input, now).Ok?
    requires PlanFromInput(users, machines, schedules, castId, user, body, input, now).value.schedule.None?
    ensures var t := PlanFromInput(users, machines, schedules, castId, user, body, input, now).value.ticket;
      exists m :: m in machines && m.id == t.maquinaId
        && ((input.maquinaTag.Some? && m.tag == input.maquinaTag) || (input.maquinaNome.Some? && m.nome == input.maquinaNome.value))
  {
    var res := ResolveCreate(users, machines, schedules, castId, user.email, CreateStatus(input), input).value;
    var m := FindMachineByTagOrName(machines, input.maquinaTag, input.maquinaNome).value;
    assert m.id == res.maquinaId;
  }

  /** The schedule entry a ticket is created from becomes `iniciado`, started now. */
  function StartScheduleNow(s: Schedule, now: Time): (c: Schedule)
    ensures NormalizeAgendamentoStatus(c.status) == Iniciado && c.iniciadoEm == Some(now)
    ensures c.(status := s.status, iniciadoEm := s.iniciadoEm) == s
  {
    AgendamentoStatusLabelRoundTrip(Iniciado);
    s.(status := AgendamentoLabel(Iniciado), iniciadoEm := Some(now))
  }

  /**
   * The writes of `POST /chamados`: the ticket is inserted with the next id;
   * when it was created from a schedule entry, that entry is marked as
   * started. The new row does not record the entry it came from.
   */
  method ApplyCreatePlan(db: Database, p: CreatePlan, now: Time) returns (id: Id)
    requires db.Valid()
    requires p.schedule.Some? ==> p.schedule.value in db.agendamentos
    modifies db`chamados, db`nextChamadoId, db`agendamentos
    ensures db.Valid()
    ensures id == old(db.nextChamadoId) && id !in old(db.chamados)
    ensures db.chamados == old(db.chamados)[id := p.ticket]
    ensures p.schedule.Some? ==> db.agendamentos == old(db.agendamentos)[p.schedule.value :=
      StartScheduleNow(old(db.agendamentos)[p.schedule.value], now)]
    ensures p.schedule.None? ==> db.agendamentos == old(db.agendamentos)
  {
    id := db.InsertChamado(p.ticket);
    if p.schedule.Some? {
      var sid := p.schedule.value;
      db.UpdateAgendamento(sid, StartScheduleNow(db.agendamentos[sid], now));
    }
  }

  /** `POST /chamados`: the decision on the tables as they are, then its writes; on an error nothing changes. */
  method Create(db: Database, castId: IdCast, user: Option<RequestUser>, body: Js.Value, isEmail: string -> bool, now: Time)
    returns (r: Result<Id, Failure>, plan: Result<CreatePlan, Failure>)
    requires db.Valid()
    modifies db`chamados, db`nextChamadoId, db`agendamentos
    ensures db.Valid()
    ensures plan == PlanCreate(old(db.usuarios), old(db.maquinas), old(db.agendamentos), castId, user, body, isEmail, now)
    ensures plan.Err? ==> r == Err(plan.error) && db.chamados == old(db.chamados) && db.agendamentos == old(db.agendamentos)
    ensures plan.Ok? ==> (r == Ok(old(db.nextChamadoId)) && old(db.nextChamadoId) !in old(db.chamados)
      && db.chamados == old(db.chamados)[old(db.nextChamadoId) := plan.value.ticket])
    ensures plan.Ok? && plan.value.schedule.Some? ==> (plan.value.schedule.value in old(db.agendamentos)
      && db.agendamentos == old(db.agendamentos)[plan.value.schedule.value :=
        StartScheduleNow(old(db.agendamentos)[plan.value.schedule.value], now)])
    ensures plan.Ok? && plan.value.schedule.None? ==> db.agendamentos == old(db.agendamentos)
  {
    plan := PlanCreate(db.usuarios, db.maquinas, db.agendamentos, castId, user, body, isEmail, now);
    if plan.Err? {
      return Err(plan.error), plan;
    }
    ScheduledPlanNamesEntry(db.usuarios, db.maquinas, db.agendamentos, castId, user, body, isEmail, now);
    var id := ApplyCreatePlan(db, plan.value, now);
    r := Ok(id);
  }

  /** A plan that marks a schedule entry names one that exists. */
  lemma ScheduledPlanNamesEntry(users: seq<User>, machines: seq<Machine>, schedules: map<Id, Schedule>, castId: IdCast,
                                user: Option<RequestUser>, body: Js.Value, isEmail: string -> bool, now: Time)
    requires PlanCreate(users, machines, schedules, castId, user, body, isEmail, now).Ok?
    ensures var p := PlanCreate(users, machines, schedules, castId, user, body, isEmail, now).value;
      p.schedule.Some? ==> p.schedule.value in schedules
  {
    var input := ParseCreateChamado(BodyOrEmpty(body), isEmail).value;
    var res := ResolveCreate(users, machines, schedules, castId, user.value.email, CreateStatus(input), input);
    assert res.Ok?;
  }

  // ---------------------------------------------------------------------
  // PATCH /chamados/:id
  // ---------------------------------------------------------------------

  /** `user?.role ?? "gestor"`: without a user the route acts as a gestor. */
  function PatchRole(user: Option<RequestUser>): Role {
    if user.Some? then user.value.role else Gestor
  }

  /** The role rules of the status patch; Cancelado has none. */
  function PatchStatusGate(role: Role, s: ChamadoStatus, manutentorEmail: Js.Value): (r: Result<(), Failure>)
    ensures r.Ok? <==> match s
      case EmAndamento => (role == Manutentor || role == Gestor) && Js.Truthy(manutentorEmail)
      case Concluido => role == Manutentor || role == Gestor
      case Aberto => role == Gestor
      case Cancelado => true
    ensures s == EmAndamento && role != Manutentor && role != Gestor ==>
      r == Err(Fail(403, "Apenas manutentor/gestor podem mover para 'Em Andamento'."))
    ensures s == EmAndamento && (role == Manutentor || role == Gestor) && !Js.Truthy(manutentorEmail) ==>
      r == Err(Fail(400, "manutentorEmail \U{E9} obrigat\U{F3}rio quando status = 'Em Andamento'."))
    ensures s == Concluido && role != Manutentor && role != Gestor ==> r == Err(Fail(403, "Apenas manutentor/gestor podem concluir."))
    ensures s == Aberto && role != Gestor ==> r == Err(Fail(403, "Apenas gestor pode reabrir para 'Aberto'."))
  {
    if s == EmAndamento && !(role == Manutentor || role == Gestor) then
      Err(Fail(403, "Apenas manutentor/gestor podem mover para 'Em Andamento'."))
    else if s == EmAndamento && !Js.Truthy(manutentorEmail) then
      Err(Fail(400, "manutentorEmail \U{E9} obrigat\U{F3}rio quando status = 'Em Andamento'."))
    else if s == Concluido && !(role == Manutentor || role == Gestor) then
      Err(Fail(403, "Apenas manutentor/gestor podem concluir."))
    else if s == Aberto && role != Gestor then
      Err(Fail(403, "Apenas gestor pode reabrir para 'Aberto'."))
    else Ok(())
  }

  /** Unlike the role middleware, this route gives an admin no extra rights: an admin may only cancel. */
  lemma PatchStatusAdminOnlyCancels(s: ChamadoStatus, manutentorEmail: Js.Value)
    ensures PatchStatusGate(Admin, s, manutentorEmail).Ok? <==> s == Cancelado
    ensures PatchStatusGate(Operador, s, manutentorEmail).Ok? <==> s == Cancelado
  {
  }

  /** `WITH mt AS (SELECT id FROM usuarios WHERE email = $2 LIMIT 1)`, with `$2 = manutentorEmail ?? null`. */
  function PatchManutentor(users: seq<User>, manutentorEmail: Js.Value): (mt: Option<Id>)
    ensures Js.Nullish(manutentorEmail) ==> mt.None?
    ensures !Js.Nullish(manutentorEmail) ==>
      (mt.Some? <==> exists u :: u in users && u.email == Js.ToStr(manutentorEmail))
  {
    if Js.Nullish(manutentorEmail) then None
    else
      var u := FindUser(users, Js.ToStr(manutentorEmail));
      if u.Some? then Some(u.value.id)
      else
        assert forall v :: v in users ==> v.email != Js.ToStr(manutentorEmail) by {
          forall v | v in users ensures v.email != Js.ToStr(manutentorEmail) {
            var j :| 0 <= j < |users| && users[j] == v;
          }
        }
        None
  }

  /**
   * The `UPDATE` of the status patch: Em Andamento assigns `mt`, Aberto
   * clears the assignment and the completion time, Concluido records who
   * completed it and when; the "attended by" columns are never touched.
   */
  function PatchStatusRow(t: Ticket, s: ChamadoStatus, mt: Option<Id>, user: Option<RequestUser>, now: Time): (c: Ticket)
    ensures StateOf(c) == s && c.atualizadoEm == Some(now)
    ensures s == EmAndamento ==> c.manutentorId == mt && c.responsavelAtualId == mt && c.concluidoEm == t.concluidoEm
    ensures s == Aberto ==> c.manutentorId.None? && c.responsavelAtualId.None? && c.concluidoEm.None?
    ensures s == Concluido ==> (c.concluidoEm == Some(now) && c.manutentorId == t.manutentorId
      && c.concluidoPorId == (if user.Some? then user.value.id else None)
      && c.concluidoPorEmail == (if user.Some? then Some(user.value.email) else None)
      && c.concluidoPorNome == (if user.Some? then user.value.name else None))
    ensures s != Concluido ==> (c.concluidoPorId == t.concluidoPorId && c.concluidoPorEmail == t.concluidoPorEmail
      && c.concluidoPorNome == t.concluidoPorNome)
    ensures s == Cancelado ==> c == t.(status := Label(Cancelado), atualizadoEm := Some(now))
    ensures c.(status := t.status, manutentorId := t.manutentorId, responsavelAtualId := t.responsavelAtualId,
      concluidoEm := t.concluidoEm, concluidoPorId := t.concluidoPorId, concluidoPorEmail := t.concluidoPorEmail,
      concluidoPorNome := t.concluidoPorNome, atualizadoEm := t.atualizadoEm) == t
  {
    ChamadoStatusLabelRoundTrip(s);
    var concluido := s == Concluido;
    t.(status := Label(s),
       manutentorId := if s == EmAndamento then mt else if s == Aberto then None else t.manutentorId,
       responsavelAtualId := if s == EmAndamento then mt else if s == Aberto then None else t.responsavelAtualId,
       concluidoEm := if concluido then Some(now) else if s == Aberto then None else t.concluidoEm,
       concluidoPorId := if concluido then (if user.Some? then user.value.id else None) else t.concluidoPorId,
       concluidoPorEmail := if concluido then (if user.Some? then Some(user.value.email) else None) else t.concluidoPorEmail,
       concluidoPorNome := if concluido then (if user.Some? then user.value.name else None) else t.concluidoPorNome,
       atualizadoEm := Some(now))
  }

  /** The state the status patch asks for: `normalizeChamadoStatus(req.body?.status)`, which never fails. */
  function PatchTarget(body: Js.Value): ChamadoStatus {
    NormalizeChamadoStatus(Js.StringOrEmpty(Js.Get(body, "status")))
  }

  /** The decision of the status patch on the table as it is. */
  function PlanPatchStatus(tickets: map<Id, Ticket>, users: seq<User>, user: Option<RequestUser>, id: Id,
                           body: Js.Value, now: Time): (r: Result<Ticket, Failure>)
    ensures PatchStatusGate(PatchRole(user), PatchTarget(body), Js.Get(body, "manutentorEmail")).Err? ==>
      r == Err(PatchStatusGate(PatchRole(user), PatchTarget(body), Js.Get(body, "manutentorEmail")).error)
    ensures PatchStatusGate(PatchRole(user), PatchTarget(body), Js.Get(body, "manutentorEmail")).Ok? && id !in tickets ==>
      r == Err(Fail(404, "Chamado n\U{E3}o encontrado ou manutentor inexistente."))
    ensures r.Ok? <==> PatchStatusGate(PatchRole(user), PatchTarget(body), Js.Get(body, "manutentorEmail")).Ok? && id in tickets
    ensures r.Ok? ==> r.value == PatchStatusRow(tickets[id], PatchTarget(body),
      PatchManutentor(users, Js.Get(body, "manutentorEmail")), user, now)
  {
    var s := PatchTarget(body);
    var me := Js.Get(body, "manutentorEmail");
    var gate := PatchStatusGate(PatchRole(user), s, me);
    if gate.Err? then Err(gate.error)
    else if id !in tickets then Err(Fail(404, "Chamado n\U{E3}o encontrado ou manutentor inexistente."))
    else Ok(PatchStatusRow(tickets[id], s, PatchManutentor(users, me), user, now))
  }

  /** An e-mail no user has resolves to no manutentor. */
  lemma PatchManutentorOfUnknown(users: seq<User>, manutentorEmail: Js.Value)
    requires !Js.Nullish(manutentorEmail)
    requires forall u :: u in users ==> u.email != Js.ToStr(manutentorEmail)
    ensures PatchManutentor(users, manutentorEmail).None?
  {
  }

  /**
   * Despite the 404 text, an unknown `manutentorEmail` does not stop the
   * move to Em Andamento: the ticket is updated and left without assignee
   * (the row `PatchStatusRow` gives for no `mt`).
   */
  lemma UnknownManutentorLeavesUnassigned(tickets: map<Id, Ticket>, users: seq<User>, user: Option<RequestUser>, id: Id,
                                          body: Js.Value, now: Time)
    requires id in tickets && PatchTarget(body) == EmAndamento && PatchRole(user) == Gestor
    requires Js.Get(body, "manutentorEmail").Str? && Js.Get(body, "manutentorEmail").s != []
    requires forall u :: u in users ==> u.email != Js.Get(body, "manutentorEmail").s
    ensures PlanPatchStatus(tickets, users, user, id, body, now) == Ok(PatchStatusRow(tickets[id], EmAndamento, None, user, now))
  {
    var me := Js.Get(body, "manutentorEmail");
    PatchManutentorOfUnknown(users, me);
    assert Js.Truthy(me);
    assert PatchStatusGate(Gestor, EmAndamento, me) == Ok(());
  }

  /** Reopening a ticket forgets its assignee and completion time, whatever state it was in. */
  lemma ReopenClearsAssignment(tickets: map<Id, Ticket>, users: seq<User>, user: Option<RequestUser>, id: Id,
                               body: Js.Value, now: Time)
    requires PatchTarget(body) == Aberto && PlanPatchStatus(tickets, users, user, id, body, now).Ok?
    ensures var c := PlanPatchStatus(tickets, users, user, id, body, now).value;
      StateOf(c) == Aberto && c.manutentorId.None? && c.responsavelAtualId.None? && c.concluidoEm.None?
      && c.atendidoPorId == tickets[id].atendidoPorId
  {
  }

  /** `PATCH /chamados/:id`: the row is rewritten as planned, or nothing changes. */
  method PatchStatus(db: Database, user: Option<RequestUser>, id: Id, body: Js.Value, now: Time) returns (r: Result<Ticket, Failure>)
    modifies db`chamados
    ensures r == PlanPatchStatus(old(db.chamados), db.usuarios, user, id, body, now)
    ensures r.Ok? ==> db.chamados == old(db.chamados)[id := r.value]
    ensures r.Err? ==> db.chamados == old(db.chamados)
  {
    r := PlanPatchStatus(db.chamados, db.usuarios, user, id, body, now);
    if r.Ok? {
      db.UpdateChamado(id, r.value);
    }
  }
}
