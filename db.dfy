/**
 * The database tables the handlers read and write: `usuarios`, `maquinas`,
 * `chamados` (tickets), `agendamentos_preventivos` (preventive schedule
 * entries) and `checklist_submissoes` (daily checklists), keyed by row ids.
 * A nullable column is an `Option`; a `jsonb` column holds a `Js.Value`.
 */
module Db {
  import opened Wrappers
  import opened Text
  import Js
  import opened Http

  /** A row of `usuarios`, as far as the handlers look at it. */
  datatype User = User(id: Id, email: string, nome: Option<string>)

  /** A row of `maquinas`. */
  datatype Machine = Machine(id: Id, tag: Option<string>, nome: string)

  /** A row of `chamados`. `status` and `tipo` hold whatever text was stored; readers normalise them. */
  datatype Ticket = Ticket(
    maquinaId: Id,
    tipo: Option<string>,
    status: string,
    descricao: string,
    criadoPorId: Id,
    manutentorId: Option<Id>,
    responsavelAtualId: Option<Id>,
    atendidoPorId: Option<Id>,
    atendidoPorEmail: Option<string>,
    atendidoPorNome: Option<string>,
    atendidoEm: Option<Time>,
    checklist: Option<Js.Value>,
    tipoChecklist: Option<seq<string>>,
    causa: Option<string>,
    solucao: Option<string>,
    servicoRealizado: Option<string>,
    concluidoEm: Option<Time>,
    concluidoPorId: Option<Id>,
    concluidoPorEmail: Option<string>,
    concluidoPorNome: Option<string>,
    agendamentoId: Option<Id>,
    item: Option<string>,
    checklistItemKey: Option<string>,
    criadoEm: Time,
    atualizadoEm: Option<Time>)

  /** A row of `agendamentos_preventivos`. Times are kept as the values the client sent. */
  datatype Schedule = Schedule(
    maquinaId: Id,
    descricao: string,
    itensChecklist: Js.Value,
    originalStart: Js.Value,
    originalEnd: Js.Value,
    startTs: Js.Value,
    endTs: Js.Value,
    status: string,
    criadoEm: Time,
    iniciadoEm: Option<Time>,
    concluidoEm: Option<Time>)

  /** The unique key of `checklist_submissoes`: operator, machine and the local calendar day. */
  datatype SubmissionKey = SubmissionKey(operadorId: Id, maquinaId: Id, dataRef: nat)

  /** A row of `checklist_submissoes` without its key. */
  datatype Submission = Submission(
    operadorNome: string,
    operadorEmail: string,
    maquinaNome: string,
    respostas: Js.Value,
    turno: string,
    createdAt: Time,
    updatedAt: Option<Time>)

  /** `INSERT INTO chamados` with the columns the statement names; every other column is NULL and `criado_em` is `NOW()`. */
  function NewTicket(maquinaId: Id, tipo: string, status: string, descricao: string, criadoPorId: Id,
                     manutentorId: Option<Id>, checklist: Option<Js.Value>, now: Time): (t: Ticket)
    ensures t.tipo == Some(tipo) && t.status == status && t.manutentorId == manutentorId
    ensures t.responsavelAtualId == manutentorId && t.atendidoPorId.None? && t.agendamentoId.None?
    ensures t.concluidoEm.None? && t.checklist == checklist && t.criadoEm == now
  {
    Ticket(maquinaId, Some(tipo), status, descricao, criadoPorId, manutentorId, manutentorId,
      None, None, None, None, checklist, None, None, None, None, None, None, None, None, None, None, None, now, None)
  }

  // ---------------------------------------------------------------------
  // Lookups (`SELECT ... LIMIT 1`, which returns the first matching row)
  // ---------------------------------------------------------------------

  /** The index of the first element of `xs` that `p` accepts. */
  function FirstIndex<T>(xs: seq<T>, p: T -> bool): (r: Option<nat>)
    ensures r.Some? ==> r.value < |xs| && p(xs[r.value]) && forall j :: 0 <= j < r.value ==> !p(xs[j])
    ensures r.None? ==> forall j :: 0 <= j < |xs| ==> !p(xs[j])
  {
    if xs == [] then None
    else if p(xs[0]) then Some(0)
    else
      match FirstIndex(xs[1..], p)
      case None => None
      case Some(i) => Some(i + 1)
  }

  /** The first element of `xs` that `p` accepts. */
  function First<T>(xs: seq<T>, p: T -> bool): (r: Option<T>)
    ensures r.Some? ==> r.value in xs && p(r.value)
    ensures r.None? <==> forall j :: 0 <= j < |xs| ==> !p(xs[j])
  {
    match FirstIndex(xs, p)
    case None => None
    case Some(i) => Some(xs[i])
  }

  /** `WHERE LOWER(email) = LOWER($1)`. */
  function FindUserCi(users: seq<User>, email: string): (r: Option<User>)
    ensures r.Some? ==> r.value in users && Lower(r.value.email) == Lower(email)
    ensures r.None? <==> forall j :: 0 <= j < |users| ==> Lower(users[j].email) != Lower(email)
  {
    First(users, (u: User) => Lower(u.email) == Lower(email))
  }

  /** `WHERE email = $1`. */
  function FindUser(users: seq<User>, email: string): (r: Option<User>)
    ensures r.Some? ==> r.value in users && r.value.email == email
    ensures r.None? <==> forall j :: 0 <= j < |users| ==> users[j].email != email
  {
    First(users, (u: User) => u.email == email)
  }

  /** `FROM maquinas WHERE id = $1`. */
  function FindMachine(machines: seq<Machine>, id: Id): (r: Option<Machine>)
    ensures r.Some? ==> r.value in machines && r.value.id == id
    ensures r.None? <==> forall j :: 0 <= j < |machines| ==> machines[j].id != id
  {
    First(machines, (m: Machine) => m.id == id)
  }

  /** `WHERE ($1 IS NOT NULL AND tag = $1) OR ($2 IS NOT NULL AND nome = $2)`. */
  function FindMachineByTagOrName(machines: seq<Machine>, tag: Option<string>, nome: Option<string>): (r: Option<Machine>)
    ensures r.Some? ==> r.value in machines && ((tag.Some? && r.value.tag == tag) || (nome.Some? && r.value.nome == nome.value))
    ensures tag.None? && nome.None? ==> r.None?
  {
    First(machines, (m: Machine) => (tag.Some? && m.tag == tag) || (nome.Some? && m.nome == nome.value))
  }

  /**
   * How PostgreSQL casts a request value bound to an id column (the
   * machine and user columns are `uuid`): `Some(id)` for the row key the
   * value's text denotes, `None` when the cast refuses it and the
   * statement fails. The handlers take the cast as a parameter.
   */
  type IdCast = Js.Value -> Option<Id>

  // ---------------------------------------------------------------------
  // The database
  // ---------------------------------------------------------------------

  /** The tables, with the key each table hands to its next inserted row. */
  class Database {
    var usuarios: seq<User>
    var maquinas: seq<Machine>
    var chamados: map<Id, Ticket>
    var nextChamadoId: Id
    var agendamentos: map<Id, Schedule>
    var nextAgendamentoId: Id
    var submissoes: map<SubmissionKey, Submission>

    /** Every row's id was handed out by its sequence. */
    ghost predicate Valid()
      reads this
    {
      && (forall id :: id in chamados ==> id < nextChamadoId)
      && (forall id :: id in agendamentos ==> id < nextAgendamentoId)
    }

    /** Empty ticket, schedule and submission tables over the given users and machines. */
    constructor(users: seq<User>, machines: seq<Machine>)
      ensures Valid()
      ensures usuarios == users && maquinas == machines
      ensures chamados == map[] && agendamentos == map[] && submissoes == map[]
    {
      usuarios := users;
      maquinas := machines;
      chamados := map[];
      nextChamadoId := 1;
      agendamentos := map[];
      nextAgendamentoId := 1;
      submissoes := map[];
    }

    /** `INSERT INTO chamados ... RETURNING id`: the row gets a fresh key, one no row had. */
    method InsertChamado(t: Ticket) returns (id: Id)
      requires Valid()
      modifies this`chamados, this`nextChamadoId
      ensures Valid()
      ensures id == old(nextChamadoId) && id !in old(chamados)
      ensures chamados == old(chamados)[id := t]
      ensures nextChamadoId == old(nextChamadoId) + 1
    {
      id := nextChamadoId;
      chamados := chamados[id := t];
      nextChamadoId := nextChamadoId + 1;
    }

    /** `INSERT INTO agendamentos_preventivos ... RETURNING id`. */
    method InsertAgendamento(s: Schedule) returns (id: Id)
      requires Valid()
      modifies this`agendamentos, this`nextAgendamentoId
      ensures Valid()
      ensures id == old(nextAgendamentoId) && id !in old(agendamentos)
      ensures agendamentos == old(agendamentos)[id := s]
      ensures nextAgendamentoId == old(nextAgendamentoId) + 1
    {
      id := nextAgendamentoId;
      agendamentos := agendamentos[id := s];
      nextAgendamentoId := nextAgendamentoId + 1;
    }

    /** `UPDATE chamados SET ... WHERE id = $1` on a row that exists. */
    method UpdateChamado(id: Id, t: Ticket)
      requires id in chamados
      modifies this`chamados
      ensures chamados == old(chamados)[id := t]
    {
      chamados := chamados[id := t];
    }

    /** `UPDATE agendamentos_preventivos SET ... WHERE id = $1` on a row that exists. */
    method UpdateAgendamento(id: Id, s: Schedule)
      requires id in agendamentos
      modifies this`agendamentos
      ensures agendamentos == old(agendamentos)[id := s]
    {
      agendamentos := agendamentos[id := s];
    }
  }
}
