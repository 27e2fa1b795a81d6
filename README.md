# Maintenance tickets (chamados): a verified model

This project models the ticket lifecycle of a factory-maintenance API. A
*chamado* is a maintenance ticket on a machine. It is **corretiva**
(repair), **preventiva** (planned) or **preditiva** (raised by a daily
checklist). Its life runs Aberto → Em Andamento → Concluido, or it ends
Cancelado.

The model covers seven areas:

- **Status normalisers** (`Status`). They turn any free-form status text
  into one of four ticket states or one of four schedule states. Both are
  proved insensitive to case, accents, `_`/`-` separators and surrounding
  whitespace, and proved idempotent.
- **Slugs** (`Slug`). `toSlug`, `slugify` and `slugifyItem` are modelled.
  Slug shape, `slugify` = `slugifyItem` and idempotence are proved.
- **Roles** (`Roles`, `RoleFuncao`, `RoleGate`). These cover role
  normalisation, the job title shown for a role, and the `requireRole`
  middleware with its 401-before-403 order.
- **Request schemas** (`Schemas`). The zod schemas of the shared package
  are modelled as parsers into `Option`/`Field` values, with round trips
  for stored checklists.
- **Ticket handlers** (`Chamados`). This covers list pagination, claim
  (`atender`), completion (`concluir`), the live checklist patch,
  creation and the administrative status patch.
- **Preventive schedules** (`ChecklistTemplate`, `Agendamentos`). This
  covers the checklist-template normaliser, schedule creation, reschedule,
  and `iniciar`, which turns a schedule entry into a ticket.
- **Daily checklist** (`Checklists`). This covers the submission upsert,
  the turno (shift) normalisation, and the loop that raises one predictive
  ticket per "nao" answer without duplicates.

The database is a `Db.Database` object. Its tables are fields: users and
machines are `seq`s, while tickets, schedules and submissions are `map`s
keyed by row id. Each route handler is a method on that object and
counts as one atomic transaction. Each method is specified by a pure
`Plan…` function of the old tables. Its `ensures` states the whole new
state: the one row written, or no change on any error. The error answers
carry the HTTP code and the error text of the code (`Http.Failure`).

Behaviours of the code that the model reproduces as written:

- `concluir` sits behind `requireRole(['manutentor'])`. A gestor is
  therefore refused with 403 before the handler's own "gestor may" rule
  is reached (`Chamados.GestorCannotConcluir`). An admin passes the
  middleware but must still be associated with the ticket.
- `concluir` reads the ticket without a lock, and the UPDATE does not
  test the status again (`Chamados.ApplyConclusion`).
- Neither creation path writes `agendamento_id`. The completion cascade
  to the schedule therefore only fires for a link made some other way.
- The status PATCH does not look at the current state. Cancelado has no
  role gate, so admins and operadores may only cancel
  (`Chamados.PatchStatusAdminOnlyCancels`).
- In the status PATCH, an unknown `manutentorEmail` leaves the ticket
  unassigned rather than failing (`Chamados.UnknownManutentorLeavesUnassigned`).
- A reopen clears the assignment and `concluido_em` but keeps `atendido_*`
  (`Chamados.ReopenClearsAssignment`).
- `normalizeChamadoStatus` tests "conclu" before "andament"
  (`Status.ChamadoStatusConcluPrecedes`).
- `normalizeChamadoStatus` never returns a falsy value. The
  `STATUS_INVALIDO` and `Status invalido.` answers are therefore
  unreachable, and the model has no such error path.
- Creating a ticket from a schedule turns each stored template object into
  the text "[object Object]" (`Chamados.TemplateItemsOfStoredTemplate`).
- `iniciar` sets the schedule to iniciado but does not set `iniciado_em`
  (`Agendamentos.MarkStarted`).
- A reschedule with status `null` stringifies it to "null", which
  normalises to agendado (`Agendamentos.NullStatusReschedules`).
- The daily-checklist de-duplication compares stored keys by exact string
  (`Checklists.OpenKeysMeaning`).

Some things the handlers receive from outside become parameters: the
clock (`now`, and the calendar day and the before-14:00 flag of the daily
checklist), `JSON.parse`, zod's e-mail test, and the authenticated user
(`Http.RequestUser`).

## Model

| member | source | states |
|---|---|---|
| Status.NormalizeBaseIsCanonical | apps/api/src/utils/status.ts:20-28 | the chain NFD, strip diacritics, `[_-]+`→space, lower, trim, collapse whitespace equals folding every character and then squashing separator runs and dropping edge separators |
| Status.NormalizeBase | apps/api/src/utils/status.ts:20-28 | the chain of `normalizeBase`; what it computes is stated by the NormalizeBase lemmas of this table |
| Status.NormalizeBaseIdempotent | apps/api/src/utils/status.ts:20-28 | normalising an already normalised text changes nothing |
| Status.NormalizeBaseIgnoresCase | apps/api/src/utils/status.ts:20-28 | lower-casing the input first does not change the normal form |
| Status.NormalizeBaseIgnoresAccents | apps/api/src/utils/status.ts:22-23 | replacing an accented Latin letter by its base letter does not change the normal form |
| Status.NormalizeBaseSeparatorRuns | apps/api/src/utils/status.ts:24-27 | any two non-empty runs of `_`, `-` or whitespace in the same place give the same normal form |
| Status.NormalizeBaseIgnoresEdgeSeparators | apps/api/src/utils/status.ts:24-27 | leading and trailing runs of separators are ignored |
| Status.ChamadoStatusLabelRoundTrip | apps/api/src/utils/status.ts:2-7 | each canonical ticket status ("Aberto", "Em Andamento", "Concluido", "Cancelado") normalises to itself |
| Status.ChamadoStatusKeyRoundTrip | apps/api/src/utils/status.ts:65-70 | each status key (aberto, em_andamento, concluido, cancelado) normalises to the status it names |
| Status.ChamadoStatusKey | apps/api/src/utils/status.ts:73-75 | `chamadoStatusKey` is total and always yields one of the four keys |
| Status.ChamadoStatusKeyPreservesStatus | apps/api/src/utils/status.ts:65-75 | the key of any text normalises back to the status of that text |
| Status.ChamadoStatusFallback | apps/api/src/utils/status.ts:34-43 | the empty text, and every text whose normal form matches none of the conclu, andament and cancel rules, gives Aberto |
| Status.ChamadoStatusConcluPrecedes | apps/api/src/utils/status.ts:37-38 | any text starting "conclu" is Concluido, even when it also contains "andament" |
| Status.ChamadoStatusIgnoresCase | apps/api/src/utils/status.ts:34-44 | ticket status is insensitive to letter case |
| Status.ChamadoStatusIgnoresSeparatorRuns | apps/api/src/utils/status.ts:34-44 | ticket status is insensitive to how a separator run is spelled (`_`, `-`, spaces) |
| Status.ChamadoStatusIgnoresEdgeSeparators | apps/api/src/utils/status.ts:34-44 | ticket status ignores leading and trailing separators |
| Status.ChamadoStatusIdempotent | apps/api/src/utils/status.ts:34-44 | normalising the label of a normalised status gives the same status |
| Status.IsStatusAtivoLabels | apps/api/src/utils/status.ts:78-87 | a canonical status is active iff it is Aberto or Em Andamento |
| Status.NormalizeChamadoStatus | apps/api/src/utils/status.ts:34-44 | the first prefix or substring rule that matches the normal form decides; its properties are the ChamadoStatus lemmas of this table |
| Status.IsStatusAtivo | apps/api/src/utils/status.ts:84-87 | a text is active when it denotes Aberto or Em Andamento; stated on the labels by `IsStatusAtivoLabels` |
| Status.NormalizeAgendamentoStatus | apps/api/src/utils/status.ts:50-60 | the first prefix rule that matches the normal form decides; its properties are the AgendamentoStatus lemmas of this table |
| Status.AgendamentoStatusLabelRoundTrip | apps/api/src/utils/status.ts:11-16 | each schedule status (agendado, iniciado, concluido, cancelado) normalises to itself |
| Status.AgendamentoStatusFallback | apps/api/src/utils/status.ts:50-59 | the empty text, and every text whose normal form matches none of the conclu, inici and cancel rules, gives agendado |
| Status.AgendamentoStatusIgnoresCase | apps/api/src/utils/status.ts:50-60 | schedule status is insensitive to letter case |
| Status.AgendamentoStatusIdempotent | apps/api/src/utils/status.ts:50-60 | normalising the label of a normalised schedule status gives the same status |
| Slug.ToSlug | apps/api/src/utils/slug.ts:8-22 | every slug uses only `[a-z0-9_]`, has no `__` and no leading or trailing `_`, whichever edge pattern is used |
| Slug.UnderscoreShape | apps/api/src/utils/slug.ts:19 | replacing each run of non-`[a-z0-9]` characters by `_` leaves no two consecutive underscores |
| Slug.EdgePatternsAgree | apps/api/src/utils/slug.ts:6 | on a collapsed text, removing one edge underscore or all of them gives the same result |
| Slug.SlugifyIsSlugifyItem | apps/api/src/utils/slug.ts:24-26 | `slugify` and `slugifyItem` agree on every input |
| Slug.Slugify | apps/api/src/utils/slug.ts:24 | every result is a slug: only `[a-z0-9_]`, no `__`, no leading or trailing `_` |
| Slug.SlugifyItem | apps/api/src/utils/slug.ts:26 | every result is a slug in the same sense |
| Slug.SlugIgnoresSurroundingWhitespace | apps/api/src/utils/slug.ts:9-14 | with the default trimming, surrounding whitespace does not change the slug |
| Slug.SlugOfSlug | apps/api/src/utils/slug.ts:8-22 | a slug is its own slug |
| Slug.SlugifyIdempotent | apps/api/src/utils/slug.ts:16-24 | `slugify(slugify(x)) == slugify(x)` |
| Roles.ParseRole | apps/api/src/auth/roles.ts:1-6 | a text is read as a role exactly when it is one of the four role names |
| Roles.IsRole | apps/api/src/auth/roles.ts:14-16 | a value is a role exactly when it is the string of one of the four role names |
| Roles.NormalizeRole | apps/api/src/auth/roles.ts:18-26 | a non-string gives operador; a string gives the role named by its trimmed, lower-cased text, or operador when no role has that name |
| Roles.NormalizeRoleIsRole | apps/api/src/auth/roles.ts:14-16 | the result always passes `isRole` |
| Roles.NormalizeRoleOfRole | apps/api/src/auth/roles.ts:14-26 | on a valid role name the normaliser is the identity |
| Roles.NormalizeRoleIdempotent | apps/api/src/auth/roles.ts:18-26 | normalising a normalised role changes nothing |
| Roles.NormalizeRoleIgnoresSurroundingWhitespace | apps/api/src/auth/roles.ts:23 | surrounding whitespace does not change the role |
| Roles.NormalizeRoleIgnoresCase | apps/api/src/auth/roles.ts:23 | letter case does not change the role |
| RoleFuncao.RoleToFuncao | apps/api/src/utils/roles.ts:1-12 | the title is "Gestor" iff the lower-cased role is gestor, "Técnico Eletromecânico" iff it is manutentor, and "Operador de CNC" otherwise |
| RoleFuncao.RoleToFuncaoIgnoresCase | apps/api/src/utils/roles.ts:2 | matching ignores letter case |
| RoleFuncao.RoleToFuncaoOfRole | apps/api/src/utils/roles.ts:4-11 | the title of each role: gestor, manutentor, and the rest as operators |
| RoleFuncao.RoleToFuncaoOfNothing | apps/api/src/utils/roles.ts:2 | a missing role counts as "" and gives "Operador de CNC" |
| RoleGate.HasRequiredRole | apps/api/src/middlewares/requireRole.ts:5-10 | no role is denied; admin is always allowed; an empty list admits any role; otherwise the role must be listed |
| RoleGate.RequireRole | apps/api/src/middlewares/requireRole.ts:12-26 | a missing user id gives 401 USUARIO_NAO_CADASTRADO before any role test; a failed role test gives 403 PERMISSAO_NEGADA; otherwise the user passes |
| RoleGate.ManutentorGate | apps/api/src/middlewares/requireRole.ts:5-22 | `requireRole(['manutentor'])` admits exactly manutentores and admins |
| Schemas.StatusEnumsMatchApi | packages/shared/src/schemas/chamados.ts:4-5 | the shared status and key enums list exactly the labels and keys of the API's four states |
| Schemas.OptionalNonEmptyString | packages/shared/src/schemas/chamados.ts:23-26 | a blank string or undefined is absent; a non-blank string is present and trimmed; anything else is invalid |
| Schemas.OptionalEmail | packages/shared/src/schemas/chamados.ts:28-31 | a blank string or undefined is absent; a non-blank string is present iff it is an e-mail |
| Schemas.ReadResposta | packages/shared/src/schemas/chamados.ts:17 | the answer is nao iff `resposta ?? status ?? "sim"` starts with n or N |
| Schemas.ParseChecklistItem | packages/shared/src/schemas/chamados.ts:8-20 | a string item is accepted iff its trimmed text is non-empty and becomes `{item, resposta: sim}`; a parsed item always has a non-empty trimmed text |
| Schemas.ItemFromFields | packages/shared/src/schemas/chamados.ts:10-19 | an object item is accepted iff `item` is present and no optional field is malformed; the answer follows Schemas.ReadResposta and the comment is kept iff present |
| Schemas.ReadComentario | packages/shared/src/schemas/chamados.ts:10-19 | a null or undefined comment becomes absent, a string becomes its trimmed text, anything else is invalid |
| Schemas.ChecklistItemRoundTrip | packages/shared/src/schemas/chamados.ts:8-20 | a stored checklist item parses back to itself |
| Schemas.ChecklistRoundTrip | packages/shared/src/schemas/chamados.ts:53-57 | a stored checklist parses back element by element to the same list |
| Schemas.ParseArray | packages/shared/src/schemas/chamados.ts:54 | an array parses iff every element parses, keeping order and length |
| Schemas.CreateFromFields | packages/shared/src/schemas/chamados.ts:33-50 | the ten property values are accepted exactly when each meets its rule (blank-or-string machine and schedule fields, a `descricao` of at least 5 characters once trimmed, a missing or enum `tipo`, blank-or-address e-mails, an array of non-blank texts, a missing or string `status`), and the parsed body holds each value as its rule transforms it |
| Schemas.ParseCreateChamado | packages/shared/src/schemas/chamados.ts:33-50 | a body is accepted exactly when it is an object whose named properties meet those rules, and the parsed body is what the rules make of each property; unknown properties are ignored |
| Schemas.CreateSchemaStripsUnknownKeys | packages/shared/src/schemas/chamados.ts:50 | an extra key outside the schema does not change the parse |
| Schemas.ConcluirFromFields | packages/shared/src/schemas/chamados.ts:53-57 | accepted exactly when `checklist` is missing or an array every element of which is an item, and `causa` and `solucao` are each missing or a string; the checklist is the element-wise item parse of the array sent, and the texts are trimmed |
| Schemas.ParseConcluir | packages/shared/src/schemas/chamados.ts:53-57 | a body is accepted exactly when it is an object whose three properties meet the rules of `ConcluirChamadoSchema`, with the values those rules give |
| Schemas.ParseObservacao | packages/shared/src/schemas/chamados.ts:60-62 | a body is accepted exactly when it is an object whose `texto` is a string of at least 2 characters once trimmed, and the text kept is that trimmed `texto` |
| Schemas.ParsePatchChecklist | packages/shared/src/schemas/chamados.ts:65-68 | a body is accepted exactly when it is an object whose checklist is an array of items and whose `userEmail` is missing or an address; the checklist is the element-wise item parse, and the address is kept as written |
| Chamados.PageNumber | apps/api/src/routes/chamados.ts:30 | the page is at least 1 |
| Chamados.PageNumberOfDecimal | apps/api/src/routes/chamados.ts:30 | a positive decimal page is read as itself |
| Chamados.PageSize | apps/api/src/routes/chamados.ts:31 | the page size lies in 1..100 |
| Chamados.PageSizeOfDecimal | apps/api/src/routes/chamados.ts:31 | a positive decimal size is read as itself, capped at 100 |
| Chamados.PageRows | apps/api/src/routes/chamados.ts:130-131 | a page returns at most `pageSize` rows and never goes past the total |
| Chamados.HasNextIffMoreRows | apps/api/src/routes/chamados.ts:30-135 | `hasNext` holds iff the total exceeds `page * pageSize` |
| Chamados.ListDateColumn | apps/api/src/routes/chamados.ts:38-109 | filtering and ordering use `concluido_em` iff the status filter normalises to Concluido |
| Chamados.ListDateColumnOfState | apps/api/src/routes/chamados.ts:84-109 | the label or key of Concluido, and only of Concluido, selects `concluido_em` |
| Chamados.Claim | apps/api/src/routes/chamados.ts:363-379 | a claimed ticket is Em Andamento and has a manutentor, a responsible user, a claimer and a claim time |
| Chamados.ClaimFillsOnlyNulls | apps/api/src/routes/chamados.ts:366-375 | each claim column takes the claimer's value only where it was null |
| Chamados.ClaimKeepsOtherColumns | apps/api/src/routes/chamados.ts:363-379 | no other column changes |
| Chamados.SecondClaimConflicts | apps/api/src/routes/chamados.ts:354-360 | after a claim the ticket is no longer Aberto, so a second claim conflicts |
| Chamados.Atender | apps/api/src/routes/chamados.ts:325-407 | gate errors first, then 404 for a missing ticket, then 409 STATE_CONFLICT with the stored status unless Aberto; success writes exactly the claimed row; an error writes nothing |
| Chamados.WithChecklist | apps/api/src/routes/chamados.ts:617-623 | the patch replaces the checklist and `atualizado_em` and nothing else |
| Chamados.ChecklistPatchGate | apps/api/src/routes/chamados.ts:598-615 | Concluido or Cancelado gives 409 INVALID_STATE with the stored status; otherwise a gestor or a user associated with the ticket may patch, anyone else gets 403 |
| Chamados.ChecklistPatchRoles | apps/api/src/routes/chamados.ts:610-615 | on an open ticket a gestor may always patch and an admin only when associated |
| Chamados.PatchChecklist | apps/api/src/routes/chamados.ts:570-633 | gate errors, then 400 VALIDATION_ERROR, then 404 CHAMADO_NAO_ENCONTRADO for a missing ticket, then the 409 or 403 of the state and permission rule; success exactly when all pass, writing exactly the patched row; an error writes nothing |
| Chamados.OptionalChecklist | apps/api/src/routes/chamados.ts:492-493 | a checklist is written iff a non-empty one was sent |
| Chamados.FinalText | apps/api/src/routes/chamados.ts:494-500 | for corretiva the trimmed text is always written; for other types a blank text becomes null |
| Chamados.ConclusionRules | apps/api/src/routes/chamados.ts:464-500 | preventiva needs a non-empty checklist (CHECKLIST_OBRIGATORIO); corretiva needs `causa` (CAUSA_OBRIGATORIA) and then `solucao` (SOLUCAO_OBRIGATORIA); other types always pass |
| Chamados.ReadConclusion | apps/api/src/routes/chamados.ts:433-500 | 404 for a missing ticket, 409 unless Em Andamento, 403 unless gestor or associated, then the per-type rules, in that order |
| Chamados.Conclude | apps/api/src/routes/chamados.ts:509-535 | the ticket becomes Concluido with the actor and time; checklist, causa, solucao and `servico_realizado` change only when a new value is given; no other column changes |
| Chamados.ConcludeIgnoresCurrentStatus | apps/api/src/routes/chamados.ts:509-523 | the UPDATE does not depend on the status |
| Chamados.BlankTextKeepsStored | apps/api/src/routes/chamados.ts:494-528 | for a non-corretiva ticket a blank causa or solucao keeps the stored value |
| Chamados.CompleteSchedule | apps/api/src/routes/chamados.ts:541-549 | the linked schedule becomes concluido with `concluido_em`, nothing else changes |
| Chamados.ApplyConclusion | apps/api/src/routes/chamados.ts:509-556 | a missing row gives 500; otherwise the row is concluded and its linked schedule, if any, completed in the same step |
| Chamados.Concluir | apps/api/src/routes/chamados.ts:410-568 | gate errors, 400 VALIDATION_ERROR, then the read rules; success writes the concluded row and completes the linked schedule entry when it exists, leaving the schedule table alone otherwise; an error writes nothing |
| Chamados.GestorCannotConcluir | apps/api/src/routes/chamados.ts:412-462 | a gestor is refused with 403 by the middleware |
| Chamados.CreateTipo | apps/api/src/routes/chamados.ts:686-688 | the type is always preventiva or corretiva |
| Chamados.TipoFromValueOfSchema | apps/api/src/routes/chamados.ts:686-688 | on a value the schema accepts, the type is preventiva iff "preventiva" was sent |
| Chamados.CreateTipoOfParsed | apps/api/src/routes/chamados.ts:686-688 | the type agrees with the parsed body's `tipo` |
| Chamados.CreateRules | apps/api/src/routes/chamados.ts:680-699 | the status must be Aberto or Em Andamento (400); an operador may only create Aberto and may not name a manutentor (403) |
| Chamados.TemplateItems | apps/api/src/routes/chamados.ts:721-726 | each template element becomes `{item: String(element), resposta: sim}` |
| Chamados.TemplateItemsOfStoredTemplate | apps/api/src/routes/chamados.ts:721-726 | a stored template object becomes the item "[object Object]" |
| Chamados.LinkedSchedule | apps/api/src/routes/chamados.ts:707-719 | no id means no schedule; an id the id cast refuses is a database error; a cast id is accepted iff a schedule has it, else 400 `agendamentoId inválido.` |
| Chamados.FinalChecklist | apps/api/src/routes/chamados.ts:732-740 | non-empty body items take precedence, each as `{item, resposta: sim}`; otherwise the schedule template is used |
| Chamados.CreateManutentor | apps/api/src/routes/chamados.ts:758-768 | a manutentor is looked up only for Em Andamento with an e-mail; an unknown e-mail gives 400 |
| Chamados.CreateMachine | apps/api/src/routes/chamados.ts:771-784 | the schedule's machine wins; otherwise the first machine with the tag or name, or 400 |
| Chamados.ResolveCreate | apps/api/src/routes/chamados.ts:701-784 | in the code's order: the schedule lookup error, 400 when neither the schedule nor the body names a machine, 400 for an unknown creator, then the manutentor and machine errors; success exactly when every lookup succeeds, with each resolved value given by its own rule |
| Chamados.ResolveFromSchedule | apps/api/src/routes/chamados.ts:745-784 | the lookups after the schedule entry: 400 when no machine is named, 400 for an unknown creator, the manutentor error, the machine error, in that order; success exactly when all succeed, keeping the linked entry and the final checklist |
| Chamados.CreatedTicket | apps/api/src/routes/chamados.ts:789-808 | the inserted row has the normalised status, the computed type, the trimmed description, the resolved ids, manutentor = responsible, and no `agendamento_id` |
| Chamados.PlanCreate | apps/api/src/routes/chamados.ts:651-699 | 400 VALIDATION_ERROR, then 401 without an e-mail; a valid body from a user with an e-mail gets exactly the decision of `PlanFromInput` |
| Chamados.PlanFromInput | apps/api/src/routes/chamados.ts:680-808 | the status and role rules answer first; when they pass, the answer is the resolution's error or the ticket built from what was resolved, with the schedule entry to start |
| Chamados.CreatedTicketProperties | apps/api/src/routes/chamados.ts:680-808 | a created ticket is active; an operador's ticket is Aberto and unassigned; an assigned ticket is Em Andamento; the creator matches the caller's e-mail case-insensitively |
| Chamados.CreatedTicketMachine | apps/api/src/routes/chamados.ts:771-784 | without a schedule, the machine is one with the requested tag or name |
| Chamados.StartScheduleNow | apps/api/src/routes/chamados.ts:812-819 | the linked schedule becomes iniciado with `iniciado_em`; nothing else changes |
| Chamados.ApplyCreatePlan | apps/api/src/routes/chamados.ts:789-819 | inserts the row under a fresh id and starts the linked schedule |
| Chamados.Create | apps/api/src/routes/chamados.ts:651-854 | the outcome is the plan; on success exactly one new row and the linked schedule change; on error nothing changes |
| Chamados.ScheduledPlanNamesEntry | apps/api/src/routes/chamados.ts:707-819 | a plan that starts a schedule names an existing one |
| Chamados.PatchStatusGate | apps/api/src/routes/chamados.ts:885-896 | Em Andamento needs manutentor or gestor plus a `manutentorEmail`; Concluido needs manutentor or gestor; Aberto needs gestor; Cancelado is open to all |
| Chamados.PatchStatusAdminOnlyCancels | apps/api/src/routes/chamados.ts:872-896 | an admin or an operador may only cancel |
| Chamados.PatchManutentor | apps/api/src/routes/chamados.ts:899 | the assignee is the user with exactly that e-mail, or none |
| Chamados.PatchStatusRow | apps/api/src/routes/chamados.ts:898-924 | per target state: Em Andamento assigns, Aberto clears the assignment and `concluido_em`, Concluido records actor and time, Cancelado only sets the status; unnamed columns stay |
| Chamados.PlanPatchStatus | apps/api/src/routes/chamados.ts:869-936 | gate errors first, then 404 for a missing ticket, otherwise the patched row |
| Chamados.UnknownManutentorLeavesUnassigned | apps/api/src/routes/chamados.ts:899-912 | an unknown `manutentorEmail` gives an Em Andamento ticket with no assignee, not an error |
| Chamados.ReopenClearsAssignment | apps/api/src/routes/chamados.ts:903-917 | reopening clears manutentor, responsible and `concluido_em` but keeps `atendido_por_id` |
| Chamados.PatchStatus | apps/api/src/routes/chamados.ts:869-959 | the outcome is the plan; success writes exactly that row; an error writes nothing |
| ChecklistTemplate.ItemText | apps/api/src/routes/agendamentos.ts:30 | the item text is trimmed |
| ChecklistTemplate.ToChecklistItem | apps/api/src/routes/agendamentos.ts:28-36 | null iff the trimmed text is empty; otherwise the key is the slug of a truthy `key`, else the slug of the text |
| ChecklistTemplate.FilterMapFrom | apps/api/src/routes/agendamentos.ts:40 | every kept item comes from some input element |
| ChecklistTemplate.FilterMap | apps/api/src/routes/agendamentos.ts:40 | the mapped-and-filtered array is no longer than its input |
| ChecklistTemplate.NormalizeArray | apps/api/src/routes/agendamentos.ts:39-41 | the output is no longer than the input and every item is well formed |
| ChecklistTemplate.NormalizeArrayConcat | apps/api/src/routes/agendamentos.ts:39-41 | normalisation maps element by element, so it keeps order across concatenation |
| ChecklistTemplate.NormalizeArrayKeepsAll | apps/api/src/routes/agendamentos.ts:39-41 | when no element is blank, nothing is dropped and order is kept |
| ChecklistTemplate.NormalizeChecklist | apps/api/src/routes/agendamentos.ts:38-65 | an array is normalised directly; a string that parses to an array is normalised as that array; non-array, non-string input gives `[]` |
| ChecklistTemplate.NormalizeChecklistOfLines | apps/api/src/routes/agendamentos.ts:56-61 | any other string becomes one item per non-blank trimmed line, keyed by its slug |
| ChecklistTemplate.ItemOfLine | apps/api/src/routes/agendamentos.ts:28-61 | a trimmed non-empty line becomes the item of that text with its slug as key |
| ChecklistTemplate.ItemJsonRoundTrip | apps/api/src/routes/agendamentos.ts:28-36 | a stored template item normalises back to itself |
| ChecklistTemplate.StoredTemplateRoundTrip | apps/api/src/routes/agendamentos.ts:28-41 | a stored template normalises back to itself |
| Agendamentos.ListLimit | apps/api/src/routes/agendamentos.ts:97 | the list limit never exceeds 500 |
| Agendamentos.ListLimitOfDecimal | apps/api/src/routes/agendamentos.ts:97 | a decimal limit is read as itself, capped at 500 |
| Agendamentos.ListLimitDefaults | apps/api/src/routes/agendamentos.ts:97-105 | a missing or negative limit is 0, meaning no limit |
| Agendamentos.ListOrderOf | apps/api/src/routes/agendamentos.ts:98 | newest first iff `order` is "recent" |
| Agendamentos.NewSchedule | apps/api/src/routes/agendamentos.ts:127-142 | a new schedule is agendado, its actual window equals its planned window, and its template is the normalised checklist |
| Agendamentos.PlanCreateSchedule | apps/api/src/routes/agendamentos.ts:118-161 | a missing `maquinaId`, `descricao`, `start` or `end` gives 400; with all four and a `maquinaId` that the id cast reads as an existing machine the answer is exactly the new row, and otherwise a database error |
| Agendamentos.CreateSchedule | apps/api/src/routes/agendamentos.ts:118-161 | success inserts exactly the planned row under a fresh id; an error inserts nothing |
| Agendamentos.NewScheduleTemplateIsStable | apps/api/src/routes/agendamentos.ts:127-137 | the stored template normalises back to the same items when read at `iniciar` |
| Agendamentos.ChangesOf | apps/api/src/routes/agendamentos.ts:172-200 | truthy `start`/`end` are changes; a defined `status` is a change to its normalised schedule status |
| Agendamentos.Reschedule | apps/api/src/routes/agendamentos.ts:176-200 | only the supplied fields change; a status change sets `concluido_em` iff the new status is concluido |
| Agendamentos.PlanReschedule | apps/api/src/routes/agendamentos.ts:164-215 | 403 unless gestor, 400 when nothing is supplied, 404 "Agendamento nao encontrado." for a missing row, else the rescheduled row |
| Agendamentos.NullStatusReschedules | apps/api/src/routes/agendamentos.ts:186-199 | a `null` status counts as a change to agendado and clears `concluido_em` |
| Agendamentos.NullIsAgendado | apps/api/src/routes/agendamentos.ts:187 | the text "null" normalises to agendado |
| Agendamentos.RescheduleEntry | apps/api/src/routes/agendamentos.ts:164-226 | the outcome is the plan; success writes exactly that row; an error writes nothing |
| Agendamentos.StarterEmail | apps/api/src/routes/agendamentos.ts:267 | the creator e-mail is the body's, else the user's, trimmed and lower-cased, and empty when neither is given |
| Agendamentos.StartAssigneeEmail | apps/api/src/routes/agendamentos.ts:268-270 | a manutentor e-mail is given iff the body's is truthy, trimmed and lower-cased |
| Agendamentos.StartAssignee | apps/api/src/routes/agendamentos.ts:318-330 | no e-mail, no assignee; a given e-mail must resolve, else 400 |
| Agendamentos.StartTicket | apps/api/src/routes/agendamentos.ts:332-355 | the ticket is preventiva, Em Andamento iff assigned, carries the schedule's machine, the "Preventiva: …" text and the normalised template, and no `agendamento_id` |
| Agendamentos.PlanStart | apps/api/src/routes/agendamentos.ts:258-365 | 403 unless manutentor or gestor, 400 without a creator e-mail, 404 for a missing schedule, 409 unless agendado, 400 for an unknown creator, the assignee lookup's 400; success exactly when every guard passes, with the new ticket |
| Agendamentos.StartWithUsers | apps/api/src/routes/agendamentos.ts:307-330 | 400 for an unknown starter, then the assignee error; success exactly when both lookups succeed, giving the ticket built from the entry, its machine, the starter and the assignee |
| Agendamentos.MarkStarted | apps/api/src/routes/agendamentos.ts:359-362 | the schedule becomes iniciado and nothing else changes |
| Agendamentos.StartOnce | apps/api/src/routes/agendamentos.ts:302-362 | after one successful start, a second start of the same schedule gives 409 |
| Agendamentos.ApplyStart | apps/api/src/routes/agendamentos.ts:336-362 | inserts the ticket under a fresh id and marks the schedule started |
| Agendamentos.Start | apps/api/src/routes/agendamentos.ts:258-380 | the outcome is the plan; on success one new ticket and one started schedule; on error nothing changes |
| Checklists.Default | apps/api/src/routes/checklists.ts:13-20 | a destructuring default applies only to an undefined field |
| Checklists.TurnoParam | apps/api/src/routes/checklists.ts:45-68 | a null turno reaches the SQL as NULL, anything else as text |
| Checklists.PlanSubmit | apps/api/src/routes/checklists.ts:10-35 | 401 without an e-mail, 400 for a missing operator e-mail or `maquinaId` or a non-object `respostas`, 404 for an unknown operator, a database error for a `maquinaId` the id cast refuses, 404 for an unknown machine; success exactly when all pass, with the resolved submission and names |
| Checklists.NormalizeTurno | apps/api/src/routes/checklists.ts:45-56 | the shift is always 1º or 2º: named spellings first, then the hour for an empty value, then the digits alone, then the hour |
| Checklists.NormalizeTurnoIdempotent | apps/api/src/routes/checklists.ts:45-56 | a normalised shift normalises to itself at any hour |
| Checklists.NormalizeTurnoIgnoresCase | apps/api/src/routes/checklists.ts:46-53 | letter case does not change the shift |
| Checklists.NormalizeTurnoByDigit | apps/api/src/routes/checklists.ts:51-53 | a text whose only digit is 1 or 2 gives that shift |
| Checklists.Upsert | apps/api/src/routes/checklists.ts:60-66 | one submission per (operator, machine, day); a repeat overwrites answers, turno and names and keeps the rest |
| Checklists.UpsertTwice | apps/api/src/routes/checklists.ts:60-66 | two submissions on one day leave one row with the second's answers |
| Checklists.OpenKeysMeaning | apps/api/src/routes/checklists.ts:78-88 | a key is open iff some Aberto or Em Andamento preditiva ticket of the machine has exactly that key |
| Checklists.SpawnedTicket | apps/api/src/routes/checklists.ts:90-97 | the spawned ticket is an open preditiva ticket of the machine with the question, its key and the operator as creator |
| Checklists.OpenKeys | apps/api/src/routes/checklists.ts:76-86 | the keys of the open preditiva tickets of a machine; their meaning is stated by `OpenKeysMeaning` |
| Checklists.Spawned | apps/api/src/routes/checklists.ts:72-99 | the reference run of the loop: the questions answered nao whose key is not yet open, in entry order; stated by the Spawned lemmas of this table |
| Checklists.OpenKeysInsert | apps/api/src/routes/checklists.ts:92-97 | inserting a spawned ticket opens exactly its key |
| Checklists.SpawnedAnsweredNao | apps/api/src/routes/checklists.ts:74 | only questions answered exactly "nao" spawn |
| Checklists.SpawnedKeysFresh | apps/api/src/routes/checklists.ts:78-88 | no spawned key was already open |
| Checklists.SpawnedKeysDistinct | apps/api/src/routes/checklists.ts:73-101 | no two spawned tickets share a key, even for repeated slugs in one submission |
| Checklists.SpawnedCoverNao | apps/api/src/routes/checklists.ts:73-101 | every "nao" answer's key is open before or spawned by the submission |
| Checklists.OpenKeysAppended | apps/api/src/routes/checklists.ts:92-97 | after the inserts the open keys are the old ones plus the spawned keys |
| Checklists.SubmissionLeavesNaoOpen | apps/api/src/routes/checklists.ts:73-101 | after a submission every "nao" question has an open ticket for its slug |
| Checklists.VisitAnswer | apps/api/src/routes/checklists.ts:74-100 | one turn of the loop spawns iff the answer is "nao" and its key is not open, inserting exactly that ticket |
| Checklists.SpawnLoop | apps/api/src/routes/checklists.ts:72-101 | the loop's counter equals its inserts, and its progress matches the reference run |
| Checklists.SpawnTickets | apps/api/src/routes/checklists.ts:72-101 | the loop inserts exactly the reference run's tickets under consecutive ids and returns their number |
| Checklists.Submit | apps/api/src/routes/checklists.ts:8-108 | an error changes nothing; success upserts the submission, inserts the spawned tickets and answers their count |
| Db.NewTicket | apps/api/src/routes/chamados.ts:789-808 | a new row carries the given type, status, machine and assignee, with no claim, completion or schedule link |
| Db.FindUserCi | apps/api/src/routes/chamados.ts:750-756 | finds a user whose e-mail matches case-insensitively, or reports that none does |
| Db.FindUser | apps/api/src/routes/checklists.ts:27-28 | finds a user with exactly that e-mail, or reports that none does |
| Db.FindMachine | apps/api/src/routes/checklists.ts:33-34 | finds the machine with that id, or reports that none has it |
| Db.FindMachineByTagOrName | apps/api/src/routes/chamados.ts:773-779 | a found machine has the given tag or the given name; with neither, nothing is found |
| Db.Database.InsertChamado | apps/api/src/routes/chamados.ts:789-808 | a ticket insert takes a fresh key and adds exactly that row |
| Db.Database.InsertAgendamento | apps/api/src/routes/agendamentos.ts:129-142 | a schedule insert takes a fresh key and adds exactly that row |
| Js.Entries | apps/api/src/routes/checklists.ts:73 | `Object.entries` lists an object's own properties in order, and an array's elements under their index keys |
| Text.TrimIgnoresSurroundingWhitespace | apps/api/src/utils/slug.ts:12-14 | `trim` removes exactly the surrounding whitespace |
| Text.TrimIdempotent | apps/api/src/routes/agendamentos.ts:30 | trimming twice is trimming once |
| Text.TrimLower | apps/api/src/auth/roles.ts:23 | trimming and lower-casing commute |
| Text.JoinSplit | apps/api/src/routes/agendamentos.ts:56-57 | splitting on a newline loses nothing: joining the pieces gives the text back |
| Text.TrimDropsCarriageReturn | apps/api/src/routes/agendamentos.ts:57-58 | a trailing carriage return disappears once a line is trimmed, so splitting on `\n` then trimming matches splitting on `\r?\n` |
| Text.ParseIntOfDecimal | apps/api/src/routes/chamados.ts:30-31 | `parseInt` reads a decimal numeral as its value |
| Text.Lower | apps/api/src/auth/roles.ts:23 | the result has the input's length and each character lower-cased |
| Text.Nfd | apps/api/src/utils/status.ts:22 | the decomposition `normalize("NFD")` applies, character by character; used through `NormalizeBase` and `ToSlug` |
| Text.ParseInt | apps/api/src/routes/chamados.ts:30-31 | the `parseInt` of the page parameters; its reading of a decimal numeral is stated by `ParseIntOfDecimal` |
| Text.DigitsOnlyConcat | apps/api/src/routes/checklists.ts:52-53 | removing non-digits works piece by piece |

## Left out

- The chatbot route, the web UI, the data-migration scripts, and the plain CRUD routes for machines, users, parts, causes, auth and analytics are outside the ticket lifecycle.
- The list route's SQL filters (status, tipo, machine, e-mails, from/to), its joins and its `to_char` formatting are not modelled. Only the paging arithmetic and the choice of date column are.
- The ticket detail view, the observation routes and `DELETE /agendamentos/:id` are not modelled. `Schemas.ParseObservacao` covers only the observation schema.
- The daily-checklist `GET /checklists/daily/submissoes` route is not modelled; it is a read-only query.
- Server-sent events after commits are notification transport and are not modelled.
- Concurrency is not modelled: `withTx`, `FOR UPDATE` and the connection pool become one atomic method per handler, run one at a time.
- Response bodies beyond the result or error are not modelled, such as the re-selected rows after an insert or update. Nor are other 500 answers from database failures, except the ones the model names (`Http.DatabaseError`, `FALHA_ATUALIZAR_CHAMADO`).
- The user-from-header middleware is not modelled. The caller is given as an optional `Http.RequestUser`.
- Text.Lower: lower-cases only ASCII and Latin-1 capitals; JavaScript's full Unicode case mapping is not modelled.
- Text.Nfd: decomposes only the Latin-1 accented letters. Full Unicode canonical decomposition (Unicode Standard Annex #15) and the full `\p{Diacritic}` class are not modelled, and strings are sequences of code points rather than UTF-16 code units.
- Text.ParseInt: reads leading whitespace, an optional sign and the leading decimal digits; the `0x` prefix and the Infinity and exponent forms are not modelled, and the value is exact, whereas JavaScript's `parseInt` returns a double that rounds a numeral above 2^53.
- Row ids are modelled as positive naturals (`Http.Id`), although machine and user ids are UUIDs in the database; the type of the other tables' keys is not fixed by the code. A request value bound to an id column is read by the parameter `Db.IdCast`, PostgreSQL's cast to the column type. One cast serves every id column.
- Which key the database generates for a new row (for example `gen_random_uuid()`) is modelled as a per-table counter. The model promises only that the key is fresh.
- Route ids reach the handlers already cast, as `Http.Id`. A route id the cast refuses (a 500 in the source) therefore cannot be expressed; a readable id that names no row is an id outside the table and gets the source's 404.
- Checklists.Upsert: assumes the unique constraint on (operator, machine, day) that the route's `ON CONFLICT` names. A migration script replaces it with an index that also includes `turno`; against that schema the `ON CONFLICT` target matches no constraint and every submission fails with a 500.
- Agendamentos.PlanCreateSchedule: assumes a foreign key from `maquina_id` to `maquinas`, so an unknown machine makes the insert fail with a database error; no such constraint is visible in the code.
- Js.Value: an object's keys are assumed distinct, as `JSON.parse` makes them (it keeps the last of duplicated keys); nothing in the model checks this, so `Js.Lookup`, which takes the first, and `Js.Entries`, which would list a duplicate twice, are only meant for such objects.
- Chamados.PatchManutentor: a non-string `manutentorEmail` reaches SQL as `String(v)`; node-postgres instead sends an object as JSON text and an array as a PostgreSQL array literal.
- Checklists.TurnoParam: a non-string, non-null `turno` reaches SQL as `String(v)`; node-postgres instead sends an object as JSON text and an array as a PostgreSQL array literal.
- Checklists.SubmitOperatorEmail, Checklists.OperatorName and Checklists.MachineName: a non-string `operadorEmail`, `operadorNome` or `maquinaNome` reaches SQL as `String(v)`; node-postgres instead sends an object as JSON text and an array as a PostgreSQL array literal.
- Db.FindUserCi: `LIMIT 1` without `ORDER BY` is modelled as the first match in table order, one choice among those PostgreSQL may make.
- Schemas.OptionalEmail: zod's e-mail test is the parameter `isEmail`.
- ChecklistTemplate.NormalizeChecklist: `JSON.parse` is the parameter `parse`, so malformed JSON is whatever `parse` rejects.
- Checklists.SpawnTickets: the slug function is the parameter `keyOf`; `Checklists.Submit` passes `Slug.Slugify`.
- Checklists.Submit: the calendar day in America/Sao_Paulo and the before-14:00 flag are the parameters `today` and `beforeTwoPm`, not derived from a clock.
