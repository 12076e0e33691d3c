# FlowHand: a model of the idempotent submit path

FlowHand accepts tasks over HTTP (`POST /v1/tasks`), stores each one together with a
`Submitted` event, and promises that repeating an idempotency key gives back the task stored
the first time. This project models that path and proves what holds of it: from the router and
the request decoder, through the submit transaction and the unique index it relies on, to the
response the client decodes and the reference producer that watches for missing replays.

## The parts

* `TaskTable`, `Domain`, `GoErrors` — the table with its two unique indexes and column
  defaults, the aggregate and its event, and Go errors as trees of wrapping and joining.
* `SubmitProtocol` — `Commander.Submit` by any number of concurrent callers, one atomic step at
  a time: mint, INSERT, append, commit, return, replay read. An action carries everything that
  is not determined: clocks, minted ids, driver faults with or without effect, lost commit
  acknowledgements, crashes between any two steps. The transaction runner is a parameter:
  `Atomic` is the contract of the port, `PassThrough` the manager that ships, under which each
  statement commits by itself.
* `SubmitSafety`, `SubmitRuns`, `Provenance`, `SubmitProgress`, `Linearization` — what every step
  keeps, and what follows for every run under both runners: agreement on keys, insert-only rows,
  rows, events and answers that say what a command says, read after write, replay reads that do
  not miss, answers within reach of every state, and linearizability to an atomic get-or-create.
* `RunnerAccounting`, `RunnerRefinement` — rows against events under each runner, and the
  simulation of the pass-through runner by the atomic one.
* `CallRuns`, `FirstCalls`, `TaskService` — the same code as it is written: the statements,
  repository, outbox, both transaction managers, `Commander` and `Querier` as classes over a
  database that they change in place. One call of `Submit` is proved to go on with any run of
  the protocol that leaves no transaction open, so what is proved of runs is true of it; what it
  stores, tells and answers is stated field by field.
* `Producer`, `ProducerCheck`, `Decimal` — the demo producer's loop against any server at all,
  and against the protocol over a transport that may lose requests and replies.
* `JsonTokens`, `JsonGrammar`, `TokenReader`, `MediaTypes`, `Bytes`, `RequiredFields`,
  `RequestCodec`, `RequestEncoding`, `RequestBodies`, `ResponseCodec`, `Responses` — JSON values
  as trees and as token lists, and the generated codecs: streaming decoders with their bit sets of
  seen fields, encoders into a buffer, validators, and the client's inverse of the server's
  responses.
* `Router`, `Handler`, `EndToEnd` — the two unrolled path searches, the handlers that join codec,
  service and error classes, and a caller who posts twice and then reads.

## What the model assumes of its surroundings

* One SQL statement is atomic. A unique check waits while another open transaction holds a
  clashing row, and answers SQLSTATE 23505 exactly when a committed row clashes. A driver fault
  is never 23505; it carries none of the domain's or the HTTP layer's errors. A driver fault
  of the replay read is never "no rows".
* Minted ids are arbitrary. Where a property needs them fresh (UUIDs of version 7, section 5.7
  of RFC 9562) it says so by `FreshIds`.
* The outbox records what is appended. The outbox that ships throws its events away.
* JSON text is a sequence of tokens (sections 3 and 4 of RFC 8259), with commas and colons
  implied by the positions of names and values. A char stands for one rune.
* The text forms of ids and instants are the parameter `Formats`; a round trip is claimed for
  exactly the values those helpers read back.
* Header text is ASCII and the parameters of a Content-Type header are well formed. Its media
  type is read in lower case, trimmed, up to the first `;`.

A comment in the code promises more than the code does, and the model follows the code:
`internal/repository/tasks/postgres.go:32-33` says that a conflict comes from the idempotency
key. The constraint name is not looked at, so a primary-key collision of a keyed submit takes the
replay path too (`ReusedIdMakesReplayMiss`). Besides, the error handler answers a malformed id
on `GET` with a 400 (`internal/api/errors.go:30-37`), which `api/openapi.yaml:42-57` does not
declare for that operation and for which its client has no case (`EnvelopeParsed`).

A fresh answer carries the application's clock and a replayed one the database's, because the
INSERT does not send `created_at`. What agrees across replays is therefore the id and
everything else but the creation time.

## Model

| member | source | states |
|---|---|---|
| GoErrors.IsMeansLeaf | internal/repository/tasks/postgres.go:67-72 | The search for a sentinel succeeds exactly when it is a leaf of the error tree, under any depth of wrapping and joining. |
| GoErrors.UniqueViolationIsFirstLeaf | internal/repository/tasks/postgres.go:74-77 | A unique violation is recognised exactly when the first Postgres error among the leaves, left to right, has SQLSTATE 23505; a second one behind it never counts. |
| GoErrors.IsMeansNode | internal/api/handler.go:87 | The search for any error succeeds exactly when that error is a node of the tree. |
| GoErrors.DecodeErrorsAreNodes | internal/api/errors.go:26-37 | Each search for a class of decoding errors succeeds exactly when a node of the tree is of that class. |
| GoErrors.DriverErrorsCarryNoDomain | internal/repository/tasks/postgres.go:65-72 | No tree of driver errors is taken for a domain sentinel or a request-decoding error by any of the searches. |
| TaskTable.InsertKeepsTable | migrations/00001_initial_tasks.sql:4-14 | An insert that collides with neither index keeps keys unique and all rows pending, and leaves every old row as it was. |
| TaskTable.FindByKeyIs | internal/storage/queries/tasks.sql.go:66-84 | The lookup by a key returns the one row that has it, whichever row the scan happens on. |
| SubmitSafety.NextOk | internal/service/task/commander.go:54-101 | Whatever an action does, under either runner, the acting call's phase still matches the table; a row it stores is its own, collides with nothing, and under the atomic runner was held by its open transaction. |
| SubmitSafety.StepKeepsInv | internal/service/task/commander.go:54-101 | Every action under either runner keeps the invariant: unique keys, pending rows, each call's phase justified by the table, and no two open transactions holding rows that clash. |
| SubmitRuns.HistoryIsStable | internal/storage/queries/tasks.sql.go:14-44 | Over any continuation of any run the table only grows, rows never change, the event log only grows at its end, and an answer once given stays. |
| SubmitRuns.AgreementOnKeys | internal/service/task/commander.go:79-97 | Two successful answers under one non-empty key carry the same id whatever conflicts, retries and crashes lie between them; equal ids only ever come from equal keys. |
| SubmitRuns.OneRowPerKey | migrations/00001_initial_tasks.sql:12-14 | In every reachable state no key has two rows, every row is filed under its own id, and every row is pending. |
| Provenance.RowsComeFromCalls | internal/domain/tasks/task.go:40-48 | Every stored row in every run has the handler, payload and key (NULL for none) of some call's command, an id that call minted, status pending and the database clock of that call's INSERT. |
| Provenance.EventsComeFromCalls | internal/domain/tasks/events.go:22-29 | Every recorded event tells of an id and a time that some call minted, with that call's handler. |
| Provenance.AnswersComeFromCommands | internal/service/task/commander.go:62-97 | An answered task is the one the call made of its own command at its own time, or a stored row field by field; with fresh ids, an answered id that the call minted stands for its own handler and payload. |
| SubmitRuns.ReadAfterWrite | internal/service/task/querier.go:30-42 | From a successful submit on, a lookup of the answered id finds a pending row with the answered handler and payload, stored under the caller's key. |
| SubmitRuns.ReplayAnswer | internal/service/task/commander.go:92-97 | A replay read is always possible, and answers with a stored row of the caller's own key exactly when there is one, else with an error. |
| SubmitRuns.ReplayAnswersTheRow | internal/service/task/commander.go:92-97 | A replayed answer equals the stored row, creation time included, in every later state. |
| SubmitRuns.FaultsSurvive | internal/service/task/commander.go:54-101 | No fault is swallowed or renamed: the error a step ends in has the leaves of the fault it met; a collision is a conflict and a read without a row a not-found. |
| SubmitRuns.StepKeepsCauses | internal/repository/tasks/postgres.go:34-43 | Each step keeps the cause of every conflict a call still carries in the table: a row with its key, or, unless ids are fresh, a row with its id; the only exception is a call whose own outbox or commit failed with an error that wraps the conflict sentinel. |
| SubmitRuns.StepKeepsIds | internal/service/task/commander.go:54-58 | While ids are fresh, every id in use was minted, no two calls hold one id, and a minted id is not stored before its own insert. |
| SubmitRuns.ReplayReadFinds | internal/service/task/commander.go:82-97 | In every run a replay read succeeds exactly when the key has a row, and answers with that row. It misses only when the minted id is the primary key of a row under another key, which fresh ids rule out, or the call's own outbox or commit failed with an error wrapping the conflict sentinel; the caller then gets an error with a not-found inside, never a task. |
| SubmitRuns.ReusedIdMakesReplayMiss | internal/repository/tasks/postgres.go:74-77 | After any run, minting an id that is in use under a key that is not leads to a replay read that misses, since the constraint name is not looked at. |
| SubmitRuns.ConflictFromAppendMakesReplayMiss | internal/service/task/commander.go:73-92 | The second way to miss happens: after any run, an Append that fails with an error wrapping the conflict sentinel is taken for an idempotency conflict, and the read finds nothing. |
| SubmitProgress.NeverStuck | internal/service/task/commander.go:54-101 | While a call is active, a step without fault is possible for it, or for an open transaction its unique check waits on: no deadlock. |
| SubmitProgress.EveryStepMakesProgress | internal/service/task/commander.go:54-101 | Every step of a call, faults included, lowers a bound of seven steps to its end. |
| SubmitProgress.CanFinish | internal/service/task/commander.go:54-101 | From every reachable state every call that has not crashed has a continuation without fault, of at most seven steps with all waiting included, that ends with it answered; the answer is a task when its id is unused or the row of its key is stored. |
| Linearization.StepKeepsLin | internal/service/task/commander.go:54-101 | Each step extends a legal sequential history, whose registry is the table, by the effect of that step. |
| Linearization.Linearizable | internal/service/task/commander.go:54-101 | The effects of any run are a legal history of an atomic get-or-create from keys to ids whose final registry is the table; each call takes effect at most once, with its own key, and every task answered is the result of its call's effect. |
| Linearization.EffectsGrow | internal/service/task/commander.go:54-101 | Continuing a run only appends to the sequential history; what is already in it is never reordered. |
| Linearization.SilentAfterEnd | internal/service/task/commander.go:54-101 | A call that was answered, with a task or an error, or crashed takes no effect afterwards. |
| Linearization.RealTimeOrder | internal/service/task/commander.go:54-101 | The sequential order respects real time: a call that ended before another was made comes before it, if it took effect. |
| RunnerAccounting.AtomicStepTogether | internal/service/task/commander.go:73-78 | Under the port's contract a step stores a row and its event together, or neither. |
| RunnerAccounting.AtomicBijection | internal/service/task/ports.go:28-31 | In every reachable state, crashes and rollbacks included, committed rows and events correspond one to one, with equal task id and handler. |
| RunnerAccounting.PassThroughAccounting | internal/storage/txmgr/manager.go:11-35 | Under the shipped runner events are at most one per row and never without one, and the rows without an event are exactly those whose submitter is between Insert and Append or stopped or failed there. |
| RunnerAccounting.LostEventsShow | internal/storage/txmgr/manager.go:15-17 | A pass-through run that tells of the same rows and events as some atomic run has lost no event and owes none. |
| RunnerRefinement.PassThroughRefinesAtomic | internal/storage/txmgr/manager.go:32-35 | If no Append fails, no INSERT answer is lost and nothing crashes in between, the pass-through run is simulated by an atomic run: same table, same answer to every call, same tasks told but for events still due. |
| RunnerRefinement.CleanRunsLoseNothing | internal/storage/txmgr/manager.go:15-35 | Such a run leaves no row without its event once none is due, so rows and events correspond one to one under the shipped runner too. |
| CallRuns.JoinsRun | internal/service/task/commander.go:54-101 | Joined to any run that leaves no transaction open, the steps of a call are all possible and end in the table, events and answer that they end in by themselves; the other calls stay as they were. |
| CallRuns.RepeatChangesNothing | internal/service/task/commander.go:82-97 | Whatever steps and faults it meets, a call whose key is stored changes neither table nor events, and a task it is answered with is that row. |
| FirstCalls.FirstCallAnswers | internal/service/task/commander.go:54-101 | Whatever steps and faults it meets, a call with a new key leaves the table as it was or with one row more, of its command's handler, payload and key, its id and the database clock; the events likewise; a task answered carries its command and its row is there; and without faults and with an unused id the answer is that task and the event is told. |
| TaskService.Database.CreateTask | internal/storage/queries/tasks.sql.go:27-44 | Exactly the non-colliding insert without a fault answers with the row, filled in from the defaults; a collision changes nothing; a fault may have taken effect. |
| TaskService.Database.GetTaskByIdempotencyKey | internal/storage/queries/tasks.sql.go:72-84 | The scan returns the key's row exactly when there is one; a NULL argument matches nothing. |
| TaskService.Repo.Insert | internal/repository/tasks/postgres.go:34-43 | Conflict exactly on a collision without another fault, and the row, status and creation time from the defaults, is stored exactly when there is none. |
| TaskService.Repo.Get | internal/repository/tasks/postgres.go:46-53 | The stored task, not-found when no row has the id, any other fault passed on. |
| TaskService.Repo.GetByIdempotencyKey | internal/repository/tasks/postgres.go:56-63 | The task stored under the key, not-found when there is none, any other fault passed on. |
| TaskService.Outbox.Append | internal/service/task/ports.go:24-26 | All the events of the call at the end of the log, or none when a fault kept them away. |
| TaskService.TxManager.End | internal/storage/txmgr/manager.go:32-35 | The pass-through keeps everything and hands the error on; the atomic runner keeps all of it on success and restores all of it on failure. |
| TaskService.Commander.WithinTx | internal/service/task/commander.go:73-78 | What the closure leaves in the database, and the error it returns, are those of protocol steps that insert, append and commit in that order, with the faults given. |
| TaskService.Commander.Conclude | internal/service/task/commander.go:79-100 | From the transaction's result to the answer: the fresh task, the replayed one, or an error, as the protocol's last steps have it. |
| TaskService.Commander.Submit | internal/service/task/commander.go:54-101 | After any run behind which no transaction is open, one call goes on with that run, so every statement about runs holds of it. With a new key it leaves nothing or exactly its own row and event, field by field from its command, id and clocks; a task it answers is that row's; without faults and with an unused id it does succeed. With a stored key it changes nothing, and a task it answers is the stored row. |
| TaskService.Commander.SubmitAlone | internal/service/task/commander.go:54-101 | The statements of one call leave the table, the events and the answer of protocol steps taken from the state before it. |
| TaskService.Querier.Get | internal/service/task/querier.go:30-42 | The view of the stored row, not-found when there is none, any other fault passed on. |
| Decimal.ItoaInjective | cmd/flowhand-demo/main.go:92 | Different numbers have different decimal renderings. |
| Decimal.ItoaReads | cmd/flowhand-demo/main.go:92 | A number's rendering is digits only, without a leading zero, and reads back as the number. |
| Producer.KeyForInjective | cmd/flowhand-demo/main.go:92 | Different pairs of one run have different keys. |
| Producer.KeyForReads | cmd/flowhand-demo/main.go:92 | A key is the run's id, a dash and digits that read back as the pair's number. |
| Producer.Run | cmd/flowhand-demo/main.go:81-135 | Against any server at all: replayed counts exactly the pairs answered twice with one non-empty id, a missing replay is reported exactly for the pairs answered with two, no comparison crosses pairs, and the three counters add up to the submits. |
| ProducerCheck.DeliveredStays | cmd/flowhand-demo/main.go:96 | The answers a producer received remain those of the server's state in every continuation. |
| ProducerCheck.NoReplayMissed | cmd/flowhand-demo/main.go:113-133 | Against the submit protocol, with any other callers and any losses, the missing-replay branch is never reached. |
| ProducerCheck.ProducerSeesReplays | cmd/flowhand-demo/main.go:86-135 | No missing replay, and the answers that are not matched repeats are at most the rows under this run's keys, which are at most half the submits, rounded up. |
| ProducerCheck.RunAgainstServer | cmd/flowhand-demo/main.go:86-135 | End to end, of the loop's own counters: against the submit protocol with any losses and any other callers nothing is reported missing, created is at most the rows under this run's keys, these are at most half the submits, rounded up, and the counters add up. |
| RequiredFields.OneReported | internal/api/oas/oas_json_gen.go:182-198 | The lowest set bit is the next field to report; clearing it lowers the count of set bits by one and leaves the later fields. |
| RequiredFields.MissingInByte | internal/api/oas/oas_json_gen.go:182-198 | The inner loop reports exactly the missing fields of its byte, in order; it never takes the trailing zeros of zero. |
| RequiredFields.ReportMissing | internal/api/oas/oas_json_gen.go:172-203 | The failures are the names of the missing fields of all bytes, for every bit set and mask. |
| RequiredFields.MissingMeans | internal/api/oas/oas_json_gen.go:172-203 | The fields listed are exactly those required and not seen, in ascending order, each once. |
| RequiredFields.AlwaysNamed | internal/api/oas/oas_json_gen.go:185-191 | When the mask stays within the name table, no failure is reported by number. |
| JsonTokens.SliceIsValue | internal/api/oas/oas_json_gen.go:240-264 | Skipping one value spans exactly the slices that are one well-formed value, wherever they stand. |
| JsonGrammar.WellFormedIsJson | internal/api/oas/oas_json_gen.go:246-252 | Exactly the texts of JSON values, by a grammar of strings, atoms, arrays and objects, are skipped as one value. |
| JsonGrammar.SkipsJson | internal/api/oas/oas_json_gen.go:246-252 | A value is skipped from one position to another exactly when the text of a JSON value stands between them. |
| JsonGrammar.ParsesJsonObject | internal/api/oas/oas_json_gen.go:240-264 | An object is parsed up to a position exactly when the text of a JSON object stands there. |
| JsonTokens.ObjectRoundTrip | internal/api/oas/oas_json_gen.go:92-116 | Parsing the text of a list of well-formed members gives the list back and ends at its end. |
| JsonTokens.TextOfParse | internal/api/oas/oas_json_gen.go:125-171 | The converse: what parses as an object to its last token is the text of its members, and each of their values is one well-formed value. |
| JsonTokens.LastMeans | internal/api/oas/oas_json_gen.go:131-171 | The value taken for a name is that of the member behind which no other has it, and there is none exactly when no member has it. |
| RequestCodec.DecodePayload | internal/api/oas/oas_json_gen.go:240-264 | It succeeds exactly where the text of a JSON object stands, reads that text, and yields the last value of each name. |
| RequestCodec.DecodeMember | internal/api/oas/oas_json_gen.go:131-168 | One turn of the loop consumes exactly one value, fails exactly when the value is malformed or of the wrong type for its name, and replaces what an earlier duplicate set. |
| RequestCodec.DecodeRequest | internal/api/oas/oas_json_gen.go:125-206 | The streaming decoder agrees with the meaning of the member list: last occurrences count, unknown members do not, any ill-typed occurrence or an absent handler fails. |
| RequestEncoding.EncodePayload | internal/api/oas/oas_json_gen.go:229-237 | In whatever order the map is visited, each member is written once, empty raw values as a name alone. |
| RequestEncoding.EncodeRequest | internal/api/oas/oas_json_gen.go:92-116 | What is written is the object of the members set, for some visiting order of the payload. |
| RequestEncoding.RequestRoundTrip | internal/api/oas/oas_json_gen.go:92-206 | For every visiting order, decoding the encoding gives the request back to the last token if and only if unset options are zero, a set payload map is not nil and each of its members is one well-formed value. |
| RequestEncoding.DecodeNormalForm | internal/api/oas/oas_json_gen.go:131-171 | A well-typed object decodes as the object that keeps only the last occurrence of each known member; payloads replace, they do not merge. |
| RequestEncoding.NormalFormOnTheWire | internal/api/oas/oas_json_gen.go:131-171 | The same on the wire: wherever such an object stands, writing its normal form and decoding that gives the same request. |
| MediaTypes.MediaTypeOf | internal/api/oas/oas_request_decoders_gen.go:37-42 | Letter case, blanks around the type and parameters behind it do not change a media type; a header blank up to its parameters has none. |
| MediaTypes.FoldingIsByLetter | internal/api/oas/oas_request_decoders_gen.go:37-42 | Each capital becomes its small letter, every other character stays. |
| RequestBodies.Validate | internal/api/oas/oas_validators_gen.go:26-89 | The failing fields by name: a handler, or a key that is set, outside 1 to 128 runes. |
| RequestBodies.DecodeBody | internal/api/oas/oas_request_decoders_gen.go:17-94 | The body is accepted if and only if the media type is JSON and the body matches the schema; every other request gets the error owed to its header and text, as RequestBodies.BodyAnswered has it. |
| RequestBodies.AcceptsExactlySchema | internal/api/oas/oas_validators_gen.go:26-89 | A body is accepted if and only if it is the text of some object of JSON values that fits the schema, and it is read as what its last members say. |
| RequestBodies.BodyAnswered | internal/api/oas/oas_request_decoders_gen.go:37-92 | From header and text alone, which answer every request gets: wrong media type, empty body, no object or a member of the wrong type, handler not sent, text behind the object, or exactly the failing names in order; what is accepted says what the last members say, payload included. |
| RequestBodies.AcceptedStaysAccepted | internal/api/oas/oas_json_gen.go:92-206 | An accepted request, encoded again in any order, is accepted as the same request. |
| ResponseCodec.ReportIsAbsent | internal/api/oas/oas_json_gen.go:658-690 | When the mask asks for all named fields, what the bit loop reports is exactly the names that no member had. |
| ResponseCodec.DecodeTask | internal/api/oas/oas_json_gen.go:609-692 | The task decoder agrees with the meaning of the member list, missing fields in order included. |
| ResponseCodec.DecodeErrorBody | internal/api/oas/oas_json_gen.go:304-375 | The error decoder agrees with the meaning of the member list, missing fields in order included. |
| Responses.EncodeTask | internal/api/oas/oas_json_gen.go:587-600 | Appends the object of id, status and creation time. |
| Responses.EncodeError | internal/api/oas/oas_json_gen.go:287-296 | Appends the object of code and message. |
| Responses.EncodeCreate | internal/api/oas/oas_response_encoders_gen.go:14-56 | Each variant gets its own status, the JSON content type and its body. |
| Responses.EncodeGet | internal/api/oas/oas_response_encoders_gen.go:58-100 | Each variant gets its own status, the JSON content type and its body. |
| Responses.StatusesAsDeclared | internal/api/oas/oas_response_encoders_gen.go:14-100 | Which status, content type and members each variant has on the wire, in the literals the API declares. |
| Responses.DecodeCreate | internal/api/oas/oas_response_decoders_gen.go:16-152 | Each declared status has its variant, every other is an error, and for every body the result is the one owed to its header and text, as Responses.TaskBodyAnswered and Responses.ErrorBodyAnswered have it. |
| Responses.DecodeGet | internal/api/oas/oas_response_decoders_gen.go:154-290 | The same for the other operation, whose statuses are 200, 404 and 500. |
| Responses.TaskBodyAnswered | internal/api/oas/oas_response_decoders_gen.go:18-61 | From the response alone, what reading a task gives: wrong media type, no object or a member of the wrong type, the names not sent in order, text behind the object, a status outside the enum, or the task its last members say. |
| Responses.ErrorBodyAnswered | internal/api/oas/oas_response_decoders_gen.go:62-105 | The same for an error body and its code. |
| Responses.CreateRoundTrip | internal/api/oas/oas_response_encoders_gen.go:14-56 | The client gets back the variant and the value the server encoded if and only if the response validates and, for a task, the text forms of its id and instant read back; error aliases included. |
| Responses.GetRoundTrip | internal/api/oas/oas_response_encoders_gen.go:58-100 | The same for the other operation. |
| Responses.EnvelopeParsed | internal/api/errors.go:18-45 | A createTask client parses every envelope; a getTask client exactly those that are not a 400. |
| Responses.EnvelopeByClass | internal/api/errors.go:18-45 | A decoding error of the body anywhere in the tree is told as 400 invalid_request_body with its text, else one of a parameter as 400 invalid_parameter, and every other error as 500 internal_error without any of its text. |
| Responses.CodesAreSent | internal/api/oas/oas_validators_gen.go:114-127 | The codes the client accepts are exactly those that are sent. |
| Router.CutPrefix | internal/api/oas/oas_router_gen.go:19-30 | It succeeds exactly on paths under the prefix and returns what follows it. |
| Router.ServeHTTP | internal/api/oas/oas_router_gen.go:34-123 | Exactly the paths of the grammar are dispatched, with the slash-free segment as argument; other methods on them are refused with the right Allow; everything else is not found. |
| Router.FindPath | internal/api/oas/oas_router_gen.go:176-269 | It succeeds exactly for POST on the collection, found as createTask under its pattern without an argument, and GET on one task, found as getTask under its pattern with the segment as its one argument. |
| Router.RoutesUnique | internal/api/oas/oas_router_gen.go:34-123 | The grammar gives a method and a path at most one operation and argument. |
| Router.BothSearches | internal/api/oas/oas_router_gen.go:34-269 | For every prefix, method and path one search succeeds exactly when the other dispatches; what is dispatched as createTask or getTask is found under that operation's id, pattern and argument. |
| Handler.StatusesMapOneToOne | internal/api/mapper.go:11-26 | The five domain statuses are mapped one to one onto the five that the wire accepts, in the literals of both, and nothing else is mapped or accepted. |
| Handler.KeyReachesInsert | internal/api/handler.go:59 | For every accepted body the key that reaches Insert is NULL exactly when the member was absent, and otherwise the last occurrence sent; its payload always marshals, to the members sent. |
| Handler.EmptyKeyIsLost | internal/api/handler.go:59 | For a request that skipped validation the translation is lossless if and only if the key is not set to the empty string. |
| Handler.Handler.CreateTask | internal/api/handler.go:46-78 | After any run behind which no transaction is open: the command carries handler, payload and key of the request and its call goes on with the run. A task answered under a new key has a row with the request's handler, payload and key; a stored key changes nothing and answers with its row; every failure comes back as an error with its cause inside; a payload that is not JSON changes nothing. |
| Handler.Handler.GetTask | internal/api/handler.go:81-108 | The body of the stored row, a 404 when the read found none, and every other fault an error. |
| Handler.GetErrorsKeepTheirClass | internal/api/handler.go:85-100 | Not-found exactly when the read found no row, at any depth of wrapping; every other driver fault is kept leaf by leaf, and rendered as one and the same envelope. |
| Handler.GetAnswersAreDeclared | internal/api/handler.go:81-108 | A task answered has the id asked for, status pending and the row's creation time, the not-found answer has the declared code, and the client reads every such answer back. |
| Handler.PostThenGet | internal/service/task/querier.go:30-42 | After a successful POST every GET of its id, in any continuation, finds it with the same id and status pending. |
| Handler.ReplayedPostEqualsGet | internal/service/task/querier.go:30-42 | After a replayed POST the two bodies are equal, creation time included. |
| EndToEnd.PostTwiceThenGet | internal/api/handler.go:44-108 | After any run, whatever fails in either call: once a keyed POST is answered with a task, posting it again leaves table and outbox as they were, an answer it gets is the very body that GET of the first id gets, and that GET finds it pending. |

## Left out

- TaskService.Commander.Submit: models a call while no other transaction is open; calls interleave in SubmitProtocol, step by step, not in this method, and its unique checks therefore never wait.
- RequestBodies.DecodeBody: a Content-Type header whose parameters are malformed, which the header parser refuses, is not told from one whose parameters are well formed, and header text is ASCII.
- ProducerCheck.RunAgainstServer: judges the answers by the ids the calls were answered with, not by their bytes on the wire; Responses.CreateRoundTrip covers these.
- Producer.Run: takes the replies as a sequence of any length, since the loop it models ends only when it is interrupted; an answer of 201 with an empty id is compared with nothing, as in the loop.
- Responses.CreateRoundTrip: speaks of tokens; whether text forms of ids and instants read back is a premise on each value.
- The pass-through runner's event log is that of the port; the outbox that ships discards events, so nothing is claimed of events delivered.
- Texts of errors: wrapped errors carry the step that failed but not the id that the format strings add, and what err.Error() renders is the parameter `render`.
- Payload members that are not one JSON value each but read as one document when written next to each other: marshalling them is modelled as a failure.
- JSONB normalisation of stored payloads: payloads are maps from names to tokens, and byte equality is not claimed.
- Equality of the creation time between a fresh answer and its replay: the code does not provide it.
- Time for which a lost connection keeps its locks: a crash ends the open transaction at once.
- Byte-level JSON: lexing, UTF-8, number syntax, the depth limit, and the UUID and date-time text forms.
- Raw paths and percent-unescaping in the router, the CORS headers and body of its not-allowed answers, and the conversion of the path argument to a UUID.
- Closing of request bodies, the closers of the request decoder, which stay empty, and writes that fail after the header is sent.
- Telemetry, configuration, server and command-line wiring, the connection pool, and the gRPC scaffold: side effects and libraries with nothing to prove here.
- Packages for schedules and workflows: no code exists.
