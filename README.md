# Service-hours verification workflow, modelled in Dafny

The system is a university admin dashboard for student community-service
hours. Students log service hours against programs. Each program belongs to
a term. A partner organisation's verification request for a log is
confirmed, rejected or flagged by an administrator. The dashboard shows
per-term KPIs and per-student progress.

The same workflow exists twice, and both copies are modelled:

- **The frontend's static demo store** (`frontend/src/api/client.js`). It
  is an in-memory, term-keyed copy of the seed data. The recompute engine
  derives each student's verified hours, progress percentage and risk tier
  from the term's logs, and it rebuilds the term's KPI record. Confirm,
  reject and flag find a request across the term queues and splice it out
  of its queue. They then set the linked log's status and recompute the
  term. Settings updates merge a payload into the settings.
- **The backend's `DataStore` and its endpoints** (`backend/server.py`).
  The store holds insertion-ordered dictionaries of terms, programs,
  students, logs and verification requests, plus an append-only audit list.
  This part covers:
  - the queries, which filter by "program belongs to term" and by status;
  - the KPI endpoint, which sums confirmed hours and counts distinct students;
  - confirm, reject and flag, which check that the request and its log
    exist, rewrite the two records and append one audit event;
  - the audit window, the settings update and the two exports.

Layout:

| file | module | contents |
|---|---|---|
| `wrappers.dfy` | `Wrappers` | `Option`, `Result` |
| `seqs.dfy` | `Seqs` | search by key, splice, insertion-ordered dictionary put/get/fill, filter, reverse |
| `rounding.dfy` | `Rounding` | `Math.round` of a non-negative ratio |
| `demo_data.dfy` | `DemoData` | the client store's records and its pure logic (recompute, detail view, queue filter, request search, decisions, settings merge) |
| `demo_store.dfy` | `DemoStore` | class `Store`: the static-mode store, one method per operation, each proved to produce the state the `DemoData` functions describe |
| `demo_properties.dfy` | `DemoProperties` | what recompute and the decisions guarantee |
| `mock_data.dfy` | `MockData` | the client seed (`frontend/src/data/mockData.js`) and concrete scenarios |
| `server_data.dfy` | `ServerData` | the backend's records and all endpoint logic as functions of a `Server` value |
| `server_store.dfy` | `ServerStore` | class `DataStore`: the backend store with in-place updates, each endpoint proved against `ServerData` |
| `server_properties.dfy` | `ServerProperties` | error paths, frames, KPI conservation, audit growth, query contents |
| `server_seed.dfy` | `ServerSeed` | the backend seed (`_seed_data`) and concrete KPI and confirmation scenarios |

Modelling conventions:

- **Hours.** Hours are `nat` tenths of an hour, so 3.5 hours is 35. The
  backend's `int(verified_hours)` is the tenths divided by 10. The client's
  default of 20 required hours is 200.
- **Rounding.** `Math.round(a / b * 100)` is modelled as round-half-up of
  the exact ratio `100a / b`, written as `(2·100a + b) / (2b)`. The source
  computes the ratio in double arithmetic, which can differ (see "## Left out").
- **Order.** `Seqs.Subsequence(r, s)` says that the elements of `r` occur in
  `s` in the same order. Together with equal multiplicities it pins a
  filter's result down completely.
- **Dictionaries.** A Python dictionary is a sequence of records with
  distinct keys, where each record's own id is its key. `d[k] = v` replaces
  the entry in place, or appends it when the key is new.
- **The client's term-keyed object.** It is a Dafny `map`. The key order
  that `getRequestById` searches is an explicit sequence, and the store's
  invariant keeps that sequence equal to the map's keys.
- **Parameters.** Timestamps (`datetime.now`) and event ids (`uuid4`) are
  opaque string parameters.
- **Current user.** `get_current_user` is the constant admin `admin-001`,
  "Admin User".

## Model

| member | source | states |
|---|---|---|
| Rounding.RoundHalfUp | frontend/src/api/client.js:43 | the result is the unique integer within one half of `num/den`, i.e. `Math.round` of a non-negative ratio |
| Rounding.RoundHalfUpUnique | frontend/src/api/client.js:43 | any integer in that half-open bracket is the rounded value, so rounding is determined by the bracket |
| Rounding.RoundHalfUpMonotone | frontend/src/api/client.js:63 | a larger numerator never rounds lower |
| Seqs.FindFirst | frontend/src/api/client.js:91 | `findIndex`/`find`: a found index is in bounds, its element has the key and no earlier one does; None exactly when no element has the key |
| Seqs.RemoveAt | frontend/src/api/client.js:183 | `splice(i, 1)`: one element shorter, the elements before `i` kept, the later ones shifted down by one |
| Seqs.PutLaws | backend/server.py:380 | `d[key] = x`: afterwards `get` of the key gives `x`, `get` of every other key gives what it gave before, every entry with another key stays at its index, and the dictionary grows by one exactly when the key was absent |
| Seqs.PutKeepsDistinct | backend/server.py:384 | storing a record keeps the dictionary's keys distinct |
| Seqs.Get | backend/server.py:303-304 | `d.get(k)`: a found record is stored under `k`; None exactly when no record has key `k` |
| Seqs.PutAllDistinct | backend/server.py:158-159 | filling an empty dictionary from records with distinct ids gives back the records in their order |
| Seqs.FilterContents | backend/server.py:286 | a list comprehension keeps exactly the elements satisfying the condition, each with its multiplicity |
| Seqs.FilterSubsequence | backend/server.py:286 | a list comprehension keeps the kept elements in their order |
| Seqs.FilterTwice | backend/server.py:286-288 | two successive filters equal one filter by the conjunction |
| Seqs.Reverse | backend/server.py:479 | `reversed`: same length, element `i` is element `n-1-i` of the input |
| DemoData.TermHours | frontend/src/api/client.js:27-29 | required hours are the first matching term's value when truthy, 20 hours when the term is unknown, the value is absent or it is 0; never 0 |
| DemoData.Progress | frontend/src/api/client.js:43 | progress is `round(100·verified/required)` when required > 0, else 0 |
| DemoData.RiskTier | frontend/src/api/client.js:45-54 | on_track iff progress ≥ 50, needs_attention iff 25 ≤ progress < 50, at_risk iff < 25; score 0 iff ≥ 75, 1 iff 50–74, 2 iff needs_attention, 3 iff at_risk |
| DemoData.Recompute | frontend/src/api/client.js:31-67 | recompute touches only the term's student list and KPI record; settings, terms, programs, logs, queues and other terms are unchanged |
| DemoData.BuildStudentDetail | frontend/src/api/client.js:69-87 | null exactly when no student of the term has the id; otherwise the first student with that id |
| DemoData.VerificationRequests | frontend/src/api/client.js:139-147 | the term's queue itself (empty when the term has none) when the status is empty; otherwise exactly its requests with that status, each with its multiplicity, in queue order |
| DemoData.FindInQueues | frontend/src/api/client.js:89-97 | a found term and index are in bounds and point at a matching request; no earlier index of that queue and no earlier queue matches; none exactly when no queue holds the id |
| DemoData.Apply | frontend/src/api/client.js:182-186 | only the found term's queue and logs change: the queue loses one request, its logs keep their number, every other term's queue and logs and all other fields are unchanged |
| DemoData.Resolve | frontend/src/api/client.js:169-236 | an unknown id leaves the store unchanged; a known one shortens its queue by one; settings, terms, programs, the search order and the key sets are always kept |
| DemoData.HoursAdded | frontend/src/api/client.js:179-189 | a found request credits exactly its own hours (the first match in queue key order); a positive credit is the hours of a queued request with that id; an id that no queue holds credits 0 |
| DemoData.Decide | frontend/src/api/client.js:186 | confirm, reject and flag set the status to confirmed, rejected or flagged; a flag with a non-empty reason becomes the description; nothing else changes |
| DemoData.MergeSettings | frontend/src/api/client.js:248-252 | payload fields override the settings; the dashboard title is kept when the payload's is absent or empty |
| DemoProperties.FilteredSumIsHoursWith | frontend/src/api/client.js:37-39 | the filter-by-student, filter-by-status, sum pipeline equals a one-pass reference sum |
| DemoProperties.RefreshedStudent | frontend/src/api/client.js:36-54 | one pass of the per-student loop: verified hours = the reference sum of the student's confirmed logs, the given required hours, the progress and risk tier that follow, other fields unchanged |
| DemoProperties.RecomputedStudent | frontend/src/api/client.js:36-55 | after recompute each student of the term has verified hours = its confirmed logs' hours, required hours = the term's, progress and risk from those, other fields unchanged |
| DemoProperties.TotalVerifiedOfRefreshed | frontend/src/api/client.js:57 | the total of refreshed verified hours is the reference total of confirmed hours over the students |
| DemoProperties.CountRetainedOfRefreshed | frontend/src/api/client.js:63 | the retained count of refreshed students is the reference count of students whose progress reaches 50 |
| DemoProperties.RecomputedKpis | frontend/src/api/client.js:57-66 | the rebuilt KPI record holds the total of confirmed hours, the number of students, the number of programs and the rounded retention percentage (0 with no students), each with delta "Demo data" |
| DemoProperties.RetentionIsPercent | frontend/src/api/client.js:57-66 | the retention KPI lies between 0 and 100, is 0 when no student reaches 50% and 100 when every student does |
| DemoProperties.RefreshAllIdempotent | frontend/src/api/client.js:36-55 | refreshing an already refreshed student list changes nothing |
| DemoProperties.RecomputeIdempotent | frontend/src/api/client.js:31-67 | recomputing twice with no change between gives the same store |
| DemoProperties.LogsOfStudentContents | frontend/src/api/client.js:74-76 | the filter on the student id keeps exactly the student's logs, each with its multiplicity and in their order |
| DemoProperties.StudentDetailLogs | frontend/src/api/client.js:74-80 | the detail's logs are exactly the term's logs of that student, each with its multiplicity and in their order, and its pending hours are the hours of those that are pending |
| DemoProperties.FindRequestNoneIff | frontend/src/api/client.js:89-97 | in a well-formed store the search fails exactly when no queue holds the id |
| DemoProperties.ResolveUnknown | frontend/src/api/client.js:180 | an unknown id leaves the store unchanged and credits 0 hours |
| DemoProperties.ResolveQueues | frontend/src/api/client.js:183 | a resolved request's queue loses exactly that element, the others keep their order, and other queues are untouched |
| DemoProperties.ResolveLogs | frontend/src/api/client.js:185-186 | only the first log with the request's log id changes, and it takes the decision |
| DemoProperties.ResolveOtherTerms | frontend/src/api/client.js:188 | other terms' students, logs, queues and KPI records are untouched, and so are settings, terms and programs |
| DemoProperties.ConfirmAddsHours | frontend/src/api/client.js:169-190 | confirming a request whose log was not confirmed gives the term's verified-hours KPI of a plain recompute plus that log's hours, once per list entry of its student |
| DemoProperties.RejectOrFlagKeepsHours | frontend/src/api/client.js:192-236 | rejecting or flagging a request whose log was not confirmed leaves the term's total of confirmed hours unchanged |
| DemoProperties.ProgressMonotone | frontend/src/api/client.js:43 | more confirmed hours never lower progress |
| DemoProperties.RiskScoreAntitone | frontend/src/api/client.js:45-54 | a lower progress never has a lower risk score |
| DemoProperties.MergeSettingsIdempotent | frontend/src/api/client.js:248-252 | merging the same payload twice equals merging it once; an empty payload changes nothing |
| DemoStore.Store.constructor | frontend/src/api/client.js:9-17 | the store starts as its seed |
| DemoStore.Store.GetRequestById | frontend/src/api/client.js:89-97 | the loop over the queue keys returns the reference search's result: in-bounds match, or none exactly when no queue holds the id |
| DemoStore.Store.UpdateStudentProgressForTerm | frontend/src/api/client.js:31-67 | the in-place per-student loop and the KPI assignment leave exactly the store `Recompute` describes |
| DemoStore.Store.GetStudents | frontend/src/api/client.js:155-160 | recompute, then the term's students (empty when none) |
| DemoStore.Store.GetStudent | frontend/src/api/client.js:162-167 | recompute, then the detail view of the recomputed store |
| DemoStore.Store.TakeDecision | frontend/src/api/client.js:182-186 | the found request is spliced out of its queue and the first log with its log id takes the decision, leaving exactly the store `Apply` describes and keeping the store well formed |
| DemoStore.Store.ConfirmVerification | frontend/src/api/client.js:169-190 | the new store is `Resolve` with a confirmation; the returned hours are the request snapshot's, 0 for an unknown id |
| DemoStore.Store.RejectVerification | frontend/src/api/client.js:192-211 | the new store is `Resolve` with a rejection; the reason is echoed only for a known id |
| DemoStore.Store.FlagVerification | frontend/src/api/client.js:213-236 | the new store is `Resolve` with a flag |
| DemoStore.Store.UpdateSettings | frontend/src/api/client.js:238-254 | only the settings change, to the merge of the payload; the new settings are returned |
| MockData.SeedWellFormed | frontend/src/data/mockData.js:139-161 | the seed's queue order lists every queue once |
| MockData.SpringHours | frontend/src/data/mockData.js:3 | spring requires 20 hours |
| MockData.SeedSpringRecompute | frontend/src/data/mockData.js:26-88 | recomputing spring from the seed's logs: of its three students Maya has 4 confirmed hours, 20%, at risk; Jordan and Amira have none |
| MockData.SeedSpringKpis | frontend/src/data/mockData.js:163-182 | recompute replaces the seed's stale spring KPIs with 4 hours, 3 students, 3 programs and retention 0 |
| MockData.SeedFindsJordan | frontend/src/data/mockData.js:139-161 | the seed's request vr-001 is found first in the spring queue |
| MockData.SeedConfirm | frontend/src/api/client.js:169-190 | confirming vr-001 on the seed empties the queue, confirms Jordan's log, gives Jordan 3 hours (15%, at risk), raises the hours KPI to 7 and returns 3 hours |
| MockData.SeedUnknownRequest | frontend/src/api/client.js:180 | an id absent from the seed changes nothing and credits nothing |
| MockData.ScenarioBefore | frontend/src/api/client.js:36-55 | a student with 4 confirmed hours of 20 stands at 20%, at risk |
| MockData.ScenarioConfirm | frontend/src/api/client.js:169-190 | confirming that student's 3-hour pending log gives 35%, needs attention, and empties the queue |
| MockData.StudentAfterConfirm | frontend/src/api/client.js:36-55 | a student with 7 confirmed hours of a 20-hour term recomputes to 35%, needs attention |
| MockData.SettingsKeepTitle | frontend/src/api/client.js:251 | a payload without a title, or with an empty one, keeps the dashboard title |
| MockData.RiskBoundaries | frontend/src/api/client.js:45-54 | progress 75, 74, 50, 25 and 24 give the tiers (on_track, 0), (on_track, 1), (on_track, 1), (needs_attention, 2), (at_risk, 3) |
| ServerData.GetTerm | backend/server.py:255-259 | the stored term exactly when one has the id; otherwise 404 "Term not found" |
| ServerData.GetStudent | backend/server.py:274-278 | the stored student exactly when one has the id; otherwise 404 "Student not found" |
| ServerProperties.EnrichEntry | backend/server.py:302-310 | the entry carries the request, the name and avatar of the first student with its student id and the name of the first program with its program id, or "Unknown", "?" and "Unknown" when none has the id |
| ServerData.GetKpis | backend/server.py:314-359 | the verified-hours value, less the term's fixed offset (8420, 7260 or 0), is the confirmed tenths truncated to whole hours; active students are the offset (1134, 945 or 0) plus the number of distinct students among the confirmed logs; active programs are the number of the term's programs; retention is 78, 73 or 0; each card carries its term's delta text |
| ServerData.Act | backend/server.py:362-473 | a failure is a 404; a success keeps terms, programs, students and settings and the sizes of both dictionaries, and appends exactly one audit event |
| ServerData.SliceStart | backend/server.py:478 | Python's start index of `s[start:]` stays within the list |
| ServerData.AuditWindow | backend/server.py:476-479 | limit > 0 gives the newest min(limit, n) events, limit 0 all of them, a negative limit drops the oldest min(-limit, n); always newest first |
| ServerData.UpdateSettings | backend/server.py:486-504 | the university name is the new one; apart from the settings and one appended event the store is unchanged |
| ServerProperties.ExportRowFields | backend/server.py:530-543 | the row copies the log's date, hours, tier, status and description, names the term, and takes the name, e-mail and program name of the first matching records, or "Unknown", "" and "Unknown" |
| ServerData.ExportedAuditTrail | backend/server.py:566-607 | only the audit list changes: one export event is appended whose count is the number of events the export listed |
| ServerData.Exported | backend/server.py:545-556 | only the audit list changes: one export event is appended whose record count is the number of the term's confirmed logs |
| ServerProperties.ActFailures | backend/server.py:366-373 | an unknown request id gives 404 "Verification request not found"; a request whose log is missing gives 404 "Associated service log not found"; with both present the action succeeds |
| ServerProperties.ActSuccess | backend/server.py:375-397 | a successful action rewrites the log at its index and, unless it is a flag, the request at its index, and appends the action's event |
| ServerProperties.ActOutcome | backend/server.py:377-384 | confirm makes the log confirmed and org-confirmed and the request confirmed; reject makes both rejected and keeps the evidence tier; flag makes the log flagged and leaves the request as it was; ids, hours and owners kept, updated_at set |
| ServerProperties.ActFrame | backend/server.py:440-473 | every other log and request is untouched; terms, programs, students and settings are unchanged |
| ServerProperties.ActKeepsValid | backend/server.py:380-384 | actions keep every dictionary's keys distinct |
| ServerProperties.ConfirmAgain | backend/server.py:383-384 | the request is not deleted, so a second confirm succeeds, leaves the requests as they were and appends a second event |
| ServerProperties.AuditGrowsByOne | backend/server.py:387-397 | a successful action, a settings update, a verified-logs export and an audit-trail export each append exactly one event (entity and action as in the source) and keep the earlier ones |
| ServerProperties.FilteredSumIsConfirmedTenths | backend/server.py:321-325 | the sum over the comprehension of confirmed term logs equals a one-pass reference sum |
| ServerProperties.ConfirmedHoursOfTerm | backend/server.py:317-325 | a term's verified tenths are the reference sum over the store's logs |
| ServerProperties.ConfirmedTenthsUpdate | backend/server.py:380 | replacing one log moves the reference sum by the difference of the two logs' shares |
| ServerProperties.ActConfirmedHours | backend/server.py:362-399 | an action changes a term's confirmed hours by exactly the change in the acted log's share; confirming an unconfirmed log of the term adds its hours |
| ServerProperties.StudentIdsBound | backend/server.py:328-329 | there are no more distinct students than logs, and none exactly when there are no logs |
| ServerProperties.StudentIdsCons | backend/server.py:328 | the first log's student joined to the rest's |
| ServerProperties.ActiveStudentIds | backend/server.py:321-329 | a student id is counted as active exactly when one of its logs is confirmed and belongs to a program of the term |
| ServerProperties.KpiStudentsBound | backend/server.py:339-359 | the active-students value never exceeds the term's offset plus its number of confirmed logs |
| ServerProperties.KpisDependOnData | backend/server.py:314-359 | the KPIs depend only on the programs and the logs |
| ServerProperties.KpisIgnoreAudit | backend/server.py:486-607 | a settings update and either export leave every term's KPIs unchanged |
| ServerProperties.TermProgramIdsContents | backend/server.py:285 | an id is among the term's program ids exactly when a program of that term has it |
| ServerProperties.ProgramsContents | backend/server.py:262-267 | `get_programs` returns exactly the term's programs when a term is given, with multiplicities and in dictionary order, and the stored list itself otherwise |
| ServerProperties.ServiceLogsContents | backend/server.py:281-289 | `get_service_logs` returns exactly the logs of the term's programs and, when given, with the status, with multiplicities and in dictionary order |
| ServerProperties.RequestsContents | backend/server.py:292-299 | the requests of `get_verification_requests` are exactly those of the term's programs and, when given, with the status, with multiplicities and in dictionary order |
| ServerProperties.ExportIsConfirmedQuery | backend/server.py:513-517 | for a non-empty term id, the export's rows are selected exactly as `get_service_logs(term, confirmed)` selects logs (an empty id switches the query's term filter off) |
| ServerProperties.UnfilteredServiceLogs | backend/server.py:283-289 | with no term and no status filter, every log is returned in dictionary order |
| ServerStore.DataStore.constructor | backend/server.py:140-210 | the dictionaries are filled in seed order by `d[id] = x`, the audit list is empty, settings default, and the store is well formed |
| ServerStore.DataStore.Fill | backend/server.py:158-159 | the fill loop gives the fold of dictionary puts and keeps the keys distinct |
| ServerStore.DataStore.GetVerificationRequests | backend/server.py:301-311 | one enriched entry per selected request, in order, with the student's name and avatar and the program's name or "Unknown", "?", "Unknown" |
| ServerStore.DataStore.ConfirmVerification | backend/server.py:362-399 | success: the store becomes the confirmed store and the event id is returned; failure: the 404 is returned and nothing changes |
| ServerStore.DataStore.RejectVerification | backend/server.py:401-438 | success: the store becomes the rejected store and the reason is returned; failure: the 404 and no change |
| ServerStore.DataStore.FlagVerification | backend/server.py:440-473 | success: the store becomes the flagged store; failure: the 404 and no change |
| ServerStore.DataStore.UpdateSettings | backend/server.py:486-504 | the university name is set, one edit event on "settings" is appended, and the new settings are returned |
| ServerStore.DataStore.ExportVerifiedLogs | backend/server.py:507-556 | one row per confirmed log of the term, in order, with "Unknown", "" and "Unknown" fallbacks and the term name or id; then one export event with the record count |
| ServerStore.DataStore.ExportAuditTrail | backend/server.py:566-607 | the exported rows are the audit list as it stood, then the model becomes `ExportedAuditTrail` |
| ServerStore.DataStore.ExportRows | backend/server.py:530-543 | the export loop yields one row per given log, in order, each the row of that log against the store's students, programs and terms, and changes nothing |
| ServerSeed.SeededIsData | backend/server.py:151-210 | the seed ids are distinct, so the filled dictionaries are the seed lists in order and the store is well formed |
| ServerSeed.SpringPrograms | backend/server.py:163-165 | spring has the programs csc-001, gi-002 and hno-003 |
| ServerSeed.SpringConfirmedFilter | backend/server.py:190-198 | the confirmed spring logs are log-001, log-002 and log-003 |
| ServerSeed.SpringConfirmedTotals | backend/server.py:190-192 | those logs hold 12.5 hours from 3 students |
| ServerSeed.SeedSpringKpis | backend/server.py:339-345 | spring KPIs on the seed: 8432 hours, 1137 students, 3 programs, retention 78, with the source's deltas |
| ServerSeed.SeedOtherKpis | backend/server.py:346-359 | fall: 7266 hours, 946 students, 2 programs, 73; summer: 0 hours, 0 students, 1 program, 0, each with its delta |
| ServerSeed.ConfirmOneOfTerm | backend/server.py:362-399 | confirming a pending log of a term succeeds, confirms the log and the request, and adds the log's tenths to the term's confirmed sum |
| ServerSeed.SeedConfirmSpring | backend/server.py:362-399 | confirming vr-001 on the seed confirms log-004 and the request and raises spring's verified hours to 8435 |

## Left out

- HTTP and async plumbing is not modelled. Only the static-mode branches
  give client state. This covers `fetchJson`, the `fetch` branches,
  `STATIC_MODE`, `delay`, FastAPI routing, CORS and `StreamingResponse`.
- `clone` is not modelled. Dafny values are immutable, so every read is
  already a copy.
- Client `getTerms`, `getSettings`, `getKpis`, `getPrograms` and
  `getServiceLogs` are not modelled. They read one field, or one map entry
  with a default, and apply no logic. `getPrograms` and `getServiceLogs`
  fall back to `[]`, which is `DemoData.Lookup`; `getKpis` falls back to
  spring-2026's KPI record instead.
- Client `getProgram` is not modelled. It flattens every term's programs
  and students and counts the students of one program. Its result depends
  on the key order of the term-keyed objects, and the model keeps that
  order only for the request queues.
- Backend `get_terms`, `get_students`, `get_settings` and `health_check`
  are not modelled. They return the dictionary values or a constant, which
  are the fields of `ServerData.Server` as they stand.
- CSV text formatting is not modelled. The verified-logs export is modelled
  up to its rows (`ServerData.ExportRow`), and the audit-trail export up to
  its rows, which are the audit events themselves; both append their own
  `export` event.
- Audit note text is not modelled. The f-string `notes` are a structured
  `ServerData.AuditNote` carrying the same fields. The float text of the
  hours is not reproduced.
- DemoData.Progress and DemoData.BuildKpis round the exact ratio, not the
  double one. The source computes `verified / required * 100` and
  `retained / students * 100` in double arithmetic before `Math.round`,
  and that value can fall just below a half: 11.5 of 20 hours gives
  57.49999999999999, so the source shows 57 where the model gives 58, and
  34.3 of 140 hours gives 24 (at risk) where the model gives 25 (needs
  attention).
- Float hours are not modelled. Hours are integer tenths, so the model
  assumes every stored hour value has at most one decimal. Float summation
  error before `int()` is not captured.
- `uuid.uuid4()` and `datetime.now()` are not modelled. They are parameters
  of the operations that use them.
- Authentication is not modelled. `get_current_user` is the constant admin,
  and `require_role` is never reached with another role.
- Default arguments are not modelled: every operation takes its arguments
  explicitly. `get_kpis` and both exports default `term_id` to
  "spring-2026", and `get_audit_events` defaults `limit` to 100; calling
  the model with those values gives the defaulted behaviour.
- `get_audit_events`'s `term_id` parameter is not modelled, because the
  source ignores it.
- A non-empty reason for reject and flag is required by the documented
  workflow but is enforced only in the UI (`VerificationPanel.js`). The
  client store accepts any reason string for both, and the backend's flag
  endpoint accepts any string, empty included. The backend's reject
  endpoint takes a `RejectionReason` member, so an empty reason never gets
  past its request validation; the model's `ServerData.RejectionReason`
  has only the four members. No member requires a non-empty flag reason.
- Extra keys a settings payload may carry are not modelled. The client
  store's settings have the two fields the seed defines:
  `university_name` and `dashboard_title`.
- `DemoData.RefreshAll` records only that the list keeps its length. What
  each refreshed student holds is stated in `DemoProperties.RecomputedStudent`.
- `DemoData.LogsOfStudent`, `DemoData.WithStatus` and
  `DemoData.RequestsWithStatus` are `Seqs.Filter` with their condition and
  carry no contract of their own; what they keep is stated by
  `Seqs.FilterContents`, `DemoProperties.LogsOfStudentContents`,
  `DemoProperties.FilteredSumIsHoursWith` and `DemoData.VerificationRequests`.
- `ServerData.GetServiceLogs` and `ServerData.SelectRequests` carry no
  contract of their own. Their contents are stated in
  `ServerProperties.ServiceLogsContents` and `ServerProperties.RequestsContents`.
- A record whose id field differs from the dictionary key it is stored
  under cannot be expressed, because the model derives the key from the
  record. The source only ever writes `d[x.id] = x`, so this case never
  arises there.
