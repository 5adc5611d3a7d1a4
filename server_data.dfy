/** The backend's in-memory `DataStore` (backend/server.py) as a value, and
    its endpoint bodies as functions of that value. Each Python dictionary
    is an insertion-ordered sequence of records whose keys (the records' own
    ids) are distinct. Hours are integer tenths of an hour. */
module ServerData {
  import opened Wrappers
  import opened Seqs

  // ---------------------------------------------------------------- enums

  datatype ProgramType = Campus | NgoPartner
  datatype EvidenceTier = SelfReported | OrgConfirmed
  datatype LogStatus = Pending | Confirmed | Rejected | Flagged
  /** Shares two constructor names with LogStatus; both are always written qualified. */
  datatype VerificationStatus = AwaitingConfirmation | ReadyToConfirm | Confirmed | Rejected
  datatype ActorRole = UniversityAdmin | NgoPartner | System
  datatype EntityType = ServiceLogEntity | VerificationRequestEntity | ExportEntity
  datatype AuditAction = Confirm | Reject | Flag | Edit | Export
  datatype RejectionReason = NotEligible | InsufficientEvidence | Suspicious | Duplicate

  // ---------------------------------------------------------------- records

  datatype Term = Term(termId: string, name: string, startDate: string, endDate: string)

  datatype Program = Program(programId: string, name: string, kind: ProgramType, termId: string,
                             activeStudentsCount: int, icon: string)

  datatype Student = Student(studentId: string, name: string, email: string, programIds: seq<string>,
                             avatar: Option<string>)

  datatype ServiceLog = ServiceLog(logId: string, studentId: string, programId: string, date: string,
                                   hours: nat, description: string, evidenceTier: EvidenceTier,
                                   status: LogStatus, createdAt: string, updatedAt: string)

  datatype VerificationRequest = VerificationRequest(
    requestId: string, logId: string, studentId: string, programId: string, status: VerificationStatus,
    assigneeAdminId: Option<string>, ngoName: Option<string>, actionDescription: Option<string>)

  /** What an audit event's `notes` text reports, field by field. */
  datatype AuditNote =
    | ConfirmedNote(adminName: string, logId: string, hours: nat)
    | RejectedNote(adminName: string, reason: RejectionReason, logId: string)
    | FlaggedNote(adminName: string, flagReason: string, logId: string)
    | SettingsNote(universityName: string)
    | ExportNote(termLabel: string, records: nat)
    | AuditTrailNote(termLabel: string, events: nat)

  datatype AuditEvent = AuditEvent(eventId: string, actorId: string, actorRole: ActorRole,
                                   entityType: EntityType, entityId: string, action: AuditAction,
                                   timestamp: string, notes: AuditNote)

  datatype Settings = Settings(universityName: string)

  /** An `HTTPException`: status code and detail. */
  datatype HttpError = HttpError(status: int, detail: string)

  /** The data store's dictionaries, its audit list and its settings. */
  datatype Server = Server(terms: seq<Term>, programs: seq<Program>, students: seq<Student>,
                           serviceLogs: seq<ServiceLog>, verificationRequests: seq<VerificationRequest>,
                           auditEvents: seq<AuditEvent>, settings: Settings)

  function TermKey(t: Term): string { t.termId }
  function ProgramKey(p: Program): string { p.programId }
  function StudentKey(s: Student): string { s.studentId }
  function LogKey(l: ServiceLog): string { l.logId }
  function RequestKey(r: VerificationRequest): string { r.requestId }

  /** Every dictionary holds each key once. */
  predicate Valid(st: Server) {
    && DistinctKeys(st.terms, TermKey)
    && DistinctKeys(st.programs, ProgramKey)
    && DistinctKeys(st.students, StudentKey)
    && DistinctKeys(st.serviceLogs, LogKey)
    && DistinctKeys(st.verificationRequests, RequestKey)
  }

  /** The user `get_current_user` always returns. */
  const AdminId: string := "admin-001"
  const AdminName: string := "Admin User"

  const DefaultUniversity: string := "Columbia University"

  /** Python truthiness of an optional string parameter: absent and "" both mean no filter. */
  predicate Given(o: Option<string>) {
    o.Some? && o.value != ""
  }

  // ---------------------------------------------------------------- terms

  /** `get_term`: the stored term, or 404. */
  function GetTerm(st: Server, termId: string): (r: Result<Term, HttpError>)
    ensures r.Success? <==> exists i :: 0 <= i < |st.terms| && st.terms[i].termId == termId
    ensures r.Success? ==> r.value in st.terms && r.value.termId == termId
    ensures r.Failure? ==> r.error == HttpError(404, "Term not found")
  {
    match Get(st.terms, TermKey, termId)
    case Some(t) => Success(t)
    case None => Failure(HttpError(404, "Term not found"))
  }

  /** `get_student`: the stored student, or 404. */
  function GetStudent(st: Server, studentId: string): (r: Result<Student, HttpError>)
    ensures r.Success? <==> exists i :: 0 <= i < |st.students| && st.students[i].studentId == studentId
    ensures r.Success? ==> r.value in st.students && r.value.studentId == studentId
    ensures r.Failure? ==> r.error == HttpError(404, "Student not found")
  {
    match Get(st.students, StudentKey, studentId)
    case Some(s) => Success(s)
    case None => Failure(HttpError(404, "Student not found"))
  }

  // ---------------------------------------------------------------- queries

  /** `[p.program_id for p in db.programs.values() if p.term_id == term_id]`. */
  function TermProgramIds(programs: seq<Program>, termId: string): (r: seq<string>)
    ensures |r| <= |programs|
  {
    if |programs| == 0 then []
    else
      (if programs[0].termId == termId then [programs[0].programId] else [])
      + TermProgramIds(programs[1..], termId)
  }

  /** `[p for p in db.programs.values() if p.term_id == term_id]`. */
  function TermPrograms(programs: seq<Program>, termId: string): seq<Program> {
    Filter(programs, (p: Program) => p.termId == termId)
  }

  /** `get_programs`: all programs, or the term's when a term is given. */
  function GetPrograms(st: Server, termId: Option<string>): seq<Program> {
    if Given(termId) then TermPrograms(st.programs, termId.value) else st.programs
  }

  /** The two filters of `get_service_logs` as one condition on a log. */
  predicate LogSelected(st: Server, termId: Option<string>, status: Option<LogStatus>, l: ServiceLog) {
    && (Given(termId) ==> l.programId in TermProgramIds(st.programs, termId.value))
    && (status.Some? ==> l.status == status.value)
  }

  /** `get_service_logs`: the logs of the term's programs (when a term is
      given), then those with the status (when one is given). */
  function GetServiceLogs(st: Server, termId: Option<string>, status: Option<LogStatus>): seq<ServiceLog> {
    var logs := st.serviceLogs;
    var byTerm := if Given(termId)
                  then Filter(logs, (l: ServiceLog) => l.programId in TermProgramIds(st.programs, termId.value))
                  else logs;
    if status.Some? then Filter(byTerm, (l: ServiceLog) => l.status == status.value) else byTerm
  }

  /** The two filters of `get_verification_requests` as one condition. */
  predicate RequestSelected(st: Server, termId: Option<string>, status: Option<VerificationStatus>,
                            r: VerificationRequest) {
    && (Given(termId) ==> r.programId in TermProgramIds(st.programs, termId.value))
    && (status.Some? ==> r.status == status.value)
  }

  /** The requests `get_verification_requests` enriches, in dictionary order. */
  function SelectRequests(st: Server, termId: Option<string>, status: Option<VerificationStatus>)
    : seq<VerificationRequest>
  {
    var requests := st.verificationRequests;
    var byTerm := if Given(termId)
                  then Filter(requests, (x: VerificationRequest) => x.programId in TermProgramIds(st.programs, termId.value))
                  else requests;
    if status.Some? then Filter(byTerm, (x: VerificationRequest) => x.status == status.value) else byTerm
  }

  /** A request merged with its student's name and avatar and its program's name. */
  datatype EnrichedRequest = EnrichedRequest(request: VerificationRequest, studentName: string,
                                             studentAvatar: Option<string>, programName: string)

  /** One entry of `get_verification_requests`, with "Unknown", "?" and
      "Unknown" when the student or the program is missing. */
  function Enrich(st: Server, req: VerificationRequest): EnrichedRequest
  {
    EntryOf(req, Get(st.students, StudentKey, req.studentId), Get(st.programs, ProgramKey, req.programId))
  }

  /** The entry built from the looked-up student and program. */
  function EntryOf(req: VerificationRequest, student: Option<Student>, program: Option<Program>): EnrichedRequest {
    EnrichedRequest(req,
                    if student.Some? then student.value.name else "Unknown",
                    if student.Some? then student.value.avatar else Some("?"),
                    if program.Some? then program.value.name else "Unknown")
  }

  // ---------------------------------------------------------------- KPIs

  function SumHours(logs: seq<ServiceLog>): nat {
    if |logs| == 0 then 0 else logs[0].hours + SumHours(logs[1..])
  }

  /** The condition of `get_kpis` and `export_verified_logs` on a log: one
      of the term's programs (ids `ids`) and confirmed. */
  function ConfirmedIn(ids: seq<string>): ServiceLog -> bool {
    (l: ServiceLog) => l.programId in ids && l.status == LogStatus.Confirmed
  }

  /** The confirmed logs of the term's programs. */
  function ConfirmedLogs(st: Server, termId: string): seq<ServiceLog> {
    Filter(st.serviceLogs, ConfirmedIn(TermProgramIds(st.programs, termId)))
  }

  /** `set(l.student_id for l in confirmed_logs)`. */
  function StudentIds(logs: seq<ServiceLog>): set<string> {
    set l | l in logs :: l.studentId
  }

  datatype Kpi = Kpi(value: int, delta: string)
  datatype KpiReport = KpiReport(verifiedHours: Kpi, activeStudents: Kpi, activePrograms: Kpi, retentionRate: Kpi)

  /** The report `get_kpis` builds from whole verified hours, distinct
      active students and program count: fixed offsets and deltas for the
      two known terms, the raw values and a retention rate of 0 otherwise. */
  function Report(termId: string, hours: int, students: int, programs: int): KpiReport {
    if termId == "spring-2026" then
      KpiReport(Kpi(8420 + hours, "+16% vs last semester"), Kpi(1134 + students, "+20% vs last semester"),
                Kpi(programs, "+1 new since Mar 2024"), Kpi(78, "+5% vs last semester"))
    else if termId == "fall-2025" then
      KpiReport(Kpi(7260 + hours, "+12% vs previous"), Kpi(945 + students, "+15% vs previous"),
                Kpi(programs, "Baseline term"), Kpi(73, "Baseline term"))
    else
      KpiReport(Kpi(hours, "New term"), Kpi(students, "New term"), Kpi(programs, "New term"), Kpi(0, "New term"))
  }

  /** `get_kpis`: the confirmed hours of the term's programs, truncated to
      whole hours (`int()`), the number of distinct students among those
      logs and the number of the term's programs. */
  function GetKpis(st: Server, termId: string): (r: KpiReport)
    ensures var tenths := SumHours(ConfirmedLogs(st, termId));
            var hours := r.verifiedHours.value - (if termId == "spring-2026" then 8420
                                                  else if termId == "fall-2025" then 7260 else 0);
            10 * hours <= tenths < 10 * hours + 10
    ensures r.activePrograms.value == |TermPrograms(st.programs, termId)| <= |st.programs|
    ensures r.activeStudents.value == (if termId == "spring-2026" then 1134
                                       else if termId == "fall-2025" then 945 else 0)
                                      + |StudentIds(ConfirmedLogs(st, termId))|
    ensures r.retentionRate.value == (if termId == "spring-2026" then 78 else if termId == "fall-2025" then 73 else 0)
    ensures termId == "spring-2026" ==>
              && r.verifiedHours.delta == "+16% vs last semester" && r.activeStudents.delta == "+20% vs last semester"
              && r.activePrograms.delta == "+1 new since Mar 2024" && r.retentionRate.delta == "+5% vs last semester"
    ensures termId == "fall-2025" ==>
              && r.verifiedHours.delta == "+12% vs previous" && r.activeStudents.delta == "+15% vs previous"
              && r.activePrograms.delta == "Baseline term" && r.retentionRate.delta == "Baseline term"
    ensures termId != "spring-2026" && termId != "fall-2025" ==>
              && r.verifiedHours.delta == "New term" && r.activeStudents.delta == "New term"
              && r.activePrograms.delta == "New term" && r.retentionRate.delta == "New term"
  {
    var logs := ConfirmedLogs(st, termId);
    Report(termId, SumHours(logs) / 10, |StudentIds(logs)|, |TermPrograms(st.programs, termId)|)
  }

  // ---------------------------------------------------------------- verification actions

  datatype Action = ConfirmAction | RejectAction(reason: RejectionReason) | FlagAction(flagReason: string)

  /** The log after the action: its new status, for a confirmation the
      org-confirmed tier, and the action's timestamp. */
  function ActedLog(log: ServiceLog, a: Action, now: string): ServiceLog {
    match a
    case ConfirmAction => log.(status := LogStatus.Confirmed, evidenceTier := OrgConfirmed, updatedAt := now)
    case RejectAction(_) => log.(status := LogStatus.Rejected, updatedAt := now)
    case FlagAction(_) => log.(status := LogStatus.Flagged, updatedAt := now)
  }

  /** The request after the action; a flag leaves it as it was. */
  function ActedRequest(vr: VerificationRequest, a: Action): VerificationRequest {
    match a
    case ConfirmAction => vr.(status := VerificationStatus.Confirmed)
    case RejectAction(_) => vr.(status := VerificationStatus.Rejected)
    case FlagAction(_) => vr
  }

  /** The audit event an action appends. */
  function ActionEvent(vr: VerificationRequest, log: ServiceLog, a: Action, now: string, eventId: string): AuditEvent {
    AuditEvent(eventId, AdminId, UniversityAdmin, VerificationRequestEntity, vr.requestId,
               match a
               case ConfirmAction => Confirm
               case RejectAction(_) => Reject
               case FlagAction(_) => Flag,
               now,
               match a
               case ConfirmAction => ConfirmedNote(AdminName, log.logId, log.hours)
               case RejectAction(reason) => RejectedNote(AdminName, reason, log.logId)
               case FlagAction(reason) => FlaggedNote(AdminName, reason, log.logId))
  }

  /** `confirm_verification`, `reject_verification` and `flag_verification`:
      404 when the request or its log is missing, before anything changes;
      otherwise the log (and, except for a flag, the request) is rewritten
      in its dictionary and one audit event is appended. The request stays
      in its dictionary. */
  function Act(st: Server, requestId: string, a: Action, now: string, eventId: string): (r: Result<Server, HttpError>)
    ensures r.Failure? ==> r.error.status == 404
    ensures r.Success? ==> && r.value.terms == st.terms && r.value.programs == st.programs
                           && r.value.students == st.students && r.value.settings == st.settings
                           && |r.value.serviceLogs| == |st.serviceLogs|
                           && |r.value.verificationRequests| == |st.verificationRequests|
                           && |r.value.auditEvents| == |st.auditEvents| + 1
                           && r.value.auditEvents[..|st.auditEvents|] == st.auditEvents
  {
    match Get(st.verificationRequests, RequestKey, requestId)
    case None => Failure(HttpError(404, "Verification request not found"))
    case Some(vr) =>
      match Get(st.serviceLogs, LogKey, vr.logId)
      case None => Failure(HttpError(404, "Associated service log not found"))
      case Some(log) =>
        var log' := ActedLog(log, a, now);
        Success(st.(serviceLogs := Put(st.serviceLogs, LogKey, log'),
                    verificationRequests := if a.FlagAction? then st.verificationRequests
                                            else Put(st.verificationRequests, RequestKey, ActedRequest(vr, a)),
                    auditEvents := st.auditEvents + [ActionEvent(vr, log', a, now, eventId)]))
  }

  // ---------------------------------------------------------------- audit events and settings

  /** Python's start index of `s[start:]` on a list of length n. */
  function SliceStart(n: nat, start: int): (r: nat)
    ensures r <= n
  {
    if start < 0 then (if n + start < 0 then 0 else n + start) else if start > n then n else start
  }

  /** `list(reversed(db.audit_events[-limit:]))`: for a positive limit the
      newest min(limit, n) events, newest first; a limit of 0 is `[-0:]`, the
      whole list; a negative limit drops the oldest min(-limit, n) events. */
  function AuditWindow(events: seq<AuditEvent>, limit: int): (w: seq<AuditEvent>)
    ensures limit > 0 ==> |w| == (if limit < |events| then limit else |events|)
    ensures limit == 0 ==> |w| == |events|
    ensures limit < 0 ==> |w| == |events| - (if -limit < |events| then -limit else |events|)
    ensures forall k :: 0 <= k < |w| ==> w[k] == events[|events| - 1 - k]
  {
    Reverse(events[SliceStart(|events|, -limit)..])
  }

  /** `update_settings`: the new university name and one `edit` event. */
  function UpdateSettings(st: Server, universityName: string, now: string, eventId: string): (r: Server)
    ensures r.settings.universityName == universityName
    ensures r.(settings := st.settings, auditEvents := st.auditEvents) == st
    ensures |r.auditEvents| == |st.auditEvents| + 1 && r.auditEvents[..|st.auditEvents|] == st.auditEvents
  {
    st.(settings := st.settings.(universityName := universityName),
        auditEvents := st.auditEvents + [AuditEvent(eventId, AdminId, UniversityAdmin, ServiceLogEntity,
                                                    "settings", Edit, now, SettingsNote(universityName))])
  }

  // ---------------------------------------------------------------- export

  /** One data row of the verified-logs export, before CSV formatting. */
  datatype ExportRow = ExportRow(studentName: string, studentEmail: string, programName: string, termName: string,
                                 logDate: string, hours: nat, evidenceTier: EvidenceTier, status: LogStatus,
                                 description: string)

  /** `term.name if term else term_id`. */
  function TermLabel(st: Server, termId: string): string {
    match Get(st.terms, TermKey, termId)
    case Some(t) => t.name
    case None => termId
  }

  /** The row for one log, with "Unknown" and "" when its student or program is missing. */
  function Row(st: Server, termId: string, log: ServiceLog): ExportRow
  {
    RowOf(log, Get(st.students, StudentKey, log.studentId), Get(st.programs, ProgramKey, log.programId),
          TermLabel(st, termId))
  }

  /** The row built from the looked-up student and program and the term label. */
  function RowOf(log: ServiceLog, student: Option<Student>, program: Option<Program>, termLabel: string): ExportRow {
    ExportRow(if student.Some? then student.value.name else "Unknown",
              if student.Some? then student.value.email else "",
              if program.Some? then program.value.name else "Unknown",
              termLabel, log.date, log.hours, log.evidenceTier, log.status, log.description)
  }

  /** The store after `export_verified_logs`: one `export` event appended. */
  function Exported(st: Server, termId: string, now: string, eventId: string): (r: Server)
    ensures r.(auditEvents := st.auditEvents) == st
    ensures |r.auditEvents| == |st.auditEvents| + 1 && r.auditEvents[..|st.auditEvents|] == st.auditEvents
    ensures r.auditEvents[|st.auditEvents|].notes.ExportNote?
    ensures r.auditEvents[|st.auditEvents|].notes.records == |ConfirmedLogs(st, termId)|
  {
    st.(auditEvents := st.auditEvents + [AuditEvent(eventId, AdminId, UniversityAdmin, ExportEntity,
                                                    "verified-logs-" + termId, Export, now,
                                                    ExportNote(TermLabel(st, termId), |ConfirmedLogs(st, termId)|))])
  }

  /** The store after `export_audit_trail`: the exported rows are the audit
      list as it stood, and one `export` event on "audit-trail-<term>" is
      appended that counts them. */
  function ExportedAuditTrail(st: Server, termId: string, now: string, eventId: string): (r: Server)
    ensures r.(auditEvents := st.auditEvents) == st
    ensures |r.auditEvents| == |st.auditEvents| + 1 && r.auditEvents[..|st.auditEvents|] == st.auditEvents
    ensures r.auditEvents[|st.auditEvents|].notes.AuditTrailNote?
    ensures r.auditEvents[|st.auditEvents|].notes.events == |st.auditEvents|
  {
    st.(auditEvents := st.auditEvents + [AuditEvent(eventId, AdminId, UniversityAdmin, ExportEntity,
                                                    "audit-trail-" + termId, Export, now,
                                                    AuditTrailNote(TermLabel(st, termId), |st.auditEvents|))])
  }
}
