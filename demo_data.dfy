/** The records of the frontend's static demo store and the pure logic over
    them: the term's required hours, the per-student recompute engine, the
    term KPI record, the student detail view, the request queue filter, the
    request search across term queues and the three verification decisions.
    All hour quantities are integer tenths of an hour. */
module DemoData {
  import opened Wrappers
  import opened Seqs
  import opened Rounding

  datatype LogStatus = Pending | Confirmed | Rejected | Flagged
  datatype EvidenceTier = SelfReported | OrgConfirmed
  datatype ProgramKind = Campus | NgoPartner
  datatype RiskStatus = OnTrack | NeedsAttention | AtRisk

  /** `requiredHours` is None when the term record has no such field. */
  datatype Term = Term(termId: string, name: string, startDate: string, endDate: string,
                       requiredHours: Option<int>)

  datatype Settings = Settings(universityName: string, dashboardTitle: string)

  /** The fields a settings payload carries; None is a field left out. */
  datatype SettingsPatch = SettingsPatch(universityName: Option<string>, dashboardTitle: Option<string>)

  datatype Program = Program(programId: string, name: string, kind: ProgramKind, termId: string,
                             activeStudentsCount: int, icon: string)

  /** A student of one term. `verifiedHours`, `requiredHours`, `progress`,
      `riskStatus` and `riskScore` are derived by the recompute engine. */
  datatype Student = Student(studentId: string, name: string, email: string, avatar: string,
                             programIds: seq<string>, programNames: seq<string>,
                             verifiedHours: nat, requiredHours: int, progress: nat,
                             riskStatus: RiskStatus, riskScore: nat, lastActivity: string)

  /** A service log; `hours` is 0 when the source record has none. */
  datatype ServiceLog = ServiceLog(logId: string, studentId: string, studentName: string,
                                   studentEmail: string, programId: string, programName: string,
                                   date: string, hours: nat, description: string,
                                   evidenceTier: EvidenceTier, status: LogStatus, createdAt: string)

  /** A queued verification request: a snapshot of its log taken when the
      request was created, not a live view of it. */
  datatype VerificationRequest = VerificationRequest(
    requestId: string, logId: string, studentId: string, studentName: string,
    studentEmail: string, studentAvatar: string, programId: string, programName: string,
    status: string, hours: nat, logDate: string, evidenceTier: EvidenceTier,
    description: string, ngoName: string, createdAt: string)

  datatype KpiCard = KpiCard(value: int, delta: string)
  datatype TermKpis = TermKpis(verifiedHours: KpiCard, activeStudents: KpiCard,
                               activePrograms: KpiCard, retentionRate: KpiCard)

  /** The whole store. `requestTermOrder` lists the keys of `requestsByTerm`
      in the order a search visits them (the object's key order). */
  datatype Db = Db(settings: Settings, terms: seq<Term>,
                   kpisByTerm: map<string, TermKpis>,
                   programsByTerm: map<string, seq<Program>>,
                   studentsByTerm: map<string, seq<Student>>,
                   serviceLogsByTerm: map<string, seq<ServiceLog>>,
                   requestsByTerm: map<string, seq<VerificationRequest>>,
                   requestTermOrder: seq<string>)

  /** The invariant every store keeps: the search order visits every queue once. */
  predicate WellFormed(db: Db) {
    && (forall i, j :: 0 <= i < j < |db.requestTermOrder| ==>
          db.requestTermOrder[i] != db.requestTermOrder[j])
    && (forall t :: t in db.requestTermOrder ==> t in db.requestsByTerm)
    && (forall t :: t in db.requestsByTerm ==> t in db.requestTermOrder)
  }

  /** `m[k] || default`. */
  function Lookup<V>(m: map<string, V>, k: string, default: V): V {
    if k in m then m[k] else default
  }

  function TermKey(t: Term): string { t.termId }
  function StudentKey(s: Student): string { s.studentId }
  function LogKey(l: ServiceLog): string { l.logId }
  function RequestKey(r: VerificationRequest): string { r.requestId }

  // ---------------------------------------------------------------- hours

  /** Required hours when the term is unknown or its value is falsy: 20 hours. */
  const DefaultRequiredHours: int := 200

  /** `required_hours || 20` of the first term record with the given id. */
  function TermHours(terms: seq<Term>, termId: string): (r: int)
    ensures r != 0
    ensures (forall k :: 0 <= k < |terms| ==> terms[k].termId != termId) ==> r == DefaultRequiredHours
    ensures forall k :: 0 <= k < |terms| && terms[k].termId == termId &&
                        (forall j :: 0 <= j < k ==> terms[j].termId != termId) ==>
              r == (if terms[k].requiredHours.Some? && terms[k].requiredHours.value != 0
                    then terms[k].requiredHours.value else DefaultRequiredHours)
  {
    if |terms| == 0 then DefaultRequiredHours
    else if terms[0].termId == termId then
      (if terms[0].requiredHours.Some? && terms[0].requiredHours.value != 0
       then terms[0].requiredHours.value else DefaultRequiredHours)
    else TermHours(terms[1..], termId)
  }

  /** `reduce((sum, log) => sum + Number(log.hours || 0), 0)`. */
  function SumHours(logs: seq<ServiceLog>): nat {
    if |logs| == 0 then 0 else logs[0].hours + SumHours(logs[1..])
  }

  /** `filter((log) => log.student_id === studentId)`. */
  function LogsOfStudent(logs: seq<ServiceLog>, studentId: string): seq<ServiceLog> {
    Filter(logs, (l: ServiceLog) => l.studentId == studentId)
  }

  /** `filter((log) => log.status === status)`. */
  function WithStatus(logs: seq<ServiceLog>, status: LogStatus): seq<ServiceLog> {
    Filter(logs, (l: ServiceLog) => l.status == status)
  }

  /** The reference definition: the total hours of the logs of one student
      that have the given status. */
  function HoursWith(logs: seq<ServiceLog>, studentId: string, status: LogStatus): nat {
    if |logs| == 0 then 0
    else (if logs[0].studentId == studentId && logs[0].status == status then logs[0].hours else 0)
         + HoursWith(logs[1..], studentId, status)
  }

  /** The progress percentage: `Math.round(verified / required * 100)`, or 0
      when the required hours are not positive. */
  function Progress(verified: nat, required: int): (p: nat)
    ensures required > 0 ==> 2 * required * p <= 200 * verified + required < 2 * required * (p + 1)
    ensures required <= 0 ==> p == 0
  {
    if required > 0 then RoundHalfUp(100 * verified, required) else 0
  }

  datatype Risk = Risk(status: RiskStatus, score: nat)

  /** The risk tier of a progress percentage; each boundary belongs to the higher tier. */
  function RiskTier(progress: int): (r: Risk)
    ensures r.status == OnTrack <==> progress >= 50
    ensures r.status == NeedsAttention <==> 25 <= progress < 50
    ensures r.status == AtRisk <==> progress < 25
    ensures r.score == 0 <==> progress >= 75
    ensures r.score == 1 <==> 50 <= progress < 75
    ensures r.score == 2 <==> r.status == NeedsAttention
    ensures r.score == 3 <==> r.status == AtRisk
  {
    if progress >= 50 then Risk(OnTrack, if progress >= 75 then 0 else 1)
    else if progress >= 25 then Risk(NeedsAttention, 2)
    else Risk(AtRisk, 3)
  }

  // ---------------------------------------------------------------- recompute

  /** The body of the per-student loop of the recompute engine. */
  function Refresh(s: Student, logs: seq<ServiceLog>, required: int): Student {
    var verified := SumHours(WithStatus(LogsOfStudent(logs, s.studentId), Confirmed));
    var progress := Progress(verified, required);
    var risk := RiskTier(progress);
    s.(verifiedHours := verified, requiredHours := required, progress := progress,
       riskStatus := risk.status, riskScore := risk.score)
  }

  function RefreshAll(students: seq<Student>, logs: seq<ServiceLog>, required: int): (r: seq<Student>)
    ensures |r| == |students|
  {
    seq(|students|, k requires 0 <= k < |students| => Refresh(students[k], logs, required))
  }

  /** `students.reduce((sum, s) => sum + Number(s.verified_hours || 0), 0)`. */
  function TotalVerified(students: seq<Student>): nat {
    if |students| == 0 then 0 else students[0].verifiedHours + TotalVerified(students[1..])
  }

  /** `students.filter((s) => s.progress >= 50).length`. */
  function CountRetained(students: seq<Student>): (n: nat)
    ensures n <= |students|
  {
    if |students| == 0 then 0
    else (if students[0].progress >= 50 then 1 else 0) + CountRetained(students[1..])
  }

  const DemoDelta: string := "Demo data"

  /** The KPI record built from a term's refreshed students. */
  function BuildKpis(students: seq<Student>, programCount: nat): TermKpis {
    TermKpis(
      KpiCard(TotalVerified(students), DemoDelta),
      KpiCard(|students|, DemoDelta),
      KpiCard(programCount, DemoDelta),
      KpiCard(if |students| > 0 then RoundHalfUp(100 * CountRetained(students), |students|) else 0,
              DemoDelta))
  }

  /** `updateStudentProgressForTerm(termId)` as a function of the store:
      the term's students are refreshed from its logs (when the term has a
      student list) and its KPI record is rebuilt (always). Nothing else changes. */
  function Recompute(db: Db, termId: string): (r: Db)
    ensures r.settings == db.settings && r.terms == db.terms
    ensures r.programsByTerm == db.programsByTerm && r.serviceLogsByTerm == db.serviceLogsByTerm
    ensures r.requestsByTerm == db.requestsByTerm && r.requestTermOrder == db.requestTermOrder
    ensures r.studentsByTerm.Keys == db.studentsByTerm.Keys
    ensures forall u :: u in db.studentsByTerm && u != termId ==> r.studentsByTerm[u] == db.studentsByTerm[u]
    ensures r.kpisByTerm.Keys == db.kpisByTerm.Keys + {termId}
    ensures forall u :: u in db.kpisByTerm && u != termId ==> r.kpisByTerm[u] == db.kpisByTerm[u]
  {
    var required := TermHours(db.terms, termId);
    var refreshed := RefreshAll(Lookup(db.studentsByTerm, termId, []),
                                Lookup(db.serviceLogsByTerm, termId, []), required);
    db.(studentsByTerm := if termId in db.studentsByTerm
                          then db.studentsByTerm[termId := refreshed] else db.studentsByTerm,
        kpisByTerm := db.kpisByTerm[termId := BuildKpis(refreshed, |Lookup(db.programsByTerm, termId, [])|)])
  }

  // ---------------------------------------------------------------- queries

  datatype StudentDetail = StudentDetail(student: Student, logs: seq<ServiceLog>, pendingHours: nat)

  /** `buildStudentDetail(studentId, termId)`: the first student of the term
      with that id, that student's logs and the hours still pending. */
  function BuildStudentDetail(db: Db, studentId: string, termId: string): (r: Option<StudentDetail>)
    ensures var students := Lookup(db.studentsByTerm, termId, []);
            r.None? <==> forall k :: 0 <= k < |students| ==> students[k].studentId != studentId
    ensures var students := Lookup(db.studentsByTerm, termId, []);
            r.Some? ==> exists k :: 0 <= k < |students| && r.value.student == students[k] &&
                          students[k].studentId == studentId &&
                          forall j :: 0 <= j < k ==> students[j].studentId != studentId
  {
    var students := Lookup(db.studentsByTerm, termId, []);
    match FindFirst(students, StudentKey, studentId)
    case None => None
    case Some(k) =>
      var logs := LogsOfStudent(Lookup(db.serviceLogsByTerm, termId, []), studentId);
      Some(StudentDetail(students[k], logs, SumHours(WithStatus(logs, Pending))))
  }

  /** `filter((request) => request.status === status)`. */
  function RequestsWithStatus(q: seq<VerificationRequest>, status: string): seq<VerificationRequest> {
    Filter(q, (x: VerificationRequest) => x.status == status)
  }

  /** The static branch of `getVerificationRequests(termId, status)`; the
      empty status string stands for a missing (falsy) filter. */
  function VerificationRequests(db: Db, termId: string, status: string): (r: seq<VerificationRequest>)
    ensures var q := Lookup(db.requestsByTerm, termId, []);
            forall x :: multiset(r)[x] == (if status == "" || x.status == status then multiset(q)[x] else 0)
    ensures var q := Lookup(db.requestsByTerm, termId, []);
            && Subsequence(r, q)
            && (status == "" ==> r == q)
  {
    var q := Lookup(db.requestsByTerm, termId, []);
    if status == "" then
      SubsequenceRefl(q);
      q
    else
      FilterContents(q, (x: VerificationRequest) => x.status == status);
      FilterSubsequence(q, (x: VerificationRequest) => x.status == status);
      RequestsWithStatus(q, status)
  }

  // ---------------------------------------------------------------- request search

  /** Where a request was found: its term, its index in that term's queue
      and the request itself. */
  datatype Found = Found(termId: string, index: nat, request: VerificationRequest)

  /** The search of `getRequestById` over the queues in the order `order`. */
  function FindInQueues(order: seq<string>, queues: map<string, seq<VerificationRequest>>,
                        requestId: string): (r: Option<Found>)
    ensures r.Some? ==> r.value.termId in order && r.value.termId in queues &&
                        r.value.index < |queues[r.value.termId]| &&
                        queues[r.value.termId][r.value.index] == r.value.request &&
                        r.value.request.requestId == requestId
    ensures r.Some? ==> forall j :: 0 <= j < r.value.index ==>
                          queues[r.value.termId][j].requestId != requestId
    ensures r.Some? ==> exists p :: 0 <= p < |order| && order[p] == r.value.termId &&
                          forall k :: 0 <= k < p ==>
                            forall x :: x in Lookup(queues, order[k], []) ==> x.requestId != requestId
    ensures r.None? <==> forall k :: 0 <= k < |order| ==>
                           forall x :: x in Lookup(queues, order[k], []) ==> x.requestId != requestId
  {
    if |order| == 0 then None
    else
      var q := Lookup(queues, order[0], []);
      match FindFirst(q, RequestKey, requestId)
      case Some(i) => Some(Found(order[0], i, q[i]))
      case None =>
        var rest := FindInQueues(order[1..], queues, requestId);
        SearchStep(order, queues, requestId, rest);
        rest
  }

  /** A search that misses the first queue finds what the search of the
      remaining queues finds, and the properties of that result carry over. */
  lemma SearchStep(order: seq<string>, queues: map<string, seq<VerificationRequest>>, requestId: string,
                   rest: Option<Found>)
    requires |order| > 0 && FindFirst(Lookup(queues, order[0], []), RequestKey, requestId).None?
    requires rest.Some? ==> exists p :: 0 <= p < |order[1..]| && order[1..][p] == rest.value.termId &&
                              forall k :: 0 <= k < p ==>
                                forall x :: x in Lookup(queues, order[1..][k], []) ==> x.requestId != requestId
    requires rest.None? <==> forall k :: 0 <= k < |order[1..]| ==>
                               forall x :: x in Lookup(queues, order[1..][k], []) ==> x.requestId != requestId
    ensures rest.Some? ==> exists p :: 0 <= p < |order| && order[p] == rest.value.termId &&
                             forall k :: 0 <= k < p ==>
                               forall x :: x in Lookup(queues, order[k], []) ==> x.requestId != requestId
    ensures rest.None? <==> forall k :: 0 <= k < |order| ==>
                              forall x :: x in Lookup(queues, order[k], []) ==> x.requestId != requestId
  {
    var q := Lookup(queues, order[0], []);
    assert forall x :: x in q ==> x.requestId != requestId by {
      forall x | x in q ensures x.requestId != requestId {
        var j :| 0 <= j < |q| && q[j] == x;
      }
    }
    if rest.Some? {
      var p' :| 0 <= p' < |order[1..]| && order[1..][p'] == rest.value.termId &&
                forall k :: 0 <= k < p' ==>
                  forall x :: x in Lookup(queues, order[1..][k], []) ==> x.requestId != requestId;
      assert order[p' + 1] == rest.value.termId;
      forall k | 0 <= k < p' + 1
        ensures forall x :: x in Lookup(queues, order[k], []) ==> x.requestId != requestId
      {
        if k > 0 { assert order[k] == order[1..][k - 1]; }
      }
    } else {
      forall k | 0 <= k < |order|
        ensures forall x :: x in Lookup(queues, order[k], []) ==> x.requestId != requestId
      {
        if k > 0 { assert order[k] == order[1..][k - 1]; }
      }
    }
  }

  function FindRequest(db: Db, requestId: string): Option<Found> {
    FindInQueues(db.requestTermOrder, db.requestsByTerm, requestId)
  }

  // ---------------------------------------------------------------- decisions

  /** The three decisions; the reason of reject and flag is "" when absent. */
  datatype Decision = ConfirmDecision | RejectDecision(reason: string) | FlagDecision(reason: string)

  /** The log after a decision: its new status, and for a flag with a
      non-empty reason the reason as its description. */
  function Decide(log: ServiceLog, d: Decision): (r: ServiceLog)
    ensures r.logId == log.logId && r.studentId == log.studentId && r.hours == log.hours
    ensures r.status == (match d
                         case ConfirmDecision => Confirmed
                         case RejectDecision(_) => Rejected
                         case FlagDecision(_) => Flagged)
    ensures r.description == (if d.FlagDecision? && d.reason != "" then d.reason else log.description)
    ensures r.(status := log.status, description := log.description) == log
  {
    match d
    case ConfirmDecision => log.(status := Confirmed)
    case RejectDecision(_) => log.(status := Rejected)
    case FlagDecision(reason) => log.(status := Flagged, description := if reason != "" then reason else log.description)
  }

  /** `logs.find((item) => item.log_id === logId)` followed by the decision's assignments. */
  function MarkLog(logs: seq<ServiceLog>, logId: string, d: Decision): (r: seq<ServiceLog>)
    ensures |r| == |logs|
  {
    match FindFirst(logs, LogKey, logId)
    case None => logs
    case Some(j) => logs[j := Decide(logs[j], d)]
  }

  /** The request is spliced out of its queue and its log (if the term has
      it) takes the decision. */
  function Apply(db: Db, f: Found, d: Decision): (r: Db)
    requires f.termId in db.requestsByTerm && f.index < |db.requestsByTerm[f.termId]|
    ensures r.settings == db.settings && r.terms == db.terms && r.programsByTerm == db.programsByTerm
    ensures r.studentsByTerm == db.studentsByTerm && r.kpisByTerm == db.kpisByTerm
    ensures r.requestTermOrder == db.requestTermOrder
    ensures r.requestsByTerm.Keys == db.requestsByTerm.Keys && r.serviceLogsByTerm.Keys == db.serviceLogsByTerm.Keys
    ensures |r.requestsByTerm[f.termId]| == |db.requestsByTerm[f.termId]| - 1
    ensures forall u :: u in db.requestsByTerm && u != f.termId ==> r.requestsByTerm[u] == db.requestsByTerm[u]
    ensures forall u :: u in db.serviceLogsByTerm && u != f.termId ==> r.serviceLogsByTerm[u] == db.serviceLogsByTerm[u]
    ensures f.termId in db.serviceLogsByTerm ==> |r.serviceLogsByTerm[f.termId]| == |db.serviceLogsByTerm[f.termId]|
  {
    db.(requestsByTerm := db.requestsByTerm[f.termId := RemoveAt(db.requestsByTerm[f.termId], f.index)],
        serviceLogsByTerm := if f.termId in db.serviceLogsByTerm
                             then db.serviceLogsByTerm[f.termId := MarkLog(db.serviceLogsByTerm[f.termId], f.request.logId, d)]
                             else db.serviceLogsByTerm)
  }

  /** Confirm, reject or flag the request with the given id: an unknown id
      changes nothing; otherwise the request is resolved and its term recomputed. */
  function Resolve(db: Db, requestId: string, d: Decision): (r: Db)
    ensures r.settings == db.settings && r.terms == db.terms && r.programsByTerm == db.programsByTerm
    ensures r.requestTermOrder == db.requestTermOrder && r.studentsByTerm.Keys == db.studentsByTerm.Keys
    ensures r.requestsByTerm.Keys == db.requestsByTerm.Keys && r.serviceLogsByTerm.Keys == db.serviceLogsByTerm.Keys
    ensures FindRequest(db, requestId).None? ==> r == db
    ensures FindRequest(db, requestId).Some? ==>
              var t := FindRequest(db, requestId).value.termId;
              |r.requestsByTerm[t]| + 1 == |db.requestsByTerm[t]|
  {
    match FindRequest(db, requestId)
    case None => db
    case Some(f) => Recompute(Apply(db, f, d), f.termId)
  }

  /** `hours_added` of a confirmation: the request snapshot's hours, 0 when unknown. */
  function HoursAdded(db: Db, requestId: string): (r: nat)
    ensures r > 0 ==> exists t, k :: t in db.requestsByTerm && 0 <= k < |db.requestsByTerm[t]| &&
                                     db.requestsByTerm[t][k].requestId == requestId && db.requestsByTerm[t][k].hours == r
    ensures (forall t :: t in db.requestsByTerm ==>
               forall x :: x in db.requestsByTerm[t] ==> x.requestId != requestId) ==> r == 0
    ensures FindRequest(db, requestId).Some? ==> r == FindRequest(db, requestId).value.request.hours
  {
    match FindRequest(db, requestId)
    case None => 0
    case Some(f) => f.request.hours
  }

  // ---------------------------------------------------------------- settings

  /** `{...settings, ...payload, dashboard_title: payload.dashboard_title || settings.dashboard_title}`. */
  function MergeSettings(s: Settings, p: SettingsPatch): (r: Settings)
    ensures r.universityName == (if p.universityName.Some? then p.universityName.value else s.universityName)
    ensures r.dashboardTitle == (if p.dashboardTitle.Some? && p.dashboardTitle.value != ""
                                 then p.dashboardTitle.value else s.dashboardTitle)
  {
    Settings(p.universityName.GetOr(s.universityName),
             if p.dashboardTitle.Some? && p.dashboardTitle.value != "" then p.dashboardTitle.value
             else s.dashboardTitle)
  }
}
