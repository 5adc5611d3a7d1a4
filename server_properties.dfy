/** Properties of the backend model: what the verification actions change
    and leave alone, their error paths, the audit list, the KPIs and the
    queries. */
module ServerProperties {
  import opened Wrappers
  import opened Seqs
  import opened ServerData

  // ---------------------------------------------------------------- verification actions

  /** An unknown request id and a request whose log is missing are the two
      404s, in that order; with both present the action succeeds. */
  lemma ActFailures(st: Server, requestId: string, a: Action, now: string, eventId: string)
    requires Valid(st)
    ensures (forall i :: 0 <= i < |st.verificationRequests| ==> st.verificationRequests[i].requestId != requestId)
            ==> Act(st, requestId, a, now, eventId) == Failure(HttpError(404, "Verification request not found"))
    ensures forall i :: 0 <= i < |st.verificationRequests| && st.verificationRequests[i].requestId == requestId ==>
              var logId := st.verificationRequests[i].logId;
              && ((forall j :: 0 <= j < |st.serviceLogs| ==> st.serviceLogs[j].logId != logId)
                  ==> Act(st, requestId, a, now, eventId) == Failure(HttpError(404, "Associated service log not found")))
              && ((exists j :: 0 <= j < |st.serviceLogs| && st.serviceLogs[j].logId == logId)
                  ==> Act(st, requestId, a, now, eventId).Success?)
  {
    forall i | 0 <= i < |st.verificationRequests| && st.verificationRequests[i].requestId == requestId
      ensures Get(st.verificationRequests, RequestKey, requestId) == Some(st.verificationRequests[i])
    {
      FindFirstUnique(st.verificationRequests, RequestKey, i);
    }
  }

  /** A successful action, index by index: the request's log is rewritten at
      its place, the request too unless the action is a flag, and the audit
      list gains the action's event. Terms, programs, students and settings
      are untouched. */
  lemma ActSuccess(st: Server, requestId: string, a: Action, now: string, eventId: string, i: nat, j: nat)
    requires Valid(st)
    requires i < |st.verificationRequests| && st.verificationRequests[i].requestId == requestId
    requires j < |st.serviceLogs| && st.serviceLogs[j].logId == st.verificationRequests[i].logId
    ensures var vr := st.verificationRequests[i];
            var log' := ActedLog(st.serviceLogs[j], a, now);
            Act(st, requestId, a, now, eventId) ==
              Success(st.(serviceLogs := st.serviceLogs[j := log'],
                          verificationRequests := if a.FlagAction? then st.verificationRequests
                                                  else st.verificationRequests[i := ActedRequest(vr, a)],
                          auditEvents := st.auditEvents + [ActionEvent(vr, log', a, now, eventId)]))
  {
    FindFirstUnique(st.verificationRequests, RequestKey, i);
    FindFirstUnique(st.serviceLogs, LogKey, j);
  }

  /** The statuses a successful action leaves: confirm makes the log
      confirmed and org-confirmed and the request confirmed; reject makes
      both rejected and keeps the log's evidence tier; flag makes the log
      flagged and leaves the request as it was. */
  lemma ActOutcome(st: Server, requestId: string, a: Action, now: string, eventId: string, i: nat, j: nat)
    requires Valid(st)
    requires i < |st.verificationRequests| && st.verificationRequests[i].requestId == requestId
    requires j < |st.serviceLogs| && st.serviceLogs[j].logId == st.verificationRequests[i].logId
    ensures var st' := Act(st, requestId, a, now, eventId).value;
            var log := st.serviceLogs[j];
            var log' := st'.serviceLogs[j];
            var vr := st.verificationRequests[i];
            var vr' := st'.verificationRequests[i];
            && log'.logId == log.logId && log'.hours == log.hours && log'.updatedAt == now
            && log'.studentId == log.studentId && log'.programId == log.programId
            && (a.ConfirmAction? ==> && log'.status == LogStatus.Confirmed && log'.evidenceTier == OrgConfirmed
                                     && vr'.status == VerificationStatus.Confirmed)
            && (a.RejectAction? ==> && log'.status == LogStatus.Rejected && log'.evidenceTier == log.evidenceTier
                                    && vr'.status == VerificationStatus.Rejected)
            && (a.FlagAction? ==> && log'.status == LogStatus.Flagged && log'.evidenceTier == log.evidenceTier
                                  && vr' == vr)
            && vr'.requestId == vr.requestId && vr'.logId == vr.logId
  {
    ActSuccess(st, requestId, a, now, eventId, i, j);
  }

  /** Every other log and request is untouched by a successful action. */
  lemma ActFrame(st: Server, requestId: string, a: Action, now: string, eventId: string, i: nat, j: nat)
    requires Valid(st)
    requires i < |st.verificationRequests| && st.verificationRequests[i].requestId == requestId
    requires j < |st.serviceLogs| && st.serviceLogs[j].logId == st.verificationRequests[i].logId
    ensures var st' := Act(st, requestId, a, now, eventId).value;
            && |st'.serviceLogs| == |st.serviceLogs|
            && |st'.verificationRequests| == |st.verificationRequests|
            && (forall k :: 0 <= k < |st.serviceLogs| && k != j ==> st'.serviceLogs[k] == st.serviceLogs[k])
            && (forall k :: 0 <= k < |st.verificationRequests| && k != i ==>
                  st'.verificationRequests[k] == st.verificationRequests[k])
            && st'.terms == st.terms && st'.programs == st.programs && st'.students == st.students
            && st'.settings == st.settings
  {
    ActSuccess(st, requestId, a, now, eventId, i, j);
  }

  /** Actions keep each dictionary's keys distinct. */
  lemma ActKeepsValid(st: Server, requestId: string, a: Action, now: string, eventId: string)
    requires Valid(st)
    ensures Act(st, requestId, a, now, eventId).Success? ==> Valid(Act(st, requestId, a, now, eventId).value)
  {
    match Get(st.verificationRequests, RequestKey, requestId)
    case None =>
    case Some(vr) =>
      match Get(st.serviceLogs, LogKey, vr.logId)
      case None =>
      case Some(log) =>
        PutKeepsDistinct(st.serviceLogs, LogKey, ActedLog(log, a, now));
        PutKeepsDistinct(st.verificationRequests, RequestKey, ActedRequest(vr, a));
  }

  /** The confirmed request is not deleted: confirming it again succeeds
      and leaves the log and the request confirmed. */
  lemma ConfirmAgain(st: Server, requestId: string, now: string, eventId: string, now2: string, eventId2: string)
    requires Valid(st)
    requires Act(st, requestId, ConfirmAction, now, eventId).Success?
    ensures var once := Act(st, requestId, ConfirmAction, now, eventId).value;
            var twice := Act(once, requestId, ConfirmAction, now2, eventId2);
            && twice.Success?
            && |twice.value.auditEvents| == |st.auditEvents| + 2
            && twice.value.verificationRequests == once.verificationRequests
  {
    var vr := Get(st.verificationRequests, RequestKey, requestId).value;
    var log := Get(st.serviceLogs, LogKey, vr.logId).value;
    var i := FindFirst(st.verificationRequests, RequestKey, requestId).value;
    var j := FindFirst(st.serviceLogs, LogKey, vr.logId).value;
    ActSuccess(st, requestId, ConfirmAction, now, eventId, i, j);
    ActKeepsValid(st, requestId, ConfirmAction, now, eventId);
    var once := Act(st, requestId, ConfirmAction, now, eventId).value;
    ActSuccess(once, requestId, ConfirmAction, now2, eventId2, i, j);
    assert once.verificationRequests[i] == vr.(status := VerificationStatus.Confirmed);
    assert once.verificationRequests[i := ActedRequest(once.verificationRequests[i], ConfirmAction)]
           == once.verificationRequests;
  }

  // ---------------------------------------------------------------- the audit list

  /** Every successful action, every settings update and every export adds
      exactly one event at the end and keeps the earlier ones. */
  lemma AuditGrowsByOne(st: Server, requestId: string, a: Action, name: string, termId: string,
                        now: string, eventId: string)
    requires Valid(st)
    ensures var r := Act(st, requestId, a, now, eventId);
            r.Success? ==> && |r.value.auditEvents| == |st.auditEvents| + 1
                           && r.value.auditEvents[..|st.auditEvents|] == st.auditEvents
                           && r.value.auditEvents[|st.auditEvents|].eventId == eventId
                           && r.value.auditEvents[|st.auditEvents|].entityId == requestId
                           && r.value.auditEvents[|st.auditEvents|].entityType == VerificationRequestEntity
                           && r.value.auditEvents[|st.auditEvents|].actorId == AdminId
                           && r.value.auditEvents[|st.auditEvents|].action
                                == (match a
                                    case ConfirmAction => Confirm
                                    case RejectAction(_) => Reject
                                    case FlagAction(_) => Flag)
    ensures var u := UpdateSettings(st, name, now, eventId);
            && |u.auditEvents| == |st.auditEvents| + 1 && u.auditEvents[..|st.auditEvents|] == st.auditEvents
            && u.auditEvents[|st.auditEvents|].action == Edit && u.auditEvents[|st.auditEvents|].entityId == "settings"
            && u.auditEvents[|st.auditEvents|].entityType == ServiceLogEntity
    ensures var x := Exported(st, termId, now, eventId);
            && |x.auditEvents| == |st.auditEvents| + 1 && x.auditEvents[..|st.auditEvents|] == st.auditEvents
            && x.auditEvents[|st.auditEvents|].action == Export
            && x.auditEvents[|st.auditEvents|].entityType == ExportEntity
            && x.auditEvents[|st.auditEvents|].entityId == "verified-logs-" + termId
    ensures var y := ExportedAuditTrail(st, termId, now, eventId);
            && |y.auditEvents| == |st.auditEvents| + 1 && y.auditEvents[..|st.auditEvents|] == st.auditEvents
            && y.auditEvents[|st.auditEvents|].action == Export
            && y.auditEvents[|st.auditEvents|].entityType == ExportEntity
            && y.auditEvents[|st.auditEvents|].entityId == "audit-trail-" + termId
  {
    match Get(st.verificationRequests, RequestKey, requestId)
    case None =>
    case Some(vr) =>
      var i := FindFirst(st.verificationRequests, RequestKey, requestId).value;
      match Get(st.serviceLogs, LogKey, vr.logId)
      case None =>
      case Some(log) =>
        var j := FindFirst(st.serviceLogs, LogKey, vr.logId).value;
        ActSuccess(st, requestId, a, now, eventId, i, j);
  }

  // ---------------------------------------------------------------- KPIs

  /** A log's share of the confirmed hours of a term with program ids `ids`. */
  function Share(l: ServiceLog, ids: seq<string>): nat {
    if l.programId in ids && l.status == LogStatus.Confirmed then l.hours else 0
  }

  /** The reference sum: each log's share, in one pass. */
  function ConfirmedTenths(logs: seq<ServiceLog>, ids: seq<string>): nat {
    if |logs| == 0 then 0 else Share(logs[0], ids) + ConfirmedTenths(logs[1..], ids)
  }

  lemma {:induction false} FilteredSumIsConfirmedTenths(logs: seq<ServiceLog>, ids: seq<string>)
    ensures SumHours(Filter(logs, ConfirmedIn(ids))) == ConfirmedTenths(logs, ids)
  {
    if |logs| > 0 {
      var rest := Filter(logs[1..], ConfirmedIn(ids));
      FilteredSumIsConfirmedTenths(logs[1..], ids);
      if ConfirmedIn(ids)(logs[0]) {
        assert Filter(logs, ConfirmedIn(ids)) == [logs[0]] + rest;
        assert ([logs[0]] + rest)[1..] == rest;
      } else {
        assert Filter(logs, ConfirmedIn(ids)) == rest;
      }
    }
  }

  /** The confirmed hours of a term, as the one-pass reference sum. */
  lemma ConfirmedHoursOfTerm(st: Server, termId: string)
    ensures SumHours(ConfirmedLogs(st, termId)) == ConfirmedTenths(st.serviceLogs, TermProgramIds(st.programs, termId))
  {
    FilteredSumIsConfirmedTenths(st.serviceLogs, TermProgramIds(st.programs, termId));
  }

  /** Replacing one log moves the sum by the difference of the two shares. */
  lemma {:induction false} ConfirmedTenthsUpdate(logs: seq<ServiceLog>, ids: seq<string>, j: nat, l: ServiceLog)
    requires j < |logs|
    ensures ConfirmedTenths(logs[j := l], ids) + Share(logs[j], ids) == ConfirmedTenths(logs, ids) + Share(l, ids)
  {
    if j == 0 {
      assert logs[j := l][1..] == logs[1..];
    } else {
      ConfirmedTenthsUpdate(logs[1..], ids, j - 1, l);
      assert logs[j := l][1..] == logs[1..][j - 1 := l];
    }
  }

  /** KPI conservation: an action moves a term's confirmed hours by exactly
      the change in the acted-on log's share. A confirmation of a log of
      the term that was not yet confirmed adds its hours; one of a log of
      another term leaves the sum alone. */
  lemma ActConfirmedHours(st: Server, requestId: string, a: Action, now: string, eventId: string,
                          termId: string, j: nat)
    requires Valid(st) && Act(st, requestId, a, now, eventId).Success?
    requires j < |st.serviceLogs|
    requires st.serviceLogs[j].logId == Get(st.verificationRequests, RequestKey, requestId).value.logId
    ensures var st' := Act(st, requestId, a, now, eventId).value;
            var ids := TermProgramIds(st.programs, termId);
            SumHours(ConfirmedLogs(st', termId)) + Share(st.serviceLogs[j], ids)
            == SumHours(ConfirmedLogs(st, termId)) + Share(ActedLog(st.serviceLogs[j], a, now), ids)
    ensures var st' := Act(st, requestId, a, now, eventId).value;
            var log := st.serviceLogs[j];
            a.ConfirmAction? && log.status != LogStatus.Confirmed && log.programId in TermProgramIds(st.programs, termId)
            ==> SumHours(ConfirmedLogs(st', termId)) == SumHours(ConfirmedLogs(st, termId)) + log.hours
  {
    var i := FindFirst(st.verificationRequests, RequestKey, requestId).value;
    ActSuccess(st, requestId, a, now, eventId, i, j);
    var st' := Act(st, requestId, a, now, eventId).value;
    var ids := TermProgramIds(st.programs, termId);
    ConfirmedHoursOfTerm(st, termId);
    ConfirmedHoursOfTerm(st', termId);
    ConfirmedTenthsUpdate(st.serviceLogs, ids, j, ActedLog(st.serviceLogs[j], a, now));
  }

  /** No more distinct active students than confirmed logs, and none exactly
      when there is no confirmed log. */
  lemma {:induction false} StudentIdsBound(logs: seq<ServiceLog>)
    ensures |StudentIds(logs)| <= |logs|
    ensures |StudentIds(logs)| == 0 <==> |logs| == 0
  {
    if |logs| > 0 {
      StudentIdsBound(logs[1..]);
      StudentIdsCons(logs);
    }
  }

  lemma StudentIdsCons(logs: seq<ServiceLog>)
    requires |logs| > 0
    ensures StudentIds(logs) == {logs[0].studentId} + StudentIds(logs[1..])
  {
    assert logs == [logs[0]] + logs[1..];
  }

  /** A student counts as active in a term exactly when one of its confirmed
      logs belongs to a program of that term. */
  lemma ActiveStudentIds(st: Server, termId: string)
    ensures forall id :: id in StudentIds(ConfirmedLogs(st, termId)) <==>
                         exists l :: l in st.serviceLogs && l.studentId == id && l.status == LogStatus.Confirmed
                                     && l.programId in TermProgramIds(st.programs, termId)
  {
    FilterContents(st.serviceLogs, ConfirmedIn(TermProgramIds(st.programs, termId)));
  }

  /** The KPI report's active students never exceed the offset plus the
      number of confirmed logs of the term. */
  lemma KpiStudentsBound(st: Server, termId: string)
    ensures var k := GetKpis(st, termId);
            var n := |ConfirmedLogs(st, termId)|;
            && (termId == "spring-2026" ==> 1134 <= k.activeStudents.value <= 1134 + n)
            && (termId == "fall-2025" ==> 945 <= k.activeStudents.value <= 945 + n)
            && (termId != "spring-2026" && termId != "fall-2025" ==>
                  (k.activeStudents.value == 0 <==> n == 0) && k.activeStudents.value <= n)
  {
    StudentIdsBound(ConfirmedLogs(st, termId));
  }

  /** The KPI report depends on the programs and the logs only. */
  lemma KpisDependOnData(st1: Server, st2: Server, t: string)
    requires st1.programs == st2.programs && st1.serviceLogs == st2.serviceLogs
    ensures GetKpis(st1, t) == GetKpis(st2, t)
  {
    assert ConfirmedLogs(st1, t) == ConfirmedLogs(st2, t);
  }

  /** Settings updates and exports leave every term's KPI report as it was. */
  lemma KpisIgnoreAudit(st: Server, name: string, termId: string, t: string, now: string, eventId: string)
    ensures GetKpis(UpdateSettings(st, name, now, eventId), t) == GetKpis(st, t)
    ensures GetKpis(Exported(st, termId, now, eventId), t) == GetKpis(st, t)
    ensures GetKpis(ExportedAuditTrail(st, termId, now, eventId), t) == GetKpis(st, t)
  {
    KpisDependOnData(UpdateSettings(st, name, now, eventId), st, t);
    KpisDependOnData(Exported(st, termId, now, eventId), st, t);
    KpisDependOnData(ExportedAuditTrail(st, termId, now, eventId), st, t);
  }

  // ---------------------------------------------------------------- queries

  /** The term's program ids are the ids of exactly the programs of that term. */
  lemma {:induction false} TermProgramIdsContents(programs: seq<Program>, termId: string)
    ensures forall id :: id in TermProgramIds(programs, termId) <==>
                           exists p :: p in programs && p.termId == termId && p.programId == id
  {
    if |programs| > 0 {
      TermProgramIdsContents(programs[1..], termId);
      assert programs == [programs[0]] + programs[1..];
    }
  }

  /** `get_programs` keeps dictionary order and returns exactly the
      programs of the term when one is given, all of them otherwise. */
  lemma ProgramsContents(st: Server, termId: Option<string>)
    ensures var r := GetPrograms(st, termId);
            forall p :: p in r <==> p in st.programs && (Given(termId) ==> p.termId == termId.value)
    ensures var r := GetPrograms(st, termId);
            forall p :: multiset(r)[p] == (if !Given(termId) || p.termId == termId.value then multiset(st.programs)[p] else 0)
    ensures Subsequence(GetPrograms(st, termId), st.programs)
    ensures !Given(termId) ==> GetPrograms(st, termId) == st.programs
  {
    if Given(termId) {
      FilterContents(st.programs, (p: Program) => p.termId == termId.value);
      FilterSubsequence(st.programs, (p: Program) => p.termId == termId.value);
    } else {
      SubsequenceRefl(st.programs);
    }
  }

  /** `get_service_logs` returns exactly the stored logs that pass both
      filters, in dictionary order and each as often as it is stored. */
  lemma ServiceLogsContents(st: Server, termId: Option<string>, status: Option<LogStatus>)
    ensures var r := GetServiceLogs(st, termId, status);
            forall l :: l in r <==> l in st.serviceLogs && LogSelected(st, termId, status, l)
    ensures var r := GetServiceLogs(st, termId, status);
            forall l :: multiset(r)[l] == if LogSelected(st, termId, status, l) then multiset(st.serviceLogs)[l] else 0
    ensures Subsequence(GetServiceLogs(st, termId, status), st.serviceLogs)
  {
    ServiceLogsCounted(st, termId, status);
    ServiceLogsOrder(st, termId, status);
  }

  /** Membership and multiplicity of the selection. */
  lemma ServiceLogsCounted(st: Server, termId: Option<string>, status: Option<LogStatus>)
    ensures var r := GetServiceLogs(st, termId, status);
            forall l :: l in r <==> l in st.serviceLogs && LogSelected(st, termId, status, l)
    ensures var r := GetServiceLogs(st, termId, status);
            forall l :: multiset(r)[l] == if LogSelected(st, termId, status, l) then multiset(st.serviceLogs)[l] else 0
  {
    var byTerm := st.serviceLogs;
    if Given(termId) {
      var p := (l: ServiceLog) => l.programId in TermProgramIds(st.programs, termId.value);
      FilterContents(st.serviceLogs, p);
      byTerm := Filter(st.serviceLogs, p);
    }
    if status.Some? {
      FilterContents(byTerm, (l: ServiceLog) => l.status == status.value);
    }
  }

  /** The selection keeps dictionary order. */
  lemma ServiceLogsOrder(st: Server, termId: Option<string>, status: Option<LogStatus>)
    ensures Subsequence(GetServiceLogs(st, termId, status), st.serviceLogs)
  {
    var selected := (l: ServiceLog) => LogSelected(st, termId, status, l);
    FilterSubsequence(st.serviceLogs, selected);
    if Given(termId) && status.Some? {
      FilterTwice(st.serviceLogs, (l: ServiceLog) => l.programId in TermProgramIds(st.programs, termId.value),
                  (l: ServiceLog) => l.status == status.value, selected);
    } else if Given(termId) {
      FilterSame(st.serviceLogs, (l: ServiceLog) => l.programId in TermProgramIds(st.programs, termId.value), selected);
    } else if status.Some? {
      FilterSame(st.serviceLogs, (l: ServiceLog) => l.status == status.value, selected);
    } else {
      SubsequenceRefl(st.serviceLogs);
    }
  }

  /** The requests `get_verification_requests` enriches are exactly the
      stored requests that pass both filters, in dictionary order. */
  lemma RequestsContents(st: Server, termId: Option<string>, status: Option<VerificationStatus>)
    ensures var r := SelectRequests(st, termId, status);
            forall x :: x in r <==> x in st.verificationRequests && RequestSelected(st, termId, status, x)
    ensures var r := SelectRequests(st, termId, status);
            forall x :: multiset(r)[x] ==
                          if RequestSelected(st, termId, status, x) then multiset(st.verificationRequests)[x] else 0
    ensures Subsequence(SelectRequests(st, termId, status), st.verificationRequests)
  {
    RequestsCounted(st, termId, status);
    RequestsOrder(st, termId, status);
  }

  /** Membership and multiplicity of the selection. */
  lemma RequestsCounted(st: Server, termId: Option<string>, status: Option<VerificationStatus>)
    ensures var r := SelectRequests(st, termId, status);
            forall x :: x in r <==> x in st.verificationRequests && RequestSelected(st, termId, status, x)
    ensures var r := SelectRequests(st, termId, status);
            forall x :: multiset(r)[x] ==
                          if RequestSelected(st, termId, status, x) then multiset(st.verificationRequests)[x] else 0
  {
    var byTerm := st.verificationRequests;
    if Given(termId) {
      var p := (x: VerificationRequest) => x.programId in TermProgramIds(st.programs, termId.value);
      FilterContents(st.verificationRequests, p);
      byTerm := Filter(st.verificationRequests, p);
    }
    if status.Some? {
      FilterContents(byTerm, (x: VerificationRequest) => x.status == status.value);
    }
  }

  /** The selection keeps dictionary order. */
  lemma RequestsOrder(st: Server, termId: Option<string>, status: Option<VerificationStatus>)
    ensures Subsequence(SelectRequests(st, termId, status), st.verificationRequests)
  {
    var selected := (x: VerificationRequest) => RequestSelected(st, termId, status, x);
    FilterSubsequence(st.verificationRequests, selected);
    if Given(termId) && status.Some? {
      FilterTwice(st.verificationRequests,
                  (x: VerificationRequest) => x.programId in TermProgramIds(st.programs, termId.value),
                  (x: VerificationRequest) => x.status == status.value, selected);
    } else if Given(termId) {
      FilterSame(st.verificationRequests,
                 (x: VerificationRequest) => x.programId in TermProgramIds(st.programs, termId.value), selected);
    } else if status.Some? {
      FilterSame(st.verificationRequests, (x: VerificationRequest) => x.status == status.value, selected);
    } else {
      SubsequenceRefl(st.verificationRequests);
    }
  }

  /** An enriched request carries the request, the name and avatar of the
      first student with its student id and the name of the first program
      with its program id, or "Unknown", "?" and "Unknown" when none has it. */
  lemma EnrichEntry(st: Server, req: VerificationRequest)
    ensures var r := Enrich(st, req);
            && r.request == req
            && (forall k :: 0 <= k < |st.students| && st.students[k].studentId == req.studentId &&
                            (forall j :: 0 <= j < k ==> st.students[j].studentId != req.studentId) ==>
                              r.studentName == st.students[k].name && r.studentAvatar == st.students[k].avatar)
            && ((forall x :: x in st.students ==> x.studentId != req.studentId) ==>
                  r.studentName == "Unknown" && r.studentAvatar == Some("?"))
            && (forall k :: 0 <= k < |st.programs| && st.programs[k].programId == req.programId &&
                            (forall j :: 0 <= j < k ==> st.programs[j].programId != req.programId) ==>
                              r.programName == st.programs[k].name)
            && ((forall x :: x in st.programs ==> x.programId != req.programId) ==> r.programName == "Unknown")
  {
  }

  /** An export row copies the log's fields, names the term, and takes the
      name, e-mail and program name of the first matching records, or
      "Unknown", "" and "Unknown" when there is none. */
  lemma ExportRowFields(st: Server, termId: string, log: ServiceLog)
    ensures var r := Row(st, termId, log);
            && r.logDate == log.date && r.hours == log.hours && r.evidenceTier == log.evidenceTier
            && r.status == log.status && r.description == log.description
            && r.termName == TermLabel(st, termId)
            && (forall k :: 0 <= k < |st.students| && st.students[k].studentId == log.studentId &&
                            (forall j :: 0 <= j < k ==> st.students[j].studentId != log.studentId) ==>
                              r.studentName == st.students[k].name && r.studentEmail == st.students[k].email)
            && ((forall x :: x in st.students ==> x.studentId != log.studentId) ==>
                  r.studentName == "Unknown" && r.studentEmail == "")
            && (forall k :: 0 <= k < |st.programs| && st.programs[k].programId == log.programId &&
                            (forall j :: 0 <= j < k ==> st.programs[j].programId != log.programId) ==>
                              r.programName == st.programs[k].name)
            && ((forall x :: x in st.programs ==> x.programId != log.programId) ==> r.programName == "Unknown")
  {
  }

  /** The rows of the verified-logs export are exactly what the service-log
      query returns for the term and the status `confirmed`, in order. */
  lemma ExportIsConfirmedQuery(st: Server, termId: string)
    requires termId != ""
    ensures GetServiceLogs(st, Some(termId), Some(LogStatus.Confirmed)) == ConfirmedLogs(st, termId)
  {
    var ids := TermProgramIds(st.programs, termId);
    FilterTwice(st.serviceLogs, (l: ServiceLog) => l.programId in ids, (l: ServiceLog) => l.status == LogStatus.Confirmed,
                ConfirmedIn(ids));
  }

  /** With neither filter given the query returns every log in order. */
  lemma UnfilteredServiceLogs(st: Server, termId: Option<string>)
    requires !Given(termId)
    ensures GetServiceLogs(st, termId, None) == st.serviceLogs
  {
  }
}
