/** The backend's `DataStore` (backend/server.py) as an object whose
    dictionaries and audit list the endpoints update in place. Each
    endpoint is proved to produce the store that the corresponding function
    of ServerData describes. Timestamps and event ids are parameters. */
module ServerStore {
  import opened Wrappers
  import opened Seqs
  import opened ServerData
  import ServerProperties

  class DataStore {
    var terms: seq<Term>
    var programs: seq<Program>
    var students: seq<Student>
    var serviceLogs: seq<ServiceLog>
    var verificationRequests: seq<VerificationRequest>
    var auditEvents: seq<AuditEvent>
    var settings: Settings

    /** The store's contents as a value. */
    function Model(): Server
      reads this
    {
      Server(terms, programs, students, serviceLogs, verificationRequests, auditEvents, settings)
    }

    predicate Valid()
      reads this
    {
      ServerData.Valid(Model())
    }

    /** `__init__` and `_seed_data`: empty dictionaries filled, in order, from
        the seed lists; a key seen twice keeps its first place and its last record. */
    constructor (termsData: seq<Term>, programsData: seq<Program>, studentsData: seq<Student>,
                 logsData: seq<ServiceLog>, requestsData: seq<VerificationRequest>)
      ensures Valid()
      ensures Model() == Server(PutAll([], TermKey, termsData), PutAll([], ProgramKey, programsData),
                                PutAll([], StudentKey, studentsData), PutAll([], LogKey, logsData),
                                PutAll([], RequestKey, requestsData), [], Settings(DefaultUniversity))
    {
      var t := Fill(TermKey, termsData);
      var p := Fill(ProgramKey, programsData);
      var s := Fill(StudentKey, studentsData);
      var l := Fill(LogKey, logsData);
      var r := Fill(RequestKey, requestsData);
      terms, programs, students, serviceLogs, verificationRequests := t, p, s, l, r;
      auditEvents := [];
      settings := Settings(DefaultUniversity);
    }

    /** One seed loop, `for x in data: d[key(x)] = x`, into an empty dictionary. */
    static method Fill<T>(key: T -> string, data: seq<T>) returns (d: seq<T>)
      ensures d == PutAll([], key, data) && DistinctKeys(d, key)
    {
      d := [];
      var i := 0;
      while i < |data|
        invariant 0 <= i <= |data|
        invariant d == PutAll([], key, data[..i]) && DistinctKeys(d, key)
      {
        assert data[..i + 1][..i] == data[..i];
        assert PutAll([], key, data[..i + 1]) == Put(d, key, data[i]);
        PutKeepsDistinct(d, key, data[i]);
        d := Put(d, key, data[i]);
        i := i + 1;
      }
      assert data[..i] == data;
    }

    /** The enrichment loop of `get_verification_requests`: one entry per
        selected request, in order, with the student's name and avatar and the
        program's name, or "Unknown", "?" and "Unknown" when they are missing. */
    method GetVerificationRequests(termId: Option<string>, status: Option<VerificationStatus>)
      returns (enriched: seq<EnrichedRequest>)
      ensures var requests := SelectRequests(Model(), termId, status);
              && |enriched| == |requests|
              && forall k :: 0 <= k < |requests| ==> enriched[k] == Enrich(Model(), requests[k])
    {
      ghost var st := Model();
      var requests := SelectRequests(Model(), termId, status);
      enriched := [];
      var k := 0;
      while k < |requests|
        modifies {}
        invariant 0 <= k <= |requests|
        invariant |enriched| == k
        invariant forall m :: 0 <= m < k ==> enriched[m] == Enrich(st, requests[m])
      {
        var req := requests[k];
        var student := Get(students, StudentKey, req.studentId);
        var program := Get(programs, ProgramKey, req.programId);
        var entry := EntryOf(req, student, program);
        enriched := enriched + [entry];
        k := k + 1;
      }
    }

    /** `confirm_verification`: returns the audit event's id. */
    method ConfirmVerification(requestId: string, now: string, eventId: string)
      returns (r: Result<string, HttpError>)
      requires Valid()
      modifies this
      ensures Valid()
      ensures var res := Act(old(Model()), requestId, ConfirmAction, now, eventId);
              && (res.Success? ==> Model() == res.value && r == Success(eventId))
              && (res.Failure? ==> Model() == old(Model()) && r == Failure(res.error))
    {
      ServerProperties.ActKeepsValid(Model(), requestId, ConfirmAction, now, eventId);
      if FindFirst(verificationRequests, RequestKey, requestId).None? {
        return Failure(HttpError(404, "Verification request not found"));
      }
      var vr := Get(verificationRequests, RequestKey, requestId).value;
      var found := Get(serviceLogs, LogKey, vr.logId);
      if found.None? {
        return Failure(HttpError(404, "Associated service log not found"));
      }
      var log := found.value;
      log := log.(status := LogStatus.Confirmed, evidenceTier := OrgConfirmed, updatedAt := now);
      serviceLogs := Put(serviceLogs, LogKey, log);
      vr := vr.(status := VerificationStatus.Confirmed);
      verificationRequests := Put(verificationRequests, RequestKey, vr);
      var audit := AuditEvent(eventId, AdminId, UniversityAdmin, VerificationRequestEntity, vr.requestId,
                              Confirm, now, ConfirmedNote(AdminName, log.logId, log.hours));
      auditEvents := auditEvents + [audit];
      r := Success(audit.eventId);
    }

    /** `reject_verification`: returns the reason it echoes. */
    method RejectVerification(requestId: string, reason: RejectionReason, now: string, eventId: string)
      returns (r: Result<RejectionReason, HttpError>)
      requires Valid()
      modifies this
      ensures Valid()
      ensures var res := Act(old(Model()), requestId, RejectAction(reason), now, eventId);
              && (res.Success? ==> Model() == res.value && r == Success(reason))
              && (res.Failure? ==> Model() == old(Model()) && r == Failure(res.error))
    {
      ServerProperties.ActKeepsValid(Model(), requestId, RejectAction(reason), now, eventId);
      if FindFirst(verificationRequests, RequestKey, requestId).None? {
        return Failure(HttpError(404, "Verification request not found"));
      }
      var vr := Get(verificationRequests, RequestKey, requestId).value;
      var found := Get(serviceLogs, LogKey, vr.logId);
      if found.None? {
        return Failure(HttpError(404, "Associated service log not found"));
      }
      var log := found.value;
      log := log.(status := LogStatus.Rejected, updatedAt := now);
      serviceLogs := Put(serviceLogs, LogKey, log);
      vr := vr.(status := VerificationStatus.Rejected);
      verificationRequests := Put(verificationRequests, RequestKey, vr);
      var audit := AuditEvent(eventId, AdminId, UniversityAdmin, VerificationRequestEntity, vr.requestId,
                              Reject, now, RejectedNote(AdminName, reason, log.logId));
      auditEvents := auditEvents + [audit];
      r := Success(reason);
    }

    /** `flag_verification`: the log is flagged; the request is left as it is. */
    method FlagVerification(requestId: string, reason: string, now: string, eventId: string)
      returns (r: Result<string, HttpError>)
      requires Valid()
      modifies this
      ensures Valid()
      ensures var res := Act(old(Model()), requestId, FlagAction(reason), now, eventId);
              && (res.Success? ==> Model() == res.value && r == Success("Verification flagged for review"))
              && (res.Failure? ==> Model() == old(Model()) && r == Failure(res.error))
    {
      ServerProperties.ActKeepsValid(Model(), requestId, FlagAction(reason), now, eventId);
      if FindFirst(verificationRequests, RequestKey, requestId).None? {
        return Failure(HttpError(404, "Verification request not found"));
      }
      var vr := Get(verificationRequests, RequestKey, requestId).value;
      var found := Get(serviceLogs, LogKey, vr.logId);
      if found.None? {
        return Failure(HttpError(404, "Associated service log not found"));
      }
      var log := found.value;
      log := log.(status := LogStatus.Flagged, updatedAt := now);
      serviceLogs := Put(serviceLogs, LogKey, log);
      var audit := AuditEvent(eventId, AdminId, UniversityAdmin, VerificationRequestEntity, vr.requestId,
                              Flag, now, FlaggedNote(AdminName, reason, log.logId));
      auditEvents := auditEvents + [audit];
      r := Success("Verification flagged for review");
    }

    /** `update_settings`: returns the new settings. */
    method UpdateSettings(universityName: string, now: string, eventId: string) returns (r: Settings)
      requires Valid()
      modifies this
      ensures Valid()
      ensures Model() == ServerData.UpdateSettings(old(Model()), universityName, now, eventId)
      ensures r == settings && r.universityName == universityName
    {
      settings := settings.(universityName := universityName);
      auditEvents := auditEvents + [AuditEvent(eventId, AdminId, UniversityAdmin, ServiceLogEntity, "settings",
                                               Edit, now, SettingsNote(universityName))];
      r := settings;
    }

    /** `export_verified_logs` without the CSV text: one row per confirmed
        log of the term's programs, in order, then one `export` event. */
    method ExportVerifiedLogs(termId: string, now: string, eventId: string) returns (rows: seq<ExportRow>)
      requires Valid()
      modifies this
      ensures Valid()
      ensures Model() == Exported(old(Model()), termId, now, eventId)
      ensures var logs := ConfirmedLogs(old(Model()), termId);
              && |rows| == |logs|
              && forall k :: 0 <= k < |logs| ==> rows[k] == Row(old(Model()), termId, logs[k])
    {
      var logs := ConfirmedLogs(Model(), termId);
      var termLabel := TermLabel(Model(), termId);
      rows := ExportRows(termId, logs);
      auditEvents := auditEvents + [AuditEvent(eventId, AdminId, UniversityAdmin, ExportEntity,
                                               "verified-logs-" + termId, Export, now,
                                               ExportNote(termLabel, |logs|))];
    }

    /** `export_audit_trail` without the CSV text: the rows are the audit
        list as it stands, then one `export` event is appended. */
    method ExportAuditTrail(termId: string, now: string, eventId: string) returns (events: seq<AuditEvent>)
      requires Valid()
      modifies this
      ensures Valid()
      ensures Model() == ExportedAuditTrail(old(Model()), termId, now, eventId)
      ensures events == old(auditEvents)
    {
      var termLabel := TermLabel(Model(), termId);
      events := auditEvents;
      auditEvents := auditEvents + [AuditEvent(eventId, AdminId, UniversityAdmin, ExportEntity,
                                               "audit-trail-" + termId, Export, now,
                                               AuditTrailNote(termLabel, |events|))];
    }

    /** The row loop of `export_verified_logs`: one row per log, looked up
        in the students and programs of the store, which it leaves alone. */
    method ExportRows(termId: string, logs: seq<ServiceLog>) returns (rows: seq<ExportRow>)
      requires Valid()
      ensures |rows| == |logs|
      ensures forall k :: 0 <= k < |logs| ==> rows[k] == Row(Model(), termId, logs[k])
    {
      var termLabel := TermLabel(Model(), termId);
      rows := [];
      var k := 0;
      while k < |logs|
        invariant 0 <= k <= |logs|
        invariant |rows| == k
        invariant forall m :: 0 <= m < k ==> rows[m] == Row(Model(), termId, logs[m])
      {
        var log := logs[k];
        var student := Get(students, StudentKey, log.studentId);
        var program := Get(programs, ProgramKey, log.programId);
        var row := RowOf(log, student, program, termLabel);
        rows := rows + [row];
        k := k + 1;
      }
    }
  }
}
