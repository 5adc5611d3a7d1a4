/** What the demo store's recompute engine and verification decisions
    guarantee, proved about the functions of DemoData. */
module DemoProperties {
  import opened Wrappers
  import opened Seqs
  import opened Rounding
  import opened DemoData

  // ---------------------------------------------------------------- reference sums

  /** The reference definition of a term's verified total: each student's
      confirmed hours, summed over the student list. */
  function TotalConfirmed(students: seq<Student>, logs: seq<ServiceLog>): nat {
    if |students| == 0 then 0
    else HoursWith(logs, students[0].studentId, Confirmed) + TotalConfirmed(students[1..], logs)
  }

  /** The reference count of students whose progress reaches 50. */
  function RetainedCount(students: seq<Student>, logs: seq<ServiceLog>, required: int): nat {
    if |students| == 0 then 0
    else (if Progress(HoursWith(logs, students[0].studentId, Confirmed), required) >= 50 then 1 else 0)
         + RetainedCount(students[1..], logs, required)
  }

  /** How many entries of the student list carry the given id. */
  function Occurrences(students: seq<Student>, studentId: string): nat {
    if |students| == 0 then 0
    else (if students[0].studentId == studentId then 1 else 0) + Occurrences(students[1..], studentId)
  }

  /** Filtering by student, then by status, then summing the hours is the
      reference sum of that student's hours with that status. */
  lemma {:induction false} FilteredSumIsHoursWith(logs: seq<ServiceLog>, studentId: string, status: LogStatus)
    ensures SumHours(WithStatus(LogsOfStudent(logs, studentId), status)) == HoursWith(logs, studentId, status)
  {
    if |logs| > 0 {
      FilteredSumIsHoursWith(logs[1..], studentId, status);
      var rest := LogsOfStudent(logs[1..], studentId);
      var tail := SumHours(WithStatus(rest, status));
      assert tail == HoursWith(logs[1..], studentId, status);
      if logs[0].studentId == studentId {
        assert LogsOfStudent(logs, studentId) == [logs[0]] + rest;
        WithStatusCons(logs[0], rest, status);
        if logs[0].status == status {
          assert WithStatus([logs[0]] + rest, status) == [logs[0]] + WithStatus(rest, status);
          SumHoursCons(logs[0], WithStatus(rest, status));
          assert SumHours(WithStatus(LogsOfStudent(logs, studentId), status)) == logs[0].hours + tail;
        } else {
          assert WithStatus([logs[0]] + rest, status) == WithStatus(rest, status);
          assert SumHours(WithStatus(LogsOfStudent(logs, studentId), status)) == tail;
        }
      } else {
        assert LogsOfStudent(logs, studentId) == rest;
        assert SumHours(WithStatus(LogsOfStudent(logs, studentId), status)) == tail;
      }
    }
  }

  lemma SumHoursCons(x: ServiceLog, rest: seq<ServiceLog>)
    ensures SumHours([x] + rest) == x.hours + SumHours(rest)
  {
    assert ([x] + rest)[1..] == rest;
  }

  lemma WithStatusCons(x: ServiceLog, rest: seq<ServiceLog>, status: LogStatus)
    ensures WithStatus([x] + rest, status) == (if x.status == status then [x] else []) + WithStatus(rest, status)
  {
    assert ([x] + rest)[1..] == rest;
  }

  // ---------------------------------------------------------------- recompute

  /** One pass of the per-student loop: the student carries the hours of its
      confirmed logs, the required hours, the progress that follows from them
      and the matching risk tier; its other fields are untouched. */
  lemma RefreshedStudent(s: Student, logs: seq<ServiceLog>, required: int)
    ensures var s' := Refresh(s, logs, required);
            && s'.verifiedHours == HoursWith(logs, s.studentId, Confirmed)
            && s'.requiredHours == required
            && s'.progress == Progress(s'.verifiedHours, required)
            && s'.riskStatus == RiskTier(s'.progress).status
            && s'.riskScore == RiskTier(s'.progress).score
            && s'.(verifiedHours := s.verifiedHours, requiredHours := s.requiredHours, progress := s.progress,
                   riskStatus := s.riskStatus, riskScore := s.riskScore) == s
  {
    FilteredSumIsHoursWith(logs, s.studentId, Confirmed);
  }

  /** After a recompute, every student of the term carries the hours of its
      confirmed logs, the term's required hours, the progress that follows
      from them and the matching risk tier; its other fields are untouched. */
  lemma RecomputedStudent(db: Db, termId: string, k: nat)
    requires termId in db.studentsByTerm && k < |db.studentsByTerm[termId]|
    ensures termId in Recompute(db, termId).studentsByTerm
    ensures |Recompute(db, termId).studentsByTerm[termId]| == |db.studentsByTerm[termId]|
    ensures var s := db.studentsByTerm[termId][k];
            var s' := Recompute(db, termId).studentsByTerm[termId][k];
            && s'.verifiedHours == HoursWith(Lookup(db.serviceLogsByTerm, termId, []), s.studentId, Confirmed)
            && s'.requiredHours == TermHours(db.terms, termId)
            && s'.progress == Progress(s'.verifiedHours, s'.requiredHours)
            && s'.riskStatus == RiskTier(s'.progress).status
            && s'.riskScore == RiskTier(s'.progress).score
            && s'.(verifiedHours := s.verifiedHours, requiredHours := s.requiredHours, progress := s.progress,
                   riskStatus := s.riskStatus, riskScore := s.riskScore) == s
  {
    RefreshedStudent(db.studentsByTerm[termId][k], Lookup(db.serviceLogsByTerm, termId, []), TermHours(db.terms, termId));
  }

  lemma {:induction false} TotalVerifiedOfRefreshed(students: seq<Student>, logs: seq<ServiceLog>, required: int)
    ensures TotalVerified(RefreshAll(students, logs, required)) == TotalConfirmed(students, logs)
  {
    if |students| > 0 {
      var r := RefreshAll(students, logs, required);
      assert r[1..] == RefreshAll(students[1..], logs, required);
      FilteredSumIsHoursWith(logs, students[0].studentId, Confirmed);
      TotalVerifiedOfRefreshed(students[1..], logs, required);
    }
  }

  lemma {:induction false} CountRetainedOfRefreshed(students: seq<Student>, logs: seq<ServiceLog>, required: int)
    ensures CountRetained(RefreshAll(students, logs, required)) == RetainedCount(students, logs, required)
  {
    if |students| > 0 {
      var r := RefreshAll(students, logs, required);
      assert r[1..] == RefreshAll(students[1..], logs, required);
      FilteredSumIsHoursWith(logs, students[0].studentId, Confirmed);
      CountRetainedOfRefreshed(students[1..], logs, required);
    }
  }

  /** The term's KPI record after a recompute: the total of the students'
      confirmed hours, the number of students, the number of the term's
      programs, and the rounded share of students with progress of at least 50
      (0 for a term without students). */
  lemma RecomputedKpis(db: Db, termId: string)
    ensures termId in Recompute(db, termId).kpisByTerm
    ensures var students := Lookup(db.studentsByTerm, termId, []);
            var logs := Lookup(db.serviceLogsByTerm, termId, []);
            var kpis := Recompute(db, termId).kpisByTerm[termId];
            && kpis.verifiedHours.value == TotalConfirmed(students, logs)
            && kpis.activeStudents.value == |students|
            && kpis.activePrograms.value == |Lookup(db.programsByTerm, termId, [])|
            && (|students| == 0 ==> kpis.retentionRate.value == 0)
            && (|students| > 0 ==>
                  var retained := RetainedCount(students, logs, TermHours(db.terms, termId));
                  2 * |students| * kpis.retentionRate.value <= 200 * retained + |students|
                    < 2 * |students| * (kpis.retentionRate.value + 1))
    ensures var kpis := Recompute(db, termId).kpisByTerm[termId];
            && kpis.verifiedHours.delta == DemoDelta && kpis.activeStudents.delta == DemoDelta
            && kpis.activePrograms.delta == DemoDelta && kpis.retentionRate.delta == DemoDelta
  {
    var students := Lookup(db.studentsByTerm, termId, []);
    var logs := Lookup(db.serviceLogsByTerm, termId, []);
    var required := TermHours(db.terms, termId);
    var refreshed := RefreshAll(students, logs, required);
    var kpis := Recompute(db, termId).kpisByTerm[termId];
    assert kpis == BuildKpis(refreshed, |Lookup(db.programsByTerm, termId, [])|);
    TotalVerifiedOfRefreshed(students, logs, required);
    CountRetainedOfRefreshed(students, logs, required);
    if |students| > 0 {
      var n := |students|;
      var c := RetainedCount(students, logs, required);
      var r := RoundHalfUp(100 * c, n);
      assert kpis.retentionRate.value == r;
      assert 2 * n * r <= 2 * (100 * c) + n < 2 * n * (r + 1);
    }
  }

  /** The retention KPI is a percentage: between 0 and 100, 0 when no
      student reaches 50% and 100 when every student does. */
  lemma RetentionIsPercent(students: seq<Student>, programCount: nat)
    ensures var rate := BuildKpis(students, programCount).retentionRate.value;
            && 0 <= rate <= 100
            && (CountRetained(students) == 0 ==> rate == 0)
            && (|students| > 0 && CountRetained(students) == |students| ==> rate == 100)
  {
    if |students| > 0 {
      PercentBounds(CountRetained(students), |students|);
    }
  }

  /** Refreshing an already refreshed student list changes nothing. */
  lemma RefreshAllIdempotent(students: seq<Student>, logs: seq<ServiceLog>, required: int)
    ensures RefreshAll(RefreshAll(students, logs, required), logs, required) == RefreshAll(students, logs, required)
  {
    var once := RefreshAll(students, logs, required);
    var twice := RefreshAll(once, logs, required);
    assert forall k :: 0 <= k < |students| ==> twice[k] == once[k];
  }

  /** Recomputing a term twice with no change in between gives the same store
      as recomputing it once. */
  lemma RecomputeIdempotent(db: Db, termId: string)
    ensures Recompute(Recompute(db, termId), termId) == Recompute(db, termId)
  {
    RefreshAllIdempotent(Lookup(db.studentsByTerm, termId, []), Lookup(db.serviceLogsByTerm, termId, []),
                         TermHours(db.terms, termId));
  }

  // ---------------------------------------------------------------- student detail

  /** `filter` on the student id keeps exactly the student's logs, each as
      often as in the list and in their order. */
  lemma LogsOfStudentContents(logs: seq<ServiceLog>, studentId: string)
    ensures forall l :: l in LogsOfStudent(logs, studentId) ==> l.studentId == studentId
    ensures forall l :: multiset(LogsOfStudent(logs, studentId))[l] ==
                          (if l.studentId == studentId then multiset(logs)[l] else 0)
    ensures Subsequence(LogsOfStudent(logs, studentId), logs)
  {
    FilterContents(logs, (l: ServiceLog) => l.studentId == studentId);
    FilterSubsequence(logs, (l: ServiceLog) => l.studentId == studentId);
  }

  /** The detail view lists exactly the term's logs of that student, in
      their order and each as often as in the term's list, and its pending
      hours are the hours of those logs that are still pending. */
  lemma StudentDetailLogs(db: Db, studentId: string, termId: string)
    requires BuildStudentDetail(db, studentId, termId).Some?
    ensures var d := BuildStudentDetail(db, studentId, termId).value;
            var logs := Lookup(db.serviceLogsByTerm, termId, []);
            && (forall l :: l in d.logs ==> l.studentId == studentId)
            && (forall l :: multiset(d.logs)[l] == (if l.studentId == studentId then multiset(logs)[l] else 0))
            && Subsequence(d.logs, logs)
            && d.pendingHours == HoursWith(logs, studentId, Pending)
  {
    LogsOfStudentContents(Lookup(db.serviceLogsByTerm, termId, []), studentId);
    FilteredSumIsHoursWith(Lookup(db.serviceLogsByTerm, termId, []), studentId, Pending);
  }

  // ---------------------------------------------------------------- request search

  /** In a well-formed store the search fails exactly when no queue holds a
      request with that id. */
  lemma FindRequestNoneIff(db: Db, requestId: string)
    requires WellFormed(db)
    ensures FindRequest(db, requestId).None? <==>
            forall t :: t in db.requestsByTerm ==>
              forall x :: x in db.requestsByTerm[t] ==> x.requestId != requestId
  {
    var order := db.requestTermOrder;
    if FindRequest(db, requestId).None? {
      forall t | t in db.requestsByTerm
        ensures forall x :: x in db.requestsByTerm[t] ==> x.requestId != requestId
      {
        var k :| 0 <= k < |order| && order[k] == t;
        assert Lookup(db.requestsByTerm, order[k], []) == db.requestsByTerm[t];
      }
    }
  }

  // ---------------------------------------------------------------- decisions

  /** Resolving an unknown id leaves the store as it was and credits no hours. */
  lemma ResolveUnknown(db: Db, requestId: string, d: Decision)
    requires WellFormed(db)
    requires forall t :: t in db.requestsByTerm ==>
               forall x :: x in db.requestsByTerm[t] ==> x.requestId != requestId
    ensures Resolve(db, requestId, d) == db
    ensures HoursAdded(db, requestId) == 0
  {
    FindRequestNoneIff(db, requestId);
  }

  /** A resolved request leaves its queue: the queue is one shorter and the
      other requests keep their order. Every other queue, the search order and
      the well-formedness of the store are unchanged. */
  lemma ResolveQueues(db: Db, requestId: string, d: Decision)
    requires WellFormed(db) && FindRequest(db, requestId).Some?
    ensures var f := FindRequest(db, requestId).value;
            var db' := Resolve(db, requestId, d);
            && db'.requestsByTerm.Keys == db.requestsByTerm.Keys
            && |db'.requestsByTerm[f.termId]| == |db.requestsByTerm[f.termId]| - 1
            && db'.requestsByTerm[f.termId] == db.requestsByTerm[f.termId][..f.index] + db.requestsByTerm[f.termId][f.index + 1..]
            && (forall u :: u in db.requestsByTerm && u != f.termId ==> db'.requestsByTerm[u] == db.requestsByTerm[u])
            && db'.requestTermOrder == db.requestTermOrder
            && WellFormed(db')
  {
  }

  /** A decision changes the status of exactly one log: the first log of the
      request's term whose id is the request's log id (if there is one). All
      other logs, in that term and in every other term, are untouched. */
  lemma ResolveLogs(db: Db, requestId: string, d: Decision)
    requires FindRequest(db, requestId).Some?
    ensures var f := FindRequest(db, requestId).value;
            var db' := Resolve(db, requestId, d);
            && db'.serviceLogsByTerm.Keys == db.serviceLogsByTerm.Keys
            && (forall u :: u in db.serviceLogsByTerm && u != f.termId ==>
                  db'.serviceLogsByTerm[u] == db.serviceLogsByTerm[u])
            && (f.termId in db.serviceLogsByTerm ==>
                  var logs := db.serviceLogsByTerm[f.termId];
                  var logs' := db'.serviceLogsByTerm[f.termId];
                  && |logs'| == |logs|
                  && forall j :: 0 <= j < |logs| ==>
                       logs'[j] == (if logs[j].logId == f.request.logId &&
                                       (forall i :: 0 <= i < j ==> logs[i].logId != f.request.logId)
                                    then Decide(logs[j], d) else logs[j]))
  {
  }

  /** A decision recomputes only the request's term: every other term's
      students, logs, queue and KPI record are untouched. */
  lemma ResolveOtherTerms(db: Db, requestId: string, d: Decision)
    requires FindRequest(db, requestId).Some?
    ensures var f := FindRequest(db, requestId).value;
            var db' := Resolve(db, requestId, d);
            && (forall u :: u in db.studentsByTerm && u != f.termId ==> db'.studentsByTerm[u] == db.studentsByTerm[u])
            && (forall u :: u in db.kpisByTerm && u != f.termId ==> db'.kpisByTerm[u] == db.kpisByTerm[u])
            && (forall u :: u in db.serviceLogsByTerm && u != f.termId ==>
                  db'.serviceLogsByTerm[u] == db.serviceLogsByTerm[u])
            && (forall u :: u in db.requestsByTerm && u != f.termId ==> db'.requestsByTerm[u] == db.requestsByTerm[u])
            && db'.settings == db.settings && db'.terms == db.terms && db'.programsByTerm == db.programsByTerm
  {
  }

  // ---------------------------------------------------------------- conservation

  /** Replacing one log changes a student's sum by the difference of the two
      logs' contributions. */
  lemma {:induction false} HoursWithUpdate(logs: seq<ServiceLog>, j: nat, x: ServiceLog, studentId: string, status: LogStatus)
    requires j < |logs|
    ensures HoursWith(logs[j := x], studentId, status)
              + (if logs[j].studentId == studentId && logs[j].status == status then logs[j].hours else 0)
            == HoursWith(logs, studentId, status)
              + (if x.studentId == studentId && x.status == status then x.hours else 0)
  {
    if j > 0 {
      HoursWithUpdate(logs[1..], j - 1, x, studentId, status);
      assert logs[j := x][1..] == logs[1..][j - 1 := x];
    } else {
      assert logs[j := x][1..] == logs[1..];
    }
  }

  /** Confirming a log that was not confirmed adds its hours once for every
      entry of the student list that carries the log's student id. */
  lemma {:induction false} TotalConfirmedUpdate(students: seq<Student>, logs: seq<ServiceLog>, j: nat, x: ServiceLog)
    requires j < |logs| && logs[j].status != Confirmed
    requires x.status == Confirmed && x.studentId == logs[j].studentId && x.hours == logs[j].hours
    ensures TotalConfirmed(students, logs[j := x])
            == TotalConfirmed(students, logs) + Occurrences(students, x.studentId) * x.hours
  {
    if |students| > 0 {
      HoursWithUpdate(logs, j, x, students[0].studentId, Confirmed);
      TotalConfirmedUpdate(students[1..], logs, j, x);
      OccurrencesStep(students, x.studentId, x.hours);
    }
  }

  /** The first entry's share of `Occurrences(students, id) * h`. */
  lemma OccurrencesStep(students: seq<Student>, studentId: string, h: nat)
    requires |students| > 0
    ensures Occurrences(students, studentId) * h
            == (if students[0].studentId == studentId then h else 0) + Occurrences(students[1..], studentId) * h
  {
    var n := Occurrences(students[1..], studentId);
    if students[0].studentId == studentId {
      assert (1 + n) * h == h + n * h;
    }
  }

  /** Changing a log that was not confirmed into one that is not confirmed
      leaves every student's confirmed total as it was. */
  lemma {:induction false} TotalConfirmedUnchanged(students: seq<Student>, logs: seq<ServiceLog>, j: nat, x: ServiceLog)
    requires j < |logs| && logs[j].status != Confirmed && x.status != Confirmed
    ensures TotalConfirmed(students, logs[j := x]) == TotalConfirmed(students, logs)
  {
    if |students| > 0 {
      HoursWithUpdate(logs, j, x, students[0].studentId, Confirmed);
      TotalConfirmedUnchanged(students[1..], logs, j, x);
    }
  }

  /** Confirming a request whose log was not yet confirmed raises the term's
      verified-hours KPI by the log's hours (once per student entry with the
      log's student id, so exactly once when that student is listed once). */
  lemma ConfirmAddsHours(db: Db, requestId: string)
    requires FindRequest(db, requestId).Some?
    requires var f := FindRequest(db, requestId).value;
             && f.termId in db.serviceLogsByTerm
             && FindFirst(db.serviceLogsByTerm[f.termId], LogKey, f.request.logId).Some?
             && db.serviceLogsByTerm[f.termId][FindFirst(db.serviceLogsByTerm[f.termId], LogKey, f.request.logId).value].status != Confirmed
    ensures var f := FindRequest(db, requestId).value;
            var logs := db.serviceLogsByTerm[f.termId];
            var log := logs[FindFirst(logs, LogKey, f.request.logId).value];
            Resolve(db, requestId, ConfirmDecision).kpisByTerm[f.termId].verifiedHours.value
            == Recompute(db, f.termId).kpisByTerm[f.termId].verifiedHours.value
               + Occurrences(Lookup(db.studentsByTerm, f.termId, []), log.studentId) * log.hours
  {
    var f := FindRequest(db, requestId).value;
    var logs := db.serviceLogsByTerm[f.termId];
    var j := FindFirst(logs, LogKey, f.request.logId).value;
    var applied := Apply(db, f, ConfirmDecision);
    assert Lookup(applied.serviceLogsByTerm, f.termId, []) == logs[j := Decide(logs[j], ConfirmDecision)];
    RecomputedKpis(applied, f.termId);
    RecomputedKpis(db, f.termId);
    TotalConfirmedUpdate(Lookup(db.studentsByTerm, f.termId, []), logs, j, Decide(logs[j], ConfirmDecision));
  }

  /** Rejecting or flagging a request whose log was not confirmed leaves the
      term's verified-hours KPI as a fresh recompute would give it. */
  lemma RejectOrFlagKeepsHours(db: Db, requestId: string, d: Decision)
    requires !d.ConfirmDecision?
    requires FindRequest(db, requestId).Some?
    requires var f := FindRequest(db, requestId).value;
             f.termId in db.serviceLogsByTerm ==>
               forall l :: l in db.serviceLogsByTerm[f.termId] && l.logId == f.request.logId ==> l.status != Confirmed
    ensures var f := FindRequest(db, requestId).value;
            Resolve(db, requestId, d).kpisByTerm[f.termId].verifiedHours.value
            == Recompute(db, f.termId).kpisByTerm[f.termId].verifiedHours.value
  {
    var f := FindRequest(db, requestId).value;
    var applied := Apply(db, f, d);
    RecomputedKpis(applied, f.termId);
    RecomputedKpis(db, f.termId);
    if f.termId in db.serviceLogsByTerm {
      var logs := db.serviceLogsByTerm[f.termId];
      match FindFirst(logs, LogKey, f.request.logId)
      case None =>
      case Some(j) =>
        assert logs[j] in logs;
        TotalConfirmedUnchanged(Lookup(db.studentsByTerm, f.termId, []), logs, j, Decide(logs[j], d));
    }
  }

  /** More confirmed hours never give a smaller progress percentage. */
  lemma ProgressMonotone(a: nat, b: nat, required: int)
    requires a <= b
    ensures Progress(a, required) <= Progress(b, required)
  {
    if required > 0 {
      RoundHalfUpMonotone(100 * a, 100 * b, required);
    }
  }

  /** A lower progress percentage never has a lower risk score. */
  lemma RiskScoreAntitone(p: int, q: int)
    requires p <= q
    ensures RiskTier(q).score <= RiskTier(p).score
  {
  }

  // ---------------------------------------------------------------- settings

  /** Applying the same settings payload twice is the same as applying it once,
      and a payload with no field keeps the settings. */
  lemma MergeSettingsIdempotent(s: Settings, p: SettingsPatch)
    ensures MergeSettings(MergeSettings(s, p), p) == MergeSettings(s, p)
    ensures MergeSettings(s, SettingsPatch(None, None)) == s
  {
  }
}
