/** The static-mode store of frontend/src/api/client.js as an object whose
    methods update its collections in place. Each method is proved to
    produce the store that the corresponding function of DemoData describes. */
module DemoStore {
  import opened Wrappers
  import opened Seqs
  import opened Rounding
  import opened DemoData
  import DemoProperties

  class Store {
    var settings: Settings
    var terms: seq<Term>
    var kpisByTerm: map<string, TermKpis>
    var programsByTerm: map<string, seq<Program>>
    var studentsByTerm: map<string, seq<Student>>
    var serviceLogsByTerm: map<string, seq<ServiceLog>>
    var requestsByTerm: map<string, seq<VerificationRequest>>
    var requestTermOrder: seq<string>

    /** The store's contents as a value. */
    function Model(): Db
      reads this
    {
      Db(settings, terms, kpisByTerm, programsByTerm, studentsByTerm, serviceLogsByTerm,
         requestsByTerm, requestTermOrder)
    }

    predicate Valid()
      reads this
    {
      WellFormed(Model())
    }

    /** The store starts as a copy of its seed data. */
    constructor (seed: Db)
      requires WellFormed(seed)
      ensures Valid() && Model() == seed
    {
      settings := seed.settings;
      terms := seed.terms;
      kpisByTerm := seed.kpisByTerm;
      programsByTerm := seed.programsByTerm;
      studentsByTerm := seed.studentsByTerm;
      serviceLogsByTerm := seed.serviceLogsByTerm;
      requestsByTerm := seed.requestsByTerm;
      requestTermOrder := seed.requestTermOrder;
    }

    /** `getRequestById`: the first queue, in key order, holding a request
        with that id, the request's index in it and the request. */
    method GetRequestById(requestId: string) returns (found: Option<Found>)
      requires Valid()
      ensures found == FindRequest(Model(), requestId)
      ensures found.Some? ==> && found.value.termId in requestsByTerm
                              && found.value.index < |requestsByTerm[found.value.termId]|
                              && requestsByTerm[found.value.termId][found.value.index] == found.value.request
                              && found.value.request.requestId == requestId
      ensures found.None? <==> forall t :: t in requestsByTerm ==>
                                 forall x :: x in requestsByTerm[t] ==> x.requestId != requestId
    {
      DemoProperties.FindRequestNoneIff(Model(), requestId);
      var i := 0;
      while i < |requestTermOrder|
        invariant 0 <= i <= |requestTermOrder|
        invariant FindInQueues(requestTermOrder[i..], requestsByTerm, requestId) == FindRequest(Model(), requestId)
      {
        assert requestTermOrder[i..][1..] == requestTermOrder[i + 1..];
        var termId := requestTermOrder[i];
        var queue := Lookup(requestsByTerm, termId, []);
        var index := FindFirst(queue, RequestKey, requestId);
        if index.Some? {
          return Some(Found(termId, index.value, queue[index.value]));
        }
        i := i + 1;
      }
      return None;
    }

    /** `updateStudentProgressForTerm`: refresh every student of the term
        from the term's logs, then rebuild the term's KPI record. */
    method UpdateStudentProgressForTerm(termId: string)
      requires Valid()
      modifies this
      ensures Valid()
      ensures Model() == Recompute(old(Model()), termId)
    {
      var requiredHours := TermHours(terms, termId);
      var students := Lookup(studentsByTerm, termId, []);
      var logs := Lookup(serviceLogsByTerm, termId, []);
      var refreshed: seq<Student> := [];
      var i := 0;
      while i < |students|
        invariant 0 <= i <= |students|
        invariant |refreshed| == i
        invariant forall k :: 0 <= k < i ==> refreshed[k] == Refresh(students[k], logs, requiredHours)
      {
        var student := students[i];
        var verifiedHours := SumHours(WithStatus(LogsOfStudent(logs, student.studentId), Confirmed));
        var progress: nat := if requiredHours > 0 then RoundHalfUp(100 * verifiedHours, requiredHours) else 0;
        var riskStatus: RiskStatus, riskScore: nat;
        if progress >= 50 {
          riskStatus := OnTrack;
          riskScore := if progress >= 75 then 0 else 1;
        } else if progress >= 25 {
          riskStatus := NeedsAttention;
          riskScore := 2;
        } else {
          riskStatus := AtRisk;
          riskScore := 3;
        }
        refreshed := refreshed + [student.(verifiedHours := verifiedHours, requiredHours := requiredHours,
                                           progress := progress, riskStatus := riskStatus, riskScore := riskScore)];
        i := i + 1;
      }
      assert refreshed == RefreshAll(students, logs, requiredHours);
      if termId in studentsByTerm {
        studentsByTerm := studentsByTerm[termId := refreshed];
      }
      var totalVerifiedHours := TotalVerified(refreshed);
      kpisByTerm := kpisByTerm[termId := TermKpis(
        KpiCard(totalVerifiedHours, DemoDelta),
        KpiCard(|refreshed|, DemoDelta),
        KpiCard(|Lookup(programsByTerm, termId, [])|, DemoDelta),
        KpiCard(if |refreshed| > 0 then RoundHalfUp(100 * CountRetained(refreshed), |refreshed|) else 0,
                DemoDelta))];
    }

    /** The static branch of `getStudents`: recompute, then the term's students. */
    method GetStudents(termId: string) returns (r: seq<Student>)
      requires Valid()
      modifies this
      ensures Valid()
      ensures Model() == Recompute(old(Model()), termId)
      ensures r == Lookup(studentsByTerm, termId, [])
    {
      UpdateStudentProgressForTerm(termId);
      r := Lookup(studentsByTerm, termId, []);
    }

    /** The static branch of `getStudent`: recompute, then the detail view. */
    method GetStudent(studentId: string, termId: string) returns (r: Option<StudentDetail>)
      requires Valid()
      modifies this
      ensures Valid()
      ensures Model() == Recompute(old(Model()), termId)
      ensures r == BuildStudentDetail(Model(), studentId, termId)
    {
      UpdateStudentProgressForTerm(termId);
      r := BuildStudentDetail(Model(), studentId, termId);
    }

    /** The common step of the three decisions: `splice(index, 1)` on the
        request's queue, then the decision's assignments on the first log of
        the term with the request's log id, if there is one. */
    method TakeDecision(f: Found, d: Decision)
      requires Valid() && f.termId in requestsByTerm && f.index < |requestsByTerm[f.termId]|
      modifies this
      ensures Valid()
      ensures Model() == Apply(old(Model()), f, d)
    {
      requestsByTerm := requestsByTerm[f.termId := RemoveAt(requestsByTerm[f.termId], f.index)];
      if f.termId in serviceLogsByTerm {
        var logs := serviceLogsByTerm[f.termId];
        var j := FindFirst(logs, LogKey, f.request.logId);
        if j.Some? {
          serviceLogsByTerm := serviceLogsByTerm[f.termId := logs[j.value := Decide(logs[j.value], d)]];
        }
      }
    }

    /** The static branch of `confirmVerification`; returns `hours_added`. */
    method ConfirmVerification(requestId: string) returns (hoursAdded: nat)
      requires Valid()
      modifies this
      ensures Valid()
      ensures Model() == Resolve(old(Model()), requestId, ConfirmDecision)
      ensures hoursAdded == HoursAdded(old(Model()), requestId)
    {
      var found := GetRequestById(requestId);
      if found.None? {
        return 0;
      }
      var f := found.value;
      TakeDecision(f, ConfirmDecision);
      UpdateStudentProgressForTerm(f.termId);
      hoursAdded := f.request.hours;
    }

    /** The static branch of `rejectVerification`; returns the echoed reason,
        or None when the id is unknown. The reason is not checked. */
    method RejectVerification(requestId: string, reason: string) returns (echo: Option<string>)
      requires Valid()
      modifies this
      ensures Valid()
      ensures Model() == Resolve(old(Model()), requestId, RejectDecision(reason))
      ensures echo == if FindRequest(old(Model()), requestId).Some? then Some(reason) else None
    {
      var found := GetRequestById(requestId);
      if found.None? {
        return None;
      }
      var f := found.value;
      TakeDecision(f, RejectDecision(reason));
      UpdateStudentProgressForTerm(f.termId);
      echo := Some(reason);
    }

    /** The static branch of `flagVerification`: a non-empty reason becomes
        the log's description. */
    method FlagVerification(requestId: string, reason: string)
      requires Valid()
      modifies this
      ensures Valid()
      ensures Model() == Resolve(old(Model()), requestId, FlagDecision(reason))
    {
      var found := GetRequestById(requestId);
      if found.None? {
        return;
      }
      var f := found.value;
      TakeDecision(f, FlagDecision(reason));
      UpdateStudentProgressForTerm(f.termId);
    }

    /** The static branch of `updateSettings`: merge the payload into the settings. */
    method UpdateSettings(payload: SettingsPatch) returns (r: Settings)
      requires Valid()
      modifies this
      ensures Valid()
      ensures Model() == old(Model()).(settings := MergeSettings(old(settings), payload))
      ensures r == settings
    {
      settings := Settings(
        if payload.universityName.Some? then payload.universityName.value else settings.universityName,
        if payload.dashboardTitle.Some? && payload.dashboardTitle.value != "" then payload.dashboardTitle.value
        else settings.dashboardTitle);
      r := settings;
    }
  }
}
