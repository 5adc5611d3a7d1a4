/** The seed of the demo store (frontend/src/data/mockData.js), hours in
    tenths, and concrete scenarios run through the model. The stored
    student and KPI values of the seed are stale until a recompute. */
module MockData {
  import opened Wrappers
  import opened Seqs
  import opened Rounding
  import opened DemoData
  import DemoProperties

  const Spring: string := "spring-2026"
  const Fall: string := "fall-2025"
  const Summer: string := "summer-2026"

  function SeedTerms(): seq<Term> {
    [ Term(Fall, "Fall 2025", "2025-09-01", "2025-12-15", Some(200)),
      Term(Spring, "Spring 2026", "2026-01-15", "2026-05-15", Some(200)),
      Term(Summer, "Summer 2026", "2026-06-01", "2026-08-15", Some(100)) ]
  }

  function SeedPrograms(): map<string, seq<Program>> {
    map[Spring := [ Program("csc-001", "Columbia Service Corps", Campus, Spring, 3, "heart"),
                    Program("gi-002", "Green Initiative", Campus, Spring, 2, "leaf"),
                    Program("hno-003", "Hope NYC Outreach", NgoPartner, Spring, 2, "users") ],
        Fall := [ Program("csc-fall", "Columbia Service Corps", Campus, Fall, 2, "heart") ],
        Summer := [ Program("summer-001", "Community Summer Support", NgoPartner, Summer, 1, "sun") ]]
  }

  function Maya(): Student {
    Student("stu-001", "Maya Chen", "maya@columbia.edu", "MC", ["csc-001", "gi-002"],
            ["Columbia Service Corps", "Green Initiative"], 140, 200, 70, NeedsAttention, 2, "2026-02-01")
  }

  function Jordan(): Student {
    Student("stu-002", "Jordan Lee", "jordan@columbia.edu", "JL", ["hno-003"],
            ["Hope NYC Outreach"], 60, 200, 30, NeedsAttention, 2, "2026-01-29")
  }

  function Amira(): Student {
    Student("stu-003", "Amira Khan", "amira@columbia.edu", "AK", ["csc-001"],
            ["Columbia Service Corps"], 30, 200, 15, AtRisk, 3, "2026-01-24")
  }

  function Casey(): Student {
    Student("stu-010", "Casey Moore", "casey@columbia.edu", "CM", ["csc-fall"],
            ["Columbia Service Corps"], 200, 200, 100, OnTrack, 0, "2025-12-12")
  }

  function SpringLogs(): seq<ServiceLog> {
    [ ServiceLog("log-001", "stu-001", "Maya Chen", "maya@columbia.edu", "csc-001", "Columbia Service Corps",
                 "2026-02-01", 40, "Weekend food pantry support", OrgConfirmed, Confirmed, "2026-02-01T08:00:00Z"),
      ServiceLog("log-002", "stu-002", "Jordan Lee", "jordan@columbia.edu", "hno-003", "Hope NYC Outreach",
                 "2026-01-29", 30, "Shelter intake assistance", SelfReported, Pending, "2026-01-29T08:00:00Z"),
      ServiceLog("log-003", "stu-003", "Amira Khan", "amira@columbia.edu", "csc-001", "Columbia Service Corps",
                 "2026-01-24", 20, "Flagged duplicate attendance", SelfReported, Flagged, "2026-01-24T08:00:00Z") ]
  }

  function JordanRequest(): VerificationRequest {
    VerificationRequest("vr-001", "log-002", "stu-002", "Jordan Lee", "jordan@columbia.edu", "JL",
                        "hno-003", "Hope NYC Outreach", "awaiting_confirmation", 30, "2026-01-29",
                        SelfReported, "Shelter intake assistance", "Hope NYC Outreach", "2026-01-29T08:00:00Z")
  }

  function SeedKpis(): map<string, TermKpis> {
    map[Spring := TermKpis(KpiCard(230, "+8% vs last week"), KpiCard(3, "+1 new"), KpiCard(3, "0 change"),
                           KpiCard(67, "+5 pts")),
        Fall := TermKpis(KpiCard(200, "Term complete"), KpiCard(1, "—"), KpiCard(1, "—"),
                         KpiCard(100, "Term complete")),
        Summer := TermKpis(KpiCard(0, "No activity yet"), KpiCard(0, "No activity yet"), KpiCard(1, "Configured"),
                           KpiCard(0, "No activity yet"))]
  }

  /** The whole seed, keys of the request queues in declaration order. */
  function Seed(): Db {
    Db(Settings("Columbia University", "Test Pilot Dashboard"),
       SeedTerms(),
       SeedKpis(),
       SeedPrograms(),
       map[Spring := [Maya(), Jordan(), Amira()], Fall := [Casey()], Summer := []],
       map[Spring := SpringLogs(), Fall := [], Summer := []],
       map[Spring := [JordanRequest()], Fall := [], Summer := []],
       [Spring, Fall, Summer])
  }

  lemma SeedWellFormed()
    ensures WellFormed(Seed())
  {
    assert Spring[0] != Fall[0] && Fall[0] != Summer[0] && Spring[1] != Summer[1];
  }

  /** The string literals of the seed that the scenarios tell apart. */
  lemma DistinctIds()
    ensures Spring != Fall && Spring != Summer && Fall != Summer
    ensures "stu-001" != "stu-002" && "stu-001" != "stu-003" && "stu-002" != "stu-003"
    ensures "log-001" != "log-002"
  {
    assert Spring[0] != Fall[0] && Fall[0] != Summer[0] && Spring[1] != Summer[1];
    assert "stu-001"[6] != "stu-002"[6] && "stu-001"[6] != "stu-003"[6] && "stu-002"[6] != "stu-003"[6];
    assert "log-001"[6] != "log-002"[6];
  }

  lemma SpringHours()
    ensures TermHours(SeedTerms(), Spring) == 200
  {
    DistinctIds();
    assert SeedTerms()[1..] == [SeedTerms()[1], SeedTerms()[2]];
  }

  /** The percentages of a 20-hour requirement that the scenarios reach. */
  lemma ProgressValues()
    ensures Progress(0, 200) == 0 && Progress(30, 200) == 15
    ensures Progress(40, 200) == 20 && Progress(70, 200) == 35
  {
    assert RoundHalfUp(3000, 200) == 6200 / 400 == 15;
    assert RoundHalfUp(4000, 200) == 8200 / 400 == 20;
    assert RoundHalfUp(7000, 200) == 14200 / 400 == 35;
  }

  function SpringStudents(): seq<Student> {
    [Maya(), Jordan(), Amira()]
  }

  /** The spring logs once Jordan's pending log is confirmed. */
  function ConfirmedSpringLogs(): seq<ServiceLog> {
    SpringLogs()[1 := SpringLogs()[1].(status := Confirmed)]
  }

  /** The confirmed hours of the seed's spring logs, before and after Jordan's
      log is confirmed. */
  lemma SpringConfirmedHours()
    ensures HoursWith(SpringLogs(), "stu-001", Confirmed) == 40
    ensures HoursWith(SpringLogs(), "stu-002", Confirmed) == 0
    ensures HoursWith(SpringLogs(), "stu-003", Confirmed) == 0
    ensures HoursWith(ConfirmedSpringLogs(), "stu-001", Confirmed) == 40
    ensures HoursWith(ConfirmedSpringLogs(), "stu-002", Confirmed) == 30
    ensures HoursWith(ConfirmedSpringLogs(), "stu-003", Confirmed) == 0
  {
    DistinctIds();
    var logs := SpringLogs();
    assert logs[1..][1..] == [logs[2]];
    var logs' := ConfirmedSpringLogs();
    assert logs'[1..][1..] == [logs'[2]];
  }

  /** The term totals over the spring students. */
  lemma SpringTotals()
    ensures DemoProperties.TotalConfirmed(SpringStudents(), SpringLogs()) == 40
    ensures DemoProperties.TotalConfirmed(SpringStudents(), ConfirmedSpringLogs()) == 70
    ensures DemoProperties.RetainedCount(SpringStudents(), SpringLogs(), 200) == 0
  {
    SpringConfirmedHours();
    ProgressValues();
    var students := SpringStudents();
    assert students[1..][1..] == [Amira()];
  }

  lemma SeedSpringLookups()
    ensures Spring in Seed().studentsByTerm && Seed().studentsByTerm[Spring] == SpringStudents()
    ensures Lookup(Seed().studentsByTerm, Spring, []) == SpringStudents()
    ensures Lookup(Seed().serviceLogsByTerm, Spring, []) == SpringLogs()
    ensures |Lookup(Seed().programsByTerm, Spring, [])| == 3
    ensures TermHours(Seed().terms, Spring) == 200
  {
    SpringHours();
  }

  /** Recomputing the spring term of the seed: only Maya has a confirmed log
      (4 hours of the 20 required), so she is at 20% and at risk; Jordan and
      Amira have nothing confirmed. */
  lemma SeedSpringRecompute()
    ensures var students := Recompute(Seed(), Spring).studentsByTerm[Spring];
            && |students| == 3
            && students[0].verifiedHours == 40 && students[0].progress == 20 && students[0].riskStatus == AtRisk
            && students[1].verifiedHours == 0 && students[1].riskScore == 3
            && students[2].verifiedHours == 0
  {
    SeedSpringLookups();
    SpringConfirmedHours();
    ProgressValues();
    DemoProperties.RecomputedStudent(Seed(), Spring, 0);
    DemoProperties.RecomputedStudent(Seed(), Spring, 1);
    DemoProperties.RecomputedStudent(Seed(), Spring, 2);
  }

  /** The KPIs of any store whose spring term holds the seed's students,
      logs and three programs. */
  lemma SpringKpisOf(db: Db)
    requires Lookup(db.studentsByTerm, Spring, []) == SpringStudents()
    requires Lookup(db.serviceLogsByTerm, Spring, []) == SpringLogs()
    requires |Lookup(db.programsByTerm, Spring, [])| == 3
    requires TermHours(db.terms, Spring) == 200
    ensures Recompute(db, Spring).kpisByTerm[Spring]
            == TermKpis(KpiCard(40, DemoDelta), KpiCard(3, DemoDelta), KpiCard(3, DemoDelta), KpiCard(0, DemoDelta))
  {
    SpringTotals();
    assert |SpringStudents()| == 3;
    KpisWithNoneRetained(db, Spring, 40, 3, 3);
  }

  /** The recomputed KPIs of a term whose students have `total` confirmed
      tenths and where nobody reaches 50%. */
  lemma KpisWithNoneRetained(db: Db, termId: string, total: nat, n: nat, programs: nat)
    requires var students := Lookup(db.studentsByTerm, termId, []);
             var logs := Lookup(db.serviceLogsByTerm, termId, []);
             && |students| == n && n > 0
             && DemoProperties.TotalConfirmed(students, logs) == total
             && DemoProperties.RetainedCount(students, logs, TermHours(db.terms, termId)) == 0
    requires |Lookup(db.programsByTerm, termId, [])| == programs
    ensures Recompute(db, termId).kpisByTerm[termId]
            == TermKpis(KpiCard(total, DemoDelta), KpiCard(n, DemoDelta), KpiCard(programs, DemoDelta),
                        KpiCard(0, DemoDelta))
  {
    var kpis := Recompute(db, termId).kpisByTerm[termId];
    DemoProperties.RecomputedKpis(db, termId);
    assert 2 * n * kpis.retentionRate.value <= n < 2 * n * (kpis.retentionRate.value + 1);
    NoHalf(n, kpis.retentionRate.value);
  }

  /** A rounded share of nothing is 0. */
  lemma NoHalf(n: nat, r: int)
    requires n > 0 && 2 * n * r <= n < 2 * n * (r + 1)
    ensures r == 0
  {
    MulSign(2 * n, r);
    MulSign(2 * n, r + 1);
  }

  /** A product with a positive factor of at least one is at least the other
      factor; one with a factor of at most zero is at most zero. */
  lemma MulSign(c: nat, a: int)
    ensures a >= 1 ==> c * a >= c
    ensures a <= 0 ==> c * a <= 0
  {
    if a >= 1 {
      MulMonotone(c, 1, a);
    } else {
      MulMonotone(c, a, 0);
    }
  }

  /** The recomputed spring KPIs replace the seed's stale ones: 4 verified
      hours, three students, three programs and, since nobody has reached
      50%, a retention rate of 0. */
  lemma SeedSpringKpis()
    ensures Recompute(Seed(), Spring).kpisByTerm[Spring]
            == TermKpis(KpiCard(40, DemoDelta), KpiCard(3, DemoDelta), KpiCard(3, DemoDelta), KpiCard(0, DemoDelta))
  {
    SeedSpringLookups();
    SpringKpisOf(Seed());
  }

  /** The seed's only request sits first in the spring queue. */
  lemma SeedFindsJordan()
    ensures FindRequest(Seed(), "vr-001") == Some(Found(Spring, 0, JordanRequest()))
  {
  }

  /** Taking the confirmation for Jordan's request out of its queue and onto
      its log, before the recompute. */
  lemma SeedApplyConfirm()
    ensures var a := Apply(Seed(), Found(Spring, 0, JordanRequest()), ConfirmDecision);
            && a.requestsByTerm[Spring] == []
            && Spring in a.studentsByTerm && a.studentsByTerm[Spring] == SpringStudents()
            && Lookup(a.studentsByTerm, Spring, []) == SpringStudents()
            && Lookup(a.serviceLogsByTerm, Spring, []) == ConfirmedSpringLogs()
            && a.terms == SeedTerms()
  {
    DistinctIds();
    assert FindFirst(SpringLogs(), LogKey, "log-002") == Some(1);
  }

  /** Confirming the seed's only request: the spring queue empties, Jordan's
      3-hour log is confirmed, Jordan reaches 15% and the term's verified
      hours grow from 4 to 7; 3 hours are reported as added. */
  lemma SeedConfirm()
    ensures var db := Resolve(Seed(), "vr-001", ConfirmDecision);
            && db.requestsByTerm[Spring] == []
            && db.serviceLogsByTerm[Spring][1].status == Confirmed
            && db.studentsByTerm[Spring][1].verifiedHours == 30
            && db.studentsByTerm[Spring][1].progress == 15
            && db.studentsByTerm[Spring][1].riskStatus == AtRisk
            && db.kpisByTerm[Spring].verifiedHours.value == 70
    ensures HoursAdded(Seed(), "vr-001") == 30
  {
    SeedFindsJordan();
    SeedApplyConfirm();
    SpringHours();
    SpringConfirmedHours();
    SpringTotals();
    ProgressValues();
    var applied := Apply(Seed(), Found(Spring, 0, JordanRequest()), ConfirmDecision);
    DemoProperties.RecomputedStudent(applied, Spring, 1);
    DemoProperties.RecomputedKpis(applied, Spring);
  }

  /** An unknown request id changes nothing and credits nothing. */
  lemma SeedUnknownRequest(d: Decision)
    ensures Resolve(Seed(), "vr-404", d) == Seed()
    ensures HoursAdded(Seed(), "vr-404") == 0
  {
    assert "vr-001" != "vr-404" by { assert "vr-001"[3] != "vr-404"[3]; }
    assert FindRequest(Seed(), "vr-404") == None;
  }

  /** One student of a 20-hour term with a confirmed 4-hour log and a
      pending 3-hour log awaiting confirmation. */
  function Scenario(): Db {
    Db(Settings("U", "T"), [Term(Spring, "Spring 2026", "", "", Some(200))], map[], map[Spring := []],
       map[Spring := [Sam()]], map[Spring := [SamDone(), SamOpen()]], map[Spring := [SamRequest()]], [Spring])
  }

  function Sam(): Student {
    Student("s-1", "Sam", "sam@example.edu", "S", ["p-1"], ["Program"], 0, 0, 0, AtRisk, 3, "")
  }

  function SamDone(): ServiceLog {
    ServiceLog("l-1", "s-1", "Sam", "sam@example.edu", "p-1", "Program", "2026-02-01", 40, "",
               OrgConfirmed, Confirmed, "")
  }

  function SamOpen(): ServiceLog {
    ServiceLog("l-2", "s-1", "Sam", "sam@example.edu", "p-1", "Program", "2026-02-08", 30, "",
               SelfReported, Pending, "")
  }

  function SamRequest(): VerificationRequest {
    VerificationRequest("r-1", "l-2", "s-1", "Sam", "sam@example.edu", "S", "p-1", "Program",
                        "awaiting_confirmation", 30, "2026-02-08", SelfReported, "", "", "")
  }

  /** Before the confirmation the student stands at 20% and at risk. */
  lemma ScenarioBefore()
    ensures var before := Recompute(Scenario(), Spring).studentsByTerm[Spring][0];
            before.verifiedHours == 40 && before.progress == 20 && before.riskStatus == AtRisk
  {
    ProgressValues();
    assert TermHours(Scenario().terms, Spring) == 200;
    assert HoursWith(Scenario().serviceLogsByTerm[Spring], "s-1", Confirmed) == 40;
    DemoProperties.RecomputedStudent(Scenario(), Spring, 0);
  }

  /** The confirmation of r-1 splices it out and confirms l-2. */
  lemma ScenarioApply()
    ensures FindRequest(Scenario(), "r-1") == Some(Found(Spring, 0, SamRequest()))
    ensures var a := Apply(Scenario(), Found(Spring, 0, SamRequest()), ConfirmDecision);
            && a.requestsByTerm[Spring] == []
            && a.studentsByTerm == Scenario().studentsByTerm
            && a.terms == Scenario().terms
            && a.serviceLogsByTerm[Spring] == [SamDone(), SamOpen().(status := Confirmed)]
  {
    assert "l-1" != "l-2" by { assert "l-1"[2] != "l-2"[2]; }
    assert FindFirst(Scenario().serviceLogsByTerm[Spring], LogKey, "l-2") == Some(1);
  }

  /** Sam's confirmed hours once l-2 is confirmed. */
  lemma SamHoursAfter()
    ensures HoursWith([SamDone(), SamOpen().(status := Confirmed)], "s-1", Confirmed) == 70
  {
    var logs := [SamDone(), SamOpen().(status := Confirmed)];
    assert logs[1..] == [logs[1]];
    assert HoursWith(logs[1..], "s-1", Confirmed) == 30;
  }

  /** After the confirmation the student stands at 35% and needs attention,
      with the queue empty. */
  lemma ScenarioConfirm()
    ensures var after := Resolve(Scenario(), "r-1", ConfirmDecision);
            && after.studentsByTerm[Spring][0].verifiedHours == 70
            && after.studentsByTerm[Spring][0].progress == 35
            && after.studentsByTerm[Spring][0].riskStatus == NeedsAttention
            && after.requestsByTerm[Spring] == []
  {
    var applied := Apply(Scenario(), Found(Spring, 0, SamRequest()), ConfirmDecision);
    ScenarioApply();
    SamHoursAfter();
    assert TermHours(applied.terms, Spring) == 200;
    StudentAfterConfirm(applied);
  }

  /** The recompute that follows the confirmation, stated over any store whose
      Spring term holds Sam's confirmed 7 hours against a 20-hour target. */
  lemma StudentAfterConfirm(applied: Db)
    requires Spring in applied.studentsByTerm && |applied.studentsByTerm[Spring]| > 0
    requires applied.studentsByTerm[Spring][0].studentId == "s-1"
    requires Spring in applied.serviceLogsByTerm
    requires HoursWith(applied.serviceLogsByTerm[Spring], "s-1", Confirmed) == 70
    requires TermHours(applied.terms, Spring) == 200
    ensures var s := Recompute(applied, Spring).studentsByTerm[Spring][0];
            s.verifiedHours == 70 && s.progress == 35 && s.riskStatus == NeedsAttention
  {
    ProgressValues();
    DemoProperties.RecomputedStudent(applied, Spring, 0);
  }

  /** A settings payload with only a university name keeps the dashboard title. */
  lemma SettingsKeepTitle()
    ensures MergeSettings(Seed().settings, SettingsPatch(Some("X"), None))
            == Settings("X", "Test Pilot Dashboard")
    ensures MergeSettings(Seed().settings, SettingsPatch(None, Some("")))
            == Seed().settings
  {
  }

  /** Risk tiers at the boundaries of the thresholds. */
  lemma RiskBoundaries()
    ensures RiskTier(75) == Risk(OnTrack, 0)
    ensures RiskTier(74) == Risk(OnTrack, 1)
    ensures RiskTier(50) == Risk(OnTrack, 1)
    ensures RiskTier(25) == Risk(NeedsAttention, 2)
    ensures RiskTier(24) == Risk(AtRisk, 3)
  {
  }
}
