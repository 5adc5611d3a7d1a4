/** The backend's seed (`_seed_data` in backend/server.py), hours in tenths,
    and concrete scenarios run through the model. `now` is the seed's one
    timestamp. */
module ServerSeed {
  import opened Wrappers
  import opened Seqs
  import opened ServerData
  import ServerProperties

  const Spring: string := "spring-2026"
  const Fall: string := "fall-2025"
  const Summer: string := "summer-2026"

  function TermsData(): seq<Term> {
    [ Term(Fall, "Fall 2025", "2025-09-01", "2025-12-15"),
      Term(Spring, "Spring 2026", "2026-01-15", "2026-05-15"),
      Term(Summer, "Summer 2026", "2026-06-01", "2026-08-15") ]
  }

  function ProgramsData(): seq<Program> {
    [ Program("csc-001", "Columbia Service Corps", Campus, Spring, 420, "heart"),
      Program("gi-002", "Green Initiative", Campus, Spring, 315, "leaf"),
      Program("hno-003", "Hope NYC Outreach", ProgramType.NgoPartner, Spring, 399, "hands-helping"),
      Program("csc-fall", "Columbia Service Corps", Campus, Fall, 380, "heart"),
      Program("gi-fall", "Green Initiative", Campus, Fall, 290, "leaf"),
      Program("summer-prog", "Summer Volunteer Program", Campus, Summer, 150, "sun") ]
  }

  function StudentsData(): seq<Student> {
    [ Student("std-001", "Lily Robbins", "lily.robbins@columbia.edu", ["csc-001"], Some("LR")),
      Student("std-002", "Tai Chen", "tai.chen@columbia.edu", ["gi-002"], Some("TC")),
      Student("std-003", "Sacha Lewiner", "sacha.lewiner@columbia.edu", ["hno-003"], Some("SL")),
      Student("std-004", "Maria Garcia", "maria.garcia@columbia.edu", ["csc-001", "gi-002"], Some("MG")),
      Student("std-005", "James Wilson", "james.wilson@columbia.edu", ["hno-003"], Some("JW")) ]
  }

  function LogsData(now: string): seq<ServiceLog> {
    [ ServiceLog("log-001", "std-001", "csc-001", "2026-02-15", 40, "Food bank volunteering",
                 OrgConfirmed, LogStatus.Confirmed, now, now),
      ServiceLog("log-002", "std-002", "gi-002", "2026-02-20", 35, "Tree planting at Central Park",
                 OrgConfirmed, LogStatus.Confirmed, now, now),
      ServiceLog("log-003", "std-003", "hno-003", "2026-03-01", 50, "Homeless shelter support",
                 OrgConfirmed, LogStatus.Confirmed, now, now),
      ServiceLog("log-004", "std-001", "csc-001", "2026-03-10", 30, "Community Garden Training Program",
                 SelfReported, Pending, now, now),
      ServiceLog("log-005", "std-002", "gi-002", "2026-03-12", 25, "Harlem Distribution Center volunteering",
                 SelfReported, Pending, now, now),
      ServiceLog("log-006", "std-003", "hno-003", "2026-03-14", 40, "After-School Academic Support",
                 SelfReported, Pending, now, now),
      ServiceLog("log-007", "std-001", "csc-fall", "2025-10-15", 60, "Fall community event",
                 OrgConfirmed, LogStatus.Confirmed, now, now) ]
  }

  function RequestsData(): seq<VerificationRequest> {
    [ VerificationRequest("vr-001", "log-004", "std-001", "csc-001", AwaitingConfirmation, None,
                          Some("Harlem Grown - Community Urban Farming Program"), Some("M-S Sustainable Harvesting")),
      VerificationRequest("vr-002", "log-005", "std-002", "gi-002", AwaitingConfirmation, None,
                          Some("The Food Bank for New York City - Harlem Distribution Center"), Some("W-S Mobile Pantry")),
      VerificationRequest("vr-003", "log-006", "std-003", "hno-003", AwaitingConfirmation, None,
                          Some("Chess Volunteers - After-School Academic Support"), Some("Tutoring assistance")) ]
  }

  /** The seeded store, dictionaries in seed order. */
  function Seeded(now: string): Server {
    Server(TermsData(), ProgramsData(), StudentsData(), LogsData(now), RequestsData(), [], Settings(DefaultUniversity))
  }

  /** `DataStore()` fills empty dictionaries from the seed lists
      (`DataStore.constructor`); the seed ids are distinct, so that gives
      the seed lists in their order, and the store is well formed. */
  lemma SeededIsData(now: string)
    ensures Server(PutAll([], TermKey, TermsData()), PutAll([], ProgramKey, ProgramsData()),
                   PutAll([], StudentKey, StudentsData()), PutAll([], LogKey, LogsData(now)),
                   PutAll([], RequestKey, RequestsData()), [], Settings(DefaultUniversity)) == Seeded(now)
    ensures Valid(Seeded(now))
  {
    SeedDistinct(now);
    PutAllDistinct(TermKey, TermsData());
    PutAllDistinct(ProgramKey, ProgramsData());
    PutAllDistinct(StudentKey, StudentsData());
    PutAllDistinct(LogKey, LogsData(now));
    PutAllDistinct(RequestKey, RequestsData());
  }

  /** The seed ids of each table are distinct. */
  lemma SeedDistinct(now: string)
    ensures DistinctKeys(TermsData(), TermKey) && DistinctKeys(ProgramsData(), ProgramKey)
    ensures DistinctKeys(StudentsData(), StudentKey) && DistinctKeys(RequestsData(), RequestKey)
    ensures DistinctKeys(LogsData(now), LogKey)
  {
    TermsDistinct();
    ProgramsDistinct();
    StudentsDistinct();
    RequestsDistinct();
    LogsDistinct(now);
  }

  lemma TermsDistinct() ensures DistinctKeys(TermsData(), TermKey) {}
  lemma ProgramsDistinct() ensures DistinctKeys(ProgramsData(), ProgramKey) {}
  lemma StudentsDistinct() ensures DistinctKeys(StudentsData(), StudentKey) {}
  lemma RequestsDistinct() ensures DistinctKeys(RequestsData(), RequestKey) {}
  lemma LogsDistinct(now: string) ensures DistinctKeys(LogsData(now), LogKey) {}

  lemma SpringPrograms()
    ensures TermProgramIds(ProgramsData(), Spring) == ["csc-001", "gi-002", "hno-003"]
    ensures |TermPrograms(ProgramsData(), Spring)| == 3
  {
    var ps := ProgramsData();
    assert ps[3..][1..] == [ps[4], ps[5]];
  }

  /** The seed's spring program ids are different from the other terms'. */
  lemma SpringIdsExclude()
    ensures "csc-fall" !in ["csc-001", "gi-002", "hno-003"]
  {
    assert "csc-fall"[4] != "csc-001"[4];
    assert "csc-fall"[0] != "gi-002"[0] && "csc-fall"[0] != "hno-003"[0];
  }

  /** The spring confirmed logs are the first three. */
  lemma SpringConfirmedFilter(now: string)
    ensures Filter(LogsData(now), ConfirmedIn(["csc-001", "gi-002", "hno-003"])) == LogsData(now)[..3]
  {
    SpringIdsExclude();
    var logs := LogsData(now);
    var p := ConfirmedIn(["csc-001", "gi-002", "hno-003"]);
    assert logs[6..][1..] == [];
    assert Filter(logs[6..], p) == [];
    assert logs[5..][1..] == logs[6..];
    assert Filter(logs[5..], p) == [];
    assert logs[4..][1..] == logs[5..];
    assert Filter(logs[4..], p) == [];
    assert logs[3..][1..] == logs[4..];
    assert Filter(logs[3..], p) == [];
    assert logs[2..][1..] == logs[3..];
    assert Filter(logs[2..], p) == [logs[2]];
    assert logs[1..][1..] == logs[2..];
    assert Filter(logs[1..], p) == [logs[1], logs[2]];
    assert Filter(logs, p) == [logs[0], logs[1], logs[2]];
  }

  /** Three logs of three different students. */
  lemma ThreeLogs(a: ServiceLog, b: ServiceLog, c: ServiceLog)
    requires a.studentId != b.studentId && a.studentId != c.studentId && b.studentId != c.studentId
    ensures SumHours([a, b, c]) == a.hours + b.hours + c.hours
    ensures |StudentIds([a, b, c])| == 3
  {
    var logs := [a, b, c];
    assert logs[1..] == [b, c] && logs[1..][1..] == [c] && logs[1..][1..][1..] == [];
    ServerProperties.StudentIdsCons(logs);
    ServerProperties.StudentIdsCons(logs[1..]);
    ServerProperties.StudentIdsCons(logs[1..][1..]);
    assert StudentIds(logs[1..][1..][1..]) == {};
    assert StudentIds(logs) == {a.studentId, b.studentId, c.studentId};
    assert SumHours(logs[1..][1..]) == c.hours;
  }

  /** 4 + 3.5 + 5 hours from three different students. */
  lemma SpringConfirmedTotals(now: string)
    ensures SumHours(LogsData(now)[..3]) == 125
    ensures |StudentIds(LogsData(now)[..3])| == 3
  {
    var logs := LogsData(now);
    assert logs[..3] == [logs[0], logs[1], logs[2]];
    assert "std-001"[6] != "std-002"[6] && "std-001"[6] != "std-003"[6] && "std-002"[6] != "std-003"[6];
    ThreeLogs(logs[0], logs[1], logs[2]);
  }

  lemma SpringReport()
    ensures Report(Spring, 12, 3, 3) ==
            KpiReport(Kpi(8432, "+16% vs last semester"), Kpi(1137, "+20% vs last semester"),
                      Kpi(3, "+1 new since Mar 2024"), Kpi(78, "+5% vs last semester"))
  {
  }

  /** `get_kpis("spring-2026")` on the seed: 8420 + int(12.5) verified hours,
      1134 + 3 active students, 3 programs and the fixed retention of 78. */
  lemma SeedSpringKpis(now: string)
    ensures GetKpis(Seeded(now), Spring) ==
            KpiReport(Kpi(8432, "+16% vs last semester"), Kpi(1137, "+20% vs last semester"),
                      Kpi(3, "+1 new since Mar 2024"), Kpi(78, "+5% vs last semester"))
  {
    SpringKpisOf(Seeded(now), now);
  }

  lemma SpringKpisOf(st: Server, now: string)
    requires st.programs == ProgramsData() && st.serviceLogs == LogsData(now)
    ensures GetKpis(st, Spring) == Report(Spring, 12, 3, 3)
  {
    SpringPrograms();
    SpringConfirmedFilter(now);
    SpringConfirmedTotals(now);
    SpringReport();
    assert ConfirmedLogs(st, Spring) == LogsData(now)[..3];
    KpisFrom(st, Spring, LogsData(now)[..3], 125, 3, 3);
  }

  /** Confirming `vr-001` on the seed: the request and its log `log-004` are
      confirmed and spring's verified hours go from int(12.5) to int(15.5)
      on top of the 8420 offset. */
  lemma SeedConfirmSpring(now: string, now2: string, eventId: string)
    ensures var r := Act(Seeded(now), "vr-001", ConfirmAction, now2, eventId);
            && r.Success?
            && r.value.serviceLogs[3].logId == "log-004" && r.value.serviceLogs[3].status == LogStatus.Confirmed
            && r.value.verificationRequests[0].status == VerificationStatus.Confirmed
            && GetKpis(r.value, Spring).verifiedHours == Kpi(8435, "+16% vs last semester")
  {
    SeededIsData(now);
    SeedConfirmOn(Seeded(now), now, now2, eventId);
  }

  lemma SeedConfirmOn(st: Server, now: string, now2: string, eventId: string)
    requires Valid(st) && st.programs == ProgramsData() && st.serviceLogs == LogsData(now)
    requires st.verificationRequests == RequestsData()
    ensures var r := Act(st, "vr-001", ConfirmAction, now2, eventId);
            && r.Success?
            && r.value.serviceLogs[3].logId == "log-004" && r.value.serviceLogs[3].status == LogStatus.Confirmed
            && r.value.verificationRequests[0].status == VerificationStatus.Confirmed
            && GetKpis(r.value, Spring).verifiedHours == Kpi(8435, "+16% vs last semester")
  {
    SpringPrograms();
    SpringKpisOf(st, now);
    SpringConfirmedFilter(now);
    SpringConfirmedTotals(now);
    assert SumHours(ConfirmedLogs(st, Spring)) == 125;
    ConfirmSpringLog(st, 0, 3, now2, eventId);
  }

  /** Confirming the request at index `i`, whose log at index `j` is a
      pending 3-hour spring log, on a store whose spring logs hold 12.5
      confirmed hours. */
  lemma ConfirmSpringLog(st: Server, i: nat, j: nat, now2: string, eventId: string)
    requires Valid(st)
    requires i < |st.verificationRequests| && st.verificationRequests[i].requestId == "vr-001"
    requires j < |st.serviceLogs| && st.serviceLogs[j].logId == st.verificationRequests[i].logId
    requires st.serviceLogs[j].logId == "log-004" && st.serviceLogs[j].hours == 30
    requires st.serviceLogs[j].status != LogStatus.Confirmed
    requires st.serviceLogs[j].programId in TermProgramIds(st.programs, Spring)
    requires SumHours(ConfirmedLogs(st, Spring)) == 125
    ensures var r := Act(st, "vr-001", ConfirmAction, now2, eventId);
            && r.Success?
            && r.value.serviceLogs[j].logId == "log-004" && r.value.serviceLogs[j].status == LogStatus.Confirmed
            && r.value.verificationRequests[i].status == VerificationStatus.Confirmed
            && GetKpis(r.value, Spring).verifiedHours == Kpi(8435, "+16% vs last semester")
  {
    ConfirmOneOfTerm(st, "vr-001", now2, eventId, Spring, i, j);
    var st' := Act(st, "vr-001", ConfirmAction, now2, eventId).value;
    SpringHours(GetKpis(st', Spring), SumHours(ConfirmedLogs(st', Spring)), |StudentIds(ConfirmedLogs(st', Spring))|,
                |TermPrograms(st.programs, Spring)|);
  }

  lemma SpringHours(k: KpiReport, tenths: nat, students: int, programs: int)
    requires k == Report(Spring, tenths / 10, students, programs)
    ensures k.verifiedHours == Kpi(8420 + tenths / 10, "+16% vs last semester")
  {
  }

  /** Confirming a pending log of the term adds its tenths to the term's confirmed sum. */
  lemma ConfirmOneOfTerm(st: Server, requestId: string, now: string, eventId: string, termId: string, i: nat, j: nat)
    requires Valid(st)
    requires i < |st.verificationRequests| && st.verificationRequests[i].requestId == requestId
    requires j < |st.serviceLogs| && st.serviceLogs[j].logId == st.verificationRequests[i].logId
    requires st.serviceLogs[j].status != LogStatus.Confirmed
    requires st.serviceLogs[j].programId in TermProgramIds(st.programs, termId)
    ensures var r := Act(st, requestId, ConfirmAction, now, eventId);
            && r.Success?
            && r.value.serviceLogs[j].logId == st.serviceLogs[j].logId
            && r.value.serviceLogs[j].status == LogStatus.Confirmed
            && r.value.verificationRequests[i].status == VerificationStatus.Confirmed
            && SumHours(ConfirmedLogs(r.value, termId)) == SumHours(ConfirmedLogs(st, termId)) + st.serviceLogs[j].hours
            && GetKpis(r.value, termId) == Report(termId, SumHours(ConfirmedLogs(r.value, termId)) / 10,
                                                  |StudentIds(ConfirmedLogs(r.value, termId))|,
                                                  |TermPrograms(st.programs, termId)|)
  {
    FindFirstUnique(st.verificationRequests, RequestKey, i);
    ServerProperties.ActSuccess(st, requestId, ConfirmAction, now, eventId, i, j);
    ServerProperties.ActOutcome(st, requestId, ConfirmAction, now, eventId, i, j);
    ServerProperties.ActConfirmedHours(st, requestId, ConfirmAction, now, eventId, termId, j);
  }

  lemma OtherPrograms()
    ensures TermProgramIds(ProgramsData(), Fall) == ["csc-fall", "gi-fall"]
    ensures |TermPrograms(ProgramsData(), Fall)| == 2
    ensures TermProgramIds(ProgramsData(), Summer) == ["summer-prog"]
    ensures |TermPrograms(ProgramsData(), Summer)| == 1
  {
    var ps := ProgramsData();
    assert ps[3..][1..] == [ps[4], ps[5]];
    assert Fall[0] != Spring[0] && Fall[0] != Summer[0] && Spring[1] != Summer[1];
  }

  /** Only `log-007` is a confirmed fall log. */
  lemma FallConfirmedFilter(now: string)
    ensures Filter(LogsData(now), ConfirmedIn(["csc-fall", "gi-fall"])) == [LogsData(now)[6]]
  {
    var logs := LogsData(now);
    var p := ConfirmedIn(["csc-fall", "gi-fall"]);
    assert "csc-001"[4] != "csc-fall"[4] && "csc-001"[0] != "gi-fall"[0];
    assert "gi-002"[0] != "csc-fall"[0] && "gi-002"[3] != "gi-fall"[3];
    assert "hno-003"[0] != "csc-fall"[0] && "hno-003"[0] != "gi-fall"[0];
    var init := logs[..6];
    assert logs == init + [logs[6]];
    assert !p(logs[0]) && !p(logs[1]) && !p(logs[2]);
    assert !p(logs[3]) && !p(logs[4]) && !p(logs[5]);
    forall i | 0 <= i < |init| ensures !p(init[i]) {
      assert init[i] == logs[i];
    }
    FilterNone(init, p);
    FilterAppend(init, [logs[6]], p);
    assert Filter([logs[6]], p) == [logs[6]];
  }

  /** No seed log belongs to the summer program. */
  lemma SummerConfirmedFilter(now: string)
    ensures Filter(LogsData(now), ConfirmedIn(["summer-prog"])) == []
  {
    var logs := LogsData(now);
    var p := ConfirmedIn(["summer-prog"]);
    assert "csc-001"[0] != "summer-prog"[0] && "gi-002"[0] != "summer-prog"[0];
    assert "hno-003"[0] != "summer-prog"[0] && "csc-fall"[0] != "summer-prog"[0];
    assert logs[6..][1..] == [];
    assert Filter(logs[6..], p) == [];
    assert logs[5..][1..] == logs[6..];
    assert Filter(logs[5..], p) == [];
    assert logs[4..][1..] == logs[5..];
    assert Filter(logs[4..], p) == [];
    assert logs[3..][1..] == logs[4..];
    assert Filter(logs[3..], p) == [];
    assert logs[2..][1..] == logs[3..];
    assert Filter(logs[2..], p) == [];
    assert logs[1..][1..] == logs[2..];
    assert Filter(logs[1..], p) == [];
  }

  /** `get_kpis("fall-2025")`: 7260 + int(6.0) hours, 945 + 1 student,
      2 programs, the fixed 73; `get_kpis("summer-2026")`: the "New term"
      report, with no confirmed hours, no students and the one program. */
  lemma SeedOtherKpis(now: string)
    ensures GetKpis(Seeded(now), Fall) ==
            KpiReport(Kpi(7266, "+12% vs previous"), Kpi(946, "+15% vs previous"),
                      Kpi(2, "Baseline term"), Kpi(73, "Baseline term"))
    ensures GetKpis(Seeded(now), Summer) ==
            KpiReport(Kpi(0, "New term"), Kpi(0, "New term"), Kpi(1, "New term"), Kpi(0, "New term"))
  {
    FallKpisOf(Seeded(now), now);
    SummerKpisOf(Seeded(now), now);
    assert Report(Fall, 6, 1, 2) == KpiReport(Kpi(7266, "+12% vs previous"), Kpi(946, "+15% vs previous"),
                                              Kpi(2, "Baseline term"), Kpi(73, "Baseline term"));
  }

  lemma FallKpisOf(st: Server, now: string)
    requires st.programs == ProgramsData() && st.serviceLogs == LogsData(now)
    ensures GetKpis(st, Fall) == Report(Fall, 6, 1, 2)
  {
    OtherPrograms();
    FallTotals(now);
    assert ConfirmedLogs(st, Fall) == [LogsData(now)[6]] by { FallConfirmedFilter(now); }
    KpisFrom(st, Fall, [LogsData(now)[6]], 60, 1, 2);
  }

  /** The report of a term whose confirmed logs, their tenths, their
      students and the term's programs are known. */
  lemma KpisFrom(st: Server, termId: string, logs: seq<ServiceLog>, tenths: nat, students: nat, programs: nat)
    requires ConfirmedLogs(st, termId) == logs && SumHours(logs) == tenths
    requires |StudentIds(logs)| == students && |TermPrograms(st.programs, termId)| == programs
    ensures GetKpis(st, termId) == Report(termId, tenths / 10, students, programs)
  {
  }

  lemma SummerKpisOf(st: Server, now: string)
    requires st.programs == ProgramsData() && st.serviceLogs == LogsData(now)
    ensures GetKpis(st, Summer) == Report(Summer, 0, 0, 1)
  {
    OtherPrograms();
    assert ConfirmedLogs(st, Summer) == [] by { SummerConfirmedFilter(now); }
    assert StudentIds([]) == {};
    KpisFrom(st, Summer, [], 0, 0, 1);
  }

  lemma FallTotals(now: string)
    ensures SumHours([LogsData(now)[6]]) == 60
    ensures |StudentIds([LogsData(now)[6]])| == 1
  {
    var fall := [LogsData(now)[6]];
    assert fall[1..] == [];
    ServerProperties.StudentIdsCons(fall);
    assert StudentIds(fall[1..]) == {};
  }
}
