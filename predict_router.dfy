/** The prediction endpoints: intervention recommendations built from
    threshold tests, the single-student response and the batch response. */
module PredictRouter {
  import opened Util
  import opened MlPredict

  /** The request body after validation (attendance and marks in [0, 100],
      study hours in [0, 24], counts non-negative). */
  datatype PredictionRequest = PredictionRequest(
    attendance: real,
    internalMarks: real,
    backlogs: int,
    studyHours: real,
    previousFailures: int)
  {
    predicate Valid() {
      && 0.0 <= attendance <= 100.0
      && 0.0 <= internalMarks <= 100.0
      && backlogs >= 0
      && 0.0 <= studyHours <= 24.0
      && previousFailures >= 0
    }

    /** request.dict(): every field is present. */
    function AsDict(): Record {
      StudentData(attendance, internalMarks, backlogs, studyHours, previousFailures)
    }
  }

  /** One recommendation; Text() is the message the endpoint returns. */
  datatype Advice =
    | CriticalCounseling
    | ContactGuardians
    | MonitorAttendance
    | AttendanceWarning
    | PeerTutor
    | StudyPlan
    | ExtraTutoring
    | BacklogCounseling
    | BacklogTimeline
    | BacklogGroup
    | TimeManagement
    | ProductivityTools
    | OptimizeSchedule
    | AcademicCounseling
    | FailurePatterns
    | DedicatedMentor
    | WeeklyMonitoring
    | MonthlyMonitoring
    | SupportPrograms
    | MaintainPerformance
    | PeerMentoring
    | NoInterventions
  {
    function Text(): string {
      match this
      case CriticalCounseling => "🚨 Critical: Schedule immediate counseling session"
      case ContactGuardians => "📞 Contact parents/guardians about attendance issues"
      case MonitorAttendance => "⚠️ Monitor attendance closely"
      case AttendanceWarning => "📧 Send attendance warning notification"
      case PeerTutor => "📚 Assign peer tutor"
      case StudyPlan => "🎯 Create personalized study plan"
      case ExtraTutoring => "📖 Recommend additional tutoring sessions"
      case BacklogCounseling => "⏰ Urgent: Backlog clearance counseling"
      case BacklogTimeline => "📝 Create backlog clearance timeline"
      case BacklogGroup => "📋 Set up backlog study group"
      case TimeManagement => "⏱️ Time management workshop"
      case ProductivityTools => "📱 Recommend productivity tools"
      case OptimizeSchedule => "💡 Optimize study schedule"
      case AcademicCounseling => "🎓 Academic counseling"
      case FailurePatterns => "🔄 Review failure patterns"
      case DedicatedMentor => "👥 Assign dedicated mentor"
      case WeeklyMonitoring => "📊 Weekly progress monitoring"
      case MonthlyMonitoring => "👀 Monthly monitoring"
      case SupportPrograms => "💬 Encourage support programs"
      case MaintainPerformance => "✅ Maintain current performance"
      case PeerMentoring => "🌟 Consider peer mentoring"
      case NoInterventions => "✅ No specific interventions required"
    }

    /** The test group an item belongs to, in the order the tests run. */
    function Group(): nat {
      match this
      case CriticalCounseling | ContactGuardians | MonitorAttendance | AttendanceWarning => 0
      case PeerTutor | StudyPlan | ExtraTutoring => 1
      case BacklogCounseling | BacklogTimeline | BacklogGroup => 2
      case TimeManagement | ProductivityTools | OptimizeSchedule => 3
      case AcademicCounseling | FailurePatterns => 4
      case DedicatedMentor | WeeklyMonitoring | MonthlyMonitoring | SupportPrograms
        | MaintainPerformance | PeerMentoring => 5
      case NoInterventions => 6
    }
  }

  // One group of advice per test, each a function of the value it tests.

  function AttendanceAdvice(attendance: real): seq<Advice> {
    if attendance < 60.0 then [CriticalCounseling, ContactGuardians]
    else if attendance < 75.0 then [MonitorAttendance, AttendanceWarning]
    else []
  }

  function MarksAdvice(marks: real): seq<Advice> {
    if marks < 40.0 then [PeerTutor, StudyPlan]
    else if marks < 60.0 then [ExtraTutoring]
    else []
  }

  function BacklogAdvice(backlogs: real): seq<Advice> {
    if backlogs >= 3.0 then [BacklogCounseling, BacklogTimeline]
    else if backlogs > 0.0 then [BacklogGroup]
    else []
  }

  function StudyAdvice(hours: real): seq<Advice> {
    if hours < 2.0 then [TimeManagement, ProductivityTools]
    else if hours < 4.0 then [OptimizeSchedule]
    else []
  }

  function FailureAdvice(failures: real): seq<Advice> {
    if failures > 0.0 then [AcademicCounseling, FailurePatterns] else []
  }

  /** Any level other than "high" or "medium" gets the low-risk pair. */
  function LevelAdvice(riskLevel: string): seq<Advice> {
    if riskLevel == "high" then [DedicatedMentor, WeeklyMonitoring]
    else if riskLevel == "medium" then [MonthlyMonitoring, SupportPrograms]
    else [MaintainPerformance, PeerMentoring]
  }

  /** The groups in their fixed order, with the defaults for missing keys:
      attendance and marks 100, backlogs, study hours and failures 0. */
  function Recommendations(data: Record, riskLevel: string): seq<Advice> {
    AttendanceAdvice(Get(data, "attendance", 100.0))
      + MarksAdvice(Get(data, "internal_marks", 100.0))
      + BacklogAdvice(Get(data, "backlogs", 0.0))
      + StudyAdvice(Get(data, "study_hours", 0.0))
      + FailureAdvice(Get(data, "previous_failures", 0.0))
      + LevelAdvice(riskLevel)
  }

  // Each block of generate_recommendations extends the list in place; the
  // blocks are separate methods so that each is verified on its own.

  method AddAttendance(recommendations: seq<Advice>, attendance: real) returns (r: seq<Advice>)
    ensures r == recommendations + AttendanceAdvice(attendance)
  {
    r := recommendations;
    if attendance < 60.0 {
      r := r + [CriticalCounseling, ContactGuardians];
    } else if attendance < 75.0 {
      r := r + [MonitorAttendance, AttendanceWarning];
    }
  }

  method AddAcademics(recommendations: seq<Advice>, internalMarks: real) returns (r: seq<Advice>)
    ensures r == recommendations + MarksAdvice(internalMarks)
  {
    r := recommendations;
    if internalMarks < 40.0 {
      r := r + [PeerTutor, StudyPlan];
    } else if internalMarks < 60.0 {
      r := r + [ExtraTutoring];
    }
  }

  method AddBacklogs(recommendations: seq<Advice>, backlogs: real) returns (r: seq<Advice>)
    ensures r == recommendations + BacklogAdvice(backlogs)
  {
    r := recommendations;
    if backlogs >= 3.0 {
      r := r + [BacklogCounseling, BacklogTimeline];
    } else if backlogs > 0.0 {
      r := r + [BacklogGroup];
    }
  }

  method AddStudyHabits(recommendations: seq<Advice>, studyHours: real) returns (r: seq<Advice>)
    ensures r == recommendations + StudyAdvice(studyHours)
  {
    r := recommendations;
    if studyHours < 2.0 {
      r := r + [TimeManagement, ProductivityTools];
    } else if studyHours < 4.0 {
      r := r + [OptimizeSchedule];
    }
  }

  method AddFailures(recommendations: seq<Advice>, previousFailures: real) returns (r: seq<Advice>)
    ensures r == recommendations + FailureAdvice(previousFailures)
  {
    r := recommendations;
    if previousFailures > 0.0 {
      r := r + [AcademicCounseling, FailurePatterns];
    }
  }

  method AddRiskLevel(recommendations: seq<Advice>, riskLevel: string) returns (r: seq<Advice>)
    ensures r == recommendations + LevelAdvice(riskLevel)
  {
    r := recommendations;
    if riskLevel == "high" {
      r := r + [DedicatedMentor, WeeklyMonitoring];
    } else if riskLevel == "medium" {
      r := r + [MonthlyMonitoring, SupportPrograms];
    } else {
      r := r + [MaintainPerformance, PeerMentoring];
    }
  }

  /** generate_recommendations: read the five values with their defaults,
      run the six blocks in order, and fall back to the "no interventions"
      item if nothing was added. */
  method GenerateRecommendations(data: Record, riskLevel: string) returns (recommendations: seq<Advice>)
    ensures recommendations == Recommendations(data, riskLevel)
    ensures recommendations != []
  {
    var attendance := Get(data, "attendance", 100.0);
    var internalMarks := Get(data, "internal_marks", 100.0);
    var backlogs := Get(data, "backlogs", 0.0);
    var studyHours := Get(data, "study_hours", 0.0);
    var previousFailures := Get(data, "previous_failures", 0.0);

    recommendations := [];
    recommendations := AddAttendance(recommendations, attendance);
    recommendations := AddAcademics(recommendations, internalMarks);
    recommendations := AddBacklogs(recommendations, backlogs);
    recommendations := AddStudyHabits(recommendations, studyHours);
    recommendations := AddFailures(recommendations, previousFailures);
    recommendations := AddRiskLevel(recommendations, riskLevel);
    assert [] + AttendanceAdvice(attendance) == AttendanceAdvice(attendance);
    assert |LevelAdvice(riskLevel)| == 2;

    if recommendations == [] {
      recommendations := [NoInterventions];
    }
  }

  /** The shape of any six groups of at most two items each, the last of
      exactly two, none of them the fallback item. */
  lemma SixGroupsShape(g1: seq<Advice>, g2: seq<Advice>, g3: seq<Advice>,
                       g4: seq<Advice>, g5: seq<Advice>, g6: seq<Advice>)
    requires |g1| <= 2 && |g2| <= 2 && |g3| <= 2 && |g4| <= 2 && |g5| <= 2 && |g6| == 2
    requires NoInterventions !in g1 && NoInterventions !in g2 && NoInterventions !in g3
    requires NoInterventions !in g4 && NoInterventions !in g5 && NoInterventions !in g6
    ensures var r := g1 + g2 + g3 + g4 + g5 + g6;
      2 <= |r| <= 12 && r[|r| - 2..] == g6 && NoInterventions !in r
  {
    var front := g1 + g2 + g3 + g4 + g5;
    assert NoInterventions !in front;
    assert (front + g6)[|front + g6| - 2..] == g6;
  }

  /** Between 2 and 12 items, always ending with exactly the two items of the
      risk level, so the "no interventions" fallback is never used. */
  lemma RecommendationsShape(data: Record, riskLevel: string)
    ensures var r := Recommendations(data, riskLevel);
      && 2 <= |r| <= 12
      && r[|r| - 2..] == LevelAdvice(riskLevel)
      && NoInterventions !in r
  {
    var g1 := AttendanceAdvice(Get(data, "attendance", 100.0));
    var g2 := MarksAdvice(Get(data, "internal_marks", 100.0));
    var g3 := BacklogAdvice(Get(data, "backlogs", 0.0));
    var g4 := StudyAdvice(Get(data, "study_hours", 0.0));
    var g5 := FailureAdvice(Get(data, "previous_failures", 0.0));
    var g6 := LevelAdvice(riskLevel);
    assert |g1| <= 2 && NoInterventions !in g1;
    assert |g2| <= 2 && NoInterventions !in g2;
    assert |g3| <= 2 && NoInterventions !in g3;
    assert |g4| <= 2 && NoInterventions !in g4;
    assert |g5| <= 2 && NoInterventions !in g5;
    assert |g6| == 2 && NoInterventions !in g6;
    SixGroupsShape(g1, g2, g3, g4, g5, g6);
  }

  predicate InGroup(r: seq<Advice>, k: nat) {
    forall i :: 0 <= i < |r| ==> r[i].Group() == k
  }

  predicate GroupsInOrder(r: seq<Advice>) {
    forall i, j :: 0 <= i < j < |r| ==> r[i].Group() <= r[j].Group()
  }

  lemma GroupAppend(a: seq<Advice>, b: seq<Advice>, k: nat)
    requires GroupsInOrder(a) && forall i :: 0 <= i < |a| ==> a[i].Group() <= k
    requires InGroup(b, k)
    ensures GroupsInOrder(a + b)
    ensures forall i :: 0 <= i < |a + b| ==> (a + b)[i].Group() <= k
  {
  }

  /** Six groups numbered 0 to 5, concatenated in that order. */
  lemma SixGroupsInOrder(g1: seq<Advice>, g2: seq<Advice>, g3: seq<Advice>,
                         g4: seq<Advice>, g5: seq<Advice>, g6: seq<Advice>)
    requires InGroup(g1, 0) && InGroup(g2, 1) && InGroup(g3, 2)
    requires InGroup(g4, 3) && InGroup(g5, 4) && InGroup(g6, 5)
    ensures GroupsInOrder(g1 + g2 + g3 + g4 + g5 + g6)
  {
    GroupAppend([], g1, 0);
    assert [] + g1 == g1;
    GroupAppend(g1, g2, 1);
    GroupAppend(g1 + g2, g3, 2);
    GroupAppend(g1 + g2 + g3, g4, 3);
    GroupAppend(g1 + g2 + g3 + g4, g5, 4);
    GroupAppend(g1 + g2 + g3 + g4 + g5, g6, 5);
  }

  lemma FirstGroups(attendance: real, marks: real, backlogs: real)
    ensures InGroup(AttendanceAdvice(attendance), 0) && InGroup(MarksAdvice(marks), 1)
    ensures InGroup(BacklogAdvice(backlogs), 2)
  {
    assert InGroup(AttendanceAdvice(attendance), 0) by {}
    assert InGroup(MarksAdvice(marks), 1) by {}
  }

  lemma LastGroups(hours: real, failures: real, riskLevel: string)
    ensures InGroup(StudyAdvice(hours), 3) && InGroup(FailureAdvice(failures), 4)
    ensures InGroup(LevelAdvice(riskLevel), 5)
  {
    assert InGroup(StudyAdvice(hours), 3) by {}
    assert InGroup(FailureAdvice(failures), 4) by {}
  }

  /** Items come group by group: attendance, marks, backlogs, study hours,
      failures, then the risk level. */
  lemma RecommendationsInGroupOrder(data: Record, riskLevel: string)
    ensures GroupsInOrder(Recommendations(data, riskLevel))
  {
    var attendance, marks := Get(data, "attendance", 100.0), Get(data, "internal_marks", 100.0);
    var backlogs, hours := Get(data, "backlogs", 0.0), Get(data, "study_hours", 0.0);
    var failures := Get(data, "previous_failures", 0.0);
    FirstGroups(attendance, marks, backlogs);
    LastGroups(hours, failures, riskLevel);
    SixGroupsInOrder(AttendanceAdvice(attendance), MarksAdvice(marks), BacklogAdvice(backlogs),
                     StudyAdvice(hours), FailureAdvice(failures), LevelAdvice(riskLevel));
  }

  /** Whatever the record, the list closes with the pair for the level:
      "high" and "medium" get their own pairs, and every other string,
      including the capitalised levels, gets the low-risk pair. */
  lemma LevelTail(data: Record, riskLevel: string)
    ensures var r := Recommendations(data, riskLevel);
      && |r| >= 2
      && (riskLevel == "high" ==> r[|r| - 2..] == [DedicatedMentor, WeeklyMonitoring])
      && (riskLevel == "medium" ==> r[|r| - 2..] == [MonthlyMonitoring, SupportPrograms])
      && (riskLevel != "high" && riskLevel != "medium" ==>
            r[|r| - 2..] == [MaintainPerformance, PeerMentoring])
  {
    RecommendationsShape(data, riskLevel);
  }

  /** The attendance bands are exclusive: below 60 gives the two critical
      items, 60 up to 75 the two warning items, 75 or more neither. */
  lemma AttendanceBands(data: Record, riskLevel: string)
    ensures var a := Get(data, "attendance", 100.0);
      var r := Recommendations(data, riskLevel);
      && (a < 60.0 ==> r[..2] == [CriticalCounseling, ContactGuardians])
      && (60.0 <= a < 75.0 ==> r[..2] == [MonitorAttendance, AttendanceWarning])
      && (CriticalCounseling in r <==> a < 60.0)
      && (MonitorAttendance in r <==> 60.0 <= a < 75.0)
  {
    var rest := MarksAdvice(Get(data, "internal_marks", 100.0)) + BacklogAdvice(Get(data, "backlogs", 0.0))
      + StudyAdvice(Get(data, "study_hours", 0.0)) + FailureAdvice(Get(data, "previous_failures", 0.0))
      + LevelAdvice(riskLevel);
    NoAttendanceItemsAfter(Get(data, "internal_marks", 100.0), Get(data, "backlogs", 0.0),
                           Get(data, "study_hours", 0.0), Get(data, "previous_failures", 0.0), riskLevel);
    assert Recommendations(data, riskLevel) == AttendanceAdvice(Get(data, "attendance", 100.0)) + rest;
  }

  /** The attendance items come from the attendance group only. */
  lemma NoAttendanceItemsAfter(marks: real, backlogs: real, hours: real, failures: real, riskLevel: string)
    ensures var rest := MarksAdvice(marks) + BacklogAdvice(backlogs) + StudyAdvice(hours)
                        + FailureAdvice(failures) + LevelAdvice(riskLevel);
      CriticalCounseling !in rest && MonitorAttendance !in rest
  {
    var g2, g3, g4, g5, g6 := MarksAdvice(marks), BacklogAdvice(backlogs), StudyAdvice(hours),
                              FailureAdvice(failures), LevelAdvice(riskLevel);
    assert CriticalCounseling !in g2 && MonitorAttendance !in g2;
    assert CriticalCounseling !in g3 && MonitorAttendance !in g3;
    assert CriticalCounseling !in g4 && MonitorAttendance !in g4;
    assert CriticalCounseling !in g5 && MonitorAttendance !in g5;
    assert CriticalCounseling !in g6 && MonitorAttendance !in g6;
  }

  /** Each two-tier test adds two items below its lower bound, one item
      below its upper bound and none otherwise. */
  lemma TierSizes(data: Record)
    ensures var m := Get(data, "internal_marks", 100.0);
      |MarksAdvice(m)| == (if m < 40.0 then 2 else if m < 60.0 then 1 else 0)
    ensures var b := Get(data, "backlogs", 0.0);
      |BacklogAdvice(b)| == (if b >= 3.0 then 2 else if b > 0.0 then 1 else 0)
    ensures var h := Get(data, "study_hours", 0.0);
      |StudyAdvice(h)| == (if h < 2.0 then 2 else if h < 4.0 then 1 else 0)
  {
  }

  /** Without a study_hours key the hours default to 0, which triggers the
      two time-management items. */
  lemma MissingStudyHours(data: Record, riskLevel: string)
    requires "study_hours" !in data
    ensures TimeManagement in Recommendations(data, riskLevel)
    ensures ProductivityTools in Recommendations(data, riskLevel)
  {
    var front := AttendanceAdvice(Get(data, "attendance", 100.0))
      + MarksAdvice(Get(data, "internal_marks", 100.0))
      + BacklogAdvice(Get(data, "backlogs", 0.0));
    var back := FailureAdvice(Get(data, "previous_failures", 0.0)) + LevelAdvice(riskLevel);
    assert Recommendations(data, riskLevel) == front + [TimeManagement, ProductivityTools] + back;
  }

  // ---------------------------------------------------------------------------
  // Endpoints
  // ---------------------------------------------------------------------------

  datatype Response = Response(result: Prediction, recommendations: seq<Advice>)

  datatype BatchResponse = BatchResponse(total: nat, predictions: seq<Response>)

  /** The response for one request when the model gives `probability`. */
  function ExpectedResponse(request: PredictionRequest, probability: real): Response {
    var data := request.AsDict();
    var level := CalculateRiskLevel(probability, data);
    Response(
      Prediction(probability, level, if probability > 0.5 then 1 else 0, RiskFactors(data),
                 PredictionConfidence(probability)),
      Recommendations(data, level.Name()))
  }

  /** POST /predict/: the prediction plus recommendations for its level. */
  method PredictStudentDropout(request: PredictionRequest, probability: real) returns (response: Response)
    ensures response == ExpectedResponse(request, probability)
  {
    var result := PredictDropout(probability, request.attendance, request.internalMarks, request.backlogs,
                                 request.studyHours, request.previousFailures);
    var recommendations := GenerateRecommendations(request.AsDict(), result.riskLevel.Name());
    response := Response(result, recommendations);
  }

  /** The single-request response as a function of the request, for a model
      that maps each request to its probability. */
  function Respond(model: PredictionRequest -> real): PredictionRequest -> Response {
    request => ExpectedResponse(request, model(request))
  }

  /** POST /predict/batch: one response per request, in request order (each
      the response POST /predict/ gives for that request), and a total equal
      to the number of requests. */
  method PredictBatch(students: seq<PredictionRequest>, model: PredictionRequest -> real)
    returns (batch: BatchResponse)
    ensures batch.total == |students|
    ensures batch.predictions == Map(students, Respond(model))
  {
    var results: seq<Response> := [];
    for i := 0 to |students|
      invariant results == Map(students[..i], Respond(model))
    {
      var result := PredictStudentDropout(students[i], model(students[i]));
      assert result == Respond(model)(students[i]);
      MapPrefix(students, Respond(model), i);
      results := results + [result];
    }
    assert students[..|students|] == students;
    batch := BatchResponse(|students|, results);
  }

  lemma BatchElementwise(students: seq<PredictionRequest>, model: PredictionRequest -> real, i: nat)
    requires i < |students|
    ensures Map(students, Respond(model))[i] == ExpectedResponse(students[i], model(students[i]))
  {
    MapElementwise(students, Respond(model));
  }
}
