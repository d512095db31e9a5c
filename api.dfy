/** The frontend's service layer over the backend API: building the query of
    GET /students, turning backend documents into the frontend's student
    shape, falling back to the bundled mock students when a request fails,
    building student details and aggregating dashboard statistics.
    A request's outcome (the parsed JSON body, or the error it raised) is an
    input; the mock students are a parameter. */
module Api {
  import opened Util
  import RiskRouter

  // ---------------------------------------------------------------------------
  // Shapes
  // ---------------------------------------------------------------------------

  /** The `risk` sub-document as the backend stores it; a missing member is
      None (JavaScript's undefined). */
  datatype BackendRisk = BackendRisk(level: Option<string>, mlProbability: Option<real>)

  /** A student document as GET /students returns it. The backend never
      writes `semester` or `gpa`, and `risk` only exists once the risk
      analysis has run. */
  datatype BackendStudent = BackendStudent(
    studentId: string,
    name: Option<string>,
    department: string,
    semester: Option<int>,
    gpa: Option<real>,
    attendance: real,
    risk: Option<BackendRisk>)

  /** The frontend's student record. */
  datatype Student = Student(
    id: string,
    name: string,
    email: string,
    studentId: string,
    department: string,
    semester: int,
    gpa: real,
    attendance: real,
    riskLevel: string,
    dropoutProbability: real)

  /** Why a request failed: the error thrown for a non-OK status, or the
      TypeError raised while reading a document that lacks a name (or is
      null). */
  datatype ApiError = RequestFailed(reason: string) | TypeError

  /** The optional filters of getStudents; an absent `filters` argument is
      three Nones. */
  datatype Filters = Filters(department: Option<string>, semester: Option<int>, riskLevel: Option<string>)

  /** JavaScript truthiness of the values that occur here (NaN left out). */
  predicate TruthyString(x: Option<string>) {
    x.Some? && x.value != ""
  }

  predicate TruthyInt(x: Option<int>) {
    x.Some? && x.value != 0
  }

  predicate TruthyReal(x: Option<real>) {
    x.Some? && x.value != 0.0
  }

  // ---------------------------------------------------------------------------
  // Query parameters
  // ---------------------------------------------------------------------------

  datatype Param = Param(key: string, value: string)

  /** The query: one parameter per truthy filter, in the order department,
      semester, risk_level. */
  function QueryParams(filters: Filters): seq<Param> {
    (if TruthyString(filters.department) then [Param("department", filters.department.value)] else [])
    + (if TruthyInt(filters.semester) then [Param("semester", IntToString(filters.semester.value))] else [])
    + (if TruthyString(filters.riskLevel) then [Param("risk_level", filters.riskLevel.value)] else [])
  }

  /** getStudents, first part: append a parameter for each truthy filter. */
  method BuildQuery(filters: Filters) returns (params: seq<Param>)
    ensures params == QueryParams(filters)
  {
    params := [];
    if TruthyString(filters.department) {
      params := params + [Param("department", filters.department.value)];
    }
    if TruthyInt(filters.semester) {
      params := params + [Param("semester", IntToString(filters.semester.value))];
    }
    if TruthyString(filters.riskLevel) {
      params := params + [Param("risk_level", filters.riskLevel.value)];
    }
  }

  /** A parameter is present exactly for a truthy filter, carries its value,
      and the parameters come in the fixed order; the semester's text reads
      back as the semester. */
  lemma QueryParamsSpec(filters: Filters)
    ensures var q := QueryParams(filters);
      && |q| <= 3
      && (forall v :: Param("department", v) in q <==> TruthyString(filters.department) && v == filters.department.value)
      && (forall v :: Param("risk_level", v) in q <==> TruthyString(filters.riskLevel) && v == filters.riskLevel.value)
      && ((exists v :: Param("semester", v) in q) <==> TruthyInt(filters.semester))
      && (forall v :: Param("semester", v) in q ==> ParseInt(v) == filters.semester)
      && (forall i, j :: 0 <= i < j < |q| ==> KeyRank(q[i].key) < KeyRank(q[j].key))
  {
    QueryDepartment(filters);
    QuerySemester(filters);
    QueryRiskLevel(filters);
    QueryOrder(filters);
  }

  lemma QueryOrder(filters: Filters)
    ensures var q := QueryParams(filters);
      |q| <= 3 && forall i, j :: 0 <= i < j < |q| ==> KeyRank(q[i].key) < KeyRank(q[j].key)
  {
  }

  lemma QueryDepartment(filters: Filters)
    ensures var q := QueryParams(filters);
      forall v :: Param("department", v) in q <==> TruthyString(filters.department) && v == filters.department.value
  {
  }

  lemma QueryRiskLevel(filters: Filters)
    ensures var q := QueryParams(filters);
      forall v :: Param("risk_level", v) in q <==> TruthyString(filters.riskLevel) && v == filters.riskLevel.value
  {
  }

  lemma QuerySemester(filters: Filters)
    ensures var q := QueryParams(filters);
      && ((exists v :: Param("semester", v) in q) <==> TruthyInt(filters.semester))
      && (forall v :: Param("semester", v) in q ==> ParseInt(v) == filters.semester)
  {
    var q := QueryParams(filters);
    if TruthyInt(filters.semester) {
      var text := IntToString(filters.semester.value);
      IntToStringRoundTrip(filters.semester.value);
      assert Param("semester", text) in q;
      assert forall v :: Param("semester", v) in q ==> v == text;
    } else {
      assert forall v :: Param("semester", v) !in q;
    }
  }

  /** Position of a key in the fixed parameter order. */
  function KeyRank(key: string): int {
    if key == "department" then 0 else if key == "semester" then 1 else 2
  }

  // ---------------------------------------------------------------------------
  // Normalisation of backend documents
  // ---------------------------------------------------------------------------

  const Domain := "@university.edu"

  /** The synthesised address: the lower-cased name with its FIRST space
      replaced by a dot, then the university domain. */
  function Email(name: string): (r: string)
    ensures |r| == |name| + |Domain|
    ensures EndsWith(r, Domain)
  {
    ReplaceFirst(LowerString(name), ' ', '.') + Domain
  }

  /** Only the first space becomes a dot: a name with its first space after
      `first` keeps every later space. */
  lemma EmailFirstSpaceOnly(first: string, rest: string)
    requires ' ' !in first
    ensures Email(first + " " + rest) == LowerString(first) + "." + LowerString(rest) + Domain
  {
    var low := LowerString(first + " " + rest);
    LowerAround(first, rest);
    IndexOfAfter(LowerString(first), ' ', LowerString(rest));
    assert low[|first| := '.'] == LowerString(first) + "." + LowerString(rest);
  }

  /** Lower-casing keeps the space and adds none. */
  lemma LowerAround(first: string, rest: string)
    requires ' ' !in first
    ensures LowerString(first + " " + rest) == LowerString(first) + " " + LowerString(rest)
    ensures ' ' !in LowerString(first)
  {
    assert LowerString(first + " " + rest) == LowerString(first) + " " + LowerString(rest);
    forall i | 0 <= i < |first|
      ensures LowerString(first)[i] != ' '
    {
      assert first[i] != ' ';
    }
  }

  /** A name without spaces is simply lower-cased. */
  lemma EmailNoSpace(name: string)
    requires ' ' !in name
    ensures Email(name) == LowerString(name) + Domain
  {
    var low := LowerString(name);
    forall i | 0 <= i < |name|
      ensures low[i] != ' '
    {
      assert name[i] != ' ';
    }
    assert ' ' !in low;
  }

  /** `risk?.level`: undefined when there is no risk record. */
  function RawLevel(b: BackendStudent): Option<string> {
    if b.risk.Some? then b.risk.value.level else None
  }

  /** `risk?.ml_probability`. */
  function RawProbability(b: BackendStudent): Option<real> {
    if b.risk.Some? then b.risk.value.mlProbability else None
  }

  /** The frontend record of one backend document. A document without a name
      makes `name.toLowerCase()` throw. Falsy values take the defaults
      semester 1, gpa 3.0, level "low" and probability 0.1; the level is
      copied as stored, without changing its case. */
  function Normalize(b: BackendStudent): (r: Result<Student, ApiError>)
    ensures r.Failure? <==> b.name.None?
    ensures r.Failure? ==> r.error == TypeError
    ensures r.Success? ==>
      var s := r.value;
      && s.id == b.studentId && s.studentId == b.studentId
      && s.name == b.name.value && s.email == Email(b.name.value)
      && s.department == b.department && s.attendance == b.attendance
      && s.semester == (if TruthyInt(b.semester) then b.semester.value else 1)
      && s.gpa == (if TruthyReal(b.gpa) then b.gpa.value else 3.0)
      && s.riskLevel == (if TruthyString(RawLevel(b)) then RawLevel(b).value else "low")
      && s.dropoutProbability == (if TruthyReal(RawProbability(b)) then RawProbability(b).value else 0.1)
  {
    match b.name
    case None => Failure(TypeError)
    case Some(name) =>
      var level := RawLevel(b);
      var probability := RawProbability(b);
      Success(Student(
        b.studentId, name, Email(name), b.studentId, b.department,
        if TruthyInt(b.semester) then b.semester.value else 1,
        if TruthyReal(b.gpa) then b.gpa.value else 3.0,
        b.attendance,
        if TruthyString(level) then level.value else "low",
        if TruthyReal(probability) then probability.value else 0.1))
  }

  /** A stored probability of exactly 0 is reported as 0.1, and a document the
      analysis has not reached yet reads as a low-risk student. */
  lemma DefaultsOverrideFalsy(b: BackendStudent)
    requires b.name.Some?
    ensures RawProbability(b) == Some(0.0) ==> Normalize(b).value.dropoutProbability == 0.1
    ensures b.risk.None? ==> Normalize(b).value.riskLevel == "low" && Normalize(b).value.dropoutProbability == 0.1
    ensures b.semester == Some(0) ==> Normalize(b).value.semester == 1
  {
  }

  /** `students.map(...)`: every document in order, or the first TypeError. */
  function NormalizeAll(bs: seq<BackendStudent>): (r: Result<seq<Student>, ApiError>)
    ensures r.Success? <==> forall i :: 0 <= i < |bs| ==> bs[i].name.Some?
    ensures r.Failure? ==> r.error == TypeError
    ensures r.Success? ==> |r.value| == |bs|
    ensures r.Success? ==> forall i :: 0 <= i < |bs| ==> Normalize(bs[i]) == Success(r.value[i])
  {
    MapAll(bs, Normalize)
  }

  // ---------------------------------------------------------------------------
  // getStudents
  // ---------------------------------------------------------------------------

  /** The mock filter: every truthy filter must match; a falsy one imposes
      nothing. */
  predicate MockMatches(filters: Filters, s: Student) {
    && (!TruthyString(filters.department) || s.department == filters.department.value)
    && (!TruthyInt(filters.semester) || s.semester == filters.semester.value)
    && (!TruthyString(filters.riskLevel) || s.riskLevel == filters.riskLevel.value)
  }

  function MockStudents(filters: Filters, mock: seq<Student>): seq<Student> {
    Filter(mock, s => MockMatches(filters, s))
  }

  /** getStudents: the normalised backend list when the request succeeds and
      every document has a name, otherwise the filtered mock students. The
      backend ignores the query, so the filters only act on the fallback. */
  function GetStudents(filters: Filters, response: Result<seq<BackendStudent>, ApiError>, mock: seq<Student>)
    : (r: seq<Student>)
    ensures (response.Success? && forall i :: 0 <= i < |response.value| ==> response.value[i].name.Some?) ==>
              |r| == |response.value|
    ensures response.Failure? ==> forall s :: s in r <==> s in mock && MockMatches(filters, s)
  {
    if response.Success? && NormalizeAll(response.value).Success? then NormalizeAll(response.value).value
    else MockStudents(filters, mock)
  }

  /** Over a successful response, one record per document, in order, with
      `id` and `student_id` both the backend student_id. */
  lemma BackendListPreserved(filters: Filters, bs: seq<BackendStudent>, mock: seq<Student>)
    requires forall i :: 0 <= i < |bs| ==> bs[i].name.Some?
    ensures var r := GetStudents(filters, Success(bs), mock);
      && |r| == |bs|
      && forall i :: 0 <= i < |bs| ==> r[i].id == bs[i].studentId && r[i].studentId == bs[i].studentId
  {
    var r := NormalizeAll(bs);
    forall i | 0 <= i < |bs|
      ensures r.value[i].id == bs[i].studentId && r.value[i].studentId == bs[i].studentId
    {
      assert Normalize(bs[i]) == Success(r.value[i]);
    }
  }

  /** A document without a name sends the whole list to the fallback. */
  lemma NamelessFallsBack(filters: Filters, bs: seq<BackendStudent>, mock: seq<Student>, k: nat)
    requires k < |bs| && bs[k].name.None?
    ensures GetStudents(filters, Success(bs), mock) == MockStudents(filters, mock)
  {
  }

  /** The fallback keeps mock students in order, keeps exactly those that
      match every supplied filter, and with no filter keeps them all. */
  lemma MockFallback(filters: Filters, mock: seq<Student>)
    ensures Subseq(MockStudents(filters, mock), mock)
    ensures forall s :: s in MockStudents(filters, mock) <==> s in mock && MockMatches(filters, s)
    ensures filters == Filters(None, None, None) ==> MockStudents(filters, mock) == mock
  {
    var p := s => MockMatches(filters, s);
    FilterIsSubseq(mock, p);
    if filters == Filters(None, None, None) {
      FilterAll(mock, p);
    }
  }

  // ---------------------------------------------------------------------------
  // getStudentDetail
  // ---------------------------------------------------------------------------

  datatype Week = Week(week: int, percentage: int)

  datatype Exam = Exam(exam: string, score: int)

  datatype StudentDetail = StudentDetail(
    student: Student,
    attendanceTrend: seq<Week>,
    scoreTrend: seq<Exam>,
    riskFactors: seq<string>,
    recommendations: seq<string>)

  /** The fixed trends every detail record carries. */
  const AttendanceTrend := [Week(1, 95), Week(2, 92), Week(3, 88), Week(4, 85), Week(5, 82), Week(6, 78)]

  const ScoreTrend := [Exam("Midterm 1", 78), Exam("Midterm 2", 72), Exam("Quiz 1", 68), Exam("Quiz 2", 65)]

  /** The canned risk factors, chosen by the raw level. */
  function DetailFactors(level: Option<string>): (r: seq<string>)
    ensures |r| == (if level == Some("high") then 3 else if level == Some("medium") then 2 else 1)
  {
    if level == Some("high") then ["Declining attendance", "Low exam scores", "Reduced engagement"]
    else if level == Some("medium") then ["Inconsistent performance", "Occasional absences"]
    else ["No significant risk factors"]
  }

  /** The canned recommendations: three for "high", two otherwise. */
  function DetailRecommendations(level: Option<string>): (r: seq<string>)
    ensures |r| == (if level == Some("high") then 3 else 2)
  {
    if level == Some("high") then ["Schedule immediate meeting", "Refer to tutoring services", "Monitor closely"]
    else ["Regular check-ins recommended", "Provide academic support"]
  }

  /** The first mock student with the given id (`Array.prototype.find`). */
  function FindById(mock: seq<Student>, id: string): (r: Option<Student>)
    ensures r.None? <==> forall i :: 0 <= i < |mock| ==> mock[i].id != id
    ensures r.Some? ==> exists k :: 0 <= k < |mock| && mock[k] == r.value
                          && r.value.id == id && forall i :: 0 <= i < k ==> mock[i].id != id
    decreases |mock|
  {
    if mock == [] then None
    else if mock[0].id == id then Some(mock[0])
    else
      var r := FindById(mock[1..], id);
      if r.Some? then
        var k :| 0 <= k < |mock[1..]| && mock[1..][k] == r.value && r.value.id == id
                   && forall i :: 0 <= i < k ==> mock[1..][i].id != id;
        assert mock[k + 1] == r.value;
        r
      else r
  }

  /** The outcome of the detail request: an error, or the parsed body, which
      is null for an unknown id. */
  type DetailResponse = Result<Option<BackendStudent>, ApiError>

  /** The error the request raised, if it raised one: a failed request, a
      null body or a nameless document. */
  function DetailError(response: DetailResponse): Option<ApiError> {
    match response
    case Failure(e) => Some(e)
    case Success(None) => Some(TypeError)
    case Success(Some(b)) => if b.name.None? then Some(TypeError) else None
  }

  /** getStudentDetail: the normalised document with canned trends, factors
      and recommendations; after an error, the mock student with that id,
      or the original error rethrown. */
  function GetStudentDetail(studentId: string, response: DetailResponse, mock: seq<Student>)
    : (r: Result<StudentDetail, ApiError>)
    ensures DetailError(response).None? ==>
              r.Success? && r.value.student.studentId == response.value.value.studentId
    ensures r.Success? ==> r.value.attendanceTrend == AttendanceTrend && r.value.scoreTrend == ScoreTrend
  {
    match DetailError(response)
    case None =>
      var b := response.value.value;
      var level := RawLevel(b);
      Success(StudentDetail(Normalize(b).value, AttendanceTrend, ScoreTrend,
                            DetailFactors(level), DetailRecommendations(level)))
    case Some(e) =>
      match FindById(mock, studentId)
      case Some(s) =>
        Success(StudentDetail(s, AttendanceTrend, ScoreTrend,
                              DetailFactors(Some(s.riskLevel)), DetailRecommendations(Some(s.riskLevel))))
      case None => Failure(e)
  }

  /** The detail fails exactly when the request raised an error and no mock
      student has the id; the error is then the one raised. A fallback
      detail is that mock student's. */
  lemma DetailFallback(studentId: string, response: DetailResponse, mock: seq<Student>)
    ensures var r := GetStudentDetail(studentId, response, mock);
      && (r.Failure? <==> DetailError(response).Some? && forall i :: 0 <= i < |mock| ==> mock[i].id != studentId)
      && (r.Failure? ==> r.error == DetailError(response).value)
      && (DetailError(response).Some? && r.Success? ==> r.value.student in mock && r.value.student.id == studentId)
  {
    var found := FindById(mock, studentId);
    if found.Some? {
      var k :| 0 <= k < |mock| && mock[k] == found.value;
      assert found.value in mock;
    }
  }

  /** Over backend data the canned lists follow the RAW level: a document
      with no risk record reports a "low" level but the "No significant risk
      factors" list, and a capitalised "High" gets the non-high lists. */
  lemma DetailListsFollowRawLevel(studentId: string, b: BackendStudent, mock: seq<Student>)
    requires b.name.Some?
    ensures var d := GetStudentDetail(studentId, Success(Some(b)), mock).value;
      && |d.riskFactors| == (if RawLevel(b) == Some("high") then 3 else if RawLevel(b) == Some("medium") then 2 else 1)
      && |d.recommendations| == (if RawLevel(b) == Some("high") then 3 else 2)
      && d.student == Normalize(b).value
  {
  }

  // ---------------------------------------------------------------------------
  // getDashboardStats
  // ---------------------------------------------------------------------------

  /** A JavaScript division result: 0 / 0 is NaN. */
  datatype Mean = Mean(value: real) | NotANumber

  function Divide(sum: real, n: nat): (r: Mean)
    ensures r.NotANumber? <==> n == 0
  {
    if n == 0 then NotANumber else Mean(sum / n as real)
  }

  datatype DashboardStats = DashboardStats(total: nat, high: nat, medium: nat, low: nat, average: Mean)

  predicate LevelIs(b: BackendStudent, name: string) {
    RawLevel(b) == Some(name)
  }

  /** `sum + (s.risk?.ml_probability || 0)`, folded from the left. */
  function ProbabilitySum(bs: seq<BackendStudent>): real
    decreases |bs|
  {
    if bs == [] then 0.0
    else
      var p := RawProbability(bs[|bs| - 1]);
      ProbabilitySum(bs[..|bs| - 1]) + (if TruthyReal(p) then p.value else 0.0)
  }

  function MockProbabilitySum(mock: seq<Student>): real
    decreases |mock|
  {
    if mock == [] then 0.0 else MockProbabilitySum(mock[..|mock| - 1]) + mock[|mock| - 1].dropoutProbability
  }

  /** Statistics over the backend list: counts of the lowercase levels only. */
  function BackendStats(bs: seq<BackendStudent>): (r: DashboardStats)
    ensures r.total == |bs| && r.high <= r.total && r.medium <= r.total && r.low <= r.total
    ensures r.average.NotANumber? <==> bs == []
  {
    DashboardStats(|bs|,
      |Filter(bs, b => LevelIs(b, "high"))|,
      |Filter(bs, b => LevelIs(b, "medium"))|,
      |Filter(bs, b => LevelIs(b, "low"))|,
      Divide(ProbabilitySum(bs), |bs|))
  }

  /** Statistics over the mock students. */
  function MockStats(mock: seq<Student>): (r: DashboardStats)
    ensures r.total == |mock| && r.high <= r.total && r.medium <= r.total && r.low <= r.total
    ensures r.average.NotANumber? <==> mock == []
  {
    DashboardStats(|mock|,
      |Filter(mock, (s: Student) => s.riskLevel == "high")|,
      |Filter(mock, (s: Student) => s.riskLevel == "medium")|,
      |Filter(mock, (s: Student) => s.riskLevel == "low")|,
      Divide(MockProbabilitySum(mock), |mock|))
  }

  /** getDashboardStats: backend statistics, or mock statistics after an
      error. */
  function GetDashboardStats(response: Result<seq<BackendStudent>, ApiError>, mock: seq<Student>)
    : (r: DashboardStats)
    ensures r.total == (if response.Success? then |response.value| else |mock|)
    ensures r.high <= r.total && r.medium <= r.total && r.low <= r.total
    ensures r.average.NotANumber? <==> r.total == 0
  {
    if response.Success? then BackendStats(response.value) else MockStats(mock)
  }

  /** The three counts never exceed the total, and reach it exactly when
      every document carries one of the three lowercase levels. */
  lemma BackendCounts(bs: seq<BackendStudent>)
    ensures var st := BackendStats(bs);
      && st.total == |bs|
      && st.high + st.medium + st.low <= st.total
      && (st.high + st.medium + st.low == st.total <==>
            forall i :: 0 <= i < |bs| ==> RawLevel(bs[i]) in {Some("high"), Some("medium"), Some("low")})
  {
    var p := b => LevelIs(b, "high");
    var q := b => LevelIs(b, "medium");
    var r := b => LevelIs(b, "low");
    FilterCountsPartition(bs, p, q, r);
  }

  /** The levels the risk analysis writes are capitalised, so none of them is
      counted: over a non-empty list of analysed documents the counts add up
      to less than the total. */
  lemma AnalysedLevelsNotCounted(bs: seq<BackendStudent>)
    requires forall i :: 0 <= i < |bs| ==>
               bs[i].risk.Some? && bs[i].risk.value.level.Some? && bs[i].risk.value.level.value in RiskRouter.Levels
    ensures var st := BackendStats(bs);
      st.high == 0 && st.medium == 0 && st.low == 0
    ensures |bs| > 0 ==> BackendStats(bs).high + BackendStats(bs).medium + BackendStats(bs).low < |bs|
  {
    FilterNone(bs, b => LevelIs(b, "high"));
    FilterNone(bs, b => LevelIs(b, "medium"));
    FilterNone(bs, b => LevelIs(b, "low"));
  }

  /** Mock students carry one of the three lowercase levels, so their
      counts add up to the total. */
  lemma MockCountsComplete(mock: seq<Student>)
    requires forall i :: 0 <= i < |mock| ==> mock[i].riskLevel in {"high", "medium", "low"}
    ensures var st := MockStats(mock);
      st.total == |mock| && st.high + st.medium + st.low == st.total
  {
    FilterCountsPartition(mock, (s: Student) => s.riskLevel == "high", (s: Student) => s.riskLevel == "medium",
                          (s: Student) => s.riskLevel == "low");
  }

  /** The mean is NaN exactly for an empty list; for probabilities in [0, 1]
      it lies in [0, 1]. */
  lemma BackendMean(bs: seq<BackendStudent>)
    requires forall i :: 0 <= i < |bs| ==> var p := RawProbability(bs[i]); p.Some? ==> 0.0 <= p.value <= 1.0
    ensures BackendStats(bs).average.NotANumber? <==> bs == []
    ensures bs != [] ==> 0.0 <= BackendStats(bs).average.value <= 1.0
  {
    var sum := ProbabilitySum(bs);
    assert BackendStats(bs).average == Divide(sum, |bs|);
    if bs != [] {
      SumBounds(bs);
      RatioBounds(sum, |bs| as real);
    }
  }

  lemma RatioBounds(x: real, y: real)
    requires 0.0 <= x <= y && y > 0.0
    ensures 0.0 <= x / y <= 1.0
  {
  }

  lemma {:induction false} SumBounds(bs: seq<BackendStudent>)
    requires forall i :: 0 <= i < |bs| ==> var p := RawProbability(bs[i]); p.Some? ==> 0.0 <= p.value <= 1.0
    ensures 0.0 <= ProbabilitySum(bs) <= |bs| as real
    decreases |bs|
  {
    if bs != [] {
      SumBounds(bs[..|bs| - 1]);
    }
  }
}
