/** The students list page: filter selections initialised from the query
    string, the effect that narrows the loaded students by each selection
    that is not its "All ..." sentinel, and the change and reset handlers. */
module StudentsPage {
  import opened Util
  import opened Api

  const AllDepartments := "All Departments"
  const AllSemesters := "All Semesters"
  const AllRiskLevels := "All Risk Levels"

  /** The three selections, as the select boxes hold them (strings). */
  datatype Selection = Selection(department: string, semester: string, riskLevel: string)

  /** The keys handleFilterChange is called with. */
  datatype FilterKey = Department | Semester | RiskLevel

  /** `searchParams.get(key) || sentinel`: an absent or empty query value
      selects the sentinel. */
  function QueryOr(query: map<string, string>, key: string, sentinel: string): (r: string)
    ensures key in query && query[key] != "" ==> r == query[key]
    ensures !(key in query && query[key] != "") ==> r == sentinel
  {
    if key in query && query[key] != "" then query[key] else sentinel
  }

  function InitialSelection(query: map<string, string>): (r: Selection)
    ensures r.department == QueryOr(query, "department", AllDepartments)
    ensures r.semester == QueryOr(query, "semester", AllSemesters)
    ensures r.riskLevel == QueryOr(query, "risk_level", AllRiskLevels)
  {
    Selection(QueryOr(query, "department", AllDepartments),
              QueryOr(query, "semester", AllSemesters),
              QueryOr(query, "risk_level", AllRiskLevels))
  }

  /** Each selection alone: a sentinel accepts everyone; otherwise the field
      must equal the selection, the semester after parseInt (NaN, None here,
      equals nothing). */
  predicate DepartmentOk(sel: Selection, s: Student) {
    sel.department == AllDepartments || s.department == sel.department
  }

  predicate SemesterOk(sel: Selection, s: Student) {
    sel.semester == AllSemesters || ParseInt(sel.semester) == Some(s.semester)
  }

  predicate RiskLevelOk(sel: Selection, s: Student) {
    sel.riskLevel == AllRiskLevels || s.riskLevel == sel.riskLevel
  }

  predicate Matches(sel: Selection, s: Student) {
    DepartmentOk(sel, s) && SemesterOk(sel, s) && RiskLevelOk(sel, s)
  }

  /** The students the page shows: those matching all three selections, in
      their loaded order. */
  function Visible(students: seq<Student>, sel: Selection): (r: seq<Student>)
    ensures Subseq(r, students)
    ensures forall s :: s in r <==> s in students && Matches(sel, s)
  {
    FilterIsSubseq(students, s => Matches(sel, s));
    Filter(students, s => Matches(sel, s))
  }

  /** The filter effect: start from a copy of the students and narrow it by
      each selection that is not its sentinel. */
  method ApplyFilters(students: seq<Student>, sel: Selection) returns (result: seq<Student>)
    ensures result == Visible(students, sel)
  {
    var dep := (s: Student) => DepartmentOk(sel, s);
    var sem := (s: Student) => SemesterOk(sel, s);
    var risk := (s: Student) => RiskLevelOk(sel, s);
    var depSem := (s: Student) => DepartmentOk(sel, s) && SemesterOk(sel, s);
    var all := (s: Student) => Matches(sel, s);
    result := students;
    if sel.department != AllDepartments {
      result := Filter(result, (s: Student) => s.department == sel.department);
      FilterAgree(students, (s: Student) => s.department == sel.department, dep);
    } else {
      FilterAll(students, dep);
    }
    assert result == Filter(students, dep);
    if sel.semester != AllSemesters {
      var n := ParseInt(sel.semester);
      FilterAgree(result, (s: Student) => n == Some(s.semester), sem);
      result := Filter(result, (s: Student) => n == Some(s.semester));
    } else {
      FilterAll(result, sem);
    }
    FilterTwice(students, dep, sem, depSem);
    assert result == Filter(students, depSem);
    if sel.riskLevel != AllRiskLevels {
      FilterAgree(result, (s: Student) => s.riskLevel == sel.riskLevel, risk);
      result := Filter(result, (s: Student) => s.riskLevel == sel.riskLevel);
    } else {
      FilterAll(result, risk);
    }
    FilterTwice(students, depSem, risk, all);
  }

  /** handleFilterChange: set one key, keep the other two. */
  function HandleFilterChange(sel: Selection, key: FilterKey, value: string): (r: Selection)
    ensures key == Department ==> r == Selection(value, sel.semester, sel.riskLevel)
    ensures key == Semester ==> r == Selection(sel.department, value, sel.riskLevel)
    ensures key == RiskLevel ==> r == Selection(sel.department, sel.semester, value)
  {
    match key
    case Department => sel.(department := value)
    case Semester => sel.(semester := value)
    case RiskLevel => sel.(riskLevel := value)
  }

  /** handleReset: every selection back to its sentinel. */
  function HandleReset(): (r: Selection)
    ensures r.department == AllDepartments && r.semester == AllSemesters && r.riskLevel == AllRiskLevels
  {
    Selection(AllDepartments, AllSemesters, AllRiskLevels)
  }

  /** After a reset the page shows every loaded student. */
  lemma ResetShowsAll(students: seq<Student>)
    ensures Visible(students, HandleReset()) == students
  {
    FilterAll(students, s => Matches(HandleReset(), s));
  }

  /** Selecting the sentinel of one key lifts that key's constraint only:
      the visible list is the one the other two selections give. */
  lemma SentinelLiftsConstraint(students: seq<Student>, sel: Selection)
    ensures Visible(students, HandleFilterChange(sel, Department, AllDepartments))
         == Filter(students, (s: Student) => SemesterOk(sel, s) && RiskLevelOk(sel, s))
  {
    var r := HandleFilterChange(sel, Department, AllDepartments);
    FilterAgree(students, s => Matches(r, s), (s: Student) => SemesterOk(sel, s) && RiskLevelOk(sel, s));
  }

  /** A semester selection that is not a number (parseInt gives NaN) hides
      everyone. */
  lemma UnparsableSemesterHidesAll(students: seq<Student>, sel: Selection)
    requires sel.semester != AllSemesters && ParseInt(sel.semester).None?
    ensures Visible(students, sel) == []
  {
    FilterNone(students, s => Matches(sel, s));
  }

  /** Choosing a semester from the list compares it as a number. */
  lemma SemesterSelection(sel: Selection, s: Student, n: nat)
    requires sel.semester == IntToString(n)
    ensures SemesterOk(sel, s) <==> s.semester == n
  {
    IntToStringRoundTrip(n);
  }
}
