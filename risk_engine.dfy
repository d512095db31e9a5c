/** The rule-based risk score of the backend's risk engine: one point for
    low attendance, one for a run of absences and one per subject that has
    been attempted at least twice. */
module RiskEngine {
  import opened Util

  /** One subject of a student's academic record. */
  datatype Subject = Subject(subject: string, scores: seq<int>, attemptsUsed: int)

  /** A student document as stored by the backend. */
  datatype Student = Student(
    studentId: string,
    name: string,
    department: string,
    attendance: int,
    consecutiveAbsences: int,
    academics: seq<Subject>)

  /** A subject that counts against the student: attempted two or more times. */
  predicate Repeated(s: Subject) {
    s.attemptsUsed >= 2
  }

  function Bit(b: bool): (n: nat)
    ensures n <= 1
    ensures n == 1 <==> b
  {
    if b then 1 else 0
  }

  /** The score as the sum of its three parts: attendance below 75,
      five or more consecutive absences, and the number of repeated subjects. */
  function RuleScore(student: Student): (score: nat)
    ensures score <= 2 + |student.academics|
  {
    Bit(student.attendance < 75) + Bit(student.consecutiveAbsences >= 5)
      + |Filter(student.academics, Repeated)|
  }

  /** calculate_risk: the two attendance tests, then one point per repeated
      subject, in the order the subjects are listed. */
  method CalculateRisk(student: Student) returns (score: int)
    ensures score == RuleScore(student)
    ensures 0 <= score <= 2 + |student.academics|
  {
    score := 0;
    if student.attendance < 75 {
      score := score + 1;
    }
    if student.consecutiveAbsences >= 5 {
      score := score + 1;
    }
    ghost var base := score;
    var academics := student.academics;
    for i := 0 to |academics|
      invariant score == base + |Filter(academics[..i], Repeated)|
    {
      assert academics[..i + 1] == academics[..i] + [academics[i]];
      FilterConcat(academics[..i], [academics[i]], Repeated);
      if academics[i].attemptsUsed >= 2 {
        score := score + 1;
      }
    }
    assert academics[..|academics|] == academics;
  }

  /** Appending a subject adds one point exactly when it was attempted at
      least twice, and never lowers the score. */
  lemma AppendSubject(student: Student, sub: Subject)
    ensures var grown := student.(academics := student.academics + [sub]);
      RuleScore(grown) == RuleScore(student) + Bit(sub.attemptsUsed >= 2)
      && RuleScore(grown) >= RuleScore(student)
  {
    FilterConcat(student.academics, [sub], Repeated);
  }

  /** The score does not depend on the order in which subjects are listed. */
  lemma OrderIndependent(student: Student, academics: seq<Subject>)
    requires multiset(academics) == multiset(student.academics)
    ensures RuleScore(student.(academics := academics)) == RuleScore(student)
  {
    FilterCountPermutation(academics, student.academics, Repeated);
  }

  /** When every subject is repeated, each one contributes a point. */
  lemma AllRepeated(student: Student)
    requires forall i :: 0 <= i < |student.academics| ==> Repeated(student.academics[i])
    ensures RuleScore(student) >= |student.academics|
  {
    FilterAll(student.academics, Repeated);
  }
}
