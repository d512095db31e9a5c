/** POST /analyze-risk: every stored student gets a `risk` record combining
    the rule score with the machine-learning probability. The database is an
    in-memory table keyed by student_id; the probability model is a
    parameter. */
module RiskRouter {
  import opened Util
  import opened RiskEngine

  /** The `risk` sub-document written for each student. */
  datatype Risk = Risk(ruleScore: int, mlProbability: real, level: string)

  /** A stored document: the student record plus the risk written by the
      last analysis, if any. */
  datatype StudentDoc = StudentDoc(student: Student, risk: Option<Risk>)

  /** The labels this endpoint writes, capitalised. */
  const Levels: set<string> := {"High", "Medium", "Low"}

  /** The level for a rule score and a probability: High when the score
      reaches 3 or the probability exceeds 0.7, else Medium for a score of
      exactly 2, else Low. */
  function DecideLevel(ruleScore: int, mlProbability: real): (level: string)
    ensures level in Levels
    ensures level == "High" <==> ruleScore >= 3 || mlProbability > 0.7
    ensures level == "Medium" <==> ruleScore == 2 && mlProbability <= 0.7
    ensures level == "Low" <==> ruleScore < 2 && mlProbability <= 0.7
  {
    if ruleScore >= 3 || mlProbability > 0.7 then "High"
    else if ruleScore == 2 then "Medium"
    else "Low"
  }

  /** A single point of rule score is never enough for Medium. */
  lemma ScoreOneIsLow(mlProbability: real)
    requires mlProbability <= 0.7
    ensures DecideLevel(1, mlProbability) == "Low"
    ensures DecideLevel(0, mlProbability) == "Low"
  {
  }

  /** Raising the probability above 0.7 gives High whatever the score. */
  lemma ProbabilityOverrides(ruleScore: int, mlProbability: real)
    requires mlProbability > 0.7
    ensures DecideLevel(ruleScore, mlProbability) == "High"
  {
  }

  /** The document after analysis: the student's own record decides the
      rule score and, through the model, the probability. */
  function Analyzed(doc: StudentDoc, model: (int, int) -> real): (r: StudentDoc)
    ensures r.student == doc.student
    ensures r.risk.Some?
    ensures r.risk.value.ruleScore == RuleScore(doc.student)
    ensures r.risk.value.level in Levels
  {
    var s := doc.student;
    var score := RuleScore(s);
    var p := model(s.attendance, s.consecutiveAbsences);
    doc.(risk := Some(Risk(score, p, DecideLevel(score, p))))
  }

  /** The risk written does not depend on any earlier risk record, so a
      second analysis with the same model writes the same values. */
  lemma AnalyzeTwice(doc: StudentDoc, model: (int, int) -> real)
    ensures Analyzed(Analyzed(doc, model), model) == Analyzed(doc, model)
  {
  }

  /** The student table. Each document is stored under its own student_id. */
  class StudentsCollection {
    var docs: map<string, StudentDoc>

    ghost predicate Valid()
      reads this
    {
      forall id :: id in docs ==> docs[id].student.studentId == id
    }

    constructor(initial: map<string, StudentDoc>)
      requires forall id :: id in initial ==> initial[id].student.studentId == id
      ensures Valid()
      ensures docs == initial
    {
      docs := initial;
    }

    /** analyze: visit every document once, compute its rule score and
        probability, choose the level and set its `risk` field through an
        update keyed by student_id. No document is added or removed and
        nothing but `risk` changes. */
    method Analyze(model: (int, int) -> real) returns (message: string)
      requires Valid()
      modifies this
      ensures Valid()
      ensures docs.Keys == old(docs).Keys
      ensures forall id :: id in docs ==> docs[id] == Analyzed(old(docs)[id], model)
      ensures forall id :: id in docs ==> docs[id].student == old(docs)[id].student
      ensures message == "Risk analysis completed"
    {
      var pending := docs.Keys;
      ghost var before := docs;
      while pending != {}
        invariant pending <= docs.Keys
        invariant docs.Keys == before.Keys
        invariant Valid()
        invariant forall id :: id in docs && id in pending ==> docs[id] == before[id]
        invariant forall id :: id in docs && id !in pending ==> docs[id] == Analyzed(before[id], model)
        decreases pending
      {
        var key :| key in pending;
        var s := docs[key].student;
        var ruleScore := CalculateRisk(s);
        var mlProb := model(s.attendance, s.consecutiveAbsences);
        var level := "Low";
        if ruleScore >= 3 || mlProb > 0.7 {
          level := "High";
        } else if ruleScore == 2 {
          level := "Medium";
        }
        assert level == DecideLevel(ruleScore, mlProb);
        var id := s.studentId;
        docs := docs[id := docs[id].(risk := Some(Risk(ruleScore, mlProb, level)))];
        pending := pending - {key};
      }
      message := "Risk analysis completed";
    }
  }
}
