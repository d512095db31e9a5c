/** The rule-based part of the dropout predictor: feature preparation, the
    three risk bands, the risk-factor list, the confidence label and the
    rule-based fallback score. The trained model's probability is an input. */
module MlPredict {
  import opened Util

  /** A student record as a Python dict of numbers; keys may be missing. */
  type Record = map<string, real>

  /** dict.get(key, default) */
  function Get(d: Record, key: string, default: real): real {
    if key in d then d[key] else default
  }

  /** The five feature names, in the order the model expects when no
      feature-order file is present. */
  const DefaultFeatureOrder: seq<string> :=
    ["attendance", "internal_marks", "backlogs", "study_hours", "previous_failures"]

  /** A value of the dict handed to feature preparation. */
  datatype FieldValue = Number(x: real) | NoneValue | EmptyString

  /** The lower, middle and upper band; each prints as its lower-case name. */
  datatype Level = Low | Medium | High {
    function Name(): string {
      match this
      case Low => "low"
      case Medium => "medium"
      case High => "high"
    }

    function Rank(): nat {
      match this
      case Low => 0
      case Medium => 1
      case High => 2
    }
  }

  // ---------------------------------------------------------------------------
  // Feature preparation
  // ---------------------------------------------------------------------------

  /** One number per feature name, in the given order; a missing key, a None
      and an empty string all become 0. The model's 1-row matrix is this row. */
  method PrepareFeatures(data: map<string, FieldValue>, featureNames: seq<string>)
    returns (features: seq<real>)
    ensures |features| == |featureNames|
    ensures forall i :: 0 <= i < |featureNames| && featureNames[i] in data && data[featureNames[i]].Number? ==>
              features[i] == data[featureNames[i]].x
    ensures forall i :: 0 <= i < |featureNames| && (featureNames[i] !in data || !data[featureNames[i]].Number?) ==>
              features[i] == 0.0
  {
    features := [];
    for k := 0 to |featureNames|
      invariant |features| == k
      invariant forall i :: 0 <= i < k && featureNames[i] in data && data[featureNames[i]].Number? ==>
                  features[i] == data[featureNames[i]].x
      invariant forall i :: 0 <= i < k && (featureNames[i] !in data || !data[featureNames[i]].Number?) ==>
                  features[i] == 0.0
    {
      var name := featureNames[k];
      var value := if name in data then data[name] else Number(0.0);
      if value.NoneValue? || value.EmptyString? {
        value := Number(0.0);
      }
      features := features + [value.x];
    }
  }

  // ---------------------------------------------------------------------------
  // Risk level
  // ---------------------------------------------------------------------------

  /** High when any high criterion holds, else Medium when any medium
      criterion holds, else Low. Attendance defaults to 100, backlogs to 0. */
  function CalculateRiskLevel(probability: real, data: Record): (r: Level)
    ensures r == High <==>
      probability > 0.7 || Get(data, "attendance", 100.0) < 60.0 || Get(data, "backlogs", 0.0) >= 3.0
    ensures r == Medium <==>
      r != High && (probability > 0.4 || Get(data, "attendance", 100.0) < 75.0 || Get(data, "backlogs", 0.0) >= 1.0)
    ensures r == Low <==>
      probability <= 0.4 && Get(data, "attendance", 100.0) >= 75.0 && Get(data, "backlogs", 0.0) < 1.0
  {
    var attendance := Get(data, "attendance", 100.0);
    var backlogs := Get(data, "backlogs", 0.0);
    if probability > 0.7 || attendance < 60.0 || backlogs >= 3.0 then High
    else if probability > 0.4 || attendance < 75.0 || backlogs >= 1.0 then Medium
    else Low
  }

  /** A higher probability, more backlogs or lower attendance never gives a
      lower band. */
  lemma RiskLevelMonotone(p: real, d: Record, q: real, e: Record)
    requires p <= q
    requires Get(d, "attendance", 100.0) >= Get(e, "attendance", 100.0)
    requires Get(d, "backlogs", 0.0) <= Get(e, "backlogs", 0.0)
    ensures CalculateRiskLevel(p, d).Rank() <= CalculateRiskLevel(q, e).Rank()
  {
  }

  // ---------------------------------------------------------------------------
  // Risk factors
  // ---------------------------------------------------------------------------

  /** One entry of the factor list; each carries the number its message
      quotes. The message texts are formatted from these numbers. */
  datatype Factor =
    | LowAttendance(attendance: real)
    | LowInternalMarks(marks: real)
    | Backlogs(backlogs: real)
    | InsufficientStudyHours(hours: real)
    | PreviousFailures(failures: real)
    | NoSignificantFactors
  {
    /** The position of the check that produces this entry; the sentinel last. */
    function Order(): nat {
      match this
      case LowAttendance(_) => 0
      case LowInternalMarks(_) => 1
      case Backlogs(_) => 2
      case InsufficientStudyHours(_) => 3
      case PreviousFailures(_) => 4
      case NoSignificantFactors => 5
    }

    /** Whether this entry's check fires for the number it carries. */
    predicate Fires() {
      match this
      case LowAttendance(a) => a < 75.0
      case LowInternalMarks(m) => m < 50.0
      case Backlogs(b) => b > 0.0
      case InsufficientStudyHours(h) => h < 3.0
      case PreviousFailures(f) => f > 0.0
      case NoSignificantFactors => false
    }
  }

  /** The one-entry list of a factor whose check fires, else nothing. */
  function Entry(f: Factor): (r: seq<Factor>)
    ensures r == [] || r == [f]
    ensures f in r <==> f.Fires()
  {
    if f.Fires() then [f] else []
  }

  /** The five candidate entries with the record's values (and the defaults:
      attendance and marks 100, everything else 0), in check order. */
  function Candidates(data: Record): seq<Factor> {
    [ LowAttendance(Get(data, "attendance", 100.0)),
      LowInternalMarks(Get(data, "internal_marks", 100.0)),
      Backlogs(Get(data, "backlogs", 0.0)),
      InsufficientStudyHours(Get(data, "study_hours", 0.0)),
      PreviousFailures(Get(data, "previous_failures", 0.0)) ]
  }

  /** Each check contributes its entry when it fires, in check order. */
  function Fired(data: Record): seq<Factor> {
    var c := Candidates(data);
    Entry(c[0]) + Entry(c[1]) + Entry(c[2]) + Entry(c[3]) + Entry(c[4])
  }

  /** When no check fires, the list is the lone sentinel. */
  function RiskFactors(data: Record): seq<Factor> {
    var fired := Fired(data);
    if fired == [] then [NoSignificantFactors] else fired
  }

  method IdentifyRiskFactors(data: Record) returns (factors: seq<Factor>)
    ensures factors == RiskFactors(data)
  {
    factors := [];
    var attendance := Get(data, "attendance", 100.0);
    var internalMarks := Get(data, "internal_marks", 100.0);
    var backlogs := Get(data, "backlogs", 0.0);
    var studyHours := Get(data, "study_hours", 0.0);
    var previousFailures := Get(data, "previous_failures", 0.0);

    factors := CheckAttendance(factors, attendance);
    factors := CheckMarks(factors, internalMarks);
    factors := CheckBacklogs(factors, backlogs);
    factors := CheckStudyHours(factors, studyHours);
    factors := CheckFailures(factors, previousFailures);
    assert [] + Entry(LowAttendance(attendance)) == Entry(LowAttendance(attendance));
    assert Candidates(data) == [LowAttendance(attendance), LowInternalMarks(internalMarks),
      Backlogs(backlogs), InsufficientStudyHours(studyHours), PreviousFailures(previousFailures)];
    if factors == [] {
      factors := [NoSignificantFactors];
    }
  }

  // The five checks, one helper each.

  method CheckAttendance(factors: seq<Factor>, attendance: real) returns (r: seq<Factor>)
    ensures r == factors + Entry(LowAttendance(attendance))
  {
    r := factors;
    if attendance < 75.0 {
      r := r + [LowAttendance(attendance)];
    }
  }

  method CheckMarks(factors: seq<Factor>, internalMarks: real) returns (r: seq<Factor>)
    ensures r == factors + Entry(LowInternalMarks(internalMarks))
  {
    r := factors;
    if internalMarks < 50.0 {
      r := r + [LowInternalMarks(internalMarks)];
    }
  }

  method CheckBacklogs(factors: seq<Factor>, backlogs: real) returns (r: seq<Factor>)
    ensures r == factors + Entry(Backlogs(backlogs))
  {
    r := factors;
    if backlogs > 0.0 {
      r := r + [Backlogs(backlogs)];
    }
  }

  method CheckStudyHours(factors: seq<Factor>, studyHours: real) returns (r: seq<Factor>)
    ensures r == factors + Entry(InsufficientStudyHours(studyHours))
  {
    r := factors;
    if studyHours < 3.0 {
      r := r + [InsufficientStudyHours(studyHours)];
    }
  }

  method CheckFailures(factors: seq<Factor>, previousFailures: real) returns (r: seq<Factor>)
    ensures r == factors + Entry(PreviousFailures(previousFailures))
  {
    r := factors;
    if previousFailures > 0.0 {
      r := r + [PreviousFailures(previousFailures)];
    }
  }

  /** At most five entries, each from a check that fired and each check's
      entry present exactly when it fires. */
  lemma {:induction false} FiredEntries(data: Record)
    ensures |Fired(data)| <= 5
    ensures forall f :: f in Fired(data) <==> f in Candidates(data) && f.Fires()
  {
    var c := Candidates(data);
    assert forall f :: f in Fired(data) <==>
      f in Entry(c[0]) || f in Entry(c[1]) || f in Entry(c[2]) || f in Entry(c[3]) || f in Entry(c[4]);
    assert forall f :: f in c <==> f == c[0] || f == c[1] || f == c[2] || f == c[3] || f == c[4];
  }

  /** Entries whose check positions strictly increase. */
  predicate Ascending(r: seq<Factor>) {
    forall i, j :: 0 <= i < j < |r| ==> r[i].Order() < r[j].Order()
  }

  /** Entries all at check position k. */
  predicate AtPosition(e: seq<Factor>, k: nat) {
    forall i :: 0 <= i < |e| ==> e[i].Order() == k
  }

  lemma AscendingAppend(a: seq<Factor>, e: seq<Factor>, k: nat)
    requires Ascending(a) && forall i :: 0 <= i < |a| ==> a[i].Order() < k
    requires |e| <= 1 && AtPosition(e, k)
    ensures Ascending(a + e)
    ensures forall i :: 0 <= i < |a + e| ==> (a + e)[i].Order() <= k
  {
  }

  /** The entries keep the order of the checks (attendance, marks, backlogs,
      study hours, failures), so no check appears twice. */
  lemma FiredInCheckOrder(data: Record)
    ensures Ascending(Fired(data))
  {
    var c := Candidates(data);
    var e0, e1, e2, e3, e4 := Entry(c[0]), Entry(c[1]), Entry(c[2]), Entry(c[3]), Entry(c[4]);
    assert AtPosition(e0, 0) && AtPosition(e1, 1) && AtPosition(e2, 2);
    assert AtPosition(e3, 3) && AtPosition(e4, 4);
    FiveInOrder(e0, e1, e2, e3, e4);
  }

  /** Five lists of at most one entry, at positions 0 to 4, concatenated in
      that order. */
  lemma FiveInOrder(e0: seq<Factor>, e1: seq<Factor>, e2: seq<Factor>, e3: seq<Factor>, e4: seq<Factor>)
    requires |e0| <= 1 && |e1| <= 1 && |e2| <= 1 && |e3| <= 1 && |e4| <= 1
    requires AtPosition(e0, 0) && AtPosition(e1, 1) && AtPosition(e2, 2)
    requires AtPosition(e3, 3) && AtPosition(e4, 4)
    ensures Ascending(e0 + e1 + e2 + e3 + e4)
  {
    AscendingAppend([], e0, 0);
    assert [] + e0 == e0;
    AscendingAppend(e0, e1, 1);
    AscendingAppend(e0 + e1, e2, 2);
    AscendingAppend(e0 + e1 + e2, e3, 3);
    AscendingAppend(e0 + e1 + e2 + e3, e4, 4);
  }

  /** The list is never empty: it is the lone sentinel exactly when none of
      the five checks fires. */
  lemma RiskFactorsShape(data: Record)
    ensures var r := RiskFactors(data);
      && 1 <= |r| <= 5
      && (r == [NoSignificantFactors] <==>
            !(Get(data, "attendance", 100.0) < 75.0 || Get(data, "internal_marks", 100.0) < 50.0
              || Get(data, "backlogs", 0.0) > 0.0 || Get(data, "study_hours", 0.0) < 3.0
              || Get(data, "previous_failures", 0.0) > 0.0))
      && (r != [NoSignificantFactors] ==> r == Fired(data))
  {
    FiredEntries(data);
    var c := Candidates(data);
    assert c[0] in c && c[1] in c && c[2] in c && c[3] in c && c[4] in c;
    if Fired(data) != [] {
      assert Fired(data)[0] in Fired(data);
    }
  }

  // ---------------------------------------------------------------------------
  // Confidence
  // ---------------------------------------------------------------------------

  /** Confidence is low near 0.5, medium a little further out, high near 0 or 1. */
  function PredictionConfidence(probability: real): (r: Level)
    ensures r == Low <==> 0.4 <= probability <= 0.6
    ensures r == Medium <==> (0.2 <= probability < 0.4) || (0.6 < probability <= 0.8)
    ensures r == High <==> probability < 0.2 || probability > 0.8
  {
    if probability > 0.8 || probability < 0.2 then High
    else if probability > 0.6 || probability < 0.4 then Medium
    else Low
  }

  /** p and 1 - p get the same confidence. */
  lemma ConfidenceSymmetric(p: real)
    ensures PredictionConfidence(p) == PredictionConfidence(1.0 - p)
  {
  }

  // ---------------------------------------------------------------------------
  // Rule-based fallback score
  // ---------------------------------------------------------------------------

  function AttendanceWeight(attendance: real): real {
    if attendance < 60.0 then 0.3 else if attendance < 75.0 then 0.15 else 0.0
  }

  function MarksWeight(marks: real): real {
    if marks < 40.0 then 0.3 else if marks < 60.0 then 0.15 else 0.0
  }

  function BacklogWeight(backlogs: real): real {
    if backlogs >= 3.0 then 0.3 else if backlogs > 0.0 then 0.1 * backlogs else 0.0
  }

  /** The sum of the three per-factor weights. Each is at most 0.3, so the
      sum stays at or below 0.9, and it is 0 only when no factor applies. */
  function FallbackScore(data: Record): (r: real)
    ensures 0.0 <= r <= 0.9
    ensures r == 0.0 <==>
      Get(data, "attendance", 100.0) >= 75.0 && Get(data, "internal_marks", 100.0) >= 60.0
      && Get(data, "backlogs", 0.0) <= 0.0
  {
    AttendanceWeight(Get(data, "attendance", 100.0))
      + MarksWeight(Get(data, "internal_marks", 100.0))
      + BacklogWeight(Get(data, "backlogs", 0.0))
  }

  /** The step-by-step score with its 0.95 cap; the cap never binds, and the
      `factors` counter the source keeps has no bearing on the result. */
  method EstimateRiskFallback(data: Record) returns (score: real)
    ensures score == FallbackScore(data)
  {
    score := 0.0;
    var factors := 0;
    var attendance := Get(data, "attendance", 100.0);
    var internalMarks := Get(data, "internal_marks", 100.0);
    var backlogs := Get(data, "backlogs", 0.0);

    if attendance < 60.0 {
      score := score + 0.3;
      factors := factors + 1;
    } else if attendance < 75.0 {
      score := score + 0.15;
      factors := factors + 1;
    }

    if internalMarks < 40.0 {
      score := score + 0.3;
      factors := factors + 1;
    } else if internalMarks < 60.0 {
      score := score + 0.15;
      factors := factors + 1;
    }

    if backlogs >= 3.0 {
      score := score + 0.3;
      factors := factors + 1;
    } else if backlogs > 0.0 {
      score := score + 0.1 * backlogs;
      factors := factors + 1;
    }

    score := if score < 0.95 then score else 0.95;
  }

  // ---------------------------------------------------------------------------
  // Result assembly
  // ---------------------------------------------------------------------------

  datatype Prediction = Prediction(
    dropoutProbability: real,
    riskLevel: Level,
    prediction: int,
    riskFactors: seq<Factor>,
    confidence: Level)

  /** The dict predict_dropout builds from its five parameters. */
  function StudentData(attendance: real, internalMarks: real, backlogs: int, studyHours: real,
                       previousFailures: int): (d: Record)
    ensures d.Keys == set k | k in DefaultFeatureOrder
  {
    map["attendance" := attendance, "internal_marks" := internalMarks, "backlogs" := backlogs as real,
        "study_hours" := studyHours, "previous_failures" := previousFailures as real]
  }

  /** Assembles the prediction for a probability the model produced. The
      binary prediction is 1 exactly above 0.5; the level, factors and
      confidence are the helpers' results on the same inputs. */
  method PredictDropout(probability: real, attendance: real, internalMarks: real, backlogs: int,
                        studyHours: real, previousFailures: int) returns (result: Prediction)
    ensures result.dropoutProbability == probability
    ensures result.prediction == (if probability > 0.5 then 1 else 0)
    ensures result.riskLevel == CalculateRiskLevel(probability, StudentData(attendance, internalMarks, backlogs, studyHours, previousFailures))
    ensures result.riskLevel == High <==> probability > 0.7 || attendance < 60.0 || backlogs >= 3
    ensures result.riskFactors == RiskFactors(StudentData(attendance, internalMarks, backlogs, studyHours, previousFailures))
    ensures result.confidence == PredictionConfidence(probability)
  {
    var studentData := StudentData(attendance, internalMarks, backlogs, studyHours, previousFailures);
    var riskLevel := CalculateRiskLevel(probability, studentData);
    var riskFactors := IdentifyRiskFactors(studentData);
    result := Prediction(probability, riskLevel, if probability > 0.5 then 1 else 0, riskFactors,
                         PredictionConfidence(probability));
  }
}
