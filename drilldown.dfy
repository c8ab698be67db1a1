/** The per-axis drill-down: the answered questions of one axis, split into
    conceptual and applied, each annotated with the direction of its
    contribution and whether it is an outlier against the overall score. */
module AxisDrillDown {
  import opened Seqs
  import opened Types

  datatype ContributionDirection = Positive | Negative | Neutral

  datatype QuestionWithResponse = QuestionWithResponse(
    question: Question,
    response: real,
    isOutlier: bool,
    contributionDirection: ContributionDirection)

  /** What the component renders when at least one question is answered. */
  datatype DrillDownView = DrillDownView(
    conceptualQuestions: seq<QuestionWithResponse>,
    appliedQuestions: seq<QuestionWithResponse>,
    conflictingConceptual: seq<QuestionWithResponse>,
    conflictingApplied: seq<QuestionWithResponse>,
    totalConflicts: nat)

  /** `response * key * weight`: what the answer added to the axis. */
  function Contribution(question: Question, response: real): real
  {
    response * question.key * question.weight
  }

  /** A direction opposes an overall score that leans clearly the other
      way. */
  predicate Opposes(direction: ContributionDirection, overallScore: real)
  {
    (overallScore > 0.2 && direction == Negative) || (overallScore < -0.2 && direction == Positive)
  }

  /** `analyzeQuestion`: an outlier is a strong contribution (magnitude
      above 1.5) whose direction opposes the overall score. */
  function AnalyzeQuestion(question: Question, response: real, overallScore: real): (r: QuestionWithResponse)
    ensures r.question == question && r.response == response
    ensures r.contributionDirection == Positive <==> Contribution(question, response) > 0.5
    ensures r.contributionDirection == Negative <==> Contribution(question, response) < -0.5
    ensures r.isOutlier <==> Abs(Contribution(question, response)) > 1.5 && Opposes(r.contributionDirection, overallScore)
  {
    var contribution := Contribution(question, response);
    var direction := if contribution > 0.5 then Positive else if contribution < -0.5 then Negative else Neutral;
    var isSignificant := Abs(contribution) > 1.5;
    var isOpposite := (overallScore > 0.2 && contribution < -0.5) || (overallScore < -0.2 && contribution > 0.5);
    QuestionWithResponse(question, response, isSignificant && isOpposite, direction)
  }

  /** A centrist overall score (within 0.2 of 0) has no outlier. */
  lemma CentristHasNoOutlier(question: Question, response: real, overallScore: real)
    requires -0.2 <= overallScore <= 0.2
    ensures !AnalyzeQuestion(question, response, overallScore).isOutlier
  {
  }

  /** On the Likert scale, a question weighted at most 0.75 can never be an
      outlier: its contribution cannot exceed 1.5 in magnitude. */
  lemma LightQuestionNeverOutlier(question: Question, response: real, overallScore: real)
    requires -2.0 <= response <= 2.0 && 0.0 <= question.weight <= 0.75
    ensures !AnalyzeQuestion(question, response, overallScore).isOutlier
  {
    var r, w := response * question.key, question.weight;
    assert r == response || r == -response;
    assert -2.0 <= r <= 2.0;
    assert Contribution(question, response) == r * w;
    MulNonNegative(2.0 - r, w);
    MulNonNegative(2.0 + r, w);
    assert (2.0 - r) * w == 2.0 * w - r * w;
    assert (2.0 + r) * w == 2.0 * w + r * w;
    assert -1.5 <= r * w <= 1.5;
    assert Abs(Contribution(question, response)) <= 1.5;
  }

  /** The answered questions of type `t`, analysed against `overallScore`,
      in input order. */
  function Analyzed(qs: seq<Question>, t: QuestionType, responses: Responses, overallScore: real): (r: seq<QuestionWithResponse>)
    ensures |r| <= |qs|
    ensures forall a | a in r ::
      a.question in qs && a.question.questionType == t && a.question.id in responses &&
      a == AnalyzeQuestion(a.question, responses[a.question.id], overallScore)
    ensures forall q | q in qs && q.questionType == t && q.id in responses ::
      AnalyzeQuestion(q, responses[q.id], overallScore) in r
  {
    if qs == [] then []
    else
      var init, q := qs[..|qs| - 1], qs[|qs| - 1];
      assert qs == init + [q];
      Analyzed(init, t, responses, overallScore) +
        (if q.questionType == t && q.id in responses then [AnalyzeQuestion(q, responses[q.id], overallScore)] else [])
  }

  predicate IsOutlier(a: QuestionWithResponse)
  {
    a.isOutlier
  }

  function Outliers(rs: seq<QuestionWithResponse>): seq<QuestionWithResponse>
  {
    Filter(rs, IsOutlier)
  }

  function AxisQuestions(questions: seq<Question>, axisId: string): seq<Question>
  {
    Filter(questions, (q: Question) => q.axisId == axisId)
  }

  /** The component's computation: `None` where it renders nothing. */
  function DrillDown(axisId: string, conceptualScore: real, appliedScore: real,
                     questions: seq<Question>, responses: Responses): Option<DrillDownView>
  {
    var axisQuestions := AxisQuestions(questions, axisId);
    var conceptual := Analyzed(axisQuestions, Conceptual, responses, conceptualScore);
    var applied := Analyzed(axisQuestions, Applied, responses, appliedScore);
    var cc, ca := Outliers(conceptual), Outliers(applied);
    if |conceptual| == 0 && |applied| == 0 then None
    else Some(DrillDownView(conceptual, applied, cc, ca, |cc| + |ca|))
  }

  /** The drill-down renders nothing exactly when no question of the axis
      is answered. */
  lemma DrillDownEmptyIff(axisId: string, conceptualScore: real, appliedScore: real,
                          questions: seq<Question>, responses: Responses)
    ensures DrillDown(axisId, conceptualScore, appliedScore, questions, responses).None? <==>
      forall q | q in questions && q.axisId == axisId :: q.id !in responses
  {
    var axisQuestions := AxisQuestions(questions, axisId);
    var conceptual := Analyzed(axisQuestions, Conceptual, responses, conceptualScore);
    var applied := Analyzed(axisQuestions, Applied, responses, appliedScore);
    if exists q | q in questions && q.axisId == axisId :: q.id in responses {
      var q :| q in questions && q.axisId == axisId && q.id in responses;
      assert q in axisQuestions;
      if q.questionType == Conceptual {
        assert AnalyzeQuestion(q, responses[q.id], conceptualScore) in conceptual;
      } else {
        assert AnalyzeQuestion(q, responses[q.id], appliedScore) in applied;
      }
    }
  }

  /** Every listed question belongs to the axis, is answered and is of its
      list's type; the conflicts are the outliers of each list. */
  lemma DrillDownSound(axisId: string, conceptualScore: real, appliedScore: real,
                       questions: seq<Question>, responses: Responses)
    requires DrillDown(axisId, conceptualScore, appliedScore, questions, responses).Some?
    ensures var v := DrillDown(axisId, conceptualScore, appliedScore, questions, responses).value;
      (forall a | a in v.conceptualQuestions ::
        a.question in questions && a.question.axisId == axisId && a.question.id in responses &&
        a.question.questionType == Conceptual) &&
      (forall a | a in v.appliedQuestions ::
        a.question in questions && a.question.axisId == axisId && a.question.id in responses &&
        a.question.questionType == Applied) &&
      (forall a | a in v.conceptualQuestions :: a == AnalyzeQuestion(a.question, responses[a.question.id], conceptualScore)) &&
      (forall a | a in v.appliedQuestions :: a == AnalyzeQuestion(a.question, responses[a.question.id], appliedScore)) &&
      (forall a | a in v.conflictingConceptual :: a in v.conceptualQuestions && a.isOutlier) &&
      (forall a | a in v.conflictingApplied :: a in v.appliedQuestions && a.isOutlier) &&
      (forall a | a in v.conceptualQuestions && a.isOutlier :: a in v.conflictingConceptual) &&
      (forall a | a in v.appliedQuestions && a.isOutlier :: a in v.conflictingApplied) &&
      v.totalConflicts == |v.conflictingConceptual| + |v.conflictingApplied| &&
      v.totalConflicts <= |v.conceptualQuestions| + |v.appliedQuestions|
  {
  }

  /** When both overall scores are centrist, no question is flagged. */
  lemma CentristAxisHasNoConflicts(axisId: string, conceptualScore: real, appliedScore: real,
                                   questions: seq<Question>, responses: Responses)
    requires -0.2 <= conceptualScore <= 0.2 && -0.2 <= appliedScore <= 0.2
    requires DrillDown(axisId, conceptualScore, appliedScore, questions, responses).Some?
    ensures DrillDown(axisId, conceptualScore, appliedScore, questions, responses).value.totalConflicts == 0
  {
    var axisQuestions := AxisQuestions(questions, axisId);
    FilterNone(Analyzed(axisQuestions, Conceptual, responses, conceptualScore), IsOutlier);
    FilterNone(Analyzed(axisQuestions, Applied, responses, appliedScore), IsOutlier);
  }
}
