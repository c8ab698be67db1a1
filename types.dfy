/** The records the engine reads and writes: questions with their axis
    links, responses, axis scores and collision scores. */
module Types {

  /** The directional key of a question or of an axis link: -1 or 1. */
  type Key = k: real | k == 1.0 || k == -1.0 witness 1.0

  datatype QuestionType = Conceptual | Applied

  /** A row of the question catalog. */
  datatype Question = Question(
    id: int,
    axisId: string,
    key: Key,
    weight: real,
    questionType: QuestionType)

  /** The role a link plays in a multi-axis question. */
  datatype Role = Primary | Collision

  datatype QuestionAxisLink = QuestionAxisLink(
    id: int,
    questionId: int,
    axisId: string,
    role: Role,
    axisKey: Key,
    weight: real)

  /** A question together with its axis links (none when the question has
      no link rows). */
  datatype QuestionWithLinks = QuestionWithLinks(question: Question, links: seq<QuestionAxisLink>)

  /** The link-based scorer's per-axis output. */
  datatype AxisScore = AxisScore(
    axisId: string,
    name: string,
    score: real,
    rawSum: real,
    totalWeight: real,
    confidence: real,
    responseVariance: real)

  datatype PreferenceStrength = Weak | Moderate | Strong | VeryStrong

  /** Which axis of a pair a respondent leans towards. */
  datatype PreferenceDirection = TowardPrimary | TowardCollision | Balanced

  datatype ConfidenceLevel = Low | Medium | High

  datatype CollisionScore = CollisionScore(
    axisPrimary: string,
    axisCollision: string,
    primaryName: string,
    collisionName: string,
    scorePrimary: real,
    scoreCollision: real,
    preferenceIndex: real,
    preferenceStrength: PreferenceStrength,
    preferenceDirection: PreferenceDirection,
    questionCount: nat,
    confidenceLevel: ConfidenceLevel,
    interestingness: real)

  /** Question id to Likert answer; an id that is absent was not answered. */
  type Responses = map<int, real>

  /** Every recorded answer lies on the Likert scale [-2, 2]. */
  ghost predicate ResponsesInRange(responses: Responses)
  {
    forall id | id in responses :: -2.0 <= responses[id] <= 2.0
  }

  datatype Option<T> = None | Some(value: T)

  function Abs(x: real): real
  {
    if x < 0.0 then -x else x
  }
}
