/** The offline quiz: one fixed session and question, and the verdict on an answer to it. */
module QuizDemo {
  import opened Wrappers
  import opened QuizModels

  const DemoSessionId := "demo-session"
  const CorrectOptionId := "option-201"

  const CorrectExplanation := "201 Created confirms that the backend successfully persisted your new resource."
  const WrongExplanation := "The backend would reply with 201 Created for a resource creation request."

  const BaseSession := QuizSession(DemoSessionId, "", 1)

  const BaseQuestion := QuizQuestion(
    "demo-question",
    "Which HTTP status code indicates that a resource was created successfully?",
    [
      QuizOption("option-200", "200 OK"),
      QuizOption("option-201", "201 Created"),
      QuizOption("option-301", "301 Moved Permanently"),
      QuizOption("option-500", "500 Internal Server Error")
    ])

  /** The demo session, stamped with the current instant `nowIso` (the clock is a parameter). */
  function GetSession(nowIso: string): (s: QuizSession)
    ensures s.id == DemoSessionId && s.questionCount == 1 && s.startedAt == nowIso
  {
    BaseSession.(startedAt := nowIso)
  }

  /** A fresh copy of the demo question: four options in a fixed order. */
  function GetQuestion(): (q: QuizQuestion)
    ensures q == BaseQuestion
    ensures q.id == "demo-question" && |q.options| == 4
    ensures q.options[0].id == "option-200" && q.options[1].id == "option-201"
    ensures q.options[2].id == "option-301" && q.options[3].id == "option-500"
  {
    BaseQuestion.(options := seq(|BaseQuestion.options|, i requires 0 <= i < |BaseQuestion.options| => BaseQuestion.options[i]))
  }

  /** The verdict on `optionId`: correct exactly for the correct option, explained either way, in `session`. */
  function EvaluateAnswer(optionId: string, session: QuizSession): (f: AnswerFeedback)
    ensures f.correct <==> optionId == CorrectOptionId
    ensures f.explanation == Some(if f.correct then CorrectExplanation else WrongExplanation)
    ensures f.nextQuestion.None? && f.session == session
  {
    var correct := optionId == CorrectOptionId;
    AnswerFeedback(correct, Some(if correct then CorrectExplanation else WrongExplanation), None, session)
  }

  /** Exactly one option of the demo question is judged correct, the second one. */
  lemma ExactlyOneCorrectOption(session: QuizSession)
    ensures EvaluateAnswer(GetQuestion().options[1].id, session).correct
    ensures forall i :: 0 <= i < |GetQuestion().options| && i != 1 ==>
      !EvaluateAnswer(GetQuestion().options[i].id, session).correct
  {
    var q := GetQuestion();
    assert q.options[0].id != CorrectOptionId;
    assert q.options[2].id != CorrectOptionId;
    assert q.options[3].id != CorrectOptionId;
  }
}
