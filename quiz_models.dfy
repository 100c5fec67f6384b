/** Quiz sessions, questions and answer feedback. */
module QuizModels {
  import opened Wrappers

  datatype QuizOption = QuizOption(id: string, caption: string)

  datatype QuizQuestion = QuizQuestion(id: string, prompt: string, options: seq<QuizOption>)

  datatype QuizSession = QuizSession(id: string, startedAt: string, questionCount: int)

  /** What the backend returns for "load the next question". */
  datatype QuestionResponse = QuestionResponse(session: QuizSession, question: QuizQuestion)

  /** The payload of an answer submission. */
  datatype SubmitAnswerRequest = SubmitAnswerRequest(questionId: string, selectedOptionId: string)

  /** The verdict on one answer, optionally carrying the next question. */
  datatype AnswerFeedback = AnswerFeedback(
    correct: bool,
    explanation: Option<string>,
    nextQuestion: Option<QuizQuestion>,
    session: QuizSession)

  /** The backend request a quiz action issues, if any. */
  datatype ApiCall =
    | NoCall
    | RequestSession
    | RequestNextQuestion(sessionId: string)
    | RequestAnswer(sessionId: string, payload: SubmitAnswerRequest)

  /** JavaScript truthiness of an optional string: present and not empty. */
  predicate Truthy(s: Option<string>) {
    s.Some? && s.value != ""
  }
}
