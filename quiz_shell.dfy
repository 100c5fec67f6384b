/**
 * The quiz screen the application mounts. It keeps the same six pieces of state as the quiz
 * store and differs in when loading ends: an answer without a next question leaves it loading
 * while the next question is fetched, and only the question's arrival or the demo fallback
 * ends it.
 */
module QuizShell {
  import opened Wrappers
  import opened QuizModels
  import QuizDemo

  const BackendUnreachable := "Backend not reachable. Demo question loaded."
  const QuestionsUnavailable := "Could not load questions. Demo question loaded."
  const SubmitFailed := "Could not submit your answer. Please try again."

  class QuizShellComponent {
    var session: Option<QuizSession>
    var question: Option<QuizQuestion>
    var selectedOptionId: Option<string>
    var feedback: Option<AnswerFeedback>
    var errorMessage: Option<string>
    var isLoading: bool

    /** A question or a verdict is only ever shown within a session. */
    predicate Valid()
      reads this
    {
      (question.Some? || feedback.Some?) ==> session.Some?
    }

    constructor()
      ensures session.None? && question.None? && selectedOptionId.None?
      ensures feedback.None? && errorMessage.None? && !isLoading
      ensures Valid()
    {
      session := None;
      question := None;
      selectedOptionId := None;
      feedback := None;
      errorMessage := None;
      isLoading := false;
    }

    /** Whether an answer can be sent: not loading, a question shown and an option chosen. */
    predicate CanSubmit()
      reads this
    {
      !isLoading && question.Some? && Truthy(selectedOptionId)
    }

    /** Opening the screen starts a session. */
    method NgOnInit() returns (call: ApiCall)
      requires Valid()
      modifies this
      ensures call == RequestSession
      ensures session == old(session) && isLoading
      ensures question.None? && feedback.None? && errorMessage.None? && selectedOptionId.None?
      ensures Valid()
    {
      call := StartNewSession();
    }

    /** Clears the question and all feedback, keeping the session. */
    method ResetViewState()
      modifies this
      ensures session == old(session) && isLoading == old(isLoading)
      ensures question.None? && feedback.None? && errorMessage.None? && selectedOptionId.None?
    {
      question := None;
      feedback := None;
      errorMessage := None;
      selectedOptionId := None;
    }

    /** Starts over: view reset, loading, and a new session requested. */
    method StartNewSession() returns (call: ApiCall)
      requires Valid()
      modifies this
      ensures call == RequestSession
      ensures session == old(session) && isLoading
      ensures question.None? && feedback.None? && errorMessage.None? && selectedOptionId.None?
      ensures Valid()
    {
      ResetViewState();
      isLoading := true;
      call := RequestSession;
    }

    /** Requests the next question of `sessionId`, loading. */
    method LoadNextQuestion(sessionId: string) returns (call: ApiCall)
      modifies this
      ensures call == RequestNextQuestion(sessionId) && isLoading
      ensures session == old(session) && question == old(question) && selectedOptionId == old(selectedOptionId)
      ensures feedback == old(feedback) && errorMessage == old(errorMessage)
    {
      isLoading := true;
      call := RequestNextQuestion(sessionId);
    }

    /** The new session arrived: keep it and ask for its first question. */
    method OnSessionStarted(s: QuizSession) returns (call: ApiCall)
      requires Valid()
      modifies this
      ensures session == Some(s) && call == RequestNextQuestion(s.id) && isLoading
      ensures question == old(question) && selectedOptionId == old(selectedOptionId)
      ensures feedback == old(feedback) && errorMessage == old(errorMessage)
      ensures Valid()
    {
      session := Some(s);
      call := LoadNextQuestion(s.id);
    }

    /** Falls back to the demo session and question, not loading, showing `message`. */
    method UseDemoFallback(message: string, nowIso: string)
      modifies this
      ensures session == Some(QuizDemo.GetSession(nowIso)) && question == Some(QuizDemo.GetQuestion())
      ensures feedback.None? && selectedOptionId.None? && !isLoading && errorMessage == Some(message)
      ensures Valid()
    {
      session := Some(QuizDemo.GetSession(nowIso));
      question := Some(QuizDemo.GetQuestion());
      feedback := None;
      selectedOptionId := None;
      isLoading := false;
      errorMessage := Some(message);
    }

    /** No session could be started: the demo question. */
    method OnSessionFailed(nowIso: string)
      modifies this
      ensures session == Some(QuizDemo.GetSession(nowIso)) && question == Some(QuizDemo.GetQuestion())
      ensures feedback.None? && selectedOptionId.None? && !isLoading && errorMessage == Some(BackendUnreachable)
      ensures Valid()
    {
      UseDemoFallback(BackendUnreachable, nowIso);
    }

    /** A question arrived: show it in its session with a clean slate, no longer loading. */
    method OnQuestionLoaded(result: QuestionResponse)
      modifies this
      ensures session == Some(result.session) && question == Some(result.question)
      ensures feedback.None? && selectedOptionId.None? && errorMessage.None? && !isLoading
      ensures Valid()
    {
      session := Some(result.session);
      question := Some(result.question);
      feedback := None;
      selectedOptionId := None;
      errorMessage := None;
      isLoading := false;
    }

    /** No question could be loaded: the demo question. */
    method OnQuestionLoadFailed(nowIso: string)
      modifies this
      ensures session == Some(QuizDemo.GetSession(nowIso)) && question == Some(QuizDemo.GetQuestion())
      ensures feedback.None? && selectedOptionId.None? && !isLoading && errorMessage == Some(QuestionsUnavailable)
      ensures Valid()
    {
      UseDemoFallback(QuestionsUnavailable, nowIso);
    }

    /** Chooses an option; nothing else changes. */
    method SelectOption(optionId: string)
      requires Valid()
      modifies this
      ensures selectedOptionId == Some(optionId)
      ensures session == old(session) && question == old(question) && feedback == old(feedback)
      ensures errorMessage == old(errorMessage) && isLoading == old(isLoading)
      ensures Valid()
    {
      selectedOptionId := Some(optionId);
    }

    /**
     * Sends the chosen option. Without a session, a question or a choice, or while loading, nothing
     * happens. In the demo session the verdict is given at once and the choice cleared; otherwise
     * loading starts and the answer is sent.
     */
    method SubmitAnswer() returns (call: ApiCall)
      requires Valid()
      modifies this
      ensures old(session.None? || question.None? || !Truthy(selectedOptionId) || isLoading) ==>
        && call == NoCall
        && session == old(session) && question == old(question) && selectedOptionId == old(selectedOptionId)
        && feedback == old(feedback) && errorMessage == old(errorMessage) && isLoading == old(isLoading)
      ensures old(session.Some? && question.Some? && Truthy(selectedOptionId) && !isLoading) ==>
        && session == old(session) && question == old(question) && errorMessage == old(errorMessage)
        && (old(session.value.id) == QuizDemo.DemoSessionId ==>
              && call == NoCall && !isLoading && selectedOptionId.None?
              && feedback == Some(QuizDemo.EvaluateAnswer(old(selectedOptionId.value), old(session.value))))
        && (old(session.value.id) != QuizDemo.DemoSessionId ==>
              && call == RequestAnswer(old(session.value.id),
                   SubmitAnswerRequest(old(question.value.id), old(selectedOptionId.value)))
              && isLoading && selectedOptionId == old(selectedOptionId) && feedback == old(feedback))
      ensures old(session.Some? && question.Some? && Truthy(selectedOptionId) && !isLoading) <==> old(CanSubmit() && session.Some?)
      ensures Valid()
    {
      if session.None? || question.None? || !Truthy(selectedOptionId) || isLoading {
        return NoCall;
      }
      if session.value.id == QuizDemo.DemoSessionId {
        feedback := Some(QuizDemo.EvaluateAnswer(selectedOptionId.value, session.value));
        selectedOptionId := None;
        return NoCall;
      }
      isLoading := true;
      call := RequestAnswer(session.value.id, SubmitAnswerRequest(question.value.id, selectedOptionId.value));
    }

    /**
     * The verdict on an answer sent in `sessionId` arrived: show it, clear the choice and stop
     * loading; then show the next question it carries, or load one, which is loading again.
     */
    method OnAnswerReceived(sessionId: string, response: AnswerFeedback) returns (call: ApiCall)
      requires Valid() && session.Some?
      modifies this
      ensures feedback == Some(response) && selectedOptionId.None?
      ensures response.nextQuestion.Some? ==> question == response.nextQuestion && call == NoCall && !isLoading
      ensures response.nextQuestion.None? ==> question == old(question) && call == RequestNextQuestion(sessionId) && isLoading
      ensures session == old(session) && errorMessage == old(errorMessage)
      ensures Valid()
    {
      feedback := Some(response);
      selectedOptionId := None;
      isLoading := false;
      if response.nextQuestion.Some? {
        question := response.nextQuestion;
        call := NoCall;
      } else {
        call := LoadNextQuestion(sessionId);
      }
    }

    /** The answer could not be sent: stop loading and say so. */
    method OnAnswerFailed()
      requires Valid()
      modifies this
      ensures errorMessage == Some(SubmitFailed) && !isLoading
      ensures session == old(session) && question == old(question) && selectedOptionId == old(selectedOptionId)
      ensures feedback == old(feedback)
      ensures Valid()
    {
      isLoading := false;
      errorMessage := Some(SubmitFailed);
    }

    /** Hides the verdict; nothing else changes. */
    method ClearFeedback()
      requires Valid()
      modifies this
      ensures feedback.None?
      ensures session == old(session) && question == old(question) && selectedOptionId == old(selectedOptionId)
      ensures errorMessage == old(errorMessage) && isLoading == old(isLoading)
      ensures Valid()
    {
      feedback := None;
    }
  }

  /**
   * While the next question is fetched after an answer, the screen cannot take another answer
   * for the old question, however the user chooses in the meantime.
   */
  method NoAnswerDuringReload(s: QuizSession, q: QuizQuestion, optionId: string, response: AnswerFeedback)
    returns (canSubmit: bool, call: ApiCall)
    requires s.id != QuizDemo.DemoSessionId && optionId != "" && response.nextQuestion.None?
    ensures !canSubmit && call == NoCall
  {
    var screen := new QuizShellComponent();
    var started := screen.OnSessionStarted(s);
    screen.OnQuestionLoaded(QuestionResponse(s, q));
    screen.SelectOption(optionId);
    var sent := screen.SubmitAnswer();
    assert sent == RequestAnswer(s.id, SubmitAnswerRequest(q.id, optionId));
    var reload := screen.OnAnswerReceived(s.id, response);
    screen.SelectOption(optionId);
    canSubmit := screen.CanSubmit();
    call := screen.SubmitAnswer();
  }
}
