/**
 * The quiz state store: six pieces of view state changed by the user's actions and by the
 * backend's replies. Each action returns the backend request it issues; each reply is delivered
 * as its own event method, run as one atomic step.
 */
module QuizState {
  import opened Wrappers
  import opened QuizModels
  import QuizDemo

  const BackendUnreachable := "Backend not reachable. Demo question loaded."
  const QuestionsUnavailable := "Could not load questions. Demo question loaded."
  const SubmitFailed := "Could not submit your answer. Please try again."

  class QuizStateService {
    var session: Option<QuizSession>
    var question: Option<QuizQuestion>
    var selectedOptionId: Option<string>
    var feedback: Option<AnswerFeedback>
    var errorMessage: Option<string>
    var isLoading: bool

    /** A question or a verdict is only ever shown within a session. */
    predicate Valid()
      reads this
    {
      (question.Some? || feedback.Some?) ==> session.Some?
    }

    constructor()
      ensures session.None? && question.None? && selectedOptionId.None?
      ensures feedback.None? && errorMessage.None? && !isLoading
      ensures Valid()
    {
      session := None;
      question := None;
      selectedOptionId := None;
      feedback := None;
      errorMessage := None;
      isLoading := false;
    }

    /** Whether an answer can be sent: not loading, a question shown and an option chosen. */
    predicate CanSubmit()
      reads this
    {
      !isLoading && question.Some? && Truthy(selectedOptionId)
    }

    /** Clears the question and all feedback, keeping the session. */
    method ResetState()
      modifies this
      ensures session == old(session) && isLoading == old(isLoading)
      ensures question.None? && feedback.None? && errorMessage.None? && selectedOptionId.None?
    {
      question := None;
      feedback := None;
      errorMessage := None;
      selectedOptionId := None;
    }

    /** Starts over: state reset, loading, and a new session requested. */
    method StartNewSession() returns (call: ApiCall)
      requires Valid()
      modifies this
      ensures call == RequestSession
      ensures session == old(session) && isLoading
      ensures question.None? && feedback.None? && errorMessage.None? && selectedOptionId.None?
      ensures Valid()
    {
      ResetState();
      isLoading := true;
      call := RequestSession;
    }

    /** Requests the next question of `sessionId`, loading. */
    method LoadNextQuestion(sessionId: string) returns (call: ApiCall)
      modifies this
      ensures call == RequestNextQuestion(sessionId) && isLoading
      ensures session == old(session) && question == old(question) && selectedOptionId == old(selectedOptionId)
      ensures feedback == old(feedback) && errorMessage == old(errorMessage)
    {
      isLoading := true;
      call := RequestNextQuestion(sessionId);
    }

    /** The new session arrived: keep it and ask for its first question. */
    method OnSessionStarted(s: QuizSession) returns (call: ApiCall)
      requires Valid()
      modifies this
      ensures session == Some(s) && call == RequestNextQuestion(s.id) && isLoading
      ensures question == old(question) && selectedOptionId == old(selectedOptionId)
      ensures feedback == old(feedback) && errorMessage == old(errorMessage)
      ensures Valid()
    {
      session := Some(s);
      call := LoadNextQuestion(s.id);
    }

    /** Falls back to the demo session and question, not loading, showing `message`. */
    method ActivateDemoMode(message: string, nowIso: string)
      modifies this
      ensures session == Some(QuizDemo.GetSession(nowIso)) && question == Some(QuizDemo.GetQuestion())
      ensures feedback.None? && selectedOptionId.None? && !isLoading && errorMessage == Some(message)
      ensures Valid()
    {
      session := Some(QuizDemo.GetSession(nowIso));
      question := Some(QuizDemo.GetQuestion());
      feedback := None;
      selectedOptionId := None;
      isLoading := false;
      errorMessage := Some(message);
    }

    /** No session could be started: demo mode. */
    method OnSessionFailed(nowIso: string)
      modifies this
      ensures session == Some(QuizDemo.GetSession(nowIso)) && question == Some(QuizDemo.GetQuestion())
      ensures feedback.None? && selectedOptionId.None? && !isLoading && errorMessage == Some(BackendUnreachable)
      ensures Valid()
    {
      ActivateDemoMode(BackendUnreachable, nowIso);
    }

    /** A question arrived: show it in its session with a clean slate; loading ends. */
    method OnQuestionLoaded(result: QuestionResponse)
      modifies this
      ensures session == Some(result.session) && question == Some(result.question)
      ensures feedback.None? && selectedOptionId.None? && errorMessage.None? && !isLoading
      ensures Valid()
    {
      session := Some(result.session);
      question := Some(result.question);
      feedback := None;
      selectedOptionId := None;
      errorMessage := None;
      isLoading := false;
    }

    /** No question could be loaded: demo mode; loading ends. */
    method OnQuestionLoadFailed(nowIso: string)
      modifies this
      ensures session == Some(QuizDemo.GetSession(nowIso)) && question == Some(QuizDemo.GetQuestion())
      ensures feedback.None? && selectedOptionId.None? && !isLoading && errorMessage == Some(QuestionsUnavailable)
      ensures Valid()
    {
      ActivateDemoMode(QuestionsUnavailable, nowIso);
      isLoading := false;
    }

    /** Chooses an option; nothing else changes. */
    method SelectOption(optionId: string)
      requires Valid()
      modifies this
      ensures selectedOptionId == Some(optionId)
      ensures session == old(session) && question == old(question) && feedback == old(feedback)
      ensures errorMessage == old(errorMessage) && isLoading == old(isLoading)
      ensures Valid()
    {
      selectedOptionId := Some(optionId);
    }

    /**
     * Sends the chosen option. Without a session, a question or a choice, or while loading, nothing
     * happens. In the demo session the verdict is given at once and the choice cleared; otherwise
     * loading starts and the answer is sent.
     */
    method SubmitAnswer() returns (call: ApiCall)
      requires Valid()
      modifies this
      ensures old(session.None? || question.None? || !Truthy(selectedOptionId) || isLoading) ==>
        && call == NoCall
        && session == old(session) && question == old(question) && selectedOptionId == old(selectedOptionId)
        && feedback == old(feedback) && errorMessage == old(errorMessage) && isLoading == old(isLoading)
      ensures old(session.Some? && question.Some? && Truthy(selectedOptionId) && !isLoading) ==>
        && session == old(session) && question == old(question) && errorMessage == old(errorMessage)
        && (old(session.value.id) == QuizDemo.DemoSessionId ==>
              && call == NoCall && !isLoading && selectedOptionId.None?
              && feedback == Some(QuizDemo.EvaluateAnswer(old(selectedOptionId.value), old(session.value))))
        && (old(session.value.id) != QuizDemo.DemoSessionId ==>
              && call == RequestAnswer(old(session.value.id),
                   SubmitAnswerRequest(old(question.value.id), old(selectedOptionId.value)))
              && isLoading && selectedOptionId == old(selectedOptionId) && feedback == old(feedback))
      ensures old(session.Some? && question.Some? && Truthy(selectedOptionId) && !isLoading) <==> old(CanSubmit() && session.Some?)
      ensures Valid()
    {
      if session.None? || question.None? || !Truthy(selectedOptionId) || isLoading {
        return NoCall;
      }
      if session.value.id == QuizDemo.DemoSessionId {
        feedback := Some(QuizDemo.EvaluateAnswer(selectedOptionId.value, session.value));
        selectedOptionId := None;
        return NoCall;
      }
      isLoading := true;
      call := RequestAnswer(session.value.id, SubmitAnswerRequest(question.value.id, selectedOptionId.value));
    }

    /**
     * The verdict on an answer sent in `sessionId` arrived: show it and clear the choice; then the
     * next question it carries, or a request for one. Loading ends when this reply is done, even
     * while that request is still out.
     */
    method OnAnswerReceived(sessionId: string, response: AnswerFeedback) returns (call: ApiCall)
      requires Valid() && session.Some?
      modifies this
      ensures feedback == Some(response) && selectedOptionId.None? && !isLoading
      ensures response.nextQuestion.Some? ==> question == response.nextQuestion && call == NoCall
      ensures response.nextQuestion.None? ==> question == old(question) && call == RequestNextQuestion(sessionId)
      ensures session == old(session) && errorMessage == old(errorMessage)
      ensures Valid()
    {
      feedback := Some(response);
      selectedOptionId := None;
      if response.nextQuestion.Some? {
        question := response.nextQuestion;
        call := NoCall;
      } else {
        call := LoadNextQuestion(sessionId);
      }
      isLoading := false;
    }

    /** The answer could not be sent: say so; loading ends. */
    method OnAnswerFailed()
      requires Valid()
      modifies this
      ensures errorMessage == Some(SubmitFailed) && !isLoading
      ensures session == old(session) && question == old(question) && selectedOptionId == old(selectedOptionId)
      ensures feedback == old(feedback)
      ensures Valid()
    {
      errorMessage := Some(SubmitFailed);
      isLoading := false;
    }

    /** Hides the verdict; nothing else changes. */
    method ClearFeedback()
      requires Valid()
      modifies this
      ensures feedback.None?
      ensures session == old(session) && question == old(question) && selectedOptionId == old(selectedOptionId)
      ensures errorMessage == old(errorMessage) && isLoading == old(isLoading)
      ensures Valid()
    {
      feedback := None;
    }
  }

  /**
   * With the backend down, the store falls back to the demo question, and choosing its correct
   * option and submitting is judged correct without any request.
   */
  method OfflineWalkthrough(nowIso: string) returns (verdict: Option<AnswerFeedback>, call: ApiCall)
    ensures call == NoCall
    ensures verdict.Some? && verdict.value.correct && verdict.value.session.id == QuizDemo.DemoSessionId
  {
    var store := new QuizStateService();
    var started := store.StartNewSession();
    store.OnSessionFailed(nowIso);
    store.SelectOption(QuizDemo.GetQuestion().options[1].id);
    assert store.CanSubmit();
    call := store.SubmitAnswer();
    verdict := store.feedback;
  }

  /**
   * While the next question is fetched after an answer, the store is no longer loading, so a
   * new choice lets a second answer for the old question be sent.
   */
  method AnswerDuringReload(s: QuizSession, q: QuizQuestion, optionId: string, response: AnswerFeedback)
    returns (canSubmit: bool, call: ApiCall)
    requires s.id != QuizDemo.DemoSessionId && optionId != "" && response.nextQuestion.None?
    ensures canSubmit && call == RequestAnswer(s.id, SubmitAnswerRequest(q.id, optionId))
  {
    var store := new QuizStateService();
    var started := store.OnSessionStarted(s);
    store.OnQuestionLoaded(QuestionResponse(s, q));
    store.SelectOption(optionId);
    var sent := store.SubmitAnswer();
    var reload := store.OnAnswerReceived(s.id, response);
    assert reload == RequestNextQuestion(s.id);
    store.SelectOption(optionId);
    canSubmit := store.CanSubmit();
    call := store.SubmitAnswer();
  }
}
