/**
 * The practice screen as the object its handlers update in place: one field
 * per piece of component state, one method per handler. Every method is
 * tied to its state-machine function in PracticeSession, so the properties
 * proved there hold of the object.
 */
module PracticeComponent {
  import opened Wrappers
  import opened JsText
  import opened PracticeTypes
  import opened PracticeSession

  class PracticeMode {
    var selectedScenario: Option<Scenario>
    var selectedDifficulty: Option<Difficulty>
    var isPracticing: bool
    var transcript: string
    var sessionId: Option<string>
    var messages: seq<Message>
    var currentMessage: string
    var isLoading: bool

    /** The fields as one value of the state machine. */
    function State(): PracticeState
      reads this
    {
      PracticeState(selectedScenario, selectedDifficulty, isPracticing, transcript,
                    sessionId, messages, currentMessage, isLoading)
    }

    ghost predicate Valid()
      reads this
    {
      Consistent(State())
    }

    constructor ()
      ensures Valid()
      ensures State() == Initial
    {
      selectedScenario := None;
      selectedDifficulty := None;
      isPracticing := false;
      transcript := "";
      sessionId := None;
      messages := [];
      currentMessage := "";
      isLoading := false;
    }

    method HandleScenarioSelect(scenario: Scenario)
      requires Valid()
      modifies this
      ensures Valid()
      ensures selectedScenario == Some(scenario) && selectedDifficulty == old(selectedDifficulty)
      ensures State() == SelectScenario(old(State()), scenario)
    {
      selectedScenario := Some(scenario);
    }

    method HandleDifficultySelect(difficulty: Difficulty)
      requires Valid()
      modifies this
      ensures Valid()
      ensures selectedDifficulty == Some(difficulty) && selectedScenario == old(selectedScenario)
      ensures State() == SelectDifficulty(old(State()), difficulty)
    {
      selectedDifficulty := Some(difficulty);
    }

    /** The input box's change handler: the state setter of `currentMessage`. */
    method SetCurrentMessage(text: string)
      requires Valid()
      modifies this
      ensures Valid()
      ensures currentMessage == text
      ensures State() == EditMessage(old(State()), text)
    {
      currentMessage := text;
    }

    /** `outcome` is how the awaited start-session call ended. */
    method HandleStartPractice(outcome: StartOutcome)
      requires Valid()
      modifies this
      ensures Valid()
      ensures old(selectedScenario).None? || old(selectedDifficulty).None? ==> State() == old(State())
      ensures old(selectedScenario).Some? && old(selectedDifficulty).Some? ==> !isLoading
      ensures old(selectedScenario).Some? && old(selectedDifficulty).Some? && outcome.Started? ==>
        && sessionId == Some(outcome.session.id)
        && isPracticing
        && messages == [WelcomeMessage(old(selectedScenario).value.title)]
      ensures outcome.StartFailed? ==>
        && sessionId == old(sessionId) && isPracticing == old(isPracticing) && messages == old(messages)
      ensures selectedScenario == old(selectedScenario) && selectedDifficulty == old(selectedDifficulty)
      ensures State() == StartPractice(old(State()), outcome)
    {
      if selectedScenario.None? || selectedDifficulty.None? {
        return;
      }
      isLoading := true;
      match outcome {
        case Started(session) =>
          sessionId := Some(session.id);
          isPracticing := true;
          messages := [WelcomeMessage(selectedScenario.value.title)];
        case StartFailed =>
      }
      isLoading := false;
    }

    method HandleExitPractice()
      requires Valid()
      modifies this
      ensures Valid()
      ensures !isPracticing && selectedScenario.None? && selectedDifficulty.None?
      ensures messages == [] && sessionId.None?
      ensures transcript == old(transcript) && currentMessage == old(currentMessage) && isLoading == old(isLoading)
      ensures State() == ExitPractice(old(State()))
    {
      isPracticing := false;
      selectedScenario := None;
      selectedDifficulty := None;
      messages := [];
      sessionId := None;
    }

    /** `outcome` is how the awaited chat call ended. */
    method HandleSendMessage(outcome: SendOutcome)
      requires Valid()
      modifies this
      ensures Valid()
      ensures Trim(old(currentMessage)) == "" || !HasSession(old(sessionId)) ==> State() == old(State())
      ensures Trim(old(currentMessage)) != "" && HasSession(old(sessionId)) ==>
        && currentMessage == ""
        && !isLoading
        && messages == old(messages) + [Message(User, Trim(old(currentMessage))), Message(Assistant, ReplyText(outcome))]
      ensures sessionId == old(sessionId) && isPracticing == old(isPracticing)
      ensures State() == SendMessage(old(State()), outcome)
    {
      ghost var before := State();
      if Trim(currentMessage) == "" || sessionId.None? || sessionId.value == "" {
        return;
      }
      var userMessage := Trim(currentMessage);
      currentMessage := "";
      messages := messages + [Message(User, userMessage)];
      isLoading := true;
      match outcome {
        case Replied(response) =>
          messages := messages + [Message(Assistant, response.message)];
        case SendFailed =>
          messages := messages + [Message(Assistant, SendErrorText)];
      }
      isLoading := false;
      AppendPair(before.messages, Message(User, userMessage), Message(Assistant, ReplyText(outcome)));
      assert CanSend(before);
      assert State() == SendMessage(before, outcome);
      SendKeepsConsistent(before, outcome);
    }

    /** The callback the voice control calls with each delivered transcript. */
    method HandleSpeechDetected(text: string)
      requires Valid()
      modifies this
      ensures Valid()
      ensures transcript == text
      ensures State() == SpeechDetected(old(State()), text)
    {
      transcript := text;
    }
  }

  lemma AppendPair<T>(a: seq<T>, x: T, y: T)
    ensures a + [x] + [y] == a + [x, y]
  {
  }

  /** A start, a send and an exit on a fresh screen, as the handlers are driven. */
  method StartSendExitExample(scenario: Scenario, difficulty: Difficulty, session: PracticeSessionResponse, reply: SendOutcome)
    requires session.id != ""
  {
    var screen := new PracticeMode();
    screen.HandleStartPractice(Started(session));
    assert screen.sessionId.None?;
    screen.HandleScenarioSelect(scenario);
    screen.HandleDifficultySelect(difficulty);
    screen.HandleStartPractice(Started(session));
    assert screen.messages == [WelcomeMessage(scenario.title)];
    var typed := "  Hi there ";
    assert typed[2] == 'H' && !IsWhitespace(typed[2]);
    assert Trim(typed) != "";
    screen.SetCurrentMessage(typed);
    screen.HandleSendMessage(reply);
    assert |screen.messages| == 3 && screen.messages[2].role == Assistant;
    screen.HandleExitPractice();
    screen.HandleExitPractice();
    assert screen.messages == [] && screen.sessionId.None?;
  }
}
