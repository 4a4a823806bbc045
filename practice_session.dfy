/**
 * The practice screen's state machine, as values: the component state that
 * its event handlers read and overwrite, one function per handler, and the
 * properties those handlers keep. Each awaited remote call is represented
 * by its outcome, and each handler runs to completion before the next one.
 */
module PracticeSession {
  import opened Wrappers
  import opened JsText
  import opened PracticeTypes

  const WelcomePrefix: string := "Welcome to the "
  const WelcomeSuffix: string := " practice session! I'll be playing the role of a prospect. Let's begin!"

  /** The assistant turn appended when the chat call throws. */
  const SendErrorText: string := "Sorry, there was an error processing your message."

  /** The component state the handlers use (catalog and dialog flags left out). */
  datatype PracticeState = PracticeState(
    selectedScenario: Option<Scenario>,
    selectedDifficulty: Option<Difficulty>,
    isPracticing: bool,
    transcript: string,
    sessionId: Option<string>,
    messages: seq<Message>,
    currentMessage: string,
    isLoading: bool)

  /** The state on mount: nothing selected, no session, empty history and input. */
  const Initial: PracticeState := PracticeState(None, None, false, "", None, [], "", false)

  /** The one-message history a started session begins with; it names the scenario. */
  function WelcomeMessage(title: string): (m: Message)
    ensures m.role == Assistant
    ensures |WelcomePrefix| + |title| <= |m.content|
    ensures m.content[..|WelcomePrefix|] == WelcomePrefix
    ensures m.content[|WelcomePrefix|..|WelcomePrefix| + |title|] == title
    ensures m.content[|WelcomePrefix| + |title|..] == WelcomeSuffix
  {
    Message(Assistant, WelcomePrefix + title + WelcomeSuffix)
  }

  /** JavaScript truthiness of `sessionId`: neither null nor the empty string. */
  predicate HasSession(sessionId: Option<string>) {
    sessionId.Some? && sessionId.value != ""
  }

  /** The guard of the start handler: both selections are made. */
  predicate CanStart(s: PracticeState) {
    s.selectedScenario.Some? && s.selectedDifficulty.Some?
  }

  /** The guard of the send handler: the trimmed input is not empty and a session id is set. */
  predicate CanSend(s: PracticeState) {
    Trim(s.currentMessage) != "" && HasSession(s.sessionId)
  }

  /** Choosing a scenario replaces the scenario and nothing else; the difficulty stays. */
  function SelectScenario(s: PracticeState, scenario: Scenario): (t: PracticeState)
    ensures t.selectedScenario == Some(scenario)
    ensures t.selectedDifficulty == s.selectedDifficulty
    ensures t == s.(selectedScenario := t.selectedScenario)
  {
    s.(selectedScenario := Some(scenario))
  }

  /** Choosing a difficulty replaces the difficulty and nothing else. */
  function SelectDifficulty(s: PracticeState, difficulty: Difficulty): (t: PracticeState)
    ensures t.selectedDifficulty == Some(difficulty)
    ensures t == s.(selectedDifficulty := t.selectedDifficulty)
  {
    s.(selectedDifficulty := Some(difficulty))
  }

  /** Typing into the message box replaces the pending input and nothing else. */
  function EditMessage(s: PracticeState, text: string): (t: PracticeState)
    ensures t.currentMessage == text
    ensures t == s.(currentMessage := t.currentMessage)
  {
    s.(currentMessage := text)
  }

  /** A delivered speech transcript replaces the previous one rather than extending it. */
  function SpeechDetected(s: PracticeState, text: string): (t: PracticeState)
    ensures t.transcript == text
    ensures t == s.(transcript := t.transcript)
  {
    s.(transcript := text)
  }

  /**
   * Starting a session. Without both selections nothing changes at all.
   * Otherwise the loading flag is raised for the call and lowered after it;
   * a session that arrives sets the session id and the practising flag and
   * resets the history to the welcome message, and a call that throws
   * leaves everything but the loading flag as it was.
   */
  function StartPractice(s: PracticeState, outcome: StartOutcome): (t: PracticeState)
    ensures !CanStart(s) ==> t == s
    ensures CanStart(s) ==> !t.isLoading
    ensures CanStart(s) && outcome.Started? ==>
      && t.sessionId == Some(outcome.session.id)
      && t.isPracticing
      && t.messages == [WelcomeMessage(s.selectedScenario.value.title)]
      && t == s.(sessionId := t.sessionId, isPracticing := true, messages := t.messages, isLoading := false)
    ensures CanStart(s) && outcome.StartFailed? ==> t == s.(isLoading := false)
  {
    if !CanStart(s) then s
    else
      var loading := s.(isLoading := true);
      match outcome
      case Started(session) =>
        loading.(sessionId := Some(session.id), isPracticing := true,
                 messages := [WelcomeMessage(s.selectedScenario.value.title)], isLoading := false)
      case StartFailed =>
        loading.(isLoading := false)
  }

  /** Leaving the session clears it and both selections; the input, transcript and loading flag stay. */
  function ExitPractice(s: PracticeState): (t: PracticeState)
    ensures !t.isPracticing && t.selectedScenario.None? && t.selectedDifficulty.None?
    ensures t.sessionId.None? && t.messages == []
    ensures t.transcript == s.transcript && t.currentMessage == s.currentMessage && t.isLoading == s.isLoading
  {
    s.(isPracticing := false, selectedScenario := None, selectedDifficulty := None, messages := [], sessionId := None)
  }

  /** The assistant turn a chat call produces: its reply, or the fixed apology when it threw. */
  function ReplyText(outcome: SendOutcome): string {
    match outcome
    case Replied(response) => response.message
    case SendFailed => SendErrorText
  }

  /**
   * Sending the pending input. When the trimmed input is empty or there is
   * no session id nothing changes. Otherwise the input box is cleared, the
   * trimmed input is appended as a user turn, and exactly one assistant
   * turn follows it; the loading flag is lowered at the end.
   */
  function SendMessage(s: PracticeState, outcome: SendOutcome): (t: PracticeState)
    ensures !CanSend(s) ==> t == s
    ensures CanSend(s) ==>
      && |t.messages| == |s.messages| + 2
      && t.messages[..|s.messages|] == s.messages
      && t.messages[|s.messages|] == Message(User, Trim(s.currentMessage))
      && t.messages[|s.messages| + 1] == Message(Assistant, ReplyText(outcome))
      && t == s.(messages := t.messages, currentMessage := "", isLoading := false)
  {
    if !CanSend(s) then s
    else
      var userMessage := Trim(s.currentMessage);
      var pending := s.(currentMessage := "", messages := s.messages + [Message(User, userMessage)], isLoading := true);
      pending.(messages := pending.messages + [Message(Assistant, ReplyText(outcome))], isLoading := false)
  }

  /** The handlers' triggers, each with the outcome of the remote call it awaits. */
  datatype Event =
    | ScenarioSelected(scenario: Scenario)
    | DifficultySelected(difficulty: Difficulty)
    | StartRequested(startOutcome: StartOutcome)
    | ExitRequested
    | MessageEdited(text: string)
    | SendRequested(sendOutcome: SendOutcome)
    | SpeechHeard(speech: string)

  function Step(s: PracticeState, e: Event): PracticeState {
    match e
    case ScenarioSelected(scenario) => SelectScenario(s, scenario)
    case DifficultySelected(difficulty) => SelectDifficulty(s, difficulty)
    case StartRequested(outcome) => StartPractice(s, outcome)
    case ExitRequested => ExitPractice(s)
    case MessageEdited(text) => EditMessage(s, text)
    case SendRequested(outcome) => SendMessage(s, outcome)
    case SpeechHeard(text) => SpeechDetected(s, text)
  }

  /** The state after handling `events` in order. */
  function Run(s: PracticeState, events: seq<Event>): PracticeState
    decreases |events|
  {
    if events == [] then s else Run(Step(s, events[0]), events[1..])
  }

  /** A session's history: the welcome turn, then user and assistant turns in pairs. */
  predicate TurnsAlternate(messages: seq<Message>) {
    && |messages| % 2 == 1
    && forall i :: 0 <= i < |messages| ==> messages[i].role == (if i % 2 == 0 then Assistant else User)
  }

  /**
   * What every reachable state satisfies: the practising flag is set exactly
   * when a session id is, a session's history has the welcome-then-pairs
   * shape, and without a session the history is empty.
   */
  predicate Consistent(s: PracticeState) {
    && s.isPracticing == s.sessionId.Some?
    && (s.sessionId.Some? ==> TurnsAlternate(s.messages))
    && (s.sessionId.None? ==> s.messages == [])
  }

  lemma InitialConsistent()
    ensures Consistent(Initial)
  {
  }

  /** A user turn followed by an assistant turn keeps the welcome-then-pairs shape. */
  lemma PairKeepsTurnsAlternating(messages: seq<Message>, user: Message, assistant: Message)
    requires TurnsAlternate(messages) && user.role == User && assistant.role == Assistant
    ensures TurnsAlternate(messages + [user, assistant])
  {
    var m := messages + [user, assistant];
    var n := |messages|;
    forall i | 0 <= i < |m|
      ensures m[i].role == (if i % 2 == 0 then Assistant else User)
    {
      if i < n {
        assert m[i] == messages[i];
      }
    }
  }

  /** An accepted send appends a user turn at an odd position and an assistant turn after it. */
  lemma SendKeepsConsistent(s: PracticeState, outcome: SendOutcome)
    requires Consistent(s)
    ensures Consistent(SendMessage(s, outcome))
  {
    if CanSend(s) {
      var t := SendMessage(s, outcome);
      var user, assistant := Message(User, Trim(s.currentMessage)), Message(Assistant, ReplyText(outcome));
      assert t.messages == s.messages + [user, assistant];
      PairKeepsTurnsAlternating(s.messages, user, assistant);
    }
  }

  lemma StepKeepsConsistent(s: PracticeState, e: Event)
    requires Consistent(s)
    ensures Consistent(Step(s, e))
  {
    if e.SendRequested? {
      SendKeepsConsistent(s, e.sendOutcome);
    }
  }

  lemma {:induction false} RunKeepsConsistent(s: PracticeState, events: seq<Event>)
    requires Consistent(s)
    ensures Consistent(Run(s, events))
    decreases |events|
  {
    if events != [] {
      StepKeepsConsistent(s, events[0]);
      RunKeepsConsistent(Step(s, events[0]), events[1..]);
    }
  }

  /** Every state the screen can reach from mount is consistent. */
  lemma ReachableConsistent(events: seq<Event>)
    ensures Consistent(Run(Initial, events))
  {
    InitialConsistent();
    RunKeepsConsistent(Initial, events);
  }

  /** Leaving twice is leaving once. */
  lemma ExitIdempotent(s: PracticeState)
    ensures ExitPractice(ExitPractice(s)) == ExitPractice(s)
  {
  }

  /**
   * A double-clicked start that succeeds twice leaves one session, the
   * second one, and a history of just the welcome message.
   */
  lemma DoubleStart(s: PracticeState, first: PracticeSessionResponse, second: PracticeSessionResponse)
    requires CanStart(s)
    ensures
      var t := StartPractice(StartPractice(s, Started(first)), Started(second));
      && t.sessionId == Some(second.id)
      && t.messages == [WelcomeMessage(s.selectedScenario.value.title)]
  {
  }

  /** One typed message and its send. */
  datatype Turn = Turn(text: string, outcome: SendOutcome)

  function Exchanges(turns: seq<Turn>): (events: seq<Event>)
    ensures |events| == 2 * |turns|
    decreases |turns|
  {
    if turns == [] then []
    else [MessageEdited(turns[0].text), SendRequested(turns[0].outcome)] + Exchanges(turns[1..])
  }

  /**
   * Typing and sending N non-blank messages in a session grows the history
   * by exactly 2N turns, keeps the old history as a prefix and keeps the
   * session; after a start that is 2N + 1 turns in all.
   */
  lemma {:induction false} ExchangesGrowHistory(s: PracticeState, turns: seq<Turn>)
    requires HasSession(s.sessionId)
    requires forall i :: 0 <= i < |turns| ==> Trim(turns[i].text) != ""
    ensures
      var t := Run(s, Exchanges(turns));
      && |t.messages| == |s.messages| + 2 * |turns|
      && t.messages[..|s.messages|] == s.messages
      && t.sessionId == s.sessionId
    decreases |turns|
  {
    if turns != [] {
      var sent := SendMessage(EditMessage(s, turns[0].text), turns[0].outcome);
      RunFirstExchange(s, turns);
      ExchangeGrowsHistory(s, turns[0]);
      ExchangesGrowHistory(sent, turns[1..]);
      var t := Run(sent, Exchanges(turns[1..]));
      PrefixOfPrefix(s.messages, sent.messages, t.messages);
    }
  }

  /** A prefix of a prefix is a prefix. */
  lemma PrefixOfPrefix<T>(a: seq<T>, b: seq<T>, c: seq<T>)
    requires |a| <= |b| <= |c| && b[..|a|] == a && c[..|b|] == b
    ensures c[..|a|] == a
  {
    assert c[..|a|] == c[..|b|][..|a|];
  }

  /** Running the exchanges of `turns` is running the first one, then the rest. */
  lemma RunFirstExchange(s: PracticeState, turns: seq<Turn>)
    requires turns != []
    ensures Run(s, Exchanges(turns))
         == Run(SendMessage(EditMessage(s, turns[0].text), turns[0].outcome), Exchanges(turns[1..]))
  {
    var events := Exchanges(turns);
    assert events[0] == MessageEdited(turns[0].text);
    assert events[1..][0] == SendRequested(turns[0].outcome);
    assert events[1..][1..] == Exchanges(turns[1..]);
  }

  /** One typed, non-blank message and its send add exactly two turns in a session. */
  lemma ExchangeGrowsHistory(s: PracticeState, turn: Turn)
    requires HasSession(s.sessionId) && Trim(turn.text) != ""
    ensures
      var t := SendMessage(EditMessage(s, turn.text), turn.outcome);
      && |t.messages| == |s.messages| + 2
      && t.messages[..|s.messages|] == s.messages
      && t.sessionId == s.sessionId
  {
    assert CanSend(EditMessage(s, turn.text));
  }

  /** After a run of speech deliveries the transcript is the last one delivered. */
  lemma {:induction false} SpeechKeepsLastDelivery(s: PracticeState, deliveries: seq<string>)
    requires deliveries != []
    ensures Run(s, seq(|deliveries|, i requires 0 <= i < |deliveries| => SpeechHeard(deliveries[i]))).transcript
         == deliveries[|deliveries| - 1]
    decreases |deliveries|
  {
    var events := seq(|deliveries|, i requires 0 <= i < |deliveries| => SpeechHeard(deliveries[i]));
    var rest := deliveries[1..];
    var restEvents := seq(|rest|, i requires 0 <= i < |rest| => SpeechHeard(rest[i]));
    assert events[1..] == restEvents;
    if rest != [] {
      SpeechKeepsLastDelivery(SpeechDetected(s, deliveries[0]), rest);
    }
  }
}
