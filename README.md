# Practice mode of the sales-conversation trainer, in Dafny

The trainer lets a user pick a sales scenario and a difficulty, start a
practice session against a simulated prospect, and exchange typed or spoken
messages with it. This project models the part of the screen that has state
and rules:

- the practice-session state machine that the handlers of the practice
  screen run over its component state: choosing a scenario and a
  difficulty, starting a session (guarded, seeding a one-message welcome
  history), leaving it (which resets everything), sending a message
  (guarded, appending the trimmed user turn and then exactly one assistant
  turn), and replacing the speech transcript;
- the push-to-talk control: a listening flag switched by one button, forced
  off by recognition errors, inert while no recogniser exists, and the
  transcript builder that joins the first alternative of every recognition
  result.

Layout:

| file | module | what |
|---|---|---|
| wrappers.dfy | `Wrappers` | `Option`, for the source's nullable fields |
| js_text.dfy | `JsText` | ECMAScript white space and `String.prototype.trim` |
| practice_types.dfy | `PracticeTypes` | scenario, difficulty, message and response records; the outcomes of the two remote calls |
| practice_session.dfy | `PracticeSession` | the screen's state as a value, one function per handler, the invariant they keep and the lemmas |
| practice_mode.dfy | `PracticeComponent` | class `PracticeMode`: the same state as fields, one method per handler, each tied to its function |
| speech_transcript.dfy | `SpeechTranscript` | the transcript a recognition result event delivers |
| voice_control.dfy | `VoiceControl` | the push-to-talk state as a value, its invariant and lemmas, and class `VoicePracticeMode` |

Each awaited remote call is a parameter of the handler that awaits it:
`StartOutcome` (`Started(session)` or `StartFailed`) and `SendOutcome`
(`Replied(response)` or `SendFailed`). A success carries a response of the
declared shape (src/types/practice.ts:27-42). A failure stands for a service
call that rejects, which sends the screen into its `catch` branch
(src/components/PracticeMode.tsx:107-108, 133-135). The service client in
src/services/practiceService.ts never rejects: it catches every error and
resolves with a fallback object of a different shape (see "Left out").
Each handler is modelled as running to completion before the next
event. The browser's speech recogniser is represented only by the start and
stop calls the control makes on it (`calls`) and by the transcripts its
result handler passes on (`delivered`); whether the browser offers speech
recognition at all is the constructor's parameter `speechApiPresent`.

Behaviour the model follows from the code:

- Neither the start handler nor the send handler looks at `isLoading`; there
  is no gate against a second start or send while one is in flight
  (src/components/PracticeMode.tsx:94 and :123).
- Choosing a scenario keeps the chosen difficulty (src/components/PracticeMode.tsx:85-87).
- A start whose call rejects is only logged: session, history and
  selections stay as they were. The screen itself creates no stand-in
  session; the stand-in objects the service client returns on a network
  error (src/services/practiceService.ts:73-79, 90-95) lack the `id` and
  `message` fields the screen reads, and are not represented.
- `!sessionId` is JavaScript truthiness, so an empty session id blocks
  sending just as a missing one does. A start answered with an empty id
  therefore sets `isPracticing` while every send is refused (`HasSession`).
- `isLoading` is raised at the start of an accepted start or send and
  lowered at its end, so after either it is false; a refused start or send
  leaves it untouched.
- A recognition result with no alternatives makes the result handler throw
  (property access on a missing first alternative), so that event delivers
  nothing.
- A session's history is always the welcome turn followed by user/assistant
  pairs (`Consistent`), and `isPracticing` is set exactly when a session id
  is. This holds in the model for two reasons. Each handler is modelled as
  one step, and every response has the declared shape. See "Left out" for
  both.

## Model

| member | source | states |
|---|---|---|
| `JsText.TrimStart` | src/components/PracticeMode.tsx:123-125 | the result is a suffix of the input, everything cut off is white space, and it does not start with white space |
| `JsText.TrimEnd` | src/components/PracticeMode.tsx:123-125 | the result is a prefix of the input, everything cut off is white space, and it does not end with white space |
| `JsText.Trim` | src/components/PracticeMode.tsx:123-125 | `trim()` is a trimming of the input (a white-space prefix and suffix cut off, no white space at either end), and it is empty exactly when the input is all white space |
| `JsText.TrimmingIsUnique` | src/components/PracticeMode.tsx:123-125 | at most one string is a trimming of a given string, so the description pins `trim()` down |
| `JsText.TrimIdempotent` | src/components/PracticeMode.tsx:125 | trimming the already trimmed user message changes nothing |
| `SpeechTranscript.FirstAlternatives` | src/components/VoicePracticeMode.tsx:34-36 | succeeds exactly when every result has an alternative, and then yields each result's first alternative's text, in order, one per result |
| `SpeechTranscript.JoinAppend` | src/components/VoicePracticeMode.tsx:37 | joining with no separator turns concatenation of part lists into concatenation of strings |
| `SpeechTranscript.JoinAt` | src/components/VoicePracticeMode.tsx:37 | every part sits in the joined text between the parts before it and the parts after it, with nothing in between |
| `SpeechTranscript.Transcript` | src/components/VoicePracticeMode.tsx:34-37 | a transcript exists exactly when every result has an alternative; no results give the empty transcript |
| `SpeechTranscript.TranscriptAppend` | src/components/VoicePracticeMode.tsx:34-37 | one more result appends exactly its first alternative's text to the transcript |
| `SpeechTranscript.TranscriptGrows` | src/components/VoicePracticeMode.tsx:34-39 | the transcript for results `r` is a prefix of the transcript for `r + [x]` |
| `PracticeSession.WelcomeMessage` | src/components/PracticeMode.tsx:101-106 | the welcome turn is an assistant message whose text is exactly "Welcome to the ", then the scenario title, then " practice session! I'll be playing the role of a prospect. Let's begin!" |
| `PracticeSession.SelectScenario` | src/components/PracticeMode.tsx:85-87 | the scenario is replaced, the difficulty is kept and no other field changes |
| `PracticeSession.SelectDifficulty` | src/components/PracticeMode.tsx:89-91 | the difficulty is replaced and no other field changes |
| `PracticeSession.EditMessage` | src/components/PracticeMode.tsx:46 | the pending input is replaced and no other field changes |
| `PracticeSession.SpeechDetected` | src/components/PracticeMode.tsx:148-151 | the transcript is replaced by the delivered text, not extended, and no other field changes |
| `PracticeSession.StartPractice` | src/components/PracticeMode.tsx:93-112 | without both selections nothing changes; otherwise loading ends false; a session sets the id, sets practising and makes the history exactly the welcome turn naming the scenario; a thrown call leaves id, practising, history and selections as they were |
| `PracticeSession.ExitPractice` | src/components/PracticeMode.tsx:114-120 | practising off, both selections, the session id and the history cleared; input, transcript and loading kept |
| `PracticeSession.SendMessage` | src/components/PracticeMode.tsx:122-139 | with a blank trimmed input or no (or empty) session id nothing changes; otherwise the input is cleared, loading ends false, the history grows by exactly two with the old history as prefix: the trimmed input as a user turn, then the reply or the fixed apology as an assistant turn |
| `PracticeSession.PairKeepsTurnsAlternating` | src/components/PracticeMode.tsx:127-135 | appending a user turn and then an assistant turn keeps the welcome-then-pairs shape |
| `PracticeSession.SendKeepsConsistent` | src/components/PracticeMode.tsx:122-139 | sending keeps the invariant: practising iff a session id, a session's history alternates after the welcome turn, no history without a session |
| `PracticeSession.StepKeepsConsistent` | src/components/PracticeMode.tsx:85-151 | every handler keeps that invariant |
| `PracticeSession.InitialConsistent` | src/components/PracticeMode.tsx:36-48 | the state on mount satisfies the invariant |
| `PracticeSession.RunKeepsConsistent` | src/components/PracticeMode.tsx:85-151 | any sequence of handler runs keeps the invariant |
| `PracticeSession.ReachableConsistent` | src/components/PracticeMode.tsx:36-151 | every state reachable from mount satisfies the invariant |
| `PracticeSession.ExitIdempotent` | src/components/PracticeMode.tsx:114-120 | leaving twice is leaving once |
| `PracticeSession.DoubleStart` | src/components/PracticeMode.tsx:93-112 | two successful starts in a row leave the second session id and a history of just one welcome turn |
| `PracticeSession.Exchanges` | src/components/PracticeMode.tsx:122-139 | the driver for `ExchangesGrowHistory`: it turns N typed messages into the 2N handler runs that type and send them (an edit then a send each) |
| `PracticeSession.ExchangesGrowHistory` | src/components/PracticeMode.tsx:122-139 | N non-blank messages typed and sent in a session grow the history by exactly 2N, keep the old history as prefix and keep the session id |
| `PracticeSession.RunFirstExchange` | src/components/PracticeMode.tsx:122-139 | running a list of exchanges is running the first, then the rest |
| `PracticeSession.ExchangeGrowsHistory` | src/components/PracticeMode.tsx:122-139 | one non-blank message typed and sent in a session adds exactly two turns, keeps the old history as prefix and keeps the session id |
| `PracticeSession.SpeechKeepsLastDelivery` | src/components/PracticeMode.tsx:148-151 | after a run of deliveries the transcript is the last one delivered |
| `PracticeComponent.PracticeMode.constructor` | src/components/PracticeMode.tsx:36-48 | fields start as on mount and satisfy the invariant |
| `PracticeComponent.PracticeMode.HandleScenarioSelect` | src/components/PracticeMode.tsx:85-87 | overwrites the scenario, keeps the difficulty, keeps the invariant, and agrees with `SelectScenario` |
| `PracticeComponent.PracticeMode.HandleDifficultySelect` | src/components/PracticeMode.tsx:89-91 | overwrites the difficulty, keeps the scenario and the invariant, and agrees with `SelectDifficulty` |
| `PracticeComponent.PracticeMode.SetCurrentMessage` | src/components/PracticeMode.tsx:46 | overwrites the pending input and agrees with `EditMessage` |
| `PracticeComponent.PracticeMode.HandleStartPractice` | src/components/PracticeMode.tsx:93-112 | no change at all without both selections; loading false after an accepted start; a session sets id, practising and the one-turn welcome history; a thrown call keeps id, practising and history; selections always kept; agrees with `StartPractice` |
| `PracticeComponent.PracticeMode.HandleExitPractice` | src/components/PracticeMode.tsx:114-120 | clears practising, selections, session id and history, keeps the rest, and agrees with `ExitPractice` |
| `PracticeComponent.PracticeMode.HandleSendMessage` | src/components/PracticeMode.tsx:122-139 | no change at all when refused; otherwise clears the input, appends the trimmed user turn and one assistant turn, ends not loading; the session id and practising flag never change; agrees with `SendMessage` |
| `PracticeComponent.PracticeMode.HandleSpeechDetected` | src/components/PracticeMode.tsx:148-151 | replaces the transcript and agrees with `SpeechDetected` |
| `VoiceControl.Mounted` | src/components/VoicePracticeMode.tsx:21-22 | on first render the browser-support flag is the given one, and there is no recogniser, no listening, no call and no delivery |
| `VoiceControl.CreateRecognizer` | src/components/VoicePracticeMode.tsx:24-48 | after the mount effect a recogniser exists exactly when the browser offers speech recognition; nothing else changes |
| `VoiceControl.Toggle` | src/components/VoicePracticeMode.tsx:51-61 | without a recogniser nothing changes; otherwise the flag flips, and a stop call is made when it was listening, a start call when it was not |
| `VoiceControl.RecognitionError` | src/components/VoicePracticeMode.tsx:42-45 | listening is off afterwards whatever it was, and nothing else changes |
| `VoiceControl.ResultsReceived` | src/components/VoicePracticeMode.tsx:33-40 | an event delivers the whole transcript of all results so far, not a delta; when the transcript cannot be built nothing is delivered |
| `VoiceControl.MountedConsistent` | src/components/VoicePracticeMode.tsx:21-22 | the first-render state satisfies the control's invariant |
| `VoiceControl.ToggleKeepsConsistent` | src/components/VoicePracticeMode.tsx:51-61 | the button keeps the invariant: no recogniser without browser support, no listening or call without a recogniser, every stop right after a start, the last call a start while listening |
| `VoiceControl.VoiceStepKeepsConsistent` | src/components/VoicePracticeMode.tsx:24-61 | every handler of the control keeps the invariant |
| `VoiceControl.VoiceRunKeepsConsistent` | src/components/VoicePracticeMode.tsx:24-61 | any sequence of control events keeps the invariant |
| `VoiceControl.ReachableVoiceConsistent` | src/components/VoicePracticeMode.tsx:21-61 | every state reachable from first render satisfies the invariant |
| `VoiceControl.ToggleTwice` | src/components/VoicePracticeMode.tsx:54-60 | two presses restore the listening flag and make one start and one stop call, in alternating order |
| `VoiceControl.RecognitionErrorIdempotent` | src/components/VoicePracticeMode.tsx:42-45 | a second error changes nothing more |
| `VoiceControl.InertWithoutSpeechApi` | src/components/VoicePracticeMode.tsx:52-65 | without browser speech recognition the control renders nothing, and a press changes nothing |
| `VoiceControl.DeliveriesExtend` | src/components/VoicePracticeMode.tsx:33-40 | of two result events of one span, the second delivery extends the first |
| `VoiceControl.VoicePracticeMode.constructor` | src/components/VoicePracticeMode.tsx:21-22 | fields start as on first render and satisfy the invariant |
| `VoiceControl.VoicePracticeMode.SetUpRecognizer` | src/components/VoicePracticeMode.tsx:24-48 | a recogniser exists afterwards exactly when one existed or the browser offers one; agrees with `CreateRecognizer` |
| `VoiceControl.VoicePracticeMode.ToggleListening` | src/components/VoicePracticeMode.tsx:51-61 | inert without a recogniser; otherwise stops and clears the flag when listening, starts and sets it when not; keeps the invariant; agrees with `Toggle` |
| `VoiceControl.VoicePracticeMode.OnError` | src/components/VoicePracticeMode.tsx:42-45 | listening off, calls and deliveries kept; agrees with `RecognitionError` |
| `VoiceControl.VoicePracticeMode.OnResult` | src/components/VoicePracticeMode.tsx:33-40 | appends the whole transcript of the results to the deliveries, or nothing when it cannot be built; agrees with `ResultsReceived` |

## Left out

- Scenario loading (src/components/PracticeMode.tsx:53-66) and the auto-scroll effect (68-70): an asynchronous fetch and a DOM effect. The `scenarios` and `expandedCategory` fields are not modelled.
- Interleaving of asynchronous handlers: since nothing gates on `isLoading`, two starts or sends can overlap in the browser and their appends can interleave. Each handler is modelled as one atomic step with its remote outcome given, so the alternating-history invariant is a property of that sequential model only.
- The remote service client (src/services/practiceService.ts) is not part of this model; its calls appear only as `StartOutcome` and `SendOutcome`. Its fallback objects are not assumed to be usable sessions or replies. Feedback and metrics of a reply are carried in `MessageResponse` but unused, as in the screen.
- `console.error` logging on failed calls and recognition errors.
- All rendering and dialogs (src/components/PracticeMode.tsx:155-194), including the undefined render helpers called at line 161, and the UI-only handlers `handleTrainAI`, `handleDashboard`, `handleCategoryChange` and `handleKeyPress`, together with the flags `showPDFUploader`, `showDashboard`, `useVoice` and `showMetrics`.
- src/components/PDFUploader.tsx, src/components/Logo.tsx and src/App.tsx: presentational only.
- The browser recogniser itself: its `continuous` and `interimResults` settings, when it fires events, and whether it goes on firing after `stop`. Only the calls made on it and the transcripts delivered are recorded. The mount effect re-running when `onSpeechDetected` changes (replacing the recogniser) is not modelled; `SetUpRecognizer` models one run.
- Malformed responses: a response without the declared `id` or `message` field cannot be represented. The service client returns exactly such objects instead of rejecting (src/services/practiceService.ts:73-79, 90-95). With it, the real screen sets `isPracticing` while `sessionId` is undefined (src/components/PracticeMode.tsx:99-100), and a send appends an assistant turn with undefined content instead of the apology (src/components/PracticeMode.tsx:132). `StartFailed` and `SendFailed` model a service that rejects, which this client never does. `Consistent` is therefore not a promise about the screen running against this client.
- Recogniser identity: every run of the mount effect creates a fresh, unstarted recogniser, but the model keeps one recogniser and one `calls` log. `CreateRecognizer` applied again keeps the same recogniser, so `NoStrayStop` speaks of calls across recognisers. In the source, a press after a re-run can call `stop()` on a recogniser that was never started. Button presses are also accepted while `RendersControls` is false, because the model does not tie events to rendering.
- `onBotResponse`, `selectedScenario` and `selectedDifficulty` props of the voice control: declared but never used by it.
