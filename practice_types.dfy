/**
 * The records the practice screen works with, as declared in
 * src/types/practice.ts, and the two outcomes of its remote calls.
 */
module PracticeTypes {
  import opened Wrappers

  /** A rehearsal situation from the scenario catalog. */
  datatype Scenario = Scenario(id: string, title: string, description: string, category: string)

  /** How hard the simulated prospect is. */
  datatype Difficulty = Difficulty(id: string, name: string, description: string)

  datatype Role = User | Assistant

  /** One turn of the conversation history. */
  datatype Message = Message(role: Role, content: string)

  datatype SessionStatus = Active | Completed

  /** What the start-session call declares it returns. */
  datatype PracticeSessionResponse =
    PracticeSessionResponse(id: string, scenarioId: string, difficultyId: string, status: SessionStatus)

  /** The optional scores of a reply: two named ones and any others by name. */
  datatype Metrics = Metrics(confidence: real, effectiveness: real, others: map<string, real>)

  /** What the chat call declares it returns. */
  datatype MessageResponse = MessageResponse(message: string, feedback: Option<string>, metrics: Option<Metrics>)

  /** How the awaited start-session call ended: it resolved with a session, or it threw. */
  datatype StartOutcome = Started(session: PracticeSessionResponse) | StartFailed

  /** How the awaited chat call ended: it resolved with a reply, or it threw. */
  datatype SendOutcome = Replied(response: MessageResponse) | SendFailed
}
