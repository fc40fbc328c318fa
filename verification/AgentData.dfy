/**
 What an agent run stores and exchanges: jobs, decisions, conversation
 messages and the checkpoint. JSON text is replaced by the value it encodes.
 */
module AgentData {
  import opened Wrappers
  import opened Evidence
  import opened ReviewGate

  type RunId = nat
  type Token = nat
  type Time = real

  datatype AnswerMode = General | DocumentMode

  datatype AgentRunJob = AgentRunJob(
    runId: RunId, tenant: TenantId, message: string, maxDecisions: nat, answerMode: AnswerMode)

  datatype Decision =
    | ToolCall(name: string, arguments: string)
    | FinalAnswer(text: string, citations: seq<SourceReference>)
    | DocumentAnswer(result: DocumentResult)

  datatype ToolResult = SearchResult(passages: seq<Passage>) | OtherResult(content: string)

  /**
   A conversation entry. A caller's text is never confused with an entry the
   loop wrote, even if it spells the same JSON.
   */
  datatype Message =
    | CallerMessage(content: string)
    | Proposal(decision: Decision)
    | Observation(name: string, result: ToolResult)
    | ToolFault(name: string)
    | RetryNote

  datatype Limits = Limits(maxTokens: nat, maxCost: Option<real>, maxRecoveries: nat)

  /** The checkpoint dictionary; an absent key is its default. */
  datatype Checkpoint = Checkpoint(
    limits: Option<Limits>,
    history: Option<seq<Message>>,
    decisions: nat,
    toolCalls: nat,
    toolsCompleted: nat,
    pending: Option<Decision>,
    replaySafe: bool,
    answerMode: Option<AnswerMode>,
    searchCompleted: bool,
    question: Option<string>,
    observedPassages: seq<Passage>,
    observedSources: set<SourceReference>,
    reservedTokens: nat,
    reservedCost: real,
    reportedInput: nat,
    reportedOutput: nat,
    recoveries: nat,
    documentReview: Option<Receipt>,
    finalResult: Option<Decision>)

  const EMPTY_CHECKPOINT := Checkpoint(
    None, None, 0, 0, 0, None, false, None, false, None, [], {}, 0, 0.0, 0, 0, 0, None, None)

  /** A tool call may have run and must not run again. */
  predicate UnsafePending(cp: Checkpoint) {
    cp.pending.Some? && !cp.replaySafe
  }
}
