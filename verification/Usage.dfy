/** The usage event: what adapters emit, the store keeps and the analyzers read. */
module Usage {
  datatype Activity =
    | Thinking
    | Exploration
    | Coding
    | Testing
    | Shipping
    | Conversation
    | OtherActivity(name: string)

  const ACTIVITIES: seq<Activity> := [Thinking, Exploration, Coding, Testing, Shipping, Conversation]

  const SOURCE_CODEX := "codex"

  datatype Event = Event(
    source: string,
    sessionId: string,
    eventKey: string,
    project: string,
    branch: string,
    model: string,
    tools: seq<string>,
    activity: Activity,
    ts: string,
    inputTokens: int,
    outputTokens: int,
    cacheReadTokens: int,
    cacheCreationTokens: int,
    isError: bool
  )

  function SourceOf(e: Event): string { e.source }

  function SessionOf(e: Event): string { e.sessionId }

  function ModelOf(e: Event): string { e.model }

  function ActivityOf(e: Event): Activity { e.activity }

  function Input(e: Event): int { e.inputTokens }

  function Output(e: Event): int { e.outputTokens }

  function CacheRead(e: Event): int { e.cacheReadTokens }

  function CacheCreation(e: Event): int { e.cacheCreationTokens }

  function Spend(e: Event): int { e.inputTokens + e.outputTokens }

  function AllTokens(e: Event): int {
    e.inputTokens + e.outputTokens + e.cacheReadTokens + e.cacheCreationTokens
  }

  ghost predicate NonNegative(events: seq<Event>) {
    forall e :: e in events ==>
      e.inputTokens >= 0 && e.outputTokens >= 0 && e.cacheReadTokens >= 0 && e.cacheCreationTokens >= 0
  }
}
