/** Log items, as far as the projections branch on them, and how events become items. */
module ConversationItems {
  import opened Wrappers

  datatype Agent = Claude | Codex

  datatype Phase = Progress | Partial | Final

  // Every kind of event but assistant text.
  datatype Kind = Status | OutputImage | ToolCall | ToolResult | ApprovalRequest | Question | TurnResult | RunError

  // A payload's subtype. Housekeeping stands for the lifecycle subtypes that a trace leaves out, ErrorVariant
  // for one that begins with "error" and goes on.
  datatype Subtype =
    | NoSubtype
    | Dispatch
    | Followup
    | Steer
    | Answer
    | TurnStarted
    | ContextCompacted
    | AssistantMessage
    | ProcessExit
    | StopSignal
    | ErrorSubtype
    | ErrorVariant
    | Reasoning
    | Housekeeping
    | OtherSubtype

  datatype CallStatus = NoStatus | Failing | Interrupted | Succeeded | InProgress | OtherStatus

  datatype Payload = Payload(
    subtype: Subtype,
    messageId: Option<string>,
    phase: Option<Phase>,
    isError: bool,
    status: CallStatus,
    exitCode: Option<int>,
    code: Option<int>,
    fromMessage: bool,
    result: Option<string>,
    toolUseId: string,
    callId: string)

  // The task, agent and session an event belongs to.
  datatype Source = Source(task: string, agent: Agent, session: string)

  datatype Item =
    | Text(key: int, endSeq: int, agent: Agent, text: string, messageId: Option<string>, phase: Option<Phase>)
    | Event(key: int, endSeq: int, kind: Kind, source: Source, payload: Payload)

  predicate Is(item: Item, kind: Kind) {
    item.Event? && item.kind == kind
  }

  predicate StatusOf(item: Item, subtype: Subtype) {
    Is(item, Status) && item.payload.subtype == subtype
  }

  predicate Failed(item: Item) {
    item.Event? &&
    (|| item.kind == RunError
     || item.payload.isError
     || item.payload.status == Failing
     || (item.payload.exitCode.Some? && item.payload.exitCode.value != 0)
     || (StatusOf(item, ProcessExit) && item.payload.code.Some? && item.payload.code.value != 0)
     || (item.kind == TurnResult && (item.payload.subtype.ErrorSubtype? || item.payload.subtype.ErrorVariant?)))
  }

  /** Unattributed images are work details; explicit message images stay visible. */
  predicate TraceImage(item: Item) {
    Is(item, OutputImage) && !item.payload.fromMessage
  }

  predicate ToolItem(item: Item) {
    Is(item, ToolCall) || Is(item, ToolResult)
  }

  predicate UserMessage(item: Item) {
    StatusOf(item, Dispatch) || StatusOf(item, Followup) || StatusOf(item, Steer) || StatusOf(item, Answer)
  }

  predicate Blank(c: char) {
    c == ' ' || c == '\t' || c == '\n' || c == '\r'
  }

  function TrimStart(s: string): string {
    if s != "" && Blank(s[0]) then TrimStart(s[1..]) else s
  }

  function TrimEnd(s: string): string {
    if s != "" && Blank(s[|s| - 1]) then TrimEnd(s[..|s| - 1]) else s
  }

  function Trim(s: string): string {
    TrimEnd(TrimStart(s))
  }

  /** Logs are ordered by sequence number, which also makes keys distinct. */
  ghost predicate Ascending(log: seq<Item>) {
    forall i, j | 0 <= i < j < |log| :: log[i].key < log[j].key
  }

  // An incoming event that is not an injected environment update.
  datatype Incoming =
    | Prose(agent: Agent, text: string, messageId: Option<string>, phase: Option<Phase>)
    | Other(kind: Kind, source: Source, payload: Payload)

  /** Whether streamed prose continues the last item rather than beginning a new one. */
  predicate Continues(last: Item, event: Incoming) {
    && last.Text? && event.Prose?
    && last.agent == event.agent
    && last.messageId == event.messageId
    && (event.messageId.Some? || last.phase == event.phase)
  }

  function Fresh(event: Incoming, seqNo: int): Item {
    match event
    case Prose(agent, text, messageId, phase) => Text(seqNo, seqNo, agent, text, messageId, phase)
    case Other(kind, source, payload) => Event(seqNo, seqNo, kind, source, payload)
  }

  function AppendHistoryEvent(items: seq<Item>, event: Incoming, seqNo: int): seq<Item> {
    if items != [] && Continues(items[|items| - 1], event) then
      var last := items[|items| - 1];
      items[..|items| - 1] + [last.(endSeq := seqNo, text := last.text + event.text)]
    else items + [Fresh(event, seqNo)]
  }
}
