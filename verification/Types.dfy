/** Values shared by the agent loop, the durable runtime and the tools. */
module Types {

  datatype Option<+T> = None | Some(value: T)

  /** Message contents and tool results are byte strings: truncation works on bytes. */
  newtype Byte = x: int | 0 <= x < 256
  type Text = seq<Byte>

  /** The bytes of an ASCII literal; other characters become '?'. */
  function Ascii(s: string): Text {
    seq(|s|, i requires 0 <= i < |s| => if s[i] as int < 128 then s[i] as int as Byte else 63)
  }

  /** A source a tool result is based on; `detail` stands for the descriptive fields. */
  datatype Citation = Citation(docId: int, url: string, detail: string)

  /** `args` is the canonical JSON text of the argument map (the raw text when it does not parse). */
  datatype Call = Call(id: string, name: string, args: string)

  /** `NoRole` is the role of the zero message an aborted call carries. */
  datatype Role = System | User | Assistant | Tool | NoRole

  datatype Message = Message(
    role: Role, content: Text, calls: seq<Call>,
    callId: string, toolName: string, citations: seq<Citation>)

  const ZERO_MESSAGE := Message(NoRole, [], [], "", "", [])

  function AssistantMessage(content: Text, calls: seq<Call>): Message {
    Message(Assistant, content, calls, "", "", [])
  }

  function ToolMessage(callId: string, toolName: string, content: Text, citations: seq<Citation>): Message {
    Message(Tool, content, [], callId, toolName, citations)
  }

  /** The matching key of a call during recovery: tool name and arguments. */
  datatype Key = Key(name: string, args: string)

  function CallKey(c: Call): Key { Key(c.name, c.args) }

  datatype EventType =
    | RunStart | RunResumed | ModelDelta | ToolProposed | ApprovalRequired | ToolStarted
    | ToolResult | ToolError | StepDone | FinalAnswer | RunDone | RunError

  datatype Event = Event(
    typ: EventType, sq: int, callId: string, toolName: string, args: string,
    result: Text, error: Text, citations: seq<Citation>)

  /** An event that concerns no tool call; the sequence number is assigned when it is emitted. */
  function PlainEvent(typ: EventType): Event { Event(typ, 0, "", "", "", [], [], []) }

  function CallEvent(typ: EventType, c: Call): Event {
    Event(typ, 0, c.id, c.name, c.args, [], [], [])
  }

  predicate IsTerminal(e: Event) { e.typ == RunDone || e.typ == RunError }

  predicate IsResult(e: Event) { e.typ == ToolResult || e.typ == ToolError }

  /** What a tool body produces: a result (possibly a business error) or a Go error. */
  datatype Outcome = Result(content: Text, isError: bool, citations: seq<Citation>) | Failure(reason: Text)

  lemma Regroup<A>(a: seq<A>, b: seq<A>, c: seq<A>)
    ensures (a + b) + c == a + (b + c)
  {}
}
