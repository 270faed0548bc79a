/** Rows of the event log and the tests the harness and the adapters make on them. */
module Events {
  import opened Values

  datatype EventType =
    | UserMessage
    | AssistantMessage
    | ToolCall
    | ToolResult
    | HarnessEvent
    | SystemEvent
    | Error

  datatype Event = Event(id: Uuid, sequence: nat, kind: EventType, payload: Payload)

  predicate IsSystemPrompt(e: Event) {
    e.kind == SystemEvent && Get(e.payload, "type") == Str("system_prompt")
  }

  predicate IsUser(e: Event) {
    e.kind == UserMessage
  }

  /** The consolidated assistant message that ends a turn; every other assistant message is a streaming delta. */
  predicate IsCloser(e: Event) {
    e.kind == AssistantMessage && Truthy(GetOr(e.payload, "is_complete", Bool(false)))
  }

  /** A tool call the adapters turn into a `tool_use` block. */
  predicate IsCall(e: Event) {
    && e.kind == ToolCall
    && TextOf(Get(e.payload, "tool_id")).Some?
    && TextOf(Get(e.payload, "tool_name")).Some?
  }

  predicate IsResult(e: Event) {
    e.kind == ToolResult
  }

  predicate IsCompaction(e: Event) {
    e.kind == HarnessEvent && Get(e.payload, "type") == Str("compaction")
  }

  predicate IsSandboxProvisioned(e: Event) {
    e.kind == SystemEvent && Get(e.payload, "type") == Str("sandbox_provisioned")
  }

  /** The tool_call event a tool_result refers to, when its `tool_call_id` parses. */
  function CallOf(e: Event): Option<Uuid> {
    match Get(e.payload, "tool_call_id")
    case Id(u) => Some(u)
    case _ => None
  }

  /** Incomplete deltas, harness events, errors and system events other than the prompt. */
  predicate IsNoise(e: Event) {
    match e.kind
    case AssistantMessage => !IsCloser(e)
    case SystemEvent => !IsSystemPrompt(e)
    case HarnessEvent => true
    case Error => true
    case _ => false
  }

  function EraseNoise(events: seq<Event>): seq<Event> {
    if events == [] then []
    else (if IsNoise(events[0]) then [] else [events[0]]) + EraseNoise(events[1..])
  }

  /** The event, if there is one. */
  function Opt(e: Option<Event>): seq<Event> {
    if e.Some? then [e.value] else []
  }

  lemma {:induction false} EraseNoiseConcat(a: seq<Event>, b: seq<Event>)
    ensures EraseNoise(a + b) == EraseNoise(a) + EraseNoise(b)
  {
    if a == [] {
      assert a + b == b;
    } else {
      assert (a + b)[1..] == a[1..] + b;
      EraseNoiseConcat(a[1..], b);
      var head := if IsNoise(a[0]) then [] else [a[0]];
      assert (head + EraseNoise(a[1..])) + EraseNoise(b) == head + (EraseNoise(a[1..]) + EraseNoise(b));
    }
  }

  predicate Increasing(events: seq<Event>) {
    forall i, j :: 0 <= i < j < |events| ==> events[i].sequence < events[j].sequence
  }

  ghost predicate UniqueIds(log: seq<Event>) {
    forall i, j :: 0 <= i < j < |log| ==> log[i].id != log[j].id
  }

  /** Sequence numbers are exactly 1, 2, ..., |log|, in order. */
  ghost predicate Dense(log: seq<Event>) {
    forall i :: 0 <= i < |log| ==> log[i].sequence == i + 1
  }

  ghost predicate WellFormed(log: seq<Event>) {
    Dense(log) && UniqueIds(log)
  }
}
