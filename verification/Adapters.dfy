/** The conversation fold shared by both adapters: event log in, model messages out. */
module Adapters {
  import opened Values
  import opened Events

  /** `content` of a tool_result block: kept as stored, or passed through Python's `str`. */
  datatype Content = Verbatim(j: Json) | Stringified(j: Json)

  datatype Block =
    | Text(text: string)
    | ToolUse(id: string, name: string, input: Payload)
    | ToolAnswer(toolUseId: string, content: Content, isError: Option<bool>)

  datatype Message =
    | System(content: string)
    | User(content: string)
    | Assistant(blocks: seq<Block>)
    | Tool(blocks: seq<Block>)

  // ---- Blocks built from payloads -----------------------------------------

  function UseBlock(e: Event): Block
    requires IsCall(e)
  {
    var input := GetOr(e.payload, "input", Obj(map[]));
    ToolUse(TextOf(Get(e.payload, "tool_id")).value,
            TextOf(Get(e.payload, "tool_name")).value,
            if input.Obj? then input.o else map[])
  }

  function AnswerContent(p: Payload): Content {
    var content := Get(p, "content");
    if content == Null then
      var error := Get(p, "error");
      Verbatim(if TextOf(error).Some? then error else Str(""))
    else if TextOf(content).Some? || content.Arr? then Verbatim(content)
    else Stringified(content)
  }

  function AnswerBlock(toolUseId: string, p: Payload): Block {
    var isError := Get(p, "is_error");
    ToolAnswer(toolUseId, AnswerContent(p), if isError == Null then None else Some(Truthy(isError)))
  }

  /** Event id of each tool_call to the model's tool_use id; a later row wins. */
  function CallIds(events: seq<Event>): map<Uuid, string> {
    if events == [] then map[]
    else
      var ids := CallIds(events[..|events| - 1]);
      var e := events[|events| - 1];
      var toolId := TextOf(Get(e.payload, "tool_id"));
      if e.kind == ToolCall && toolId.Some? then ids[e.id := toolId.value] else ids
  }

  /** The tool_use id a tool_result answers, or None when it is orphaned. */
  function AnsweredUse(ids: map<Uuid, string>, e: Event): Option<string> {
    match CallOf(e)
    case Some(call) => if call in ids then Some(ids[call]) else None
    case None => None
  }

  // ---- The fold as a function ---------------------------------------------

  /** The messages emitted so far and the three pending buffers. */
  datatype Buffers = Buffers(messages: seq<Message>, text: string, uses: seq<Block>, answers: seq<Block>)

  const EMPTY := Buffers([], "", [], [])

  function AssistantBlocks(text: string, uses: seq<Block>): seq<Block> {
    (if text != "" then [Text(text)] else []) + uses
  }

  function FlushAssistant(f: Buffers): Buffers {
    if f.text == "" && f.uses == [] then f
    else f.(messages := f.messages + [Assistant(AssistantBlocks(f.text, f.uses))], text := "", uses := [])
  }

  function FlushAnswers(f: Buffers): Buffers {
    if f.answers == [] then f else f.(messages := f.messages + [Tool(f.answers)], answers := [])
  }

  function Flush(f: Buffers): Buffers {
    FlushAnswers(FlushAssistant(f))
  }

  function Say(f: Buffers, messages: seq<Message>): Buffers {
    var g := Flush(f);
    g.(messages := g.messages + messages)
  }

  function PromptMessages(e: Event): seq<Message> {
    match TextOf(GetOr(e.payload, "content", Str("")))
    case Some(s) => if s != "" then [System(s)] else []
    case None => []
  }

  function UserMessages(e: Event): seq<Message> {
    match TextOf(GetOr(e.payload, "content", Str("")))
    case Some(s) => [User(s)]
    case None => []
  }

  /** A user message with text. */
  predicate Speaks(e: Event) {
    IsUser(e) && UserMessages(e) != []
  }

  function CloserText(e: Event): Option<string> {
    TextOf(GetOr(e.payload, "content", Str("")))
  }

  function Step(ids: map<Uuid, string>, f: Buffers, e: Event): Buffers {
    if IsSystemPrompt(e) then Say(f, PromptMessages(e))
    else if IsUser(e) then Say(f, UserMessages(e))
    else if IsCloser(e) then
      var g := FlushAnswers(f);
      if CloserText(e).Some? then g.(text := CloserText(e).value) else g
    else if IsCall(e) then
      var g := if f.answers != [] then Flush(f) else f;
      g.(uses := g.uses + [UseBlock(e)])
    else if IsResult(e) then
      var g := FlushAssistant(f);
      match AnsweredUse(ids, e)
      case Some(use) => g.(answers := g.answers + [AnswerBlock(use, e.payload)])
      case None => g
    else f
  }

  function FoldFrom(ids: map<Uuid, string>, f: Buffers, events: seq<Event>): Buffers
    decreases |events|
  {
    if events == [] then f else FoldFrom(ids, Step(ids, f, events[0]), events[1..])
  }

  function Context(events: seq<Event>): seq<Message> {
    Flush(FoldFrom(CallIds(events), EMPTY, events)).messages
  }

  // ---- The loop of the source ----------------------------------------------

  /** The locals of `build_context` that its two flush closures update. */
  class ContextBuilder {
    var messages: seq<Message>
    var pendingText: string
    var pendingToolUses: seq<Block>
    var pendingToolResults: seq<Block>

    function State(): Buffers
      reads this
    {
      Buffers(messages, pendingText, pendingToolUses, pendingToolResults)
    }

    constructor ()
      ensures State() == EMPTY
    {
      messages, pendingText, pendingToolUses, pendingToolResults := [], "", [], [];
    }

    method FlushAssistantTurn()
      modifies this
      ensures State() == FlushAssistant(old(State()))
    {
      if pendingText == "" && pendingToolUses == [] {
        return;
      }
      var blocks := [];
      if pendingText != "" {
        blocks := blocks + [Text(pendingText)];
      }
      blocks := blocks + pendingToolUses;
      assert blocks == AssistantBlocks(pendingText, pendingToolUses);
      messages := messages + [Assistant(blocks)];
      pendingText := "";
      pendingToolUses := [];
    }

    method FlushToolResults()
      modifies this
      ensures State() == FlushAnswers(old(State()))
    {
      if pendingToolResults == [] {
        return;
      }
      messages := messages + [Tool(pendingToolResults)];
      pendingToolResults := [];
    }

    method Consume(ids: map<Uuid, string>, e: Event)
      modifies this
      ensures State() == Step(ids, old(State()), e)
    {
      if e.kind == SystemEvent && Get(e.payload, "type") == Str("system_prompt") {
        FlushAssistantTurn();
        FlushToolResults();
        var content := TextOf(GetOr(e.payload, "content", Str("")));
        if content.Some? && content.value != "" {
          messages := messages + [System(content.value)];
        }
      } else if e.kind == UserMessage {
        FlushAssistantTurn();
        FlushToolResults();
        var content := TextOf(GetOr(e.payload, "content", Str("")));
        if content.Some? {
          messages := messages + [User(content.value)];
        }
      } else if e.kind == AssistantMessage {
        if !Truthy(GetOr(e.payload, "is_complete", Bool(false))) {
          return;
        }
        FlushToolResults();
        var text := TextOf(GetOr(e.payload, "content", Str("")));
        if text.Some? {
          pendingText := text.value;
        }
      } else if e.kind == ToolCall {
        var toolId, toolName := TextOf(Get(e.payload, "tool_id")), TextOf(Get(e.payload, "tool_name"));
        var input := GetOr(e.payload, "input", Obj(map[]));
        if toolId.None? || toolName.None? {
          return;
        }
        if pendingToolResults != [] {
          FlushAssistantTurn();
          FlushToolResults();
        }
        pendingToolUses := pendingToolUses
          + [ToolUse(toolId.value, toolName.value, if input.Obj? then input.o else map[])];
      } else if e.kind == ToolResult {
        FlushAssistantTurn();
        var toolCallId := Get(e.payload, "tool_call_id");
        if !toolCallId.Id? || toolCallId.u !in ids {
          return;
        }
        pendingToolResults := pendingToolResults + [AnswerBlock(ids[toolCallId.u], e.payload)];
      }
    }
  }

  method CollectCallIds(events: seq<Event>) returns (ids: map<Uuid, string>)
    ensures ids == CallIds(events)
  {
    ids := map[];
    for i := 0 to |events|
      invariant ids == CallIds(events[..i])
    {
      assert events[..i + 1][..i] == events[..i];
      var toolId := TextOf(Get(events[i].payload, "tool_id"));
      if events[i].kind == ToolCall && toolId.Some? {
        ids := ids[events[i].id := toolId.value];
      }
    }
    assert events[..|events|] == events;
  }

  method BuildContext(events: seq<Event>) returns (messages: seq<Message>)
    ensures messages == Context(events)
  {
    var ids := CollectCallIds(events);
    var builder := new ContextBuilder();
    for i := 0 to |events|
      invariant FoldFrom(ids, builder.State(), events[i..]) == FoldFrom(ids, EMPTY, events)
    {
      assert events[i..][1..] == events[i + 1..];
      builder.Consume(ids, events[i]);
    }
    builder.FlushAssistantTurn();
    builder.FlushToolResults();
    messages := builder.messages;
  }

  // ---- General facts about the fold ----------------------------------------

  lemma {:induction false} FoldConcat(ids: map<Uuid, string>, f: Buffers, a: seq<Event>, b: seq<Event>)
    ensures FoldFrom(ids, f, a + b) == FoldFrom(ids, FoldFrom(ids, f, a), b)
    decreases |a|
  {
    if a == [] {
      assert a + b == b;
    } else {
      assert (a + b)[1..] == a[1..] + b;
      FoldConcat(ids, Step(ids, f, a[0]), a[1..], b);
    }
  }

  lemma CallIdsConcat(a: seq<Event>, b: seq<Event>)
    ensures CallIds(a + b) == CallIds(a) + CallIds(b)
  {
    if b == [] {
      assert a + b == a;
    } else {
      assert (a + b)[..|a + b| - 1] == a + b[..|b| - 1];
      CallIdsConcat(a, b[..|b| - 1]);
    }
  }

  lemma {:induction false} CallIdsIgnoreNoise(events: seq<Event>)
    ensures CallIds(EraseNoise(events)) == CallIds(events)
  {
    if events != [] {
      CallIdsIgnoreNoise(events[1..]);
      var head := if IsNoise(events[0]) then [] else [events[0]];
      CallIdsConcat(head, EraseNoise(events[1..]));
      CallIdsConcat([events[0]], events[1..]);
      assert [events[0]] + events[1..] == events;
      assert CallIds([events[0]]) == CallIds(head) by {
        assert [events[0]][..0] == [];
      }
    }
  }

  lemma {:induction false} FoldIgnoresNoise(ids: map<Uuid, string>, f: Buffers, events: seq<Event>)
    ensures FoldFrom(ids, f, EraseNoise(events)) == FoldFrom(ids, f, events)
    decreases |events|
  {
    if events != [] {
      FoldIgnoresNoise(ids, Step(ids, f, events[0]), events[1..]);
      if IsNoise(events[0]) {
        assert EraseNoise(events) == EraseNoise(events[1..]);
      } else {
        assert EraseNoise(events)[1..] == EraseNoise(events[1..]);
      }
    }
  }

  /** For every log at all, deltas, harness events, errors and sandbox records leave the context unchanged. */
  lemma ContextIgnoresNoise(events: seq<Event>)
    ensures Context(EraseNoise(events)) == Context(events)
  {
    CallIdsIgnoreNoise(events);
    FoldIgnoresNoise(CallIds(events), EMPTY, events);
  }

  // ---- The pairing rule -----------------------------------------------------

  function UseIds(blocks: seq<Block>): seq<string> {
    if blocks == [] then []
    else (if blocks[0].ToolUse? then [blocks[0].id] else []) + UseIds(blocks[1..])
  }

  function AnswerIds(blocks: seq<Block>): seq<string> {
    if blocks == [] then []
    else (if blocks[0].ToolAnswer? then [blocks[0].toolUseId] else []) + AnswerIds(blocks[1..])
  }

  lemma {:induction false} UseIdsConcat(a: seq<Block>, b: seq<Block>)
    ensures UseIds(a + b) == UseIds(a) + UseIds(b)
  {
    if a == [] {
      assert a + b == b;
    } else {
      assert (a + b)[1..] == a[1..] + b;
      UseIdsConcat(a[1..], b);
      var head := if a[0].ToolUse? then [a[0].id] else [];
      assert (head + UseIds(a[1..])) + UseIds(b) == head + (UseIds(a[1..]) + UseIds(b));
    }
  }

  lemma {:induction false} AnswerIdsConcat(a: seq<Block>, b: seq<Block>)
    ensures AnswerIds(a + b) == AnswerIds(a) + AnswerIds(b)
  {
    if a == [] {
      assert a + b == b;
    } else {
      assert (a + b)[1..] == a[1..] + b;
      AnswerIdsConcat(a[1..], b);
      var head := if a[0].ToolAnswer? then [a[0].toolUseId] else [];
      assert (head + AnswerIds(a[1..])) + AnswerIds(b) == head + (AnswerIds(a[1..]) + AnswerIds(b));
    }
  }

  /** The tool_use ids a message asks to have answered. */
  function Asks(m: Message): seq<string> {
    if m.Assistant? then UseIds(m.blocks) else []
  }

  /** The tool_use ids a message answers. */
  function Answers(m: Message): seq<string> {
    if m.Tool? then AnswerIds(m.blocks) else []
  }

  /** What message `i` asks is answered by message `i + 1`, same ids in the same order,
      and what it answers was asked by message `i - 1`. */
  predicate PairedAt(ms: seq<Message>, i: int)
    requires 0 <= i < |ms|
  {
    && Asks(ms[i]) == (if i + 1 < |ms| then Answers(ms[i + 1]) else [])
    && Answers(ms[i]) == (if i > 0 then Asks(ms[i - 1]) else [])
  }

  /** No unanswered tool_use and no dangling tool_result. */
  predicate Paired(ms: seq<Message>) {
    forall i :: 0 <= i < |ms| ==> PairedAt(ms, i)
  }

  /** The model can be asked to continue: leaving system prompts aside, the user or a tool spoke last. */
  predicate AwaitsModel(ms: seq<Message>) {
    if ms == [] then false
    else
      var m := ms[|ms| - 1];
      if m.System? then AwaitsModel(ms[..|ms| - 1]) else m.User? || m.Tool?
  }
}
