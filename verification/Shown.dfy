/** What the model is shown of a conversation, said on the payloads of its events: a specification that shares nothing
    with the fold, which the fold is proved to meet. */
module Shown {
  import opened Values
  import opened Events
  import opened Adapters
  import opened Rounds

  // ---- Payloads and what is shown of them ---------------------------------------------------

  /** The key holds this text. */
  predicate Tells(p: Payload, key: string, text: string) {
    key in p && match p[key]
                case Str(s) => s == text
                case Id(u) => Print(u) == text
                case _ => false
  }

  predicate IsText(j: Json) {
    j.Str? || j.Id?
  }

  /** A tool_use has the call's id, name and input; an input that is no mapping is shown as an empty one. */
  predicate UseShows(b: Block, p: Payload) {
    && b.ToolUse? && Tells(p, "tool_id", b.id) && Tells(p, "tool_name", b.name)
    && b.input == if "input" in p && p["input"].Obj? then p["input"].o else map[]
  }

  /** A tool_result has the stored content: text and lists as they are, anything else as Python prints it; without
      content, the error's text.  It has the stored error flag, if there is one. */
  predicate AnswerShows(b: Block, id: string, p: Payload) {
    && b.ToolAnswer? && b.toolUseId == id
    && (if "content" in p && p["content"] != Null then
          b.content == if IsText(p["content"]) || p["content"].Arr? then Verbatim(p["content"]) else Stringified(p["content"])
        else
          b.content == Verbatim(if "error" in p && IsText(p["error"]) then p["error"] else Str("")))
    && b.isError == if "is_error" in p && p["is_error"] != Null then Some(Truthy(p["is_error"])) else None
  }

  /** A prompt is shown as its text, unless that is empty. */
  predicate PromptShows(ms: seq<Message>, p: Payload) {
    if ms == [] then "content" !in p || !IsText(p["content"]) || Tells(p, "content", "")
    else |ms| == 1 && ms[0].System? && ms[0].content != "" && Tells(p, "content", ms[0].content)
  }

  /** A user message is shown as its text, the empty text if it has no content, and not at all if that is no text. */
  predicate UserShows(ms: seq<Message>, p: Payload) {
    if ms == [] then "content" in p && !IsText(p["content"])
    else |ms| == 1 && ms[0].User? && (if "content" in p then Tells(p, "content", ms[0].content) else ms[0].content == "")
  }

  /** The text of a closer. */
  predicate CloserShows(text: string, p: Payload) {
    if "content" in p then Tells(p, "content", text) else text == ""
  }

  /** Text, if there is any, then one tool_use a call. */
  predicate AssistantShows(blocks: seq<Block>, text: string, calls: seq<Event>) {
    var k := if text == "" then 0 else 1;
    && |blocks| == k + |calls| && (k == 1 ==> blocks[0] == Text(text))
    && forall i :: 0 <= i < |calls| ==> UseShows(blocks[k + i], calls[i].payload)
  }

  /** One tool_result a call, for the id the call was made with. */
  predicate AnswersShow(blocks: seq<Block>, calls: seq<Event>, results: seq<Event>) {
    && |blocks| == |calls| == |results|
    && forall i :: 0 <= i < |blocks| ==>
         blocks[i].ToolAnswer? && Tells(calls[i].payload, "tool_id", blocks[i].toolUseId)
         && AnswerShows(blocks[i], blocks[i].toolUseId, results[i].payload)
  }

  /** A turn is one assistant message, unless it is empty, and one tool message if it made calls. */
  predicate TurnShows(ms: seq<Message>, text: string, calls: seq<Event>, results: seq<Event>) {
    if text == "" && calls == [] then ms == []
    else
      && |ms| == (if calls == [] then 1 else 2)
      && ms[0].Assistant? && AssistantShows(ms[0].blocks, text, calls)
      && (calls != [] ==> ms[1].Tool? && AnswersShow(ms[1].blocks, calls, results))
  }

  ghost predicate ItemShows(ms: seq<Message>, item: Item) {
    match item
    case Prompt(e) => PromptShows(ms, e.payload)
    case Said(e) => UserShows(ms, e.payload)
    case Turn(calls, closer, results) =>
      exists text :: (if closer.Some? then CloserShows(text, closer.value.payload) else text == "")
                     && TurnShows(ms, text, calls, results)
  }

  function Joined(parts: seq<seq<Message>>): seq<Message> {
    if parts == [] then [] else parts[0] + Joined(parts[1..])
  }

  /** The messages show the items, one after the other. */
  ghost predicate Shows(ms: seq<Message>, items: seq<Item>, parts: seq<seq<Message>>) {
    && |parts| == |items| && ms == Joined(parts)
    && forall i :: 0 <= i < |items| ==> ItemShows(parts[i], items[i])
  }

  // ---- The specification leaves no choice -----------------------------------------------------

  lemma {:induction false} TellsOne(p: Payload, key: string, a: string, b: string)
    requires Tells(p, key, a) && Tells(p, key, b)
    ensures a == b
  {
  }

  lemma {:induction false} AssistantIsDetermined(a: seq<Block>, b: seq<Block>, text: string, calls: seq<Event>)
    requires AssistantShows(a, text, calls) && AssistantShows(b, text, calls)
    ensures a == b
  {
    var k := if text == "" then 0 else 1;
    forall j | 0 <= j < |a| ensures a[j] == b[j] {
      if j >= k {
        var i := j - k;
        assert UseShows(a[k + i], calls[i].payload) && UseShows(b[k + i], calls[i].payload);
        TellsOne(calls[i].payload, "tool_id", a[j].id, b[j].id);
        TellsOne(calls[i].payload, "tool_name", a[j].name, b[j].name);
      }
    }
  }

  lemma {:induction false} AnswersAreDetermined(a: seq<Block>, b: seq<Block>, calls: seq<Event>, results: seq<Event>)
    requires AnswersShow(a, calls, results) && AnswersShow(b, calls, results)
    ensures a == b
  {
    forall i | 0 <= i < |a| ensures a[i] == b[i] {
      TellsOne(calls[i].payload, "tool_id", a[i].toolUseId, b[i].toolUseId);
    }
  }

  lemma {:induction false} TurnIsDetermined(a: seq<Message>, b: seq<Message>, text: string, calls: seq<Event>,
                                            results: seq<Event>)
    requires TurnShows(a, text, calls, results) && TurnShows(b, text, calls, results)
    ensures a == b
  {
    if text != "" || calls != [] {
      AssistantIsDetermined(a[0].blocks, b[0].blocks, text, calls);
      assert a[0] == b[0];
      if calls != [] {
        AnswersAreDetermined(a[1].blocks, b[1].blocks, calls, results);
        assert a[1] == b[1];
      }
    }
  }

  lemma {:induction false} ItemIsDetermined(a: seq<Message>, b: seq<Message>, item: Item)
    requires ItemShows(a, item) && ItemShows(b, item)
    ensures a == b
  {
    if item.Turn? {
      var Turn(calls, closer, results) := item;
      var s :| (if closer.Some? then CloserShows(s, closer.value.payload) else s == "") && TurnShows(a, s, calls, results);
      var t :| (if closer.Some? then CloserShows(t, closer.value.payload) else t == "") && TurnShows(b, t, calls, results);
      TurnIsDetermined(a, b, s, calls, results);
    }
  }

  lemma {:induction false} ShowsIsDetermined(items: seq<Item>, a: seq<Message>, ps: seq<seq<Message>>,
                                             b: seq<Message>, qs: seq<seq<Message>>)
    requires Shows(a, items, ps) && Shows(b, items, qs)
    ensures a == b
  {
    forall i | 0 <= i < |items| ensures ps[i] == qs[i] {
      ItemIsDetermined(ps[i], qs[i], items[i]);
    }
    assert ps == qs;
  }

  // ---- The renderer meets it ------------------------------------------------------------------------

  lemma {:induction false} UseBlockShows(e: Event)
    requires IsCall(e)
    ensures UseShows(UseBlock(e), e.payload)
  {
  }

  lemma {:induction false} AnswerBlockShows(id: string, p: Payload)
    ensures AnswerShows(AnswerBlock(id, p), id, p)
  {
  }

  lemma {:induction false} UseBlocksAt(calls: seq<Event>, i: nat)
    requires (forall j :: 0 <= j < |calls| ==> IsCall(calls[j])) && i < |calls|
    ensures |UseBlocks(calls)| == |calls| && UseBlocks(calls)[i] == UseBlock(calls[i])
  {
    if i > 0 {
      UseBlocksAt(calls[1..], i - 1);
    } else if |calls| > 1 {
      UseBlocksAt(calls[1..], 0);
    }
  }

  lemma {:induction false} AnswerBlocksAt(calls: seq<Event>, results: seq<Event>, i: nat)
    requires Answered(calls, results) && i < |calls|
    ensures |AnswerBlocks(calls, results)| == |calls|
    ensures AnswerBlocks(calls, results)[i] == AnswerBlock(UseBlock(calls[i]).id, results[i].payload)
  {
    if i > 0 {
      AnswerBlocksAt(calls[1..], results[1..], i - 1);
    } else if |calls| > 1 {
      AnswerBlocksAt(calls[1..], results[1..], 0);
    }
  }

  lemma {:induction false} UseBlocksShow(text: string, calls: seq<Event>)
    requires forall j :: 0 <= j < |calls| ==> IsCall(calls[j])
    ensures AssistantShows(AssistantBlocks(text, UseBlocks(calls)), text, calls)
  {
    if calls != [] {
      UseBlocksAt(calls, 0);
    }
    var k := if text == "" then 0 else 1;
    forall i | 0 <= i < |calls| ensures UseShows(AssistantBlocks(text, UseBlocks(calls))[k + i], calls[i].payload) {
      UseBlocksAt(calls, i);
      UseBlockShows(calls[i]);
    }
  }

  lemma {:induction false} AnswerBlocksShow(calls: seq<Event>, results: seq<Event>)
    requires Answered(calls, results)
    ensures AnswersShow(AnswerBlocks(calls, results), calls, results)
  {
    if calls != [] {
      AnswerBlocksAt(calls, results, 0);
    }
    forall i | 0 <= i < |calls|
      ensures var b := AnswerBlocks(calls, results)[i];
              b.ToolAnswer? && Tells(calls[i].payload, "tool_id", b.toolUseId)
              && AnswerShows(b, b.toolUseId, results[i].payload)
    {
      AnswerBlocksAt(calls, results, i);
      UseBlockShows(calls[i]);
      AnswerBlockShows(UseBlock(calls[i]).id, results[i].payload);
    }
  }

  lemma {:induction false} RenderShows(item: Item)
    requires ItemOk(item)
    ensures ItemShows(Render(item), item)
  {
    if item.Turn? {
      var Turn(calls, closer, results) := item;
      var text := SpokenText(closer);
      UseBlocksShow(text, calls);
      AnswerBlocksShow(calls, results);
      assert TurnShows(Render(item), text, calls, results);
    }
  }

  lemma {:induction false} RenderAllShows(items: seq<Item>) returns (parts: seq<seq<Message>>)
    requires ItemsOk(items)
    ensures Shows(RenderAll(items), items, parts)
  {
    if items == [] {
      parts := [];
    } else {
      RenderShows(items[0]);
      var rest := RenderAllShows(items[1..]);
      parts := [Render(items[0])] + rest;
      assert parts[1..] == rest;
    }
  }

  /** The fold of a complete conversation in which no turn follows one that only spoke shows it exactly: every text, tool
      name, input, answer and error flag as it is stored, in order, and nothing else. */
  lemma {:induction false} ContextShows(log: seq<Event>, items: seq<Item>, ms: seq<Message>)
    requires Records(log, items) && SpeaksThenListens(items)
    ensures ms == Context(log) <==> exists parts :: Shows(ms, items, parts)
  {
    ContextIsRender(log, items);
    var mine := RenderAllShows(items);
    if parts :| Shows(ms, items, parts) {
      ShowsIsDetermined(items, ms, parts, Context(log), mine);
    }
  }

  // ---- Any log at all ---------------------------------------------------------------------------------

  /** `is_complete` is set: the message is no streaming delta. */
  predicate Completes(p: Payload) {
    "is_complete" in p && Truthy(p["is_complete"])
  }

  predicate IsPrompt(p: Payload) {
    "type" in p && p["type"] == Str("system_prompt")
  }

  /** Something in the log says what the block says. */
  ghost predicate BlockIsFrom(b: Block, log: seq<Event>) {
    match b
    case Text(text) => exists e :: e in log && e.kind == AssistantMessage && Completes(e.payload) && CloserShows(text, e.payload)
    case ToolUse(_, _, _) => exists e :: e in log && e.kind == ToolCall && UseShows(b, e.payload)
    case ToolAnswer(id, _, _) => exists e, c :: Answering(e, c, log, id) && AnswerShows(b, id, e.payload)
  }

  /** A result and the call with this tool_use id that it names. */
  predicate Answering(e: Event, c: Event, log: seq<Event>, id: string) {
    && e in log && e.kind == ToolResult && c in log && c.kind == ToolCall
    && Get(e.payload, "tool_call_id") == Id(c.id) && Tells(c.payload, "tool_id", id)
  }

  ghost predicate BlocksAreFrom(blocks: seq<Block>, log: seq<Event>) {
    forall b :: b in blocks ==> BlockIsFrom(b, log)
  }

  ghost predicate MessageIsFrom(m: Message, log: seq<Event>) {
    match m
    case System(_) => exists e :: e in log && e.kind == SystemEvent && IsPrompt(e.payload) && PromptShows([m], e.payload)
    case User(_) => exists e :: e in log && e.kind == UserMessage && UserShows([m], e.payload)
    case Assistant(blocks) => BlocksAreFrom(blocks, log)
    case Tool(blocks) => BlocksAreFrom(blocks, log)
  }

  ghost predicate BuffersAreFrom(f: Buffers, log: seq<Event>) {
    && (forall m :: m in f.messages ==> MessageIsFrom(m, log))
    && (f.text != "" ==> BlockIsFrom(Text(f.text), log))
    && BlocksAreFrom(f.uses, log) && BlocksAreFrom(f.answers, log)
  }

  ghost predicate IdsAreFrom(ids: map<Uuid, string>, log: seq<Event>) {
    forall u :: u in ids ==> exists c :: c in log && c.kind == ToolCall && c.id == u && Tells(c.payload, "tool_id", ids[u])
  }

  lemma {:induction false} CallIdsAreFrom(events: seq<Event>, log: seq<Event>)
    requires forall e :: e in events ==> e in log
    ensures IdsAreFrom(CallIds(events), log)
  {
    if events != [] {
      var front, last := events[..|events| - 1], events[|events| - 1];
      assert forall e :: e in front ==> e in events;
      CallIdsAreFrom(front, log);
      forall u | u in CallIds(events)
        ensures exists c :: c in log && c.kind == ToolCall && c.id == u && Tells(c.payload, "tool_id", CallIds(events)[u])
      {
        if !(u in CallIds(front) && CallIds(events)[u] == CallIds(front)[u]) {
          assert last in log && last.id == u && Tells(last.payload, "tool_id", CallIds(events)[u]);
        }
      }
    }
  }

  lemma {:induction false} FlushIsFrom(f: Buffers, log: seq<Event>)
    requires BuffersAreFrom(f, log)
    ensures BuffersAreFrom(FlushAssistant(f), log) && BuffersAreFrom(FlushAnswers(f), log) && BuffersAreFrom(Flush(f), log)
  {
    AssistantIsFrom(f, log);
    AnswersAreFrom(f, log);
    AnswersAreFrom(FlushAssistant(f), log);
  }

  lemma {:induction false} AssistantIsFrom(f: Buffers, log: seq<Event>)
    requires BuffersAreFrom(f, log)
    ensures BuffersAreFrom(FlushAssistant(f), log)
  {
    assert BlocksAreFrom(AssistantBlocks(f.text, f.uses), log);
    assert MessageIsFrom(Assistant(AssistantBlocks(f.text, f.uses)), log);
  }

  lemma {:induction false} AnswersAreFrom(f: Buffers, log: seq<Event>)
    requires BuffersAreFrom(f, log)
    ensures BuffersAreFrom(FlushAnswers(f), log)
  {
    assert MessageIsFrom(Tool(f.answers), log);
  }

  lemma {:induction false} SayIsFrom(f: Buffers, ms: seq<Message>, log: seq<Event>)
    requires BuffersAreFrom(f, log) && forall m :: m in ms ==> MessageIsFrom(m, log)
    ensures BuffersAreFrom(Say(f, ms), log)
  {
    FlushIsFrom(f, log);
  }

  lemma {:induction false} StepIsFrom(ids: map<Uuid, string>, f: Buffers, e: Event, log: seq<Event>)
    requires BuffersAreFrom(f, log) && IdsAreFrom(ids, log) && e in log
    ensures BuffersAreFrom(Step(ids, f, e), log)
  {
    FlushIsFrom(f, log);
    if IsSystemPrompt(e) {
      assert forall m :: m in PromptMessages(e) ==> m.System? && PromptShows([m], e.payload);
      SayIsFrom(f, PromptMessages(e), log);
    } else if IsUser(e) {
      assert forall m :: m in UserMessages(e) ==> m.User? && UserShows([m], e.payload);
      SayIsFrom(f, UserMessages(e), log);
    } else if IsCloser(e) {
      assert CloserText(e).Some? ==> CloserShows(CloserText(e).value, e.payload);
      assert Completes(e.payload);
    } else if IsCall(e) {
      UseBlockShows(e);
      assert BlockIsFrom(UseBlock(e), log);
    } else if IsResult(e) && AnsweredUse(ids, e).Some? {
      AnswerIsFrom(ids, e, log);
    }
  }

  lemma {:induction false} AnswerIsFrom(ids: map<Uuid, string>, e: Event, log: seq<Event>)
    requires IdsAreFrom(ids, log) && e in log && IsResult(e) && AnsweredUse(ids, e).Some?
    ensures BlockIsFrom(AnswerBlock(AnsweredUse(ids, e).value, e.payload), log)
  {
    var id := AnsweredUse(ids, e).value;
    var u := CallOf(e).value;
    var c :| c in log && c.kind == ToolCall && c.id == u && Tells(c.payload, "tool_id", ids[u]);
    AnswerBlockShows(id, e.payload);
    assert Answering(e, c, log, id);
  }

  lemma {:induction false} FoldIsFrom(ids: map<Uuid, string>, f: Buffers, events: seq<Event>, log: seq<Event>)
    requires BuffersAreFrom(f, log) && IdsAreFrom(ids, log) && forall e :: e in events ==> e in log
    ensures BuffersAreFrom(FoldFrom(ids, f, events), log)
    decreases |events|
  {
    if events != [] {
      assert events[0] in events && forall e :: e in events[1..] ==> e in events;
      StepIsFrom(ids, f, events[0], log);
      FoldIsFrom(ids, Step(ids, f, events[0]), events[1..], log);
    }
  }

  /** Whatever the log, complete or not: nothing the model is shown is made up.  Each prompt, user message, text, tool_use
      and tool_result says what an event of its kind in the log says, and a tool_result stands under the tool_use id of the call its event names. */
  lemma {:induction false} NothingIsInvented(log: seq<Event>)
    ensures forall m :: m in Context(log) ==> MessageIsFrom(m, log)
  {
    CallIdsAreFrom(log, log);
    FoldIsFrom(CallIds(log), EMPTY, log, log);
    FlushIsFrom(FoldFrom(CallIds(log), EMPTY, log), log);
  }
}
