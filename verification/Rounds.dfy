/** Conversations as the harness writes them, a declarative renderer for them, and the exact condition under which
    the one-pass fold of module Adapters renders the same messages. */
module Rounds {
  import opened Values
  import opened Events
  import opened Adapters

  /** One conversational step of a log, noise left aside. */
  datatype Item =
    | Prompt(e: Event)
    | Said(e: Event)
    | Turn(calls: seq<Event>, closer: Option<Event>, results: seq<Event>)

  predicate Answered(calls: seq<Event>, results: seq<Event>) {
    && |results| == |calls|
    && (forall i :: 0 <= i < |calls| ==> IsCall(calls[i]))
    && (forall i :: 0 <= i < |results| ==> IsResult(results[i]) && CallOf(results[i]) == Some(calls[i].id))
  }

  /** A turn that left something in the log: calls, then the closer, then one result a call, in call order. */
  predicate ItemOk(item: Item) {
    match item
    case Prompt(e) => IsSystemPrompt(e)
    case Said(e) => IsUser(e)
    case Turn(calls, closer, results) =>
      && Answered(calls, results)
      && (closer.Some? ==> IsCloser(closer.value) && CloserText(closer.value).Some?)
      && (calls != [] || closer.Some?)
  }

  predicate ItemsOk(items: seq<Item>) {
    forall i :: 0 <= i < |items| ==> ItemOk(items[i])
  }

  function ItemEvents(item: Item): seq<Event> {
    match item
    case Prompt(e) => [e]
    case Said(e) => [e]
    case Turn(calls, closer, results) => calls + Opt(closer) + results
  }

  function Flatten(items: seq<Item>): seq<Event> {
    if items == [] then [] else ItemEvents(items[0]) + Flatten(items[1..])
  }

  lemma {:induction false} FlattenConcat(a: seq<Item>, b: seq<Item>)
    ensures Flatten(a + b) == Flatten(a) + Flatten(b)
  {
    if a == [] {
      assert a + b == b;
    } else {
      assert (a + b)[1..] == a[1..] + b;
      FlattenConcat(a[1..], b);
      assert (ItemEvents(a[0]) + Flatten(a[1..])) + Flatten(b) == ItemEvents(a[0]) + (Flatten(a[1..]) + Flatten(b));
    }
  }

  // ---- The declarative renderer ---------------------------------------------

  function UseBlocks(calls: seq<Event>): seq<Block>
    requires forall i :: 0 <= i < |calls| ==> IsCall(calls[i])
  {
    if calls == [] then [] else [UseBlock(calls[0])] + UseBlocks(calls[1..])
  }

  function AnswerBlocks(calls: seq<Event>, results: seq<Event>): seq<Block>
    requires Answered(calls, results)
  {
    if calls == [] then []
    else [AnswerBlock(UseBlock(calls[0]).id, results[0].payload)] + AnswerBlocks(calls[1..], results[1..])
  }

  function SpokenText(closer: Option<Event>): string {
    if closer.Some? && CloserText(closer.value).Some? then CloserText(closer.value).value else ""
  }

  /** Prompts and user messages as they are; a turn as one assistant message, text before tool uses,
      followed by one tool message when it made calls. */
  function Render(item: Item): seq<Message>
    requires ItemOk(item)
  {
    match item
    case Prompt(e) => PromptMessages(e)
    case Said(e) => UserMessages(e)
    case Turn(calls, closer, results) =>
      var blocks := AssistantBlocks(SpokenText(closer), UseBlocks(calls));
      (if blocks == [] then [] else [Assistant(blocks)])
      + (if calls == [] then [] else [Tool(AnswerBlocks(calls, results))])
  }

  function RenderAll(items: seq<Item>): seq<Message>
    requires ItemsOk(items)
  {
    if items == [] then [] else Render(items[0]) + RenderAll(items[1..])
  }

  /** The item leaves visible text and no call: its assistant message is still pending when the next item starts. */
  predicate Trailing(item: Item) {
    item.Turn? && item.calls == [] && SpokenText(item.closer) != ""
  }

  /** How many turns start while the text of the previous turn is still pending. */
  function Clashes(pending: bool, items: seq<Item>): nat
    decreases |items|
  {
    if items == [] then 0
    else (if pending && items[0].Turn? then 1 else 0) + Clashes(Trailing(items[0]), items[1..])
  }

  /** Every turn that only speaks is the last one or is followed by the user or a prompt. */
  predicate SpeaksThenListens(items: seq<Item>) {
    forall i :: 0 <= i < |items| - 1 && Trailing(items[i]) ==> !items[i + 1].Turn?
  }

  lemma {:induction false} ClashesMeaning(pending: bool, items: seq<Item>)
    ensures Clashes(pending, items) == 0
            <==> SpeaksThenListens(items) && !(pending && items != [] && items[0].Turn?)
    decreases |items|
  {
    if items != [] {
      var rest := items[1..];
      ClashesMeaning(Trailing(items[0]), rest);
      if SpeaksThenListens(items) {
        forall i | 0 <= i < |rest| - 1 && Trailing(rest[i]) ensures !rest[i + 1].Turn? {
          assert Trailing(items[i + 1]);
        }
      }
      if SpeaksThenListens(rest) && !(Trailing(items[0]) && rest != [] && rest[0].Turn?) {
        forall i | 0 <= i < |items| - 1 && Trailing(items[i]) ensures !items[i + 1].Turn? {
          assert i > 0 ==> Trailing(rest[i - 1]);
        }
      }
    }
  }

  // ---- The fold over one item -------------------------------------------------

  /** `ids` resolves each of these calls to the tool_use id it was made with. */
  ghost predicate Resolves(ids: map<Uuid, string>, calls: seq<Event>) {
    forall i :: 0 <= i < |calls| && IsCall(calls[i]) ==> calls[i].id in ids && ids[calls[i].id] == UseBlock(calls[i]).id
  }

  lemma {:induction false} FoldCalls(ids: map<Uuid, string>, f: Buffers, calls: seq<Event>)
    requires calls != [] && forall i :: 0 <= i < |calls| ==> IsCall(calls[i])
    ensures var g := if f.answers != [] then Flush(f) else f;
            FoldFrom(ids, f, calls) == g.(uses := g.uses + UseBlocks(calls))
    decreases |calls|
  {
    var g := if f.answers != [] then Flush(f) else f;
    var h := Step(ids, f, calls[0]);
    assert UseBlocks(calls) == [UseBlock(calls[0])] + UseBlocks(calls[1..]);
    if |calls| == 1 {
      assert calls[1..] == [];
    } else {
      FoldCalls(ids, h, calls[1..]);
      assert g.uses + [UseBlock(calls[0])] + UseBlocks(calls[1..]) == g.uses + UseBlocks(calls);
    }
  }

  lemma {:induction false} FoldResult(ids: map<Uuid, string>, f: Buffers, call: Event, result: Event)
    requires IsCall(call) && call.id in ids && ids[call.id] == UseBlock(call).id
    requires IsResult(result) && CallOf(result) == Some(call.id)
    ensures var g := FlushAssistant(f);
            Step(ids, f, result) == g.(answers := g.answers + [AnswerBlock(UseBlock(call).id, result.payload)])
    ensures FlushAssistant(Step(ids, f, result)) == Step(ids, f, result)
  {
  }

  lemma {:induction false} FoldResults(ids: map<Uuid, string>, f: Buffers, calls: seq<Event>, results: seq<Event>)
    requires calls != [] && Answered(calls, results) && Resolves(ids, calls)
    ensures var g := FlushAssistant(f);
            FoldFrom(ids, f, results) == g.(answers := g.answers + AnswerBlocks(calls, results))
    decreases |calls|
  {
    var g, h := FlushAssistant(f), Step(ids, f, results[0]);
    assert IsCall(calls[0]) && IsResult(results[0]);
    FoldResult(ids, f, calls[0], results[0]);
    var first, rest := [AnswerBlock(UseBlock(calls[0]).id, results[0].payload)], AnswerBlocks(calls[1..], results[1..]);
    assert AnswerBlocks(calls, results) == first + rest;
    if |calls| == 1 {
      assert results[1..] == [];
    } else {
      FoldResults(ids, h, calls[1..], results[1..]);
      assert (g.answers + first) + rest == g.answers + (first + rest);
    }
  }

  /** The buffers between two items: no pending tool use, and never both text and answers pending. */
  predicate Between(f: Buffers) {
    f.uses == [] && (f.answers == [] || f.text == "")
  }

  lemma {:induction false} FoldTurn(ids: map<Uuid, string>, f: Buffers, item: Item)
    requires Between(f) && item.Turn? && ItemOk(item) && Resolves(ids, item.calls)
    ensures var g := FlushAnswers(f);
            var text := if item.closer.Some? then SpokenText(item.closer) else f.text;
            FoldFrom(ids, f, ItemEvents(item)) ==
            if item.calls == [] then g.(text := text)
            else Buffers(g.messages + [Assistant(AssistantBlocks(text, UseBlocks(item.calls)))],
                         "", [], AnswerBlocks(item.calls, item.results))
  {
    var Turn(calls, closer, results) := item;
    var f1 := FoldFrom(ids, f, calls);
    var f2 := FoldFrom(ids, f1, Opt(closer));
    FoldConcat(ids, f, calls + Opt(closer), results);
    FoldConcat(ids, f, calls, Opt(closer));
    if calls != [] {
      FoldCalls(ids, f, calls);
      var g := FlushAnswers(f);
      assert f1 == g.(uses := UseBlocks(calls));
      FoldResults(ids, f2, calls, results);
      assert [] + AnswerBlocks(calls, results) == AnswerBlocks(calls, results);
    }
  }

  /** From `before` to `after`, `rendered` was appended, or some messages of it are missing. */
  ghost predicate Appends(before: seq<Message>, after: seq<Message>, rendered: seq<Message>, missing: nat) {
    && |after| + missing == |before| + |rendered|
    && (missing == 0 ==> after == before + rendered)
  }

  lemma {:induction false} FoldSaid(ids: map<Uuid, string>, f: Buffers, item: Item)
    requires !item.Turn? && ItemOk(item)
    ensures FoldFrom(ids, f, ItemEvents(item)) == Buffers(Flush(f).messages + Render(item), "", [], [])
  {
    assert ItemEvents(item)[1..] == [];
  }

  /** What a turn leaves once everything pending is flushed. */
  lemma {:induction false} FoldTurnAppends(ids: map<Uuid, string>, f: Buffers, item: Item, g: Buffers)
    requires Between(f) && item.Turn? && ItemOk(item) && Resolves(ids, item.calls)
    requires g == FoldFrom(ids, f, ItemEvents(item))
    ensures Between(g) && (g.text != "" <==> Trailing(item))
    ensures Appends(Flush(f).messages, Flush(g).messages, Render(item), if f.text != "" then 1 else 0)
  {
    FoldTurn(ids, f, item);
    if item.calls == [] {
      assert UseBlocks(item.calls) == [];
    } else {
      assert |AnswerBlocks(item.calls, item.results)| > 0;
    }
  }

  lemma {:induction false} FoldItem(ids: map<Uuid, string>, f: Buffers, item: Item) returns (g: Buffers)
    requires Between(f) && ItemOk(item) && (item.Turn? ==> Resolves(ids, item.calls))
    ensures g == FoldFrom(ids, f, ItemEvents(item)) && Between(g) && (g.text != "" <==> Trailing(item))
    ensures Appends(Flush(f).messages, Flush(g).messages, Render(item), if f.text != "" && item.Turn? then 1 else 0)
  {
    g := FoldFrom(ids, f, ItemEvents(item));
    if item.Turn? {
      FoldTurnAppends(ids, f, item, g);
    } else {
      FoldSaid(ids, f, item);
    }
  }

  lemma {:induction false} FoldItems(ids: map<Uuid, string>, f: Buffers, items: seq<Item>)
    requires Between(f) && ItemsOk(items)
    requires forall i :: 0 <= i < |items| && items[i].Turn? ==> Resolves(ids, items[i].calls)
    ensures Appends(Flush(f).messages, Flush(FoldFrom(ids, f, Flatten(items))).messages,
                    RenderAll(items), Clashes(f.text != "", items))
    decreases |items|
  {
    if items != [] {
      var g := FoldItem(ids, f, items[0]);
      FoldConcat(ids, f, ItemEvents(items[0]), Flatten(items[1..]));
      FoldItems(ids, g, items[1..]);
      var end := FoldFrom(ids, g, Flatten(items[1..]));
      AppendsTwice(Flush(f).messages, Flush(g).messages, Flush(end).messages, Render(items[0]), RenderAll(items[1..]),
                   if f.text != "" && items[0].Turn? then 1 else 0, Clashes(g.text != "", items[1..]));
    }
  }

  lemma {:induction false} AppendsTwice(a: seq<Message>, b: seq<Message>, c: seq<Message>, r: seq<Message>,
                                        s: seq<Message>, missingR: nat, missingS: nat)
    requires Appends(a, b, r, missingR) && Appends(b, c, s, missingS)
    ensures Appends(a, c, r + s, missingR + missingS)
  {
  }

  // ---- Resolving ids in a whole log -----------------------------------------

  lemma {:induction false} CallIdsLookup(events: seq<Event>, k: nat)
    requires UniqueIds(events) && k < |events| && IsCall(events[k])
    ensures events[k].id in CallIds(events) && CallIds(events)[events[k].id] == UseBlock(events[k]).id
  {
    var n := |events| - 1;
    if k < n {
      CallIdsLookup(events[..n], k);
    }
  }

  lemma {:induction false} FlattenHolds(items: seq<Item>, i: nat, e: Event)
    requires i < |items| && e in ItemEvents(items[i])
    ensures e in Flatten(items)
  {
    if i > 0 {
      FlattenHolds(items[1..], i - 1, e);
    }
  }

  lemma {:induction false} FlattenResolves(items: seq<Item>, events: seq<Event>)
    requires ItemsOk(items) && UniqueIds(events) && Flatten(items) == events
    ensures forall i :: 0 <= i < |items| && items[i].Turn? ==> Resolves(CallIds(events), items[i].calls)
  {
    forall i, j | 0 <= i < |items| && items[i].Turn? && 0 <= j < |items[i].calls|
      ensures var e := items[i].calls[j];
              e.id in CallIds(events) && CallIds(events)[e.id] == UseBlock(e).id
    {
      var e := items[i].calls[j];
      FlattenHolds(items, i, e);
      var k :| 0 <= k < |events| && events[k] == e;
      CallIdsLookup(events, k);
    }
  }

  lemma {:induction false} EraseNoiseIn(log: seq<Event>, e: Event)
    ensures e in EraseNoise(log) <==> e in log && !IsNoise(e)
  {
    if log != [] {
      EraseNoiseIn(log[1..], e);
      assert log == [log[0]] + log[1..];
    }
  }

  lemma {:induction false} EraseNoiseUnique(log: seq<Event>)
    requires UniqueIds(log)
    ensures UniqueIds(EraseNoise(log))
  {
    if log != [] {
      EraseNoiseUnique(log[1..]);
      forall e | e in EraseNoise(log[1..]) ensures e.id != log[0].id {
        EraseNoiseIn(log[1..], e);
        var k :| 0 <= k < |log[1..]| && log[1..][k] == e;
        assert log[k + 1] == e;
      }
    }
  }

  // ---- Main results -----------------------------------------------------------

  /** The log is a conversation in which every call has its result, with noise anywhere. */
  ghost predicate Records(log: seq<Event>, items: seq<Item>) {
    UniqueIds(log) && ItemsOk(items) && EraseNoise(log) == Flatten(items)
  }

  /** The fold never renders more messages than the renderer: each clash costs exactly one message. */
  lemma {:induction false} ContextLength(log: seq<Event>, items: seq<Item>)
    requires Records(log, items)
    ensures |Context(log)| + Clashes(false, items) == |RenderAll(items)|
    ensures Clashes(false, items) == 0 ==> Context(log) == RenderAll(items)
  {
    ContextIgnoresNoise(log);
    EraseNoiseUnique(log);
    FlattenResolves(items, EraseNoise(log));
    FoldItems(CallIds(EraseNoise(log)), EMPTY, items);
  }

  /** `build_context(flatten(rounds)) == concat(render(round))`, exactly when no turn that only speaks
      is directly followed by another turn. */
  lemma {:induction false} ContextIsRender(log: seq<Event>, items: seq<Item>)
    requires Records(log, items)
    ensures Context(log) == RenderAll(items) <==> SpeaksThenListens(items)
  {
    ContextLength(log, items);
    ClashesMeaning(false, items);
  }

  /** Two closers in a row: the text of the first is in no message. */
  lemma {:induction false} SpokenTwice(u: Event, first: Event, second: Event)
    requires u == Event(Random(0), 1, UserMessage, map["content" := Str("hi")])
    requires first == Event(Random(1), 2, AssistantMessage, map["content" := Str("a"), "is_complete" := Bool(true)])
    requires second == Event(Random(2), 3, AssistantMessage, map["content" := Str("b"), "is_complete" := Bool(true)])
    ensures Context([u, first, second]) == [User("hi"), Assistant([Text("b")])]
  {
    var ids := CallIds([u, first, second]);
    assert [u, first, second] == [u] + [first] + [second];
    FoldConcat(ids, EMPTY, [u] + [first], [second]);
    FoldConcat(ids, EMPTY, [u], [first]);
    assert AssistantBlocks("b", []) == [Text("b")];
  }

  lemma {:induction false} TurnIds(calls: seq<Event>, results: seq<Event>)
    requires Answered(calls, results)
    ensures UseIds(UseBlocks(calls)) == AnswerIds(AnswerBlocks(calls, results))
    ensures |UseIds(UseBlocks(calls))| == |calls| == |UseBlocks(calls)|
  {
    if calls != [] {
      TurnIds(calls[1..], results[1..]);
    }
  }

  lemma {:induction false} PairedConcat(a: seq<Message>, b: seq<Message>)
    requires Paired(a) && Paired(b)
    ensures Paired(a + b)
  {
    var c := a + b;
    forall i | 0 <= i < |c| ensures PairedAt(c, i) {
      if i < |a| {
        assert PairedAt(a, i);
        if i == |a| - 1 && b != [] { assert PairedAt(b, 0); }
      } else {
        assert PairedAt(b, i - |a|);
        if i == |a| && a != [] { assert PairedAt(a, |a| - 1); }
      }
    }
  }

  lemma {:induction false} AssistantAsks(text: string, calls: seq<Event>)
    requires forall i :: 0 <= i < |calls| ==> IsCall(calls[i])
    ensures UseIds(AssistantBlocks(text, UseBlocks(calls))) == UseIds(UseBlocks(calls))
  {
    UseIdsConcat(if text != "" then [Text(text)] else [], UseBlocks(calls));
  }

  lemma {:induction false} RenderPaired(item: Item)
    requires ItemOk(item)
    ensures Paired(Render(item))
  {
    if item.Turn? {
      var Turn(calls, closer, results) := item;
      TurnIds(calls, results);
      AssistantAsks(SpokenText(closer), calls);
    }
  }

  lemma {:induction false} RenderAllPaired(items: seq<Item>)
    requires ItemsOk(items)
    ensures Paired(RenderAll(items))
  {
    if items != [] {
      RenderPaired(items[0]);
      RenderAllPaired(items[1..]);
      PairedConcat(Render(items[0]), RenderAll(items[1..]));
    }
  }
}
