/** When a view that leaves events out of a complete conversation still folds into validly paired messages. */
module Pairing {
  import opened Values
  import opened Events
  import opened Adapters
  import opened Rounds

  // ---- Complete conversations, read one event at a time ------------------------

  /** Calls of the current turn still to be answered, and whether one of its results has been seen. */
  datatype Phase = Phase(open: seq<Event>, answering: bool)

  const START := Phase([], false)

  /** The phase after `e`, or None when `e` does not belong there. */
  function Next(g: Phase, e: Event): Option<Phase> {
    if IsNoise(e) then Some(g)
    else if IsSystemPrompt(e) || IsUser(e) then (if g.open == [] then Some(START) else None)
    else if IsCloser(e) then
      if !g.answering then Some(g) else if g.open == [] then Some(START) else None
    else if IsCall(e) then
      if !g.answering then Some(Phase(g.open + [e], false)) else if g.open == [] then Some(Phase([e], false)) else None
    else if IsResult(e) && g.open != [] && CallOf(e) == Some(g.open[0].id) then Some(Phase(g.open[1..], true))
    else None
  }

  function Parse(g: Phase, log: seq<Event>): Option<Phase>
    decreases |log|
  {
    if log == [] then Some(g)
    else match Next(g, log[0])
      case Some(h) => Parse(h, log[1..])
      case None => None
  }

  /** Every call is followed by its result, in call order, before anyone else speaks. */
  ghost predicate RoundComplete(log: seq<Event>) {
    UniqueIds(log) && Parse(START, log).Some? && Parse(START, log).value.open == []
  }

  // ---- Views --------------------------------------------------------------------

  predicate Kept(e: Event, dropped: set<int>) {
    e.sequence !in dropped
  }

  /** The log without the events whose sequence is dropped. */
  function View(log: seq<Event>, dropped: set<int>): seq<Event> {
    if log == [] then []
    else (if Kept(log[0], dropped) then [log[0]] else []) + View(log[1..], dropped)
  }

  /** No call stays in the view while its result is dropped from it. */
  ghost predicate NoCallOutlivesItsResult(log: seq<Event>, dropped: set<int>) {
    forall c, r | c in log && r in log && IsCall(c) && IsResult(r) && CallOf(r) == Some(c.id) ::
      Kept(c, dropped) ==> Kept(r, dropped)
  }

  lemma {:induction false} ViewHolds(log: seq<Event>, dropped: set<int>, e: Event)
    ensures e in View(log, dropped) <==> e in log && Kept(e, dropped)
  {
    if log != [] {
      ViewHolds(log[1..], dropped, e);
      assert log == [log[0]] + log[1..];
    }
  }

  lemma {:induction false} ViewUnique(log: seq<Event>, dropped: set<int>)
    requires UniqueIds(log)
    ensures UniqueIds(View(log, dropped))
  {
    if log != [] {
      var rest := log[1..];
      ViewUnique(rest, dropped);
      forall e | e in View(rest, dropped) ensures e.id != log[0].id {
        ViewHolds(rest, dropped, e);
        var k :| 0 <= k < |rest| && rest[k] == e;
        assert log[k + 1] == e;
      }
    }
  }

  lemma {:induction false} ViewConcat(a: seq<Event>, b: seq<Event>, dropped: set<int>)
    ensures View(a + b, dropped) == View(a, dropped) + View(b, dropped)
  {
    if a == [] {
      assert a + b == b;
    } else {
      assert (a + b)[1..] == a[1..] + b;
      ViewConcat(a[1..], b, dropped);
      var head := if Kept(a[0], dropped) then [a[0]] else [];
      var x, y := View(a[1..], dropped), View(b, dropped);
      assert (head + x) + y == head + (x + y);
    }
  }

  // ---- Which calls a view resolves ------------------------------------------------

  lemma {:induction false} CallIdsDomain(events: seq<Event>, id: Uuid)
    ensures id in CallIds(events) ==> exists e :: e in events && e.kind == ToolCall && e.id == id
  {
    if events != [] {
      var n := |events| - 1;
      CallIdsDomain(events[..n], id);
      if id in CallIds(events) {
        if id in CallIds(events[..n]) {
          var e :| e in events[..n] && e.kind == ToolCall && e.id == id;
          assert e in events;
        } else {
          assert events[n] in events && events[n].id == id;
        }
      }
    }
  }

  /** `ids` knows exactly the kept calls, each by the tool_use id it was made with. */
  ghost predicate KnowsKept(ids: map<Uuid, string>, dropped: set<int>, calls: seq<Event>) {
    forall c :: c in calls && IsCall(c) ==>
      && (c.id in ids <==> Kept(c, dropped))
      && (Kept(c, dropped) ==> ids[c.id] == UseBlock(c).id)
  }

  lemma {:induction false} ViewKnowsKept(log: seq<Event>, dropped: set<int>)
    requires UniqueIds(log)
    ensures KnowsKept(CallIds(View(log, dropped)), dropped, log)
  {
    var view := View(log, dropped);
    var ids := CallIds(view);
    ViewUnique(log, dropped);
    forall c | c in log && IsCall(c)
      ensures (c.id in ids <==> Kept(c, dropped)) && (Kept(c, dropped) ==> ids[c.id] == UseBlock(c).id)
    {
      ViewHolds(log, dropped, c);
      if Kept(c, dropped) {
        var k :| 0 <= k < |view| && view[k] == c;
        CallIdsLookup(view, k);
      }
      if c.id in ids {
        CallIdsDomain(view, c.id);
        var e :| e in view && e.id == c.id;
        ViewHolds(log, dropped, e);
        assert e == c;
      }
    }
  }

  // ---- Calls that lost their result -------------------------------------------------

  /** Results in `rest` that are dropped although their call is kept. */
  function Lost(g: Phase, rest: seq<Event>, dropped: set<int>): nat
    requires Parse(g, rest).Some?
    decreases |rest|
  {
    if rest == [] then 0
    else (if IsResult(rest[0]) && Kept(g.open[0], dropped) && !Kept(rest[0], dropped) then 1 else 0)
         + Lost(Next(g, rest[0]).value, rest[1..], dropped)
  }

  lemma {:induction false} LostMeaning(log: seq<Event>, g: Phase, rest: seq<Event>, dropped: set<int>)
    requires UniqueIds(log) && Parse(g, rest).Some?
    requires forall e :: e in g.open ==> e in log && IsCall(e)
    requires forall e :: e in rest ==> e in log
    ensures Lost(g, rest, dropped) == 0 <==>
            forall c, r | c in log && r in rest && IsCall(c) && IsResult(r) && CallOf(r) == Some(c.id) ::
              Kept(c, dropped) ==> Kept(r, dropped)
    decreases |rest|
  {
    if rest != [] {
      var e, h := rest[0], Next(g, rest[0]).value;
      assert rest == [e] + rest[1..];
      LostMeaning(log, h, rest[1..], dropped);
      if IsResult(e) {
        assert g.open[0] in log;
        assert forall c :: c in log && CallOf(e) == Some(c.id) ==> c == g.open[0];
      }
    }
  }

  // ---- Sufficiency: the fold keeps what is owed ----------------------------------------

  function LastAsks(ms: seq<Message>): seq<string> {
    if ms == [] then [] else Asks(ms[|ms| - 1])
  }

  /** Paired, except that what the last message asks may still be unanswered. */
  predicate PairedSoFar(ms: seq<Message>) {
    ms == [] || (var n := |ms| - 1; PairedSoFar(ms[..n]) && Answers(ms[n]) == LastAsks(ms[..n]))
  }

  lemma {:induction false} PushPaired(ms: seq<Message>, m: Message)
    requires PairedSoFar(ms) && Answers(m) == LastAsks(ms)
    ensures PairedSoFar(ms + [m]) && LastAsks(ms + [m]) == Asks(m)
  {
    assert (ms + [m])[..|ms|] == ms;
  }

  lemma {:induction false} PairedSoFarAt(ms: seq<Message>, i: nat)
    requires PairedSoFar(ms) && i < |ms|
    ensures Answers(ms[i]) == LastAsks(ms[..i])
  {
    var n := |ms| - 1;
    if i < n {
      var front := ms[..n];
      PairedSoFarAt(front, i);
      assert front[i] == ms[i] && front[..i] == ms[..i];
    } else {
      assert ms[..i] == ms[..n];
    }
  }

  lemma {:induction false} PairedPrefix(ms: seq<Message>, k: nat)
    requires Paired(ms) && k <= |ms|
    ensures PairedSoFar(ms[..k])
  {
    if k > 0 {
      PairedPrefix(ms, k - 1);
      assert ms[..k][..k - 1] == ms[..k - 1];
      assert PairedAt(ms, k - 1);
    }
  }

  /** Nothing is left unanswered: the two forms of the rule agree. */
  lemma {:induction false} NothingAsked(ms: seq<Message>)
    ensures Paired(ms) <==> PairedSoFar(ms) && LastAsks(ms) == []
  {
    if PairedSoFar(ms) && LastAsks(ms) == [] {
      forall i | 0 <= i < |ms| ensures PairedAt(ms, i) {
        PairedSoFarAt(ms, i);
        if i + 1 < |ms| { PairedSoFarAt(ms, i + 1); }
      }
    }
    if Paired(ms) {
      PairedPrefix(ms, |ms|);
      assert ms[..|ms|] == ms;
      if ms != [] { assert PairedAt(ms, |ms| - 1); }
    }
  }

  /** tool_use ids of the kept calls among `open`. */
  function Owed(open: seq<Event>, dropped: set<int>): seq<string>
    requires forall e :: e in open ==> IsCall(e)
  {
    if open == [] then []
    else (if Kept(open[0], dropped) then [UseBlock(open[0]).id] else []) + Owed(open[1..], dropped)
  }

  lemma {:induction false} OwedConcat(a: seq<Event>, b: seq<Event>, dropped: set<int>)
    requires forall e :: e in a + b ==> IsCall(e)
    ensures (forall e :: e in a ==> IsCall(e)) && (forall e :: e in b ==> IsCall(e))
    ensures Owed(a + b, dropped) == Owed(a, dropped) + Owed(b, dropped)
  {
    assert forall e :: e in a ==> e in a + b;
    assert forall e :: e in b ==> e in a + b;
    if a == [] {
      assert a + b == b;
    } else {
      assert (a + b)[1..] == a[1..] + b;
      OwedConcat(a[1..], b, dropped);
    }
  }

  /** Pending buffers hold blocks of their own kind only. */
  predicate Typed(f: Buffers) {
    |UseIds(f.uses)| == |f.uses| && |AnswerIds(f.answers)| == |f.answers|
  }

  /** What has been asked and is pending equals what is being answered and is owed. */
  predicate Balanced(f: Buffers, owed: seq<string>, answering: bool) {
    var asked := LastAsks(f.messages);
    && Typed(f) && PairedSoFar(f.messages)
    && (asked != [] ==> f.uses == [] && f.text == "")
    && (asked == [] ==> f.answers == [])
    && (if asked != [] then asked == AnswerIds(f.answers) + owed else UseIds(f.uses) == owed)
    && (!answering && asked != [] ==> owed == [])
  }

  lemma {:induction false} FlushAssistantBalanced(f: Buffers, owed: seq<string>, answering: bool)
    requires Balanced(f, owed, answering)
    ensures var g := FlushAssistant(f);
            && Balanced(g, owed, true) && g.uses == [] && g.text == ""
            && LastAsks(g.messages) == AnswerIds(g.answers) + owed
  {
    if f.text != "" || f.uses != [] {
      var m := Assistant(AssistantBlocks(f.text, f.uses));
      UseIdsConcat(if f.text != "" then [Text(f.text)] else [], f.uses);
      PushPaired(f.messages, m);
    }
  }

  lemma {:induction false} FlushAnswersBalanced(f: Buffers, answering: bool)
    requires Balanced(f, [], answering)
    ensures var g := FlushAnswers(f);
            Balanced(g, [], false) && LastAsks(g.messages) == [] && g.answers == [] && g.uses == []
  {
    assert AnswerIds(f.answers) + [] == AnswerIds(f.answers);
    if f.answers != [] {
      PushPaired(f.messages, Tool(f.answers));
    }
  }

  /** At most one message, from the user or the system. */
  predicate Saying(said: seq<Message>) {
    said == [] || (|said| == 1 && (said[0].System? || said[0].User?))
  }

  lemma {:induction false} SayBalanced(f: Buffers, answering: bool, said: seq<Message>)
    requires Balanced(f, [], answering) && Saying(said)
    ensures Balanced(Say(f, said), [], false)
  {
    FlushAssistantBalanced(f, [], answering);
    FlushAnswersBalanced(FlushAssistant(f), true);
    var g := Flush(f);
    if said == [] {
      assert g.messages + said == g.messages;
    } else {
      assert said == [said[0]];
      PushPaired(g.messages, said[0]);
    }
  }

  lemma {:induction false} CallBalanced(f: Buffers, owed: seq<string>, answering: bool, e: Event)
    requires IsCall(e) && Balanced(f, owed, answering) && (answering ==> owed == [])
    ensures var g := if f.answers != [] then Flush(f) else f;
            Balanced(g.(uses := g.uses + [UseBlock(e)]), owed + [UseBlock(e).id], false)
  {
    if f.answers != [] {
      FlushAssistantBalanced(f, [], answering);
      FlushAnswersBalanced(FlushAssistant(f), true);
    }
    var g := if f.answers != [] then Flush(f) else f;
    UseIdsConcat(g.uses, [UseBlock(e)]);
  }

  lemma {:induction false} MoveFirst(a: seq<string>, x: string, b: seq<string>)
    ensures a + ([x] + b) == (a + [x]) + b
  {
  }

  /** One of the answers owed is given. */
  lemma {:induction false} PayOne(g: Buffers, owed: seq<string>, answer: Block)
    requires answer.ToolAnswer? && g.uses == [] && g.text == "" && Typed(g) && PairedSoFar(g.messages)
    requires LastAsks(g.messages) == AnswerIds(g.answers) + ([answer.toolUseId] + owed)
    ensures Balanced(g.(answers := g.answers + [answer]), owed, true)
  {
    AnswerIdsConcat(g.answers, [answer]);
    assert AnswerIds([answer]) == [answer.toolUseId];
    MoveFirst(AnswerIds(g.answers), answer.toolUseId, owed);
  }

  lemma {:induction false} AnswerBalanced(f: Buffers, use: string, owed: seq<string>, answering: bool, e: Event)
    requires Balanced(f, [use] + owed, answering)
    ensures var g := FlushAssistant(f);
            Balanced(g.(answers := g.answers + [AnswerBlock(use, e.payload)]), owed, true)
  {
    FlushAssistantBalanced(f, [use] + owed, answering);
    PayOne(FlushAssistant(f), owed, AnswerBlock(use, e.payload));
  }

  /** One event of the log, folded if kept and skipped if dropped. */
  function StepView(ids: map<Uuid, string>, f: Buffers, e: Event, dropped: set<int>): Buffers {
    if Kept(e, dropped) then Step(ids, f, e) else f
  }

  lemma {:induction false} FoldView(ids: map<Uuid, string>, f: Buffers, rest: seq<Event>, dropped: set<int>)
    requires rest != []
    ensures FoldFrom(ids, f, View(rest, dropped))
         == FoldFrom(ids, StepView(ids, f, rest[0], dropped), View(rest[1..], dropped))
  {
    if Kept(rest[0], dropped) {
      assert View(rest, dropped)[1..] == View(rest[1..], dropped);
    } else {
      assert View(rest, dropped) == View(rest[1..], dropped);
    }
  }

  lemma {:induction false} CloserBalanced(f: Buffers, owed: seq<string>, answering: bool, e: Event)
    requires IsCloser(e) && Balanced(f, owed, answering) && (answering ==> owed == [])
    ensures var g := FlushAnswers(f);
            && Balanced(g, owed, false)
            && (CloserText(e).Some? ==> Balanced(g.(text := CloserText(e).value), owed, false))
  {
    if owed == [] {
      FlushAnswersBalanced(f, answering);
    }
  }

  lemma {:induction false} ResultStep(ids: map<Uuid, string>, f: Buffers, g: Phase, e: Event, dropped: set<int>)
    requires IsResult(e) && Next(g, e).Some? && (forall c :: c in g.open ==> IsCall(c))
    requires KnowsKept(ids, dropped, g.open)
    ensures Step(ids, f, e) ==
            var h := FlushAssistant(f);
            if Kept(g.open[0], dropped) then h.(answers := h.answers + [AnswerBlock(UseBlock(g.open[0]).id, e.payload)]) else h
  {
    assert g.open[0] in g.open;
  }

  lemma {:induction false} ResultBalanced(ids: map<Uuid, string>, f: Buffers, g: Phase, e: Event, dropped: set<int>)
    requires IsResult(e) && Next(g, e).Some? && (forall c :: c in g.open ==> IsCall(c))
    requires KnowsKept(ids, dropped, g.open)
    requires Kept(g.open[0], dropped) ==> Kept(e, dropped)
    requires Balanced(f, Owed(g.open, dropped), g.answering)
    ensures Balanced(StepView(ids, f, e, dropped), Owed(g.open[1..], dropped), true)
  {
    var call, rest := g.open[0], Owed(g.open[1..], dropped);
    ResultStep(ids, f, g, e, dropped);
    if Kept(call, dropped) {
      assert Owed(g.open, dropped) == [UseBlock(call).id] + rest;
      AnswerBalanced(f, UseBlock(call).id, rest, g.answering, e);
    } else {
      assert Owed(g.open, dropped) == rest;
      FlushAssistantBalanced(f, rest, g.answering);
    }
  }

  lemma {:induction false} SpokenBalanced(ids: map<Uuid, string>, f: Buffers, owed: seq<string>, answering: bool,
                                          e: Event)
    requires IsSystemPrompt(e) || IsUser(e) || IsCloser(e) || IsCall(e)
    requires IsSystemPrompt(e) || IsUser(e) || answering ==> owed == []
    requires Balanced(f, owed, answering)
    ensures Balanced(Step(ids, f, e), if IsCall(e) then owed + [UseBlock(e).id] else owed, false)
  {
    var g := Step(ids, f, e);
    if IsSystemPrompt(e) {
      SayBalanced(f, answering, PromptMessages(e));
    } else if IsUser(e) {
      SayBalanced(f, answering, UserMessages(e));
    } else if IsCloser(e) {
      CloserBalanced(f, owed, answering, e);
    } else {
      CallBalanced(f, owed, answering, e);
    }
  }

  lemma {:induction false} NextSpoken(g: Phase, e: Event, dropped: set<int>)
    requires Next(g, e).Some? && !IsNoise(e) && !IsResult(e) && (forall c :: c in g.open ==> IsCall(c))
    ensures IsSystemPrompt(e) || IsUser(e) || IsCloser(e) || IsCall(e)
    ensures var h := Next(g, e).value;
            var owed := Owed(g.open, dropped);
            && !h.answering && (forall c :: c in h.open ==> IsCall(c))
            && (IsSystemPrompt(e) || IsUser(e) || g.answering ==> owed == [])
            && Owed(h.open, dropped) == if IsCall(e) && Kept(e, dropped) then owed + [UseBlock(e).id] else owed
  {
    if IsCall(e) {
      OwedConcat(if g.answering then [] else g.open, [e], dropped);
    }
  }

  lemma {:induction false} StepBalanced(ids: map<Uuid, string>, f: Buffers, g: Phase, e: Event, dropped: set<int>)
    requires Next(g, e).Some? && (forall c :: c in g.open ==> IsCall(c))
    requires KnowsKept(ids, dropped, g.open)
    requires IsResult(e) && Kept(g.open[0], dropped) ==> Kept(e, dropped)
    requires Balanced(f, Owed(g.open, dropped), g.answering)
    ensures var h := Next(g, e).value;
            && (forall c :: c in h.open ==> IsCall(c))
            && Balanced(StepView(ids, f, e, dropped), Owed(h.open, dropped), h.answering)
  {
    if IsNoise(e) {
      assert StepView(ids, f, e, dropped) == f;
    } else if IsResult(e) {
      assert Next(g, e) == Some(Phase(g.open[1..], true));
      ResultBalanced(ids, f, g, e, dropped);
    } else {
      NextSpoken(g, e, dropped);
      if Kept(e, dropped) {
        SpokenBalanced(ids, f, Owed(g.open, dropped), g.answering, e);
      }
    }
  }

  lemma {:induction false} FoldBalanced(ids: map<Uuid, string>, f: Buffers, g: Phase, rest: seq<Event>,
                                        dropped: set<int>)
    returns (end: Buffers, h: Phase)
    requires Parse(g, rest).Some? && (forall c :: c in g.open ==> IsCall(c))
    requires KnowsKept(ids, dropped, g.open) && KnowsKept(ids, dropped, rest)
    requires Lost(g, rest, dropped) == 0
    requires Balanced(f, Owed(g.open, dropped), g.answering)
    ensures end == FoldFrom(ids, f, View(rest, dropped)) && Parse(g, rest) == Some(h)
    ensures (forall c :: c in h.open ==> IsCall(c)) && Balanced(end, Owed(h.open, dropped), h.answering)
    decreases |rest|
  {
    if rest == [] {
      end, h := f, g;
    } else {
      var e := rest[0];
      assert e in rest && forall x :: x in rest[1..] ==> x in rest;
      StepBalanced(ids, f, g, e, dropped);
      FoldView(ids, f, rest, dropped);
      var next := Next(g, e).value;
      OpenKnown(ids, dropped, g, e);
      end, h := FoldBalanced(ids, StepView(ids, f, e, dropped), next, rest[1..], dropped);
    }
  }

  lemma {:induction false} OpenKnown(ids: map<Uuid, string>, dropped: set<int>, g: Phase, e: Event)
    requires Next(g, e).Some? && KnowsKept(ids, dropped, g.open) && KnowsKept(ids, dropped, [e])
    ensures KnowsKept(ids, dropped, Next(g, e).value.open)
  {
    assert e in [e];
  }

  lemma {:induction false} KeptResultsArePaired(log: seq<Event>, dropped: set<int>)
    requires RoundComplete(log) && Lost(START, log, dropped) == 0
    ensures Paired(Context(View(log, dropped)))
  {
    var ids := CallIds(View(log, dropped));
    ViewKnowsKept(log, dropped);
    var f, g := FoldBalanced(ids, EMPTY, START, log, dropped);
    FlushAssistantBalanced(f, [], g.answering);
    FlushAnswersBalanced(FlushAssistant(f), true);
    NothingAsked(Flush(f).messages);
  }

  // ---- Necessity: counting blocks --------------------------------------------------------

  function Asked(ms: seq<Message>): nat {
    if ms == [] then 0 else Asked(ms[..|ms| - 1]) + |Asks(ms[|ms| - 1])|
  }

  function AnsweredIn(ms: seq<Message>): nat {
    if ms == [] then 0 else AnsweredIn(ms[..|ms| - 1]) + |Answers(ms[|ms| - 1])|
  }

  lemma {:induction false} PairedSoFarCounts(ms: seq<Message>)
    requires PairedSoFar(ms)
    ensures Asked(ms) == AnsweredIn(ms) + |LastAsks(ms)|
  {
    if ms != [] {
      var n := |ms| - 1;
      PairedSoFarCounts(ms[..n]);
    }
  }

  lemma {:induction false} PairedCounts(ms: seq<Message>)
    requires Paired(ms)
    ensures Asked(ms) == AnsweredIn(ms)
  {
    NothingAsked(ms);
    PairedSoFarCounts(ms);
  }

  /** tool_use blocks so far minus tool_result blocks so far, pending ones included. */
  function Surplus(f: Buffers): int {
    Asked(f.messages) + |UseIds(f.uses)| - AnsweredIn(f.messages) - |AnswerIds(f.answers)|
  }

  lemma {:induction false} PushCounts(ms: seq<Message>, m: Message)
    ensures Asked(ms + [m]) == Asked(ms) + |Asks(m)|
    ensures AnsweredIn(ms + [m]) == AnsweredIn(ms) + |Answers(m)|
  {
    assert (ms + [m])[..|ms|] == ms;
  }

  lemma {:induction false} FlushAssistantSurplus(f: Buffers)
    ensures Surplus(FlushAssistant(f)) == Surplus(f)
  {
    PushCounts(f.messages, Assistant(AssistantBlocks(f.text, f.uses)));
    UseIdsConcat(if f.text != "" then [Text(f.text)] else [], f.uses);
  }

  lemma {:induction false} FlushAnswersSurplus(f: Buffers)
    ensures Surplus(FlushAnswers(f)) == Surplus(f)
  {
    PushCounts(f.messages, Tool(f.answers));
  }

  lemma {:induction false} FlushSurplus(f: Buffers)
    ensures Surplus(Flush(f)) == Surplus(f)
  {
    FlushAssistantSurplus(f);
    FlushAnswersSurplus(FlushAssistant(f));
  }

  lemma {:induction false} SaidCounts(ms: seq<Message>, said: seq<Message>)
    requires Saying(said)
    ensures Asked(ms + said) == Asked(ms) && AnsweredIn(ms + said) == AnsweredIn(ms)
  {
    if said == [] {
      assert ms + said == ms;
    } else {
      assert ms + said == ms + [said[0]];
      PushCounts(ms, said[0]);
    }
  }

  lemma {:induction false} SaySurplus(f: Buffers, said: seq<Message>)
    requires Saying(said)
    ensures Surplus(Say(f, said)) == Surplus(f)
  {
    FlushSurplus(f);
    SaidCounts(Flush(f).messages, said);
  }

  lemma {:induction false} CallSurplus(f: Buffers, use: Block)
    requires use.ToolUse?
    ensures Surplus(f.(uses := f.uses + [use])) == Surplus(f) + 1
  {
    UseIdsConcat(f.uses, [use]);
  }

  lemma {:induction false} AnswerSurplus(f: Buffers, answer: Block)
    requires answer.ToolAnswer?
    ensures Surplus(f.(answers := f.answers + [answer])) == Surplus(f) - 1
  {
    AnswerIdsConcat(f.answers, [answer]);
  }

  lemma {:induction false} StepSurplus(ids: map<Uuid, string>, f: Buffers, e: Event)
    ensures Surplus(Step(ids, f, e)) == Surplus(f)
      + (if IsCall(e) then 1 else if IsResult(e) && AnsweredUse(ids, e).Some? then -1 else 0)
  {
    if IsSystemPrompt(e) {
      SaySurplus(f, PromptMessages(e));
    } else if IsUser(e) {
      SaySurplus(f, UserMessages(e));
    } else if IsCloser(e) {
      FlushAnswersSurplus(f);
    } else if IsCall(e) {
      FlushSurplus(f);
      CallSurplus(if f.answers != [] then Flush(f) else f, UseBlock(e));
    } else if IsResult(e) {
      FlushAssistantSurplus(f);
      if AnsweredUse(ids, e).Some? {
        AnswerSurplus(FlushAssistant(f), AnswerBlock(AnsweredUse(ids, e).value, e.payload));
      }
    }
  }

  lemma {:induction false} StepOwed(ids: map<Uuid, string>, f: Buffers, g: Phase, e: Event, dropped: set<int>)
    requires Next(g, e).Some? && (forall c :: c in g.open ==> IsCall(c))
    requires KnowsKept(ids, dropped, g.open)
    ensures var h := Next(g, e).value;
            && (forall c :: c in h.open ==> IsCall(c))
            && Surplus(StepView(ids, f, e, dropped)) + |Owed(g.open, dropped)|
               == Surplus(f) + |Owed(h.open, dropped)|
                  + (if IsResult(e) && Kept(g.open[0], dropped) && !Kept(e, dropped) then 1 else 0)
  {
    StepSurplus(ids, f, e);
    if IsCall(e) {
      OwedConcat(if g.answering then [] else g.open, [e], dropped);
    } else if IsResult(e) {
      assert g.open[0] in g.open;
    }
  }

  lemma {:induction false} FoldSurplus(ids: map<Uuid, string>, f: Buffers, g: Phase, rest: seq<Event>,
                                       dropped: set<int>)
    requires Parse(g, rest).Some? && (forall c :: c in g.open ==> IsCall(c))
    requires KnowsKept(ids, dropped, g.open) && KnowsKept(ids, dropped, rest)
    ensures var h := Parse(g, rest).value;
            && (forall c :: c in h.open ==> IsCall(c))
            && Surplus(FoldFrom(ids, f, View(rest, dropped))) + |Owed(g.open, dropped)|
               == Surplus(f) + |Owed(h.open, dropped)| + Lost(g, rest, dropped)
    decreases |rest|
  {
    if rest != [] {
      var e := rest[0];
      assert e in rest && forall x :: x in rest[1..] ==> x in rest;
      FoldView(ids, f, rest, dropped);
      StepOwed(ids, f, g, e, dropped);
      FoldSurplus(ids, StepView(ids, f, e, dropped), Next(g, e).value, rest[1..], dropped);
    }
  }

  lemma {:induction false} PairedKeepsResults(log: seq<Event>, dropped: set<int>)
    requires RoundComplete(log) && Paired(Context(View(log, dropped)))
    ensures Lost(START, log, dropped) == 0
  {
    var ids := CallIds(View(log, dropped));
    ViewKnowsKept(log, dropped);
    FoldSurplus(ids, EMPTY, START, log, dropped);
    FlushSurplus(FoldFrom(ids, EMPTY, View(log, dropped)));
    PairedCounts(Context(View(log, dropped)));
  }

  // ---- Main result -------------------------------------------------------------------------

  /** For every complete conversation and every set of dropped sequences, the fold of what is left is validly paired
      exactly when no kept call lost its result. */
  lemma {:induction false} ViewIsPaired(log: seq<Event>, dropped: set<int>)
    requires RoundComplete(log)
    ensures Paired(Context(View(log, dropped))) <==> NoCallOutlivesItsResult(log, dropped)
  {
    LostMeaning(log, START, log, dropped);
    if Lost(START, log, dropped) == 0 {
      KeptResultsArePaired(log, dropped);
    } else if Paired(Context(View(log, dropped))) {
      PairedKeepsResults(log, dropped);
    }
  }

  // ---- Conversations of module Rounds are complete ---------------------------------------------

  lemma {:induction false} ParseConcat(g: Phase, a: seq<Event>, b: seq<Event>)
    ensures Parse(g, a + b) == match Parse(g, a) case Some(h) => Parse(h, b) case None => None
    decreases |a|
  {
    if a == [] {
      assert a + b == b;
    } else {
      assert (a + b)[1..] == a[1..] + b;
      if Next(g, a[0]).Some? {
        ParseConcat(Next(g, a[0]).value, a[1..], b);
      }
    }
  }

  lemma {:induction false} ParseIgnoresNoise(g: Phase, log: seq<Event>)
    ensures Parse(g, EraseNoise(log)) == Parse(g, log)
    decreases |log|
  {
    if log != [] {
      if IsNoise(log[0]) {
        assert EraseNoise(log) == EraseNoise(log[1..]);
        ParseIgnoresNoise(g, log[1..]);
      } else {
        assert EraseNoise(log)[1..] == EraseNoise(log[1..]);
        if Next(g, log[0]).Some? {
          ParseIgnoresNoise(Next(g, log[0]).value, log[1..]);
        }
      }
    }
  }

  lemma {:induction false} ParseCalls(g: Phase, calls: seq<Event>)
    requires (forall i :: 0 <= i < |calls| ==> IsCall(calls[i])) && (g.answering ==> g.open == [])
    ensures Parse(g, calls) == Some(if calls == [] then g else Phase(g.open + calls, false))
    decreases |calls|
  {
    if calls != [] {
      var h := Next(g, calls[0]).value;
      assert h == Phase(g.open + [calls[0]], false);
      assert Parse(g, calls) == Parse(h, calls[1..]);
      if calls[1..] == [] { assert calls == [calls[0]]; }
      ParseCalls(h, calls[1..]);
      assert g.open + [calls[0]] + calls[1..] == g.open + calls;
    }
  }

  lemma {:induction false} ParseResults(g: Phase, results: seq<Event>)
    requires Answered(g.open, results)
    ensures Parse(g, results) == Some(if results == [] then g else Phase([], true))
    decreases |results|
  {
    if results != [] {
      ParseResults(Next(g, results[0]).value, results[1..]);
    }
  }

  lemma {:induction false} ParseItem(g: Phase, item: Item)
    requires g.open == [] && ItemOk(item)
    ensures Parse(g, ItemEvents(item)).Some? && Parse(g, ItemEvents(item)).value.open == []
  {
    if item.Turn? {
      var Turn(calls, closer, results) := item;
      ParseConcat(g, calls + Opt(closer), results);
      ParseConcat(g, calls, Opt(closer));
      ParseCalls(g, calls);
      assert [] + calls == calls;
      var h := Parse(g, calls).value;
      var h' := Parse(h, Opt(closer)).value;
      ParseResults(h', results);
    }
  }

  lemma {:induction false} ParseItems(g: Phase, items: seq<Item>)
    requires g.open == [] && ItemsOk(items)
    ensures Parse(g, Flatten(items)).Some? && Parse(g, Flatten(items)).value.open == []
    decreases |items|
  {
    if items != [] {
      ParseItem(g, items[0]);
      ParseConcat(g, ItemEvents(items[0]), Flatten(items[1..]));
      ParseItems(Parse(g, ItemEvents(items[0])).value, items[1..]);
    }
  }

  /** Conversations, whatever their noise and whoever speaks after a closer, are complete. */
  lemma {:induction false} RecordsAreComplete(log: seq<Event>, items: seq<Item>)
    requires Records(log, items)
    ensures RoundComplete(log)
  {
    ParseItems(START, items);
    ParseIgnoresNoise(START, log);
  }

  lemma {:induction false} NothingHidden(log: seq<Event>)
    ensures View(log, {}) == log
  {
    if log != [] {
      NothingHidden(log[1..]);
    }
  }

  // ---- Complete logs grow ------------------------------------------------------------------------

  lemma {:induction false} CompleteMore(log: seq<Event>, more: seq<Event>, item: Item)
    requires RoundComplete(log) && UniqueIds(log + more) && ItemOk(item) && EraseNoise(more) == ItemEvents(item)
    ensures RoundComplete(log + more)
  {
    var g := Parse(START, log).value;
    ParseConcat(START, log, more);
    ParseIgnoresNoise(g, more);
    ParseItem(g, item);
  }

  lemma {:induction false} CompleteNoise(log: seq<Event>, more: seq<Event>)
    requires RoundComplete(log) && UniqueIds(log + more) && EraseNoise(more) == []
    ensures RoundComplete(log + more)
  {
    var g := Parse(START, log).value;
    ParseConcat(START, log, more);
    ParseIgnoresNoise(g, more);
  }

  // ---- Results and their calls -----------------------------------------------------------------------

  /** In a complete conversation a result comes after the call it answers. */
  lemma {:induction false} CallPrecedesResult(g: Phase, rest: seq<Event>, j: nat) returns (c: Event, i: int)
    requires Parse(g, rest).Some? && j < |rest| && IsResult(rest[j])
    requires forall x :: x in g.open ==> IsCall(x)
    ensures IsCall(c) && CallOf(rest[j]) == Some(c.id)
    ensures i < j && if i < 0 then c in g.open else rest[i] == c
    decreases |rest|
  {
    var h := Next(g, rest[0]).value;
    if j == 0 {
      c, i := g.open[0], -1;
    } else {
      c, i := CallPrecedesResult(h, rest[1..], j - 1);
      if i < 0 {
        i := if c in g.open then -1 else 0;
      } else {
        i := i + 1;
      }
    }
  }

  lemma {:induction false} PrefixUnique(log: seq<Event>, all: seq<Event>)
    requires log <= all && UniqueIds(all)
    ensures UniqueIds(log)
  {
    assert forall i :: 0 <= i < |log| ==> log[i] == all[i];
  }

  /** A prefix of a complete conversation holds the call of each of its results. */
  lemma {:induction false} CallIsResolved(log: seq<Event>, all: seq<Event>, e: Event)
    requires RoundComplete(all) && log <= all && UniqueIds(log) && e in log && IsResult(e)
    ensures AnsweredUse(CallIds(log), e).Some?
  {
    var j :| 0 <= j < |log| && log[j] == e;
    assert all[j] == e;
    var c, i := CallPrecedesResult(START, all, j);
    assert log[i] == c;
    CallIdsLookup(log, i);
  }

  // ---- The model is to speak next ----------------------------------------------------------------------

  /** Noise and prompts aside, the last event is a user message with text or a tool result. */
  predicate AwaitsReply(log: seq<Event>) {
    if log == [] then false
    else
      var e := log[|log| - 1];
      if IsNoise(e) || IsSystemPrompt(e) then AwaitsReply(log[..|log| - 1]) else Speaks(e) || IsResult(e)
  }

  lemma {:induction false} PushAwaits(ms: seq<Message>, m: Message)
    ensures AwaitsModel(ms + [m]) <==> if m.System? then AwaitsModel(ms) else m.User? || m.Tool?
  {
    assert (ms + [m])[..|ms|] == ms;
  }

  lemma {:induction false} SayAwaits(f: Buffers, said: seq<Message>)
    requires Saying(said) && if said != [] && said[0].User? then true else AwaitsModel(Flush(f).messages)
    ensures AwaitsModel(Flush(Say(f, said)).messages)
  {
    var ms := Flush(f).messages;
    if said == [] {
      assert ms + said == ms;
    } else {
      assert said == [said[0]];
      PushAwaits(ms, said[0]);
    }
  }

  lemma {:induction false} ResultAwaits(f: Buffers, answer: Block)
    ensures var g := FlushAssistant(f); AwaitsModel(Flush(g.(answers := g.answers + [answer])).messages)
  {
    var g := FlushAssistant(f);
    var h := g.(answers := g.answers + [answer]);
    assert FlushAssistant(h) == h;
    PushAwaits(h.messages, Tool(h.answers));
  }

  lemma {:induction false} NoiseSkips(ids: map<Uuid, string>, g: Buffers, e: Event)
    requires IsNoise(e)
    ensures Step(ids, g, e) == g
  {
  }

  lemma {:induction false} StepAwaits(ids: map<Uuid, string>, g: Buffers, e: Event)
    requires Speaks(e) || (IsResult(e) && AnsweredUse(ids, e).Some?)
             || ((IsNoise(e) || IsSystemPrompt(e)) && AwaitsModel(Flush(g).messages))
    ensures AwaitsModel(Flush(Step(ids, g, e)).messages)
  {
    if IsNoise(e) {
      NoiseSkips(ids, g, e);
    } else if IsResult(e) {
      ResultAwaits(g, AnswerBlock(AnsweredUse(ids, e).value, e.payload));
    } else {
      SayAwaits(g, if IsUser(e) then UserMessages(e) else PromptMessages(e));
    }
  }

  lemma {:induction false} FoldSnoc(ids: map<Uuid, string>, f: Buffers, events: seq<Event>, e: Event)
    ensures FoldFrom(ids, f, events + [e]) == Step(ids, FoldFrom(ids, f, events), e)
  {
    FoldConcat(ids, f, events, [e]);
    assert [e][1..] == [];
  }

  lemma {:induction false} FoldAwaits(ids: map<Uuid, string>, f: Buffers, events: seq<Event>)
    requires AwaitsReply(events) && forall e :: e in events && IsResult(e) ==> AnsweredUse(ids, e).Some?
    ensures AwaitsModel(Flush(FoldFrom(ids, f, events)).messages)
    decreases |events|
  {
    var front, e := events[..|events| - 1], events[|events| - 1];
    assert events == front + [e] && e in events;
    FoldSnoc(ids, f, front, e);
    if IsNoise(e) || IsSystemPrompt(e) {
      assert forall x :: x in front ==> x in events;
      FoldAwaits(ids, f, front);
    }
    StepAwaits(ids, FoldFrom(ids, f, front), e);
  }

  /** Whoever spoke before and how often: in a complete conversation whose last event is a user message with text or a
      result, every tool use is answered by the next message, same ids in the same order, and the user or a tool spoke
      last. */
  lemma {:induction false} RequestIsValid(log: seq<Event>)
    requires RoundComplete(log)
    ensures Paired(Context(log))
    ensures AwaitsReply(log) ==> AwaitsModel(Context(log))
  {
    NothingHidden(log);
    ViewIsPaired(log, {});
    if AwaitsReply(log) {
      forall e | e in log && IsResult(e) ensures AnsweredUse(CallIds(log), e).Some? {
        CallIsResolved(log, log, e);
      }
      FoldAwaits(CallIds(log), EMPTY, log);
    }
  }
}
