/** Whole runs of the harness, said of values: what the model is sent, and how a run ends. */
module Runs {
  import opened Values
  import opened Events
  import opened Adapters
  import R = Rounds
  import opened Pairing
  import opened SessionReads
  import opened Compaction
  import opened CompactionStack
  import opened Lifecycle
  import opened Turns
  import opened HarnessSteps
  import SandboxService
  import Shown

  datatype StopReason = MaxTurns | MaxDuration | NoUserTurn | ModelError | NoToolCalls

  datatype Step = GoOn | Stop(why: StopReason)

  /** A call of the model router, with the log as it was then. */
  datatype Request = Request(log: seq<Event>, messages: seq<Message>)

  /** Limits of the profile. */
  datatype Limits = Limits(maxTurns: nat, compactionThreshold: int, keepLastN: nat)

  /** What the outside world does in one turn: the clock, the model's stream and its tools. */
  datatype Script = Script(overdue: bool, chunks: seq<Chunk>, streamRaises: bool, tools: nat -> ToolScript)

  // ---- Requests --------------------------------------------------------------------------

  /** Sequences past what one read returns. */
  function Unread(log: seq<Event>): set<int> {
    set i | DEFAULT_EVENTS_LIMIT <= i < |log| :: log[i].sequence
  }

  /** The model is sent the fold of the active view of what was read.  It is validly paired exactly when no call in it
      lost its result to the compaction or to the end of the read.  A log of at most a thousand events without a
      compaction is validly paired, and if it awaits a reply the user or a tool speaks last. */
  ghost predicate RequestOk(q: Request) {
    && q.messages == Context(ActiveView(Rest(q.log, 0)))
    && (Paired(q.messages) <==> NoCallOutlivesItsResult(q.log, Hidden(Rest(q.log, 0)) + Unread(q.log)))
    && (|q.log| <= DEFAULT_EVENTS_LIMIT && Latest(q.log).None? ==>
          Paired(q.messages) && (AwaitsReply(q.log) ==> AwaitsModel(q.messages)))
  }

  lemma {:induction false} AllDropped(log: seq<Event>, dropped: set<int>)
    requires forall e :: e in log ==> !Kept(e, dropped)
    ensures View(log, dropped) == []
  {
    if log != [] {
      assert log[0] in log && forall e :: e in log[1..] ==> e in log;
      AllDropped(log[1..], dropped);
    }
  }

  /** Dropping what was not read is reading less. */
  lemma {:induction false} UnreadIsDropped(log: seq<Event>, dropped: set<int>)
    requires Dense(log)
    ensures View(log, dropped + Unread(log)) == View(Rest(log, 0), dropped)
  {
    var seen := Rest(log, 0);
    var tail := log[|seen|..];
    assert log == seen + tail;
    ViewConcat(seen, tail, dropped + Unread(log));
    forall e | e in seen ensures e.sequence !in Unread(log) {
      var i :| 0 <= i < |seen| && seen[i] == e;
      assert log[i] == e;
    }
    ViewAgrees(seen, dropped + Unread(log), dropped);
    forall e | e in tail ensures e.sequence in Unread(log) {
      var i :| 0 <= i < |tail| && tail[i] == e;
      assert log[|seen| + i].sequence in Unread(log);
    }
    AllDropped(tail, dropped + Unread(log));
    assert View(seen, dropped) + [] == View(seen, dropped);
  }

  lemma {:induction false} ReadIsPaired(log: seq<Event>)
    requires RoundComplete(log) && Dense(log)
    ensures Paired(Context(ActiveView(Rest(log, 0)))) <==> NoCallOutlivesItsResult(log, Hidden(Rest(log, 0)) + Unread(log))
  {
    ViewIsPaired(log, Hidden(Rest(log, 0)) + Unread(log));
    UnreadIsDropped(log, Hidden(Rest(log, 0)));
  }

  lemma {:induction false} WholeReadWaits(log: seq<Event>)
    requires RoundComplete(log) && |log| <= DEFAULT_EVENTS_LIMIT && Latest(log).None?
    ensures var messages := Context(ActiveView(Rest(log, 0)));
            Paired(messages) && (AwaitsReply(log) ==> AwaitsModel(messages))
  {
    assert Rest(log, 0) == log;
    NothingHidden(log);
    RequestIsValid(log);
  }

  lemma {:induction false} RecordIsNoise(log: seq<Event>, record: Option<Event>)
    requires RoundComplete(log) && UniqueIds(log + Opt(record)) && (record.Some? ==> IsCompaction(record.value))
    ensures RoundComplete(log + Opt(record)) && (AwaitsReply(log) ==> AwaitsReply(log + Opt(record)))
  {
    EraseOpt(record);
    CompleteNoise(log, Opt(record));
    if record.Some? && AwaitsReply(log) {
      AwaitsSnoc(log, record.value);
    } else if record.None? {
      assert log + Opt(record) == log;
    }
  }

  lemma {:induction false} RequestIsOk(q: Request)
    requires RoundComplete(q.log) && Dense(q.log) && q.messages == Context(ActiveView(Rest(q.log, 0)))
    ensures RequestOk(q)
  {
    ReadIsPaired(q.log);
    if |q.log| <= DEFAULT_EVENTS_LIMIT && Latest(q.log).None? {
      WholeReadWaits(q.log);
    }
  }

  // ---- The first compaction of a log --------------------------------------------------------

  ghost predicate FirstAt(log: seq<Event>, i: nat, n: nat, size: Payload -> nat) {
    && i < |log| && Latest(log[..i]).None?
    && var plan := Plan(ActiveView(log[..i]), n, size);
       plan.Some? && log[i] == Record(plan.value, i + 1)
  }

  /** The first record in the log, if any, stores what the planner decided on the log before it. */
  ghost predicate FirstPlanned(log: seq<Event>, n: nat, size: Payload -> nat) {
    Latest(log).None? || exists i :: FirstAt(log, i, n, size)
  }

  /** One compaction, the first, still leaves the request validly paired. */
  ghost predicate SingleOk(q: Request) {
    |q.log| <= DEFAULT_EVENTS_LIMIT && Compactions(q.log) <= 1 ==> Paired(q.messages)
  }

  lemma {:induction false} PlainLatest(log: seq<Event>, more: seq<Event>)
    requires Plain(log, more)
    ensures Latest(more) == Latest(log)
    decreases |more|
  {
    if |more| == |log| {
      assert more == log;
    } else {
      PlainLatest(log, more[..|more| - 1]);
    }
  }

  lemma {:induction false} FirstStays(log: seq<Event>, more: seq<Event>, i: nat, n: nat, size: Payload -> nat)
    requires FirstAt(log, i, n, size) && log <= more
    ensures FirstAt(more, i, n, size)
  {
    assert more[..i] == log[..i];
  }

  lemma {:induction false} FirstPlannedPlain(log: seq<Event>, more: seq<Event>, n: nat, size: Payload -> nat)
    requires FirstPlanned(log, n, size) && Plain(log, more)
    ensures FirstPlanned(more, n, size)
  {
    PlainLatest(log, more);
    if Latest(log).Some? {
      var i :| FirstAt(log, i, n, size);
      FirstStays(log, more, i, n, size);
    }
  }

  lemma {:induction false} FirstPlannedRecord(log: seq<Event>, n: nat, size: Payload -> nat, d: Decision)
    requires FirstPlanned(log, n, size) && Plan(ActiveView(log), n, size) == Some(d)
    ensures FirstPlanned(log + [Record(d, |log| + 1)], n, size)
  {
    var more := log + [Record(d, |log| + 1)];
    if Latest(log).None? {
      assert more[..|log|] == log;
      assert FirstAt(more, |log|, n, size);
    } else {
      var i :| FirstAt(log, i, n, size);
      FirstStays(log, more, i, n, size);
    }
  }

  lemma {:induction false} CompactionsConcat(a: seq<Event>, b: seq<Event>)
    ensures Compactions(a + b) == Compactions(a) + Compactions(b)
  {
    if b == [] {
      assert a + b == a;
    } else {
      assert (a + b)[..|a + b| - 1] == a + b[..|b| - 1];
      CompactionsConcat(a, b[..|b| - 1]);
    }
  }

  lemma {:induction false} NoRecordNoLatest(log: seq<Event>)
    requires Compactions(log) == 0
    ensures Latest(log).None?
  {
    if log != [] {
      NoRecordNoLatest(log[..|log| - 1]);
    }
  }

  lemma {:induction false} SingleIsPaired(log: seq<Event>, i: nat, n: nat, size: Payload -> nat)
    requires FirstAt(log, i, n, size) && Compactions(log) <= 1 && RoundComplete(log) && Dense(log)
    ensures Paired(Context(ActiveView(log)))
  {
    var before, record, after := log[..i], log[i], log[i + 1..];
    var d := Plan(ActiveView(before), n, size).value;
    assert log == before + [record] + after;
    CompactionsConcat(before + [record], after);
    CompactionsConcat(before, [record]);
    assert [record][..0] == [];
    RecordDrops(d, i + 1);
    NoRecordNoLatest(after);
    FirstCompactionIsPaired(before, n, size, d, record, after);
  }

  lemma {:induction false} SingleIsOk(q: Request, n: nat, size: Payload -> nat)
    requires RequestOk(q) && RoundComplete(q.log) && Dense(q.log)
    requires |q.log| <= DEFAULT_EVENTS_LIMIT ==> FirstPlanned(q.log, n, size)
    ensures SingleOk(q)
  {
    assert |q.log| <= DEFAULT_EVENTS_LIMIT ==> Rest(q.log, 0) == q.log;
    if |q.log| <= DEFAULT_EVENTS_LIMIT && Compactions(q.log) <= 1 && Latest(q.log).Some? {
      var i :| FirstAt(q.log, i, n, size);
      SingleIsPaired(q.log, i, n, size);
    }
  }

  // ---- One pass of the loop -------------------------------------------------------------------

  /** The record this pass wrote, if any, is what the planner decided on what was read. */
  ghost predicate RecordedAt(log: seq<Event>, record: Option<Event>, n: nat, size: Payload -> nat) {
    record.Some? ==>
      var plan := Plan(ActiveView(Rest(log, 0)), n, size);
      plan.Some? && record.value == Record(plan.value, |log| + 1)
  }

  /** The events of the round say what these chunks said, and its answers are those of the tools they named. */
  ghost predicate Says(round: Round, read: seq<Chunk>, tools: nat -> ToolScript, w: Wiring) {
    && LoggedAs(read, round.stream + Opt(round.failure))
    && (round.failure.None? ==> ClosesWith(read, round.closer) && HonestToChunks(w, read, round.answers, tools))
  }

  /** Each result is that of the tool its chunk named. */
  ghost predicate HonestToChunks(w: Wiring, read: seq<Chunk>, answers: seq<Event>, tools: nat -> ToolScript) {
    forall k :: 0 <= k < |EraseNoise(answers)| && k < |ToolEnds(read)| ==>
      HonestFor(w, ToolEnds(read)[k].toolName, EraseNoise(answers)[k].payload, tools(k))
  }

  /** The round says what its chunks said, up to the first error. */
  ghost predicate Transcribes(round: Round, script: Script, w: Wiring) {
    exists count: nat :: Reads(script.chunks, count, round.failure.Some?)
                         && Says(round, script.chunks[..count], script.tools, w)
  }

  lemma {:induction false} HonestByName(w: Wiring, read: seq<Chunk>, stream: seq<Event>, answers: seq<Event>,
                                        tools: nat -> ToolScript)
    requires LoggedAs(read, stream) && HonestAnswers(w, CallsOf(stream), answers, tools)
    ensures HonestToChunks(w, read, answers, tools)
  {
    LoggedSays(read, stream);
    forall k | 0 <= k < |EraseNoise(answers)| && k < |ToolEnds(read)|
      ensures HonestFor(w, ToolEnds(read)[k].toolName, EraseNoise(answers)[k].payload, tools(k))
    {
      assert Logs(ToolEnds(read)[k], CallsOf(stream)[k].kind, CallsOf(stream)[k].payload);
      assert Calls(CallsOf(stream)[k].payload, ToolEnds(read)[k].toolName);
      assert HonestAt(w, CallsOf(stream), EraseNoise(answers), tools, k);
    }
  }

  lemma {:induction false} RoundSays(round: Round, script: Script, w: Wiring, count: nat)
    requires Reads(script.chunks, count, round.failure.Some?) && RoundOk(round)
    requires LoggedAs(script.chunks[..count], round.stream + Opt(round.failure))
    requires round.failure.None? ==> ClosesWith(script.chunks, round.closer)
    requires HonestAnswers(w, CallsOf(round.stream), round.answers, script.tools)
    ensures Transcribes(round, script, w)
  {
    var read := script.chunks[..count];
    if round.failure.None? {
      assert read == script.chunks;
      assert round.stream + Opt(round.failure) == round.stream;
      HonestByName(w, read, round.stream, round.answers, script.tools);
    }
    assert Says(round, read, script.tools, w);
  }

  // ---- What the model is shown of a round ------------------------------------------------------------

  /** The tool_use blocks of these chunks. */
  function UsesOf(ends: seq<Chunk>): seq<Block>
    requires forall c :: c in ends ==> c.ToolEnd?
  {
    seq(|ends|, i requires 0 <= i < |ends| => assert ends[i] in ends; ToolUse(ends[i].toolId, ends[i].toolName, ends[i].input))
  }

  /** The answer shown to the model is an error, or what the chunk's own tool replied, under the chunk's id. */
  ghost predicate AnswersChunk(b: Block, c: Chunk, w: Wiring, script: ToolScript) {
    && c.ToolEnd? && b.ToolAnswer? && b.toolUseId == c.toolId
    && if c.toolName in BUILTIN_TOOL_NAMES && w.hasSandbox then
         || Reports(b, "sandbox provisioning failed: " + script.reason)
         || Reports(b, "sandbox execute failed: " + script.reason)
         || (script.reply.Some? && Replies(b, script.reply.value))
       else if c.toolName in w.proxyNames && w.hasProxy then Replies(b, script.proxied)
       else Reports(b, StubError(c.toolName, w))
  }

  /** An error with this text. */
  predicate Reports(b: Block, text: string) {
    b.ToolAnswer? && b.content == Verbatim(Str(text)) && b.isError == Some(true)
  }

  predicate Replies(b: Block, r: SandboxService.ToolResult) {
    b.ToolAnswer? && b.content == Verbatim(Str(r.content)) && b.isError == Some(r.isError)
  }

  /** What the model is shown of a round that did not fail: its whole text and exactly the tool calls of the chunks read,
      each with its id, name and input, and one answer a call, that of the tool named. */
  ghost predicate ShowsChunks(ms: seq<Message>, read: seq<Chunk>, tools: nat -> ToolScript, w: Wiring) {
    var text, ends := Texts(read), ToolEnds(read);
    if text == "" && ends == [] then ms == []
    else
      && |ms| == (if ends == [] then 1 else 2)
      && ms[0] == Assistant((if text == "" then [] else [Text(text)]) + UsesOf(ends))
      && (ends != [] ==> ms[1].Tool? && |ms[1].blocks| == |ends|
                         && forall k :: 0 <= k < |ends| ==> AnswersChunk(ms[1].blocks[k], ends[k], w, tools(k)))
  }

  lemma {:induction false} UseShown(b: Block, c: Chunk, kind: EventType, p: Payload)
    requires Shown.UseShows(b, p) && c.ToolEnd? && Logs(c, kind, p)
    ensures b == ToolUse(c.toolId, c.toolName, c.input)
  {
  }

  lemma {:induction false} UsesShown(blocks: seq<Block>, text: string, calls: seq<Event>, ends: seq<Chunk>)
    requires Shown.AssistantShows(blocks, text, calls) && |calls| == |ends| && (forall c :: c in ends ==> c.ToolEnd?)
    requires forall k :: 0 <= k < |calls| ==> Logs(ends[k], calls[k].kind, calls[k].payload)
    ensures blocks == (if text == "" then [] else [Text(text)]) + UsesOf(ends)
  {
    var k := if text == "" then 0 else 1;
    var all := (if text == "" then [] else [Text(text)]) + UsesOf(ends);
    forall j | 0 <= j < |blocks| ensures blocks[j] == all[j] {
      if j >= k {
        var i := j - k;
        assert ends[i] in ends && Shown.UseShows(blocks[k + i], calls[i].payload);
        UseShown(blocks[j], ends[i], calls[i].kind, calls[i].payload);
      }
    }
  }

  lemma {:induction false} AnswersShown(blocks: seq<Block>, calls: seq<Event>, results: seq<Event>, read: seq<Chunk>,
                                        answers: seq<Event>, tools: nat -> ToolScript, w: Wiring)
    requires Shown.AnswersShow(blocks, calls, results) && |calls| == |ToolEnds(read)| && results == EraseNoise(answers)
    requires forall k :: 0 <= k < |calls| ==> Logs(ToolEnds(read)[k], calls[k].kind, calls[k].payload)
    requires HonestToChunks(w, read, answers, tools)
    ensures forall k :: 0 <= k < |blocks| ==> AnswersChunk(blocks[k], ToolEnds(read)[k], w, tools(k))
  {
    forall k | 0 <= k < |blocks| ensures AnswersChunk(blocks[k], ToolEnds(read)[k], w, tools(k)) {
      assert Logs(ToolEnds(read)[k], calls[k].kind, calls[k].payload);
      assert HonestFor(w, ToolEnds(read)[k].toolName, results[k].payload, tools(k));
      assert Shown.AnswerShows(blocks[k], blocks[k].toolUseId, results[k].payload);
    }
  }

  /** From the provider's chunks to what the model reads in its next request. */
  lemma {:induction false} RoundIsShown(round: Round, read: seq<Chunk>, tools: nat -> ToolScript, w: Wiring,
                                        ms: seq<Message>)
    requires RoundOk(round) && round.failure.None? && Says(round, read, tools, w)
    requires Shown.ItemShows(ms, ItemOf(round))
    ensures ShowsChunks(ms, read, tools, w)
  {
    var calls, results := CallsOf(round.stream), EraseNoise(round.answers);
    assert round.stream + Opt(round.failure) == round.stream;
    LoggedSays(read, round.stream);
    var text :| (if round.closer.Some? then Shown.CloserShows(text, round.closer.value.payload) else text == "")
                && Shown.TurnShows(ms, text, calls, results);
    NoText(read);
    assert text == Texts(read);
    if ms != [] {
      UsesShown(ms[0].blocks, text, calls, ToolEnds(read));
      if calls != [] {
        AnswersShown(ms[1].blocks, calls, results, read, round.answers, tools, w);
      }
    }
  }

  lemma {:induction false} NoText(chunks: seq<Chunk>)
    ensures !HasText(chunks) ==> Texts(chunks) == ""
  {
    if chunks != [] && !HasText(chunks) {
      HasTextSnoc(chunks);
      NoText(chunks[..|chunks| - 1]);
    }
  }

  /** A round in the grammar that starts with this record and transcribes the script, appended to the log. */
  ghost predicate Wrote(log: seq<Event>, more: seq<Event>, record: Option<Event>, round: Round, script: Script,
                        w: Wiring) {
    RoundOk(round) && round.record == record && more == log + RoundEvents(round) && Transcribes(round, script, w)
  }

  /** Where the loop goes after a round. */
  function StepAfter(round: Round): Step {
    if round.failure.Some? then Stop(ModelError)
    else if CallsOf(round.stream) == [] then Stop(NoToolCalls)
    else GoOn
  }

  ghost predicate Leaves(log: seq<Event>, more: seq<Event>, step: Step, record: Option<Event>, round: Option<Round>,
                         script: Script) {
    match step
    case GoOn => round.Some? && Continues(round.value)
    case Stop(why) =>
      match why
      case NoToolCalls => round.Some? && round.value.failure.None? && CallsOf(round.value.stream) == []
      case ModelError => round.Some? && round.value.failure.Some?
      case MaxDuration => round.None? && record.None? && more == log && script.overdue
      case NoUserTurn => round.None? && more == log + Opt(record) && !HasUser(Context(ActiveView(Rest(more, 0))))
      case MaxTurns => false
  }

  ghost predicate Iterated(log: seq<Event>, more: seq<Event>, step: Outcome<Step>, record: Option<Event>,
                           request: Option<Request>, round: Option<Round>, script: Script, w: Wiring, n: nat,
                           size: Payload -> nat) {
    && RecordedAt(log, record, n, size) && Plain(log + Opt(record), more)
    && (request.Some? ==> request.value.log == log + Opt(record)
                          && request.value.messages == Context(ActiveView(Rest(request.value.log, 0))))
    && (round.Some? ==> request.Some? && Wrote(log, more, record, round.value, script, w))
    && (step.Returned? ==> Leaves(log, more, step.value, record, round, script) && (request.Some? <==> round.Some?))
  }

  lemma {:induction false} MakeRound(log: seq<Event>, record: Option<Event>, spoken: seq<Event>, next: nat,
                                     script: Script, w: Wiring, result: TurnResult, stream: seq<Event>,
                                     closer: Option<Event>, failure: Option<Event>, count: nat, answers: seq<Event>)
    returns (round: Round)
    requires HasTurned(log + Opt(record), spoken, next, script.chunks, result, stream, closer, failure, count)
    requires record.Some? ==> IsCompaction(record.value)
    requires if result.errored then answers == [] else AnswersOk(CallsOf(stream), answers)
    requires HonestAnswers(w, CallsOf(stream), answers, script.tools)
    ensures round == Round(record, stream, closer, failure, answers) && Wrote(log, spoken + answers, record, round, script, w)
  {
    round := Round(record, stream, closer, failure, answers);
    RoundSays(round, script, w, count);
    Regroup(log, Opt(record), stream, Opt(closer), Opt(failure), answers);
  }

  lemma {:induction false} Regroup(a: seq<Event>, b: seq<Event>, c: seq<Event>, d: seq<Event>, e: seq<Event>,
                                   f: seq<Event>)
    ensures a + b + c + (d + e) + f == a + (b + c + d + e + f)
  {
  }

  /** A completion without calls, or with an error, is a whole round, and the last one. */
  lemma {:induction false} RoundEnds(log: seq<Event>, record: Option<Event>, spoken: seq<Event>, next: nat,
                                     script: Script, w: Wiring, result: TurnResult, stream: seq<Event>,
                                     closer: Option<Event>, failure: Option<Event>, count: nat) returns (round: Round)
    requires HasTurned(log + Opt(record), spoken, next, script.chunks, result, stream, closer, failure, count)
    requires record.Some? ==> IsCompaction(record.value)
    requires result.errored || result.toolCalls == []
    ensures Wrote(log, spoken, record, round, script, w)
    ensures StepAfter(round) == Stop(if result.errored then ModelError else NoToolCalls)
  {
    assert AnswersOk([], []);
    round := MakeRound(log, record, spoken, next, script, w, result, stream, closer, failure, count, []);
    assert spoken + [] == spoken;
  }

  /** With calls, it becomes a round once they are answered. */
  lemma {:induction false} RoundGoesOn(log: seq<Event>, record: Option<Event>, spoken: seq<Event>, next: nat,
                                       script: Script, w: Wiring, result: TurnResult, stream: seq<Event>,
                                       closer: Option<Event>, failure: Option<Event>, count: nat, answers: seq<Event>)
    returns (round: Round)
    requires HasTurned(log + Opt(record), spoken, next, script.chunks, result, stream, closer, failure, count)
    requires record.Some? ==> IsCompaction(record.value)
    requires !result.errored && result.toolCalls != [] && AnswersOk(CallsOf(stream), answers)
    requires HonestAnswers(w, CallsOf(stream), answers, script.tools)
    ensures Wrote(log, spoken + answers, record, round, script, w) && StepAfter(round) == GoOn
  {
    round := MakeRound(log, record, spoken, next, script, w, result, stream, closer, failure, count, answers);
  }

  lemma {:induction false} OverduePass(log: seq<Event>, script: Script, w: Wiring, n: nat, size: Payload -> nat)
    requires script.overdue
    ensures Iterated(log, log, Returned(Stop(MaxDuration)), None, None, None, script, w, n, size)
  {
    assert log + Opt(None) == log;
  }

  /** The pass wrote at most a record and asked nothing. */
  lemma {:induction false} SilentPass(log: seq<Event>, record: Option<Event>, step: Outcome<Step>, script: Script,
                                      w: Wiring, n: nat, size: Payload -> nat)
    requires RecordedAt(log, record, n, size)
    requires step.Raised? || (step == Returned(Stop(NoUserTurn)) && !HasUser(Context(ActiveView(Rest(log + Opt(record), 0)))))
    ensures Iterated(log, log + Opt(record), step, record, None, None, script, w, n, size)
  {
  }

  lemma {:induction false} AskingPass(log: seq<Event>, record: Option<Event>, messages: seq<Message>,
                                      more: seq<Event>, step: Outcome<Step>, round: Option<Round>, script: Script,
                                      w: Wiring, n: nat, size: Payload -> nat)
    requires RecordedAt(log, record, n, size) && Plain(log + Opt(record), more)
    requires messages == Context(ActiveView(Rest(log + Opt(record), 0)))
    requires round.Some? ==> Wrote(log, more, record, round.value, script, w)
    requires step.Returned? ==> round.Some? && step.value == StepAfter(round.value)
    ensures Iterated(log, more, step, record, Some(Request(log + Opt(record), messages)), round, script, w, n, size)
  {
    if step.Returned? {
      assert Leaves(log, more, step.value, record, round, script);
    }
  }

  // ---- What a run keeps -------------------------------------------------------------------------

  /** What is guaranteed of a request in a run that started from a complete conversation: it awaits a reply if the
      conversation did, and one compaction leaves it paired. */
  ghost predicate RequestGood(log0: seq<Event>, q: Request, n: nat, size: Payload -> nat) {
    && RequestOk(q) && (AwaitsReply(log0) ==> AwaitsReply(q.log))
    && (FirstPlanned(log0, n, size) ==> SingleOk(q))
  }

  ghost predicate RequestsOk(log0: seq<Event>, requests: seq<Request>, n: nat, size: Payload -> nat) {
    RoundComplete(log0) ==> forall q :: q in requests ==> RequestGood(log0, q, n, size)
  }

  /** What a pass may rely on, given what the run started from. */
  ghost predicate Talking(log0: seq<Event>, log: seq<Event>, n: nat, size: Payload -> nat) {
    && (RoundComplete(log0) ==> RoundComplete(log) && (AwaitsReply(log0) ==> AwaitsReply(log)))
    && (FirstPlanned(log0, n, size) && |log| <= DEFAULT_EVENTS_LIMIT ==> FirstPlanned(log, n, size))
  }

  lemma {:induction false} FirstPlannedMid(log: seq<Event>, record: Option<Event>, n: nat, size: Payload -> nat)
    requires FirstPlanned(log, n, size) && |log| <= DEFAULT_EVENTS_LIMIT && RecordedAt(log, record, n, size)
    ensures FirstPlanned(log + Opt(record), n, size)
  {
    if record.Some? {
      assert Rest(log, 0) == log;
      FirstPlannedRecord(log, n, size, Plan(ActiveView(log), n, size).value);
    } else {
      assert log + Opt(record) == log;
    }
  }

  lemma {:induction false} RecordIsCompaction(log: seq<Event>, record: Option<Event>, n: nat, size: Payload -> nat)
    requires RecordedAt(log, record, n, size)
    ensures record.Some? ==> IsCompaction(record.value)
  {
    if record.Some? {
      RecordDrops(Plan(ActiveView(Rest(log, 0)), n, size).value, |log| + 1);
    }
  }

  lemma {:induction false} RecordServes(a: Snapshot, record: Option<Event>, n: nat, size: Payload -> nat, base: nat,
                                        named: bool)
    requires RecordedAt(a.log, record, n, size)
    ensures Serves(a, a.(log := a.log + Opt(record)), {}, base, named)
  {
    RecordIsCompaction(a.log, record, n, size);
    ServesNothing(a, a.log + Opt(record), base, named);
  }

  /** The request of a pass. */
  lemma {:induction false} RequestIsGood(log0: seq<Event>, log: seq<Event>, record: Option<Event>, q: Request, n: nat,
                                         size: Payload -> nat)
    requires RoundComplete(log0) && Talking(log0, log, n, size)
    requires RecordedAt(log, record, n, size) && q.log == log + Opt(record) && WellFormed(q.log)
    requires q.messages == Context(ActiveView(Rest(q.log, 0)))
    ensures RequestGood(log0, q, n, size)
  {
    RecordIsCompaction(log, record, n, size);
    RecordIsNoise(log, record);
    RequestIsOk(q);
    if FirstPlanned(log0, n, size) {
      if |q.log| <= DEFAULT_EVENTS_LIMIT {
        FirstPlannedMid(log, record, n, size);
      }
      SingleIsOk(q, n, size);
    }
  }

  lemma {:induction false} RequestJoins(log0: seq<Event>, log: seq<Event>, requests: seq<Request>,
                                        record: Option<Event>, q: Request, n: nat, size: Payload -> nat)
    requires Talking(log0, log, n, size) && RequestsOk(log0, requests, n, size)
    requires RecordedAt(log, record, n, size) && q.log == log + Opt(record) && WellFormed(q.log)
    requires q.messages == Context(ActiveView(Rest(q.log, 0)))
    ensures RequestsOk(log0, requests + [q], n, size)
  {
    if RoundComplete(log0) {
      RequestIsGood(log0, log, record, q, n, size);
    }
  }

  /** A round with answered calls leaves a conversation to be continued. */
  lemma {:induction false} RoundJoins(log0: seq<Event>, log: seq<Event>, record: Option<Event>, round: Round, n: nat,
                                      size: Payload -> nat)
    requires Talking(log0, log, n, size)
    requires RecordedAt(log, record, n, size) && Plain(log + Opt(record), log + RoundEvents(round))
    requires RoundOk(round) && Continues(round) && UniqueIds(log + RoundEvents(round))
    ensures Talking(log0, log + RoundEvents(round), n, size)
  {
    if RoundComplete(log0) {
      RoundAwaits(log, round);
    }
    if FirstPlanned(log0, n, size) && |log + RoundEvents(round)| <= DEFAULT_EVENTS_LIMIT {
      FirstPlannedMid(log, record, n, size);
      FirstPlannedPlain(log + Opt(record), log + RoundEvents(round), n, size);
    }
  }

  /** The system prompt, written before the first pass, changes none of this. */
  lemma {:induction false} PromptJoins(log0: seq<Event>, systemPrompt: string, n: nat, size: Payload -> nat)
    requires UniqueIds(log0 + [PromptEvent(systemPrompt, |log0| + 1)])
    ensures Talking(log0, log0 + [PromptEvent(systemPrompt, |log0| + 1)], n, size)
  {
    var e := PromptEvent(systemPrompt, |log0| + 1);
    if RoundComplete(log0) {
      EraseOpt(Some(e));
      CompleteMore(log0, [e], R.Prompt(e));
      if AwaitsReply(log0) { AwaitsSnoc(log0, e); }
    }
    if FirstPlanned(log0, n, size) {
      FirstPlannedPlain(log0, log0 + [e], n, size);
    }
  }

  // ---- The anchor -----------------------------------------------------------------------------------

  lemma {:induction false} RestIsPrefix(log: seq<Event>, more: seq<Event>)
    requires log <= more
    ensures Rest(log, 0) <= log && Rest(log, 0) <= Rest(more, 0)
  {
  }

  lemma {:induction false} PassKeepsAnchored(log: seq<Event>, record: Option<Event>, more: seq<Event>, n: nat,
                                             size: Payload -> nat)
    requires Anchored(log) && RecordedAt(log, record, n, size) && Plain(log + Opt(record), more) && Dense(more)
    ensures Anchored(more)
  {
    if record.Some? {
      var seen := Rest(log, 0);
      var d := Plan(ActiveView(seen), n, size).value;
      RestIsPrefix(log, log);
      RecordDrops(d, |log| + 1);
      AnchoredPrefix(log, seen);
      RecordKeepsAnchored(log, seen, n, size, d, record.value);
    } else {
      assert log + Opt(record) == log;
    }
    PlainKeepsAnchored(log + Opt(record), more);
  }

  lemma {:induction false} AnchorSpeaksOn(seen: seq<Event>, more: seq<Event>)
    requires AnchorSpeaks(seen) && seen <= more
    ensures AnchorSpeaks(more)
  {
    var i :| 0 <= i < |seen| && Speaks(seen[i]) && FirstUser(seen) == Some(seen[i].sequence);
    assert more == seen + more[|seen|..];
    FirstUserConcat(seen, more[|seen|..]);
    assert more[i] == seen[i];
  }

  /** Whatever was compacted, a first user message with text among the first thousand events is found. */
  lemma {:induction false} UserTurnIsFound(log0: seq<Event>, log: seq<Event>)
    requires Anchored(log) && AnchorSpeaks(Rest(log0, 0)) && log0 <= log
    ensures HasUser(Context(ActiveView(Rest(log, 0))))
  {
    RestIsPrefix(log0, log);
    RestIsPrefix(log, log);
    AnchoredPrefix(log, Rest(log, 0));
    AnchorSpeaksOn(Rest(log0, 0), Rest(log, 0));
    UserTurnStays(Rest(log, 0));
  }

  // ---- How a run ends ---------------------------------------------------------------------------------

  ghost predicate AllContinue(rounds: seq<Round>) {
    forall i :: 0 <= i < |rounds| ==> RoundOk(rounds[i]) && Continues(rounds[i])
  }

  lemma {:induction false} FlatSnoc(rounds: seq<Round>, r: Round)
    ensures Flat(rounds + [r]) == Flat(rounds) + RoundEvents(r)
  {
    assert (rounds + [r])[..|rounds|] == rounds;
  }

  /** The stream that answers the last request raises. */
  ghost predicate LastRaised(requests: seq<Request>, script: nat -> Script) {
    requests != [] && script(|requests| - 1).streamRaises
  }

  /** The reason a run gives is the reason it stopped. */
  ghost predicate StopsFor(why: StopReason, rounds: seq<Round>, limits: Limits, script: nat -> Script, log: seq<Event>) {
    match why
    case MaxTurns => |rounds| == limits.maxTurns && AllContinue(rounds)
    case MaxDuration => |rounds| < limits.maxTurns && AllContinue(rounds) && script(|rounds|).overdue
    case NoUserTurn => |rounds| < limits.maxTurns && AllContinue(rounds) && !HasUser(Context(ActiveView(Rest(log, 0))))
    case ModelError => rounds != [] && rounds[|rounds| - 1].failure.Some?
    case NoToolCalls => rounds != [] && rounds[|rounds| - 1].failure.None? && CallsOf(rounds[|rounds| - 1].stream) == []
  }

  // ---- Runs, pass by pass -------------------------------------------------------------------------------

  /** A run: the log it was started on, the log the loop starts on, and the outside world. */
  datatype Setting = Setting(log0: seq<Event>, start: seq<Event>, limits: Limits,
                             scripts: nat -> Script, wiring: Wiring, size: Payload -> nat)

  /** What holds however the loop is left. */
  ghost predicate Safe(c: Setting, log: seq<Event>, requests: seq<Request>) {
    && c.start <= log && |requests| <= c.limits.maxTurns
    && RequestsOk(c.log0, requests, c.limits.keepLastN, c.size)
    && (Anchored(c.start) ==> Anchored(log))
  }

  ghost predicate Transcribed(c: Setting, rounds: seq<Round>) {
    forall i :: 0 <= i < |rounds| ==> Transcribes(rounds[i], c.scripts(i), c.wiring)
  }

  /** The i-th request was made after the first i rounds and the record of the next, with the fold of what was read. */
  ghost predicate Asked(c: Setting, rounds: seq<Round>, requests: seq<Request>) {
    && |rounds| == |requests|
    && forall i :: 0 <= i < |rounds| ==>
         && requests[i].log == c.start + Flat(rounds[..i]) + Opt(rounds[i].record)
         && requests[i].messages == Context(ActiveView(Rest(requests[i].log, 0)))
  }

  /** What holds before each pass. */
  ghost predicate Running(c: Setting, log: seq<Event>, rounds: seq<Round>, requests: seq<Request>) {
    && Safe(c, log, requests) && Asked(c, rounds, requests)
    && log == c.start + Flat(rounds) && AllContinue(rounds) && Transcribed(c, rounds)
    && Talking(c.log0, log, c.limits.keepLastN, c.size)
  }

  /** What holds when the loop ends without an exception: the log grew by rounds in the grammar, one a request, and at
      most a last compaction record. */
  ghost predicate RanToEnd(c: Setting, log: seq<Event>, why: StopReason, rounds: seq<Round>, requests: seq<Request>,
                           tail: Option<Event>) {
    && Safe(c, log, requests) && Asked(c, rounds, requests)
    && log == c.start + Flat(rounds) + Opt(tail) && RunOk(rounds) && Transcribed(c, rounds)
    && (tail.Some? ==> why == NoUserTurn && IsCompaction(tail.value))
    && StopsFor(why, rounds, c.limits, c.scripts, log)
  }

  lemma {:induction false} WellFormedPrefix(log: seq<Event>, more: seq<Event>)
    requires WellFormed(more) && log <= more
    ensures WellFormed(log)
  {
    assert forall i :: 0 <= i < |log| ==> log[i] == more[i];
  }

  function Joined(requests: seq<Request>, request: Option<Request>): seq<Request> {
    if request.Some? then requests + [request.value] else requests
  }

  /** However a pass ends, what is safe stays safe. */
  lemma {:induction false} PassIsSafe(c: Setting, log: seq<Event>, rounds: seq<Round>, requests: seq<Request>,
                                      more: seq<Event>, step: Outcome<Step>, record: Option<Event>,
                                      request: Option<Request>, round: Option<Round>)
    requires Running(c, log, rounds, requests) && |rounds| < c.limits.maxTurns
    requires Iterated(log, more, step, record, request, round, c.scripts(|rounds|), c.wiring, c.limits.keepLastN, c.size)
    requires WellFormed(more)
    ensures Safe(c, more, Joined(requests, request))
  {
    if Anchored(log) {
      PassKeepsAnchored(log, record, more, c.limits.keepLastN, c.size);
    }
    if request.Some? {
      WellFormedPrefix(log + Opt(record), more);
      RequestJoins(c.log0, log, requests, record, request.value, c.limits.keepLastN, c.size);
    }
  }

  lemma {:induction false} TranscribedSnoc(c: Setting, rounds: seq<Round>, round: Round)
    requires Transcribed(c, rounds) && Transcribes(round, c.scripts(|rounds|), c.wiring)
    ensures Transcribed(c, rounds + [round])
  {
    var all := rounds + [round];
    forall i | 0 <= i < |all| ensures Transcribes(all[i], c.scripts(i), c.wiring) {
      if i < |rounds| {
        assert Transcribes(rounds[i], c.scripts(i), c.wiring);
      }
    }
  }

  lemma {:induction false} RunOkSnoc(rounds: seq<Round>, round: Round)
    requires AllContinue(rounds) && RoundOk(round)
    ensures RunOk(rounds + [round]) && (Continues(round) ==> AllContinue(rounds + [round]))
  {
  }

  /** One more round: the log, the transcription and the grammar. */
  lemma {:induction false} RoundsGrow(c: Setting, log: seq<Event>, rounds: seq<Round>, more: seq<Event>, round: Round)
    requires log == c.start + Flat(rounds) && AllContinue(rounds) && Transcribed(c, rounds)
    requires Wrote(log, more, round.record, round, c.scripts(|rounds|), c.wiring)
    ensures more == c.start + Flat(rounds + [round]) && Transcribed(c, rounds + [round]) && RunOk(rounds + [round])
    ensures Continues(round) ==> AllContinue(rounds + [round])
  {
    TranscribedSnoc(c, rounds, round);
    RunOkSnoc(rounds, round);
    FlatSnoc(rounds, round);
    Associates(c.start, Flat(rounds), RoundEvents(round));
  }

  lemma {:induction false} Associates(a: seq<Event>, b: seq<Event>, c: seq<Event>)
    ensures a + b + c == a + (b + c)
  {
  }

  lemma {:induction false} AskedSnoc(c: Setting, rounds: seq<Round>, requests: seq<Request>, round: Round, q: Request)
    requires Asked(c, rounds, requests)
    requires q.log == c.start + Flat(rounds) + Opt(round.record) && q.messages == Context(ActiveView(Rest(q.log, 0)))
    ensures Asked(c, rounds + [round], requests + [q])
  {
    var all := rounds + [round];
    forall i | 0 <= i < |all|
      ensures var r := (requests + [q])[i];
              r.log == c.start + Flat(all[..i]) + Opt(all[i].record) && r.messages == Context(ActiveView(Rest(r.log, 0)))
    {
      assert all[..i] == rounds[..i];
      if i == |rounds| {
        assert rounds[..i] == rounds;
      }
    }
  }

  lemma {:induction false} PassGoesOn(c: Setting, log: seq<Event>, rounds: seq<Round>, requests: seq<Request>,
                                      more: seq<Event>, record: Option<Event>, request: Option<Request>,
                                      round: Option<Round>)
    requires Running(c, log, rounds, requests) && |rounds| < c.limits.maxTurns
    requires Iterated(log, more, Returned(GoOn), record, request, round, c.scripts(|rounds|), c.wiring, c.limits.keepLastN, c.size)
    requires WellFormed(more)
    ensures round.Some?
    ensures Running(c, more, rounds + [round.value], Joined(requests, request))
  {
    PassIsSafe(c, log, rounds, requests, more, Returned(GoOn), record, request, round);
    RoundsGrow(c, log, rounds, more, round.value);
    assert Wrote(log, more, record, round.value, c.scripts(|rounds|), c.wiring);
    AskedSnoc(c, rounds, requests, round.value, request.value);
    RoundJoins(c.log0, log, record, round.value, c.limits.keepLastN, c.size);
  }

  lemma {:induction false} StopsWithRound(c: Setting, log: seq<Event>, rounds: seq<Round>, requests: seq<Request>,
                                          more: seq<Event>, why: StopReason, record: Option<Event>,
                                          round: Option<Round>)
    requires log == c.start + Flat(rounds) && AllContinue(rounds) && Transcribed(c, rounds)
    requires round.Some? && Wrote(log, more, record, round.value, c.scripts(|rounds|), c.wiring)
    requires Leaves(log, more, Stop(why), record, round, c.scripts(|rounds|))
    requires Safe(c, more, requests) && Asked(c, rounds + [round.value], requests)
    ensures RanToEnd(c, more, why, rounds + [round.value], requests, None)
  {
    RoundsGrow(c, log, rounds, more, round.value);
    StopsAfter(c, log, rounds, more, why, record, round);
    EndsRun(c, more, why, rounds + [round.value], requests, None);
  }

  lemma {:induction false} StopsWithoutRound(c: Setting, log: seq<Event>, rounds: seq<Round>, requests: seq<Request>,
                                             more: seq<Event>, why: StopReason, record: Option<Event>)
    requires log == c.start + Flat(rounds) && AllContinue(rounds) && Transcribed(c, rounds) && |rounds| < c.limits.maxTurns
    requires RecordedAt(log, record, c.limits.keepLastN, c.size)
    requires Leaves(log, more, Stop(why), record, None, c.scripts(|rounds|))
    requires Safe(c, more, requests) && Asked(c, rounds, requests)
    ensures RanToEnd(c, more, why, rounds, requests, record)
  {
    RecordIsCompaction(log, record, c.limits.keepLastN, c.size);
    StopsBefore(c, log, rounds, more, why, record);
    EndsRun(c, more, why, rounds, requests, record);
  }

  /** A pass that stops after a round, and one that stops before asking. */
  lemma {:induction false} PassStops(c: Setting, log: seq<Event>, rounds: seq<Round>, requests: seq<Request>,
                                     more: seq<Event>, why: StopReason, record: Option<Event>,
                                     request: Option<Request>, round: Option<Round>)
    returns (all: seq<Round>, tail: Option<Event>)
    requires Running(c, log, rounds, requests) && |rounds| < c.limits.maxTurns
    requires Iterated(log, more, Returned(Stop(why)), record, request, round, c.scripts(|rounds|), c.wiring, c.limits.keepLastN, c.size)
    requires WellFormed(more)
    ensures RanToEnd(c, more, why, all, Joined(requests, request), tail)
  {
    PassIsSafe(c, log, rounds, requests, more, Returned(Stop(why)), record, request, round);
    if round.Some? {
      all, tail := rounds + [round.value], None;
      AskedSnoc(c, rounds, requests, round.value, request.value);
      StopsWithRound(c, log, rounds, Joined(requests, request), more, why, record, round);
    } else {
      all, tail := rounds, record;
      StopsWithoutRound(c, log, rounds, Joined(requests, request), more, why, record);
    }
  }

  /** What holds after a pass: the loop goes on, has come to its end, or is left by an exception. */
  ghost predicate After(c: Setting, log: seq<Event>, step: Outcome<Step>, rounds: seq<Round>, requests: seq<Request>,
                        tail: Option<Event>) {
    match step
    case Raised => Safe(c, log, requests)
    case Returned(s) =>
      if s.GoOn? then Running(c, log, rounds, requests) else RanToEnd(c, log, s.why, rounds, requests, tail)
  }

  lemma {:induction false} PassDone(c: Setting, log: seq<Event>, rounds: seq<Round>, requests: seq<Request>,
                                    more: seq<Event>, step: Outcome<Step>, record: Option<Event>,
                                    request: Option<Request>, round: Option<Round>)
    returns (rounds': seq<Round>, requests': seq<Request>, tail: Option<Event>)
    requires Running(c, log, rounds, requests) && |rounds| < c.limits.maxTurns && WellFormed(more)
    requires Iterated(log, more, step, record, request, round, c.scripts(|rounds|), c.wiring, c.limits.keepLastN, c.size)
    ensures After(c, more, step, rounds', requests', tail)
    ensures step == Returned(GoOn) ==> |rounds'| == |rounds| + 1
    ensures request.Some? ==> |requests'| == |rounds| + 1
  {
    rounds', requests', tail := rounds, Joined(requests, request), None;
    if step.Raised? {
      PassIsSafe(c, log, rounds, requests, more, step, record, request, round);
    } else if step.value.Stop? {
      rounds', tail := PassStops(c, log, rounds, requests, more, step.value.why, record, request, round);
    } else {
      PassGoesOn(c, log, rounds, requests, more, record, request, round);
      rounds' := rounds + [round.value];
    }
  }

  lemma {:induction false} EndsRun(c: Setting, log: seq<Event>, why: StopReason, rounds: seq<Round>,
                                   requests: seq<Request>, tail: Option<Event>)
    requires Safe(c, log, requests) && Asked(c, rounds, requests) && RunOk(rounds) && Transcribed(c, rounds)
    requires log == c.start + Flat(rounds) || log == c.start + Flat(rounds) + Opt(tail)
    requires tail.None? || (log == c.start + Flat(rounds) + Opt(tail) && why == NoUserTurn && IsCompaction(tail.value))
    requires StopsFor(why, rounds, c.limits, c.scripts, log)
    ensures RanToEnd(c, log, why, rounds, requests, tail)
  {
    assert tail.None? ==> c.start + Flat(rounds) + Opt(tail) == c.start + Flat(rounds);
  }

  lemma {:induction false} StopsAfter(c: Setting, log: seq<Event>, rounds: seq<Round>, more: seq<Event>,
                                      why: StopReason, record: Option<Event>, round: Option<Round>)
    requires round.Some? && Leaves(log, more, Stop(why), record, round, c.scripts(|rounds|))
    ensures StopsFor(why, rounds + [round.value], c.limits, c.scripts, more)
  {
  }

  lemma {:induction false} StopsBefore(c: Setting, log: seq<Event>, rounds: seq<Round>, more: seq<Event>,
                                       why: StopReason, record: Option<Event>)
    requires AllContinue(rounds) && |rounds| < c.limits.maxTurns
    requires Leaves(log, more, Stop(why), record, None, c.scripts(|rounds|))
    ensures StopsFor(why, rounds, c.limits, c.scripts, more) && RunOk(rounds)
    ensures more == log + Opt(record) && (record.Some? ==> why == NoUserTurn)
  {
    assert record.None? ==> log + Opt(record) == log;
  }

  lemma {:induction false} TurnsUsedUp(c: Setting, log: seq<Event>, rounds: seq<Round>, requests: seq<Request>)
    requires Running(c, log, rounds, requests) && |rounds| == c.limits.maxTurns
    ensures RanToEnd(c, log, MaxTurns, rounds, requests, None)
  {
    assert c.start + Flat(rounds) + Opt(None) == c.start + Flat(rounds);
  }

  // ---- Sandbox records of a run ---------------------------------------------------------------------------

  /** A run that read whole logs records at most one sandbox more than it found lost. */
  lemma {:induction false} RecordsAreBounded(log0: seq<Event>, a: Snapshot, b: Snapshot, ids: set<string>, named: bool)
    requires NoRecords(log0, a.log) && a.lost == {} && Serves(a, b, ids, |log0|, named)
    requires named && |b.log| <= DEFAULT_EVENTS_LIMIT && UniqueIds(b.log)
    ensures |log0| <= |b.log| && RecordCount(b.log, |log0|) <= 1 + |b.lost|
  {
    assert OnlyLostAreReplaced(a.log, |log0|, {});
    RecordsBoundedByLosses(b.log, |log0|, b.lost);
  }

  lemma {:induction false} RecordsWithoutServing(log0: seq<Event>, log: seq<Event>)
    requires NoRecords(log0, log)
    ensures RecordCount(log, |log0|) == 0
    decreases |log|
  {
    if |log| > |log0| {
      RecordsWithoutServing(log0, log[..|log| - 1]);
    }
  }

  /** What the run starts the loop with: the log with the system prompt in it. */
  ghost predicate Seeds(log0: seq<Event>, start: seq<Event>, systemPrompt: string) {
    start == log0 || start == log0 + [PromptEvent(systemPrompt, |log0| + 1)]
  }

  /** What holds when the loop is entered. */
  ghost predicate Starts(c: Setting, log: seq<Event>) {
    && Running(c, log, [], []) && log == c.start && c.log0 <= c.start
    && NoRecords(c.log0, log) && (Anchored(c.log0) ==> Anchored(log))
  }

  lemma {:induction false} SeedStarts(c: Setting, systemPrompt: string)
    requires Seeds(c.log0, c.start, systemPrompt) && WellFormed(c.start)
    ensures Starts(c, c.start)
  {
    assert c.start + Flat([]) == c.start;
    if c.start != c.log0 {
      PromptJoins(c.log0, systemPrompt, c.limits.keepLastN, c.size);
      if Anchored(c.log0) {
        PlainKeepsAnchored(c.log0, c.start);
      }
    }
  }

  /** A run that is left before the loop. */
  lemma {:induction false} NothingRan(c: Setting, use: Use)
    requires Starts(c, c.start)
    ensures Safe(c, c.start, []) && RecordCount(c.start, |c.log0|) == 0
    ensures DestroysWhatItUsed(use, use) && AllRequested(use, use, c.start)
  {
    assert use.executed[|use.executed|..] == [];
    RecordsWithoutServing(c.log0, c.start);
    DestroysNothing(use);
  }

  /** The `no_user_turn` exit needs a log whose first user message is missing or says nothing. */
  lemma {:induction false} NoUserTurnNeedsSilence(c: Setting, log: seq<Event>, why: StopReason, rounds: seq<Round>,
                                                  requests: seq<Request>, tail: Option<Event>)
    requires RanToEnd(c, log, why, rounds, requests, tail) && c.log0 <= c.start && Anchored(c.start)
    requires AnchorSpeaks(Rest(c.log0, 0))
    ensures why != NoUserTurn
  {
    UserTurnIsFound(c.log0, log);
  }
}
