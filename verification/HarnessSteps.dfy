/** What each step of the harness leaves behind, said of values: the logs before and after it, and its locals. */
module HarnessSteps {
  import opened Values
  import opened Events
  import R = Rounds
  import Shown
  import opened SessionProtocol
  import opened SessionReads
  import SandboxService
  import opened CompactionStack
  import opened Lifecycle
  import opened Turns

  const BUILTIN_TOOL_NAMES: set<string> := {"bash", "python", "file_read", "file_write", "file_edit", "file_list"}

  /** `str(call.id)` under the key the adapters look it up by. */
  predicate AnswersCall(payload: Payload, call: Uuid) {
    Get(payload, "tool_call_id") == Id(call)
  }

  /** The result ids of these calls are unused, so emitting them appends. */
  ghost predicate Answerable(log: seq<Event>, calls: seq<Pending>, n: nat) {
    && (forall i :: 0 <= i < |calls| ==> Fresh(log, ToolResultId(calls[i].id)) && Source(calls[i].id) < n)
    && (forall i, j :: 0 <= i < j < |calls| ==> calls[i].id != calls[j].id)
  }

  datatype TurnResult = TurnResult(toolCalls: seq<Pending>, errored: bool)

  ghost predicate TurnOk(stream: seq<Event>, closer: Option<Event>, failure: Option<Event>, result: TurnResult) {
    && StreamOk(stream) && AllPersisted(result.toolCalls, CallsOf(stream))
    && (if result.errored then failure.Some? && failure.value.kind == Error && closer.None?
        else failure.None? && CloserOk(stream, closer))
  }

  lemma {:induction false} NumberedAnswerable(log: seq<Event>, n: nat, stream: seq<Event>, rest: seq<Event>,
                                              calls: seq<Pending>, m: nat)
    requires Below(log, n) && Numbered(stream, n) && Numbered(rest, n) && Below(log + stream + rest, m)
    requires UniqueIds(log + stream + rest) && AllPersisted(calls, CallsOf(stream))
    ensures Answerable(log + stream + rest, calls, m)
  {
    CallsInOrder(stream);
    var all := log + stream + rest;
    forall i | 0 <= i < |calls|
      ensures Fresh(all, ToolResultId(calls[i].id)) && Source(calls[i].id) < m
    {
      assert Persisted(calls[i], CallsOf(stream)[i]);
      assert CallsOf(stream)[i] in all;
    }
    CallsDistinct(stream);
    assert UniqueIds(stream) by { assert forall k :: 0 <= k < |stream| ==> all[|log| + k] == stream[k]; }
  }

  lemma {:induction false} CallsInOrder(stream: seq<Event>)
    ensures forall c :: c in CallsOf(stream) ==> c in stream && IsCall(c)
  {
    if stream != [] {
      CallsInOrder(stream[..|stream| - 1]);
      assert stream == stream[..|stream| - 1] + [stream[|stream| - 1]];
    }
  }

  lemma {:induction false} CallsDistinct(stream: seq<Event>)
    ensures UniqueIds(stream) ==> forall i,
                      j :: 0 <= i < j < |CallsOf(stream)| ==> CallsOf(stream)[i].id != CallsOf(stream)[j].id
  {
    if stream != [] && UniqueIds(stream) {
      var n := |stream| - 1;
      CallsDistinct(stream[..n]);
      CallsInOrder(stream[..n]);
      forall c | c in CallsOf(stream[..n]) ensures c.id != stream[n].id {
        var k :| 0 <= k < n && stream[..n][k] == c;
        assert stream[k] == c;
      }
    }
  }

  /** What reading the stream without an exception leaves. */
  ghost predicate HasRead(start: seq<Event>, log: seq<Event>, first: nat, chunks: seq<Chunk>, errored: bool,
                          textParts: seq<string>, toolCalls: seq<Pending>, usage: Option<Json>, stream: seq<Event>,
                          failure: Option<Event>, count: nat) {
    && log == start + stream + Opt(failure)
    && Numbered(stream, first) && Numbered(Opt(failure), first)
    && Streamed(stream, textParts, toolCalls)
    && (failure.Some? ==> failure.value.kind == Error) && errored == failure.Some?
    && Reads(chunks, count, errored) && LoggedAs(chunks[..count], stream + Opt(failure))
    && (!errored ==> usage == LastUsage(chunks))
  }

  /** The log, the ghost stream and the locals of the loop over the chunks, before chunk `i`. */
  ghost predicate Reading(start: seq<Event>, log: seq<Event>, first: nat, chunks: seq<Chunk>, i: nat,
                          textParts: seq<string>, toolCalls: seq<Pending>, usage: Option<Json>, stream: seq<Event>) {
    log == start + stream && Spoke(start, log) && Progress(chunks, i, first, stream, textParts, toolCalls, usage)
  }

  lemma {:induction false} ReadNothing(start: seq<Event>, first: nat, chunks: seq<Chunk>)
    ensures Reading(start, start, first, chunks, 0, [], [], None, [])
  {
    assert start + [] == start;
  }

  /** A chunk that becomes no event. */
  lemma {:induction false} ReadSkipped(start: seq<Event>, log: seq<Event>, first: nat, chunks: seq<Chunk>, i: nat,
                                       textParts: seq<string>, toolCalls: seq<Pending>, usage: Option<Json>,
                                       stream: seq<Event>)
    requires Reading(start, log, first, chunks, i, textParts, toolCalls, usage, stream)
    requires i < |chunks| && Unlogged(chunks[i])
    ensures Reading(start, log, first, chunks, i + 1, textParts, toolCalls,
                    if chunks[i].Usage? then Some(UsageJson(chunks[i])) else usage, stream)
  {
    SkipChunk(chunks, i, first, stream, textParts, toolCalls, usage);
  }

  lemma {:induction false} LogGrows(start: seq<Event>, log: seq<Event>, stream: seq<Event>, e: Event)
    requires log == start + stream && Spoke(start, log)
    requires e.kind == AssistantMessage || e.kind == ToolCall || e.kind == Error
    ensures log + [e] == start + (stream + [e]) && Spoke(start, log + [e])
  {
    SpokeSnoc(start, log, e);
  }

  lemma {:induction false} ReadDelta(start: seq<Event>, log: seq<Event>, first: nat, chunks: seq<Chunk>, i: nat,
                                     textParts: seq<string>, toolCalls: seq<Pending>, usage: Option<Json>,
                                     stream: seq<Event>, e: Event)
    requires Reading(start, log, first, chunks, i, textParts, toolCalls, usage, stream)
    requires i < |chunks| && chunks[i].TextDelta? && Logs(chunks[i], e.kind, e.payload)
    requires e.id.Random? && e.id.n >= first
    ensures Reading(start, log + [e], first, chunks, i + 1, textParts + [chunks[i].text], toolCalls, usage, stream + [e])
  {
    LogGrows(start, log, stream, e);
    TakeDelta(chunks, i, first, stream, textParts, toolCalls, usage, e);
  }

  lemma {:induction false} ReadCall(start: seq<Event>, log: seq<Event>, first: nat, chunks: seq<Chunk>, i: nat,
                                    textParts: seq<string>, toolCalls: seq<Pending>, usage: Option<Json>,
                                    stream: seq<Event>, e: Event, p: Pending)
    requires Reading(start, log, first, chunks, i, textParts, toolCalls, usage, stream)
    requires i < |chunks| && chunks[i].ToolEnd? && Logs(chunks[i], e.kind, e.payload) && Persisted(p, e)
    requires e.id.Random? && e.id.n >= first
    ensures Reading(start, log + [e], first, chunks, i + 1, textParts, toolCalls + [p], usage, stream + [e])
  {
    LogGrows(start, log, stream, e);
    TakeCall(chunks, i, first, stream, textParts, toolCalls, usage, e, p);
  }

  lemma {:induction false} ReadFailure(start: seq<Event>, log: seq<Event>, first: nat, chunks: seq<Chunk>, i: nat,
                                       textParts: seq<string>, toolCalls: seq<Pending>, usage: Option<Json>,
                                       stream: seq<Event>, e: Event)
    requires Reading(start, log, first, chunks, i, textParts, toolCalls, usage, stream)
    requires i < |chunks| && chunks[i].Failure? && e.id.Random? && e.id.n >= first
    requires Logs(chunks[i], e.kind, e.payload)
    ensures HasRead(start, log + [e], first, chunks, true, textParts, toolCalls, usage, stream, Some(e), i + 1)
  {
    TakeFailure(chunks, i, first, stream, textParts, toolCalls, usage, e);
  }

  lemma {:induction false} ReadAll(start: seq<Event>, log: seq<Event>, first: nat, chunks: seq<Chunk>,
                                   textParts: seq<string>, toolCalls: seq<Pending>, usage: Option<Json>,
                                   stream: seq<Event>)
    requires Reading(start, log, first, chunks, |chunks|, textParts, toolCalls, usage, stream)
    ensures HasRead(start, log, first, chunks, false, textParts, toolCalls, usage, stream, None, |chunks|)
  {
    assert chunks[..|chunks|] == chunks;
    assert stream + Opt(None) == stream && log + Opt(None) == log;
  }

  /** What a turn without an exception leaves: the events its chunks turned into, then the consolidated text or the
      error, and calls whose result ids are still unused. */
  ghost predicate HasTurned(start: seq<Event>, log: seq<Event>, next: nat, chunks: seq<Chunk>, result: TurnResult,
                            stream: seq<Event>, closer: Option<Event>, failure: Option<Event>, count: nat) {
    && log == start + stream + (Opt(closer) + Opt(failure))
    && TurnOk(stream, closer, failure, result)
    && Answerable(log, result.toolCalls, next)
    && Reads(chunks, count, result.errored) && LoggedAs(chunks[..count], stream + Opt(failure))
    && (!result.errored ==> ClosesWith(chunks, closer))
  }

  lemma {:induction false} TurnsSilently(start: seq<Event>, log: seq<Event>, first: nat, next: nat,
                                         chunks: seq<Chunk>, errored: bool, textParts: seq<string>,
                                         toolCalls: seq<Pending>, usage: Option<Json>, stream: seq<Event>,
                                         failure: Option<Event>, count: nat)
    requires HasRead(start, log, first, chunks, errored, textParts, toolCalls, usage, stream, failure, count)
    requires textParts == [] || errored
    requires Below(start, first) && Below(log, next) && UniqueIds(log)
    ensures HasTurned(start, log, next, chunks, TurnResult(toolCalls, errored), stream, None, failure, count)
  {
    assert log == start + stream + (Opt(None) + Opt(failure));
    if !errored {
      assert chunks[..count] == chunks && stream + Opt(failure) == stream;
      CloserCloses(chunks, stream, None);
    }
    NumberedAnswerable(start, first, stream, Opt(None) + Opt(failure), toolCalls, next);
  }

  lemma {:induction false} TurnsWithText(start: seq<Event>, log: seq<Event>, first: nat, next: nat,
                                         chunks: seq<Chunk>, textParts: seq<string>, toolCalls: seq<Pending>,
                                         usage: Option<Json>, stream: seq<Event>, count: nat, c: Event)
    requires HasRead(start, log, first, chunks, false, textParts, toolCalls, usage, stream, None, count)
    requires textParts != [] && c.id.Random? && c.id.n >= first
    requires c.kind == AssistantMessage && c.payload == CloserPayload(Join(textParts), usage)
    requires Below(start, first) && Below(log + [c], next) && UniqueIds(log + [c])
    ensures HasTurned(start, log + [c], next, chunks, TurnResult(toolCalls, false), stream, Some(c), None, count)
  {
    assert log + [c] == start + stream + (Opt(Some(c)) + Opt(None));
    assert chunks[..count] == chunks && stream + Opt(None) == stream;
    CloserCloses(chunks, stream, Some(c));
    NumberedAnswerable(start, first, stream, Opt(Some(c)) + Opt(None), toolCalls, next);
  }

  lemma {:induction false} BelowSnoc(log: seq<Event>, n: nat, e: Event)
    requires Below(log, n) && Source(e.id) < n
    ensures Below(log + [e], n)
  {
  }

  /** What a completion appends: assistant messages, tool calls and errors. */
  ghost predicate Spoke(start: seq<Event>, log: seq<Event>) {
    && start <= log
    && forall i :: |start| <= i < |log| ==> log[i].kind == AssistantMessage || log[i].kind == ToolCall || log[i].kind == Error
  }

  lemma {:induction false} SpokeSnoc(start: seq<Event>, log: seq<Event>, e: Event)
    requires Spoke(start, log) && (e.kind == AssistantMessage || e.kind == ToolCall || e.kind == Error)
    ensures Spoke(start, log + [e])
  {
  }

  lemma {:induction false} SpokeIsPlain(start: seq<Event>, log: seq<Event>)
    requires Spoke(start, log)
    ensures Plain(start, log) && NoRecords(start, log)
  {
  }

  // ---- What a call asks for ------------------------------------------------------------------

  function ToolName(call: Payload): string {
    var name := TextOf(Get(call, "tool_name"));
    if name.Some? then name.value else ""
  }

  function ToolInput(call: Payload): Payload {
    var input := GetOr(call, "input", Obj(map[]));
    if input.Obj? then input.o else map[]
  }

  /** The tool a call names; one without a name is the nameless tool. */
  predicate Calls(call: Payload, tool: string) {
    if "tool_name" in call && Shown.IsText(call["tool_name"]) then Shown.Tells(call, "tool_name", tool) else tool == ""
  }

  /** The input a call has, if it is a mapping. */
  predicate Feeds(call: Payload, input: Payload) {
    input == if "input" in call && call["input"].Obj? then call["input"].o else map[]
  }

  lemma {:induction false} NameAndInput(call: Payload, tool: string, input: Payload)
    ensures Calls(call, tool) <==> tool == ToolName(call)
    ensures Feeds(call, input) <==> input == ToolInput(call)
  {
  }

  /** A tool_call in the log asks for exactly this. */
  predicate AsksFor(e: Event, x: Execution) {
    e.kind == ToolCall && x.tool in BUILTIN_TOOL_NAMES && Calls(e.payload, x.tool) && Feeds(e.payload, x.input)
  }

  ghost predicate Requested(log: seq<Event>, x: Execution) {
    exists e :: e in log && AsksFor(e, x)
  }

  /** Whatever ran between `a` and `b` was asked for by a tool_call in the log. */
  ghost predicate AllRequested(a: Use, b: Use, log: seq<Event>) {
    a.executed <= b.executed && forall x :: x in b.executed[|a.executed|..] ==> Requested(log, x)
  }

  lemma {:induction false} RequestedThen(a: Use, b: Use, c: Use, log: seq<Event>, more: seq<Event>)
    requires AllRequested(a, b, log) && AllRequested(b, c, more) && log <= more
    ensures AllRequested(a, c, more)
  {
    forall x | x in c.executed[|a.executed|..] ensures Requested(more, x) {
      if x in b.executed[|a.executed|..] {
        var e :| e in log && AsksFor(e, x);
        assert e in more;
      } else {
        assert x in c.executed[|b.executed|..] by {
          assert c.executed[|a.executed|..] == b.executed[|a.executed|..] + c.executed[|b.executed|..];
        }
      }
    }
  }

  lemma {:induction false} RequestedOne(a: Use, b: Use, log: seq<Event>, e: Event, x: Execution)
    requires e in log && AsksFor(e, x) && (b.executed == a.executed || b.executed == a.executed + [x])
    ensures AllRequested(a, b, log)
  {
    assert (a.executed + [x])[|a.executed|..] == [x] && a.executed[|a.executed|..] == [];
  }

  // ---- What serving tool calls does ------------------------------------------------------

  /** The log, what the sandbox service was asked, and the sandboxes found lost. */
  datatype Snapshot = Snapshot(log: seq<Event>, use: Use, lost: set<string>)

  /** From `a` to `b` these sandboxes were used, for what the log asks, and every replaced sandbox was found lost. */
  ghost predicate Serves(a: Snapshot, b: Snapshot, ids: set<string>, base: nat, named: bool) {
    && Uses(a.use, b.use, ids) && AllRequested(a.use, b.use, b.log)
    && Bookkeeping(a.log, b.log, base, a.lost, b.lost, named)
  }

  lemma {:induction false} ServesNothing(a: Snapshot, more: seq<Event>, base: nat, named: bool)
    requires NoRecords(a.log, more)
    ensures Serves(a, a.(log := more), {}, base, named)
  {
    UsesNothing(a.use);
    assert a.use.executed[|a.use.executed|..] == [];
    BookNoRecords(a.log, more, base, a.lost, named);
  }

  lemma {:induction false} SpeakingServes(a: Snapshot, more: seq<Event>, base: nat, named: bool)
    requires Spoke(a.log, more)
    ensures Plain(a.log, more) && Serves(a, a.(log := more), {}, base, named)
  {
    SpokeIsPlain(a.log, more);
    ServesNothing(a, more, base, named);
  }

  /** A completion, then the answers to its calls. */
  lemma {:induction false} AnsweringServes(a: Snapshot, b: Snapshot, c: Snapshot, ids: set<string>, base: nat,
                                           named: bool)
    requires Spoke(a.log, b.log) && b == a.(log := b.log)
    requires Plain(b.log, c.log) && Serves(b, c, ids, base, named)
    ensures Plain(a.log, c.log) && Serves(a, c, ids, base, named)
  {
    SpeakingServes(a, b.log, base, named);
    PlainThen(a.log, b.log, c.log);
    ServesAfter(a, b, c, ids, base, named);
  }

  /** Serving after nothing was served yet. */
  lemma {:induction false} ServesAfter(a: Snapshot, b: Snapshot, c: Snapshot, ids: set<string>, base: nat, named: bool)
    requires Serves(a, b, {}, base, named) && Serves(b, c, ids, base, named)
    ensures Serves(a, c, ids, base, named)
  {
    ServesThen(a, b, c, {}, ids, base, named);
    assert {} + ids == ids;
  }

  lemma {:induction false} ServesThen(a: Snapshot, b: Snapshot, c: Snapshot, x: set<string>, y: set<string>,
                                      base: nat, named: bool)
    requires Serves(a, b, x, base, named) && Serves(b, c, y, base, named)
    ensures Serves(a, c, x + y, base, named)
  {
    UsesThen(a.use, b.use, c.use, x, y);
    RequestedThen(a.use, b.use, c.use, b.log, c.log);
    BookThen(a.log, b.log, c.log, base, a.lost, b.lost, c.lost, named);
  }

  // ---- Payloads of tool results ------------------------------------------------------------

  /** An error whose text is told to the model. */
  predicate Fails(p: Payload, text: string) {
    && Get(p, "is_error") == Bool(true)
    && "content" in p && p["content"] == Str(text) && "error" in p && p["error"] == Str(text)
  }

  /** The payload is about this call of this tool. */
  predicate Tags(p: Payload, call: Uuid, toolName: string) {
    AnswersCall(p, call) && Get(p, "tool_name") == Str(toolName)
  }

  method FailurePayload(call: Uuid, toolName: string, error: string) returns (p: Payload)
    ensures Tags(p, call, toolName) && Fails(p, error)
  {
    p := map["tool_call_id" := Id(call), "tool_name" := Str(toolName), "is_error" := Bool(true),
             "error" := Str(error), "content" := Str(error)];
  }

  method ResultPayload(call: Uuid, toolName: string, result: SandboxService.ToolResult) returns (p: Payload)
    ensures Tags(p, call, toolName) && Quotes(p, result)
  {
    p := map["tool_call_id" := Id(call), "tool_name" := Str(toolName), "is_error" := Bool(result.isError),
             "content" := Str(result.content), "error" := if result.error.Some? then Str(result.error.value) else Null];
  }

  /** What the outside world does to one tool call: the backend's view of the recorded sandbox, the id of a new one and
      its runtime, the tool's result there, what the proxy answers (None: an exception), and an exception's text. */
  datatype ToolScript = ToolScript(view: Option<SandboxService.Status>, provision: Option<string>, runtime: string,
                                   reply: Option<SandboxService.ToolResult>, proxied: SandboxService.ToolResult, reason: string)

  /** No backend hands out a sandbox whose id is empty. */
  ghost predicate Named(tools: nat -> ToolScript) {
    forall k :: tools(k).provision != Some("")
  }

  /** What the check of the recorded sandbox finds: an exception, the sandbox while it is live, or none. */
  function Checked(status: map<string, SandboxService.Status>, seen: Option<string>,
                   view: Option<SandboxService.Status>):
    Outcome<Option<string>> {
    if seen.None? then Returned(None)
    else if view.None? then Raised
    else Returned(if SandboxService.Live(SandboxService.Reported(status, seen.value, view.value)) then seen else None)
  }

  /** The sandbox the harness gets when its own calls of the session service succeed. */
  function Obtained(log: seq<Event>, status: map<string, SandboxService.Status>, script: ToolScript): Outcome<string> {
    var checked := Checked(status, LatestSandbox(Rest(log, 0)), script.view);
    if checked.Raised? then Raised
    else if checked.value.Some? then Returned(checked.value.value)
    else if script.provision.Some? then Returned(script.provision.value)
    else Raised
  }

  ghost predicate AtMostRecord(log: seq<Event>, more: seq<Event>, provision: Option<string>) {
    || more == log
    || (provision.Some? && |more| == |log| + 1 && more == log + [more[|log|]]
        && more[|log|].id == SandboxProvisionedId(provision.value) && IsSandboxProvisioned(more[|log|]))
  }

  /** Reads of at most a thousand events and named sandboxes keep track of every replaced sandbox. */
  ghost predicate Bookkeeping(log: seq<Event>, more: seq<Event>, base: nat, lost: set<string>, lost': set<string>,
                              named: bool) {
    && lost <= lost' && log <= more
    && (|more| <= DEFAULT_EVENTS_LIMIT && named && base <= |log| && OnlyLostAreReplaced(log, base, lost) ==>
          OnlyLostAreReplaced(more, base, lost'))
  }

  lemma {:induction false} BookThen(a: seq<Event>, b: seq<Event>, c: seq<Event>, base: nat, la: set<string>,
                                    lb: set<string>, lc: set<string>, named: bool)
    requires Bookkeeping(a, b, base, la, lb, named) && Bookkeeping(b, c, base, lb, lc, named)
    ensures Bookkeeping(a, c, base, la, lc, named)
  {
  }

  lemma {:induction false} BookNoRecords(log: seq<Event>, more: seq<Event>, base: nat, lost: set<string>, named: bool)
    requires NoRecords(log, more)
    ensures Bookkeeping(log, more, base, lost, lost, named)
  {
    if base <= |log| && OnlyLostAreReplaced(log, base, lost) {
      NoRecordsKeepLost(log, more, base, lost);
    }
  }

  lemma {:induction false} GhostIsMonotone(log: seq<Event>, base: nat, lost: set<string>, lost': set<string>)
    requires lost <= lost'
    ensures base <= |log| && OnlyLostAreReplaced(log, base, lost) ==> OnlyLostAreReplaced(log, base, lost')
  {
  }

  function ProvisionedEvent(id: string, runtime: string, sequence: nat): Event {
    Event(SandboxProvisionedId(id), sequence, SystemEvent, ProvisionedPayload(id, runtime))
  }

  /** The record of a sandbox provisioned when there was none, or when the latest was found lost, whether or not the
      emit went through. */
  lemma {:induction false} BookRecord(log: seq<Event>, more: seq<Event>, base: nat, lost: set<string>,
                                      lost': set<string>, id: string, runtime: string, named: bool)
    requires lost <= lost' && (named ==> id != "")
    requires |log| < DEFAULT_EVENTS_LIMIT && LatestSandbox(log).Some? ==> LatestSandbox(log).value in lost'
    requires more == log || more == log + [ProvisionedEvent(id, runtime, |log| + 1)]
    ensures AtMostRecord(log, more, Some(id)) && Bookkeeping(log, more, base, lost, lost', named)
  {
    GhostIsMonotone(log, base, lost, lost');
    if |log| < DEFAULT_EVENTS_LIMIT && named && base <= |log| && OnlyLostAreReplaced(log, base, lost) {
      ReplaceLost(log, base, lost', ProvisionedEvent(id, runtime, |log| + 1));
    }
  }

  /** Payload of a sandbox tool: no sandbox, no result from it, or its result. */
  method SandboxPayload(call: Uuid, toolName: string, sandbox: Option<string>,
                        result: Option<SandboxService.ToolResult>, reason: string)
    returns (payload: Payload)
    ensures Tags(payload, call, toolName)
    ensures result.None? ==>
              Fails(payload, (if sandbox.None? then "sandbox provisioning failed: " else "sandbox execute failed: ") + reason)
    ensures result.Some? ==> Quotes(payload, result.value)
  {
    if sandbox.None? && result.None? {
      payload := FailurePayload(call, toolName, "sandbox provisioning failed: " + reason);
      return;
    }
    if result.None? {
      payload := FailurePayload(call, toolName, "sandbox execute failed: " + reason);
    } else {
      var r := result.value;
      payload := ResultPayload(call, toolName, r);
      payload := payload
        + map["stdout" := Str(r.stdout), "stderr" := Str(r.stderr),
              "exit_code" := if r.exitCode.Some? then Num(r.exitCode.value) else Null];
    }
    if sandbox.Some? {
      payload := payload["sandbox_id" := Str(sandbox.value)];
    }
  }

  /** What the runtime was built with. */
  datatype Wiring = Wiring(hasSandbox: bool, hasProxy: bool, proxyNames: set<string>)

  /** The tool_result says what this tool said: a sandbox tool's result or an error, a proxy tool's result, and an error
      for any other tool. */
  ghost predicate HonestFor(w: Wiring, tool: string, payload: Payload, script: ToolScript) {
    if tool in BUILTIN_TOOL_NAMES && w.hasSandbox then
      exists sandbox :: SandboxAnswers(payload, sandbox, script)
    else if tool in w.proxyNames && w.hasProxy then Quotes(payload, script.proxied)
    else Fails(payload, StubError(tool, w))
  }

  /** The tool_result says what the call's own tool said. */
  ghost predicate Honest(w: Wiring, call: Payload, payload: Payload, script: ToolScript) {
    forall tool :: Calls(call, tool) ==> HonestFor(w, tool, payload, script)
  }

  /** The payload of a sandbox tool for which the harness got this sandbox and this reply. */
  predicate SandboxAnswers(payload: Payload, sandbox: Outcome<string>, script: ToolScript) {
    if sandbox.Raised? then Fails(payload, "sandbox provisioning failed: " + script.reason)
    else if script.reply.None? then Fails(payload, "sandbox execute failed: " + script.reason)
    else Quotes(payload, script.reply.value)
  }

  predicate Quotes(payload: Payload, result: SandboxService.ToolResult) {
    Get(payload, "is_error") == Bool(result.isError) && Get(payload, "content") == Str(result.content)
  }

  /** Payload of a tool that runs outside the sandbox, or of one that cannot run. */
  method OtherPayload(call: Uuid, toolName: string, w: Wiring, proxied: SandboxService.ToolResult)
    returns (payload: Payload)
    ensures Tags(payload, call, toolName)
    ensures if toolName in w.proxyNames && w.hasProxy then Quotes(payload, proxied) else Fails(payload, StubError(toolName, w))
  {
    if toolName in w.proxyNames && w.hasProxy {
      payload := ResultPayload(call, toolName, proxied);
    } else {
      payload := FailurePayload(call, toolName, StubError(toolName, w));
    }
  }

  function StubError(toolName: string, w: Wiring): string {
    "tool '" + toolName + "'" + StubReason(toolName, w)
  }

  function StubReason(toolName: string, w: Wiring): string {
    if toolName in BUILTIN_TOOL_NAMES && !w.hasSandbox then
      " is a sandbox tool but no sandbox is configured for this runtime"
    else if toolName in w.proxyNames && !w.hasProxy then
      " is a proxy tool but no tool proxy is configured for this runtime"
    else
      " is not a registered sandbox or proxy tool"
  }

  /** What a call led to, by the tool and the input its payload has: a sandbox tool ran once, with that input, in the
      sandbox the harness got (unless the session service raised, the one it should get), and any other tool in none. */
  ghost predicate Dispatches(a: Snapshot, b: Snapshot, w: Wiring, call: Payload, payload: Payload, script: ToolScript,
                             status: map<string, SandboxService.Status>, serviceRaised: bool) {
    forall tool, input :: Calls(call, tool) && Feeds(call, input) ==>
      if tool in BUILTIN_TOOL_NAMES && w.hasSandbox then
        exists got :: RanIn(got, a, b, tool, input, payload, script)
                      && (!serviceRaised ==> got == Obtained(a.log, status, script))
      else b.use == a.use
  }

  ghost predicate RanIn(got: Outcome<string>, a: Snapshot, b: Snapshot, tool: string, input: Payload,
                        payload: Payload, script: ToolScript) {
    && SandboxAnswers(payload, got, script)
    && b.use.executed == a.use.executed
                         + if got.Returned? then [SandboxService.Execution(got.value, tool, input)] else []
  }

  lemma {:induction false} DispatchedToSandbox(a: Snapshot, b: Snapshot, w: Wiring, e: Event, payload: Payload,
                                               script: ToolScript, got: Outcome<string>,
                                               status: map<string, SandboxService.Status>, serviceRaised: bool)
    requires e in b.log && e.kind == ToolCall && ToolName(e.payload) in BUILTIN_TOOL_NAMES && w.hasSandbox
    requires RanIn(got, a, b, ToolName(e.payload), ToolInput(e.payload), payload, script)
    requires serviceRaised || got == Obtained(a.log, status, script)
    ensures Dispatches(a, b, w, e.payload, payload, script, status, serviceRaised)
    ensures Honest(w, e.payload, payload, script) && AllRequested(a.use, b.use, b.log)
  {
    var name, given := ToolName(e.payload), ToolInput(e.payload);
    forall tool, input ensures Calls(e.payload, tool) && Feeds(e.payload, input) <==> tool == name && input == given {
      NameAndInput(e.payload, tool, input);
    }
    forall tool | Calls(e.payload, tool) ensures tool == name {
      NameAndInput(e.payload, tool, given);
    }
    RequestedOne(a.use, b.use, b.log, e, SandboxService.Execution(if got.Returned? then got.value else "", name, given));
  }

  lemma {:induction false} DispatchedElsewhere(a: Snapshot, w: Wiring, call: Payload, payload: Payload,
                                               script: ToolScript, status: map<string, SandboxService.Status>)
    requires !(ToolName(call) in BUILTIN_TOOL_NAMES && w.hasSandbox) && HonestFor(w, ToolName(call), payload, script)
    ensures Dispatches(a, a, w, call, payload, script, status, false) && Honest(w, call, payload, script)
  {
    forall tool | Calls(call, tool) ensures tool == ToolName(call) {
      NameAndInput(call, tool, ToolInput(call));
    }
  }

  /** Why a tool cannot run. */
  datatype Obstacle = NoSandbox | NoProxy | Unknown

  function ObstacleOf(tool: string, w: Wiring): Obstacle {
    if tool in BUILTIN_TOOL_NAMES && !w.hasSandbox then NoSandbox
    else if tool in w.proxyNames && !w.hasProxy then NoProxy
    else Unknown
  }

  lemma {:induction false} ReasonLength(tool: string, w: Wiring)
    ensures |StubReason(tool, w)| == match ObstacleOf(tool, w) case NoSandbox => 64 case NoProxy => 65 case Unknown => 42
  {
  }

  lemma {:induction false} StubErrorNames(tool: string, w: Wiring)
    ensures "tool '" + tool + "'" <= StubError(tool, w)
    ensures |StubError(tool, w)| == |"tool '" + tool + "'"| + |StubReason(tool, w)|
  {
  }

  /** The error names the tool and tells the three obstacles apart. */
  lemma {:induction false} StubErrorsDiffer(tool: string, w: Wiring, v: Wiring)
    ensures "tool '" + tool + "'" <= StubError(tool, w)
    ensures StubError(tool, w) == StubError(tool, v) <==> ObstacleOf(tool, w) == ObstacleOf(tool, v)
  {
    StubErrorNames(tool, w);
    StubErrorNames(tool, v);
    ReasonLength(tool, w);
    ReasonLength(tool, v);
  }

  /** The first `i` calls are answered and the ids of the other results are unused. */
  ghost predicate Answering(start: seq<Event>, log: seq<Event>, calls: seq<Pending>, events: seq<Event>, i: nat,
                            answers: seq<Event>) {
    && AllPersisted(calls, events) && i <= |calls| && (forall e :: e in events ==> IsCall(e))
    && log == start + answers && AnswersOk(events[..i], answers)
    && (forall j :: i <= j < |calls| ==> Fresh(log, ToolResultId(calls[j].id)))
    && (forall j, k :: 0 <= j < k < |calls| ==> calls[j].id != calls[k].id)
  }

  lemma {:induction false} PlainThen(a: seq<Event>, b: seq<Event>, c: seq<Event>)
    requires Plain(a, b) && Plain(b, c)
    ensures Plain(a, c)
  {
    assert forall i :: |a| <= i < |b| ==> c[i] == b[i];
  }

  lemma {:induction false} ErasesRecord(answers: seq<Event>, record: Option<Event>, result: Event)
    requires IsResult(result) && (record.Some? ==> IsSandboxProvisioned(record.value))
    ensures EraseNoise(answers + Opt(record) + [result]) == EraseNoise(answers) + [result]
  {
    EraseNoiseConcat(answers + Opt(record), [result]);
    EraseNoiseConcat(answers, Opt(record));
    EraseOpt(record);
    EraseOpt(Some(result));
    assert EraseNoise(answers) + [] == EraseNoise(answers);
  }

  lemma {:induction false} AnsweredSnoc(calls: seq<Event>, results: seq<Event>, call: Event, result: Event)
    requires R.Answered(calls, results) && IsCall(call) && IsResult(result) && CallOf(result) == Some(call.id)
    ensures R.Answered(calls + [call], results + [result])
  {
  }

  lemma {:induction false} AnswersSnoc(events: seq<Event>, answers: seq<Event>, record: Option<Event>, call: Event,
                                       result: Event)
    requires AnswersOk(events, answers) && IsCall(call) && IsResult(result) && CallOf(result) == Some(call.id)
    requires record.Some? ==> IsSandboxProvisioned(record.value)
    ensures AnswersOk(events + [call], answers + Opt(record) + [result])
  {
    ErasesRecord(answers, record, result);
    AnsweredSnoc(events, EraseNoise(answers), call, result);
  }

  /** The k-th result, if there is one, says what the k-th call's own tool said. */
  ghost predicate HonestAt(w: Wiring, calls: seq<Event>, results: seq<Event>, scripts: nat -> ToolScript, k: nat) {
    k < |results| && k < |calls| ==> Honest(w, calls[k].payload, results[k].payload, scripts(k))
  }

  /** Each result says what its own call's tool said. */
  ghost predicate HonestResults(w: Wiring, calls: seq<Event>, results: seq<Event>, scripts: nat -> ToolScript) {
    forall k: nat :: HonestAt(w, calls, results, scripts, k)
  }

  ghost predicate HonestAnswers(w: Wiring, calls: seq<Event>, answers: seq<Event>, scripts: nat -> ToolScript) {
    HonestResults(w, calls, EraseNoise(answers), scripts)
  }

  lemma {:induction false} HonestStill(w: Wiring, calls: seq<Event>, results: seq<Event>, result: Event,
                                       scripts: nat -> ToolScript, k: nat)
    requires HonestAt(w, calls, results, scripts, k) && |results| < |calls|
    requires Honest(w, calls[|results|].payload, result.payload, scripts(|results|))
    ensures HonestAt(w, calls, results + [result], scripts, k)
  {
    var more := results + [result];
    if k < |results| {
      assert more[k] == results[k];
    } else if k == |results| {
      assert more[k] == result;
    }
  }

  lemma {:induction false} HonestMore(w: Wiring, calls: seq<Event>, results: seq<Event>, result: Event,
                                      scripts: nat -> ToolScript)
    requires HonestResults(w, calls, results, scripts) && |results| < |calls|
    requires Honest(w, calls[|results|].payload, result.payload, scripts(|results|))
    ensures HonestResults(w, calls, results + [result], scripts)
  {
    forall k: nat ensures HonestAt(w, calls, results + [result], scripts, k) {
      HonestStill(w, calls, results, result, scripts, k);
    }
  }

  lemma {:induction false} HonestSnoc(w: Wiring, calls: seq<Event>, answers: seq<Event>, record: Option<Event>,
                                      result: Event, scripts: nat -> ToolScript)
    requires HonestAnswers(w, calls, answers, scripts) && |EraseNoise(answers)| < |calls|
    requires IsResult(result) && (record.Some? ==> IsSandboxProvisioned(record.value))
    requires Honest(w, calls[|EraseNoise(answers)|].payload, result.payload, scripts(|EraseNoise(answers)|))
    ensures HonestAnswers(w, calls, answers + Opt(record) + [result], scripts)
  {
    ErasesRecord(answers, record, result);
    HonestMore(w, calls, EraseNoise(answers), result, scripts);
  }

  lemma {:induction false} RestStaysFresh(log: seq<Event>, mid: seq<Event>, result: Event, provision: Option<string>,
                                          id: Uuid)
    requires Fresh(log, ToolResultId(id)) && AtMostRecord(log, mid, provision) && result.id != ToolResultId(id)
    ensures Fresh(mid + [result], ToolResultId(id))
  {
  }

  lemma {:induction false} LogWithAnswer(start: seq<Event>, log: seq<Event>, mid: seq<Event>, answers: seq<Event>,
                                         record: Option<Event>, result: Event)
    requires log == start + answers && mid == log + Opt(record)
    ensures mid + [result] == start + (answers + Opt(record) + [result])
  {
  }

  /** One more call answered: the record of a sandbox, perhaps, and the result. */
  lemma {:induction false} AnswerStep(start: seq<Event>, log: seq<Event>, mid: seq<Event>, calls: seq<Pending>,
                                      events: seq<Event>, i: nat, answers: seq<Event>, provision: Option<string>,
                                      record: Option<Event>, result: Event)
    requires Answering(start, log, calls, events, i, answers) && i < |calls|
    requires AtMostRecord(log, mid, provision) && mid == log + Opt(record)
    requires record.Some? ==> IsSandboxProvisioned(record.value)
    requires IsResult(result) && AnswersCall(result.payload, calls[i].id) && result.id == ToolResultId(calls[i].id)
    ensures Answering(start, mid + [result], calls, events, i + 1, answers + Opt(record) + [result])
  {
    assert Persisted(calls[i], events[i]) && events[i] in events;
    AnswersSnoc(events[..i], answers, record, events[i], result);
    assert events[..i] + [events[i]] == events[..i + 1];
    LogWithAnswer(start, log, mid, answers, record, result);
    forall j | i + 1 <= j < |calls| ensures Fresh(mid + [result], ToolResultId(calls[j].id)) {
      RestStaysFresh(log, mid, result, provision, calls[j].id);
    }
  }

  // ---- Answering all calls ---------------------------------------------------------------------

  /** The calls to answer, as they are in memory and in the log, and what stays the same meanwhile. */
  datatype Job = Job(calls: seq<Pending>, events: seq<Event>, scripts: nat -> ToolScript, wiring: Wiring, base: nat,
                     named: bool, next: nat)

  ghost predicate JobOk(job: Job) {
    && AllPersisted(job.calls, job.events) && (forall e :: e in job.events ==> IsCall(e))
    && (job.named ==> Named(job.scripts))
  }

  /** Where answering the calls stands: `i` are answered, and these sandboxes were used for it. */
  ghost predicate Served(job: Job, before: Snapshot, now: Snapshot, i: nat, answers: seq<Event>, ids: set<string>) {
    && Plain(before.log, now.log) && Serves(before, now, ids, job.base, job.named)
    && Answering(before.log, now.log, job.calls, job.events, i, answers)
    && (forall e :: e in job.events ==> e in before.log)
    && HonestAnswers(job.wiring, job.events, answers, job.scripts)
  }

  lemma {:induction false} ServedNone(job: Job, now: Snapshot)
    requires JobOk(job) && Answerable(now.log, job.calls, job.next) && forall e :: e in job.events ==> e in now.log
    ensures Served(job, now, now, 0, [], {})
  {
    ServesNothing(now, now.log, job.base, job.named);
    assert now.log == now.log + [];
    assert job.events[..0] == [];
  }

  /** From `now` to `after` the next call was answered, or answering it raised. */
  ghost predicate AnsweredOne(job: Job, i: nat, now: Snapshot, after: Snapshot, ids: set<string>, answered: bool,
                              record: Option<Event>, result: Event)
    requires i < |job.calls|
  {
    var mid := now.log + Opt(record);
    && Plain(now.log, after.log) && Serves(now, after, ids, job.base, job.named)
    && (answered ==>
          && AtMostRecord(now.log, mid, job.scripts(i).provision)
          && (record.Some? ==> IsSandboxProvisioned(record.value)) && after.log == mid + [result]
          && IsResult(result) && result.id == ToolResultId(job.calls[i].id)
          && AnswersCall(result.payload, job.calls[i].id)
          && Honest(job.wiring, job.calls[i].payload, result.payload, job.scripts(i)))
  }

  lemma {:induction false} ServedMore(job: Job, before: Snapshot, now: Snapshot, after: Snapshot, i: nat,
                                      answers: seq<Event>, ids: set<string>, more: set<string>, record: Option<Event>,
                                      result: Event)
    requires JobOk(job) && Served(job, before, now, i, answers, ids) && i < |job.calls|
    requires AnsweredOne(job, i, now, after, more, true, record, result)
    ensures Served(job, before, after, i + 1, answers + Opt(record) + [result], ids + more)
  {
    PlainThen(before.log, now.log, after.log);
    ServesThen(before, now, after, ids, more, job.base, job.named);
    AnswerStep(before.log, now.log, now.log + Opt(record), job.calls, job.events, i, answers, job.scripts(i).provision,
               record, result);
    assert Persisted(job.calls[i], job.events[i]);
    HonestSnoc(job.wiring, job.events, answers, record, result, job.scripts);
  }

  /** Every call has its result, and each result is honest about its tool. */
  ghost predicate AnsweredAll(job: Job, log: seq<Event>, more: seq<Event>, answers: seq<Event>) {
    more == log + answers && AnswersOk(job.events, answers) && HonestAnswers(job.wiring, job.events, answers, job.scripts)
  }

  /** Where answering stands after one more call, or after answering it raised. */
  ghost predicate Serving(job: Job, before: Snapshot, now: Snapshot, i: nat, going: bool, answers: seq<Event>,
                          ids: set<string>) {
    if going then Served(job, before, now, i, answers, ids)
    else Plain(before.log, now.log) && Serves(before, now, ids, job.base, job.named)
  }

  lemma {:induction false} ServedOne(job: Job, before: Snapshot, now: Snapshot, after: Snapshot, i: nat,
                                     answers: seq<Event>, ids: set<string>, more: set<string>, answered: bool,
                                     record: Option<Event>, result: Event)
    returns (answers': seq<Event>)
    requires JobOk(job) && Served(job, before, now, i, answers, ids) && i < |job.calls|
    requires AnsweredOne(job, i, now, after, more, answered, record, result)
    ensures Serving(job, before, after, i + 1, answered, answers', ids + more)
  {
    answers' := answers + Opt(record) + [result];
    if answered {
      ServedMore(job, before, now, after, i, answers, ids, more, record, result);
    } else {
      PlainThen(before.log, now.log, after.log);
      ServesThen(before, now, after, ids, more, job.base, job.named);
    }
  }

  lemma {:induction false} RecordKeepsFresh(log: seq<Event>, more: seq<Event>, provision: Option<string>, call: Uuid)
    requires AtMostRecord(log, more, provision) && Fresh(log, ToolResultId(call))
    ensures Fresh(more, ToolResultId(call))
  {
  }

  lemma {:induction false} EmitsAnswer(job: Job, i: nat, now: Snapshot, mid: Snapshot, after: Snapshot,
                                       ids: set<string>, answered: bool, payload: Payload)
    returns (record: Option<Event>, result: Event)
    requires i < |job.calls| && Serves(now, mid, ids, job.base, job.named)
    requires AtMostRecord(now.log, mid.log, job.scripts(i).provision)
    requires AnswersCall(payload, job.calls[i].id) && Honest(job.wiring, job.calls[i].payload, payload, job.scripts(i))
    requires var e := Event(ToolResultId(job.calls[i].id), |mid.log| + 1, ToolResult, payload);
             after == mid.(log := mid.log + [e]) || (after == mid && !answered)
    ensures AnsweredOne(job, i, now, after, ids, answered, record, result)
  {
    record := if mid.log == now.log then None else Some(mid.log[|now.log|]);
    result := Event(ToolResultId(job.calls[i].id), |mid.log| + 1, ToolResult, payload);
    assert now.log + Opt(record) == mid.log;
    ServesResult(now, mid, ids, job.scripts(i).provision, result, job.base, job.named);
  }

  lemma {:induction false} ServedAll(job: Job, before: Snapshot, now: Snapshot, answers: seq<Event>, ids: set<string>)
    requires JobOk(job) && Served(job, before, now, |job.calls|, answers, ids)
    ensures AnsweredAll(job, before.log, now.log, answers)
  {
    assert job.events[..|job.calls|] == job.events;
  }

  /** A tool_result after the tool ran. */
  lemma {:induction false} ServesResult(a: Snapshot, b: Snapshot, ids: set<string>, provision: Option<string>,
                                        result: Event, base: nat, named: bool)
    requires Serves(a, b, ids, base, named) && AtMostRecord(a.log, b.log, provision) && IsResult(result)
    ensures Serves(a, b.(log := b.log + [result]), ids, base, named)
    ensures Plain(a.log, b.log) && Plain(a.log, b.log + [result])
  {
    ServesNothing(b, b.log + [result], base, named);
    ServesThen(a, b, b.(log := b.log + [result]), ids, {}, base, named);
    assert ids + {} == ids;
  }

  function PromptEvent(systemPrompt: string, sequence: nat): Event {
    Event(SystemPromptId, sequence, SystemEvent, map["type" := Str("system_prompt"), "content" := Str(systemPrompt)])
  }
}
