/** The harness loop: what a run appends to the log, what it sends to the model, and what it does to sandboxes. */
module Harness {
  import opened Values
  import opened Events
  import opened Adapters
  import opened SessionProtocol
  import opened SessionReads
  import opened SessionStore
  import SandboxService
  import opened Compaction
  import opened CompactionStack
  import opened Lifecycle
  import opened Turns
  import opened HarnessSteps
  import opened Runs

  class HarnessRuntime {
    const service: SessionService
    const sandbox: SandboxService.Sandbox?
    const hasProxy: bool                       // a tool proxy is wired
    const proxyNames: set<string>              // tools registered as proxy tools
    const size: Payload -> nat                 // characters of an encoded payload
    var nextRandom: nat                        // the next uuid4
    var provisioned: set<string>               // `provisioned_sandbox_ids` of the current run
    ghost var lost: set<string>                // sandboxes a status call reported as no longer live

    function Wired(): Wiring {
      Wiring(sandbox != null, hasProxy, proxyNames)
    }

    ghost predicate Valid()
      reads this, service
    {
      service.Valid() && Below(service.log, nextRandom)
    }

    constructor (service: SessionService, sandbox: SandboxService.Sandbox?, hasProxy: bool, proxyNames: set<string>,
                 size: Payload -> nat, nextRandom: nat)
      requires service.Valid() && Below(service.log, nextRandom)
      ensures Valid() && this.service == service && this.sandbox == sandbox && this.size == size
      ensures provisioned == {} && lost == {}
    {
      this.service, this.sandbox, this.hasProxy, this.proxyNames, this.size :=
        service, sandbox, hasProxy, proxyNames, size;
      this.nextRandom, provisioned, lost := nextRandom, {}, {};
    }

    method Emit(id: Uuid, kind: EventType, payload: Payload) returns (r: Outcome<Event>)
      requires Valid() && Source(id) < nextRandom
      modifies service`log, service`calls, service`raises
      ensures Valid()
      ensures Now() == old(Now()).(log := service.log)
      ensures service.log == old(service.log)
              || service.log == old(service.log) + [Event(id, |old(service.log)| + 1, kind, payload)]
      ensures r.Returned? && Fresh(old(service.log), id) ==>
                service.log == old(service.log) + [Event(id, |old(service.log)| + 1, kind, payload)]
      ensures !Fresh(old(service.log), id) ==> service.log == old(service.log)
      ensures service.raises == old(service.raises) + if r.Raised? then 1 else 0
    {
      BelowSnoc(service.log, nextRandom, Event(id, |service.log| + 1, kind, payload));
      r := service.EmitEvent(id, kind, payload);
    }

    /** The prompt is written once: the next run finds its identifier in the log. */
    method SeedSystemPromptIfNeeded(systemPrompt: string) returns (r: Outcome<()>)
      requires Valid()
      modifies service`log, service`calls, service`raises
      ensures Valid()
      ensures systemPrompt == "" || !Fresh(old(service.log), SystemPromptId) ==> service.log == old(service.log)
      ensures Seeds(old(service.log), service.log, systemPrompt)
      ensures r.Returned? && systemPrompt != "" && Fresh(old(service.log), SystemPromptId) ==>
                service.log == old(service.log) + [PromptEvent(systemPrompt, |old(service.log)| + 1)]
      ensures service.raises == old(service.raises) + if r.Raised? then 1 else 0
    {
      if systemPrompt == "" {
        return Returned(());
      }
      var e := Emit(SystemPromptId, SystemEvent, map["type" := Str("system_prompt"), "content" := Str(systemPrompt)]);
      r := if e.Returned? then Returned(()) else Raised;
    }

    /** Emitting under a new uuid4 appends, unless it raises. */
    method EmitNew(p: Pending) returns (r: Outcome<Event>)
      requires Valid() && p.id == Random(nextRandom)
      modifies service`log, service`calls, service`raises, `nextRandom
      ensures Valid() && nextRandom == old(nextRandom) + 1
      ensures Now() == old(Now()).(log := service.log)
      ensures var e := Event(p.id, |old(service.log)| + 1, p.kind, p.payload);
              && (service.log == old(service.log) || service.log == old(service.log) + [e])
              && (r.Returned? ==> service.log == old(service.log) + [e])
      ensures service.raises == old(service.raises) + if r.Raised? then 1 else 0
    {
      BelowFresh(service.log, nextRandom, p.id);
      nextRandom := nextRandom + 1;
      r := Emit(p.id, p.kind, p.payload);
    }

    /** The event a chunk turns into, if any. */
    method EmitChunk(chunk: Chunk, ghost start: seq<Event>) returns (r: Outcome<Option<Pending>>)
      requires Valid() && Spoke(start, service.log)
      modifies service`log, service`calls, service`raises, `nextRandom
      ensures Valid() && Spoke(start, service.log) && old(nextRandom) <= nextRandom
      ensures Now() == old(Now()).(log := service.log)
      ensures r.Returned? ==> (r.value.None? <==> Unlogged(chunk))
      ensures r.Returned? && r.value.Some? ==>
                var p := r.value.value; p.id == Random(old(nextRandom)) && Logs(chunk, p.kind, p.payload)
      ensures r.Returned? && r.value.None? ==> service.log == old(service.log)
      ensures r.Returned? && r.value.Some? ==>
                var p := r.value.value;
                service.log == old(service.log) + [Event(p.id, |old(service.log)| + 1, p.kind, p.payload)]
      ensures service.raises == old(service.raises) + if r.Raised? then 1 else 0
    {
      var pending := ChunkToEvent(chunk, Random(nextRandom));
      ChunkIsLogged(chunk, Random(nextRandom));
      if pending.None? {
        return Returned(None);
      }
      var p := pending.value;
      SpokeSnoc(start, service.log, Event(p.id, |service.log| + 1, p.kind, p.payload));
      var emitted := EmitNew(p);
      r := if emitted.Returned? then Returned(pending) else Raised;
    }

    /** One chunk: emitted, and remembered in the locals of the turn. */
    method TakeChunk(ghost chunks: seq<Chunk>, ghost i: nat, chunk: Chunk, parts0: seq<string>, calls0: seq<Pending>,
                     usage0: Option<Json>, ghost stream0: seq<Event>, ghost start: seq<Event>, ghost first: nat)
      returns (errored: Outcome<bool>, textParts: seq<string>, toolCalls: seq<Pending>, latestUsage: Option<Json>,
               ghost stream: seq<Event>, ghost failure: Option<Event>)
      requires Valid() && first <= nextRandom && i < |chunks| && chunk == chunks[i]
      requires Reading(start, service.log, first, chunks, i, parts0, calls0, usage0, stream0)
      modifies service`log, service`calls, service`raises, `nextRandom
      ensures Valid() && Spoke(start, service.log) && first <= nextRandom
      ensures errored == Returned(false) ==>
                Reading(start, service.log, first, chunks, i + 1, textParts, toolCalls, latestUsage, stream)
      ensures errored == Returned(true) ==>
                HasRead(start, service.log, first, chunks, true, textParts, toolCalls, latestUsage, stream, failure, i + 1)
      ensures service.raises == old(service.raises) + if errored.Raised? then 1 else 0
    {
      textParts, toolCalls, latestUsage, stream, failure := parts0, calls0, usage0, stream0, None;
      ghost var log := service.log;
      var pending := EmitChunk(chunk, start);
      if pending.Raised? {
        errored := Raised;
      } else if pending.value.None? {
        ReadSkipped(start, log, first, chunks, i, textParts, toolCalls, latestUsage, stream);
        if chunk.Usage? {
          latestUsage := Some(UsageJson(chunk));
        }
        errored := Returned(false);
      } else {
        var p := pending.value.value;
        ghost var e := Event(p.id, |log| + 1, p.kind, p.payload);
        if p.kind == Error {
          ReadFailure(start, log, first, chunks, i, textParts, toolCalls, latestUsage, stream, e);
          failure := Some(e);
        } else if p.kind == ToolCall {
          ReadCall(start, log, first, chunks, i, textParts, toolCalls, latestUsage, stream, e, p);
          toolCalls, stream := toolCalls + [p], stream + [e];
        } else {
          ReadDelta(start, log, first, chunks, i, textParts, toolCalls, latestUsage, stream, e);
          textParts, stream := textParts + [chunk.text], stream + [e];
        }
        errored := Returned(p.kind == Error);
      }
    }

    /** The loop over the chunks of one completion, up to the first error. */
    method ReadStream(chunks: seq<Chunk>, streamRaises: bool)
      returns (errored: Outcome<bool>, textParts: seq<string>, toolCalls: seq<Pending>, latestUsage: Option<Json>,
               ghost stream: seq<Event>, ghost failure: Option<Event>, ghost count: nat)
      requires Valid()
      modifies service`log, service`calls, service`raises, `nextRandom
      ensures Valid() && Spoke(old(service.log), service.log) && Now() == old(Now()).(log := service.log)
      ensures old(nextRandom) <= nextRandom
      ensures errored.Returned? ==>
                && HasRead(old(service.log), service.log, old(nextRandom), chunks, errored.value,
                           textParts, toolCalls, latestUsage, stream, failure, count)
                && (streamRaises ==> errored.value)
      ensures old(service.raises) <= service.raises
      ensures errored.Raised? ==> streamRaises || service.raises > old(service.raises)
    {
      ghost var start, first := service.log, nextRandom;
      stream, failure, count := [], None, 0;
      textParts, toolCalls, latestUsage := [], [], None;
      ReadNothing(start, first, chunks);
      for i := 0 to |chunks|
        invariant old(service.raises) <= service.raises
        invariant Valid() && first <= nextRandom
        invariant Reading(start, service.log, first, chunks, i, textParts, toolCalls, latestUsage, stream)
      {
        errored, textParts, toolCalls, latestUsage, stream, failure :=
          TakeChunk(chunks, i, chunks[i], textParts, toolCalls, latestUsage, stream, start, first);
        if errored != Returned(false) {
          count := i + 1;
          return;
        }
      }
      ReadAll(start, service.log, first, chunks, textParts, toolCalls, latestUsage, stream);
      failure, count := None, |chunks|;
      errored := if streamRaises then Raised else Returned(false);
    }

    /** The message that consolidates the text of a completion. */
    method Consolidate(textParts: seq<string>, latestUsage: Option<Json>, ghost start: seq<Event>)
      returns (emitted: Outcome<Event>, ghost closer: Option<Event>)
      requires Valid() && Spoke(start, service.log)
      modifies service`log, service`calls, service`raises, `nextRandom
      ensures Valid() && Spoke(start, service.log) && Now() == old(Now()).(log := service.log)
      ensures closer == Some(Event(Random(old(nextRandom)), |old(service.log)| + 1, AssistantMessage,
                                   CloserPayload(Join(textParts), latestUsage)))
      ensures emitted.Returned? ==> service.log == old(service.log) + [closer.value]
      ensures service.raises == old(service.raises) + if emitted.Raised? then 1 else 0
    {
      var p := Pending(Random(nextRandom), AssistantMessage, CloserPayload(Join(textParts), latestUsage));
      closer := Some(Event(p.id, |service.log| + 1, p.kind, p.payload));
      SpokeSnoc(start, service.log, closer.value);
      emitted := EmitNew(p);
    }

    /** One model completion: its chunks, then the consolidated message when there was text and no error. */
    method RunTurn(chunks: seq<Chunk>, streamRaises: bool)
      returns (r: Outcome<TurnResult>, ghost stream: seq<Event>, ghost closer: Option<Event>, ghost failure: Option<Event>,
               ghost count: nat)
      requires Valid()
      modifies service`log, service`calls, service`raises, `nextRandom
      ensures Valid() && Spoke(old(service.log), service.log) && Now() == old(Now()).(log := service.log)
      ensures r.Returned? ==>
                && HasTurned(old(service.log), service.log, nextRandom, chunks, r.value, stream, closer, failure, count)
                && (streamRaises ==> r.value.errored)
      ensures old(service.raises) <= service.raises
      ensures r.Raised? ==> streamRaises || service.raises > old(service.raises)
    {
      ghost var start, first := service.log, nextRandom;
      closer := None;
      var errored, textParts, toolCalls, latestUsage;
      errored, textParts, toolCalls, latestUsage, stream, failure, count := ReadStream(chunks, streamRaises);
      if errored.Raised? {
        r := Raised;
        return;
      }
      if textParts != [] && !errored.value {
        ghost var streamed := service.log;
        var emitted;
        emitted, closer := Consolidate(textParts, latestUsage, start);
        if emitted.Raised? {
          r := Raised;
          return;
        }
        TurnsWithText(start, streamed, first, nextRandom, chunks, textParts, toolCalls, latestUsage, stream, count,
                      closer.value);
      } else {
        TurnsSilently(start, service.log, first, nextRandom, chunks, errored.value, textParts, toolCalls, latestUsage,
                      stream, failure, count);
      }
      r := Returned(TurnResult(toolCalls, errored.value));
    }

    // ---- Tools ------------------------------------------------------------------------------

    ghost function Used(): Use
      reads sandbox
    {
      if sandbox == null then Use([], [], [], 0)
      else Use(sandbox.handedOut, sandbox.executed, sandbox.destroyed, sandbox.violations)
    }

    ghost function Now(): Snapshot
      reads this, service, sandbox
    {
      Snapshot(service.log, Used(), lost)
    }

    /** A new sandbox, tracked before it is recorded. */
    method ProvisionSandbox(script: ToolScript, ghost base: nat, ghost named: bool, ghost lostBefore: set<string>)
      returns (r: Outcome<string>, ghost ids: set<string>)
      requires Valid() && sandbox != null && lostBefore <= lost && (named ==> script.provision != Some(""))
      requires |service.log| < DEFAULT_EVENTS_LIMIT && LatestSandbox(service.log).Some? ==>
                 LatestSandbox(service.log).value in lost
      modifies service`log, service`calls, service`raises, sandbox`status, sandbox`handedOut, `provisioned
      ensures Valid() && AtMostRecord(old(service.log), service.log, script.provision)
      ensures Uses(old(Used()), Used(), ids) && provisioned == old(provisioned) + ids
      ensures r.Returned? ==> r.value in ids && r.value in sandbox.status && sandbox.status[r.value] == SandboxService.Ready
      ensures Bookkeeping(old(service.log), service.log, base, lostBefore, lost, named)
      ensures old(service.raises) <= service.raises
      ensures service.raises == old(service.raises) ==>
                r == if script.provision.Some? then Returned(script.provision.value) else Raised
    {
      ids := {};
      ghost var before := Used();
      UsesNothing(before);
      GhostIsMonotone(service.log, base, lostBefore, lost);
      var provision := sandbox.Provision(script.provision);
      if !provision.Ok? {
        return Raised, ids;
      }
      var id := provision.value;
      ids := {id};
      UsesHandedOut(before, id);
      provisioned := provisioned + {id};
      r := RecordSandbox(id, script.runtime, base, named, lostBefore);
    }

    method RecordSandbox(id: string, runtime: string, ghost base: nat, ghost named: bool, ghost lostBefore: set<string>)
      returns (r: Outcome<string>)
      requires Valid() && lostBefore <= lost && (named ==> id != "")
      requires |service.log| < DEFAULT_EVENTS_LIMIT && LatestSandbox(service.log).Some? ==>
                 LatestSandbox(service.log).value in lost
      modifies service`log, service`calls, service`raises
      ensures Valid() && AtMostRecord(old(service.log), service.log, Some(id))
      ensures r.Returned? ==> r.value == id
      ensures service.raises == old(service.raises) + if r.Raised? then 1 else 0
      ensures Bookkeeping(old(service.log), service.log, base, lostBefore, lost, named)
    {
      ghost var log := service.log;
      var emitted := Emit(SandboxProvisionedId(id), SystemEvent, ProvisionedPayload(id, runtime));
      BookRecord(log, service.log, base, lostBefore, lost, id, runtime, named);
      r := if emitted.Returned? then Returned(id) else Raised;
    }

    /** The sandbox of the latest record while it is live; one that is not counts as lost. */
    method LiveSandbox(script: ToolScript) returns (r: Outcome<Option<string>>)
      requires Valid() && sandbox != null
      modifies service`calls, service`raises, sandbox`status, `lost
      ensures Valid() && old(service.raises) <= service.raises && Used() == old(Used())
      ensures var seen := LatestSandbox(Rest(service.log, 0));
              && (r.Returned? || service.raises == old(service.raises) ==> r == Checked(old(sandbox.status), seen, script.view))
              && lost == old(lost) + if r == Returned(None) && seen.Some? then {seen.value} else {}
      ensures r.Returned? && r.value.Some? ==>
                SandboxService.Permitted(SandboxService.Tracked(sandbox.status, r.value.value), SandboxService.Running)
    {
      var events := service.GetEvents();
      if events.Raised? {
        return Raised;
      }
      var existing := FindLatestSandbox(events.value);
      if existing.None? {
        return Returned(None);
      }
      var status := sandbox.Lookup(existing.value, script.view);
      if !status.Ok? {
        r := Raised;
      } else if SandboxService.Live(status.value) {
        SandboxService.LiveCanExecute(old(sandbox.status), existing.value, script.view.value);
        r := Returned(existing);
      } else {
        lost := lost + {existing.value};
        r := Returned(None);
      }
    }

    /** The sandbox of the latest record while it is live, else a new one. */
    method GetOrProvisionSandbox(script: ToolScript, ghost base: nat, ghost named: bool)
      returns (r: Outcome<string>, ghost ids: set<string>)
      requires Valid() && sandbox != null && (named ==> script.provision != Some(""))
      modifies service`log, service`calls, service`raises, sandbox`status, sandbox`handedOut, `provisioned, `lost
      ensures Valid() && AtMostRecord(old(service.log), service.log, script.provision)
      ensures Uses(old(Used()), Used(), ids) && provisioned == old(provisioned) + ids + if r.Returned? then {r.value} else {}
      ensures r.Returned? ==> SandboxService.Permitted(SandboxService.Tracked(sandbox.status, r.value), SandboxService.Running)
      ensures Bookkeeping(old(service.log), service.log, base, old(lost), lost, named)
      ensures lost != old(lost) ==>
                var seen := LatestSandbox(Rest(old(service.log), 0));
                seen.Some? && lost == old(lost) + {seen.value} && Checked(old(sandbox.status), seen, script.view) == Returned(None)
      ensures old(service.raises) <= service.raises
      ensures service.raises == old(service.raises) ==> r == Obtained(old(service.log), old(sandbox.status), script)
    {
      ids := {};
      ghost var before, lostBefore := Used(), lost;
      UsesNothing(before);
      var existing := LiveSandbox(script);
      if existing.Raised? {
        r := Raised;
      } else if existing.value.Some? {
        provisioned := provisioned + {existing.value.value};
        r := Returned(existing.value.value);
      } else {
        r, ids := ProvisionSandbox(script, base, named, lostBefore);
      }
    }

    /** Runs a tool in a sandbox that can be executed in; an exception of the backend leaves no result. */
    method ExecuteIn(id: string, toolName: string, toolInput: Payload, reply: Option<SandboxService.ToolResult>)
      returns (result: Option<SandboxService.ToolResult>)
      requires sandbox != null
      requires SandboxService.Permitted(SandboxService.Tracked(sandbox.status, id), SandboxService.Running)
      modifies sandbox`status, sandbox`executed, sandbox`violations
      ensures result == reply && Uses(old(Used()), Used(), {id})
      ensures sandbox.executed == old(sandbox.executed) + [SandboxService.Execution(id, toolName, toolInput)]
    {
      UsesExecuted(Used(), SandboxService.Execution(id, toolName, toolInput));
      var r := sandbox.Execute(id, toolName, toolInput, reply);
      result := if r.Ok? then Some(r.value) else None;
    }

    /** Gets a sandbox and runs the tool there, if there is one. */
    method RunInSandbox(toolName: string, toolInput: Payload, script: ToolScript, ghost base: nat, ghost named: bool)
      returns (id: Outcome<string>, result: Option<SandboxService.ToolResult>, ghost ids: set<string>)
      requires Valid() && sandbox != null && (named ==> script.provision != Some(""))
      modifies service`log, service`calls, service`raises, sandbox, `provisioned, `lost
      ensures Valid() && AtMostRecord(old(service.log), service.log, script.provision)
      ensures Uses(old(Used()), Used(), ids) && provisioned == old(provisioned) + ids
      ensures Bookkeeping(old(service.log), service.log, base, old(lost), lost, named)
      ensures old(service.raises) <= service.raises
      ensures service.raises == old(service.raises) ==> id == Obtained(old(service.log), old(sandbox.status), script)
      ensures result == if id.Returned? then script.reply else None
      ensures sandbox.executed == old(sandbox.executed)
                                  + if id.Returned? then [SandboxService.Execution(id.value, toolName, toolInput)] else []
    {
      id, ids := GetOrProvisionSandbox(script, base, named);
      result := None;
      if id.Returned? {
        ghost var before := Used();
        result := ExecuteIn(id.value, toolName, toolInput, script.reply);
        UsesThen(old(Used()), before, Used(), ids, {id.value});
        ids := ids + {id.value};
      }
    }

    /** Runs a sandbox tool; whatever goes wrong becomes a tool_result payload. */
    method RunSandboxTool(call: Pending, toolName: string, toolInput: Payload, script: ToolScript, ghost base: nat,
                          ghost named: bool)
      returns (payload: Payload, ghost ids: set<string>, ghost got: Outcome<string>)
      requires Valid() && sandbox != null && (named ==> script.provision != Some(""))
      modifies service`log, service`calls, service`raises, sandbox, `provisioned, `lost
      ensures Valid() && AtMostRecord(old(service.log), service.log, script.provision)
      ensures AnswersCall(payload, call.id) && SandboxAnswers(payload, got, script)
      ensures Uses(old(Used()), Used(), ids) && provisioned == old(provisioned) + ids
      ensures Bookkeeping(old(service.log), service.log, base, old(lost), lost, named)
      ensures old(service.raises) <= service.raises
      ensures service.raises == old(service.raises) ==> got == Obtained(old(service.log), old(sandbox.status), script)
      ensures sandbox.executed == old(sandbox.executed)
                                  + if got.Returned? then [SandboxService.Execution(got.value, toolName, toolInput)] else []
    {
      var id, result;
      id, result, ids := RunInSandbox(toolName, toolInput, script, base, named);
      payload := SandboxPayload(call.id, toolName, if id.Returned? then Some(id.value) else None, result, script.reason);
      got := id;
    }

    /** Runs one tool call, logged as `e`, wherever it belongs; its failures are payloads too. */
    method DispatchTool(call: Pending, ghost e: Event, script: ToolScript, ghost base: nat, ghost named: bool)
      returns (payload: Payload, ghost ids: set<string>)
      requires Valid() && (named ==> script.provision != Some(""))
      requires e in service.log && e.kind == ToolCall && e.payload == call.payload
      modifies service`log, service`calls, service`raises, sandbox, `provisioned, `lost
      ensures Valid() && AtMostRecord(old(service.log), service.log, script.provision)
      ensures AnswersCall(payload, call.id) && Honest(Wired(), call.payload, payload, script)
      ensures Serves(old(Now()), Now(), ids, base, named) && provisioned == old(provisioned) + ids
      ensures old(service.raises) <= service.raises
      ensures Dispatches(old(Now()), Now(), Wired(), call.payload, payload, script,
                         if sandbox == null then map[] else old(sandbox.status), service.raises > old(service.raises))
    {
      var toolName, toolInput := ToolName(call.payload), ToolInput(call.payload);
      ghost var before := Now();
      if toolName in BUILTIN_TOOL_NAMES && sandbox != null {
        ghost var got;
        payload, ids, got := RunSandboxTool(call, toolName, toolInput, script, base, named);
        DispatchedToSandbox(before, Now(), Wired(), e, payload, script, got, old(sandbox.status),
                            service.raises > old(service.raises));
      } else {
        ids := {};
        ServesNothing(before, service.log, base, named);
        payload := OtherPayload(call.id, toolName, Wired(), script.proxied);
        DispatchedElsewhere(before, Wired(), call.payload, payload, script, if sandbox == null then map[] else sandbox.status);
      }
    }

    /** Runs one call and records its result. */
    method AnswerCall(call: Pending, script: ToolScript, ghost job: Job, ghost i: nat)
      returns (r: Outcome<()>, ghost record: Option<Event>, ghost result: Event, ghost ids: set<string>)
      requires Valid() && i < |job.calls| && call == job.calls[i] && script == job.scripts(i) && job.wiring == Wired()
      requires Source(call.id) < nextRandom && Fresh(service.log, ToolResultId(call.id))
      requires JobOk(job) && |job.events| == |job.calls| && job.events[i] in service.log
      requires job.named ==> script.provision != Some("")
      modifies service`log, service`calls, service`raises, sandbox, `provisioned, `lost
      ensures Valid() && AnsweredOne(job, i, old(Now()), Now(), ids, r.Returned?, record, result)
      ensures provisioned == old(provisioned) + ids
      ensures old(service.raises) <= service.raises && (r.Raised? ==> service.raises > old(service.raises))
    {
      ghost var before := Now();
      var payload;
      assert Persisted(call, job.events[i]) && job.events[i] in job.events;
      payload, ids := DispatchTool(call, job.events[i], script, job.base, job.named);
      ghost var mid := Now();
      RecordKeepsFresh(before.log, mid.log, script.provision, call.id);
      var emitted := Emit(ToolResultId(call.id), ToolResult, payload);
      record, result := EmitsAnswer(job, i, before, mid, Now(), ids, emitted.Returned?, payload);
      r := if emitted.Returned? then Returned(()) else Raised;
    }

    /** One result a call, in call order. */
    method ExecuteToolCalls(calls: seq<Pending>, scripts: nat -> ToolScript, ghost job: Job)
      returns (r: Outcome<()>, ghost answers: seq<Event>, ghost ids: set<string>)
      requires Valid() && job.calls == calls && job.scripts == scripts && job.wiring == Wired() && job.next == nextRandom
      requires JobOk(job) && Answerable(service.log, calls, nextRandom) && forall e :: e in job.events ==> e in service.log
      modifies service`log, service`calls, service`raises, sandbox, `provisioned, `lost
      ensures Valid() && Plain(old(service.log), service.log)
      ensures r.Returned? ==> AnsweredAll(job, old(service.log), service.log, answers)
      ensures old(service.raises) <= service.raises && (r.Raised? ==> service.raises > old(service.raises))
      ensures Serves(old(Now()), Now(), ids, job.base, job.named) && provisioned == old(provisioned) + ids
    {
      ghost var before := Now();
      answers, ids := [], {};
      ServedNone(job, before);
      r := Returned(());
      var i := 0;
      while i < |calls| && r.Returned?
        invariant Valid() && i <= |calls| && provisioned == old(provisioned) + ids
        invariant Serving(job, before, Now(), i, r.Returned?, answers, ids)
        invariant old(service.raises) <= service.raises && (r.Raised? ==> service.raises > old(service.raises))
        decreases |calls| - i
      {
        ghost var now := Now();
        ghost var record, result, more;
        r, record, result, more := AnswerCall(calls[i], scripts(i), job, i);
        answers := ServedOne(job, before, now, Now(), i, answers, ids, more, r.Returned?, record, result);
        ids := ids + more;
        i := i + 1;
      }
      if r.Returned? {
        ServedAll(job, before, Now(), answers, ids);
      }
    }

    // ---- The loop ----------------------------------------------------------------------------

    method ShouldCompact(active: seq<Event>, limits: Limits) returns (due: bool)
      ensures due <==> Tokens(size, active) >= limits.compactionThreshold
    {
      var estimated := EstimateEventTokens(size, active);
      due := estimated >= limits.compactionThreshold;
    }

    /** Emits a compaction record if there is something to drop. */
    method EmitCompaction(events: seq<Event>, limits: Limits) returns (r: Outcome<()>, ghost record: Option<Event>)
      requires Valid() && events == Rest(service.log, 0)
      modifies service`log, service`calls, service`raises
      ensures Valid() && service.log == old(service.log) + Opt(record)
      ensures RecordedAt(old(service.log), record, limits.keepLastN, size)
      ensures var plan := Plan(ActiveView(events), limits.keepLastN, size);
              r.Returned? && plan.Some? && Fresh(old(service.log), CompactionId(plan.value.dropped)) ==> record.Some?
      ensures service.raises == old(service.raises) + if r.Raised? then 1 else 0
    {
      record := None;
      var active := ApplyCompactionView(events);
      var decision := PlanTruncate(active, limits.keepLastN, size);
      if decision.None? {
        return Returned(()), record;
      }
      var d := decision.value;
      ghost var e := Record(d, |service.log| + 1);
      var emitted := Emit(CompactionId(d.dropped), HarnessEvent, ToPayload(d));
      record := if service.log == old(service.log) then None else Some(e);
      r := if emitted.Returned? then Returned(()) else Raised;
    }

    /** Reads the log, compacts it when it is due, and folds what is then active. */
    method ReadContext(limits: Limits) returns (r: Outcome<seq<Message>>, ghost record: Option<Event>)
      requires Valid()
      modifies service`log, service`calls, service`raises
      ensures Valid() && service.log == old(service.log) + Opt(record)
      ensures RecordedAt(old(service.log), record, limits.keepLastN, size)
      ensures r.Returned? ==> r.value == Context(ActiveView(Rest(service.log, 0)))
      ensures record.Some? ==> Tokens(size, ActiveView(Rest(old(service.log), 0))) >= limits.compactionThreshold
      ensures var active := ActiveView(Rest(old(service.log), 0));
              var plan := Plan(active, limits.keepLastN, size);
              && r.Returned? && Tokens(size, active) >= limits.compactionThreshold
              && plan.Some? && Fresh(old(service.log), CompactionId(plan.value.dropped))
              ==> record.Some?
      ensures service.raises == old(service.raises) + if r.Raised? then 1 else 0
    {
      record := None;
      var events := service.GetEvents();
      if events.Raised? {
        return Raised, record;
      }
      var active := ApplyCompactionView(events.value);
      var due := ShouldCompact(active, limits);
      if due {
        var compacted;
        compacted, record := EmitCompaction(events.value, limits);
        if compacted.Raised? {
          return Raised, record;
        }
        events := service.GetEvents();
        if events.Raised? {
          return Raised, record;
        }
        active := ApplyCompactionView(events.value);
      }
      var messages := BuildContext(active);
      r := Returned(messages);
    }

    /** Each provisioned sandbox is passed to destroy once, whatever destroying it raises. */
    method DestroySandboxes(raises: string -> bool) returns (ghost gone: seq<string>)
      modifies sandbox
      ensures sandbox == null ==> gone == []
      ensures sandbox != null ==> Elements(gone) == provisioned && forall i, j :: 0 <= i < j < |gone| ==> gone[i] != gone[j]
      ensures Used() == old(Used()).(destroyed := old(Used()).destroyed + gone)
    {
      gone := [];
      if sandbox == null {
        return;
      }
      var rest := provisioned;
      while rest != {}
        invariant rest <= provisioned && Elements(gone) == provisioned - rest
        invariant forall i, j :: 0 <= i < j < |gone| ==> gone[i] != gone[j]
        invariant Used() == old(Used()).(destroyed := old(Used()).destroyed + gone)
        decreases rest
      {
        var id :| id in rest;
        assert id !in Elements(gone);
        ElementsConcat(gone, [id]);
        var swallowed := sandbox.Destroy(id, raises(id));
        gone := gone + [id];
        rest := rest - {id};
      }
    }

    /** Answers the calls of a completion, which then becomes a round. */
    method AnswerTurn(result: TurnResult, script: Script, ghost log: seq<Event>, ghost record: Option<Event>,
                      ghost stream: seq<Event>, ghost closer: Option<Event>, ghost failure: Option<Event>,
                      ghost count: nat, ghost base: nat, ghost named: bool)
      returns (r: Outcome<Step>, ghost round: Option<Round>, ghost ids: set<string>)
      requires Valid() && (record.Some? ==> IsCompaction(record.value)) && (named ==> Named(script.tools))
      requires HasTurned(log + Opt(record), service.log, nextRandom, script.chunks, result, stream, closer, failure, count)
      requires !result.errored && result.toolCalls != []
      modifies service`log, service`calls, service`raises, sandbox, `nextRandom, `provisioned, `lost
      ensures Valid() && Plain(old(service.log), service.log)
      ensures Serves(old(Now()), Now(), ids, base, named) && provisioned == old(provisioned) + ids
      ensures round.Some? ==> Wrote(log, service.log, record, round.value, script, Wired())
      ensures r.Returned? ==> round.Some? && r.value == StepAfter(round.value)
      ensures old(service.raises) <= service.raises && (r.Raised? ==> service.raises > old(service.raises))
    {
      ghost var spoken, next := service.log, nextRandom;
      CallsInOrder(stream);
      ghost var answers;
      ghost var job := Job(result.toolCalls, CallsOf(stream), script.tools, Wired(), base, named, next);
      var answered;
      answered, answers, ids := ExecuteToolCalls(result.toolCalls, script.tools, job);
      if answered.Raised? {
        return Raised, None, ids;
      }
      ghost var full := RoundGoesOn(log, record, spoken, next, script, Wired(), result, stream, closer, failure, count,
                                    answers);
      round := Some(full);
      r := Returned(GoOn);
    }

    /** One completion and the tools it calls. */
    method TakeTurn(script: Script, ghost log: seq<Event>, ghost record: Option<Event>, ghost base: nat,
                    ghost named: bool)
      returns (r: Outcome<Step>, ghost round: Option<Round>, ghost ids: set<string>)
      requires Valid() && service.log == log + Opt(record) && (record.Some? ==> IsCompaction(record.value))
      requires named ==> Named(script.tools)
      modifies service`log, service`calls, service`raises, sandbox, `nextRandom, `provisioned, `lost
      ensures Valid() && Plain(old(service.log), service.log)
      ensures Serves(old(Now()), Now(), ids, base, named) && provisioned == old(provisioned) + ids
      ensures round.Some? ==> Wrote(log, service.log, record, round.value, script, Wired())
      ensures r.Returned? ==> round.Some? && r.value == StepAfter(round.value)
      ensures old(service.raises) <= service.raises
      ensures r.Raised? ==> script.streamRaises || service.raises > old(service.raises)
    {
      round, ids := None, {};
      ghost var before := Now();
      var turned; ghost var stream, closer, failure, count;
      turned, stream, closer, failure, count := RunTurn(script.chunks, script.streamRaises);
      ghost var mid, next := Now(), nextRandom;
      SpeakingServes(before, mid.log, base, named);
      if turned.Raised? {
        r := Raised;
      } else if turned.value.errored || turned.value.toolCalls == [] {
        ghost var last := RoundEnds(log, record, mid.log, next, script, Wired(), turned.value, stream, closer, failure, count);
        round := Some(last);
        r := Returned(Stop(if turned.value.errored then ModelError else NoToolCalls));
      } else {
        r, round, ids := AnswerTurn(turned.value, script, log, record, stream, closer, failure, count, base, named);
        AnsweringServes(before, mid, Now(), ids, base, named);
      }
    }

    /** The turn that answers a request. */
    method AskModel(limits: Limits, script: Script, messages: seq<Message>, ghost log: seq<Event>,
                    ghost record: Option<Event>, ghost before: Snapshot, ghost base: nat, ghost named: bool)
      returns (r: Outcome<Step>, ghost round: Option<Round>, ghost ids: set<string>)
      requires Valid() && service.log == log + Opt(record) && RecordedAt(log, record, limits.keepLastN, size)
      requires messages == Context(ActiveView(Rest(service.log, 0))) && Serves(before, Now(), {}, base, named)
      requires named ==> Named(script.tools)
      modifies service`log, service`calls, service`raises, sandbox, `nextRandom, `provisioned, `lost
      ensures Valid() && Serves(before, Now(), ids, base, named) && provisioned == old(provisioned) + ids
      ensures Iterated(log, service.log, r, record, Some(Request(old(service.log), messages)), round, script,
                       Wired(), limits.keepLastN, size)
      ensures old(service.raises) <= service.raises
      ensures r.Raised? ==> script.streamRaises || service.raises > old(service.raises)
    {
      ghost var now := Now();
      RecordIsCompaction(log, record, limits.keepLastN, size);
      r, round, ids := TakeTurn(script, log, record, base, named);
      AskingPass(log, record, messages, service.log, r, round, script, Wired(), limits.keepLastN, size);
      ServesAfter(before, now, Now(), ids, base, named);
    }

    /** A pass within the time limit. */
    method Pass(limits: Limits, script: Script, ghost base: nat, ghost named: bool)
      returns (r: Outcome<Step>, ghost record: Option<Event>, ghost request: Option<Request>, ghost round: Option<Round>,
               ghost ids: set<string>)
      requires Valid() && (named ==> Named(script.tools))
      modifies service`log, service`calls, service`raises, sandbox, `nextRandom, `provisioned, `lost
      ensures Valid() && Iterated(old(service.log), service.log, r, record, request, round, script, Wired(), limits.keepLastN, size)
      ensures Serves(old(Now()), Now(), ids, base, named) && provisioned == old(provisioned) + ids
      ensures old(service.raises) <= service.raises
      ensures r.Raised? ==> (request.Some? && script.streamRaises) || service.raises > old(service.raises)
    {
      request, round, ids := None, None, {};
      ghost var before := Now();
      var messages;
      messages, record := ReadContext(limits);
      RecordServes(before, record, limits.keepLastN, size, base, named);
      if messages.Raised? || !HasUser(messages.value) {
        r := if messages.Raised? then Raised else Returned(Stop(NoUserTurn));
        SilentPass(before.log, record, r, script, Wired(), limits.keepLastN, size);
      } else {
        request := Some(Request(service.log, messages.value));
        r, round, ids := AskModel(limits, script, messages.value, before.log, record, before, base, named);
      }
    }

    /** One pass of the loop. */
    method Iterate(limits: Limits, script: Script, ghost base: nat, ghost named: bool)
      returns (r: Outcome<Step>, ghost record: Option<Event>, ghost request: Option<Request>, ghost round: Option<Round>,
               ghost ids: set<string>)
      requires Valid() && (named ==> Named(script.tools))
      modifies service`log, service`calls, service`raises, sandbox, `nextRandom, `provisioned, `lost
      ensures Valid() && Iterated(old(service.log), service.log, r, record, request, round, script, Wired(), limits.keepLastN, size)
      ensures Serves(old(Now()), Now(), ids, base, named) && provisioned == old(provisioned) + ids
      ensures old(service.raises) <= service.raises
      ensures r.Raised? ==> (request.Some? && script.streamRaises) || service.raises > old(service.raises)
    {
      if script.overdue {
        record, request, round, ids := None, None, None, {};
        OverduePass(service.log, script, Wired(), limits.keepLastN, size);
        ServesNothing(Now(), service.log, base, named);
        r := Returned(Stop(MaxDuration));
      } else {
        r, record, request, round, ids := Pass(limits, script, base, named);
      }
    }

    /** The passes of the loop, until one stops it, one raises, or the turns are used up. */
    method Loop(limits: Limits, scripts: nat -> Script, ghost c: Setting, ghost base: nat, ghost named: bool)
      returns (r: Outcome<StopReason>, ghost rounds: seq<Round>, ghost requests: seq<Request>, ghost tail: Option<Event>)
      requires Valid() && provisioned == {}
      requires c.limits == limits && c.scripts == scripts && c.wiring == Wired() && c.size == size
      requires Running(c, service.log, [], [])
      requires named ==> forall t :: Named(scripts(t).tools)
      modifies service`log, service`calls, service`raises, sandbox, `nextRandom, `provisioned, `lost
      ensures Valid() && Safe(c, service.log, requests)
      ensures r.Returned? ==> RanToEnd(c, service.log, r.value, rounds, requests, tail)
      ensures Serves(old(Now()), Now(), provisioned, base, named)
      ensures old(service.raises) <= service.raises
      ensures r.Raised? ==> LastRaised(requests, scripts) || service.raises > old(service.raises)
    {
      ghost var before := Now();
      rounds, requests, tail := [], [], None;
      ServesNothing(before, service.log, base, named);
      var turn, step := 0, Returned(GoOn);
      while turn < limits.maxTurns && step == Returned(GoOn)
        invariant Valid() && turn <= limits.maxTurns && (step == Returned(GoOn) ==> turn == |rounds|)
        invariant After(c, service.log, step, rounds, requests, tail)
        invariant Serves(before, Now(), provisioned, base, named) && old(service.raises) <= service.raises
        invariant step.Raised? ==> LastRaised(requests, scripts) || service.raises > old(service.raises)
        decreases limits.maxTurns - turn
      {
        ghost var log, now, held := service.log, Now(), provisioned;
        ghost var record, request, round, more;
        step, record, request, round, more := Iterate(limits, scripts(turn), base, named);
        ServesThen(before, now, Now(), held, more, base, named);
        rounds, requests, tail := PassDone(c, log, rounds, requests, service.log, step, record, request, round);
        turn := turn + 1;
      }
      if step == Returned(GoOn) {
        TurnsUsedUp(c, service.log, rounds, requests);
        tail := None;
      }
      r := if step.Raised? then Raised else Returned(if step.value.GoOn? then MaxTurns else step.value.why);
    }

    /** The loop, and what it means for a run that started with the log `c.log0`. */
    method RunLoop(limits: Limits, scripts: nat -> Script, ghost c: Setting, ghost named: bool)
      returns (r: Outcome<StopReason>, ghost rounds: seq<Round>, ghost requests: seq<Request>, ghost tail: Option<Event>)
      requires Valid() && provisioned == {} && lost == {}
      requires c.limits == limits && c.scripts == scripts && c.wiring == Wired() && c.size == size
      requires Starts(c, service.log) && (named ==> forall t :: Named(scripts(t).tools))
      modifies service`log, service`calls, service`raises, sandbox, `nextRandom, `provisioned, `lost
      ensures Valid() && Safe(c, service.log, requests)
      ensures r.Returned? ==> RanToEnd(c, service.log, r.value, rounds, requests, tail)
      ensures Anchored(c.log0) && AnchorSpeaks(Rest(c.log0, 0)) ==> r != Returned(NoUserTurn)
      ensures Uses(old(Used()), Used(), provisioned) && AllRequested(old(Used()), Used(), service.log)
      ensures named && |service.log| <= DEFAULT_EVENTS_LIMIT ==> RecordCount(service.log, |c.log0|) <= 1 + |lost|
      ensures old(service.raises) <= service.raises
      ensures r.Raised? ==> LastRaised(requests, scripts) || service.raises > old(service.raises)
    {
      ghost var now := Now();
      r, rounds, requests, tail := Loop(limits, scripts, c, |c.log0|, named);
      ghost var after := Now();
      if named && |after.log| <= DEFAULT_EVENTS_LIMIT {
        RecordsAreBounded(c.log0, now, after, provisioned, named);
      }
      if r.Returned? && Anchored(c.log0) && AnchorSpeaks(Rest(c.log0, 0)) {
        NoUserTurnNeedsSilence(c, after.log, r.value, rounds, requests, tail);
      }
    }

    /** Before the loop: nothing is provisioned yet.  `configured` tells whether agent, profile and adapter were found. */
    method Begin(configured: bool, systemPrompt: string, ghost limits: Limits, ghost scripts: nat -> Script)
      returns (r: Outcome<()>, ghost c: Setting)
      requires Valid()
      modifies service`log, service`calls, service`raises, `provisioned, `lost
      ensures Valid() && provisioned == {} && lost == {} && Used() == old(Used())
      ensures Seeds(old(service.log), service.log, systemPrompt)
      ensures r.Returned? && systemPrompt != "" && Fresh(old(service.log), SystemPromptId) ==> service.log != old(service.log)
      ensures c == Setting(old(service.log), service.log, limits, scripts, Wired(), size) && Starts(c, service.log)
      ensures old(service.raises) <= service.raises
      ensures r.Raised? ==> !configured || service.raises > old(service.raises)
    {
      ghost var log0 := service.log;
      provisioned, lost := {}, {};
      var woken := service.Wake();
      r := Raised;
      if woken.Returned? && configured {
        r := SeedSystemPromptIfNeeded(systemPrompt);
      }
      c := Setting(log0, service.log, limits, scripts, Wired(), size);
      SeedStarts(c, systemPrompt);
    }

    /** After the loop, however it ended: sandboxes go, and a run that did not raise is marked complete. */
    method Close(r: Outcome<StopReason>, destroyRaises: string -> bool, ghost before: Use)
      returns (q: Outcome<StopReason>)
      requires Uses(before, Used(), provisioned)
      modifies sandbox, service`status, service`calls, service`raises
      ensures DestroysWhatItUsed(before, Used()) && Used().executed == old(Used()).executed
      ensures q == r || q.Raised?
      ensures r.Raised? ==> service.status == old(service.status)
      ensures q.Returned? ==> Terminal(service.status)
      ensures old(service.raises) <= service.raises && (q != r ==> service.raises > old(service.raises))
    {
      ghost var use := Used();
      ghost var gone := DestroySandboxes(destroyRaises);
      DestroysAll(before, use, provisioned, gone);
      if r.Raised? {
        return r;
      }
      var completed := service.MarkComplete();
      q := if completed.Raised? then Raised else r;
    }

    /** A whole run, from waking the session to marking it complete.  `named` tells whether every sandbox id is
        non-empty. */
    method RunSession(configured: bool, systemPrompt: string, limits: Limits, scripts: nat -> Script,
                      destroyRaises: string -> bool, ghost named: bool)
      returns (r: Outcome<StopReason>, ghost start: seq<Event>, ghost rounds: seq<Round>, ghost requests: seq<Request>,
               ghost tail: Option<Event>)
      requires Valid() && (named ==> forall t :: Named(scripts(t).tools))
      modifies this, service, sandbox
      ensures Valid() && old(service.log) <= service.log
      // What the loop starts from, and the grammar of what it appends.
      ensures Seeds(old(service.log), start, systemPrompt)
      ensures r.Returned? && systemPrompt != "" && Fresh(old(service.log), SystemPromptId) ==> start != old(service.log)
      ensures r.Returned? ==>
                && Terminal(service.status)
                && service.log == start + Flat(rounds) + Opt(tail) && RunOk(rounds)
                && Asked(Setting(old(service.log), start, limits, scripts, Wired(), size), rounds, requests)
                && StopsFor(r.value, rounds, limits, scripts, service.log)
                && (tail.Some? ==> r.value == NoUserTurn && IsCompaction(tail.value))
                && (forall i :: 0 <= i < |rounds| ==> Transcribes(rounds[i], scripts(i), Wired()))
      // What the model is sent, on every exit.
      ensures |requests| <= limits.maxTurns
      ensures RequestsOk(old(service.log), requests, limits.keepLastN, size)
      // Compaction, on every exit.
      ensures Anchored(old(service.log)) ==> Anchored(service.log)
      ensures Anchored(old(service.log)) && AnchorSpeaks(Rest(old(service.log), 0)) ==> r != Returned(NoUserTurn)
      // Sandboxes, on every exit.
      ensures DestroysWhatItUsed(old(Used()), Used()) && AllRequested(old(Used()), Used(), service.log)
      ensures named && |service.log| <= DEFAULT_EVENTS_LIMIT ==> RecordCount(service.log, |old(service.log)|) <= 1 + |lost|
      // Only the session service, the configuration and the stream that answers the last request can make a run raise.
      ensures r.Raised? ==>
                !configured || LastRaised(requests, scripts) || service.raises > old(service.raises)
    {
      ghost var before := Used();
      rounds, requests, tail := [], [], None;
      var begun; ghost var c;
      begun, c := Begin(configured, systemPrompt, limits, scripts);
      start := c.start;
      if begun.Raised? {
        NothingRan(c, before);
        r := Raised;
      } else {
        r, rounds, requests, tail := RunLoop(limits, scripts, c, named);
        r := Close(r, destroyRaises, before);
      }
    }
  }
}
