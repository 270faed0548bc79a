/** The grammar of what the harness appends: one round per model call. */
module Turns {
  import opened Values
  import opened Events
  import opened SessionProtocol
  import opened Rounds
  import opened Pairing
  import opened Adapters
  import Anthropic

  type Chunk = Anthropic.Chunk

  /** An event not yet persisted. */
  datatype Pending = Pending(id: Uuid, kind: EventType, payload: Payload)

  function DeltaPayload(text: string): Payload {
    map["content" := Str(text), "is_complete" := Bool(false)]
  }

  function CallPayload(toolId: string, toolName: string, input: Payload): Payload {
    map["tool_id" := Str(toolId), "tool_name" := Str(toolName), "input" := Obj(input)]
  }

  function FailurePayload(message: string, retryable: bool, statusCode: Option<int>): Payload {
    map["message" := Str(message),
        "retryable" := Bool(retryable),
        "status_code" := if statusCode.Some? then Num(statusCode.value) else Null]
  }

  /** `chunk_to_event`, given the next uuid4. */
  function ChunkToEvent(chunk: Chunk, id: Uuid): Option<Pending> {
    match chunk
    case TextDelta(text) => Some(Pending(id, AssistantMessage, DeltaPayload(text)))
    case ToolEnd(toolId, toolName, input, _) => Some(Pending(id, ToolCall, CallPayload(toolId, toolName, input)))
    case Failure(message, retryable, code) => Some(Pending(id, Error, FailurePayload(message, retryable, code)))
    case _ => None
  }

  function UsageJson(chunk: Chunk): Json
    requires chunk.Usage?
  {
    Obj(map["input_tokens" := Num(chunk.inputTokens),
            "output_tokens" := Num(chunk.outputTokens),
            "cached_input_tokens" := Num(chunk.cachedInputTokens)])
  }

  function CloserPayload(text: string, usage: Option<Json>): Payload {
    var base: Payload := map["content" := Str(text), "is_complete" := Bool(true)];
    if usage.Some? then base["usage" := usage.value] else base
  }

  // ---- Rounds ------------------------------------------------------------------------------

  /** A streaming delta. */
  predicate IsDelta(e: Event) {
    e.kind == AssistantMessage && !IsCloser(e) && Get(e.payload, "content").Str?
  }

  predicate StreamOk(stream: seq<Event>) {
    forall e :: e in stream ==> IsDelta(e) || IsCall(e)
  }

  /** The text of the deltas, concatenated. */
  function Spoken(stream: seq<Event>): string {
    if stream == [] then ""
    else
      var e := stream[|stream| - 1];
      Spoken(stream[..|stream| - 1])
      + (if IsDelta(e) then Get(e.payload, "content").s else "")
  }

  function CallsOf(stream: seq<Event>): seq<Event> {
    if stream == [] then []
    else
      var e := stream[|stream| - 1];
      CallsOf(stream[..|stream| - 1]) + (if IsCall(e) then [e] else [])
  }

  predicate HasDelta(stream: seq<Event>) {
    exists e :: e in stream && IsDelta(e)
  }

  /** One model call: an optional compaction record before it, deltas and calls as they arrived, the closer, an error,
      and the answers to the calls with sandbox records among them. */
  datatype Round = Round(record: Option<Event>, stream: seq<Event>, closer: Option<Event>, failure: Option<Event>,
                         answers: seq<Event>)

  function RoundEvents(r: Round): seq<Event> {
    Opt(r.record) + r.stream + Opt(r.closer) + Opt(r.failure) + r.answers
  }

  predicate CloserOk(stream: seq<Event>, closer: Option<Event>) {
    && (closer.Some? <==> HasDelta(stream))
    && (closer.Some? ==> IsCloser(closer.value) && Get(closer.value.payload, "content") == Str(Spoken(stream)))
  }

  /** Exactly one result a call, in call order, nothing else but sandbox records. */
  predicate AnswersOk(calls: seq<Event>, answers: seq<Event>) {
    && Answered(calls, EraseNoise(answers))
    && forall e :: e in answers ==> IsResult(e) || IsSandboxProvisioned(e)
  }

  predicate RoundOk(r: Round) {
    && (r.record.Some? ==> IsCompaction(r.record.value))
    && StreamOk(r.stream)
    && (match r.failure
        case Some(e) => e.kind == Error && r.closer == None && r.answers == []
        case None => CloserOk(r.stream, r.closer) && AnswersOk(CallsOf(r.stream), r.answers))
  }

  function Flat(rounds: seq<Round>): seq<Event> {
    if rounds == [] then [] else Flat(rounds[..|rounds| - 1]) + RoundEvents(rounds[|rounds| - 1])
  }

  /** A round after which the loop goes on: calls, all of them answered. */
  predicate Continues(r: Round) {
    r.failure == None && CallsOf(r.stream) != []
  }

  /** Rounds in the grammar, all but the last one making calls and none but the last one failing. */
  ghost predicate RunOk(rounds: seq<Round>) {
    forall i :: 0 <= i < |rounds| ==> RoundOk(rounds[i]) && (i < |rounds| - 1 ==> Continues(rounds[i]))
  }

  // ---- What one stream writes ------------------------------------------------------------------

  /** Chunks of which the log keeps nothing of their own. */
  predicate Unlogged(c: Chunk) {
    c.ToolStart? || c.ToolPiece? || c.Usage? || c.Done?
  }

  /** The event says what the chunk said. */
  predicate Logs(c: Chunk, kind: EventType, p: Payload) {
    match c
    case TextDelta(text) =>
      && kind == AssistantMessage && "content" in p && p["content"] == Str(text)
      && "is_complete" in p && p["is_complete"] == Bool(false)
    case ToolEnd(id, name, input, _) =>
      && kind == ToolCall && "tool_id" in p && p["tool_id"] == Str(id) && "tool_name" in p && p["tool_name"] == Str(name)
      && "input" in p && p["input"] == Obj(input)
    case Failure(message, retryable, code) =>
      && kind == Error && "message" in p && p["message"] == Str(message)
      && "retryable" in p && p["retryable"] == Bool(retryable)
      && "status_code" in p && p["status_code"] == if code.Some? then Num(code.value) else Null
    case _ => false
  }

  function Loud(chunks: seq<Chunk>): seq<Chunk> {
    if chunks == [] then []
    else Loud(chunks[..|chunks| - 1]) + if Unlogged(chunks[|chunks| - 1]) then [] else [chunks[|chunks| - 1]]
  }

  /** Each chunk that is not silent was logged, in order, and nothing else. */
  predicate LoggedAs(chunks: seq<Chunk>, events: seq<Event>) {
    && |Loud(chunks)| == |events|
    && forall i :: 0 <= i < |events| ==> Logs(Loud(chunks)[i], events[i].kind, events[i].payload)
  }

  lemma {:induction false} LoudSnoc(chunks: seq<Chunk>, i: nat)
    requires i < |chunks|
    ensures Loud(chunks[..i + 1]) == Loud(chunks[..i]) + if Unlogged(chunks[i]) then [] else [chunks[i]]
  {
    assert chunks[..i + 1][..i] == chunks[..i];
  }

  lemma {:induction false} LoggedMore(chunks: seq<Chunk>, i: nat, events: seq<Event>, e: Event)
    requires i < |chunks| && LoggedAs(chunks[..i], events) && Logs(chunks[i], e.kind, e.payload)
    ensures LoggedAs(chunks[..i + 1], events + [e])
  {
    LoudSnoc(chunks, i);
  }

  lemma {:induction false} ChunkIsLogged(c: Chunk, id: Uuid)
    ensures ChunkToEvent(c, id).None? <==> Unlogged(c)
    ensures ChunkToEvent(c, id).Some? ==>
              var p := ChunkToEvent(c, id).value; p.id == id && Logs(c, p.kind, p.payload)
  {
  }

  lemma {:induction false} LogsAre(c: Chunk, e: Event)
    requires Logs(c, e.kind, e.payload)
    ensures (IsDelta(e) <==> c.TextDelta?) && (IsCall(e) <==> c.ToolEnd?)
    ensures IsDelta(e) ==> Get(e.payload, "content") == Str(c.text)
  {
  }

  /** The last usage chunk, if any. */
  function LastUsage(chunks: seq<Chunk>): Option<Json> {
    if chunks == [] then None
    else
      var c := chunks[|chunks| - 1];
      if c.Usage? then Some(UsageJson(c)) else LastUsage(chunks[..|chunks| - 1])
  }

  /** The part of the stream a turn reads: all of it, or up to its first error. */
  predicate Reads(chunks: seq<Chunk>, count: nat, errored: bool) {
    && count <= |chunks|
    && (forall i :: 0 <= i < count && chunks[i].Failure? ==> i == count - 1)
    && (if errored then count > 0 && chunks[count - 1].Failure? else count == |chunks|)
    && (!errored && count > 0 ==> !chunks[count - 1].Failure?)
  }

  predicate Persisted(p: Pending, e: Event) {
    e.id == p.id && e.kind == p.kind && e.payload == p.payload
  }

  predicate AllPersisted(pending: seq<Pending>, events: seq<Event>) {
    |pending| == |events| && forall i :: 0 <= i < |events| ==> Persisted(pending[i], events[i])
  }

  function Join(parts: seq<string>): string {
    if parts == [] then "" else Join(parts[..|parts| - 1]) + parts[|parts| - 1]
  }

  /** The locals of a turn say what its events so far say. */
  ghost predicate Streamed(stream: seq<Event>, textParts: seq<string>, toolCalls: seq<Pending>) {
    && StreamOk(stream)
    && Spoken(stream) == Join(textParts) && (HasDelta(stream) <==> textParts != [])
    && AllPersisted(toolCalls, CallsOf(stream))
  }

  lemma {:induction false} StreamedDelta(stream: seq<Event>, textParts: seq<string>, toolCalls: seq<Pending>,
                                         e: Event, text: string)
    requires Streamed(stream, textParts, toolCalls)
    requires IsDelta(e) && Get(e.payload, "content") == Str(text)
    ensures Streamed(stream + [e], textParts + [text], toolCalls)
  {
    HasDeltaSnoc(stream, e);
    SpokenSnoc(stream, e);
    assert (textParts + [text])[..|textParts|] == textParts;
    assert CallsOf(stream) + [] == CallsOf(stream);
  }

  lemma {:induction false} HasDeltaSnoc(stream: seq<Event>, e: Event)
    ensures HasDelta(stream + [e]) <==> HasDelta(stream) || IsDelta(e)
  {
    assert e in stream + [e];
    if HasDelta(stream) {
      var d :| d in stream && IsDelta(d);
      assert d in stream + [e];
    }
  }

  lemma {:induction false} SpokenSnoc(stream: seq<Event>, e: Event)
    ensures Spoken(stream + [e]) == Spoken(stream) + if IsDelta(e) then Get(e.payload, "content").s else ""
    ensures CallsOf(stream + [e]) == CallsOf(stream) + if IsCall(e) then [e] else []
  {
    assert (stream + [e])[..|stream|] == stream;
  }

  lemma {:induction false} StreamedCall(stream: seq<Event>, textParts: seq<string>, toolCalls: seq<Pending>, e: Event,
                                        p: Pending)
    requires Streamed(stream, textParts, toolCalls) && Persisted(p, e)
    requires IsCall(e)
    ensures Streamed(stream + [e], textParts, toolCalls + [p])
  {
    HasDeltaSnoc(stream, e);
    SpokenSnoc(stream, e);
    assert Spoken(stream) + "" == Spoken(stream);
  }

  lemma {:induction false} UsageSnoc(chunks: seq<Chunk>, i: nat)
    requires i < |chunks|
    ensures LastUsage(chunks[..i + 1]) == if chunks[i].Usage? then Some(UsageJson(chunks[i])) else LastUsage(chunks[..i])
  {
    assert chunks[..i + 1][..i] == chunks[..i];
  }

  /** Events numbered from `n` on. */
  ghost predicate Numbered(events: seq<Event>, n: nat) {
    forall e :: e in events ==> e.id.Random? && e.id.n >= n
  }

  /** Where reading the stream stands after `i` chunks, none of them an error. */
  ghost predicate Progress(chunks: seq<Chunk>, i: nat, first: nat, stream: seq<Event>, textParts: seq<string>,
                           toolCalls: seq<Pending>, usage: Option<Json>) {
    && i <= |chunks| && (forall j :: 0 <= j < i ==> !chunks[j].Failure?)
    && Numbered(stream, first) && Streamed(stream, textParts, toolCalls)
    && LoggedAs(chunks[..i], stream) && usage == LastUsage(chunks[..i])
  }

  lemma {:induction false} SkipChunk(chunks: seq<Chunk>, i: nat, first: nat, stream: seq<Event>,
                                     textParts: seq<string>, toolCalls: seq<Pending>, usage: Option<Json>)
    requires Progress(chunks, i, first, stream, textParts, toolCalls, usage)
    requires i < |chunks| && Unlogged(chunks[i])
    ensures Progress(chunks, i + 1, first, stream, textParts, toolCalls,
                     if chunks[i].Usage? then Some(UsageJson(chunks[i])) else usage)
  {
    UsageSnoc(chunks, i);
    LoudSnoc(chunks, i);
    assert Loud(chunks[..i]) + [] == Loud(chunks[..i]);
  }

  lemma {:induction false} TakeDelta(chunks: seq<Chunk>, i: nat, first: nat, stream: seq<Event>,
                                     textParts: seq<string>, toolCalls: seq<Pending>, usage: Option<Json>, e: Event)
    requires Progress(chunks, i, first, stream, textParts, toolCalls, usage)
    requires i < |chunks| && chunks[i].TextDelta? && Logs(chunks[i], e.kind, e.payload)
    requires e.id.Random? && e.id.n >= first
    ensures Progress(chunks, i + 1, first, stream + [e], textParts + [chunks[i].text], toolCalls, usage)
  {
    UsageSnoc(chunks, i);
    LoggedMore(chunks, i, stream, e);
    LogsAre(chunks[i], e);
    StreamedDelta(stream, textParts, toolCalls, e, chunks[i].text);
  }

  lemma {:induction false} TakeCall(chunks: seq<Chunk>, i: nat, first: nat, stream: seq<Event>,
                                    textParts: seq<string>, toolCalls: seq<Pending>, usage: Option<Json>, e: Event,
                                    p: Pending)
    requires Progress(chunks, i, first, stream, textParts, toolCalls, usage)
    requires i < |chunks| && chunks[i].ToolEnd? && Logs(chunks[i], e.kind, e.payload) && Persisted(p, e)
    requires e.id.Random? && e.id.n >= first
    ensures Progress(chunks, i + 1, first, stream + [e], textParts, toolCalls + [p], usage)
  {
    UsageSnoc(chunks, i);
    LoggedMore(chunks, i, stream, e);
    LogsAre(chunks[i], e);
    StreamedCall(stream, textParts, toolCalls, e, p);
  }

  lemma {:induction false} TakeFailure(chunks: seq<Chunk>, i: nat, first: nat, stream: seq<Event>,
                                       textParts: seq<string>, toolCalls: seq<Pending>, usage: Option<Json>, e: Event)
    requires Progress(chunks, i, first, stream, textParts, toolCalls, usage)
    requires i < |chunks| && chunks[i].Failure?
    requires Logs(chunks[i], e.kind, e.payload)
    ensures Reads(chunks, i + 1, true) && LoggedAs(chunks[..i + 1], stream + Opt(Some(e)))
  {
    LoggedMore(chunks, i, stream, e);
  }

  // ---- What a stream says, read off its chunks ---------------------------------------------------

  /** The text of the stream. */
  function Texts(chunks: seq<Chunk>): string {
    if chunks == [] then ""
    else
      var c := chunks[|chunks| - 1];
      Texts(chunks[..|chunks| - 1]) + if c.TextDelta? then c.text else ""
  }

  /** Its tool calls, each with id, name and input. */
  function ToolEnds(chunks: seq<Chunk>): (ends: seq<Chunk>)
    ensures forall c :: c in ends ==> c.ToolEnd? && c in chunks
  {
    if chunks == [] then []
    else
      var c := chunks[|chunks| - 1];
      ToolEnds(chunks[..|chunks| - 1]) + if c.ToolEnd? then [c] else []
  }

  predicate HasText(chunks: seq<Chunk>) {
    exists i :: 0 <= i < |chunks| && chunks[i].TextDelta?
  }

  /** The events of a stream have its texts, and one tool_call for each of its calls, in order. */
  ghost predicate SaysAs(chunks: seq<Chunk>, events: seq<Event>) {
    && Spoken(events) == Texts(chunks) && (HasDelta(events) <==> HasText(chunks))
    && |CallsOf(events)| == |ToolEnds(chunks)|
    && forall k :: 0 <= k < |CallsOf(events)| ==> Logs(ToolEnds(chunks)[k], CallsOf(events)[k].kind, CallsOf(events)[k].payload)
  }

  lemma {:induction false} LoggedSays(chunks: seq<Chunk>, events: seq<Event>)
    requires LoggedAs(chunks, events)
    ensures SaysAs(chunks, events)
    decreases |chunks|
  {
    if chunks != [] {
      var n, c := |chunks| - 1, chunks[|chunks| - 1];
      if Unlogged(c) {
        assert Loud(chunks) == Loud(chunks[..n]);
        LoggedSays(chunks[..n], events);
        SaysAfterSilence(chunks, events);
      } else {
        var m := |events| - 1;
        assert Loud(chunks) == Loud(chunks[..n]) + [c];
        assert LoggedAs(chunks[..n], events[..m]);
        LoggedSays(chunks[..n], events[..m]);
        assert events == events[..m] + [events[m]];
        SaysMore(chunks, events[..m], events[m]);
      }
    }
  }

  lemma {:induction false} HasTextSnoc(chunks: seq<Chunk>)
    requires chunks != []
    ensures HasText(chunks) <==> HasText(chunks[..|chunks| - 1]) || chunks[|chunks| - 1].TextDelta?
  {
    var n := |chunks| - 1;
    if HasText(chunks[..n]) {
      var i :| 0 <= i < n && chunks[..n][i].TextDelta?;
      assert chunks[i].TextDelta?;
    }
    if i :| 0 <= i < |chunks| && chunks[i].TextDelta? && i < n {
      assert chunks[..n][i].TextDelta?;
    }
  }

  lemma {:induction false} SaysAfterSilence(chunks: seq<Chunk>, events: seq<Event>)
    requires chunks != [] && Unlogged(chunks[|chunks| - 1]) && SaysAs(chunks[..|chunks| - 1], events)
    ensures SaysAs(chunks, events)
  {
    HasTextSnoc(chunks);
    var front := chunks[..|chunks| - 1];
    assert Texts(front) + "" == Texts(front) && ToolEnds(front) + [] == ToolEnds(front);
  }

  lemma {:induction false} SaysMore(chunks: seq<Chunk>, events: seq<Event>, e: Event)
    requires chunks != [] && Logs(chunks[|chunks| - 1], e.kind, e.payload) && SaysAs(chunks[..|chunks| - 1], events)
    ensures SaysAs(chunks, events + [e])
  {
    LogsAre(chunks[|chunks| - 1], e);
    HasTextSnoc(chunks);
    HasDeltaSnoc(events, e);
    SpokenSnoc(events, e);
    var front := chunks[..|chunks| - 1];
    assert Texts(front) + "" == Texts(front) && ToolEnds(front) + [] == ToolEnds(front);
    assert CallsOf(events) + [] == CallsOf(events);
  }

  /** The three counts of a usage chunk. */
  predicate UsageIs(j: Json, c: Chunk) {
    && j.Obj? && c.Usage?
    && "input_tokens" in j.o && j.o["input_tokens"] == Num(c.inputTokens)
    && "output_tokens" in j.o && j.o["output_tokens"] == Num(c.outputTokens)
    && "cached_input_tokens" in j.o && j.o["cached_input_tokens"] == Num(c.cachedInputTokens)
  }

  /** The payload has the usage of the last usage chunk, and none if there is no such chunk. */
  ghost predicate UsageStored(p: Payload, chunks: seq<Chunk>) {
    if forall i :: 0 <= i < |chunks| ==> !chunks[i].Usage? then "usage" !in p
    else "usage" in p && exists i :: 0 <= i < |chunks| && UsageIs(p["usage"], chunks[i])
                                     && forall j :: i < j < |chunks| ==> !chunks[j].Usage?
  }

  lemma {:induction false} LastUsageIs(chunks: seq<Chunk>)
    ensures match LastUsage(chunks)
            case None => forall i :: 0 <= i < |chunks| ==> !chunks[i].Usage?
            case Some(j) => exists i :: 0 <= i < |chunks| && UsageIs(j, chunks[i])
                                        && forall k :: i < k < |chunks| ==> !chunks[k].Usage?
  {
    if chunks != [] {
      var n := |chunks| - 1;
      if chunks[n].Usage? {
        assert UsageIs(LastUsage(chunks).value, chunks[n]);
      } else {
        LastUsageIs(chunks[..n]);
        if LastUsage(chunks).Some? {
          var i :| 0 <= i < n && UsageIs(LastUsage(chunks).value, chunks[..n][i])
                   && forall k :: i < k < n ==> !chunks[..n][k].Usage?;
          assert UsageIs(LastUsage(chunks).value, chunks[i]);
          forall k | i < k < |chunks| ensures !chunks[k].Usage? {
            if k < n { assert chunks[..n][k] == chunks[k]; }
          }
        } else {
          forall i | 0 <= i < |chunks| ensures !chunks[i].Usage? {
            if i < n { assert chunks[..n][i] == chunks[i]; }
          }
        }
      }
    }
  }

  /** A closer follows exactly a stream with text; it has all of it, is marked complete and carries the usage. */
  ghost predicate ClosesWith(chunks: seq<Chunk>, closer: Option<Event>) {
    && (closer.Some? <==> HasText(chunks))
    && (closer.Some? ==>
          var p := closer.value.payload;
          && closer.value.kind == AssistantMessage && "content" in p && p["content"] == Str(Texts(chunks))
          && "is_complete" in p && p["is_complete"] == Bool(true) && UsageStored(p, chunks))
  }

  lemma {:induction false} CloserCloses(chunks: seq<Chunk>, stream: seq<Event>, closer: Option<Event>)
    requires LoggedAs(chunks, stream) && CloserOk(stream, closer)
    requires closer.Some? ==> closer.value.payload == CloserPayload(Spoken(stream), LastUsage(chunks))
    ensures ClosesWith(chunks, closer)
  {
    LoggedSays(chunks, stream);
    LastUsageIs(chunks);
    if closer.Some? {
      var p := closer.value.payload;
      if LastUsage(chunks).Some? {
        assert p["usage"] == LastUsage(chunks).value;
      } else {
        assert "usage" !in p;
      }
    }
  }

  // ---- Rounds are items of module Rounds ------------------------------------------------------

  function ItemOf(r: Round): Item {
    Turn(CallsOf(r.stream), r.closer, EraseNoise(r.answers))
  }

  lemma {:induction false} CallsAreCalls(stream: seq<Event>)
    ensures forall i :: 0 <= i < |CallsOf(stream)| ==> IsCall(CallsOf(stream)[i])
  {
    if stream != [] {
      CallsAreCalls(stream[..|stream| - 1]);
    }
  }

  lemma {:induction false} StreamErases(stream: seq<Event>)
    requires StreamOk(stream)
    ensures EraseNoise(stream) == CallsOf(stream)
  {
    if stream != [] {
      var rest, e := stream[..|stream| - 1], stream[|stream| - 1];
      assert stream == rest + [e];
      assert forall x :: x in rest ==> x in stream;
      assert e in stream;
      StreamErases(rest);
      EraseNoiseConcat(rest, [e]);
      EraseOpt(Some(e));
    }
  }

  lemma {:induction false} EraseOpt(e: Option<Event>)
    ensures EraseNoise(Opt(e)) == if e.Some? && !IsNoise(e.value) then [e.value] else []
  {
    if e.Some? { assert [e.value][1..] == []; }
  }

  lemma {:induction false} EraseFive(a: seq<Event>, b: seq<Event>, c: seq<Event>, d: seq<Event>, e: seq<Event>)
    ensures EraseNoise(a + b + c + d + e) == EraseNoise(a) + EraseNoise(b) + EraseNoise(c) + EraseNoise(d) + EraseNoise(e)
  {
    EraseNoiseConcat(a + b + c + d, e);
    EraseNoiseConcat(a + b + c, d);
    EraseNoiseConcat(a + b, c);
    EraseNoiseConcat(a, b);
  }

  lemma {:induction false} RoundIsTurn(r: Round)
    requires RoundOk(r) && r.failure == None && (CallsOf(r.stream) != [] || r.closer.Some?)
    ensures ItemOk(ItemOf(r))
  {
    CallsAreCalls(r.stream);
  }

  lemma {:induction false} RoundPieces(r: Round)
    requires RoundOk(r) && r.failure == None
    ensures EraseNoise(Opt(r.record)) == [] && EraseNoise(Opt(r.failure)) == []
    ensures EraseNoise(r.stream) == CallsOf(r.stream) && EraseNoise(Opt(r.closer)) == Opt(r.closer)
  {
    StreamErases(r.stream);
    EraseOpt(r.record);
    EraseOpt(r.closer);
  }

  lemma {:induction false} DropEmpty(a: seq<Event>, b: seq<Event>, c: seq<Event>)
    ensures [] + a + b + [] + c == a + b + c
  {
  }

  /** A round that did not fail reads as one turn. */
  lemma {:induction false} RoundErases(r: Round)
    requires RoundOk(r) && r.failure == None
    ensures EraseNoise(RoundEvents(r)) == ItemEvents(ItemOf(r))
    ensures CallsOf(r.stream) != [] || r.closer.Some? ==> ItemOk(ItemOf(r))
  {
    if CallsOf(r.stream) != [] || r.closer.Some? {
      RoundIsTurn(r);
    }
    RoundPieces(r);
    EraseFive(Opt(r.record), r.stream, Opt(r.closer), Opt(r.failure), r.answers);
    DropEmpty(CallsOf(r.stream), Opt(r.closer), EraseNoise(r.answers));
  }

  // ---- The conversation the model is asked to continue -------------------------------------------

  lemma {:induction false} AwaitsSnoc(log: seq<Event>, e: Event)
    requires AwaitsReply(log) && (IsNoise(e) || IsSystemPrompt(e))
    ensures AwaitsReply(log + [e])
  {
    assert (log + [e])[..|log|] == log;
  }

  lemma {:induction false} AnswersAwait(log: seq<Event>, answers: seq<Event>)
    requires EraseNoise(answers) != [] && forall e :: e in answers ==> IsResult(e) || IsNoise(e)
    ensures AwaitsReply(log + answers)
  {
    var front, e := answers[..|answers| - 1], answers[|answers| - 1];
    assert answers == front + [e] && e in answers;
    assert (log + answers)[..|log + answers| - 1] == log + front;
    if IsNoise(e) {
      EraseNoiseConcat(front, [e]);
      EraseOpt(Some(e));
      assert EraseNoise(front) + [] == EraseNoise(front);
      assert forall x :: x in front ==> x in answers;
      AnswersAwait(log, front);
    }
  }

  /** A round with calls, all of them answered, leaves a complete conversation that awaits a reply. */
  lemma {:induction false} RoundAwaits(log: seq<Event>, r: Round)
    requires RoundOk(r) && Continues(r) && RoundComplete(log) && UniqueIds(log + RoundEvents(r))
    ensures RoundComplete(log + RoundEvents(r)) && AwaitsReply(log + RoundEvents(r))
  {
    RoundErases(r);
    CompleteMore(log, RoundEvents(r), ItemOf(r));
    var before := Opt(r.record) + r.stream + Opt(r.closer) + Opt(r.failure);
    AnswersAwait(log + before, r.answers);
    assert log + before + r.answers == log + RoundEvents(r);
  }

  /** What `send` emits. */
  function UserEvent(id: Uuid, sequence: nat, content: string): Event {
    Event(id, sequence, UserMessage, map["content" := Str(content)])
  }

  lemma {:induction false} FreshStaysUnique(log: seq<Event>, e: Event)
    requires UniqueIds(log) && Fresh(log, e.id)
    ensures UniqueIds(log + [e])
  {
    assert forall k :: 0 <= k < |log| ==> log[k] in log;
  }

  /** After `send`, the conversation is complete and awaits a reply, whatever complete conversation the log held. */
  lemma {:induction false} SendAwaits(log: seq<Event>, id: Uuid, content: string)
    requires RoundComplete(log) && Fresh(log, id)
    ensures var sent := log + [UserEvent(id, |log| + 1, content)]; RoundComplete(sent) && AwaitsReply(sent)
  {
    var e := UserEvent(id, |log| + 1, content);
    FreshStaysUnique(log, e);
    EraseOpt(Some(e));
    CompleteMore(log, [e], Said(e));
  }

  // ---- Identifiers -----------------------------------------------------------------------------------

  /** The uuid4 an identifier is made from. */
  function Source(id: Uuid): int {
    match id
    case Random(n) => n
    case ToolResultId(call) => Source(call)
    case _ => -1
  }

  /** No identifier in the log is made from uuid4 number `n` or a later one. */
  ghost predicate Below(log: seq<Event>, n: nat) {
    forall e :: e in log ==> Source(e.id) < n
  }

  lemma {:induction false} BelowFresh(log: seq<Event>, n: nat, id: Uuid)
    requires Below(log, n) && Source(id) >= n
    ensures Fresh(log, id)
  {
  }
}
