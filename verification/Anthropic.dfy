/** The Anthropic provider: what a stream of provider events becomes, how the stream is opened, and what is sent. */
module Anthropic {
  import opened Values
  import opened Adapters

  // ---- Chunks -------------------------------------------------------------------------------

  datatype Chunk =
    | TextDelta(text: string)
    | ToolStart(toolId: string, toolName: string, index: int)
    | ToolPiece(toolId: string, partialJson: string, index: int)
    | ToolEnd(toolId: string, toolName: string, input: Payload, index: int)
    | Usage(inputTokens: nat, outputTokens: nat, cachedInputTokens: nat)
    | Done
    | Failure(message: string, retryable: bool, statusCode: Option<int>)

  datatype StreamEvent =
    | MessageStart(input: Option<nat>, cacheRead: Option<nat>, output: Option<nat>)
    | ToolBlockStart(index: int, id: string, name: string)
    | OtherBlockStart(index: int)
    | TextPiece(index: int, text: string)
    | JsonPiece(index: int, partialJson: string)
    | BlockStop(index: int)
    | MessageDelta(input: Option<nat>, cacheRead: Option<nat>, output: Option<nat>)
    | OtherEvent

  /** How the iteration over provider events ends. */
  datatype Ending = Clean | StatusError(code: int, message: string) | ConnectionError(message: string) | Foreign

  /** `_safe_json_loads` over an arbitrary JSON parser; blank and malformed text does not parse. */
  function SafeLoads(loads: string -> Option<Json>, text: string): Payload {
    match loads(text)
    case None => map[]
    case Some(v) => if v.Obj? then v.o else map["_value" := v]
  }

  // ---- Which block is open, said without the provider's dictionary ------------------------------

  /** Position of the tool_use start that is open at `index` before event `k`. */
  function OpenAt(events: seq<StreamEvent>, k: nat, index: int): Option<nat>
    requires k <= |events|
    ensures OpenAt(events, k, index).Some? ==>
              OpenAt(events, k, index).value < k && events[OpenAt(events, k, index).value].ToolBlockStart?
  {
    if k == 0 then None
    else
      var e := events[k - 1];
      if e.ToolBlockStart? && e.index == index then Some(k - 1)
      else if e.BlockStop? && e.index == index then None
      else OpenAt(events, k - 1, index)
  }

  /** The latest tool_use start at `index`, no stop since. */
  ghost predicate IsOpen(events: seq<StreamEvent>, k: nat, index: int, p: nat)
    requires k <= |events|
  {
    && p < k && events[p].ToolBlockStart? && events[p].index == index
    && forall j :: p < j < k ==> !((events[j].ToolBlockStart? || events[j].BlockStop?) && events[j].index == index)
  }

  lemma {:induction false} OpenMeaning(events: seq<StreamEvent>, k: nat, index: int, p: nat)
    requires k <= |events|
    ensures OpenAt(events, k, index) == Some(p) <==> IsOpen(events, k, index, p)
  {
    if k > 0 {
      OpenMeaning(events, k - 1, index, p);
    }
  }

  /** The input_json deltas at `index` in `events[from..k]`, concatenated. */
  function JsonText(events: seq<StreamEvent>, from: nat, k: nat, index: int): string
    requires from <= k <= |events|
    decreases k
  {
    if k == from then ""
    else
      var e := events[k - 1];
      JsonText(events, from, k - 1, index) + if e.JsonPiece? && e.index == index then e.partialJson else ""
  }

  // ---- What the output must be, said on the events -----------------------------------------------

  /** The provider event at `q` is to be heard: text, a tool_use start, and a delta or stop of an open block. */
  ghost predicate Heard(events: seq<StreamEvent>, q: nat)
    requires q < |events|
  {
    match events[q]
    case TextPiece(_, _) => true
    case ToolBlockStart(_, _, _) => true
    case JsonPiece(index, _) => exists p: nat :: IsOpen(events, q, index, p)
    case BlockStop(index) => exists p: nat :: IsOpen(events, q, index, p)
    case _ => false
  }

  /** The chunk it is heard as. */
  ghost predicate HeardAs(loads: string -> Option<Json>, events: seq<StreamEvent>, q: nat, c: Chunk)
    requires q < |events|
  {
    match events[q]
    case TextPiece(_, text) => c == TextDelta(text)
    case ToolBlockStart(index, id, name) => c == ToolStart(id, name, index)
    case JsonPiece(index, piece) => exists p: nat :: IsOpen(events, q, index, p) && c == ToolPiece(events[p].id, piece, index)
    case BlockStop(index) => exists p: nat :: IsOpen(events, q, index, p) && Ends(loads, events, p, q, c)
    case _ => false
  }

  /** The tool_call_end of the block started at `p` and stopped at `q`. */
  predicate Ends(loads: string -> Option<Json>, events: seq<StreamEvent>, p: nat, q: nat, c: Chunk)
    requires p < q < |events| && events[p].ToolBlockStart?
  {
    && c.ToolEnd? && c.toolId == events[p].id && c.toolName == events[p].name && c.index == events[p].index
    && Parses(loads, JsonText(events, p + 1, q, c.index), c.input)
  }

  /** The input is the object the text stands for; a value of another kind is wrapped, and text that does not parse is
      no input. */
  predicate Parses(loads: string -> Option<Json>, text: string, input: Payload) {
    match loads(text)
    case None => input == map[]
    case Some(Obj(o)) => input == o
    case Some(v) => input.Keys == {"_value"} && input["_value"] == v
  }

  /** Each event that is to be heard gives exactly one chunk, at its place, and nothing else gives any: chunk `j` comes
      from event `at[j]`. */
  ghost predicate Accounts(loads: string -> Option<Json>, events: seq<StreamEvent>, k: nat, out: seq<Chunk>,
                           at: seq<nat>) {
    && k <= |events| && |at| == |out|
    && (forall i, j :: 0 <= i < j < |at| ==> at[i] < at[j])
    && (forall j :: 0 <= j < |at| ==> at[j] < k && HeardAs(loads, events, at[j], out[j]))
    && (forall q :: 0 <= q < k ==> (Heard(events, q) <==> q in at))
  }

  /** The chunks of one event. */
  ghost predicate HeardOnce(loads: string -> Option<Json>, events: seq<StreamEvent>, k: nat, chunks: seq<Chunk>)
    requires k < |events|
  {
    if Heard(events, k) then |chunks| == 1 && HeardAs(loads, events, k, chunks[0]) else chunks == []
  }

  lemma {:induction false} AccountsMore(loads: string -> Option<Json>, events: seq<StreamEvent>, k: nat,
                                        out: seq<Chunk>, at: seq<nat>, chunks: seq<Chunk>)
    returns (at': seq<nat>)
    requires Accounts(loads, events, k, out, at) && k < |events| && HeardOnce(loads, events, k, chunks)
    ensures Accounts(loads, events, k + 1, out + chunks, at')
  {
    at' := if Heard(events, k) then at + [k] else at;
    assert Heard(events, k) ==> at'[|at|] == k;
    assert out + [] == out;
  }

  lemma {:induction false} OpenIsUnique(events: seq<StreamEvent>, k: nat, index: int, p: nat, q: nat)
    requires k <= |events| && IsOpen(events, k, index, p) && IsOpen(events, k, index, q)
    ensures p == q
  {
  }

  lemma {:induction false} HeardAsIsUnique(loads: string -> Option<Json>, events: seq<StreamEvent>, q: nat, c: Chunk,
                                           d: Chunk)
    requires q < |events| && HeardAs(loads, events, q, c) && HeardAs(loads, events, q, d)
    ensures c == d
  {
    if events[q].BlockStop? {
      var p: nat :| IsOpen(events, q, events[q].index, p) && Ends(loads, events, p, q, c);
      var r: nat :| IsOpen(events, q, events[q].index, r) && Ends(loads, events, r, q, d);
      OpenIsUnique(events, q, events[q].index, p, r);
    }
  }

  /** The output before the last event. */
  lemma {:induction false} AccountsLess(loads: string -> Option<Json>, events: seq<StreamEvent>, k: nat,
                                        out: seq<Chunk>, at: seq<nat>)
    returns (n: nat)
    requires Accounts(loads, events, k, out, at) && k > 0
    ensures |out| == |at| == (if Heard(events, k - 1) then n + 1 else n) && Accounts(loads, events, k - 1, out[..n], at[..n])
    ensures Heard(events, k - 1) ==> at[n] == k - 1 && HeardAs(loads, events, k - 1, out[n])
  {
    n := |at|;
    if Heard(events, k - 1) {
      var j :| 0 <= j < |at| && at[j] == k - 1;
      assert j == |at| - 1 by { assert at[|at| - 1] < k; }
      n := j;
    }
  }

  /** The events and the parser determine the output: it is right in one way only. */
  lemma {:induction false} OutputIsDetermined(loads: string -> Option<Json>, events: seq<StreamEvent>, k: nat,
                                              out: seq<Chunk>, at: seq<nat>, out': seq<Chunk>, at': seq<nat>)
    requires Accounts(loads, events, k, out, at) && Accounts(loads, events, k, out', at')
    ensures out == out' && at == at'
  {
    if k > 0 {
      var n := AccountsLess(loads, events, k, out, at);
      var n' := AccountsLess(loads, events, k, out', at');
      OutputIsDetermined(loads, events, k - 1, out[..n], at[..n], out'[..n'], at'[..n']);
      assert n == n' by { assert |at[..n]| == n && |at'[..n']| == n'; }
      if Heard(events, k - 1) {
        HeardAsIsUnique(loads, events, k - 1, out[n], out'[n]);
      }
      SamePrefix(out, out', n);
      SamePrefix(at, at', n);
    } else {
      AscendingBelow(at, 0);
      AscendingBelow(at', 0);
    }
  }

  lemma {:induction false} AscendingBelow(at: seq<nat>, k: nat)
    requires (forall i, j :: 0 <= i < j < |at| ==> at[i] < at[j]) && forall i :: 0 <= i < |at| ==> at[i] < k
    ensures |at| <= k
  {
    if at != [] {
      AscendingBelow(at[..|at| - 1], at[|at| - 1]);
    }
  }

  lemma {:induction false} SamePrefix<T>(s: seq<T>, t: seq<T>, n: nat)
    requires n <= |s| <= n + 1 && |s| == |t| && s[..n] == t[..n] && (|s| > n ==> s[n] == t[n])
    ensures s == t
  {
    assert s == s[..n] + s[n..] && t == t[..n] + t[n..];
  }

  /** Usage, done and error chunks. */
  predicate Closing(c: Chunk) {
    c.Usage? || c.Done? || c.Failure?
  }

  /** Every tool_call_end carries the parse of exactly the input deltas at its index since the latest tool_use start
      there, and the streamed part of the output never contains a closing chunk. */
  lemma {:induction false} EveryToolEnd(loads: string -> Option<Json>, events: seq<StreamEvent>, k: nat,
                                        out: seq<Chunk>, at: seq<nat>, c: Chunk)
    requires Accounts(loads, events, k, out, at) && c in out
    ensures !Closing(c)
    ensures c.ToolEnd? ==>
              exists p: nat, q: nat :: p < q < k && IsOpen(events, q, c.index, p) && events[q] == BlockStop(c.index)
                && c.toolId == events[p].id && c.toolName == events[p].name
                && Parses(loads, JsonText(events, p + 1, q, c.index), c.input)
  {
    var j :| 0 <= j < |out| && out[j] == c;
    assert HeardAs(loads, events, at[j], c);
    if c.ToolEnd? {
      var p: nat :| IsOpen(events, at[j], events[at[j]].index, p) && Ends(loads, events, p, at[j], c);
      assert 0 <= p < at[j] < k;
    }
  }

  /** Every stop of an open block gives exactly one tool_call_end, between the chunks of the events before it and those of
      the events after it; a stop of no open block gives none. */
  lemma {:induction false} EveryStopEnds(loads: string -> Option<Json>, events: seq<StreamEvent>, k: nat,
                                         out: seq<Chunk>, at: seq<nat>, q: nat)
    requires Accounts(loads, events, k, out, at) && q < k && events[q].BlockStop?
    ensures (exists j :: 0 <= j < |out| && at[j] == q) <==> exists p: nat :: IsOpen(events, q, events[q].index, p)
    ensures forall p: nat :: IsOpen(events, q, events[q].index, p) ==>
              exists j :: 0 <= j < |out| && at[j] == q && Ends(loads, events, p, q, out[j])
                && forall i :: 0 <= i < |out| ==> (i < j <==> at[i] < q) && (j < i <==> q < at[i])
  {
    forall p: nat | IsOpen(events, q, events[q].index, p)
      ensures exists j :: 0 <= j < |out| && at[j] == q && Ends(loads, events, p, q, out[j])
                && forall i :: 0 <= i < |out| ==> (i < j <==> at[i] < q) && (j < i <==> q < at[i])
    {
      assert Heard(events, q);
      var j :| 0 <= j < |at| && at[j] == q;
      assert HeardAs(loads, events, q, out[j]);
      var r: nat :| IsOpen(events, q, events[q].index, r) && Ends(loads, events, r, q, out[j]);
      OpenIsUnique(events, q, events[q].index, p, r);
    }
  }

  // ---- Usage ---------------------------------------------------------------------------------------

  datatype Counts = Counts(input: nat, output: nat, cached: nat)

  function OrElse(o: Option<nat>, default: nat): nat {
    if o.Some? then o.value else default
  }

  function Max(a: nat, b: nat): nat {
    if a < b then b else a
  }

  function Count(events: seq<StreamEvent>, k: nat): Counts
    requires k <= |events|
  {
    if k == 0 then Counts(0, 0, 0)
    else
      var c := Count(events, k - 1);
      match events[k - 1]
      case MessageStart(i, r, o) => Counts(OrElse(i, 0), OrElse(o, 0), OrElse(r, 0))
      case MessageDelta(i, r, o) => Counts(Max(c.input, OrElse(i, 0)), OrElse(o, c.output), OrElse(r, c.cached))
      case _ => c
  }

  /** Counted since the message start at `s`: the largest input reported, and the latest output. */
  lemma {:induction false} CountMeaning(events: seq<StreamEvent>, s: nat, k: nat)
    requires s < k <= |events| && events[s].MessageStart?
    requires forall j :: s < j < k ==> !events[j].MessageStart?
    ensures var c := Count(events, k);
            && c.input >= OrElse(events[s].input, 0)
            && (forall j :: s < j < k && events[j].MessageDelta? ==> c.input >= OrElse(events[j].input, 0))
            && (c.input == OrElse(events[s].input, 0)
                || exists j :: s < j < k && events[j].MessageDelta? && events[j].input == Some(c.input))
    ensures var c := Count(events, k);
            (exists j :: s < j < k && events[j].MessageDelta? && events[j].output == Some(c.output)
               && forall i :: j < i < k && events[i].MessageDelta? ==> events[i].output == None)
            || (c.output == OrElse(events[s].output, 0)
                && forall j :: s < j < k && events[j].MessageDelta? ==> events[j].output == None)
    ensures var c := Count(events, k);
            (exists j :: s < j < k && events[j].MessageDelta? && events[j].cacheRead == Some(c.cached)
               && forall i :: j < i < k && events[i].MessageDelta? ==> events[i].cacheRead == None)
            || (c.cached == OrElse(events[s].cacheRead, 0)
                && forall j :: s < j < k && events[j].MessageDelta? ==> events[j].cacheRead == None)
  {
    if k > s + 1 {
      CountMeaning(events, s, k - 1);
    }
  }

  // ---- The loop of the source ----------------------------------------------------------------------------

  datatype ToolBlockState = ToolBlockState(toolId: string, toolName: string, partialJsonBuf: string)

  /** The dictionary holds exactly the open blocks, each with the text received since it was opened. */
  ghost predicate Tracks(events: seq<StreamEvent>, k: nat, blocks: map<int, ToolBlockState>)
    requires k <= |events|
  {
    forall i :: (i in blocks <==> OpenAt(events, k, i).Some?)
                && (i in blocks ==> BlockIs(events, k, i, blocks[i]))
  }

  ghost predicate BlockIs(events: seq<StreamEvent>, k: nat, index: int, b: ToolBlockState)
    requires k <= |events|
  {
    match OpenAt(events, k, index)
    case None => false
    case Some(p) =>
      b == ToolBlockState(events[p].id, events[p].name, JsonText(events, p + 1, k, index))
  }

  lemma {:induction false} TrackOther(events: seq<StreamEvent>, k: nat, blocks: map<int, ToolBlockState>)
    requires k < |events| && Tracks(events, k, blocks)
    requires !events[k].ToolBlockStart? && !events[k].BlockStop?
    requires events[k].JsonPiece? ==> events[k].index !in blocks
    ensures Tracks(events, k + 1, blocks)
  {
    forall i ensures (i in blocks <==> OpenAt(events, k + 1, i).Some?)
                     && (i in blocks ==> BlockIs(events, k + 1, i, blocks[i]))
    {
      assert OpenAt(events, k + 1, i) == OpenAt(events, k, i);
    }
  }

  lemma {:induction false} TrackPiece(events: seq<StreamEvent>, k: nat, blocks: map<int, ToolBlockState>)
    requires k < |events| && Tracks(events, k, blocks) && events[k].JsonPiece? && events[k].index in blocks
    ensures var b := blocks[events[k].index];
            Tracks(events, k + 1, blocks[events[k].index := b.(partialJsonBuf := b.partialJsonBuf + events[k].partialJson)])
  {
    var b := blocks[events[k].index];
    var after := blocks[events[k].index := b.(partialJsonBuf := b.partialJsonBuf + events[k].partialJson)];
    forall i ensures (i in after <==> OpenAt(events, k + 1, i).Some?)
                     && (i in after ==> BlockIs(events, k + 1, i, after[i]))
    {
      assert OpenAt(events, k + 1, i) == OpenAt(events, k, i);
    }
  }

  lemma {:induction false} TrackBoundary(events: seq<StreamEvent>, k: nat, blocks: map<int, ToolBlockState>)
    requires k < |events| && Tracks(events, k, blocks) && (events[k].ToolBlockStart? || events[k].BlockStop?)
    ensures Tracks(events, k + 1,
                   if events[k].BlockStop? then blocks - {events[k].index}
                   else blocks[events[k].index := ToolBlockState(events[k].id, events[k].name, "")])
  {
    var after := if events[k].BlockStop? then blocks - {events[k].index}
                 else blocks[events[k].index := ToolBlockState(events[k].id, events[k].name, "")];
    forall i ensures (i in after <==> OpenAt(events, k + 1, i).Some?)
                     && (i in after ==> BlockIs(events, k + 1, i, after[i]))
    {
      if i != events[k].index {
        assert OpenAt(events, k + 1, i) == OpenAt(events, k, i);
      }
    }
  }

  /** The dictionary holds an index exactly while a block is open there, with what the block has received. */
  lemma {:induction false} OpenIn(events: seq<StreamEvent>, k: nat, blocks: map<int, ToolBlockState>, index: int)
    requires k <= |events| && Tracks(events, k, blocks)
    ensures index in blocks <==> exists p: nat :: IsOpen(events, k, index, p)
    ensures forall p: nat :: IsOpen(events, k, index, p) ==>
              blocks[index] == ToolBlockState(events[p].id, events[p].name, JsonText(events, p + 1, k, index))
  {
    forall p: nat ensures OpenAt(events, k, index) == Some(p) <==> IsOpen(events, k, index, p) {
      OpenMeaning(events, k, index, p);
    }
    if index in blocks {
      assert BlockIs(events, k, index, blocks[index]);
      assert IsOpen(events, k, index, OpenAt(events, k, index).value);
    }
  }

  /** One iteration over the provider's events, its effect on the open blocks and the chunks it yields. */
  method Demultiplex(loads: string -> Option<Json>, ghost events: seq<StreamEvent>, ghost k: nat, event: StreamEvent,
                     blocks: map<int, ToolBlockState>)
    returns (toolBlocks: map<int, ToolBlockState>, chunks: seq<Chunk>)
    requires k < |events| && event == events[k] && Tracks(events, k, blocks)
    ensures Tracks(events, k + 1, toolBlocks)
    ensures HeardOnce(loads, events, k, chunks)
  {
    toolBlocks, chunks := blocks, [];
    match event
    case ToolBlockStart(index, id, name) =>
      toolBlocks := blocks[index := ToolBlockState(id, name, "")];
      chunks := [ToolStart(id, name, index)];
      TrackBoundary(events, k, blocks);
    case TextPiece(_, text) =>
      chunks := [TextDelta(text)];
      TrackOther(events, k, blocks);
    case JsonPiece(index, piece) =>
      OpenIn(events, k, blocks, index);
      if index in blocks {
        var state := blocks[index];
        toolBlocks := blocks[index := state.(partialJsonBuf := state.partialJsonBuf + piece)];
        chunks := [ToolPiece(state.toolId, piece, index)];
        TrackPiece(events, k, blocks);
      } else {
        TrackOther(events, k, blocks);
      }
    case BlockStop(index) =>
      OpenIn(events, k, blocks, index);
      if index in blocks {
        var state := blocks[index];
        chunks := [ToolEnd(state.toolId, state.toolName, SafeLoads(loads, state.partialJsonBuf), index)];
      }
      toolBlocks := blocks - {index};
      TrackBoundary(events, k, blocks);
    case _ => TrackOther(events, k, blocks);
  }

  /** The chunks after the streamed ones. */
  function ClosingChunks(events: seq<StreamEvent>, ending: Ending): seq<Chunk> {
    match ending
    case Foreign => []
    case StatusError(code, message) => [Failure(message, code >= 500, Some(code))]
    case ConnectionError(message) => [Failure(message, true, None)]
    case Clean => var c := Count(events, |events|); [Usage(c.input, c.output, c.cached), Done]
  }

  /** The chunks account for the events, and then come the closing chunks. */
  ghost predicate Streams(loads: string -> Option<Json>, events: seq<StreamEvent>, ending: Ending, chunks: seq<Chunk>,
                          at: seq<nat>) {
    && |at| <= |chunks| && Accounts(loads, events, |events|, chunks[..|at|], at)
    && chunks[|at|..] == ClosingChunks(events, ending)
  }

  /** `_stream` after the stream is open: `raised` is set when a foreign exception leaves it. */
  method Stream(loads: string -> Option<Json>, events: seq<StreamEvent>, ending: Ending)
    returns (chunks: seq<Chunk>, raised: bool)
    ensures raised <==> ending.Foreign?
    ensures exists at :: Streams(loads, events, ending, chunks, at)
  {
    var toolBlocks: map<int, ToolBlockState> := map[];
    var inputTokens: nat, cachedInputTokens: nat, outputTokens: nat := 0, 0, 0;
    ghost var at := [];
    chunks := [];
    for k := 0 to |events|
      invariant Tracks(events, k, toolBlocks)
      invariant Counts(inputTokens, outputTokens, cachedInputTokens) == Count(events, k)
      invariant Accounts(loads, events, k, chunks, at)
    {
      var yielded;
      toolBlocks, yielded := Demultiplex(loads, events, k, events[k], toolBlocks);
      at := AccountsMore(loads, events, k, chunks, at, yielded);
      chunks := chunks + yielded;
      match events[k] {
        case MessageStart(i, r, o) =>
          inputTokens, cachedInputTokens, outputTokens := OrElse(i, 0), OrElse(r, 0), OrElse(o, 0);
        case MessageDelta(i, r, o) =>
          if o.Some? { outputTokens := o.value; }
          if r.Some? { cachedInputTokens := r.value; }
          if i.Some? && inputTokens < i.value { inputTokens := i.value; }
        case _ =>
      }
    }
    ghost var streamed := chunks;
    raised := false;
    match ending {
      case Foreign => raised := true;
      case StatusError(code, message) => chunks := chunks + [Failure(message, code >= 500, Some(code))];
      case ConnectionError(message) => chunks := chunks + [Failure(message, true, None)];
      case Clean => chunks := chunks + [Usage(inputTokens, outputTokens, cachedInputTokens), Done];
    }
    assert chunks[..|at|] == streamed;
    assert Streams(loads, events, ending, chunks, at);
  }

  /** A stream that no foreign exception leaves ends in exactly `[usage, done]` or `[error]`, with nothing after it and
      no closing chunk before. */
  lemma {:induction false} ClosesOnce(loads: string -> Option<Json>, events: seq<StreamEvent>, ending: Ending,
                                      chunks: seq<Chunk>, at: seq<nat>)
    requires Streams(loads, events, ending, chunks, at)
    ensures forall i :: 0 <= i < |chunks| ==> (Closing(chunks[i]) <==> i >= |at|)
    ensures var tail := chunks[|at|..];
            if ending.Foreign? then tail == []
            else if ending.Clean? then |tail| == 2 && tail[0].Usage? && tail[1].Done?
            else |tail| == 1 && tail[0].Failure?
  {
    var streamed, tail := chunks[..|at|], chunks[|at|..];
    forall i | 0 <= i < |chunks| ensures Closing(chunks[i]) <==> i >= |at| {
      if i < |at| {
        assert chunks[i] == streamed[i] && streamed[i] in streamed;
        EveryToolEnd(loads, events, |events|, streamed, at, streamed[i]);
      } else {
        assert chunks[i] == tail[i - |at|];
      }
    }
  }

  // ---- Opening the stream ------------------------------------------------------------------------------------

  datatype Attempt = Opened | Refused(code: int, message: string) | Unreachable(message: string) | Crashed

  datatype Opening = Streaming | GaveUp(chunk: Chunk) | Raises

  /** Worth another attempt: a status of 500 or more, or no connection. */
  predicate Transient(a: Attempt) {
    a.Unreachable? || (a.Refused? && a.code >= 500)
  }

  function Pow(x: real, n: nat): real {
    if n == 0 then 1.0 else x * Pow(x, n - 1)
  }

  function Total(s: seq<real>): real {
    if s == [] then 0.0 else Total(s[..|s| - 1]) + s[|s| - 1]
  }

  /** The sleep after attempt `k`, counted from 0. */
  function Sleep(base: real, multiplier: real, k: nat): real {
    base * Pow(multiplier, k)
  }

  /** `base * (1 + m + ... + m^(n-1))` */
  function Backoff(base: real, multiplier: real, n: nat): real {
    if n == 0 then 0.0 else Backoff(base, multiplier, n - 1) + Sleep(base, multiplier, n - 1)
  }

  /** These are the first sleeps, and their total is the backoff. */
  ghost predicate Sleeps(slept: seq<real>, base: real, multiplier: real) {
    && Total(slept) == Backoff(base, multiplier, |slept|)
    && forall k :: 0 <= k < |slept| ==> slept[k] == Sleep(base, multiplier, k)
  }

  lemma {:induction false} SleepOnce(slept: seq<real>, base: real, multiplier: real)
    requires Sleeps(slept, base, multiplier)
    ensures Sleeps(slept + [Sleep(base, multiplier, |slept|)], base, multiplier)
  {
    var more := slept + [Sleep(base, multiplier, |slept|)];
    assert more[..|more| - 1] == slept;
  }

  function MaxAttempts(retryOnTransient: bool, maxRetries: nat): nat {
    if retryOnTransient then maxRetries + 1 else 1
  }

  /** The outcome of the last attempt made. */
  ghost predicate Concludes(a: Attempt, exhausted: bool, r: Opening) {
    match a
    case Opened => r == Streaming
    case Crashed => r == Raises
    case Refused(code, message) =>
      r.GaveUp? && r.chunk.Failure? && r.chunk.statusCode == Some(code)
      && r.chunk.retryable == (code >= 500) && (code >= 500 ==> exhausted)
    case Unreachable(message) =>
      r.GaveUp? && r.chunk.Failure? && r.chunk.statusCode == None && r.chunk.retryable && exhausted
  }

  /** `_open_stream_with_retry` over any behaviour of the endpoint: it stops at the first attempt that is not transient,
      or at the last allowed one, and sleeps between attempts only. */
  method OpenStreamWithRetry(attempts: nat -> Attempt, retryOnTransient: bool, maxRetries: nat, base: real,
                             multiplier: real)
    returns (r: Opening, made: nat, slept: seq<real>)
    ensures 1 <= made <= MaxAttempts(retryOnTransient, maxRetries)
    ensures forall k :: 0 <= k < made - 1 ==> Transient(attempts(k))
    ensures Transient(attempts(made - 1)) ==> made == MaxAttempts(retryOnTransient, maxRetries)
    ensures Concludes(attempts(made - 1), made == MaxAttempts(retryOnTransient, maxRetries), r)
    ensures |slept| == made - 1 && Sleeps(slept, base, multiplier)
  {
    var maxAttempts := if retryOnTransient then maxRetries + 1 else 1;
    var lastRetryable: Option<Attempt> := None;
    slept := [];
    made := 0;
    while made < maxAttempts
      invariant 0 <= made <= maxAttempts
      invariant forall k :: 0 <= k < made ==> Transient(attempts(k))
      invariant made > 0 ==> lastRetryable == Some(attempts(made - 1))
      invariant |slept| == (if made < maxAttempts then made else made - 1)
      invariant Sleeps(slept, base, multiplier)
    {
      var attempt := attempts(made);
      made := made + 1;
      match attempt {
        case Opened => return Streaming, made, slept;
        case Crashed => return Raises, made, slept;
        case Refused(code, message) =>
          if code < 500 {
            return GaveUp(Failure(message, false, Some(code))), made, slept;
          }
          lastRetryable := Some(attempt);
        case Unreachable(_) =>
          lastRetryable := Some(attempt);
      }
      if made < maxAttempts {
        SleepOnce(slept, base, multiplier);
        slept := slept + [Sleep(base, multiplier, made - 1)];
      }
    }
    var exc := lastRetryable.value;
    r := GaveUp(Failure("anthropic stream startup failed after retries: " + exc.message, true,
                        if exc.Refused? then Some(exc.code) else None));
  }

  lemma {:induction false} GeometricStep(base: real, m: real, p: real)
    ensures base * (p - 1.0) + (m - 1.0) * (base * p) == base * (m * p - 1.0)
  {
    var q := base * p;
    assert base * (p - 1.0) == q - base;
    assert (m - 1.0) * q == m * q - q;
    assert base * (m * p) == m * q;
  }

  lemma {:induction false} Distribute(x: real, y: real, z: real)
    ensures x * (y + z) == x * y + x * z
  {
  }

  /** The total delay in closed form. */
  lemma {:induction false} BackoffClosedForm(base: real, multiplier: real, n: nat)
    ensures (multiplier - 1.0) * Backoff(base, multiplier, n) == base * (Pow(multiplier, n) - 1.0)
  {
    if n > 0 {
      var p := Pow(multiplier, n - 1);
      BackoffClosedForm(base, multiplier, n - 1);
      Distribute(multiplier - 1.0, Backoff(base, multiplier, n - 1), base * p);
      GeometricStep(base, multiplier, p);
    }
  }

  // ---- What is sent -----------------------------------------------------------------------------------------------

  datatype Role = FromUser | FromAssistant

  datatype WireContent = Plain(text: string) | Blocks(blocks: seq<Block>)

  datatype Wire = Wire(role: Role, content: WireContent)

  /** A block on the wire: `is_error` is sent only when true. */
  function WireBlock(b: Block): Block {
    if b.ToolAnswer? && b.isError == Some(false) then b.(isError := None) else b
  }

  function WireBlocks(blocks: seq<Block>): seq<Block> {
    if blocks == [] then [] else [WireBlock(blocks[0])] + WireBlocks(blocks[1..])
  }

  function WireOf(m: Message): seq<Wire> {
    match m
    case System(_) => []
    case User(content) => [Wire(FromUser, Plain(content))]
    case Assistant(blocks) => [Wire(FromAssistant, Blocks(WireBlocks(blocks)))]
    case Tool(blocks) => [Wire(FromUser, Blocks(WireBlocks(blocks)))]
  }

  /** `_split_system`, its second result: system messages go elsewhere and tool messages are sent as the user's. */
  function ToWire(ms: seq<Message>): seq<Wire> {
    if ms == [] then [] else WireOf(ms[0]) + ToWire(ms[1..])
  }

  /** The texts of the system messages, in order. */
  function SystemTexts(ms: seq<Message>): seq<string> {
    if ms == [] then []
    else
      var m := ms[|ms| - 1];
      SystemTexts(ms[..|ms| - 1]) + if m.System? then [m.content] else []
  }

  lemma {:induction false} SplitSnoc(ms: seq<Message>, m: Message)
    ensures m.System? ==> ToWire(ms + [m]) == ToWire(ms) && SystemTexts(ms + [m]) == SystemTexts(ms) + [m.content]
    ensures !m.System? ==>
              |WireOf(m)| == 1 && ToWire(ms + [m]) == ToWire(ms) + [WireOf(m)[0]] && SystemTexts(ms + [m]) == SystemTexts(ms)
  {
    WireConcat(ms, [m]);
    assert [m][1..] == [] && (ms + [m])[..|ms|] == ms;
    assert ToWire([m]) == WireOf(m);
    assert ToWire(ms) + [] == ToWire(ms) && SystemTexts(ms) + [] == SystemTexts(ms);
  }

  method SplitSystem(messages: seq<Message>) returns (system: seq<string>, out: seq<Wire>)
    ensures out == ToWire(messages) && system == SystemTexts(messages)
  {
    system, out := [], [];
    for i := 0 to |messages|
      invariant out == ToWire(messages[..i]) && system == SystemTexts(messages[..i])
    {
      SplitSnoc(messages[..i], messages[i]);
      assert messages[..i + 1] == messages[..i] + [messages[i]];
      match messages[i]
      case System(content) => system := system + [content];
      case User(content) => out := out + [Wire(FromUser, Plain(content))];
      case Assistant(blocks) => out := out + [Wire(FromAssistant, Blocks(WireBlocks(blocks)))];
      case Tool(blocks) => out := out + [Wire(FromUser, Blocks(WireBlocks(blocks)))];
    }
    assert messages[..|messages|] == messages;
  }

  /** The system messages, or all others. */
  function Of(ms: seq<Message>, system: bool): seq<Message> {
    if ms == [] then []
    else Of(ms[..|ms| - 1], system) + if ms[|ms| - 1].System? == system then [ms[|ms| - 1]] else []
  }

  /** The block is sent as it is, `is_error` only where it is true. */
  predicate CarriedAs(b: Block, w: Block) {
    match b
    case ToolAnswer(id, content, isError) =>
      w == ToolAnswer(id, content, if isError.Some? && isError.value then Some(true) else None)
    case _ => w == b
  }

  predicate Carries(w: seq<Block>, blocks: seq<Block>) {
    |w| == |blocks| && forall i :: 0 <= i < |w| ==> CarriedAs(blocks[i], w[i])
  }

  predicate SentAs(m: Message, w: Wire) {
    match m
    case User(content) => w == Wire(FromUser, Plain(content))
    case Assistant(blocks) => w.role == FromAssistant && w.content.Blocks? && Carries(w.content.blocks, blocks)
    case Tool(blocks) => w.role == FromUser && w.content.Blocks? && Carries(w.content.blocks, blocks)
    case System(_) => false
  }

  lemma {:induction false} WireBlocksAt(blocks: seq<Block>, i: nat)
    requires i < |blocks|
    ensures |WireBlocks(blocks)| == |blocks| && CarriedAs(blocks[i], WireBlocks(blocks)[i])
  {
    if i > 0 {
      WireBlocksAt(blocks[1..], i - 1);
    } else if |blocks| > 1 {
      WireBlocksAt(blocks[1..], 0);
    }
  }

  lemma {:induction false} WireBlocksCarry(blocks: seq<Block>)
    ensures Carries(WireBlocks(blocks), blocks)
  {
    if blocks != [] { WireBlocksAt(blocks, 0); }
    forall i | 0 <= i < |blocks| ensures CarriedAs(blocks[i], WireBlocks(blocks)[i]) {
      WireBlocksAt(blocks, i);
    }
  }

  /** Each system message is sent as its text, each other message as one wire message of its own with all its text and
      blocks, both in order. */
  lemma {:induction false} EverythingIsSent(ms: seq<Message>)
    ensures var texts, system := SystemTexts(ms), Of(ms, true);
            |texts| == |system| && forall i :: 0 <= i < |texts| ==> system[i] == System(texts[i])
    ensures var out, others := ToWire(ms), Of(ms, false);
            |out| == |others| && forall i :: 0 <= i < |out| ==> SentAs(others[i], out[i])
  {
    if ms != [] {
      var front, m := ms[..|ms| - 1], ms[|ms| - 1];
      EverythingIsSent(front);
      SplitSnoc(front, m);
      assert ms == front + [m];
      if m.Assistant? || m.Tool? {
        WireBlocksCarry(m.blocks);
      }
    }
  }

  function WireAsks(w: Wire): seq<string> {
    if w.role == FromAssistant && w.content.Blocks? then UseIds(w.content.blocks) else []
  }

  function WireAnswers(w: Wire): seq<string> {
    if w.role == FromUser && w.content.Blocks? then AnswerIds(w.content.blocks) else []
  }

  /** Each message answers exactly the ids the one before it asked, in order; the first answers `owed` and nothing is
      owed after the last. */
  predicate AnswersEach(owed: seq<string>, out: seq<Wire>)
    decreases |out|
  {
    if out == [] then owed == []
    else WireAnswers(out[0]) == owed && AnswersEach(WireAsks(out[0]), out[1..])
  }

  lemma {:induction false} WireIds(blocks: seq<Block>)
    ensures UseIds(WireBlocks(blocks)) == UseIds(blocks) && AnswerIds(WireBlocks(blocks)) == AnswerIds(blocks)
  {
    if blocks != [] {
      WireIds(blocks[1..]);
    }
  }

  lemma {:induction false} SuffixOnWire(ms: seq<Message>, k: nat)
    requires Paired(ms) && k <= |ms|
    ensures AnswersEach(if k > 0 then Asks(ms[k - 1]) else [], ToWire(ms[k..]))
    decreases |ms| - k
  {
    if k == |ms| {
      if k > 0 { assert PairedAt(ms, k - 1); }
    } else {
      var m := ms[k];
      assert PairedAt(ms, k);
      assert ms[k..][1..] == ms[k + 1..];
      SuffixOnWire(ms, k + 1);
      if m.Assistant? || m.Tool? { WireIds(m.blocks); }
      if m.System? {
        assert ToWire(ms[k..]) == ToWire(ms[k + 1..]);
      } else {
        var w := WireOf(m)[0];
        assert ToWire(ms[k..]) == [w] + ToWire(ms[k + 1..]);
        assert ([w] + ToWire(ms[k + 1..]))[1..] == ToWire(ms[k + 1..]);
        assert WireAsks(w) == Asks(m) && WireAnswers(w) == Answers(m);
      }
    }
  }

  lemma {:induction false} LastOnWire(ms: seq<Message>)
    requires AwaitsModel(ms)
    ensures ToWire(ms) != [] && ToWire(ms)[|ToWire(ms)| - 1].role == FromUser
  {
    var n := |ms| - 1;
    WireConcat(ms[..n], [ms[n]]);
    assert ms == ms[..n] + [ms[n]];
    assert [ms[n]][1..] == [];
    if ms[n].System? {
      LastOnWire(ms[..n]);
    }
  }

  lemma {:induction false} WireConcat(a: seq<Message>, b: seq<Message>)
    ensures ToWire(a + b) == ToWire(a) + ToWire(b)
  {
    if a == [] {
      assert a + b == b;
    } else {
      assert (a + b)[1..] == a[1..] + b;
      WireConcat(a[1..], b);
      assert (WireOf(a[0]) + ToWire(a[1..])) + ToWire(b) == WireOf(a[0]) + (ToWire(a[1..]) + ToWire(b));
    }
  }

  /** The pairing rule survives the translation to the wire: system messages aside, what an assistant message asks is
      answered by the user message right after it, and the request ends with a user message. */
  lemma {:induction false} WireIsPaired(ms: seq<Message>)
    requires Paired(ms)
    ensures AnswersEach([], ToWire(ms))
    ensures AwaitsModel(ms) ==> ToWire(ms) != [] && ToWire(ms)[|ToWire(ms)| - 1].role == FromUser
  {
    SuffixOnWire(ms, 0);
    assert ms[0..] == ms;
    if AwaitsModel(ms) {
      LastOnWire(ms);
    }
  }
}
