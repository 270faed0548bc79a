/** Compaction: the active view of an append-only log, the truncate planner, and what any stack of their records keeps. */
module Compaction {
  import opened Values
  import opened Events
  import opened Pairing

  const CHARS_PER_TOKEN := 4

  // ---- Token estimate ---------------------------------------------------------------

  function TotalChars(size: Payload -> nat, events: seq<Event>): nat {
    if events == [] then 0
    else TotalChars(size, events[..|events| - 1]) + size(events[|events| - 1].payload)
  }

  function Tokens(size: Payload -> nat, events: seq<Event>): nat {
    var tokens := TotalChars(size, events) / CHARS_PER_TOKEN;
    if tokens < 1 then 1 else tokens
  }

  /** A quarter of the characters, rounded down, but at least one token. */
  predicate IsEstimate(tokens: nat, chars: nat) {
    tokens >= 1 && (tokens == 1 || 4 * tokens <= chars) && chars < 4 * tokens + 4
  }

  lemma {:induction false} TokensAreAnEstimate(size: Payload -> nat, events: seq<Event>, tokens: nat)
    ensures IsEstimate(tokens, TotalChars(size, events)) <==> tokens == Tokens(size, events)
  {
  }

  method EstimateEventTokens(size: Payload -> nat, events: seq<Event>) returns (tokens: nat)
    ensures tokens == Tokens(size, events) && IsEstimate(tokens, TotalChars(size, events))
  {
    var totalChars := 0;
    for i := 0 to |events|
      invariant totalChars == TotalChars(size, events[..i])
    {
      assert events[..i + 1][..i] == events[..i];
      totalChars := totalChars + size(events[i].payload);
    }
    assert events[..|events|] == events;
    tokens := totalChars / CHARS_PER_TOKEN;
    if tokens < 1 {
      tokens := 1;
    }
  }

  // ---- The active view ----------------------------------------------------------------

  /** The integers in a record's `dropped_sequences`; Python counts booleans among them. */
  function DroppedBy(record: Event): set<int> {
    match Get(record.payload, "dropped_sequences")
    case Arr(a) => set i | 0 <= i < |a| && (a[i].Num? || a[i].Bool?)
                       :: (match a[i] case Num(n) => n case Bool(b) => (if b then 1 else 0) case _ => 0)
    case _ => {}
  }

  function Latest(log: seq<Event>): Option<Event> {
    if log == [] then None
    else if IsCompaction(log[|log| - 1]) then Some(log[|log| - 1])
    else Latest(log[..|log| - 1])
  }

  /** Sequences the latest record hides. */
  function Hidden(log: seq<Event>): set<int> {
    match Latest(log)
    case Some(record) => DroppedBy(record)
    case None => {}
  }

  function ActiveView(log: seq<Event>): seq<Event> {
    View(log, Hidden(log))
  }

  method ApplyCompactionView(events: seq<Event>) returns (active: seq<Event>)
    ensures active == ActiveView(events)
  {
    var latest: Option<Event> := None;
    for i := 0 to |events|
      invariant latest == Latest(events[..i])
    {
      assert events[..i + 1][..i] == events[..i];
      if IsCompaction(events[i]) {
        latest := Some(events[i]);
      }
    }
    assert events[..|events|] == events;
    if latest.None? {
      NothingHidden(events);
      return events;
    }
    var dropped := DroppedBy(latest.value);
    active := [];
    for i := 0 to |events|
      invariant active == View(events[..i], dropped)
    {
      ViewConcat(events[..i], [events[i]], dropped);
      assert events[..i] + [events[i]] == events[..i + 1];
      assert [events[i]][1..] == [];
      if events[i].sequence !in dropped {
        active := active + [events[i]];
      }
    }
  }

  // ---- The planner ----------------------------------------------------------------------

  datatype Decision = Decision(dropped: seq<nat>, kept: seq<nat>, tokensBefore: nat, tokensAfter: nat)

  function FirstUser(events: seq<Event>): Option<nat> {
    if events == [] then None
    else if IsUser(events[0]) then Some(events[0].sequence)
    else FirstUser(events[1..])
  }

  /** Kept whatever its age: compaction records and the event that carries the first user message's sequence. */
  predicate Protected(active: seq<Event>, e: Event) {
    IsCompaction(e) || FirstUser(active) == Some(e.sequence)
  }

  predicate Keeps(active: seq<Event>, keepLastN: nat, i: int)
    requires 0 <= i < |active|
  {
    Protected(active, active[i]) || i >= |active| - keepLastN
  }

  /** Of the first `k` events of the view, those that are kept, or those that are not. */
  function Part(active: seq<Event>, keepLastN: nat, k: nat, keep: bool): seq<Event>
    requires k <= |active|
  {
    if k == 0 then []
    else Part(active, keepLastN, k - 1, keep)
         + (if Keeps(active, keepLastN, k - 1) == keep then [active[k - 1]] else [])
  }

  function Sequences(events: seq<Event>): (s: seq<nat>)
    ensures |s| == |events| && forall i :: 0 <= i < |s| ==> s[i] == events[i].sequence
  {
    if events == [] then [] else Sequences(events[..|events| - 1]) + [events[|events| - 1].sequence]
  }

  function Plan(active: seq<Event>, keepLastN: nat, size: Payload -> nat): Option<Decision> {
    var kept := Part(active, keepLastN, |active|, true);
    var dropped := Part(active, keepLastN, |active|, false);
    if dropped == [] then None
    else Some(Decision(Sequences(dropped), Sequences(kept), Tokens(size, active), Tokens(size, kept)))
  }

  method FindFirstUser(active: seq<Event>) returns (first: Option<nat>)
    ensures first == FirstUser(active)
  {
    first := None;
    for i := 0 to |active|
      invariant first == None && FirstUser(active) == FirstUser(active[i..])
    {
      assert active[i..][1..] == active[i + 1..];
      if active[i].kind == UserMessage {
        return Some(active[i].sequence);
      }
    }
  }

  method PlanTruncate(active: seq<Event>, keepLastN: nat, size: Payload -> nat) returns (plan: Option<Decision>)
    ensures plan == Plan(active, keepLastN, size)
  {
    var firstUserSeq := FindFirstUser(active);
    var total := |active|;
    if total == 0 {
      return None;
    }
    var keepIndices: set<int> := {};
    for i := 0 to total
      invariant forall k :: k in keepIndices <==> 0 <= k < i && Protected(active, active[k])
    {
      if IsCompaction(active[i]) {
        keepIndices := keepIndices + {i};
      }
      if firstUserSeq.Some? && active[i].sequence == firstUserSeq.value {
        keepIndices := keepIndices + {i};
      }
    }
    var tailStart := if total > keepLastN then total - keepLastN else 0;
    for i := tailStart to total
      invariant forall k :: k in keepIndices <==> 0 <= k < total && (Protected(active, active[k]) || tailStart <= k < i)
    {
      keepIndices := keepIndices + {i};
    }
    var kept, dropped := [], [];
    for i := 0 to total
      invariant kept == Part(active, keepLastN, i, true) && dropped == Part(active, keepLastN, i, false)
    {
      if i in keepIndices {
        kept := kept + [active[i]];
      } else {
        dropped := dropped + [active[i]];
      }
    }
    if dropped == [] {
      return None;
    }
    var before := EstimateEventTokens(size, active);
    var after := EstimateEventTokens(size, kept);
    plan := Some(Decision(Sequences(dropped), Sequences(kept), before, after));
  }

  function Numbers(s: seq<nat>): seq<Json> {
    seq(|s|, i requires 0 <= i < |s| => Num(s[i]))
  }

  function ToPayload(d: Decision): Payload {
    map["type" := Str("compaction"),
        "strategy" := Str("truncate"),
        "dropped_sequences" := Arr(Numbers(d.dropped)),
        "kept_sequences" := Arr(Numbers(d.kept)),
        "estimated_tokens_before" := Num(d.tokensBefore),
        "estimated_tokens_after" := Num(d.tokensAfter)]
  }

  function Record(d: Decision, sequence: nat): Event {
    Event(CompactionId(d.dropped), sequence, HarnessEvent, ToPayload(d))
  }

  /** These numbers, in this order, are stored under the key. */
  predicate Lists(p: Payload, key: string, numbers: seq<nat>) {
    && key in p && p[key].Arr? && |p[key].a| == |numbers|
    && forall i :: 0 <= i < |numbers| ==> p[key].a[i] == Num(numbers[i])
  }

  lemma RecordDrops(d: Decision, sequence: nat)
    ensures IsCompaction(Record(d, sequence))
    ensures forall x :: x in DroppedBy(Record(d, sequence)) <==> x in d.dropped
    ensures var p := Record(d, sequence).payload;
            && Lists(p, "dropped_sequences", d.dropped) && Lists(p, "kept_sequences", d.kept)
            && Get(p, "estimated_tokens_before") == Num(d.tokensBefore)
            && Get(p, "estimated_tokens_after") == Num(d.tokensAfter)
  {
    var a := Numbers(d.dropped);
    var record := Record(d, sequence);
    assert Get(record.payload, "dropped_sequences") == Arr(a);
    forall x | x in d.dropped ensures x in DroppedBy(record) {
      var i :| 0 <= i < |d.dropped| && d.dropped[i] == x;
      assert a[i] == Num(x);
    }
  }

  // ---- What a decision is ------------------------------------------------------------------

  lemma {:induction false} PartHolds(active: seq<Event>, n: nat, k: nat, keep: bool, e: Event)
    requires k <= |active|
    ensures e in Part(active, n, k, keep) <==> exists i :: 0 <= i < k && active[i] == e && Keeps(active, n, i) == keep
  {
    if k > 0 {
      PartHolds(active, n, k - 1, keep, e);
    }
  }

  lemma {:induction false} PartIncreasing(active: seq<Event>, n: nat, k: nat, keep: bool)
    requires k <= |active| && Increasing(active)
    ensures Increasing(Part(active, n, k, keep))
  {
    if k > 0 {
      PartIncreasing(active, n, k - 1, keep);
      forall e | e in Part(active, n, k - 1, keep) ensures e.sequence < active[k - 1].sequence {
        PartHolds(active, n, k - 1, keep, e);
      }
    }
  }

  lemma {:induction false} PartLengths(active: seq<Event>, n: nat, k: nat)
    requires k <= |active|
    ensures |Part(active, n, k, true)| + |Part(active, n, k, false)| == k
  {
    if k > 0 {
      PartLengths(active, n, k - 1);
    }
  }

  lemma {:induction false} CharsSnoc(size: Payload -> nat, events: seq<Event>, e: Event)
    ensures TotalChars(size, events + [e]) == TotalChars(size, events) + size(e.payload)
  {
    assert (events + [e])[..|events|] == events;
  }

  lemma {:induction false} PartStep(active: seq<Event>, n: nat, k: nat, keep: bool)
    requires k < |active|
    ensures Part(active, n, k + 1, keep)
         == Part(active, n, k, keep) + (if Keeps(active, n, k) == keep then [active[k]] else [])
  {
  }

  /** The size of a part after one more event. */
  lemma {:induction false} PartCharsStep(active: seq<Event>, n: nat, k: nat, keep: bool, size: Payload -> nat)
    requires k < |active|
    ensures TotalChars(size, Part(active, n, k + 1, keep))
         == TotalChars(size, Part(active, n, k, keep)) + if Keeps(active, n, k) == keep then size(active[k].payload) else 0
  {
    PartStep(active, n, k, keep);
    if Keeps(active, n, k) == keep {
      CharsSnoc(size, Part(active, n, k, keep), active[k]);
    } else {
      assert Part(active, n, k, keep) + [] == Part(active, n, k, keep);
    }
  }

  lemma {:induction false} CharsUpTo(size: Payload -> nat, events: seq<Event>, k: nat)
    requires k < |events|
    ensures TotalChars(size, events[..k + 1]) == TotalChars(size, events[..k]) + size(events[k].payload)
  {
    assert events[..k + 1] == events[..k] + [events[k]];
    CharsSnoc(size, events[..k], events[k]);
  }

  /** The size of a part, event by event. */
  function PartSize(active: seq<Event>, n: nat, k: nat, keep: bool, size: Payload -> nat): nat
    requires k <= |active|
  {
    if k == 0 then 0
    else PartSize(active, n, k - 1, keep, size) + if Keeps(active, n, k - 1) == keep then size(active[k - 1].payload) else 0
  }

  lemma {:induction false} PartSizeIs(active: seq<Event>, n: nat, k: nat, keep: bool, size: Payload -> nat)
    requires k <= |active|
    ensures TotalChars(size, Part(active, n, k, keep)) == PartSize(active, n, k, keep, size)
  {
    if k > 0 {
      PartSizeIs(active, n, k - 1, keep, size);
      PartCharsStep(active, n, k - 1, keep, size);
    }
  }

  lemma {:induction false} PartSizesAdd(active: seq<Event>, n: nat, k: nat, size: Payload -> nat)
    requires k <= |active|
    ensures TotalChars(size, active[..k]) == PartSize(active, n, k, true, size) + PartSize(active, n, k, false, size)
  {
    if k > 0 {
      PartSizesAdd(active, n, k - 1, size);
      CharsUpTo(size, active, k - 1);
    }
  }

  lemma {:induction false} PartChars(active: seq<Event>, n: nat, k: nat, size: Payload -> nat)
    requires k <= |active|
    ensures TotalChars(size, Part(active, n, k, true)) + TotalChars(size, Part(active, n, k, false))
         == TotalChars(size, active[..k])
  {
    PartSizeIs(active, n, k, true, size);
    PartSizeIs(active, n, k, false, size);
    PartSizesAdd(active, n, k, size);
  }

  /** How many compaction records there are. */
  function Compactions(events: seq<Event>): nat {
    if events == [] then 0
    else Compactions(events[..|events| - 1]) + if IsCompaction(events[|events| - 1]) then 1 else 0
  }

  lemma {:induction false} KeptBound(active: seq<Event>, n: nat, k: nat)
    requires k <= |active| && Increasing(active)
    ensures |Part(active, n, k, true)| <=
            Compactions(active[..k]) + (if k > |active| - n then k - (|active| - n) else 0)
            + (if exists i :: 0 <= i < k && FirstUser(active) == Some(active[i].sequence) then 1 else 0)
  {
    if k > 0 {
      KeptBound(active, n, k - 1);
      assert active[..k][..k - 1] == active[..k - 1];
    }
  }

  lemma {:induction false} PartMembers(active: seq<Event>, n: nat, keep: bool, i: nat)
    requires Increasing(active) && i < |active|
    ensures active[i].sequence in Sequences(Part(active, n, |active|, keep)) <==> Keeps(active, n, i) == keep
  {
    var part := Part(active, n, |active|, keep);
    PartHolds(active, n, |active|, keep, active[i]);
    if active[i].sequence in Sequences(part) {
      var j :| 0 <= j < |part| && Sequences(part)[j] == active[i].sequence;
      PartHolds(active, n, |active|, keep, part[j]);
    }
    if active[i] in part {
      var j :| 0 <= j < |part| && part[j] == active[i];
      assert Sequences(part)[j] == active[i].sequence;
    }
  }

  predicate Ascending(s: seq<nat>) {
    forall i, j :: 0 <= i < j < |s| ==> s[i] < s[j]
  }

  /** Both lists ascend, an event is in exactly one of them, and it is dropped exactly when it is old and unprotected. */
  ghost predicate Splits(active: seq<Event>, n: nat, d: Decision) {
    && d.dropped != [] && Ascending(d.kept) && Ascending(d.dropped)
    && |d.kept| + |d.dropped| == |active|
    && forall i :: 0 <= i < |active| ==>
         && (active[i].sequence in d.kept <==> Keeps(active, n, i))
         && (active[i].sequence in d.dropped <==> !Keeps(active, n, i))
  }

  /** `plan_truncate` splits the active view. */
  lemma {:induction false} PlanSplits(active: seq<Event>, n: nat, size: Payload -> nat, d: Decision)
    requires Increasing(active) && Plan(active, n, size) == Some(d)
    ensures Splits(active, n, d)
  {
    PartIncreasing(active, n, |active|, true);
    PartIncreasing(active, n, |active|, false);
    PartLengths(active, n, |active|);
    forall i | 0 <= i < |active|
      ensures active[i].sequence in d.kept <==> Keeps(active, n, i)
      ensures active[i].sequence in d.dropped <==> !Keeps(active, n, i)
    {
      PartMembers(active, n, true, i);
      PartMembers(active, n, false, i);
    }
  }

  /** Events of the view with these sequences. */
  predicate Listed(active: seq<Event>, events: seq<Event>, sequences: seq<nat>) {
    |events| == |sequences| && forall i :: 0 <= i < |events| ==> events[i] in active && events[i].sequence == sequences[i]
  }

  /** It keeps at most the last N events, the anchor and the records, and estimates no more tokens after than before. */
  lemma {:induction false} PlanBounds(active: seq<Event>, n: nat, size: Payload -> nat, d: Decision)
    requires Increasing(active) && Plan(active, n, size) == Some(d)
    ensures |d.kept| <= n + 1 + Compactions(active)
    ensures IsEstimate(d.tokensBefore, TotalChars(size, active)) && d.tokensAfter <= d.tokensBefore
    ensures exists kept :: Listed(active, kept, d.kept) && IsEstimate(d.tokensAfter, TotalChars(size, kept))
  {
    var kept := Part(active, n, |active|, true);
    forall i | 0 <= i < |kept| ensures kept[i] in active {
      PartHolds(active, n, |active|, true, kept[i]);
    }
    assert Listed(active, kept, d.kept);
    TokensAreAnEstimate(size, kept, d.tokensAfter);
    KeptBound(active, n, |active|);
    PartChars(active, n, |active|, size);
    assert active[..|active|] == active;
  }

  /** Without an old unprotected event there is no decision. */
  lemma {:induction false} NoPlan(active: seq<Event>, n: nat, size: Payload -> nat)
    ensures Plan(active, n, size).None? <==> forall i :: 0 <= i < |active| ==> Keeps(active, n, i)
  {
    var dropped := Part(active, n, |active|, false);
    forall i | 0 <= i < |active| && dropped == [] ensures Keeps(active, n, i) {
      PartHolds(active, n, |active|, false, active[i]);
    }
    if dropped != [] {
      PartHolds(active, n, |active|, false, dropped[0]);
    }
  }

  lemma {:induction false} ViewIncreasing(log: seq<Event>, dropped: set<int>)
    requires Increasing(log)
    ensures Increasing(View(log, dropped))
  {
    if log != [] {
      ViewIncreasing(log[1..], dropped);
      forall e | e in View(log[1..], dropped) ensures log[0].sequence < e.sequence {
        ViewHolds(log[1..], dropped, e);
      }
    }
  }

  /** A decision made on the active view of a dense log. */
  ghost predicate Planned(log: seq<Event>, n: nat, size: Payload -> nat, d: Decision) {
    Dense(log) && Plan(ActiveView(log), n, size) == Some(d)
  }

  lemma ActiveIncreasing(log: seq<Event>)
    requires Dense(log)
    ensures Increasing(ActiveView(log))
  {
    ViewIncreasing(log, Hidden(log));
  }

  lemma {:induction false} PlannedDrop(log: seq<Event>, n: nat, size: Payload -> nat, d: Decision, x: nat)
    returns (i: nat)
    requires Planned(log, n, size, d) && x in d.dropped
    ensures 1 <= x <= |log| && i < |ActiveView(log)| && ActiveView(log)[i] == log[x - 1]
    ensures !Keeps(ActiveView(log), n, i)
  {
    var active := ActiveView(log);
    var part := Part(active, n, |active|, false);
    var j :| 0 <= j < |part| && d.dropped[j] == x;
    PartHolds(active, n, |active|, false, part[j]);
    i :| 0 <= i < |active| && active[i] == part[j] && !Keeps(active, n, i);
    ViewHolds(log, Hidden(log), part[j]);
  }

  /** Before a dropped event, the view keeps nothing but protected events. */
  lemma {:induction false} PlannedPrefix(log: seq<Event>, n: nat, size: Payload -> nat, d: Decision, x: nat, y: nat)
    requires Planned(log, n, size, d) && x in d.dropped && 1 <= y < x && y !in d.dropped
    ensures x <= |log| && (log[y - 1] in ActiveView(log) ==> Protected(ActiveView(log), log[y - 1]))
  {
    var active := ActiveView(log);
    var i := PlannedDrop(log, n, size, d, x);
    if log[y - 1] in active {
      var j :| 0 <= j < |active| && active[j] == log[y - 1];
      ActiveIncreasing(log);
      PlanSplits(active, n, size, d);
      OlderIsProtected(active, n, j, i);
    }
  }

  /** What is kept before a dropped event is kept for what it is. */
  lemma {:induction false} OlderIsProtected(active: seq<Event>, n: nat, j: nat, i: nat)
    requires Increasing(active) && j < |active| && i < |active| && active[j].sequence < active[i].sequence
    requires Keeps(active, n, j) && !Keeps(active, n, i)
    ensures Protected(active, active[j])
  {
  }
}
