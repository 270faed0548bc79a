/** What holds through any stack of compaction records, and exactly when a compacted context is validly paired. */
module CompactionStack {
  import opened Values
  import opened Events
  import opened Adapters
  import opened Pairing
  import opened Compaction

  // ---- The anchor and the records stay ------------------------------------------------

  /** Every record drops only earlier events, none of them a record or the first user message. */
  ghost predicate Anchored(log: seq<Event>) {
    && Dense(log)
    && forall i, x :: 0 <= i < |log| && IsCompaction(log[i]) && x in DroppedBy(log[i]) ==>
         1 <= x <= i && !IsCompaction(log[x - 1]) && FirstUser(log) != Some(x)
  }

  lemma {:induction false} FirstUserIs(events: seq<Event>)
    ensures match FirstUser(events)
            case Some(s) => exists i :: 0 <= i < |events| && IsUser(events[i]) && events[i].sequence == s
            case None => forall e :: e in events ==> !IsUser(e)
  {
    if events != [] {
      FirstUserIs(events[1..]);
      assert events == [events[0]] + events[1..];
      if FirstUser(events[1..]).Some? {
        var i :| 0 <= i < |events[1..]| && IsUser(events[1..][i]) && events[1..][i].sequence == FirstUser(events[1..]).value;
        assert events[i + 1] == events[1..][i];
      }
    }
  }

  lemma {:induction false} FirstUserConcat(a: seq<Event>, b: seq<Event>)
    ensures FirstUser(a + b) == if FirstUser(a).Some? then FirstUser(a) else FirstUser(b)
  {
    if a == [] {
      assert a + b == b;
    } else {
      assert (a + b)[1..] == a[1..] + b;
      FirstUserConcat(a[1..], b);
    }
  }

  lemma {:induction false} FirstUserInView(log: seq<Event>, dropped: set<int>)
    requires FirstUser(log).Some? ==> FirstUser(log).value !in dropped
    ensures FirstUser(View(log, dropped)) == FirstUser(log)
  {
    if log != [] && !IsUser(log[0]) {
      FirstUserInView(log[1..], dropped);
      FirstUserConcat(if Kept(log[0], dropped) then [log[0]] else [], View(log[1..], dropped));
      assert [log[0]][1..] == [];
    }
  }

  lemma {:induction false} LatestIs(log: seq<Event>)
    ensures match Latest(log)
            case Some(r) => exists i :: 0 <= i < |log| && log[i] == r && IsCompaction(r)
            case None => forall i :: 0 <= i < |log| ==> !IsCompaction(log[i])
  {
    if log != [] {
      LatestIs(log[..|log| - 1]);
    }
  }

  /** What the latest record hides in a log written by the loop. */
  lemma {:induction false} HiddenIsUnprotected(log: seq<Event>, x: int)
    requires Anchored(log) && x in Hidden(log)
    ensures 1 <= x <= |log| && !IsCompaction(log[x - 1]) && FirstUser(log) != Some(x)
  {
    LatestIs(log);
    var i :| 0 <= i < |log| && Latest(log) == Some(log[i]) && IsCompaction(log[i]);
  }

  /** The first user message and every compaction record are in the active view. */
  lemma AnchorAndRecordsStay(log: seq<Event>)
    requires Anchored(log)
    ensures FirstUser(ActiveView(log)) == FirstUser(log)
    ensures forall e :: e in log && (IsCompaction(e) || FirstUser(log) == Some(e.sequence)) ==> e in ActiveView(log)
  {
    if FirstUser(log).Some? && FirstUser(log).value in Hidden(log) {
      HiddenIsUnprotected(log, FirstUser(log).value);
    }
    FirstUserInView(log, Hidden(log));
    forall e | e in log && (IsCompaction(e) || FirstUser(log) == Some(e.sequence)) ensures e in ActiveView(log) {
      var i :| 0 <= i < |log| && log[i] == e;
      if e.sequence in Hidden(log) {
        HiddenIsUnprotected(log, e.sequence);
      }
      ViewHolds(log, Hidden(log), e);
    }
  }

  /** The event `record` stores the decision `d`. */
  ghost predicate Stores(record: Event, d: Decision) {
    IsCompaction(record) && forall x :: x in DroppedBy(record) <==> x in d.dropped
  }

  lemma {:induction false} AnchoredAppend(log: seq<Event>, e: Event)
    requires Anchored(log) && e.sequence == |log| + 1
    requires IsCompaction(e) ==> forall x :: x in DroppedBy(e) ==>
               1 <= x <= |log| && !IsCompaction(log[x - 1]) && FirstUser(log) != Some(x)
    ensures Anchored(log + [e])
  {
    var log' := log + [e];
    FirstUserConcat(log, [e]);
    assert [e][1..] == [];
    forall i, x | 0 <= i < |log'| && IsCompaction(log'[i]) && x in DroppedBy(log'[i])
      ensures 1 <= x <= i && !IsCompaction(log'[x - 1]) && FirstUser(log') != Some(x)
    {
      if i < |log| {
        assert log'[i] == log[i];
      }
    }
  }

  lemma {:induction false} AnchoredPrefix(log: seq<Event>, seen: seq<Event>)
    requires Anchored(log) && seen <= log
    ensures Anchored(seen)
    ensures FirstUser(seen) == FirstUser(log) || (FirstUser(seen).None? && FirstUser(log).value > |seen|)
  {
    var rest := log[|seen|..];
    assert log == seen + rest;
    FirstUserConcat(seen, rest);
    FirstUserIs(rest);
    if FirstUser(seen).None? && FirstUser(rest).Some? {
      var i :| 0 <= i < |rest| && rest[i].sequence == FirstUser(rest).value;
      assert log[|seen| + i] == rest[i];
    }
    forall i, x | 0 <= i < |seen| && IsCompaction(seen[i]) && x in DroppedBy(seen[i])
      ensures 1 <= x <= i && !IsCompaction(seen[x - 1]) && FirstUser(seen) != Some(x)
    {
      assert log[i] == seen[i];
      assert FirstUser(log) != Some(x);
    }
  }

  /** Recording a decision planned on the log, or on what a bounded read saw of it, keeps the log anchored,
      however many records it holds. */
  lemma {:induction false} RecordKeepsAnchored(log: seq<Event>, seen: seq<Event>, n: nat, size: Payload -> nat,
                                               d: Decision, record: Event)
    requires Anchored(log) && seen <= log && Planned(seen, n, size, d)
    requires Stores(record, d) && record.sequence == |log| + 1
    ensures Anchored(log + [record])
  {
    AnchoredPrefix(log, seen);
    AnchorAndRecordsStay(seen);
    forall x | x in DroppedBy(record)
      ensures 1 <= x <= |log| && !IsCompaction(log[x - 1]) && FirstUser(log) != Some(x)
    {
      var i := PlannedDrop(seen, n, size, d, x);
      assert log[x - 1] == seen[x - 1];
    }
    AnchoredAppend(log, record);
  }

  /** Events that are no records keep it anchored too. */
  ghost predicate Plain(log: seq<Event>, more: seq<Event>) {
    log <= more && forall i :: |log| <= i < |more| ==> !IsCompaction(more[i])
  }

  lemma {:induction false} PlainKeepsAnchored(log: seq<Event>, more: seq<Event>)
    requires Anchored(log) && Plain(log, more) && Dense(more)
    ensures Anchored(more)
    decreases |more| - |log|
  {
    if |log| == |more| {
      assert log == more;
    } else {
      var next := more[..|log| + 1];
      assert next == log + [more[|log|]];
      AnchoredAppend(log, more[|log|]);
      PlainKeepsAnchored(next, more);
    }
  }

  // ---- The user turn ---------------------------------------------------------------------

  predicate HasUser(ms: seq<Message>) {
    exists m :: m in ms && m.User?
  }

  lemma {:induction false} FoldHasUser(ids: map<Uuid, string>, f: Buffers, events: seq<Event>)
    ensures HasUser(Flush(FoldFrom(ids, f, events)).messages)
            <==> HasUser(f.messages) || exists e :: e in events && Speaks(e)
    decreases |events|
  {
    if events != [] {
      var g := Step(ids, f, events[0]);
      StepHasUser(ids, f, events[0]);
      FoldHasUser(ids, g, events[1..]);
      assert events == [events[0]] + events[1..];
    } else {
      FlushHasUser(f);
    }
  }

  lemma {:induction false} PushHasUser(ms: seq<Message>, m: Message)
    ensures HasUser(ms + [m]) <==> HasUser(ms) || m.User?
  {
    if HasUser(ms) {
      var u :| u in ms && u.User?;
      assert u in ms + [m];
    }
    assert m in ms + [m];
  }

  lemma {:induction false} FlushHasUser(f: Buffers)
    ensures HasUser(Flush(f).messages) <==> HasUser(f.messages)
    ensures HasUser(FlushAssistant(f).messages) <==> HasUser(f.messages)
    ensures HasUser(FlushAnswers(f).messages) <==> HasUser(f.messages)
  {
    var g := FlushAssistant(f);
    PushHasUser(f.messages, Assistant(AssistantBlocks(f.text, f.uses)));
    PushHasUser(f.messages, Tool(f.answers));
    PushHasUser(g.messages, Tool(g.answers));
  }

  lemma {:induction false} StepHasUser(ids: map<Uuid, string>, f: Buffers, e: Event)
    ensures HasUser(Step(ids, f, e).messages) <==> HasUser(f.messages) || Speaks(e)
  {
    FlushHasUser(f);
    var g := Flush(f);
    if IsSystemPrompt(e) || IsUser(e) {
      var said := if IsUser(e) then UserMessages(e) else PromptMessages(e);
      if said == [] {
        assert g.messages + said == g.messages;
      } else {
        assert said == [said[0]];
        PushHasUser(g.messages, said[0]);
      }
    }
  }

  /** The harness finds a user turn exactly when the view holds a user message with text. */
  lemma ContextHasUser(events: seq<Event>)
    ensures HasUser(Context(events)) <==> exists e :: e in events && Speaks(e)
  {
    FoldHasUser(CallIds(events), EMPTY, events);
  }

  /** The first user message of the log carries text. */
  ghost predicate AnchorSpeaks(log: seq<Event>) {
    exists i :: 0 <= i < |log| && Speaks(log[i]) && FirstUser(log) == Some(log[i].sequence)
  }

  /** Once the first user message carries text, no stack of compactions lets the `no_user_turn` exit fire. */
  lemma UserTurnStays(log: seq<Event>)
    requires Anchored(log) && AnchorSpeaks(log)
    ensures HasUser(Context(ActiveView(log)))
  {
    AnchorAndRecordsStay(log);
    ContextHasUser(ActiveView(log));
    var i :| 0 <= i < |log| && Speaks(log[i]) && FirstUser(log) == Some(log[i].sequence);
    assert log[i] in ActiveView(log);
  }

  // ---- The view after one more record ---------------------------------------------------------

  lemma {:induction false} ViewIsPart(active: seq<Event>, n: nat, k: nat, dropped: set<int>)
    requires k <= |active|
    requires forall i :: 0 <= i < |active| ==> (active[i].sequence in dropped <==> !Keeps(active, n, i))
    ensures View(active[..k], dropped) == Part(active, n, k, true)
  {
    if k > 0 {
      ViewIsPart(active, n, k - 1, dropped);
      assert active[..k - 1] + [active[k - 1]] == active[..k];
      ViewConcat(active[..k - 1], [active[k - 1]], dropped);
      assert [active[k - 1]][1..] == [];
    }
  }

  lemma {:induction false} LatestConcat(a: seq<Event>, b: seq<Event>)
    ensures Latest(a + b) == if Latest(b).Some? then Latest(b) else Latest(a)
  {
    if b == [] {
      assert a + b == a;
    } else {
      assert (a + b)[..|a + b| - 1] == a + b[..|b| - 1];
      LatestConcat(a, b[..|b| - 1]);
    }
  }

  /** The view right after a record: the whole log without that decision's events, then the record. */
  lemma {:induction false} RecordView(log: seq<Event>, n: nat, size: Payload -> nat, d: Decision, record: Event)
    requires Planned(log, n, size, d)
    requires Stores(record, d) && record.sequence == |log| + 1
    ensures ActiveView(log + [record]) == View(log, DroppedBy(record)) + [record]
  {
    LatestConcat(log, [record]);
    assert [record][..0] == [];
    ViewConcat(log, [record], DroppedBy(record));
    assert [record][1..] == [];
    if record.sequence in d.dropped {
      var i := PlannedDrop(log, n, size, d, record.sequence);
      assert false;
    }
  }

  lemma {:induction false} KeptIsView(log: seq<Event>, n: nat, size: Payload -> nat, d: Decision, dropped: set<int>)
    requires Planned(log, n, size, d) && forall x :: x in dropped <==> x in d.dropped
    ensures Part(ActiveView(log), n, |ActiveView(log)|, true) == View(ActiveView(log), dropped)
  {
    var active := ActiveView(log);
    ActiveIncreasing(log);
    PlanSplits(active, n, size, d);
    ViewIsPart(active, n, |active|, dropped);
    assert active[..|active|] == active;
  }

  lemma {:induction false} HiddenEventReturns(log: seq<Event>, n: nat, size: Payload -> nat, d: Decision,
                                              dropped: set<int>)
    requires Planned(log, n, size, d) && forall x :: x in dropped <==> x in d.dropped
    requires ActiveView(log) != log
    ensures View(log, dropped) != View(ActiveView(log), dropped)
  {
    var active := ActiveView(log);
    var e := ViewShorter(log, Hidden(log));
    ViewHolds(log, dropped, e);
    ViewHolds(active, dropped, e);
    ViewHolds(log, Hidden(log), e);
    if e.sequence in dropped {
      var i := PlannedDrop(log, n, size, d, e.sequence);
      assert false;
    }
  }

  lemma {:induction false} AppendInjective(v: seq<Event>, w: seq<Event>, e: Event)
    ensures v + [e] == w + [e] ==> v == w
  {
    assert (v + [e])[..|v + [e]| - 1] == v;
    assert (w + [e])[..|w + [e]| - 1] == w;
  }

  /** After a record the view is exactly `kept + [record]` when the planner saw the whole log, and only then:
      what earlier records dropped comes back. */
  lemma {:induction false} ViewAfterRecord(log: seq<Event>, n: nat, size: Payload -> nat, d: Decision, record: Event)
    requires Planned(log, n, size, d)
    requires Stores(record, d) && record.sequence == |log| + 1
    ensures ActiveView(log + [record]) == Part(ActiveView(log), n, |ActiveView(log)|, true) + [record]
            <==> ActiveView(log) == log
  {
    var dropped := DroppedBy(record);
    RecordView(log, n, size, d, record);
    KeptIsView(log, n, size, d, dropped);
    var v, w := View(log, dropped), View(ActiveView(log), dropped);
    if ActiveView(log) != log {
      HiddenEventReturns(log, n, size, d, dropped);
      AppendInjective(v, w, record);
    }
  }

  /** A view that differs from the log lacks one of its events. */
  lemma {:induction false} ViewShorter(log: seq<Event>, dropped: set<int>) returns (e: Event)
    requires View(log, dropped) != log
    ensures e in log && !Kept(e, dropped)
  {
    if Kept(log[0], dropped) {
      assert log == [log[0]] + log[1..];
      e := ViewShorter(log[1..], dropped);
    } else {
      e := log[0];
    }
  }

  // ---- Pairing under compaction ---------------------------------------------------------------

  lemma {:induction false} ResultFollowsCall(log: seq<Event>, r: Event, c: Event)
    requires RoundComplete(log) && Dense(log) && r in log && c in log
    requires IsResult(r) && IsCall(c) && CallOf(r) == Some(c.id)
    ensures c.sequence < r.sequence
  {
    var j :| 0 <= j < |log| && log[j] == r;
    var c', i := CallPrecedesResult(START, log, j);
    assert c' == c;
  }

  /** Truncation is pairing-safe wherever the cut falls: the first user message and the events from any position on. */
  lemma CutIsPairingSafe(log: seq<Event>, cut: nat)
    requires RoundComplete(log) && Dense(log)
    ensures var dropped := set x: int | 1 <= x <= cut && FirstUser(log) != Some(x);
            Paired(Context(View(log, dropped)))
  {
    var dropped := set x: int | 1 <= x <= cut && FirstUser(log) != Some(x);
    FirstUserIs(log);
    forall c, r | c in log && r in log && IsCall(c) && IsResult(r) && CallOf(r) == Some(c.id) && Kept(c, dropped)
      ensures Kept(r, dropped)
    {
      ResultFollowsCall(log, r, c);
    }
    ViewIsPaired(log, dropped);
  }

  /** A tool_result of the view whose call the view no longer resolves. */
  predicate Orphaned(active: seq<Event>, e: Event) {
    IsResult(e) && AnsweredUse(CallIds(active), e).None?
  }

  /** After a compaction, and until the next one, the context is validly paired exactly when the planner dropped
      no result that was already orphaned in the view it planned on. */
  lemma {:induction false} PlannedIsPaired(log: seq<Event>, n: nat, size: Payload -> nat, d: Decision, record: Event,
                                           more: seq<Event>)
    requires Planned(log, n, size, d) && Stores(record, d)
    requires Latest(more).None? && RoundComplete(log + [record] + more) && Dense(log + [record] + more)
    ensures Paired(Context(ActiveView(log + [record] + more)))
            <==> forall e | e in ActiveView(log) && e.sequence in d.dropped :: !Orphaned(ActiveView(log), e)
  {
    var all, active, dropped := log + [record] + more, ActiveView(log), DroppedBy(record);
    LatestConcat(log + [record], more);
    LatestConcat(log, [record]);
    assert [record][..0] == [];
    ViewIsPaired(all, dropped);
    PrefixUnique(log, all);
    if forall e | e in active && e.sequence in d.dropped :: !Orphaned(active, e) {
      forall c, r | c in all && r in all && IsCall(c) && IsResult(r) && CallOf(r) == Some(c.id) && Kept(c, dropped)
        ensures Kept(r, dropped)
      {
        if r.sequence in d.dropped {
          DroppedResultLosesCall(log, n, size, d, all, c, r);
        }
      }
    } else {
      var r :| r in active && r.sequence in d.dropped && Orphaned(active, r);
      ViewHolds(log, Hidden(log), r);
      var c := CallIsLogged(log, all, r);
      OrphanedCallReturns(log, n, size, d, c, r);
      assert c in all && r in all;
      assert Kept(c, dropped) && !Kept(r, dropped);
    }
  }

  /** A kept call before a dropped event is not in the view the planner saw. */
  lemma {:induction false} KeptCallIsHidden(log: seq<Event>, n: nat, size: Payload -> nat, d: Decision, x: nat,
                                            c: Event)
    requires Planned(log, n, size, d) && x in d.dropped && c in log && IsCall(c)
    requires c.sequence < x && c.sequence !in d.dropped
    ensures c !in ActiveView(log)
  {
    var active := ActiveView(log);
    assert log[c.sequence - 1] == c;
    PlannedPrefix(log, n, size, d, x, c.sequence);
    if c in active {
      assert FirstUser(active) == Some(c.sequence);
      FirstUserIs(active);
      var k :| 0 <= k < |active| && IsUser(active[k]) && active[k].sequence == c.sequence;
      ViewHolds(log, Hidden(log), active[k]);
    }
  }

  /** A result whose call is hidden is orphaned. */
  lemma {:induction false} HiddenCallOrphans(log: seq<Event>, c: Event, r: Event)
    requires UniqueIds(log) && c in log && IsCall(c) && c !in ActiveView(log)
    requires IsResult(r) && CallOf(r) == Some(c.id)
    ensures Orphaned(ActiveView(log), r)
  {
    ViewHolds(log, Hidden(log), c);
    ViewKnowsKept(log, Hidden(log));
  }

  lemma {:induction false} AtItsSequence(log: seq<Event>, e: Event)
    requires Dense(log) && e in log
    ensures 1 <= e.sequence <= |log| && log[e.sequence - 1] == e
  {
  }

  lemma {:induction false} InPrefix(log: seq<Event>, all: seq<Event>, e: Event)
    requires Dense(all) && log <= all && e in all && e.sequence <= |log|
    ensures e in log && e.sequence >= 1 && log[e.sequence - 1] == e
  {
    var k :| 0 <= k < |all| && all[k] == e;
    assert log[k] == all[k];
  }

  lemma {:induction false} DroppedIsActive(log: seq<Event>, n: nat, size: Payload -> nat, d: Decision,
                                           all: seq<Event>, r: Event)
    requires Planned(log, n, size, d) && Dense(all) && log <= all && r in all && r.sequence in d.dropped
    ensures r in ActiveView(log) && r.sequence <= |log|
  {
    var i := PlannedDrop(log, n, size, d, r.sequence);
    InPrefix(log, all, r);
  }

  lemma {:induction false} DroppedResultLosesCall(log: seq<Event>, n: nat, size: Payload -> nat, d: Decision,
                                                  all: seq<Event>, c: Event, r: Event)
    requires Planned(log, n, size, d) && RoundComplete(all) && Dense(all) && log <= all && UniqueIds(log)
    requires c in all && r in all && IsCall(c) && IsResult(r) && CallOf(r) == Some(c.id)
    requires c.sequence !in d.dropped && r.sequence in d.dropped
    ensures r in ActiveView(log) && Orphaned(ActiveView(log), r)
  {
    DroppedIsActive(log, n, size, d, all, r);
    ResultFollowsCall(all, r, c);
    InPrefix(log, all, c);
    KeptCallIsHidden(log, n, size, d, r.sequence, c);
    HiddenCallOrphans(log, c, r);
  }

  /** The call of a logged result is in the log before it. */
  lemma {:induction false} CallIsLogged(log: seq<Event>, all: seq<Event>, r: Event) returns (c: Event)
    requires RoundComplete(all) && log <= all && r in log && IsResult(r)
    ensures c in log && IsCall(c) && CallOf(r) == Some(c.id)
  {
    var j :| 0 <= j < |log| && log[j] == r;
    var i;
    c, i := CallPrecedesResult(START, all, j);
    assert log[i] == c;
  }

  /** The call of an orphaned result is not among those the decision drops: it was hidden before. */
  lemma {:induction false} OrphanedCallReturns(log: seq<Event>, n: nat, size: Payload -> nat, d: Decision, c: Event,
                                               r: Event)
    requires Planned(log, n, size, d) && UniqueIds(log) && Orphaned(ActiveView(log), r)
    requires c in log && IsCall(c) && CallOf(r) == Some(c.id)
    ensures c.sequence !in d.dropped
  {
    var active := ActiveView(log);
    ViewKnowsKept(log, Hidden(log));
    ViewHolds(log, Hidden(log), c);
    if c.sequence in d.dropped {
      var k := PlannedDrop(log, n, size, d, c.sequence);
      ViewHolds(log, Hidden(log), active[k]);
    }
  }

  /** The first compaction of a complete conversation never breaks pairing. */
  lemma FirstCompactionIsPaired(log: seq<Event>, n: nat, size: Payload -> nat, d: Decision, record: Event,
                                more: seq<Event>)
    requires Planned(log, n, size, d) && Stores(record, d) && Latest(log).None?
    requires Latest(more).None? && RoundComplete(log + [record] + more) && Dense(log + [record] + more)
    ensures Paired(Context(ActiveView(log + [record] + more)))
  {
    var all := log + [record] + more;
    NothingHidden(log);
    PrefixUnique(log, all);
    forall e | e in ActiveView(log) && e.sequence in d.dropped ensures !Orphaned(ActiveView(log), e) {
      if IsResult(e) { CallIsResolved(log, all, e); }
    }
    PlannedIsPaired(log, n, size, d, record, more);
  }

  // ---- Two compactions can break pairing ------------------------------------------------------

  function CallEvent(n: nat, sequence: nat): Event {
    Event(Random(n), sequence, ToolCall, map["tool_id" := Str("t"), "tool_name" := Str("bash")])
  }

  function ResultEvent(call: Event, sequence: nat): Event {
    Event(ToolResultId(call.id), sequence, ToolResult, map["tool_call_id" := Id(call.id)])
  }

  function FirstRound(): seq<Event> {
    var u, c := Event(Random(0), 1, UserMessage, map["content" := Str("hi")]), CallEvent(1, 2);
    [u, c, ResultEvent(c, 3)]
  }

  function SecondRound(): seq<Event> {
    var c := CallEvent(2, 5);
    [c, ResultEvent(c, 6)]
  }

  function Once(first: Decision): seq<Event> {
    FirstRound() + [Record(first, 4)] + SecondRound()
  }

  /** Two rounds, a record of these decisions after each. */
  function Twice(first: Decision, second: Decision): seq<Event> {
    Once(first) + [Record(second, 7)]
  }

  lemma {:induction false} PartOfThree(b: seq<Event>)
    requires |b| == 3 && Keeps(b, 1, 0) && !Keeps(b, 1, 1) && Keeps(b, 1, 2)
    ensures Part(b, 1, 3, false) == [b[1]] && Part(b, 1, 3, true) == [b[0], b[2]]
  {
    assert Part(b, 1, 0, false) == [] && Part(b, 1, 0, true) == [];
    PartStep(b, 1, 0, false);
    PartStep(b, 1, 1, false);
    PartStep(b, 1, 2, false);
    PartStep(b, 1, 0, true);
    PartStep(b, 1, 1, true);
    PartStep(b, 1, 2, true);
  }

  /** Keeping the last event, the planner drops the second of three. */
  lemma {:induction false} PlanOfThree(b: seq<Event>, size: Payload -> nat) returns (d: Decision)
    requires |b| == 3 && FirstUser(b) == Some(b[0].sequence)
    requires b[1].sequence != b[0].sequence && !IsCompaction(b[1])
    ensures Plan(b, 1, size) == Some(d) && d.dropped == [b[1].sequence]
    ensures Part(b, 1, 3, true) == [b[0], b[2]]
  {
    PartOfThree(b);
    SequencesOfOne(b[1]);
    d := Plan(b, 1, size).value;
  }

  lemma {:induction false} SequencesOfOne(a: Event)
    ensures Sequences([a]) == [a.sequence]
  {
    assert [a][..0] == [];
  }

  /** In the first round, that is the call. */
  lemma {:induction false} FirstIsPlanned(size: Payload -> nat) returns (d: Decision)
    ensures Plan(ActiveView(FirstRound()), 1, size) == Some(d) && d.dropped == [2]
  {
    LatestIs(FirstRound());
    NothingHidden(FirstRound());
    d := PlanOfThree(FirstRound(), size);
  }

  lemma {:induction false} ViewOfSix(a: Event, b: Event, c: Event, d: Event, e: Event, f: Event, dropped: set<int>)
    requires !Kept(b, dropped)
    requires Kept(a, dropped) && Kept(c, dropped) && Kept(d, dropped) && Kept(e, dropped) && Kept(f, dropped)
    ensures View([a, b, c, d, e, f], dropped) == [a, c, d, e, f]
  {
    NothingHidden([c, d, e, f]);
    ViewAgrees([c, d, e, f], dropped, {});
    ViewConcat([a] + [b], [c, d, e, f], dropped);
    assert [a, b, c, d, e, f] == [a] + [b] + [c, d, e, f];
    ViewConcat([a], [b], dropped);
    assert [a][1..] == [] && [b][1..] == [];
  }

  lemma {:induction false} ViewAgrees(log: seq<Event>, d1: set<int>, d2: set<int>)
    requires forall e :: e in log ==> (e.sequence in d1 <==> e.sequence in d2)
    ensures View(log, d1) == View(log, d2)
  {
    if log != [] {
      assert log[0] in log && forall e :: e in log[1..] ==> e in log;
      ViewAgrees(log[1..], d1, d2);
    }
  }

  lemma {:induction false} HiddenByRecord(log: seq<Event>, d: Decision, sequence: nat, more: seq<Event>)
    requires Latest(more).None?
    ensures forall x :: x in Hidden(log + [Record(d, sequence)] + more) <==> x in d.dropped
  {
    RecordDrops(d, sequence);
    LatestConcat(log + [Record(d, sequence)], more);
    LatestConcat(log, [Record(d, sequence)]);
    assert [Record(d, sequence)][..0] == [];
  }

  lemma {:induction false} OnceView(d: Decision)
    requires d.dropped == [2]
    ensures ActiveView(Once(d)) == [Once(d)[0], Once(d)[2], Once(d)[3], Once(d)[4], Once(d)[5]]
  {
    var log := Once(d);
    LatestIs(SecondRound());
    HiddenByRecord(FirstRound(), d, 4, SecondRound());
    assert log == [log[0], log[1], log[2], log[3], log[4], log[5]];
    ViewOfSix(log[0], log[1], log[2], log[3], log[4], log[5], Hidden(log));
  }

  /** On the view that the first record leaves, it then drops the first result and the second call. */
  lemma {:induction false} SecondIsPlanned(size: Payload -> nat, first: Decision) returns (d: Decision)
    requires first.dropped == [2]
    ensures Plan(ActiveView(Once(first)), 1, size) == Some(d) && d.dropped == [3, 5]
  {
    OnceView(first);
    RecordDrops(first, 4);
    d := PlanOfFive(ActiveView(Once(first)), size);
  }

  lemma {:induction false} PlanOfFive(b: seq<Event>, size: Payload -> nat) returns (d: Decision)
    requires |b| == 5 && FirstUser(b) == Some(b[0].sequence) && IsCompaction(b[2])
    requires b[1].sequence != b[0].sequence && !IsCompaction(b[1])
    requires b[3].sequence != b[0].sequence && !IsCompaction(b[3])
    ensures Plan(b, 1, size) == Some(d) && d.dropped == [b[1].sequence, b[3].sequence]
  {
    PartOfFive(b);
    SequencesOfTwo(b[1], b[3]);
    d := Plan(b, 1, size).value;
  }

  lemma {:induction false} SequencesOfTwo(a: Event, b: Event)
    ensures Sequences([a, b]) == [a.sequence, b.sequence]
  {
    assert [a, b][..1] == [a] && [a][..0] == [];
  }

  lemma {:induction false} PartOfFive(b: seq<Event>)
    requires |b| == 5 && Keeps(b, 1, 0) && !Keeps(b, 1, 1) && Keeps(b, 1, 2) && !Keeps(b, 1, 3)
    ensures Part(b, 1, 5, false) == [b[1], b[3]]
  {
    assert Part(b, 1, 0, false) == [];
    PartStep(b, 1, 0, false);
    PartStep(b, 1, 1, false);
    PartStep(b, 1, 2, false);
    PartStep(b, 1, 3, false);
    PartStep(b, 1, 4, false);
  }

  lemma {:induction false} ParseRound(g: Phase, c: Event, r: Event, k: Event)
    requires g.open == [] && IsCall(c) && IsResult(r) && CallOf(r) == Some(c.id) && IsNoise(k)
    ensures Parse(g, [c, r, k]) == Some(Phase([], true))
  {
    assert [c, r, k][1..] == [r, k] && [r, k][1..] == [k] && [k][1..] == [];
    assert Next(g, c) == Some(Phase([c], false)) by { assert [] + [c] == [c]; }
    assert [c][1..] == [];
    assert Next(Phase([c], false), r) == Some(Phase([], true));
    assert Parse(Phase([c], false), [r, k]) == Parse(Phase([], true), [k]);
    assert Parse(Phase([], true), [k]) == Parse(Phase([], true), []);
  }

  lemma {:induction false} ParseTwoRounds(u: Event, c1: Event, r1: Event, k1: Event, c2: Event, r2: Event, k2: Event)
    requires IsUser(u) && IsNoise(k1) && IsNoise(k2)
    requires IsCall(c1) && IsResult(r1) && CallOf(r1) == Some(c1.id)
    requires IsCall(c2) && IsResult(r2) && CallOf(r2) == Some(c2.id)
    ensures Parse(START, [u] + ([c1, r1, k1] + [c2, r2, k2])) == Some(Phase([], true))
  {
    ParseConcat(START, [u], [c1, r1, k1] + [c2, r2, k2]);
    ParseConcat(START, [c1, r1, k1], [c2, r2, k2]);
    assert Parse(START, [u]) == Some(START) by { assert [u][1..] == []; }
    ParseRound(START, c1, r1, k1);
    ParseRound(Phase([], true), c2, r2, k2);
  }

  lemma {:induction false} TwiceIsComplete(first: Decision, second: Decision)
    requires first.dropped == [2] && second.dropped == [3, 5]
    ensures RoundComplete(Twice(first, second))
  {
    var log := Twice(first, second);
    RecordDrops(first, 4);
    RecordDrops(second, 7);
    assert log == [log[0]] + ([log[1], log[2], log[3]] + [log[4], log[5], log[6]]);
    ParseTwoRounds(log[0], log[1], log[2], log[3], log[4], log[5], log[6]);
  }

  lemma {:induction false} LostResultBreaksPairing(log: seq<Event>, dropped: set<int>, c: Event, r: Event)
    requires RoundComplete(log) && c in log && r in log && IsCall(c) && IsResult(r) && CallOf(r) == Some(c.id)
    requires Kept(c, dropped) && !Kept(r, dropped)
    ensures !Paired(Context(View(log, dropped)))
  {
    ViewIsPaired(log, dropped);
  }

  lemma {:induction false} TwiceIsUnpaired(first: Decision, second: Decision)
    requires first.dropped == [2] && second.dropped == [3, 5]
    ensures !Paired(Context(ActiveView(Twice(first, second))))
  {
    var log := Twice(first, second);
    TwiceIsComplete(first, second);
    HiddenByRecord(Once(first), second, 7, []);
    assert log + [] == log;
    LostResultBreaksPairing(log, Hidden(log), log[1], log[2]);
  }

  /** Whatever payloads cost, the planner keeping the last event takes two decisions, one after each round, and the view
      they leave of this complete conversation is not validly paired: the first call is back without its result. */
  lemma {:induction false} TwoCompactionsBreakPairing(size: Payload -> nat) returns (first: Decision, second: Decision)
    ensures Plan(ActiveView(FirstRound()), 1, size) == Some(first)
    ensures Plan(ActiveView(Once(first)), 1, size) == Some(second)
    ensures RoundComplete(Twice(first, second)) && !Paired(Context(ActiveView(Twice(first, second))))
  {
    first := FirstIsPlanned(size);
    second := SecondIsPlanned(size, first);
    TwiceIsComplete(first, second);
    TwiceIsUnpaired(first, second);
  }

  // ---- Exactly when a decision loses the user turn -------------------------------------------------

  /** The planner leaves it: it was not in the view, or is the view's first user message, or among the last `n`. */
  predicate Spared(active: seq<Event>, n: nat, e: Event) {
    || e !in active
    || FirstUser(active) == Some(e.sequence)
    || e in active[if |active| > n then |active| - n else 0..]
  }

  lemma {:induction false} SparedIsKept(active: seq<Event>, n: nat, i: nat)
    requires Increasing(active) && i < |active| && !IsCompaction(active[i])
    ensures Spared(active, n, active[i]) <==> Keeps(active, n, i)
  {
    var from := if |active| > n then |active| - n else 0;
    if k :| 0 <= k < |active| - from && active[from..][k] == active[i] {
      assert active[from + k] == active[i];
    }
    if i >= from {
      assert active[from..][i - from] == active[i];
    }
  }

  lemma {:induction false} DropsExactly(log: seq<Event>, n: nat, size: Payload -> nat, d: Decision, e: Event)
    requires Planned(log, n, size, d) && e in log && !IsCompaction(e)
    ensures e.sequence in d.dropped <==> !Spared(ActiveView(log), n, e)
  {
    var active := ActiveView(log);
    if e in active {
      var i :| 0 <= i < |active| && active[i] == e;
      ActiveIncreasing(log);
      PlanSplits(active, n, size, d);
      SparedIsKept(active, n, i);
    } else if e.sequence in d.dropped {
      AtItsSequence(log, e);
      var i := PlannedDrop(log, n, size, d, e.sequence);
    }
  }

  /** After a record the harness finds a user turn exactly when some user message with text was not in the view the
      planner saw, or is that view's first user message, or is among its last `n` events. */
  lemma {:induction false} UserTurnAfterRecord(log: seq<Event>, n: nat, size: Payload -> nat, d: Decision,
                                               record: Event)
    requires Planned(log, n, size, d) && Stores(record, d) && record.sequence == |log| + 1
    ensures HasUser(Context(ActiveView(log + [record])))
            <==> exists e :: e in log && Speaks(e) && Spared(ActiveView(log), n, e)
  {
    var dropped := DroppedBy(record);
    RecordView(log, n, size, d, record);
    ContextHasUser(ActiveView(log + [record]));
    forall e | e in log && Speaks(e)
      ensures e in View(log, dropped) <==> Spared(ActiveView(log), n, e)
    {
      DropsExactly(log, n, size, d, e);
      ViewHolds(log, dropped, e);
    }
    forall e | e in View(log, dropped) ensures e in log {
      ViewHolds(log, dropped, e);
    }
  }

  // ---- A silent anchor can lose the user turn ----------------------------------------------------

  /** The first user message has no text, the second has, and a closer follows. */
  function Silent(): seq<Event> {
    [Event(Random(0), 1, UserMessage, map["content" := Null]),
     Event(Random(1), 2, UserMessage, map["content" := Str("hi")]),
     Event(Random(2), 3, AssistantMessage, map["content" := Str("a"), "is_complete" := Bool(true)])]
  }

  lemma {:induction false} SilentIsActive()
    ensures Latest(Silent()).None? && ActiveView(Silent()) == Silent() && Anchored(Silent())
  {
    LatestIs(Silent());
    NothingHidden(Silent());
  }

  lemma {:induction false} SilentPlan(size: Payload -> nat) returns (d: Decision)
    ensures Plan(Silent(), 1, size) == Some(d) && d.dropped == [2]
    ensures Part(Silent(), 1, 3, true) == [Silent()[0], Silent()[2]]
  {
    d := PlanOfThree(Silent(), size);
  }

  lemma {:induction false} NobodySpeaks(a: Event, b: Event, c: Event)
    requires !Speaks(a) && !Speaks(b) && !Speaks(c)
    ensures !HasUser(Context([a, b] + [c]))
  {
    ContextHasUser([a, b] + [c]);
  }

  lemma {:induction false} SilentSpeaks()
    ensures HasUser(Context(Silent()))
  {
    ContextHasUser(Silent());
    assert Speaks(Silent()[1]) && Silent()[1] in Silent();
  }

  lemma {:induction false} SilentAfterRecord(size: Payload -> nat, d: Decision, record: Event)
    requires ActiveView(Silent()) == Silent() && Planned(Silent(), 1, size, d)
    requires Stores(record, d) && record.sequence == 4
    requires Part(Silent(), 1, 3, true) == [Silent()[0], Silent()[2]]
    ensures !HasUser(Context(ActiveView(Silent() + [record])))
  {
    ViewAfterRecord(Silent(), 1, size, d, record);
    NobodySpeaks(Silent()[0], Silent()[2], record);
  }

  /** Keeping the last event, the planner drops the only user message with text: the compacted view folds into no user
      message although the log holds one. */
  lemma {:induction false} SilentAnchorLosesUserTurn(size: Payload -> nat) returns (d: Decision)
    ensures Anchored(Silent()) && Plan(ActiveView(Silent()), 1, size) == Some(d)
    ensures HasUser(Context(ActiveView(Silent())))
    ensures !HasUser(Context(ActiveView(Silent() + [Record(d, 4)])))
  {
    SilentIsActive();
    SilentSpeaks();
    d := SilentPlan(size);
    RecordDrops(d, 4);
    SilentAfterRecord(size, d, Record(d, 4));
  }
}
