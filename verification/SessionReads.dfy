/** Reading the log while others write it: keyset pages and the SDK's poller. */
module SessionReads {
  import opened Values
  import opened Events
  import opened SessionProtocol
  import opened SessionGuarantees

  const DEFAULT_EVENTS_LIMIT := 1000
  const MAX_EVENTS_LIMIT := 10000

  // ---- get_events --------------------------------------------------------------------------

  /** The WHERE clause: inclusive bounds, and a type filter unless it is empty. */
  predicate Matches(e: Event, start: int, end: Option<int>, types: seq<EventType>) {
    && start <= e.sequence
    && (end.Some? ==> e.sequence <= end.value)
    && (types != [] ==> e.kind in types)
  }

  function Select(rows: seq<Event>, start: int, end: Option<int>, types: seq<EventType>): seq<Event> {
    if rows == [] then []
    else (if Matches(rows[0], start, end, types) then [rows[0]] else []) + Select(rows[1..], start, end, types)
  }

  /** The event is none before `start` and none after `end`, and of a kind listed, if any is. */
  predicate AskedFor(e: Event, start: int, end: Option<int>, types: seq<EventType>) {
    && e.sequence >= start && (end == None || e.sequence <= end.value)
    && (|types| == 0 || exists i :: 0 <= i < |types| && types[i] == e.kind)
  }

  lemma {:induction false} MatchesAreAskedFor(e: Event, start: int, end: Option<int>, types: seq<EventType>)
    ensures Matches(e, start, end, types) <==> AskedFor(e, start, end, types)
  {
  }

  /** What the query answers, whatever the physical order of the rows: matching rows in ascending sequence order,
      at most `limit`, and none left out unless `limit` smaller ones are there. */
  ghost predicate IsPage(rows: seq<Event>, start: int, end: Option<int>, types: seq<EventType>, limit: nat,
                         page: seq<Event>) {
    && |page| <= limit
    && (forall i, j :: 0 <= i < j < |page| ==> page[i].sequence < page[j].sequence)
    && (forall e :: e in page ==> e in rows && AskedFor(e, start, end, types))
    && (forall e :: e in rows && AskedFor(e, start, end, types) && e !in page ==>
          |page| == limit && forall p :: p in page ==> p.sequence < e.sequence)
  }

  function Page(log: seq<Event>, start: int, end: Option<int>, types: seq<EventType>, limit: nat): seq<Event> {
    var all := Select(log, start, end, types);
    if |all| <= limit then all else all[..limit]
  }

  lemma {:induction false} SelectHolds(rows: seq<Event>, start: int, end: Option<int>, types: seq<EventType>, e: Event)
    ensures e in Select(rows, start, end, types) <==> e in rows && Matches(e, start, end, types)
  {
    if rows != [] {
      SelectHolds(rows[1..], start, end, types, e);
      assert rows == [rows[0]] + rows[1..];
    }
  }

  lemma {:induction false} SelectAscends(rows: seq<Event>, start: int, end: Option<int>, types: seq<EventType>)
    requires Increasing(rows)
    ensures Increasing(Select(rows, start, end, types))
  {
    if rows != [] {
      SelectAscends(rows[1..], start, end, types);
      forall e | e in Select(rows[1..], start, end, types) ensures rows[0].sequence < e.sequence {
        SelectHolds(rows[1..], start, end, types, e);
      }
    }
  }

  /** The prefix of a page below any of its events is determined by the rows. */
  lemma {:induction false} PagesAgree(rows: seq<Event>, start: int, end: Option<int>, types: seq<EventType>,
                                      limit: nat, p: seq<Event>, q: seq<Event>, k: nat)
    requires Increasing(rows)
    requires IsPage(rows, start, end, types, limit, p) && IsPage(rows, start, end, types, limit, q)
    requires k <= |p| && k <= |q|
    ensures p[..k] == q[..k]
  {
    if k > 0 {
      PagesAgree(rows, start, end, types, limit, p, q, k - 1);
      var a, b := p[k - 1], q[k - 1];
      assert a in p && b in q;
      if a.sequence < b.sequence {
        NotSkipped(rows, start, end, types, limit, p, q, k - 1);
      } else if b.sequence < a.sequence {
        NotSkipped(rows, start, end, types, limit, q, p, k - 1);
      }
      assert a == b by { SameRow(rows, a, b); }
      assert p[..k] == p[..k - 1] + [a] && q[..k] == q[..k - 1] + [b];
    }
  }

  lemma SameRow(rows: seq<Event>, a: Event, b: Event)
    requires Increasing(rows) && a in rows && b in rows && a.sequence == b.sequence
    ensures a == b
  {
  }

  lemma {:induction false} NotSkipped(rows: seq<Event>, start: int, end: Option<int>, types: seq<EventType>,
                                      limit: nat, p: seq<Event>, q: seq<Event>, k: nat)
    requires Increasing(rows)
    requires IsPage(rows, start, end, types, limit, p) && IsPage(rows, start, end, types, limit, q)
    requires k < |p| && k < |q| && p[..k] == q[..k]
    ensures p[k].sequence >= q[k].sequence
  {
    assert p[k] in p && q[k] in q;
    forall i | 0 <= i < |q| ensures p[k].sequence < q[k].sequence ==> q[i] != p[k] {
      if i < k { assert q[..k][i] == p[..k][i]; }
    }
  }

  lemma {:induction false} NotAPrefix(rows: seq<Event>, start: int, end: Option<int>, types: seq<EventType>,
                                      limit: nat, p: seq<Event>, q: seq<Event>)
    requires IsPage(rows, start, end, types, limit, p) && IsPage(rows, start, end, types, limit, q)
    requires |p| < |q|
    ensures p != q[..|p|]
  {
    var e := q[|p|];
    assert e in q;
    assert forall i :: 0 <= i < |p| ==> q[..|p|][i] == q[i];
  }

  lemma {:induction false} PageIsAPage(log: seq<Event>, start: int, end: Option<int>, types: seq<EventType>, limit: nat)
    requires Increasing(log)
    ensures IsPage(log, start, end, types, limit, Page(log, start, end, types, limit))
  {
    var all := Select(log, start, end, types);
    var mine := Page(log, start, end, types, limit);
    SelectAscends(log, start, end, types);
    forall e ensures e in all <==> e in log && AskedFor(e, start, end, types) {
      SelectHolds(log, start, end, types, e);
      MatchesAreAskedFor(e, start, end, types);
    }
    assert forall e :: e in mine ==> e in all;
    forall e | e in log && AskedFor(e, start, end, types) && e !in mine
      ensures |mine| == limit && forall p :: p in mine ==> p.sequence < e.sequence
    {
      var i :| 0 <= i < |all| && all[i] == e;
    }
  }

  lemma {:induction false} OnePage(rows: seq<Event>, start: int, end: Option<int>, types: seq<EventType>, limit: nat,
                                   p: seq<Event>, q: seq<Event>)
    requires Increasing(rows)
    requires IsPage(rows, start, end, types, limit, p) && IsPage(rows, start, end, types, limit, q)
    ensures p == q
  {
    assert p[..|p|] == p && q[..|q|] == q;
    PagesAgree(rows, start, end, types, limit, p, q, if |p| < |q| then |p| else |q|);
    if |p| < |q| {
      NotAPrefix(rows, start, end, types, limit, p, q);
    } else if |q| < |p| {
      NotAPrefix(rows, start, end, types, limit, q, p);
    }
  }

  /** On a dense log the query has exactly one answer, and it is `Page`. */
  lemma {:induction false} PageIsTheAnswer(log: seq<Event>, start: int, end: Option<int>, types: seq<EventType>,
                                           limit: nat, page: seq<Event>)
    requires Dense(log)
    ensures IsPage(log, start, end, types, limit, page) <==> page == Page(log, start, end, types, limit)
  {
    PageIsAPage(log, start, end, types, limit);
    if IsPage(log, start, end, types, limit, page) {
      OnePage(log, start, end, types, limit, page, Page(log, start, end, types, limit));
    }
  }

  /** `get_events`: bad bounds raise, the limit is capped, and an unknown session has no events. */
  method GetEvents(log: seq<Event>, start: Option<int>, end: Option<int>, types: seq<EventType>, limit: int)
    returns (r: Outcome<seq<Event>>)
    requires Dense(log)
    ensures r.Raised? <==> limit < 1 || (start.Some? && start.value < 1)
                           || (end.Some? && end.value < if start.Some? then start.value else 1)
    ensures r.Returned? ==>
              IsPage(log, if start.Some? then start.value else 1, end, types,
                     if limit < MAX_EVENTS_LIMIT then limit else MAX_EVENTS_LIMIT, r.value)
  {
    if limit < 1 {
      return Raised;
    }
    var effectiveLimit := if limit < MAX_EVENTS_LIMIT then limit else MAX_EVENTS_LIMIT;
    var effectiveStart := if start.None? then 1 else start.value;
    if effectiveStart < 1 {
      return Raised;
    }
    if end.Some? && end.value < effectiveStart {
      return Raised;
    }
    var page := Page(log, effectiveStart, end, types, effectiveLimit);
    PageIsTheAnswer(log, effectiveStart, end, types, effectiveLimit, page);
    return Returned(page);
  }

  // ---- Snapshots of a run --------------------------------------------------------------------

  /** Every read sees a dense log, and a later read sees the earlier one extended. */
  ghost predicate Snapshots(seen: nat -> seq<Event>) {
    forall i, j :: i <= j ==> Dense(seen(i)) && seen(i) <= seen(j)
  }

  /** A reader of one session in any run of the protocol sees such snapshots. */
  lemma {:induction false} CommittedReadsAreSnapshots(w: World, s0: State, run: seq<Action>, m: State,
                                                      more: seq<Action>, s: State, sid: Sid)
    requires Initial(w, s0) && Reaches(w, s0, run, m) && Reaches(w, m, more, s)
    ensures Dense(LogOf(m, sid)) && Dense(LogOf(s, sid)) && LogOf(m, sid) <= LogOf(s, sid)
  {
    ReachesConcat(w, s0, run, m, more, s);
    CommittedStateIsSound(w, s0, run, m);
    CommittedStateIsSound(w, s0, run + more, s);
    LogOnlyGrows(w, m, more, s);
  }

  // ---- Pages ----------------------------------------------------------------------------------

  function Next(start: int, page: seq<Event>): int {
    if page == [] then start else page[|page| - 1].sequence + 1
  }

  datatype Pages = Pages(events: seq<Event>, next: int)

  /** Reading page after page, each read on the log as it then is, restarting after the last event returned. */
  function Collect(seen: seq<seq<Event>>, start: int, types: seq<EventType>, limit: nat): Pages
    decreases |seen|
  {
    if seen == [] then Pages([], start)
    else
      var page := Page(seen[0], start, None, types, limit);
      var rest := Collect(seen[1..], Next(start, page), types, limit);
      Pages(page + rest.events, rest.next)
  }

  lemma {:induction false} SelectConcat(a: seq<Event>, b: seq<Event>, start: int, end: Option<int>,
                                        types: seq<EventType>)
    ensures Select(a + b, start, end, types) == Select(a, start, end, types) + Select(b, start, end, types)
  {
    if a == [] {
      assert a + b == b;
    } else {
      assert (a + b)[1..] == a[1..] + b;
      SelectConcat(a[1..], b, start, end, types);
      var head := if Matches(a[0], start, end, types) then [a[0]] else [];
      var x, y := Select(a[1..], start, end, types), Select(b, start, end, types);
      assert (head + x) + y == head + (x + y);
    }
  }

  lemma {:induction false} SelectNothing(rows: seq<Event>, start: int, end: Option<int>, types: seq<EventType>)
    requires forall e :: e in rows ==> !Matches(e, start, end, types)
    ensures Select(rows, start, end, types) == []
  {
    if rows != [] {
      assert rows[0] in rows && forall e :: e in rows[1..] ==> e in rows;
      SelectNothing(rows[1..], start, end, types);
    }
  }

  /** A bounded selection does not depend on what was appended past its bound. */
  lemma {:induction false} SelectStable(log: seq<Event>, longer: seq<Event>, start: int, last: int,
                                        types: seq<EventType>)
    requires Dense(longer) && log <= longer && last <= |log|
    ensures Select(longer, start, Some(last), types) == Select(log, start, Some(last), types)
  {
    var tail := longer[|log|..];
    assert longer == log + tail;
    SelectConcat(log, tail, start, Some(last), types);
    forall e | e in tail ensures !Matches(e, start, Some(last), types) {
      var i :| 0 <= i < |tail| && tail[i] == e;
      assert longer[|log| + i] == e;
    }
    SelectNothing(tail, start, Some(last), types);
  }

  lemma {:induction false} SelectSplit(log: seq<Event>, start: int, mid: int, last: int, types: seq<EventType>)
    requires Increasing(log) && start <= mid + 1 && mid <= last
    ensures Select(log, start, Some(last), types)
         == Select(log, start, Some(mid), types) + Select(log, mid + 1, Some(last), types)
  {
    if log != [] {
      SelectSplit(log[1..], start, mid, last, types);
      if log[0].sequence > mid {
        forall e | e in log ensures !Matches(e, start, Some(mid), types) {
          var i :| 0 <= i < |log| && log[i] == e;
        }
        SelectNothing(log, start, Some(mid), types);
        SelectNothing(log[1..], start, Some(mid), types);
      }
    }
  }

  /** A page is also the whole answer to the query that ends at its last event. */
  lemma {:induction false} PageUpToLast(log: seq<Event>, start: int, types: seq<EventType>, limit: nat,
                                        page: seq<Event>)
    requires Dense(log) && IsPage(log, start, None, types, limit, page) && limit >= 1
    ensures IsPage(log, start, Some(Next(start, page) - 1), types, |log| + limit, page)
  {
    var last := Next(start, page) - 1;
    if page != [] {
      assert page[|page| - 1] in page;
    }
    forall e | e in page ensures Matches(e, start, Some(last), types) {
      var i :| 0 <= i < |page| && page[i] == e;
    }
    forall e | e in log && Matches(e, start, Some(last), types) ensures e in page {
      assert Matches(e, start, None, types);
    }
  }

  /** A page shorter than the limit is the last one. */
  lemma {:induction false} ShortPageIsLast(log: seq<Event>, start: int, types: seq<EventType>, limit: nat,
                                           page: seq<Event>)
    requires Dense(log) && IsPage(log, start, None, types, limit, page) && |page| < limit
    ensures Select(log, Next(start, page), None, types) == []
  {
    var next := Next(start, page);
    if page != [] { assert page[|page| - 1] in page; }
    forall e | e in log ensures !Matches(e, next, None, types) {
      if e in page {
        var i :| 0 <= i < |page| && page[i] == e;
        assert i <= |page| - 1;
      }
    }
    SelectNothing(log, next, None, types);
  }

  lemma {:induction false} NextBounds(log: seq<Event>, start: int, types: seq<EventType>, limit: nat, page: seq<Event>)
    requires Dense(log) && IsPage(log, start, None, types, limit, page)
    ensures start <= Next(start, page) && (page != [] ==> Next(start, page) - 1 <= |log|)
  {
    if page != [] {
      assert page[|page| - 1] in page;
    }
  }

  lemma {:induction false} PageIsSelection(log: seq<Event>, start: int, types: seq<EventType>, limit: nat,
                                           page: seq<Event>)
    requires Dense(log) && limit >= 1 && IsPage(log, start, None, types, limit, page)
    ensures page == Select(log, start, Some(Next(start, page) - 1), types)
  {
    var last := Next(start, page) - 1;
    PageUpToLast(log, start, types, limit, page);
    PageIsTheAnswer(log, start, Some(last), types, |log| + limit, page);
    SelectShort(log, start, Some(last), types);
  }

  /** A page holds exactly the matching events from `start` to the last one it returns, and a page shorter than the
      limit leaves nothing behind. */
  lemma {:induction false} PageIsRange(log: seq<Event>, start: int, types: seq<EventType>, limit: nat)
    requires Dense(log) && limit >= 1 && start >= 1
    ensures var page := Page(log, start, None, types, limit);
            var last := Next(start, page) - 1;
            && page == Select(log, start, Some(last), types)
            && start - 1 <= last && (page != [] ==> last <= |log|)
            && (|page| < limit ==> Select(log, last + 1, None, types) == [])
  {
    var page := Page(log, start, None, types, limit);
    PageIsTheAnswer(log, start, None, types, limit, page);
    NextBounds(log, start, types, limit, page);
    PageIsSelection(log, start, types, limit, page);
    if |page| < limit {
      ShortPageIsLast(log, start, types, limit, page);
    }
  }

  lemma {:induction false} SelectShort(rows: seq<Event>, start: int, end: Option<int>, types: seq<EventType>)
    ensures |Select(rows, start, end, types)| <= |rows|
  {
    if rows != [] {
      SelectShort(rows[1..], start, end, types);
    }
  }

  /** A first page of an earlier log, then the rest of the range. */
  lemma {:induction false} PageThenRest(first: seq<Event>, log: seq<Event>, start: int, mid: int, next: int,
                                        types: seq<EventType>, page: seq<Event>, rest: seq<Event>)
    requires Dense(log) && first <= log && start <= mid + 1 <= next
    requires page == Select(first, start, Some(mid), types) && (page != [] ==> mid <= |first|)
    requires page == [] ==> mid == start - 1
    requires rest == Select(log, mid + 1, Some(next - 1), types)
    ensures page + rest == Select(log, start, Some(next - 1), types)
  {
    if page == [] {
      assert page + rest == rest;
    } else {
      SelectStable(first, log, start, mid, types);
      SelectSplit(log, start, mid, next - 1, types);
    }
  }

  lemma {:induction false} PrefixDense(log: seq<Event>, more: seq<Event>)
    requires Dense(more) && log <= more
    ensures Dense(log)
  {
    assert forall i :: 0 <= i < |log| ==> log[i] == more[i];
  }

  lemma {:induction false} CollectStep(seen: seq<seq<Event>>, start: int, types: seq<EventType>, limit: nat)
    requires seen != []
    ensures var page := Page(seen[0], start, None, types, limit);
            var rest := Collect(seen[1..], Next(start, page), types, limit);
            Collect(seen, start, types, limit) == Pages(page + rest.events, rest.next)
  {
  }

  /** The pages read together are the matching events of the range. */
  ghost predicate IsRange(p: Pages, log: seq<Event>, start: int, types: seq<EventType>) {
    start <= p.next && p.events == Select(log, start, Some(p.next - 1), types)
  }

  lemma {:induction false} RangeGrows(first: seq<Event>, log: seq<Event>, start: int, types: seq<EventType>,
                                      limit: nat, rest: Pages)
    requires Dense(log) && first <= log && limit >= 1 && start >= 1
    requires var page := Page(first, start, None, types, limit); IsRange(rest, log, Next(start, page), types)
    ensures var page := Page(first, start, None, types, limit);
            Next(start, page) >= start && IsRange(Pages(page + rest.events, rest.next), log, start, types)
  {
    var page := Page(first, start, None, types, limit);
    PrefixDense(first, log);
    PageIsRange(first, start, types, limit);
    PageThenRest(first, log, start, Next(start, page) - 1, rest.next, types, page, rest.events);
  }

  /** Keyset paging loses nothing and repeats nothing: with any limit and filter, and writers appending between pages,
      the pages together are the matching events from `start` up to the last sequence returned. */
  lemma {:induction false} PagesAreTheRange(seen: seq<seq<Event>>, start: int, types: seq<EventType>, limit: nat,
                                            log: seq<Event>)
    requires limit >= 1 && start >= 1
    requires Dense(log) && forall s :: s in seen ==> s <= log
    ensures IsRange(Collect(seen, start, types, limit), log, start, types)
    decreases |seen|
  {
    if seen == [] {
      forall e | e in log ensures !Matches(e, start, Some(start - 1), types) {}
      SelectNothing(log, start, Some(start - 1), types);
    } else {
      var first, others := seen[0], seen[1..];
      assert first in seen && forall s :: s in others ==> s in seen;
      var from := Next(start, Page(first, start, None, types, limit));
      PrefixDense(first, log);
      PageIsRange(first, start, types, limit);
      PagesAreTheRange(others, from, types, limit, log);
      RangeGrows(first, log, start, types, limit, Collect(others, from, types, limit));
      CollectStep(seen, start, types, limit);
    }
  }

  // ---- The poller -----------------------------------------------------------------------------

  function Rest(log: seq<Event>, from: nat): seq<Event>
    requires from <= |log|
  {
    if |log| - from <= DEFAULT_EVENTS_LIMIT then log[from..] else log[from..from + DEFAULT_EVENTS_LIMIT]
  }

  lemma {:induction false} SelectFrom(log: seq<Event>, offset: nat, start: int)
    requires forall i :: 0 <= i < |log| ==> log[i].sequence == offset + i + 1
    requires offset + 1 <= start <= offset + |log| + 1
    ensures Select(log, start, None, []) == log[start - 1 - offset..]
  {
    if log != [] {
      if start == offset + 1 {
        SelectAll(log, start);
      } else {
        SelectFrom(log[1..], offset + 1, start);
      }
    }
  }

  lemma {:induction false} SelectAll(log: seq<Event>, start: int)
    requires forall i :: 0 <= i < |log| ==> log[i].sequence >= start
    ensures Select(log, start, None, []) == log
  {
    if log != [] {
      SelectAll(log[1..], start);
    }
  }

  /** The unfiltered read after sequence `from`: the next events, at most a thousand. */
  lemma {:induction false} PageIsRest(log: seq<Event>, from: nat)
    requires Dense(log) && from <= |log|
    ensures Page(log, from + 1, None, [], DEFAULT_EVENTS_LIMIT) == Rest(log, from)
  {
    SelectFrom(log, 0, from + 1);
  }

  /** What a read after `base` adds to what was yielded up to there. */
  lemma {:induction false} RestContinues(log: seq<Event>, from: nat, base: nat)
    requires Dense(log) && from <= base <= |log|
    ensures var events := Rest(log, base);
            && base + |events| <= |log| && log[from..base] + events == log[from..base + |events|]
            && (forall i :: 0 <= i < |events| ==> events[i].sequence == base + i + 1)
            && (base + |events| == |log| <==> |log| - base <= DEFAULT_EVENTS_LIMIT)
  {
  }

  /** Where the cursor stands before the k-th poll: each poll takes it over what it sees, a thousand events at most. */
  ghost function Reached(from: nat, seen: nat -> seq<Event>, k: nat): nat {
    if k == 0 then from
    else
      var cursor := Reached(from, seen, k - 1);
      if |seen(k - 1)| - cursor <= DEFAULT_EVENTS_LIMIT then |seen(k - 1)| else cursor + DEFAULT_EVENTS_LIMIT
  }

  /** One poll. */
  lemma {:induction false} Polls(from: nat, seen: nat -> seq<Event>, k: nat, cursor: nat)
    requires Snapshots(seen) && from <= cursor <= |seen(k)| && cursor == Reached(from, seen, k)
    ensures var events := Rest(seen(k), cursor); var next := cursor + |events|;
            && next == Reached(from, seen, k + 1) && next <= |seen(k)| && seen(k) <= seen(k + 1)
            && (forall i :: 0 <= i < |events| ==> events[i].sequence == cursor + i + 1)
            && seen(k)[from..cursor] + events == seen(k)[from..next] == seen(k + 1)[from..next]
            && Page(seen(k), cursor + 1, None, [], DEFAULT_EVENTS_LIMIT) == events
  {
    assert seen(k) <= seen(k + 1);
    PageIsRest(seen(k), cursor);
    RestContinues(seen(k), from, cursor);
  }

  /** A poller that at most a thousand events ever get ahead of is at the end of the log after each poll. */
  lemma {:induction false} PollerKeepsUp(from: nat, seen: nat -> seq<Event>, k: nat)
    requires from <= |seen(0)| <= from + DEFAULT_EVENTS_LIMIT
    requires forall j :: 0 <= j < k ==> |seen(j + 1)| <= |seen(j)| + DEFAULT_EVENTS_LIMIT
    ensures Reached(from, seen, k + 1) == |seen(k)|
  {
    if k > 0 {
      PollerKeepsUp(from, seen, k - 1);
      assert |seen(k - 1 + 1)| <= |seen(k - 1)| + DEFAULT_EVENTS_LIMIT;
    }
  }

  /** What the poller has after the drain, on a log that may have grown since the last poll. */
  ghost predicate Drained(log: seq<Event>, from: nat, cursor: nat, yielded: seq<Event>) {
    && cursor <= |log| && from + |yielded| <= |log| && yielded == log[from..from + |yielded|]
    && |yielded| == cursor - from + |Rest(log, cursor)|
    && (yielded == log[from..] <==> |log| - cursor <= DEFAULT_EVENTS_LIMIT)
  }

  method Drain(seen: nat -> seq<Event>, k: nat, from: nat, cursor: nat, before: seq<Event>)
    returns (yielded: seq<Event>)
    requires Snapshots(seen) && from <= cursor <= |seen(k)| && before == seen(k)[from..cursor]
    ensures Drained(seen(k + 1), from, cursor, yielded)
  {
    var log := seen(k + 1);
    assert seen(k) <= log;
    PageIsRest(log, cursor);
    RestContinues(log, from, cursor);
    yielded := before + Page(log, cursor + 1, None, [], DEFAULT_EVENTS_LIMIT);
    assert before == log[from..cursor];
  }

  /** `_stream_events`: the k-th read sees `seen(k)`; `doneAfter(k)` tells whether the harness task is done at the
      check after it, and `raisesIn(k)` whether it raises during the wait that follows, which ends the stream without a
      drain.  `polls` bounds the number of polls, the harness being done by then. */
  method StreamEvents(from: nat, seen: nat -> seq<Event>, doneAfter: nat -> bool, raisesIn: nat -> bool, polls: nat)
    returns (yielded: seq<Event>, raised: bool, last: nat, cursor: nat)
    requires Snapshots(seen) && from <= |seen(0)| && doneAfter(polls)
    ensures last <= polls + 1 && from <= cursor <= |seen(last)|
    ensures cursor == Reached(from, seen, if raised then last + 1 else last)
    ensures raised ==> !doneAfter(last) && raisesIn(last) && yielded == seen(last)[from..cursor]
    ensures raised ==> forall k :: 0 <= k < last ==> !doneAfter(k) && !raisesIn(k)
    ensures !raised ==>
              && last > 0 && doneAfter(last - 1) && (forall k :: 0 <= k < last - 1 ==> !doneAfter(k) && !raisesIn(k))
              && Drained(seen(last), from, cursor, yielded)
  {
    var lastSequence, k := from, 0;
    yielded := [];
    while true
      invariant 0 <= k <= polls
      invariant from <= lastSequence <= |seen(k)| && lastSequence == Reached(from, seen, k)
      invariant yielded == seen(k)[from..lastSequence]
      invariant forall j :: 0 <= j < k ==> !doneAfter(j) && !raisesIn(j)
      decreases polls - k
    {
      Polls(from, seen, k, lastSequence);
      var events := Page(seen(k), lastSequence + 1, None, [], DEFAULT_EVENTS_LIMIT);
      yielded, lastSequence := Yield(yielded, events, lastSequence);
      if doneAfter(k) {
        raised, last, cursor := false, k + 1, lastSequence;
        yielded := Drain(seen, k, from, cursor, yielded);
        return;
      }
      if raisesIn(k) {
        raised, last, cursor := true, k, lastSequence;
        return;
      }
      k := k + 1;
    }
  }

  /** Yields the events one by one, remembering the last sequence. */
  method Yield(before: seq<Event>, events: seq<Event>, last: nat) returns (yielded: seq<Event>, lastSequence: nat)
    requires forall i :: 0 <= i < |events| ==> events[i].sequence == last + i + 1
    ensures yielded == before + events && lastSequence == last + |events|
  {
    yielded, lastSequence := before, last;
    for i := 0 to |events|
      invariant yielded == before + events[..i] && lastSequence == last + i
    {
      yielded := yielded + [events[i]];
      lastSequence := events[i].sequence;
    }
  }

  /** `send`, leaving the emit of the user message and the harness task to the snapshots: it reads the log `before`
      them and streams from there.  When the harness task does not raise while it is waited for, exactly what came after
      `before` is yielded if neither read was cut off at a thousand events, and only then; when it does, what was read
      until then. */
  method Send(before: seq<Event>, seen: nat -> seq<Event>, doneAfter: nat -> bool, raisesIn: nat -> bool, polls: nat)
    returns (yielded: seq<Event>, raised: bool, last: nat, cursor: nat)
    requires Snapshots(seen) && before <= seen(0) && doneAfter(polls)
    ensures last <= polls + 1 && before <= seen(last) && cursor <= |seen(last)|
    ensures cursor == Reached(if |before| <= DEFAULT_EVENTS_LIMIT then |before| else DEFAULT_EVENTS_LIMIT, seen,
                              if raised then last + 1 else last)
    ensures |before| <= DEFAULT_EVENTS_LIMIT ==> |before| <= cursor
    ensures raised ==> !doneAfter(last) && raisesIn(last)
    ensures raised && |before| <= DEFAULT_EVENTS_LIMIT ==> yielded == seen(last)[|before|..cursor]
    ensures !raised ==>
              (yielded == seen(last)[|before|..] <==>
                 |before| <= DEFAULT_EVENTS_LIMIT && |seen(last)| - cursor <= DEFAULT_EVENTS_LIMIT)
  {
    assert Dense(before) by { assert forall i :: 0 <= i < |before| ==> before[i] == seen(0)[i]; }
    var existing := Page(before, 1, None, [], DEFAULT_EVENTS_LIMIT);
    PageIsRest(before, 0);
    var lastSequence := if existing != [] then existing[|existing| - 1].sequence else 0;
    assert lastSequence == if |before| <= DEFAULT_EVENTS_LIMIT then |before| else DEFAULT_EVENTS_LIMIT;
    yielded, raised, last, cursor := StreamEvents(lastSequence, seen, doneAfter, raisesIn, polls);
    assert seen(0) <= seen(last);
    if |before| > DEFAULT_EVENTS_LIMIT && !raised {
      ghost var log := seen(last);
      assert |yielded| > 0 && yielded[0] == log[lastSequence];
      assert forall e :: e in log[|before|..] ==> e.sequence > |before|;
      assert yielded[0] !in log[|before|..];
    }
  }
}
