/** Which sandbox a log names, and how many sandbox records a run can add. */
module Lifecycle {
  import opened Values
  import opened Events
  import SandboxService
  import Shown

  type Execution = SandboxService.Execution

  /** The sandbox a record names, when it names one. */
  function SandboxName(e: Event): Option<string> {
    var name := TextOf(Get(e.payload, "sandbox_id"));
    if IsSandboxProvisioned(e) && name.Some? && name.value != "" then name else None
  }

  /** `_latest_sandbox_id` */
  function LatestSandbox(log: seq<Event>): Option<string> {
    if log == [] then None
    else
      var name := SandboxName(log[|log| - 1]);
      if name.Some? then name else LatestSandbox(log[..|log| - 1])
  }

  /** The event records a sandbox under this id, which is text and not empty. */
  predicate Identifies(e: Event, id: string) {
    && e.kind == SystemEvent && "type" in e.payload && e.payload["type"] == Str("sandbox_provisioned")
    && id != "" && Shown.Tells(e.payload, "sandbox_id", id)
  }

  lemma {:induction false} NamesItsSandbox(e: Event, id: string)
    ensures Identifies(e, id) <==> SandboxName(e) == Some(id)
  {
  }

  /** The id in the last record that has one. */
  lemma {:induction false} LatestIs(log: seq<Event>)
    ensures match LatestSandbox(log)
            case None => forall i, id :: 0 <= i < |log| ==> !Identifies(log[i], id)
            case Some(x) => exists i :: 0 <= i < |log| && Identifies(log[i], x)
                                        && forall j, id :: i < j < |log| ==> !Identifies(log[j], id)
  {
    if log != [] {
      var n := |log| - 1;
      LatestIs(log[..n]);
      forall id ensures Identifies(log[n], id) <==> SandboxName(log[n]) == Some(id) {
        NamesItsSandbox(log[n], id);
      }
      if SandboxName(log[n]).None? && LatestSandbox(log).Some? {
        var x := LatestSandbox(log).value;
        var i :| 0 <= i < n && Identifies(log[..n][i], x) && forall j, id :: i < j < n ==> !Identifies(log[..n][j], id);
        forall j, id | i < j < |log| ensures !Identifies(log[j], id) {
          if j < n { assert log[..n][j] == log[j]; }
        }
        assert Identifies(log[i], x);
      } else if LatestSandbox(log).None? {
        forall i, id | 0 <= i < |log| ensures !Identifies(log[i], id) {
          if i < n { assert log[..n][i] == log[i]; }
        }
      }
    }
  }

  method FindLatestSandbox(events: seq<Event>) returns (name: Option<string>)
    ensures name == LatestSandbox(events)
  {
    assert events[..|events|] == events;
    for i := |events| downto 0
      invariant LatestSandbox(events) == LatestSandbox(events[..i])
    {
      assert events[..i + 1][..i] == events[..i];
      name := SandboxName(events[i]);
      if name.Some? {
        return;
      }
    }
    name := None;
  }

  function ProvisionedPayload(sandbox: string, runtime: string): Payload {
    map["type" := Str("sandbox_provisioned"), "sandbox_id" := Str(sandbox), "runtime" := Str(runtime)]
  }

  /** A record as the harness emits it for a sandbox with a non-empty id. */
  predicate HarnessRecord(e: Event) {
    SandboxName(e).Some? && e.id == SandboxProvisionedId(SandboxName(e).value)
  }

  /** Of the records from position `base` on, each that is followed by another names a lost sandbox. */
  ghost predicate OnlyLostAreReplaced(log: seq<Event>, base: nat, lost: set<string>) {
    && (forall i :: base <= i < |log| && IsSandboxProvisioned(log[i]) ==> HarnessRecord(log[i]))
    && forall i, j :: base <= i < j < |log| && IsSandboxProvisioned(log[i]) && IsSandboxProvisioned(log[j]) ==>
         SandboxName(log[i]).value in lost
  }

  lemma {:induction false} LatestIsLast(log: seq<Event>, base: nat, lost: set<string>, i: nat)
    requires OnlyLostAreReplaced(log, base, lost) && base <= i < |log| && IsSandboxProvisioned(log[i])
    ensures LatestSandbox(log).Some?
    ensures LatestSandbox(log) == SandboxName(log[i]) || SandboxName(log[i]).value in lost
  {
    var n := |log| - 1;
    if SandboxName(log[n]).None? {
      assert i < n;
      LatestIsLast(log[..n], base, lost, i);
    }
  }

  /** A record added after the latest sandbox was found lost keeps the bookkeeping. */
  lemma {:induction false} ReplaceLost(log: seq<Event>, base: nat, lost: set<string>, e: Event)
    requires base <= |log| && OnlyLostAreReplaced(log, base, lost) && HarnessRecord(e)
    requires LatestSandbox(log).Some? ==> LatestSandbox(log).value in lost
    ensures OnlyLostAreReplaced(log + [e], base, lost)
  {
    var more := log + [e];
    forall i, j | base <= i < j < |more| && IsSandboxProvisioned(more[i]) && IsSandboxProvisioned(more[j])
      ensures SandboxName(more[i]).value in lost
    {
      if j == |log| {
        LatestIsLast(log, base, lost, i);
      }
    }
  }

  function RecordCount(log: seq<Event>, base: nat): nat
    requires base <= |log|
    decreases |log|
  {
    if |log| == base then 0
    else RecordCount(log[..|log| - 1], base) + if IsSandboxProvisioned(log[|log| - 1]) then 1 else 0
  }

  function Names(log: seq<Event>, base: nat): set<string>
    requires base <= |log|
  {
    set i | base <= i < |log| && HarnessRecord(log[i]) :: SandboxName(log[i]).value
  }

  lemma {:induction false} NamesHas(log: seq<Event>, base: nat, x: string)
    requires base <= |log|
    ensures x in Names(log, base) <==> exists i :: base <= i < |log| && HarnessRecord(log[i]) && SandboxName(log[i]).value == x
  {
  }

  /** One more event adds the name it records, which is new because record ids are unique. */
  lemma {:induction false} NamesSnoc(log: seq<Event>, base: nat, e: Event)
    requires base <= |log| && UniqueIds(log + [e])
    ensures HarnessRecord(e) ==> SandboxName(e).value !in Names(log, base)
    ensures Names(log + [e], base) == Names(log, base) + if HarnessRecord(e) then {SandboxName(e).value} else {}
  {
    var more := log + [e];
    assert more[|log|] == e;
    forall i | base <= i < |log| && HarnessRecord(log[i]) && HarnessRecord(e)
      ensures SandboxName(log[i]).value != SandboxName(e).value
    {
      assert more[i] == log[i] && more[i].id != e.id;
    }
    forall x ensures x in Names(more, base) <==>
                     x in Names(log, base) || (HarnessRecord(e) && x == SandboxName(e).value)
    {
      NamesHas(log, base, x);
      NamesHas(more, base, x);
      if i :| base <= i < |log| && HarnessRecord(log[i]) && SandboxName(log[i]).value == x {
        assert more[i] == log[i];
      }
      if i :| base <= i < |more| && HarnessRecord(more[i]) && SandboxName(more[i]).value == x {
        assert i < |log| ==> log[i] == more[i];
      }
    }
  }

  lemma {:induction false} NamesCount(log: seq<Event>, base: nat, lost: set<string>)
    requires UniqueIds(log) && base <= |log| && OnlyLostAreReplaced(log, base, lost)
    ensures |Names(log, base)| == RecordCount(log, base)
    decreases |log|
  {
    if |log| > base {
      var n := |log| - 1;
      NamesCount(log[..n], base, lost);
      assert log == log[..n] + [log[n]];
      NamesSnoc(log[..n], base, log[n]);
    }
  }

  /** A run adds at most one sandbox record more than it lost sandboxes. */
  lemma {:induction false} RecordsBoundedByLosses(log: seq<Event>, base: nat, lost: set<string>)
    requires UniqueIds(log) && base <= |log| && OnlyLostAreReplaced(log, base, lost)
    ensures RecordCount(log, base) <= 1 + |lost|
  {
    if RecordCount(log, base) > 0 {
      NamesCount(log, base, lost);
      var names := Names(log, base);
      var k := LastRecord(log, base);
      var last := SandboxName(log[k]).value;
      forall x | x in names - {last} ensures x in lost {
        var i :| base <= i < |log| && HarnessRecord(log[i]) && SandboxName(log[i]).value == x;
        assert i < k;
      }
      SubsetSize(names - {last}, lost);
      SubsetSize(names, names - {last} + {last});
    }
  }

  lemma {:induction false} LastRecord(log: seq<Event>, base: nat) returns (k: nat)
    requires base <= |log| && RecordCount(log, base) > 0
    ensures base <= k < |log| && IsSandboxProvisioned(log[k])
    ensures forall j :: k < j < |log| ==> !IsSandboxProvisioned(log[j])
    decreases |log|
  {
    k := |log| - 1;
    if !IsSandboxProvisioned(log[k]) {
      k := LastRecord(log[..k], base);
    }
  }

  lemma {:induction false} SubsetSize(a: set<string>, b: set<string>)
    requires a <= b
    ensures |a| <= |b|
  {
    if a != {} {
      var x :| x in a;
      SubsetSize(a - {x}, b - {x});
    }
  }

  /** Only events that are no sandbox records follow. */
  ghost predicate NoRecords(log: seq<Event>, more: seq<Event>) {
    log <= more && forall i :: |log| <= i < |more| ==> !IsSandboxProvisioned(more[i])
  }

  lemma {:induction false} NoRecordsKeepLost(log: seq<Event>, more: seq<Event>, base: nat, lost: set<string>)
    requires base <= |log| && OnlyLostAreReplaced(log, base, lost) && NoRecords(log, more)
    ensures OnlyLostAreReplaced(more, base, lost)
  {
    assert forall i :: base <= i < |more| && IsSandboxProvisioned(more[i]) ==> i < |log| && log[i] == more[i];
  }

  // ---- Which sandboxes a run uses -------------------------------------------------------------

  /** What the sandbox service has been asked so far. */
  datatype Use = Use(handedOut: seq<string>, executed: seq<Execution>, destroyed: seq<string>, violations: nat)

  function Elements(s: seq<string>): set<string> {
    set x | x in s
  }

  /** The sandboxes these tools were run in. */
  function Sandboxes(executed: seq<Execution>): set<string> {
    set x | x in executed :: x.sandbox
  }

  lemma {:induction false} SandboxesConcat(s: seq<Execution>, t: seq<Execution>)
    ensures Sandboxes(s + t) == Sandboxes(s) + Sandboxes(t)
  {
  }

  /** From `a` to `b` exactly these sandboxes were handed out or executed in, none was destroyed, and no transition
      was refused. */
  ghost predicate Uses(a: Use, b: Use, ids: set<string>) {
    && a.handedOut <= b.handedOut && a.executed <= b.executed
    && b.destroyed == a.destroyed && b.violations == a.violations
    && ids == Elements(b.handedOut[|a.handedOut|..]) + Sandboxes(b.executed[|a.executed|..])
  }

  lemma {:induction false} UsesNothing(a: Use)
    ensures Uses(a, a, {})
  {
  }

  lemma {:induction false} ElementsConcat(s: seq<string>, t: seq<string>)
    ensures Elements(s + t) == Elements(s) + Elements(t)
  {
  }

  lemma {:induction false} UsesThen(a: Use, b: Use, c: Use, x: set<string>, y: set<string>)
    requires Uses(a, b, x) && Uses(b, c, y)
    ensures Uses(a, c, x + y)
  {
    assert c.handedOut[|a.handedOut|..] == b.handedOut[|a.handedOut|..] + c.handedOut[|b.handedOut|..];
    assert c.executed[|a.executed|..] == b.executed[|a.executed|..] + c.executed[|b.executed|..];
    ElementsConcat(b.handedOut[|a.handedOut|..], c.handedOut[|b.handedOut|..]);
    SandboxesConcat(b.executed[|a.executed|..], c.executed[|b.executed|..]);
  }

  lemma {:induction false} UsesHandedOut(a: Use, id: string)
    ensures Uses(a, a.(handedOut := a.handedOut + [id]), {id})
  {
    assert (a.handedOut + [id])[|a.handedOut|..] == [id];
    assert a.executed[|a.executed|..] == [];
  }

  lemma {:induction false} UsesExecuted(a: Use, x: Execution)
    ensures Uses(a, a.(executed := a.executed + [x]), {x.sandbox})
  {
    assert (a.executed + [x])[|a.executed|..] == [x];
    assert a.handedOut[|a.handedOut|..] == [];
  }

  /** After the run: each sandbox used since `a` was passed to destroy exactly once, and nothing else was. */
  ghost predicate DestroysWhatItUsed(a: Use, b: Use) {
    && a.handedOut <= b.handedOut && a.executed <= b.executed && a.destroyed <= b.destroyed && b.violations == a.violations
    && var gone := b.destroyed[|a.destroyed|..];
    && (forall i, j :: 0 <= i < j < |gone| ==> gone[i] != gone[j])
    && Elements(gone) == Elements(b.handedOut[|a.handedOut|..]) + Sandboxes(b.executed[|a.executed|..])
  }

  lemma {:induction false} DestroysAll(a: Use, b: Use, ids: set<string>, gone: seq<string>)
    requires Uses(a, b, ids) && Elements(gone) == ids
    requires forall i, j :: 0 <= i < j < |gone| ==> gone[i] != gone[j]
    ensures DestroysWhatItUsed(a, b.(destroyed := b.destroyed + gone))
  {
    assert (b.destroyed + gone)[|a.destroyed|..] == gone;
  }

  lemma {:induction false} DestroysNothing(a: Use)
    ensures DestroysWhatItUsed(a, a)
  {
    UsesNothing(a);
    DestroysAll(a, a, {}, []);
    assert a.destroyed + [] == a.destroyed;
  }
}
