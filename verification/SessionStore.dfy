/** The session service as its one writer uses it: calls in sequence, any of which may raise. */
module SessionStore {
  import opened Values
  import opened Events
  import opened SessionProtocol
  import opened SessionGuarantees
  import opened SessionReads

  /** A call that loses its connection: before anything is written, or after the commit. */
  datatype Fault = NoFault | Lost(afterCommit: bool)

  class SessionService {
    var log: seq<Event>
    var status: Status
    var calls: nat
    const world: World
    const fault: nat -> Fault      // the fault met by the k-th call
    ghost var raises: nat          // how many calls have raised

    ghost predicate Valid()
      reads this
    {
      WellFormed(log)
    }

    constructor (world: World, fault: nat -> Fault, log: seq<Event>, status: Status)
      requires WellFormed(log)
      ensures Valid() && this.log == log && this.status == status && this.world == world && this.fault == fault
    {
      this.world, this.fault, this.log, this.status, this.calls, this.raises := world, fault, log, status, 0, 0;
    }

    /** `emit_event`: the effect that the protocol's own steps have when no other call is under way. */
    method EmitEvent(id: Uuid, kind: EventType, payload: Payload) returns (r: Outcome<Event>)
      requires Valid()
      modifies this`log, this`calls, this`raises
      ensures Valid() && calls == old(calls) + 1 && raises == old(raises) + if r.Raised? then 1 else 0
      ensures var effect := EmitAlone(world, Some(Session(old(status), |old(log)|, old(log))), id, kind, payload);
              match fault(old(calls))
              case NoFault =>
                && log == effect.session.value.log
                && r == (if effect.event.Some? then Returned(effect.event.value) else Raised)
              case Lost(afterCommit) =>
                r == Raised && log == if afterCommit then effect.session.value.log else old(log)
      ensures log == old(log) || log == old(log) + [Event(id, |old(log)| + 1, kind, payload)]
      ensures r.Returned? && Fresh(old(log), id) ==> log == old(log) + [Event(id, |old(log)| + 1, kind, payload)]
      ensures !Fresh(old(log), id) ==> log == old(log)
      ensures r.Raised? <==> fault(old(calls)) != NoFault || !Fits(world, payload) || (Fresh(old(log), id) && Terminal(status))
    {
      var f := fault(calls);
      calls := calls + 1;
      FindByIdIs(log, id);
      if f == Lost(false) || world.encoded(payload).None? || world.encoded(payload).value > MAX_PAYLOAD_BYTES {
        r := Raised;
      } else {
        var existing := FindById(log, id);
        if existing.Some? {
          r := Returned(existing.value);
        } else if Terminal(status) {
          r := Raised;
        } else {
          var e := Event(id, |log| + 1, kind, payload);
          assert forall i :: 0 <= i < |log| ==> log[i] in log;
          log := log + [e];
          r := Returned(e);
        }
      }
      if f == Lost(true) {
        r := Raised;
      }
      raises := raises + if r.Raised? then 1 else 0;
    }

    /** `get_events(session_id)`: the first thousand events. */
    method GetEvents() returns (r: Outcome<seq<Event>>)
      requires Valid()
      modifies this`calls, this`raises
      ensures calls == old(calls) + 1 && raises == old(raises) + if r.Raised? then 1 else 0
      ensures r == if fault(old(calls)).NoFault? then Returned(Rest(log, 0)) else Raised
    {
      var f := fault(calls);
      calls := calls + 1;
      PageIsRest(log, 0);
      r := if f.NoFault? then Returned(Page(log, 1, None, [], DEFAULT_EVENTS_LIMIT)) else Raised;
      raises := raises + if r.Raised? then 1 else 0;
    }

    method Wake() returns (r: Outcome<()>)
      modifies this`calls, this`raises
      ensures calls == old(calls) + 1 && raises == old(raises) + if r.Raised? then 1 else 0
      ensures r.Returned? <==> fault(old(calls)).NoFault? && !Terminal(status)
    {
      var f := fault(calls);
      calls := calls + 1;
      r := if f.NoFault? && !Terminal(status) then Returned(()) else Raised;
      raises := raises + if r.Raised? then 1 else 0;
    }

    /** `mark_complete`: the effect that the protocol's own steps have when no other call is under way. */
    method MarkComplete() returns (r: Outcome<Status>)
      modifies this`status, this`calls, this`raises
      ensures calls == old(calls) + 1 && raises == old(raises) + if r.Raised? then 1 else 0
      ensures var effect := CompleteAlone(Some(Session(old(status), |log|, log)));
              match fault(old(calls))
              case NoFault => status == effect.session.value.status && r == Returned(effect.status.value)
              case Lost(afterCommit) =>
                r == Raised && status == if afterCommit then effect.session.value.status else old(status)
    {
      var f := fault(calls);
      calls := calls + 1;
      if f != Lost(false) && !Terminal(status) {
        status := Completed;
      }
      r := if f.NoFault? then Returned(status) else Raised;
      raises := raises + if r.Raised? then 1 else 0;
    }
  }
}
