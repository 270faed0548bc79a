/** The session log as concurrent transactions see it: any number of emitters and completers, interleaved at every
    statement, with a rollback possible at each.  A statement reads what is committed when it runs; an advisory lock
    is held from its acquisition to the end of its transaction; an UPDATE waits for the row's current writer and then
    sets its own columns on the newest committed row. */
module SessionProtocol {
  import opened Values
  import opened Events

  const MAX_PAYLOAD_BYTES := 256 * 1024

  datatype Status = Active | Completed | Failed | Deleted

  predicate Terminal(s: Status) {
    s != Active
  }

  /** A committed sessions row with the committed event rows of that session, in commit order. */
  datatype Session = Session(status: Status, lastSequence: nat, log: seq<Event>)

  type Sid = nat

  datatype Refusal = Invalid | Missing | Ended | UniqueViolation | RolledBack

  datatype EmitPc =
    | Begin                // before the transaction
    | Locked               // advisory lock taken
    | Hit(event: Event)    // find_event_by_id returned a row
    | Missed               // find_event_by_id returned nothing
    | Loaded(last: nat)    // last_sequence read, status was active
    | Inserted(event: Event)
    | Bumped(event: Event)
    | Emitted(event: Event)
    | Refused(why: Refusal)

  datatype CompletePc =
    | Opening
    | SawActive
    | Updated
    | Finished(status: Status)
    | Abandoned

  datatype Tx =
    | Emit(sid: Sid, id: Uuid, kind: EventType, payload: Payload, pc: EmitPc)
    | Complete(sid: Sid, cpc: CompletePc)

  datatype State = State(sessions: map<Sid, Session>, txs: map<nat, Tx>)

  /** The lock key of a session and the encoded size of a payload (None: not JSON-serializable). */
  datatype World = World(hash: Sid -> int, encoded: Payload -> Option<nat>)

  datatype Action =
    | Create(sid: Sid)
    | Start(t: nat, tx: Tx)
    | Validate(t: nat)
    | Acquire(t: nat)
    | Find(t: nat)
    | Load(t: nat)
    | Insert(t: nat)
    | Bump(t: nat)
    | CommitEmit(t: nat)
    | ReadStatus(t: nat)
    | Update(t: nat)
    | CommitComplete(t: nat)
    | Rollback(t: nat)

  // ---- Locks and uncommitted rows -------------------------------------------------------

  predicate Holds(tx: Tx) {
    tx.Emit? && (tx.pc.Locked? || tx.pc.Hit? || tx.pc.Missed? || tx.pc.Loaded? || tx.pc.Inserted? || tx.pc.Bumped?)
  }

  predicate HoldsRow(tx: Tx) {
    (tx.Emit? && tx.pc.Bumped?) || (tx.Complete? && tx.cpc.Updated?)
  }

  predicate Unfinished(tx: Tx) {
    match tx
    case Emit(_, _, _, _, pc) => !pc.Emitted? && !pc.Refused?
    case Complete(_, cpc) => !cpc.Finished? && !cpc.Abandoned?
  }

  predicate LockFree(w: World, s: State, sid: Sid) {
    forall u :: u in s.txs && Holds(s.txs[u]) ==> w.hash(s.txs[u].sid) != w.hash(sid)
  }

  predicate RowFree(s: State, sid: Sid) {
    forall u :: u in s.txs && HoldsRow(s.txs[u]) ==> s.txs[u].sid != sid
  }

  predicate Pending(tx: Tx) {
    tx.Emit? && (tx.pc.Inserted? || tx.pc.Bumped?)
  }

  /** Another transaction has an uncommitted row with the same key: the insert has to wait. */
  predicate Blocked(s: State, t: nat, sid: Sid, e: Event) {
    exists u :: u in s.txs && u != t && Pending(s.txs[u]) && s.txs[u].sid == sid
                && (s.txs[u].pc.event.id == e.id || s.txs[u].pc.event.sequence == e.sequence)
  }

  /** A committed row has the same key: the insert raises. */
  predicate Conflicts(log: seq<Event>, e: Event) {
    exists i :: 0 <= i < |log| && (log[i].id == e.id || log[i].sequence == e.sequence)
  }

  predicate Fits(w: World, p: Payload) {
    w.encoded(p).Some? && w.encoded(p).value <= MAX_PAYLOAD_BYTES
  }

  function NewEvent(tx: Tx, sequence: nat): Event
    requires tx.Emit?
  {
    Event(tx.id, sequence, tx.kind, tx.payload)
  }

  function FindById(log: seq<Event>, id: Uuid): Option<Event> {
    if log == [] then None
    else if log[0].id == id then Some(log[0])
    else FindById(log[1..], id)
  }

  function LogOf(s: State, sid: Sid): seq<Event> {
    if sid in s.sessions then s.sessions[sid].log else []
  }

  // ---- Steps ---------------------------------------------------------------------------------

  predicate EmitAt(s: State, t: nat) {
    t in s.txs && s.txs[t].Emit?
  }

  predicate CompleteAt(s: State, t: nat) {
    t in s.txs && s.txs[t].Complete?
  }

  predicate Can(w: World, s: State, a: Action) {
    match a
    case Create(sid) => sid !in s.sessions
    case Start(t, tx) => t !in s.txs && (if tx.Emit? then tx.pc.Begin? else tx.cpc.Opening?)
    case Validate(t) => EmitAt(s, t) && s.txs[t].pc.Begin? && !Fits(w, s.txs[t].payload)
    case Acquire(t) =>
      EmitAt(s, t) && s.txs[t].pc.Begin? && Fits(w, s.txs[t].payload) && LockFree(w, s, s.txs[t].sid)
    case Find(t) => EmitAt(s, t) && s.txs[t].pc.Locked?
    case Load(t) => EmitAt(s, t) && s.txs[t].pc.Missed?
    case Insert(t) =>
      && EmitAt(s, t) && s.txs[t].pc.Loaded?
      && !Blocked(s, t, s.txs[t].sid, NewEvent(s.txs[t], s.txs[t].pc.last + 1))
    case Bump(t) => EmitAt(s, t) && s.txs[t].pc.Inserted? && RowFree(s, s.txs[t].sid)
    case CommitEmit(t) => EmitAt(s, t) && (s.txs[t].pc.Hit? || (s.txs[t].pc.Bumped? && s.txs[t].sid in s.sessions))
    case ReadStatus(t) => CompleteAt(s, t) && s.txs[t].cpc.Opening?
    case Update(t) => CompleteAt(s, t) && s.txs[t].cpc.SawActive? && RowFree(s, s.txs[t].sid)
    case CommitComplete(t) => CompleteAt(s, t) && s.txs[t].cpc.Updated? && s.txs[t].sid in s.sessions
    case Rollback(t) => t in s.txs && Unfinished(s.txs[t])
  }

  function AtPc(s: State, t: nat, pc: EmitPc): State
    requires EmitAt(s, t)
  {
    s.(txs := s.txs[t := s.txs[t].(pc := pc)])
  }

  function AtCpc(s: State, t: nat, cpc: CompletePc): State
    requires CompleteAt(s, t)
  {
    s.(txs := s.txs[t := s.txs[t].(cpc := cpc)])
  }

  function Do(w: World, s: State, a: Action): State
    requires Can(w, s, a)
  {
    match a
    case Create(sid) => s.(sessions := s.sessions[sid := Session(Active, 0, [])])
    case Start(t, tx) => s.(txs := s.txs[t := tx])
    case Validate(t) => AtPc(s, t, Refused(Invalid))
    case Acquire(t) => AtPc(s, t, Locked)
    case Find(t) =>
      (match FindById(LogOf(s, s.txs[t].sid), s.txs[t].id)
       case Some(e) => AtPc(s, t, Hit(e))
       case None => AtPc(s, t, Missed))
    case Load(t) =>
      var sid := s.txs[t].sid;
      if sid !in s.sessions then AtPc(s, t, Refused(Missing))
      else if Terminal(s.sessions[sid].status) then AtPc(s, t, Refused(Ended))
      else AtPc(s, t, Loaded(s.sessions[sid].lastSequence))
    case Insert(t) =>
      var e := NewEvent(s.txs[t], s.txs[t].pc.last + 1);
      AtPc(s, t, if Conflicts(LogOf(s, s.txs[t].sid), e) then Refused(UniqueViolation) else Inserted(e))
    case Bump(t) => AtPc(s, t, Bumped(s.txs[t].pc.event))
    case CommitEmit(t) =>
      var tx := s.txs[t];
      var done := AtPc(s, t, Emitted(tx.pc.event));
      if tx.pc.Hit? then done
      else
        var row := s.sessions[tx.sid];
        done.(sessions := s.sessions[tx.sid := row.(lastSequence := tx.pc.event.sequence, log := row.log + [tx.pc.event])])
    case ReadStatus(t) =>
      var sid := s.txs[t].sid;
      if sid !in s.sessions then AtCpc(s, t, Abandoned)
      else if Terminal(s.sessions[sid].status) then AtCpc(s, t, Finished(s.sessions[sid].status))
      else AtCpc(s, t, SawActive)
    case Update(t) => AtCpc(s, t, Updated)
    case CommitComplete(t) =>
      var sid := s.txs[t].sid;
      AtCpc(s, t, Finished(Completed)).(sessions := s.sessions[sid := s.sessions[sid].(status := Completed)])
    case Rollback(t) =>
      if s.txs[t].Emit? then AtPc(s, t, Refused(RolledBack)) else AtCpc(s, t, Abandoned)
  }

  /** `s'` is reached from `s` by these steps, in this order. */
  ghost predicate Reaches(w: World, s: State, run: seq<Action>, s': State)
    decreases |run|
  {
    if run == [] then s == s'
    else Can(w, s, run[0]) && Reaches(w, Do(w, s, run[0]), run[1..], s')
  }

  // ---- The invariant -----------------------------------------------------------------------------

  ghost predicate SessionOk(w: World, r: Session) {
    && Dense(r.log) && UniqueIds(r.log) && r.lastSequence == |r.log|
    && forall e :: e in r.log ==> Fits(w, e.payload)
  }

  /** No committed row of the log has this id. */
  predicate Fresh(log: seq<Event>, id: Uuid) {
    forall e :: e in log ==> e.id != id
  }

  /** The event a transaction that saw the session active is going to append. */
  function Promise(tx: Tx): Option<Event> {
    if !tx.Emit? then None
    else match tx.pc
      case Loaded(last) => Some(NewEvent(tx, last + 1))
      case Inserted(e) => Some(e)
      case Bumped(e) => Some(e)
      case _ => None
  }

  ghost predicate TxOk(w: World, s: State, tx: Tx) {
    var log := LogOf(s, tx.sid);
    match tx
    case Emit(sid, id, kind, payload, pc) =>
      && (Holds(tx) ==> Fits(w, payload))
      && (match pc
          case Hit(e) => e in log && e.id == id
          case Emitted(e) => e in log && e.id == id
          case Missed => Fresh(log, id)
          case Loaded(_) => true
          case Refused(why) => why != UniqueViolation
          case _ => true)
      && (Promise(tx).Some? ==>
            && sid in s.sessions && Fresh(log, id)
            && (s.sessions[sid].status == Active || s.sessions[sid].status == Completed)
            && Promise(tx).value == NewEvent(tx, s.sessions[sid].lastSequence + 1))
    case Complete(sid, cpc) =>
      match cpc
      case Finished(status) => sid in s.sessions && Terminal(status) && s.sessions[sid].status == status
      case Opening => true
      case Abandoned => true
      case _ => sid in s.sessions && (s.sessions[sid].status == Active || s.sessions[sid].status == Completed)
  }

  /** At most one transaction holds each advisory lock. */
  ghost predicate Exclusive(w: World, s: State) {
    forall t, u :: t in s.txs && u in s.txs && t != u && Holds(s.txs[t]) && Holds(s.txs[u]) ==>
      w.hash(s.txs[t].sid) != w.hash(s.txs[u].sid)
  }

  ghost predicate Inv(w: World, s: State) {
    && (forall sid :: sid in s.sessions ==> SessionOk(w, s.sessions[sid]))
    && (forall t :: t in s.txs ==> TxOk(w, s, s.txs[t]))
    && Exclusive(w, s)
  }

  lemma {:induction false} FindByIdIs(log: seq<Event>, id: Uuid)
    ensures match FindById(log, id)
            case Some(e) => e in log && e.id == id
            case None => Fresh(log, id)
  {
    if log != [] {
      FindByIdIs(log[1..], id);
      assert log == [log[0]] + log[1..];
    }
  }

  /** A step that only moves one transaction. */
  ghost predicate Moves(s: State, s': State, t: nat, tx': Tx) {
    t in s.txs && s' == s.(txs := s.txs[t := tx']) && tx'.sid == s.txs[t].sid
  }

  lemma {:induction false} MoveKeepsInv(w: World, s: State, s': State, t: nat, tx': Tx)
    requires Inv(w, s) && Moves(s, s', t, tx') && TxOk(w, s', tx')
    requires Holds(tx') && !Holds(s.txs[t]) ==> LockFree(w, s, tx'.sid)
    ensures Inv(w, s')
  {
    forall u | u in s'.txs ensures TxOk(w, s', s'.txs[u]) {
      if u != t { assert TxOk(w, s, s.txs[u]); }
    }
  }

  lemma {:induction false} CommitEmitKeepsInv(w: World, s: State, t: nat)
    requires Inv(w, s) && Can(w, s, CommitEmit(t)) && s.txs[t].pc.Bumped?
    ensures Inv(w, Do(w, s, CommitEmit(t)))
  {
    var s' := Do(w, s, CommitEmit(t));
    var tx := s.txs[t];
    var e := tx.pc.event;
    assert TxOk(w, s, tx);
    assert SessionOk(w, s.sessions[tx.sid]);
    assert SessionOk(w, s'.sessions[tx.sid]);
    forall u | u in s'.txs ensures TxOk(w, s', s'.txs[u]) {
      if u != t {
        assert TxOk(w, s, s.txs[u]);
        if s.txs[u].sid == tx.sid {
          assert !Holds(s.txs[u]);
        }
      }
    }
  }

  lemma {:induction false} CommitCompleteKeepsInv(w: World, s: State, t: nat)
    requires Inv(w, s) && Can(w, s, CommitComplete(t))
    ensures Inv(w, Do(w, s, CommitComplete(t)))
  {
    var s' := Do(w, s, CommitComplete(t));
    var sid := s.txs[t].sid;
    assert TxOk(w, s, s.txs[t]);
    assert SessionOk(w, s.sessions[sid]);
    forall u | u in s'.txs ensures TxOk(w, s', s'.txs[u]) {
      if u != t { assert TxOk(w, s, s.txs[u]); }
    }
  }

  lemma {:induction false} CreateKeepsInv(w: World, s: State, sid: Sid)
    requires Inv(w, s) && Can(w, s, Create(sid))
    ensures Inv(w, Do(w, s, Create(sid)))
  {
    var s' := Do(w, s, Create(sid));
    forall u | u in s'.txs ensures TxOk(w, s', s'.txs[u]) {
      assert TxOk(w, s, s.txs[u]);
    }
  }

  lemma {:induction false} InsertKeepsInv(w: World, s: State, t: nat)
    requires Inv(w, s) && Can(w, s, Insert(t))
    ensures Inv(w, Do(w, s, Insert(t)))
    ensures Do(w, s, Insert(t)).txs[t].pc == Inserted(NewEvent(s.txs[t], s.txs[t].pc.last + 1))
  {
    var tx := s.txs[t];
    var e := NewEvent(tx, tx.pc.last + 1);
    var log := LogOf(s, tx.sid);
    assert TxOk(w, s, tx) && SessionOk(w, s.sessions[tx.sid]);
    assert forall i :: 0 <= i < |log| ==> log[i] in log;
    assert !Conflicts(log, e);
    MoveKeepsInv(w, s, Do(w, s, Insert(t)), t, tx.(pc := Inserted(e)));
  }

  lemma {:induction false} StartKeepsInv(w: World, s: State, t: nat, tx: Tx)
    requires Inv(w, s) && Can(w, s, Start(t, tx))
    ensures Inv(w, Do(w, s, Start(t, tx)))
  {
    var s' := Do(w, s, Start(t, tx));
    forall u | u in s'.txs ensures TxOk(w, s', s'.txs[u]) {
      if u != t { assert TxOk(w, s, s.txs[u]); }
    }
  }

  lemma {:induction false} LookupKeepsInv(w: World, s: State, t: nat)
    requires Inv(w, s) && Can(w, s, Find(t))
    ensures Inv(w, Do(w, s, Find(t)))
  {
    FindByIdIs(LogOf(s, s.txs[t].sid), s.txs[t].id);
    assert TxOk(w, s, s.txs[t]);
    MoveKeepsInv(w, s, Do(w, s, Find(t)), t, Do(w, s, Find(t)).txs[t]);
  }

  /** The steps of an emit that neither look up, insert nor commit. */
  lemma {:induction false} EmitMoveKeepsInv(w: World, s: State, a: Action)
    requires Inv(w, s) && Can(w, s, a)
    requires a.Validate? || a.Acquire? || a.Load? || a.Bump? || (a.CommitEmit? && s.txs[a.t].pc.Hit?)
    ensures Inv(w, Do(w, s, a))
  {
    assert TxOk(w, s, s.txs[a.t]);
    MoveKeepsInv(w, s, Do(w, s, a), a.t, Do(w, s, a).txs[a.t]);
  }

  /** The steps of a completion but its commit, and rollbacks. */
  lemma {:induction false} OtherMoveKeepsInv(w: World, s: State, a: Action)
    requires Inv(w, s) && Can(w, s, a)
    requires a.ReadStatus? || a.Update? || a.Rollback?
    ensures Inv(w, Do(w, s, a))
  {
    assert TxOk(w, s, s.txs[a.t]);
    MoveKeepsInv(w, s, Do(w, s, a), a.t, Do(w, s, a).txs[a.t]);
  }

  /** Every step keeps the invariant. */
  lemma {:induction false} StepKeepsInv(w: World, s: State, a: Action)
    requires Inv(w, s) && Can(w, s, a)
    ensures Inv(w, Do(w, s, a))
  {
    match a
    case Create(sid) => CreateKeepsInv(w, s, sid);
    case Start(t, tx) => StartKeepsInv(w, s, t, tx);
    case Insert(t) => InsertKeepsInv(w, s, t);
    case CommitComplete(t) => CommitCompleteKeepsInv(w, s, t);
    case Find(t) => LookupKeepsInv(w, s, t);
    case CommitEmit(t) =>
      if s.txs[t].pc.Bumped? {
        CommitEmitKeepsInv(w, s, t);
      } else {
        EmitMoveKeepsInv(w, s, a);
      }
    case _ =>
      if a.ReadStatus? || a.Update? || a.Rollback? {
        OtherMoveKeepsInv(w, s, a);
      } else {
        EmitMoveKeepsInv(w, s, a);
      }
  }

  lemma {:induction false} RunKeepsInv(w: World, s: State, run: seq<Action>, s': State)
    requires Inv(w, s) && Reaches(w, s, run, s')
    ensures Inv(w, s')
    decreases |run|
  {
    if run != [] {
      StepKeepsInv(w, s, run[0]);
      RunKeepsInv(w, Do(w, s, run[0]), run[1..], s');
    }
  }
}
