/** What callers of the session service may rely on, over every run of module SessionProtocol. */
module SessionGuarantees {
  import opened Values
  import opened Events
  import opened SessionProtocol

  // ---- Dense, unique, append-only --------------------------------------------------------

  /** Sound sessions and no transaction yet. */
  ghost predicate Initial(w: World, s: State) {
    s.txs == map[] && forall sid :: sid in s.sessions ==> SessionOk(w, s.sessions[sid])
  }

  /** In every committed state sequences are exactly 1..last_sequence and ids are unique, and no emit ever meets
      a unique violation. */
  lemma {:induction false} CommittedStateIsSound(w: World, s0: State, run: seq<Action>, s: State)
    requires Initial(w, s0) && Reaches(w, s0, run, s)
    ensures forall sid :: sid in s.sessions ==>
              var r := s.sessions[sid];
              Dense(r.log) && UniqueIds(r.log) && r.lastSequence == |r.log|
    ensures forall t :: t in s.txs && s.txs[t].Emit? ==> s.txs[t].pc != Refused(UniqueViolation)
  {
    RunKeepsInv(w, s0, run, s);
    forall sid | sid in s.sessions
      ensures var r := s.sessions[sid]; Dense(r.log) && UniqueIds(r.log) && r.lastSequence == |r.log|
    {
      assert SessionOk(w, s.sessions[sid]);
    }
    forall t | t in s.txs && s.txs[t].Emit? ensures s.txs[t].pc != Refused(UniqueViolation) {
      assert TxOk(w, s, s.txs[t]);
    }
  }

  /** Sessions stay, earlier rows stay as they are, and new rows come after them. */
  lemma {:induction false} LogOnlyGrows(w: World, s: State, run: seq<Action>, s': State)
    requires Reaches(w, s, run, s')
    ensures forall sid :: sid in s.sessions ==> sid in s'.sessions && s.sessions[sid].log <= s'.sessions[sid].log
    decreases |run|
  {
    if run != [] {
      LogOnlyGrows(w, Do(w, s, run[0]), run[1..], s');
    }
  }

  // ---- After completion --------------------------------------------------------------------

  /** A transaction for this session that saw it active and is not over. */
  predicate InFlight(s: State, sid: Sid, t: nat) {
    t in s.txs && s.txs[t].sid == sid && Promise(s.txs[t]).Some?
  }

  lemma {:induction false} OneInFlight(w: World, s: State, sid: Sid, t: nat, u: nat)
    requires Exclusive(w, s) && InFlight(s, sid, t) && InFlight(s, sid, u)
    ensures t == u
  {
  }

  /** Nothing was appended since `s` and no new transaction saw the session active. */
  ghost predicate Quiet(s: State, s': State, sid: Sid) {
    && LogOf(s', sid) == LogOf(s, sid)
    && forall t :: InFlight(s', sid, t) ==> InFlight(s, sid, t) && Promise(s'.txs[t]) == Promise(s.txs[t])
  }

  /** The one event promised in `s` was appended, and nobody is left to append another. */
  ghost predicate Delivered(s: State, s': State, sid: Sid) {
    && (exists t :: InFlight(s, sid, t) && LogOf(s', sid) == LogOf(s, sid) + [Promise(s.txs[t]).value])
    && forall t :: !InFlight(s', sid, t)
  }

  ghost predicate Ends(s: State, s': State, sid: Sid) {
    && sid in s.sessions && sid in s'.sessions
    && s'.sessions[sid].status == s.sessions[sid].status
    && (Quiet(s, s', sid) || Delivered(s, s', sid))
  }

  lemma {:induction false} StepAfterEnd(w: World, s: State, a: Action, sid: Sid)
    requires Inv(w, s) && Can(w, s, a) && sid in s.sessions && Terminal(s.sessions[sid].status)
    ensures Ends(s, Do(w, s, a), sid)
  {
    var s' := Do(w, s, a);
    if !a.Create? && !a.Start? { assert TxOk(w, s, s.txs[a.t]); }
    if a.CommitEmit? && s.txs[a.t].pc.Bumped? && s.txs[a.t].sid == sid {
      assert InFlight(s, sid, a.t);
    } else {
      assert LogOf(s', sid) == LogOf(s, sid);
      forall t | InFlight(s', sid, t)
        ensures InFlight(s, sid, t) && Promise(s'.txs[t]) == Promise(s.txs[t])
      {
      }
    }
  }

  lemma {:induction false} EndsTwice(s: State, m: State, s': State, sid: Sid)
    requires Ends(s, m, sid) && Ends(m, s', sid)
    ensures Ends(s, s', sid)
  {
    if Delivered(s, m, sid) {
      var t :| InFlight(s, sid, t) && LogOf(m, sid) == LogOf(s, sid) + [Promise(s.txs[t]).value];
      assert Quiet(m, s', sid);
    }
  }

  /** Once a session is terminal its status never changes again, and at most one more event is ever committed to it:
      the one promised by the single transaction that already held the lock and had seen the session active. */
  lemma {:induction false} AtMostOneAfterEnd(w: World, s: State, run: seq<Action>, s': State, sid: Sid)
    requires Inv(w, s) && Reaches(w, s, run, s') && sid in s.sessions && Terminal(s.sessions[sid].status)
    ensures Ends(s, s', sid) && forall t, u :: InFlight(s, sid, t) && InFlight(s, sid, u) ==> t == u
    decreases |run|
  {
    if run == [] {
      assert Quiet(s, s', sid);
    } else {
      var m := Do(w, s, run[0]);
      StepKeepsInv(w, s, run[0]);
      StepAfterEnd(w, s, run[0], sid);
      AtMostOneAfterEnd(w, m, run[1..], s', sid);
      EndsTwice(s, m, s', sid);
    }
    forall t, u | InFlight(s, sid, t) && InFlight(s, sid, u) ensures t == u {
      OneInFlight(w, s, sid, t, u);
    }
  }

  /** An emit of an id that is neither logged nor promised when the session ends is never acknowledged. */
  lemma {:induction false} NewIdsAreRejected(w: World, s: State, run: seq<Action>, s': State, sid: Sid, t: nat)
    requires Inv(w, s) && Reaches(w, s, run, s') && sid in s.sessions && Terminal(s.sessions[sid].status)
    requires t in s'.txs && s'.txs[t].Emit? && s'.txs[t].sid == sid && Fresh(s.sessions[sid].log, s'.txs[t].id)
    requires forall u :: InFlight(s, sid, u) ==> s.txs[u].id != s'.txs[t].id
    ensures !s'.txs[t].pc.Emitted?
  {
    AtMostOneAfterEnd(w, s, run, s', sid);
    RunKeepsInv(w, s, run, s');
    assert TxOk(w, s', s'.txs[t]);
    assert forall u :: InFlight(s, sid, u) ==> TxOk(w, s, s.txs[u]);
  }

  // ---- Idempotence -----------------------------------------------------------------------------

  /** Two acknowledged emits of the same id returned the same event, and it is in the log once. */
  lemma {:induction false} SameIdSameEvent(w: World, s: State, t: nat, u: nat)
    requires Inv(w, s) && t in s.txs && u in s.txs && s.txs[t].Emit? && s.txs[u].Emit?
    requires s.txs[t].pc.Emitted? && s.txs[u].pc.Emitted?
    requires s.txs[t].sid == s.txs[u].sid && s.txs[t].id == s.txs[u].id
    ensures s.txs[t].pc == s.txs[u].pc
    ensures exists i :: 0 <= i < |LogOf(s, s.txs[t].sid)| && LogOf(s, s.txs[t].sid)[i] == s.txs[t].pc.event
    ensures forall i, j :: 0 <= i < j < |LogOf(s, s.txs[t].sid)| ==>
              LogOf(s, s.txs[t].sid)[i].id != LogOf(s, s.txs[t].sid)[j].id
  {
    assert TxOk(w, s, s.txs[t]) && TxOk(w, s, s.txs[u]);
    assert SessionOk(w, s.sessions[s.txs[t].sid]);
  }

  /** A replay of a logged event: it can only wait, find that event, return it, or fail. */
  predicate Replays(tx: Tx, e: Event) {
    tx.Emit? && tx.id == e.id &&
    match tx.pc
    case Begin => true
    case Locked => true
    case Hit(found) => found == e
    case Emitted(returned) => returned == e
    case Refused(why) => why == Invalid || why == RolledBack
    case _ => false
  }

  /** One step of anybody keeps it one, and its own commit leaves every session as it was. */
  lemma {:induction false} StepReplays(w: World, s: State, a: Action, t: nat, e: Event)
    requires Inv(w, s) && Can(w, s, a) && t in s.txs && Replays(s.txs[t], e) && e in LogOf(s, s.txs[t].sid)
    ensures t in Do(w, s, a).txs && Replays(Do(w, s, a).txs[t], e) && Do(w, s, a).txs[t].sid == s.txs[t].sid
    ensures e in LogOf(Do(w, s, a), s.txs[t].sid)
    ensures a.CommitEmit? && a.t == t ==> Do(w, s, a).sessions == s.sessions
  {
    var log := LogOf(s, s.txs[t].sid);
    FindByIdIs(log, e.id);
    assert SessionOk(w, s.sessions[s.txs[t].sid]);
    assert FindById(log, e.id) == Some(e);
  }

  /** Whatever happens in between, and also after the session has ended, emitting an id that is already logged can only
      return the logged event, be rolled back or be refused for its payload: it is never rejected as terminal. */
  lemma {:induction false} ReplayReturnsLoggedEvent(w: World, s: State, run: seq<Action>, s': State, t: nat, e: Event)
    requires Inv(w, s) && Reaches(w, s, run, s')
    requires t in s.txs && Replays(s.txs[t], e) && e in LogOf(s, s.txs[t].sid)
    ensures t in s'.txs && Replays(s'.txs[t], e)
    decreases |run|
  {
    if run != [] {
      StepReplays(w, s, run[0], t, e);
      StepKeepsInv(w, s, run[0]);
      ReplayReturnsLoggedEvent(w, Do(w, s, run[0]), run[1..], s', t, e);
    }
  }

  // ---- Progress ----------------------------------------------------------------------------------

  /** A step that takes a transaction forward. */
  predicate Forward(a: Action) {
    !a.Create? && !a.Start? && !a.Rollback?
  }

  lemma {:induction false} HolderAdvances(w: World, s: State, t: nat) returns (a: Action)
    requires Inv(w, s) && t in s.txs && Holds(s.txs[t])
    requires forall u :: u in s.txs ==> !HoldsRow(s.txs[u])
    ensures Forward(a) && Can(w, s, a)
  {
    var tx := s.txs[t];
    assert TxOk(w, s, tx);
    match tx.pc
    case Locked => a := Find(t);
    case Hit(_) => a := CommitEmit(t);
    case Missed => a := Load(t);
    case Loaded(last) => a := Insert(t);
    case Inserted(_) => a := Bump(t);
  }

  /** Locks never form a cycle: while any transaction is unfinished, some transaction can take its next step
      without anyone rolling back. */
  lemma {:induction false} NeverDeadlocked(w: World, s: State, t: nat) returns (a: Action)
    requires Inv(w, s) && t in s.txs && Unfinished(s.txs[t])
    ensures Forward(a) && Can(w, s, a)
  {
    if u :| u in s.txs && HoldsRow(s.txs[u]) {
      assert TxOk(w, s, s.txs[u]);
      a := if s.txs[u].Emit? then CommitEmit(u) else CommitComplete(u);
    } else if u :| u in s.txs && Holds(s.txs[u]) {
      a := HolderAdvances(w, s, u);
    } else {
      match s.txs[t] {
        case Emit(sid, _, _, payload, _) => a := if Fits(w, payload) then Acquire(t) else Validate(t);
        case Complete(_, cpc) => a := if cpc.Opening? then ReadStatus(t) else Update(t);
      }
    }
  }

  // ---- One emit on its own -----------------------------------------------------------------------

  /** What one uninterrupted call of `emit_event` returns and leaves behind. */
  datatype Effect = Effect(refused: Option<Refusal>, event: Option<Event>, session: Option<Session>)

  function EmitAlone(w: World, session: Option<Session>, id: Uuid, kind: EventType, payload: Payload): Effect {
    if !Fits(w, payload) then Effect(Some(Invalid), None, session)
    else
      var log := if session.Some? then session.value.log else [];
      match FindById(log, id)
      case Some(e) => Effect(None, Some(e), session)
      case None =>
        if session.None? then Effect(Some(Missing), None, None)
        else if Terminal(session.value.status) then Effect(Some(Ended), None, session)
        else
          var e := Event(id, session.value.lastSequence + 1, kind, payload);
          Effect(None, Some(e), Some(session.value.(lastSequence := e.sequence, log := log + [e])))
  }

  function SessionAt(s: State, sid: Sid): Option<Session> {
    if sid in s.sessions then Some(s.sessions[sid]) else None
  }

  lemma {:induction false} ReachesConcat(w: World, s: State, a: seq<Action>, m: State, b: seq<Action>, s': State)
    requires Reaches(w, s, a, m) && Reaches(w, m, b, s')
    ensures Reaches(w, s, a + b, s')
    decreases |a|
  {
    if a == [] {
      assert a + b == b;
    } else {
      assert (a + b)[1..] == a[1..] + b;
      ReachesConcat(w, Do(w, s, a[0]), a[1..], m, b, s');
    }
  }

  /** Nobody else is under way. */
  predicate Alone(s: State, t: nat) {
    EmitAt(s, t) && forall u :: u in s.txs && u != t ==> !Unfinished(s.txs[u])
  }

  /** The outcome the effect describes. */
  ghost predicate HasEffect(s': State, t: nat, sid: Sid, effect: Effect) {
    && EmitAt(s', t) && SessionAt(s', sid) == effect.session
    && match effect.refused
       case Some(why) => s'.txs[t].pc == Refused(why)
       case None => effect.event.Some? && s'.txs[t].pc == Emitted(effect.event.value)
  }

  /** The transaction as it was given, whatever it has done since. */
  predicate SameCall(a: Tx, b: Tx) {
    a.Emit? && b.Emit? && a.(pc := Begin) == b.(pc := Begin)
  }

  function EffectOf(w: World, s: State, t: nat): Effect
    requires EmitAt(s, t)
  {
    var tx := s.txs[t];
    EmitAlone(w, SessionAt(s, tx.sid), tx.id, tx.kind, tx.payload)
  }

  // ---- Every run of one emit on its own ----------------------------------------------------------

  /** Only this transaction takes steps, and it is not rolled back. */
  ghost predicate Solo(run: seq<Action>, t: nat) {
    forall i :: 0 <= i < |run| ==> Forward(run[i]) && run[i].t == t
  }

  /** Where an emit that began in `s` stands when only it has moved. */
  ghost predicate Underway(w: World, s: State, m: State, t: nat)
    requires EmitAt(s, t)
  {
    var tx := s.txs[t];
    && EmitAt(m, t) && SameCall(tx, m.txs[t]) && SameElsewhere(s, m, tx.sid)
    && match m.txs[t].pc
       case Emitted(_) => HasEffect(m, t, tx.sid, EffectOf(w, s, t))
       case Refused(_) => HasEffect(m, t, tx.sid, EffectOf(w, s, t))
       case pc =>
         && m.sessions == s.sessions && (!pc.Begin? ==> Fits(w, tx.payload))
         && Foreseen(s, t, pc)
  }

  /** All other sessions are as they were. */
  predicate SameElsewhere(s: State, s': State, sid: Sid) {
    s'.sessions - {sid} == s.sessions - {sid}
  }

  /** What its program counter says about the session. */
  ghost predicate Foreseen(s: State, t: nat, pc: EmitPc)
    requires EmitAt(s, t)
  {
    var tx := s.txs[t];
    var found := FindById(LogOf(s, tx.sid), tx.id);
    var open := tx.sid in s.sessions && !Terminal(s.sessions[tx.sid].status) && found.None?;
    match pc
    case Hit(e) => found == Some(e)
    case Missed => found.None?
    case Loaded(last) => open && last == s.sessions[tx.sid].lastSequence
    case Inserted(e) => open && e == NewEvent(tx, s.sessions[tx.sid].lastSequence + 1)
    case Bumped(e) => open && e == NewEvent(tx, s.sessions[tx.sid].lastSequence + 1)
    case _ => true
  }

  lemma {:induction false} StepUnderway(w: World, s: State, m: State, a: Action, t: nat)
    requires EmitAt(s, t) && Inv(w, m) && Underway(w, s, m, t)
    requires Can(w, m, a) && Forward(a) && a.t == t
    ensures Underway(w, s, Do(w, m, a), t)
  {
    if a.Insert? {
      InsertKeepsInv(w, m, t);
    }
  }

  lemma {:induction false} RunUnderway(w: World, s: State, m: State, run: seq<Action>, s': State, t: nat)
    requires EmitAt(s, t) && Inv(w, m) && Underway(w, s, m, t) && Reaches(w, m, run, s') && Solo(run, t)
    ensures Underway(w, s, s', t)
    decreases |run|
  {
    if run != [] {
      assert Forward(run[0]) && run[0].t == t;
      StepUnderway(w, s, m, run[0], t);
      StepKeepsInv(w, m, run[0]);
      assert Solo(run[1..], t) by { assert forall i :: 0 <= i < |run[1..]| ==> run[1..][i] == run[i + 1]; }
      RunUnderway(w, s, Do(w, m, run[0]), run[1..], s', t);
    }
  }

  /** Every run in which only this emit moves, is not rolled back and comes to its end has exactly that effect. */
  lemma {:induction false} EverySoloRunHasEffect(w: World, s: State, t: nat, run: seq<Action>, s': State)
    requires Inv(w, s) && EmitAt(s, t) && s.txs[t].pc.Begin?
    requires Reaches(w, s, run, s') && Solo(run, t) && t in s'.txs && !Unfinished(s'.txs[t])
    ensures var tx := s.txs[t];
            HasEffect(s', t, tx.sid, EmitAlone(w, SessionAt(s, tx.sid), tx.id, tx.kind, tx.payload))
            && SameElsewhere(s, s', tx.sid)
  {
    RunUnderway(w, s, s, run, s', t);
  }

  /** How many steps an emit may still take. */
  function Remaining(pc: EmitPc): nat {
    match pc
    case Begin => 6
    case Locked => 5
    case Missed => 4
    case Loaded(_) => 3
    case Inserted(_) => 2
    case Bumped(_) => 1
    case Hit(_) => 1
    case _ => 0
  }

  lemma {:induction false} AloneCan(w: World, s: State, t: nat) returns (a: Action)
    requires Inv(w, s) && Alone(s, t) && Unfinished(s.txs[t])
    ensures Forward(a) && a.t == t && Can(w, s, a)
  {
    assert TxOk(w, s, s.txs[t]);
    match s.txs[t].pc
    case Begin => a := if Fits(w, s.txs[t].payload) then Acquire(t) else Validate(t);
    case Locked => a := Find(t);
    case Hit(_) => a := CommitEmit(t);
    case Missed => a := Load(t);
    case Loaded(_) => a := Insert(t);
    case Inserted(_) => a := Bump(t);
    case Bumped(_) => a := CommitEmit(t);
  }

  lemma {:induction false} AloneAdvances(w: World, s: State, a: Action, t: nat)
    requires Alone(s, t) && Forward(a) && a.t == t && Can(w, s, a)
    ensures Alone(Do(w, s, a), t) && Remaining(Do(w, s, a).txs[t].pc) < Remaining(s.txs[t].pc)
  {
    forall u | u in Do(w, s, a).txs && u != t ensures !Unfinished(Do(w, s, a).txs[u]) {
      assert Do(w, s, a).txs[u] == s.txs[u];
    }
  }

  lemma {:induction false} AloneFinishes(w: World, s: State, t: nat) returns (run: seq<Action>, s': State)
    requires Inv(w, s) && Alone(s, t)
    ensures Reaches(w, s, run, s') && Solo(run, t) && t in s'.txs && !Unfinished(s'.txs[t])
    decreases Remaining(s.txs[t].pc)
  {
    if !Unfinished(s.txs[t]) {
      run, s' := [], s;
    } else {
      var a := AloneCan(w, s, t);
      AloneAdvances(w, s, a, t);
      StepKeepsInv(w, s, a);
      run, s' := AloneFinishes(w, Do(w, s, a), t);
      assert ([a] + run)[1..] == run;
      run := [a] + run;
    }
  }

  /** With no other transaction under way there is such a run: the call never gets stuck. */
  lemma {:induction false} AloneHasEffect(w: World, s: State, t: nat) returns (run: seq<Action>, s': State)
    requires Inv(w, s) && Alone(s, t) && s.txs[t].pc.Begin?
    ensures Reaches(w, s, run, s') && Solo(run, t)
    ensures var tx := s.txs[t];
            HasEffect(s', t, tx.sid, EmitAlone(w, SessionAt(s, tx.sid), tx.id, tx.kind, tx.payload))
            && SameElsewhere(s, s', tx.sid)
  {
    run, s' := AloneFinishes(w, s, t);
    EverySoloRunHasEffect(w, s, t, run, s');
  }

  // ---- One completion on its own -------------------------------------------------------------------

  /** What one uninterrupted call of `mark_complete` returns (None: the session does not exist) and leaves behind. */
  datatype Completion = Completion(status: Option<Status>, session: Option<Session>)

  function CompleteAlone(session: Option<Session>): Completion {
    match session
    case None => Completion(None, None)
    case Some(r) =>
      if Terminal(r.status) then Completion(Some(r.status), session)
      else Completion(Some(Completed), Some(r.(status := Completed)))
  }

  ghost predicate HasCompleted(s': State, t: nat, sid: Sid, effect: Completion) {
    && CompleteAt(s', t) && SessionAt(s', sid) == effect.session
    && s'.txs[t].cpc == if effect.status.Some? then Finished(effect.status.value) else Abandoned
  }

  /** Where a completion that began in `s` stands when only it has moved. */
  ghost predicate Completing(s: State, m: State, t: nat)
    requires CompleteAt(s, t)
  {
    var sid := s.txs[t].sid;
    && CompleteAt(m, t) && m.txs[t].sid == sid && SameElsewhere(s, m, sid)
    && match m.txs[t].cpc
       case Opening => m.sessions == s.sessions
       case SawActive => m.sessions == s.sessions && sid in s.sessions && s.sessions[sid].status == Active
       case Updated => m.sessions == s.sessions && sid in s.sessions && s.sessions[sid].status == Active
       case _ => HasCompleted(m, t, sid, CompleteAlone(SessionAt(s, sid)))
  }

  lemma {:induction false} StepCompleting(w: World, s: State, m: State, a: Action, t: nat)
    requires CompleteAt(s, t) && Completing(s, m, t) && Can(w, m, a) && Forward(a) && a.t == t
    ensures Completing(s, Do(w, m, a), t)
  {
  }

  lemma {:induction false} RunCompleting(w: World, s: State, m: State, run: seq<Action>, s': State, t: nat)
    requires CompleteAt(s, t) && Completing(s, m, t) && Reaches(w, m, run, s') && Solo(run, t)
    ensures Completing(s, s', t)
    decreases |run|
  {
    if run != [] {
      assert Forward(run[0]) && run[0].t == t;
      StepCompleting(w, s, m, run[0], t);
      assert forall i :: 0 <= i < |run[1..]| ==> run[1..][i] == run[i + 1];
      RunCompleting(w, s, Do(w, m, run[0]), run[1..], s', t);
    }
  }

  /** Every run in which only this completion moves, is not rolled back and comes to its end has exactly that effect: an
      active session is completed and otherwise as before, a terminal one stays as it is, a missing one is an error. */
  lemma {:induction false} EverySoloCompletionHasEffect(w: World, s: State, t: nat, run: seq<Action>, s': State)
    requires CompleteAt(s, t) && s.txs[t].cpc.Opening?
    requires Reaches(w, s, run, s') && Solo(run, t) && t in s'.txs && !Unfinished(s'.txs[t])
    ensures var sid := s.txs[t].sid;
            HasCompleted(s', t, sid, CompleteAlone(SessionAt(s, sid))) && SameElsewhere(s, s', sid)
  {
    RunCompleting(w, s, s, run, s', t);
  }

  function StepsLeft(cpc: CompletePc): nat {
    match cpc
    case Opening => 3
    case SawActive => 2
    case Updated => 1
    case _ => 0
  }

  /** Nobody else holds the row of the session. */
  predicate RowIsMine(s: State, t: nat) {
    CompleteAt(s, t) && forall u :: u in s.txs && u != t && HoldsRow(s.txs[u]) ==> s.txs[u].sid != s.txs[t].sid
  }

  lemma {:induction false} CompletionFinishes(w: World, s: State, t: nat) returns (run: seq<Action>, s': State)
    requires Inv(w, s) && RowIsMine(s, t)
    ensures Reaches(w, s, run, s') && Solo(run, t) && t in s'.txs && !Unfinished(s'.txs[t])
    decreases StepsLeft(s.txs[t].cpc)
  {
    if !Unfinished(s.txs[t]) {
      run, s' := [], s;
    } else {
      assert TxOk(w, s, s.txs[t]);
      var a := match s.txs[t].cpc
        case Opening => ReadStatus(t)
        case SawActive => Update(t)
        case _ => CommitComplete(t);
      StepKeepsInv(w, s, a);
      run, s' := CompletionFinishes(w, Do(w, s, a), t);
      assert ([a] + run)[1..] == run;
      run := [a] + run;
    }
  }

  /** With nobody else about to write the session there is such a run. */
  lemma {:induction false} CompletionHasEffect(w: World, s: State, t: nat) returns (run: seq<Action>, s': State)
    requires Inv(w, s) && RowIsMine(s, t) && s.txs[t].cpc.Opening?
    ensures Reaches(w, s, run, s') && Solo(run, t)
    ensures var sid := s.txs[t].sid;
            HasCompleted(s', t, sid, CompleteAlone(SessionAt(s, sid))) && SameElsewhere(s, s', sid)
  {
    run, s' := CompletionFinishes(w, s, t);
    EverySoloCompletionHasEffect(w, s, t, run, s');
  }

  // ---- From the first call on ----------------------------------------------------------------------

  /** Nobody is under way. */
  predicate Idle(s: State) {
    forall t :: t in s.txs ==> !Unfinished(s.txs[t])
  }

  /** Anyone may call `emit_event` at any time; while nobody else is under way the call has its effect. */
  lemma {:induction false} EmitAnswers(w: World, s: State, t: nat, sid: Sid, id: Uuid, kind: EventType,
                                       payload: Payload)
    returns (run: seq<Action>, s': State)
    requires Inv(w, s) && Idle(s) && t !in s.txs
    ensures Reaches(w, s, run, s') && SameElsewhere(s, s', sid) && Inv(w, s') && Idle(s')
    ensures s'.txs - {t} == s.txs && HasEffect(s', t, sid, EmitAlone(w, SessionAt(s, sid), id, kind, payload))
  {
    var start := Start(t, Emit(sid, id, kind, payload, Begin));
    var m := Do(w, s, start);
    StepKeepsInv(w, s, start);
    assert forall u :: u in m.txs && u != t ==> m.txs[u] == s.txs[u];
    run, s' := AloneHasEffect(w, m, t);
    RunKeepsInv(w, m, run, s');
    OthersStay(w, m, run, s', t);
    assert m.txs - {t} == s.txs;
    forall u | u in s'.txs && u != t ensures !Unfinished(s'.txs[u]) {
      assert u in s'.txs - {t} && s.txs[u] == s'.txs[u];
    }
    assert ([start] + run)[1..] == run;
    run := [start] + run;
  }

  lemma {:induction false} OthersStay(w: World, s: State, run: seq<Action>, s': State, t: nat)
    requires Reaches(w, s, run, s') && Solo(run, t)
    ensures s'.txs - {t} == s.txs - {t}
    decreases |run|
  {
    if run != [] {
      assert Forward(run[0]) && run[0].t == t;
      assert forall i :: 0 <= i < |run[1..]| ==> run[1..][i] == run[i + 1];
      OthersStay(w, Do(w, s, run[0]), run[1..], s', t);
    }
  }

  lemma {:induction false} FirstEvent(w: World, id: Uuid, kind: EventType, payload: Payload)
    requires Fits(w, payload)
    ensures var e := Event(id, 1, kind, payload);
            EmitAlone(w, Some(Session(Active, 0, [])), id, kind, payload) == Effect(None, Some(e), Some(Session(Active, 1, [e])))
  {
    assert [] + [Event(id, 1, kind, payload)] == [Event(id, 1, kind, payload)];
  }

  /** A new session takes its first event under sequence 1. */
  lemma {:induction false} NewSessionTakesEvents(w: World, s: State, sid: Sid, t: nat, id: Uuid, kind: EventType,
                                                 payload: Payload)
    returns (run: seq<Action>, s': State)
    requires Inv(w, s) && Idle(s) && sid !in s.sessions && t !in s.txs && Fits(w, payload)
    ensures Reaches(w, s, run, s') && Inv(w, s') && Idle(s') && SameElsewhere(s, s', sid) && s'.txs - {t} == s.txs
    ensures var e := Event(id, 1, kind, payload);
            SessionAt(s', sid) == Some(Session(Active, 1, [e])) && EmitAt(s', t) && s'.txs[t].pc == Emitted(e)
  {
    var created := Do(w, s, Create(sid));
    StepKeepsInv(w, s, Create(sid));
    run, s' := EmitAnswers(w, created, t, sid, id, kind, payload);
    FirstEvent(w, id, kind, payload);
    assert created.sessions - {sid} == s.sessions - {sid};
    assert ([Create(sid)] + run)[1..] == run;
    run := [Create(sid)] + run;
  }

  lemma {:induction false} CompletionAnswers(w: World, s: State, t: nat, sid: Sid) returns (run: seq<Action>, s': State)
    requires Inv(w, s) && Idle(s) && t !in s.txs
    ensures Reaches(w, s, run, s') && SameElsewhere(s, s', sid) && Inv(w, s') && s'.txs - {t} == s.txs
    ensures HasCompleted(s', t, sid, CompleteAlone(SessionAt(s, sid)))
  {
    var start := Start(t, Complete(sid, Opening));
    var m := Do(w, s, start);
    StepKeepsInv(w, s, start);
    run, s' := CompletionHasEffect(w, m, t);
    RunKeepsInv(w, m, run, s');
    OthersStay(w, m, run, s', t);
    assert m.txs - {t} == s.txs;
    assert ([start] + run)[1..] == run;
    run := [start] + run;
  }

  /** And then it can be completed, which leaves the event. */
  lemma {:induction false} SessionsLive(w: World, s: State, sid: Sid, t: nat, id: Uuid, kind: EventType,
                                        payload: Payload)
    returns (run: seq<Action>, s': State)
    requires Inv(w, s) && Idle(s) && sid !in s.sessions && t !in s.txs && t + 1 !in s.txs && Fits(w, payload)
    ensures Reaches(w, s, run, s') && SessionAt(s', sid) == Some(Session(Completed, 1, [Event(id, 1, kind, payload)]))
    ensures EmitAt(s', t) && s'.txs[t].pc == Emitted(Event(id, 1, kind, payload))
    ensures CompleteAt(s', t + 1) && s'.txs[t + 1].cpc == Finished(Completed)
  {
    var emit, m := NewSessionTakesEvents(w, s, sid, t, id, kind, payload);
    assert t + 1 !in m.txs by { assert t + 1 !in m.txs - {t}; }
    var complete, end := CompletionAnswers(w, m, t + 1, sid);
    assert t in end.txs - {t + 1} && end.txs[t] == m.txs[t];
    ReachesConcat(w, s, emit, m, complete, end);
    run, s' := emit + complete, end;
  }

  // ---- Where committed state comes from ------------------------------------------------------------

  /** The session as the run found it; one created during the run starts active and empty. */
  function Base(s0: State, sid: Sid): Session {
    if sid in s0.sessions then s0.sessions[sid] else Session(Active, 0, [])
  }

  /** Each new row is the event of an emit that was acknowledged with it. */
  ghost predicate RowsExplained(s0: State, s: State, sid: Sid)
    requires sid in s.sessions
  {
    var base, log := Base(s0, sid).log, s.sessions[sid].log;
    && base <= log
    && forall i :: |base| <= i < |log| ==> IsAcknowledged(s, sid, log[i])
  }

  ghost predicate IsAcknowledged(s: State, sid: Sid, e: Event) {
    exists t :: Acknowledged(s, sid, t, e)
  }

  predicate Acknowledged(s: State, sid: Sid, t: nat, e: Event) {
    EmitAt(s, t) && s.txs[t].sid == sid && s.txs[t].pc == Emitted(e) && e == NewEvent(s.txs[t], e.sequence)
  }

  /** The status is the one found, or an active session was completed by a completion that says so. */
  ghost predicate StatusExplained(s0: State, s: State, sid: Sid)
    requires sid in s.sessions
  {
    var before, after := Base(s0, sid).status, s.sessions[sid].status;
    before == after || (before == Active && after == Completed && exists t :: CompletedBy(s, sid, t))
  }

  predicate CompletedBy(s: State, sid: Sid, t: nat) {
    CompleteAt(s, t) && s.txs[t].sid == sid && s.txs[t].cpc == Finished(Completed)
  }

  ghost predicate Explained(s0: State, s: State) {
    forall sid :: sid in s.sessions ==> RowsExplained(s0, s, sid) && StatusExplained(s0, s, sid)
  }

  lemma {:induction false} AcknowledgedStays(w: World, s: State, a: Action, sid: Sid, t: nat, e: Event)
    requires Can(w, s, a) && Acknowledged(s, sid, t, e)
    ensures Acknowledged(Do(w, s, a), sid, t, e)
  {
  }

  /** A step appends nothing to a session, or the event it acknowledges. */
  lemma {:induction false} NewRowIsAcknowledged(w: World, s: State, a: Action, sid: Sid)
    requires Inv(w, s) && Can(w, s, a) && sid in s.sessions
    ensures var s' := Do(w, s, a);
            var log, log' := LogOf(s, sid), LogOf(s', sid);
            log' == log || (|log'| == |log| + 1 && log <= log' && Acknowledged(s', sid, a.t, log'[|log|]))
  {
    if a.CommitEmit? {
      assert TxOk(w, s, s.txs[a.t]);
    }
  }

  lemma {:induction false} RowsStayExplained(w: World, s0: State, s: State, a: Action, sid: Sid)
    requires Inv(w, s) && Can(w, s, a) && sid in s.sessions && RowsExplained(s0, s, sid)
    ensures RowsExplained(s0, Do(w, s, a), sid)
  {
    var s' := Do(w, s, a);
    var base, log, log' := Base(s0, sid).log, LogOf(s, sid), LogOf(s', sid);
    NewRowIsAcknowledged(w, s, a, sid);
    forall i | |base| <= i < |log'| ensures IsAcknowledged(s', sid, log'[i]) {
      if i < |log| {
        assert log'[i] == log[i] && IsAcknowledged(s, sid, log[i]);
        var t :| Acknowledged(s, sid, t, log[i]);
        AcknowledgedStays(w, s, a, sid, t, log[i]);
      } else {
        assert Acknowledged(s', sid, a.t, log'[i]);
      }
    }
    assert sid in s'.sessions && log' == s'.sessions[sid].log && base <= log';
  }

  lemma {:induction false} StatusStaysExplained(w: World, s0: State, s: State, a: Action, sid: Sid)
    requires Inv(w, s) && Can(w, s, a) && sid in s.sessions && StatusExplained(s0, s, sid)
    ensures StatusExplained(s0, Do(w, s, a), sid)
  {
    var s' := Do(w, s, a);
    if Base(s0, sid).status != s.sessions[sid].status {
      var t :| CompletedBy(s, sid, t);
      assert CompletedBy(s', sid, t);
    } else if s'.sessions[sid].status != s.sessions[sid].status {
      assert TxOk(w, s, s.txs[a.t]);
      assert CompletedBy(s', sid, a.t);
    }
  }

  lemma {:induction false} StepStaysExplained(w: World, s0: State, s: State, a: Action)
    requires Inv(w, s) && Can(w, s, a) && Explained(s0, s) && (forall sid :: sid in s0.sessions ==> sid in s.sessions)
    ensures Explained(s0, Do(w, s, a))
  {
    forall sid | sid in Do(w, s, a).sessions
      ensures RowsExplained(s0, Do(w, s, a), sid) && StatusExplained(s0, Do(w, s, a), sid)
    {
      if sid in s.sessions {
        RowsStayExplained(w, s0, s, a, sid);
        StatusStaysExplained(w, s0, s, a, sid);
      }
    }
  }

  lemma {:induction false} RunStaysExplained(w: World, s0: State, s: State, run: seq<Action>, s': State)
    requires Inv(w, s) && Explained(s0, s) && (forall sid :: sid in s0.sessions ==> sid in s.sessions)
    requires Reaches(w, s, run, s')
    ensures Explained(s0, s')
    decreases |run|
  {
    if run != [] {
      StepStaysExplained(w, s0, s, run[0]);
      StepKeepsInv(w, s, run[0]);
      RunStaysExplained(w, s0, Do(w, s, run[0]), run[1..], s');
    }
  }

  /** Nothing is committed that nobody was told: over any run, whatever is rolled back or refused, each new row is the event
      of an acknowledged emit, and a session ends only by a completion that returned. */
  lemma {:induction false} CommittedStateIsAcknowledged(w: World, s0: State, run: seq<Action>, s: State)
    requires Initial(w, s0) && Reaches(w, s0, run, s)
    ensures Explained(s0, s)
  {
    RunStaysExplained(w, s0, s0, run, s);
  }
}
