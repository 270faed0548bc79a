/** `create_session`: any number of calls racing on the partial unique index over `metadata->>'request_id'`. */
module CreateSession {
  import opened Values

  /** The `request_id` entry of a session's metadata.  `text` is what `->>` makes of a value that is not a string;
      JSON null has none. */
  datatype Key = Absent | Text(s: string) | Other(text: Option<string>)

  datatype Row = Row(id: nat, agent: nat, key: Key)

  /** What the unique index stores for a row, and what a lookup compares. */
  function IndexEntry(key: Key): Option<string> {
    match key
    case Absent => None
    case Text(s) => Some(s)
    case Other(text) => text
  }

  /** `_merge_metadata`: an explicit argument fills an absent or null entry and must agree with any other. */
  function MergeKey(metadata: Key, requestId: Option<string>): Outcome<Key> {
    match requestId
    case None => Returned(metadata)
    case Some(s) =>
      if metadata == Absent || metadata == Other(None) || metadata == Text(s) then Returned(Text(s)) else Raised
  }

  datatype Pc =
    | Opening
    | Found(row: Row)
    | Inserting
    | Inserted(row: Row)
    | Conflicted
    | Reading
    | Created(row: Row)
    | Failed               // RuntimeError
    | Aborted

  /** One call, its metadata already merged. */
  datatype Call = Call(agent: nat, key: Key, pc: Pc)

  datatype State = State(rows: seq<Row>, calls: map<nat, Call>)

  datatype Action =
    | Begin(t: nat, agent: nat, metadata: Key, requestId: Option<string>)
    | Look(t: nat)
    | ReturnFound(t: nat)
    | Insert(t: nat)
    | Commit(t: nat)
    | Recover(t: nat)
    | Reread(t: nat)
    | Abort(t: nat)

  function Lookup(rows: seq<Row>, s: string): Option<Row> {
    if rows == [] then None
    else if IndexEntry(rows[0].key) == Some(s) then Some(rows[0])
    else Lookup(rows[1..], s)
  }

  predicate Taken(rows: seq<Row>, key: Key) {
    exists r :: r in rows && IndexEntry(key).Some? && IndexEntry(r.key) == IndexEntry(key)
  }

  /** Another call has an uncommitted row with the same index entry: the insert waits for it. */
  predicate Blocked(s: State, t: nat, key: Key) {
    exists u :: u in s.calls && u != t && s.calls[u].pc.Inserted?
                && IndexEntry(key).Some? && IndexEntry(s.calls[u].key) == IndexEntry(key)
  }

  predicate At(s: State, t: nat) {
    t in s.calls
  }

  predicate Can(s: State, a: Action) {
    match a
    case Begin(t, _, metadata, requestId) => t !in s.calls && MergeKey(metadata, requestId).Returned?
    case Look(t) => At(s, t) && s.calls[t].pc.Opening?
    case ReturnFound(t) => At(s, t) && s.calls[t].pc.Found?
    case Insert(t) => At(s, t) && s.calls[t].pc.Inserting? && !Blocked(s, t, s.calls[t].key)
    case Commit(t) => At(s, t) && s.calls[t].pc.Inserted?
    case Recover(t) => At(s, t) && s.calls[t].pc.Conflicted?
    case Reread(t) => At(s, t) && s.calls[t].pc.Reading?
    case Abort(t) => At(s, t) && !s.calls[t].pc.Created? && !s.calls[t].pc.Failed?
  }

  function To(s: State, t: nat, pc: Pc): State
    requires At(s, t)
  {
    s.(calls := s.calls[t := s.calls[t].(pc := pc)])
  }

  function Do(agents: set<nat>, s: State, a: Action): State
    requires Can(s, a)
  {
    match a
    case Begin(t, agent, metadata, requestId) =>
      s.(calls := s.calls[t := Call(agent, MergeKey(metadata, requestId).value, Opening)])
    case Look(t) =>
      var key := s.calls[t].key;
      if !key.Text? then To(s, t, Inserting)
      else (match Lookup(s.rows, key.s) case Some(row) => To(s, t, Found(row)) case None => To(s, t, Inserting))
    case ReturnFound(t) => To(s, t, Created(s.calls[t].pc.row))
    case Insert(t) =>
      var call := s.calls[t];
      if call.agent !in agents || Taken(s.rows, call.key) then To(s, t, Conflicted)
      else To(s, t, Inserted(Row(t, call.agent, call.key)))
    case Commit(t) =>
      var row := s.calls[t].pc.row;
      To(s, t, Created(row)).(rows := s.rows + [row])
    case Recover(t) => To(s, t, if s.calls[t].key.Text? then Reading else Failed)
    case Reread(t) =>
      if !s.calls[t].key.Text? then To(s, t, Failed)
      else (match Lookup(s.rows, s.calls[t].key.s) case Some(row) => To(s, t, Created(row)) case None => To(s, t, Failed))
    case Abort(t) => To(s, t, Aborted)
  }

  ghost predicate Reaches(agents: set<nat>, s: State, run: seq<Action>, s': State)
    decreases |run|
  {
    if run == [] then s == s'
    else Can(s, run[0]) && Reaches(agents, Do(agents, s, run[0]), run[1..], s')
  }

  // ---- The invariant ---------------------------------------------------------------------

  /** The partial unique index. */
  ghost predicate Indexed(rows: seq<Row>) {
    forall i, j :: 0 <= i < j < |rows| && IndexEntry(rows[i].key).Some? ==>
      IndexEntry(rows[i].key) != IndexEntry(rows[j].key)
  }

  ghost predicate CallOk(agents: set<nat>, s: State, call: Call) {
    match call.pc
    case Found(row) => row in s.rows && call.key.Text? && IndexEntry(row.key) == IndexEntry(call.key)
    case Inserted(row) => row.key == call.key && !Taken(s.rows, call.key)
    case Created(row) => row in s.rows && IndexEntry(row.key) == IndexEntry(call.key)
    case Conflicted => call.agent !in agents || Taken(s.rows, call.key)
    case Reading => call.key.Text? && (call.agent !in agents || Taken(s.rows, call.key))
    case Failed => call.agent !in agents || (!call.key.Text? && Taken(s.rows, call.key))
    case _ => true
  }

  ghost predicate Inv(agents: set<nat>, s: State) {
    && Indexed(s.rows)
    && (forall t :: t in s.calls ==> CallOk(agents, s, s.calls[t]))
    && forall t, u | t in s.calls && u in s.calls && t != u && s.calls[t].pc.Inserted? && s.calls[u].pc.Inserted? ::
         IndexEntry(s.calls[t].key).Some? ==> IndexEntry(s.calls[t].key) != IndexEntry(s.calls[u].key)
  }

  lemma {:induction false} LookupIs(rows: seq<Row>, s: string)
    ensures match Lookup(rows, s)
            case Some(row) => row in rows && IndexEntry(row.key) == Some(s)
            case None => !Taken(rows, Text(s))
  {
    if rows != [] {
      LookupIs(rows[1..], s);
      assert rows == [rows[0]] + rows[1..];
    }
  }

  lemma {:induction false} MoveKeepsInv(agents: set<nat>, s: State, t: nat, pc: Pc)
    requires Inv(agents, s) && At(s, t) && CallOk(agents, s, s.calls[t].(pc := pc))
    requires pc.Inserted? ==> !Blocked(s, t, s.calls[t].key)
    ensures Inv(agents, To(s, t, pc))
  {
    var s' := To(s, t, pc);
    forall u | u in s'.calls ensures CallOk(agents, s', s'.calls[u]) {
      if u != t { assert CallOk(agents, s, s.calls[u]); }
    }
  }

  lemma {:induction false} CommitKeepsInv(agents: set<nat>, s: State, t: nat)
    requires Inv(agents, s) && Can(s, Commit(t))
    ensures Inv(agents, Do(agents, s, Commit(t)))
  {
    var s' := Do(agents, s, Commit(t));
    var row := s.calls[t].pc.row;
    assert CallOk(agents, s, s.calls[t]);
    assert forall r :: r in s'.rows <==> r in s.rows || r == row;
    assert Indexed(s'.rows) by {
      forall i, j | 0 <= i < j < |s'.rows| && IndexEntry(s'.rows[i].key).Some?
        ensures IndexEntry(s'.rows[i].key) != IndexEntry(s'.rows[j].key)
      {
        if j == |s.rows| { assert s.rows[i] in s.rows; }
      }
    }
    forall u | u in s'.calls ensures CallOk(agents, s', s'.calls[u]) {
      if u != t {
        assert CallOk(agents, s, s.calls[u]);
        var call := s.calls[u];
        if Taken(s.rows, call.key) {
          var r :| r in s.rows && IndexEntry(r.key) == IndexEntry(call.key);
          assert r in s'.rows;
        }
      }
    }
  }

  lemma {:induction false} StepKeepsInv(agents: set<nat>, s: State, a: Action)
    requires Inv(agents, s) && Can(s, a)
    ensures Inv(agents, Do(agents, s, a))
  {
    var s' := Do(agents, s, a);
    if a.Begin? {
      forall u | u in s'.calls ensures CallOk(agents, s', s'.calls[u]) {
        if u != a.t { assert CallOk(agents, s, s.calls[u]); }
      }
    } else if a.Commit? {
      CommitKeepsInv(agents, s, a.t);
    } else {
      var call := s.calls[a.t];
      assert CallOk(agents, s, call);
      if call.key.Text? { LookupIs(s.rows, call.key.s); }
      MoveKeepsInv(agents, s, a.t, s'.calls[a.t].pc);
    }
  }

  lemma {:induction false} RunKeepsInv(agents: set<nat>, s: State, run: seq<Action>, s': State)
    requires Inv(agents, s) && Reaches(agents, s, run, s')
    ensures Inv(agents, s')
    decreases |run|
  {
    if run != [] {
      StepKeepsInv(agents, s, run[0]);
      RunKeepsInv(agents, Do(agents, s, run[0]), run[1..], s');
    }
  }

  // ---- What callers get --------------------------------------------------------------------

  ghost predicate Initial(s: State) {
    s.calls == map[] && Indexed(s.rows)
  }

  /** Calls with one key return one session, the only one with that index entry. */
  lemma {:induction false} SameKeySameSession(agents: set<nat>, s: State, t: nat, u: nat)
    requires Inv(agents, s) && t in s.calls && u in s.calls && s.calls[t].key.Text? && s.calls[u].key == s.calls[t].key
    requires s.calls[t].pc.Created? && s.calls[u].pc.Created?
    ensures s.calls[t].pc.row == s.calls[u].pc.row && s.calls[t].pc.row in s.rows
    ensures IndexEntry(s.calls[t].pc.row.key) == Some(s.calls[t].key.s)
    ensures forall i, j :: 0 <= i < j < |s.rows| && IndexEntry(s.rows[i].key) == Some(s.calls[t].key.s) ==>
              IndexEntry(s.rows[j].key) != Some(s.calls[t].key.s)
  {
    assert CallOk(agents, s, s.calls[t]) && CallOk(agents, s, s.calls[u]);
  }

  /** The loser of an insert race finds the winner when it reads again; for a string request id the RuntimeError
      means that the agent does not exist, and otherwise that another session has the same index entry. */
  lemma {:induction false} WhyItFails(agents: set<nat>, s0: State, run: seq<Action>, s: State, t: nat)
    requires Initial(s0) && Reaches(agents, s0, run, s) && t in s.calls && s.calls[t].pc.Failed?
    ensures s.calls[t].key.Text? ==> s.calls[t].agent !in agents
    ensures s.calls[t].agent in agents ==> Taken(s.rows, s.calls[t].key)
  {
    RunKeepsInv(agents, s0, run, s);
    assert CallOk(agents, s, s.calls[t]);
  }

  /** Re-reading after a lost race always returns the winner. */
  lemma {:induction false} RereadFindsWinner(agents: set<nat>, s0: State, run: seq<Action>, s: State, t: nat)
    requires Initial(s0) && Reaches(agents, s0, run, s) && t in s.calls && s.calls[t].pc.Reading?
    requires s.calls[t].agent in agents
    ensures var s' := Do(agents, s, Reread(t));
            s'.calls[t].pc.Created? && s'.calls[t].pc.row in s.rows
            && IndexEntry(s'.calls[t].pc.row.key) == IndexEntry(s.calls[t].key)
  {
    RunKeepsInv(agents, s0, run, s);
    assert CallOk(agents, s, s.calls[t]);
    LookupIs(s.rows, s.calls[t].key.s);
  }

  // ---- Calls by their arguments ----------------------------------------------------------------

  /** The call was made for this request id: as an argument or, without one, in its metadata. */
  predicate For(call: Action, requestId: string) {
    call.Begin? && (call.requestId == Some(requestId) || (call.requestId == None && call.metadata == Text(requestId)))
  }

  /** A call is refused exactly when its metadata holds a request id other than null that is not its argument. */
  lemma RefusedExactlyWhen(s: State, t: nat, agent: nat, metadata: Key, requestId: Option<string>)
    requires t !in s.calls
    ensures Can(s, Begin(t, agent, metadata, requestId))
            <==> requestId == None || metadata == Absent || metadata == Other(None) || metadata == Text(requestId.value)
  {
  }

  lemma {:induction false} CallStays(agents: set<nat>, s: State, run: seq<Action>, s': State, t: nat)
    requires Reaches(agents, s, run, s') && t in s.calls
    ensures t in s'.calls && s'.calls[t].agent == s.calls[t].agent && s'.calls[t].key == s.calls[t].key
    decreases |run|
  {
    if run != [] {
      CallStays(agents, Do(agents, s, run[0]), run[1..], s', t);
    }
  }

  /** The key a call runs under, from its arguments: the argument if there is one, else what its metadata holds. */
  lemma {:induction false} BegunCall(agents: set<nat>, s: State, run: seq<Action>, s': State, i: nat)
    requires Reaches(agents, s, run, s') && i < |run| && run[i].Begin?
    ensures run[i].t in s'.calls && s'.calls[run[i].t].agent == run[i].agent
    ensures s'.calls[run[i].t].key == if run[i].requestId.Some? then Text(run[i].requestId.value) else run[i].metadata
    decreases |run|
  {
    var m := Do(agents, s, run[0]);
    if i == 0 {
      CallStays(agents, m, run[1..], s', run[0].t);
    } else {
      BegunCall(agents, m, run[1..], s', i - 1);
    }
  }

  /** However the calls interleave, a request id has at most one committed session, and every call made for that id
      that returns a session returns that one. */
  lemma {:induction false} OneSessionPerRequest(agents: set<nat>, s0: State, run: seq<Action>, s: State, i: nat,
                                                j: nat, requestId: string)
    requires Initial(s0) && Reaches(agents, s0, run, s) && i < |run| && j < |run|
    requires For(run[i], requestId) && For(run[j], requestId)
    ensures run[i].t in s.calls && run[j].t in s.calls
    ensures var one, other := s.calls[run[i].t].pc, s.calls[run[j].t].pc;
            one.Created? && other.Created? ==>
              && one.row == other.row && one.row in s.rows && IndexEntry(one.row.key) == Some(requestId)
              && forall k, l :: 0 <= k < l < |s.rows| && IndexEntry(s.rows[k].key) == Some(requestId) ==>
                   IndexEntry(s.rows[l].key) != Some(requestId)
  {
    BegunCall(agents, s0, run, s, i);
    BegunCall(agents, s0, run, s, j);
    RunKeepsInv(agents, s0, run, s);
    if s.calls[run[i].t].pc.Created? && s.calls[run[j].t].pc.Created? {
      SameKeySameSession(agents, s, run[i].t, run[j].t);
    }
  }

  // ---- Where sessions come from ------------------------------------------------------------------

  /** Each row was there before or is the one its own call returned; a row not committed yet belongs to its call, and a
      call without a string request id returns its own row. */
  ghost predicate Sourced(agents: set<nat>, s0: State, s: State) {
    && (forall r :: r in s.rows ==> r in s0.rows || Made(agents, s, r))
    && forall t :: t in s.calls ==> OwnRow(agents, s.calls[t], t)
  }

  ghost predicate Made(agents: set<nat>, s: State, r: Row) {
    && r.id in s.calls && s.calls[r.id].pc == Created(r)
    && r.agent == s.calls[r.id].agent && r.key == s.calls[r.id].key && r.agent in agents
  }

  predicate OwnRow(agents: set<nat>, call: Call, t: nat) {
    match call.pc
    case Inserted(r) => r.id == t && r.agent == call.agent && r.key == call.key && r.agent in agents
    case Created(r) => call.key.Text? || (r.id == t && r.agent == call.agent && r.key == call.key)
    case Found(_) => call.key.Text?
    case Reading => call.key.Text?
    case _ => true
  }

  lemma {:induction false} StepSourced(agents: set<nat>, s0: State, s: State, a: Action)
    requires Sourced(agents, s0, s) && Can(s, a)
    ensures Sourced(agents, s0, Do(agents, s, a))
  {
    var s' := Do(agents, s, a);
    if !a.Begin? { assert OwnRow(agents, s.calls[a.t], a.t); }
    forall r | r in s'.rows ensures r in s0.rows || Made(agents, s', r) {
      if r in s.rows && r !in s0.rows { assert Made(agents, s, r); }
    }
    forall t | t in s'.calls ensures OwnRow(agents, s'.calls[t], t) {
      if t in s.calls { assert OwnRow(agents, s.calls[t], t); }
    }
  }

  lemma {:induction false} RunSourced(agents: set<nat>, s0: State, s: State, run: seq<Action>, s': State)
    requires Sourced(agents, s0, s) && Reaches(agents, s, run, s')
    ensures Sourced(agents, s0, s')
    decreases |run|
  {
    if run != [] {
      StepSourced(agents, s0, s, run[0]);
      RunSourced(agents, s0, Do(agents, s, run[0]), run[1..], s');
    }
  }

  lemma {:induction false} BegunInRun(agents: set<nat>, s: State, run: seq<Action>, s': State, t: nat) returns (i: nat)
    requires Reaches(agents, s, run, s') && t !in s.calls && t in s'.calls
    ensures i < |run| && run[i].Begin? && run[i].t == t
    decreases |run|
  {
    var m := Do(agents, s, run[0]);
    if t in m.calls {
      i := 0;
    } else {
      i := BegunInRun(agents, m, run[1..], s', t);
      i := i + 1;
    }
  }

  /** A session that was not there before is the one its own call made, for the agent the call named, which exists, under
      the request id the call was made for; that call returned it.  A call that fails or is aborted makes none. */
  lemma {:induction false} SessionsHaveTheirCall(agents: set<nat>, s0: State, run: seq<Action>, s: State, r: Row)
    returns (i: nat)
    requires Initial(s0) && Reaches(agents, s0, run, s) && r in s.rows && r !in s0.rows
    ensures i < |run| && run[i].Begin? && run[i].t == r.id && r.id in s.calls && s.calls[r.id].pc == Created(r)
    ensures r.agent == run[i].agent && r.agent in agents
    ensures r.key == if run[i].requestId.Some? then Text(run[i].requestId.value) else run[i].metadata
  {
    RunSourced(agents, s0, s0, run, s);
    assert Made(agents, s, r);
    i := BegunInRun(agents, s0, run, s, r.id);
    BegunCall(agents, s0, run, s, i);
  }

  /** A call that is not made for a string request id returns a session of its own or none. */
  lemma {:induction false} OwnSessionOtherwise(agents: set<nat>, s0: State, run: seq<Action>, s: State, i: nat)
    requires Initial(s0) && Reaches(agents, s0, run, s) && i < |run| && run[i].Begin?
    requires run[i].requestId == None && !run[i].metadata.Text?
    ensures run[i].t in s.calls
    ensures s.calls[run[i].t].pc.Created? ==> s.calls[run[i].t].pc.row == Row(run[i].t, run[i].agent, run[i].metadata)
  {
    RunSourced(agents, s0, s0, run, s);
    BegunCall(agents, s0, run, s, i);
    assert OwnRow(agents, s.calls[run[i].t], run[i].t);
  }

  // ---- One call on its own -------------------------------------------------------------------------

  predicate Over(pc: Pc) {
    pc.Created? || pc.Failed? || pc.Aborted?
  }

  /** Only this call takes steps, and it is not aborted. */
  ghost predicate Solo(run: seq<Action>, t: nat) {
    forall i :: 0 <= i < |run| ==> !run[i].Begin? && !run[i].Abort? && run[i].t == t
  }

  /** What an uninterrupted call does: it returns the session its string request id already has, else makes one if the
      agent exists and the index has no such entry, else raises. */
  ghost predicate Concludes(agents: set<nat>, rows: seq<Row>, t: nat, agent: nat, key: Key, s: State) {
    && t in s.calls
    && match s.calls[t].pc
       case Created(r) =>
         if key.Text? && Taken(rows, key) then r in rows && IndexEntry(r.key) == Some(key.s) && s.rows == rows
         else agent in agents && !Taken(rows, key) && r == Row(t, agent, key) && s.rows == rows + [r]
       case Failed => s.rows == rows && (if key.Text? then !Taken(rows, key) && agent !in agents
                                         else Taken(rows, key) || agent !in agents)
       case _ => false
  }

  /** Where a call that began on `rows` stands when only it has moved. */
  ghost predicate Underway(agents: set<nat>, rows: seq<Row>, t: nat, agent: nat, key: Key, s: State) {
    && t in s.calls && s.calls[t].agent == agent && s.calls[t].key == key
    && if Over(s.calls[t].pc) then Concludes(agents, rows, t, agent, key, s)
       else s.rows == rows && match s.calls[t].pc
            case Opening => true
            case Found(r) => key.Text? && Taken(rows, key) && r in rows && IndexEntry(r.key) == Some(key.s)
            case Inserting => key.Text? ==> !Taken(rows, key)
            case Inserted(r) => agent in agents && !Taken(rows, key) && r == Row(t, agent, key)
            case Conflicted => if key.Text? then !Taken(rows, key) && agent !in agents
                               else Taken(rows, key) || agent !in agents
            case Reading => key.Text? && !Taken(rows, key) && agent !in agents
  }

  lemma {:induction false} StepUnderway(agents: set<nat>, rows: seq<Row>, t: nat, agent: nat, key: Key, s: State,
                                        a: Action)
    requires Underway(agents, rows, t, agent, key, s) && Can(s, a) && !a.Begin? && !a.Abort? && a.t == t
    ensures Underway(agents, rows, t, agent, key, Do(agents, s, a))
  {
    if key.Text? {
      LookupIs(rows, key.s);
    }
  }

  lemma {:induction false} RunUnderway(agents: set<nat>, rows: seq<Row>, t: nat, agent: nat, key: Key, s: State,
                                       run: seq<Action>, s': State)
    requires Underway(agents, rows, t, agent, key, s) && Reaches(agents, s, run, s') && Solo(run, t)
    ensures Underway(agents, rows, t, agent, key, s')
    decreases |run|
  {
    if run != [] {
      assert !run[0].Begin? && !run[0].Abort? && run[0].t == t;
      StepUnderway(agents, rows, t, agent, key, s, run[0]);
      assert forall i :: 0 <= i < |run[1..]| ==> run[1..][i] == run[i + 1];
      RunUnderway(agents, rows, t, agent, key, Do(agents, s, run[0]), run[1..], s');
    }
  }

  /** Every run in which only this call moves after it began, is not aborted and comes to its end has exactly that effect,
      for the request id among its arguments. */
  lemma {:induction false} EverySoloCallConcludes(agents: set<nat>, s: State, call: Action, run: seq<Action>, s': State)
    requires call.Begin? && Can(s, call) && Reaches(agents, Do(agents, s, call), run, s') && Solo(run, call.t)
    requires call.t in s'.calls && Over(s'.calls[call.t].pc)
    ensures Concludes(agents, s.rows, call.t, call.agent,
                      if call.requestId.Some? then Text(call.requestId.value) else call.metadata, s')
  {
    var begun := Do(agents, s, call);
    RunUnderway(agents, s.rows, call.t, call.agent, begun.calls[call.t].key, begun, run, s');
  }

  /** Nobody else has an uncommitted row. */
  predicate Alone(s: State, t: nat) {
    t in s.calls && forall u :: u in s.calls && u != t ==> !s.calls[u].pc.Inserted?
  }

  function Remaining(pc: Pc): nat {
    match pc
    case Opening => 5
    case Inserting => 4
    case Conflicted => 3
    case Reading => 2
    case Inserted(_) => 1
    case Found(_) => 1
    case _ => 0
  }

  /** With nobody in its way there is such a run: the call never gets stuck. */
  lemma {:induction false} AloneReturns(agents: set<nat>, s: State, t: nat) returns (run: seq<Action>, s': State)
    requires Alone(s, t)
    ensures Reaches(agents, s, run, s') && Solo(run, t) && t in s'.calls && Over(s'.calls[t].pc)
    decreases Remaining(s.calls[t].pc)
  {
    if Over(s.calls[t].pc) {
      run, s' := [], s;
    } else {
      var a := match s.calls[t].pc
        case Opening => Look(t)
        case Found(_) => ReturnFound(t)
        case Inserting => Insert(t)
        case Inserted(_) => Commit(t)
        case Conflicted => Recover(t)
        case _ => Reread(t);
      run, s' := AloneReturns(agents, Do(agents, s, a), t);
      assert ([a] + run)[1..] == run;
      run := [a] + run;
    }
  }

  // ---- Exactly when a call fails -------------------------------------------------------------

  /** Where a call may be once its insert has settled whether it fails. */
  ghost predicate Settled(agents: set<nat>, s: State, t: nat, agent: nat, key: Key, fails: bool) {
    t in s.calls && s.calls[t].agent == agent && s.calls[t].key == key &&
    match s.calls[t].pc
    case Conflicted => if fails then !key.Text? else key.Text? && agent in agents
    case Reading => !fails && key.Text? && agent in agents
    case Inserted(_) => !fails
    case Created(_) => !fails
    case Failed => fails
    case Aborted => true
    case _ => false
  }

  lemma {:induction false} StepSettled(agents: set<nat>, s: State, a: Action, t: nat, agent: nat, key: Key, fails: bool)
    requires Inv(agents, s) && Can(s, a) && Settled(agents, s, t, agent, key, fails)
    ensures Settled(agents, Do(agents, s, a), t, agent, key, fails)
  {
    if a.Reread? && a.t == t {
      assert CallOk(agents, s, s.calls[t]);
      LookupIs(s.rows, key.s);
    }
  }

  lemma {:induction false} RunSettled(agents: set<nat>, s: State, run: seq<Action>, s': State, t: nat, agent: nat,
                                      key: Key, fails: bool)
    requires Inv(agents, s) && Reaches(agents, s, run, s') && Settled(agents, s, t, agent, key, fails)
    ensures Settled(agents, s', t, agent, key, fails)
    decreases |run|
  {
    if run != [] {
      StepSettled(agents, s, run[0], t, agent, key, fails);
      StepKeepsInv(agents, s, run[0]);
      RunSettled(agents, Do(agents, s, run[0]), run[1..], s', t, agent, key, fails);
    }
  }

  /** Its insert decides whether a call fails, whatever the others do before and after: with an existing agent it ends in
      the RuntimeError exactly when its request id is not a string and another session has the same index entry; without
      the agent, always if the request id is not a string. */
  lemma {:induction false} FailsExactlyWhen(agents: set<nat>, s0: State, before: seq<Action>, s: State,
                                            after: seq<Action>, s': State, t: nat)
    requires Initial(s0) && Reaches(agents, s0, before, s) && Can(s, Insert(t))
    requires Reaches(agents, Do(agents, s, Insert(t)), after, s')
    requires s.calls[t].agent in agents || !s.calls[t].key.Text?
    requires t in s'.calls && (s'.calls[t].pc.Created? || s'.calls[t].pc.Failed?)
    ensures s'.calls[t].key == s.calls[t].key
    ensures s'.calls[t].pc.Failed? <==>
              !s.calls[t].key.Text? && (s.calls[t].agent !in agents || Taken(s.rows, s.calls[t].key))
  {
    var call := s.calls[t];
    var fails := !call.key.Text? && (call.agent !in agents || Taken(s.rows, call.key));
    RunKeepsInv(agents, s0, before, s);
    StepKeepsInv(agents, s, Insert(t));
    RunSettled(agents, Do(agents, s, Insert(t)), after, s', t, call.agent, call.key, fails);
  }

  lemma {:induction false} TakenStays(agents: set<nat>, s: State, run: seq<Action>, s': State, key: Key)
    requires Reaches(agents, s, run, s') && Taken(s.rows, key)
    ensures Taken(s'.rows, key)
    decreases |run|
  {
    if run != [] {
      var m := Do(agents, s, run[0]);
      var r :| r in s.rows && IndexEntry(r.key) == IndexEntry(key);
      assert r in m.rows;
      TakenStays(agents, m, run[1..], s', key);
    }
  }

  /** A request id that is not a string and has a session already fails every time it is used again: `create_session`
      is idempotent for strings only. */
  lemma {:induction false} RepeatFails(agents: set<nat>, s0: State, early: seq<Action>, s1: State,
                                       before: seq<Action>, s: State, after: seq<Action>, s': State, t: nat)
    requires Initial(s0) && Reaches(agents, s0, early, s1) && Reaches(agents, s1, before, s) && Can(s, Insert(t))
    requires Reaches(agents, Do(agents, s, Insert(t)), after, s')
    requires !s.calls[t].key.Text? && Taken(s1.rows, s.calls[t].key)
    requires t in s'.calls && (s'.calls[t].pc.Created? || s'.calls[t].pc.Failed?)
    ensures s'.calls[t].pc.Failed?
  {
    ReachesConcat(agents, s0, early, s1, before, s);
    TakenStays(agents, s1, before, s, s.calls[t].key);
    FailsExactlyWhen(agents, s0, early + before, s, after, s', t);
  }

  lemma {:induction false} ReachesConcat(agents: set<nat>, s: State, a: seq<Action>, m: State, b: seq<Action>,
                                         s': State)
    requires Reaches(agents, s, a, m) && Reaches(agents, m, b, s')
    ensures Reaches(agents, s, a + b, s')
    decreases |a|
  {
    if a == [] {
      assert a + b == b;
    } else {
      assert (a + b)[1..] == a[1..] + b;
      ReachesConcat(agents, Do(agents, s, a[0]), a[1..], m, b, s');
    }
  }

  /** A request id that is not a string is not looked up: the second call with it raises the RuntimeError although
      its agent exists. */
  lemma {:induction false} NonStringRequestFails()
    ensures var key := Other(Some("5"));
            var s := State([Row(0, 7, key)], map[1 := Call(7, key, Opening)]);
            exists s' :: Reaches({7}, s, [Look(1), Insert(1), Recover(1)], s') && s'.calls[1].pc.Failed?
  {
    var key := Other(Some("5"));
    var s := State([Row(0, 7, key)], map[1 := Call(7, key, Opening)]);
    var s1 := Do({7}, s, Look(1));
    assert s.rows[0] in s.rows;
    assert Taken(s1.rows, key);
    var s2 := Do({7}, s1, Insert(1));
    var s3 := Do({7}, s2, Recover(1));
    assert [Look(1), Insert(1), Recover(1)][1..] == [Insert(1), Recover(1)];
    assert [Insert(1), Recover(1)][1..] == [Recover(1)];
    assert [Recover(1)][1..] == [];
    assert Reaches({7}, s3, [], s3);
    assert Reaches({7}, s2, [Recover(1)], s3);
    assert Reaches({7}, s1, [Insert(1), Recover(1)], s3);
  }
}
