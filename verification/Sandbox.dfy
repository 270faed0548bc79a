/** The sandbox service: its transition table and the lifecycle it keeps for each sandbox. */
module SandboxService {
  import opened Values

  datatype Status = Provisioning | Ready | Running | Idle | Destroyed | Error

  function Allowed(current: Status): set<Status> {
    match current
    case Provisioning => {Ready, Error, Destroyed}
    case Ready => {Running, Destroyed, Error}
    case Running => {Idle, Error, Destroyed}
    case Idle => {Running, Destroyed, Error}
    case Error => {Destroyed}
    case Destroyed => {}
  }

  /** `assert_transition` lets it pass. */
  predicate Permitted(current: Status, next: Status) {
    next == current || next in Allowed(current)
  }

  /** States in which the harness uses a sandbox. */
  predicate Live(s: Status) {
    s.Ready? || s.Idle? || s.Running?
  }

  datatype ToolResult = ToolResult(isError: bool, content: string, stdout: string, stderr: string, exitCode: Option<int>,
                                   error: Option<string>)

  /** A tool and its input, as a sandbox was asked to run it. */
  datatype Execution = Execution(sandbox: string, tool: string, input: Payload)

  /** What a call of the service gives the harness: a value, an exception of the backend, or InvalidTransitionError. */
  datatype Reply<+T> = Ok(value: T) | BackendRaised | InvalidTransition

  function Lower(c: char): char {
    if 'A' <= c <= 'Z' then c - 'A' + 'a' else c
  }

  predicate StartsWith(s: string, prefix: string) {
    |prefix| <= |s| && forall i :: 0 <= i < |prefix| ==> Lower(s[i]) == prefix[i]
  }

  /** `"timeout" in error.lower()` */
  predicate MentionsTimeout(s: string) {
    StartsWith(s, "timeout") || (s != [] && MentionsTimeout(s[1..]))
  }

  predicate TimedOut(r: ToolResult) {
    r.isError && r.error.Some? && MentionsTimeout(r.error.value)
  }

  /** The word, in whichever case, at this position. */
  predicate TimeoutAt(s: string, i: nat) {
    i + 7 <= |s| && IsTimeout(s[i..i + 7])
  }

  predicate IsTimeout(word: string) {
    |word| == 7 && forall k :: 0 <= k < 7 ==> word[k] == "timeout"[k] || word[k] == "TIMEOUT"[k]
  }

  /** The result is an error whose text has the word somewhere. */
  ghost predicate ReportsTimeout(r: ToolResult) {
    r.isError && r.error.Some? && exists i: nat :: TimeoutAt(r.error.value, i)
  }

  lemma {:induction false} TimeoutHere(s: string)
    ensures StartsWith(s, "timeout") <==> TimeoutAt(s, 0)
  {
    if |s| >= 7 {
      var word := s[0..7];
      forall k | 0 <= k < 7
        ensures word[k] == s[k] && (Lower(s[k]) == "timeout"[k] <==> word[k] == "timeout"[k] || word[k] == "TIMEOUT"[k])
      {
      }
    }
  }

  lemma {:induction false} MentionsSomewhere(s: string)
    ensures MentionsTimeout(s) <==> exists i: nat :: TimeoutAt(s, i)
  {
    TimeoutHere(s);
    if s != [] {
      MentionsSomewhere(s[1..]);
      if i: nat :| TimeoutAt(s[1..], i) {
        assert s[1..][i..i + 7] == s[i + 1..i + 8];
        assert TimeoutAt(s, i + 1);
      }
      if i: nat :| TimeoutAt(s, i) && i > 0 {
        assert s[1..][i - 1..i + 6] == s[i..i + 7];
        assert TimeoutAt(s[1..], i - 1);
      }
    }
  }

  /** The state `execute` starts from: an unknown sandbox counts as ready. */
  function Tracked(status: map<string, Status>, id: string): Status {
    if id in status then status[id] else Ready
  }

  /** What `status` answers. */
  function Reported(status: map<string, Status>, id: string, view: Status): Status {
    if id !in status || view.Destroyed? || view.Error? then view else status[id]
  }

  class Sandbox {
    var status: map<string, Status>
    ghost var handedOut: seq<string>      // ids returned by provision
    ghost var executed: seq<Execution>    // what was passed to execute
    ghost var destroyed: seq<string>      // ids passed to destroy
    ghost var violations: nat             // InvalidTransitionErrors raised

    constructor ()
      ensures status == map[] && handedOut == [] && executed == [] && destroyed == [] && violations == 0
    {
      status, handedOut, executed, destroyed, violations := map[], [], [], [], 0;
    }

    method Provision(reply: Option<string>) returns (r: Reply<string>)
      modifies this`status, this`handedOut
      ensures reply == None ==> r == BackendRaised && status == old(status) && handedOut == old(handedOut)
      ensures reply.Some? ==>
                r == Ok(reply.value) && status == old(status)[reply.value := Ready] && handedOut == old(handedOut) + [reply.value]
    {
      if reply.None? {
        return BackendRaised;
      }
      status := status[reply.value := Ready];
      handedOut := handedOut + [reply.value];
      r := Ok(reply.value);
    }

    method Execute(id: string, tool: string, input: Payload, reply: Option<ToolResult>) returns (r: Reply<ToolResult>)
      modifies this`status, this`executed, this`violations
      ensures executed == old(executed) + [Execution(id, tool, input)]
      ensures r.InvalidTransition? <==> !Permitted(Tracked(old(status), id), Running)
      ensures violations == old(violations) + if r.InvalidTransition? then 1 else 0
      ensures r.InvalidTransition? ==> status == old(status)
      ensures !r.InvalidTransition? ==>
                && r == (if reply.Some? then Ok(reply.value) else BackendRaised)
                && status == old(status)[id := if reply.None? || ReportsTimeout(reply.value) then Error else Idle]
    {
      if reply.Some? && reply.value.error.Some? {
        MentionsSomewhere(reply.value.error.value);
      }
      executed := executed + [Execution(id, tool, input)];
      var current := if id in status then status[id] else Ready;
      if !Permitted(current, Running) {
        violations := violations + 1;
        return InvalidTransition;
      }
      status := status[id := Running];
      if reply.None? {
        status := status[id := Error];
        return BackendRaised;
      }
      if TimedOut(reply.value) {
        status := status[id := Error];
      } else {
        status := status[id := Idle];
      }
      r := Ok(reply.value);
    }

    method Destroy(id: string, backendRaises: bool) returns (r: Reply<()>)
      modifies this`status, this`destroyed
      ensures destroyed == old(destroyed) + [id]
      ensures r == if backendRaises then BackendRaised else Ok(())
      ensures status == if backendRaises || id !in old(status) then old(status) else old(status)[id := Destroyed]
    {
      destroyed := destroyed + [id];
      assert id in status ==> Permitted(status[id], Destroyed);  // the transition check never raises here
      if backendRaises {
        return BackendRaised;
      }
      if id in status {
        status := status[id := Destroyed];
      }
      r := Ok(());
    }

    /** `view` is the backend's answer, None when it raises. */
    method Lookup(id: string, view: Option<Status>) returns (r: Reply<Status>)
      modifies this`status
      ensures view.None? ==> r == BackendRaised && status == old(status)
      ensures view.Some? ==>
                && r == Ok(Reported(old(status), id, view.value))
                && status == if id in old(status) then old(status)[id := Reported(old(status), id, view.value)] else old(status)
    {
      if view.None? {
        return BackendRaised;
      }
      if id !in status {
        return Ok(view.value);
      }
      if view.value.Destroyed? || view.value.Error? {
        status := status[id := view.value];
        return Ok(view.value);
      }
      return Ok(status[id]);
    }
  }

  /** A sandbox reported live can be executed in: what the harness checks is enough. */
  lemma LiveCanExecute(status: map<string, Status>, id: string, view: Status)
    requires Live(Reported(status, id, view))
    ensures Permitted(Tracked(if id in status then status[id := Reported(status, id, view)] else status, id), Running)
  {
  }

  /** A recorded sandbox is used again exactly when the table lets it run. */
  lemma ReusedExactlyWhenExecutable(s: Status)
    ensures Live(s) <==> Permitted(s, Running)
  {
  }

  /** The table: a sandbox is provisioned, becomes ready, and then runs and idles in turn; until it is in error or
      destroyed it may go into error, and until it is destroyed it may be destroyed. */
  lemma TableIs(current: Status, next: Status)
    ensures next in Allowed(current) <==>
            match next
            case Provisioning => false
            case Ready => current == Provisioning
            case Running => current == Ready || current == Idle
            case Idle => current == Running
            case Error => current != Error && current != Destroyed
            case Destroyed => current != Destroyed
  {
  }

  /** `status` writes the backend's view without consulting the table: the table is kept exactly unless a destroyed
      sandbox is reported as being in error. */
  lemma StatusBypassesTable(tracked: Status, view: Status, id: string)
    ensures Permitted(tracked, Reported(map[id := tracked], id, view)) <==> !(tracked.Destroyed? && view.Error?)
  {
  }
}
