/** Values shared by every module: options, identifiers and JSON payloads. */
module Values {

  datatype Option<+T> = None | Some(value: T)

  /** What a call that may raise gives its caller. */
  datatype Outcome<+T> = Returned(value: T) | Raised

  /** Identifiers of one session's events.  `uuid4()` gives a `Random` value; each `uuid5` call of the harness
      is a constructor applied to the name it hashes, which makes it injective and disjoint from the others. */
  datatype Uuid =
    | Random(n: nat)
    | SystemPromptId
    | ToolResultId(call: Uuid)
    | CompactionId(dropped: seq<nat>)
    | SandboxProvisionedId(sandbox: string)

  /** A JSON value.  A string is `Id(u)` when its text is the printed form of the identifier `u`
      and `Str(s)` otherwise, so `UUID(text)` succeeds exactly on `Id`. */
  datatype Json =
    | Null
    | Bool(b: bool)
    | Num(n: int)
    | Float(r: real)
    | Str(s: string)
    | Id(u: Uuid)
    | Arr(a: seq<Json>)
    | Obj(o: map<string, Json>)

  type Payload = map<string, Json>

  /** `payload.get(key, default)` */
  function GetOr(p: Payload, key: string, default: Json): Json {
    if key in p then p[key] else default
  }

  /** `payload.get(key)` */
  function Get(p: Payload, key: string): Json {
    GetOr(p, key, Null)
  }

  /** Stands for the text of a printed identifier; nothing depends on which text it is. */
  function Print(u: Uuid): string {
    match u
    case Random(_) => "uuid4"
    case SystemPromptId => "uuid5-system-prompt"
    case ToolResultId(_) => "uuid5-tool-result"
    case CompactionId(_) => "uuid5-compaction"
    case SandboxProvisionedId(_) => "uuid5-sandbox"
  }

  /** The text of a value that passes `isinstance(value, str)`. */
  function TextOf(j: Json): Option<string> {
    match j
    case Str(s) => Some(s)
    case Id(u) => Some(Print(u))
    case _ => None
  }

  /** Python's truth value of a JSON value. */
  predicate Truthy(j: Json) {
    match j
    case Null => false
    case Bool(b) => b
    case Num(n) => n != 0
    case Float(r) => r != 0.0
    case Str(s) => s != ""
    case Id(_) => true
    case Arr(a) => a != []
    case Obj(o) => o != map[]
  }
}
