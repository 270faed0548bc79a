/** Profile inheritance: the recursive merge and the resolution of `extends` chains. */
module Profiles {
  import opened Values

  const MAX_EXTENDS_DEPTH := 16

  // ---- Merging ------------------------------------------------------------------------------

  /** The merged mapping as a function: keys of both, the child's value unless both values are mappings. */
  function Merge(parent: Json, child: Json): (merged: Json)
    requires parent.Obj? && child.Obj?
    ensures merged.Obj?
    decreases child
  {
    Obj(map k | k in parent.o.Keys + child.o.Keys ::
          if k !in child.o then parent.o[k]
          else if k in parent.o && parent.o[k].Obj? && child.o[k].Obj? then Merge(parent.o[k], child.o[k])
          else child.o[k])
  }

  /** `out` holds the merged value at the child's keys already handled and the parent's value elsewhere. */
  ghost predicate Halfway(parent: map<string, Json>, goal: map<string, Json>, done: set<string>,
                          out: map<string, Json>) {
    && (forall k :: k in out <==> k in parent || k in done)
    && (forall k :: k in done ==> k in goal && out[k] == goal[k])
    && (forall k :: k in parent && k !in done ==> out[k] == parent[k])
  }

  lemma {:induction false} HalfwayStep(parent: map<string, Json>, goal: map<string, Json>, done: set<string>,
                                       out: map<string, Json>, key: string)
    requires Halfway(parent, goal, done, out) && key in goal
    ensures Halfway(parent, goal, done + {key}, out[key := goal[key]])
  {
  }

  lemma {:induction false} HalfwayEnd(parent: Json, child: Json, out: map<string, Json>)
    requires parent.Obj? && child.Obj? && Halfway(parent.o, Merge(parent, child).o, child.o.Keys, out)
    ensures out == Merge(parent, child).o
  {
  }

  /** `_deep_merge`: a copy of the parent updated key by key, in any order of the child's items. */
  method DeepMerge(parent: Json, child: Json) returns (merged: Json)
    requires parent.Obj? && child.Obj?
    ensures merged == Merge(parent, child)
    decreases child
  {
    ghost var goal := Merge(parent, child).o;
    var out := parent.o;
    var done: set<string> := {};
    while child.o.Keys - done != {}
      invariant done <= child.o.Keys
      invariant Halfway(parent.o, goal, done, out)
      decreases child.o.Keys - done
    {
      var key :| key in child.o.Keys - done;
      var value := child.o[key];
      if key in out && out[key].Obj? && value.Obj? {
        value := DeepMerge(out[key], value);
      }
      assert value == goal[key];
      HalfwayStep(parent.o, goal, done, out, key);
      out := out[key := value];
      done := done + {key};
    }
    assert done == child.o.Keys;
    HalfwayEnd(parent, child, out);
    merged := Obj(out);
  }

  // ---- What a merge is --------------------------------------------------------------------------

  /** The value at a path of keys. */
  function At(j: Json, path: seq<string>): Option<Json> {
    if path == [] then Some(j)
    else if j.Obj? && path[0] in j.o then At(j.o[path[0]], path[1..])
    else None
  }

  /** Somewhere along the path, at the root or below it, `j` has a value that is not a mapping. */
  predicate Blocks(j: Json, path: seq<string>)
    decreases |path|
  {
    !j.Obj? || (path != [] && path[0] in j.o && Blocks(j.o[path[0]], path[1..]))
  }

  /** A leaf of the merge is the child's leaf, or the parent's where the child says nothing on the way. */
  lemma {:induction false} NearestDefinition(parent: Json, child: Json, path: seq<string>, leaf: Json)
    requires parent.Obj? && child.Obj? && !leaf.Obj?
    ensures At(Merge(parent, child), path) == Some(leaf) <==>
            At(child, path) == Some(leaf)
            || (At(parent, path) == Some(leaf) && At(child, path) == None && !Blocks(child, path))
    decreases |path|
  {
    if path != [] {
      var k, rest := path[0], path[1..];
      if k in child.o {
        if k in parent.o && parent.o[k].Obj? && child.o[k].Obj? {
          NearestDefinition(parent.o[k], child.o[k], rest, leaf);
        } else if child.o[k].Obj? {
          NotBelowLeaf(parent, k, rest, leaf, child.o[k]);
        }
      } else {
        assert !Blocks(child, path) && At(child, path) == None;
      }
    }
  }

  /** A parent value that is no mapping holds nothing below it, and itself is no rival of a mapping in the child. */
  lemma {:induction false} NotBelowLeaf(parent: Json, k: string, rest: seq<string>, leaf: Json, value: Json)
    requires parent.Obj? && value.Obj? && !leaf.Obj? && (k in parent.o ==> !parent.o[k].Obj?)
    ensures At(parent, [k] + rest) == Some(leaf) ==> rest == [] && At(value, rest) != None
  {
    assert ([k] + rest)[1..] == rest;
    if k in parent.o {
      assert At(parent, [k] + rest) == At(parent.o[k], rest);
    }
  }

  lemma {:induction false} EmptyIsIdentity(j: Json)
    requires j.Obj?
    ensures Merge(Obj(map[]), j) == j && Merge(j, Obj(map[])) == j
  {
    assert Merge(Obj(map[]), j).o == j.o;
    assert Merge(j, Obj(map[])).o == j.o;
  }

  lemma {:induction false} MergeIsIdempotent(j: Json)
    requires j.Obj?
    ensures Merge(j, j) == j
    decreases j
  {
    forall k | k in j.o && j.o[k].Obj? ensures Merge(j.o[k], j.o[k]) == j.o[k] {
      MergeIsIdempotent(j.o[k]);
    }
    assert Merge(j, j).o == j.o;
  }

  /** Every path of mappings and keys in `a` is one in `c`. */
  predicate Covers(a: Json, c: Json)
    requires a.Obj? && c.Obj?
    decreases c
  {
    forall k | k in a.o :: k in c.o && (a.o[k].Obj? && c.o[k].Obj? ==> Covers(a.o[k], c.o[k]))
  }

  /** A parent adds nothing to a child exactly when the child covers it. */
  lemma {:induction false} AddsNothing(a: Json, c: Json)
    requires a.Obj? && c.Obj?
    ensures Merge(a, c) == c <==> Covers(a, c)
    decreases c
  {
    var m := Merge(a, c);
    forall k | k in m.o
      ensures k in c.o && m.o[k] == c.o[k]
              <==> k in c.o && (k in a.o && a.o[k].Obj? && c.o[k].Obj? ==> Covers(a.o[k], c.o[k]))
    {
      if k in a.o && k in c.o && a.o[k].Obj? && c.o[k].Obj? {
        AddsNothing(a.o[k], c.o[k]);
      }
    }
    assert m == c <==> m.o == c.o;
  }

  /** Wherever the middle tree has a plain value between two mappings, the inner mapping covers the outer one. */
  predicate Absorbs(a: Json, b: Json, c: Json)
    requires a.Obj? && b.Obj? && c.Obj?
    decreases b
  {
    forall k | k in a.o && k in b.o && k in c.o && a.o[k].Obj? && c.o[k].Obj? ::
      if b.o[k].Obj? then Absorbs(a.o[k], b.o[k], c.o[k]) else Covers(a.o[k], c.o[k])
  }

  /** The merge is associative exactly on the trees that absorb. */
  lemma {:induction false} AssociativeExactlyWhen(a: Json, b: Json, c: Json)
    requires a.Obj? && b.Obj? && c.Obj?
    ensures Merge(Merge(a, b), c) == Merge(a, Merge(b, c)) <==> Absorbs(a, b, c)
    decreases b
  {
    var l, r := Merge(Merge(a, b), c), Merge(a, Merge(b, c));
    assert l.o.Keys == r.o.Keys;
    forall k | k in l.o
      ensures l.o[k] == r.o[k] <==>
              (k in a.o && k in b.o && k in c.o && a.o[k].Obj? && c.o[k].Obj? ==>
                 if b.o[k].Obj? then Absorbs(a.o[k], b.o[k], c.o[k]) else Covers(a.o[k], c.o[k]))
    {
      if k in a.o && k in b.o && k in c.o && a.o[k].Obj? && b.o[k].Obj? && c.o[k].Obj? {
        AssociativeExactlyWhen(a.o[k], b.o[k], c.o[k]);
      } else if k in a.o && k in b.o && k in c.o && a.o[k].Obj? && c.o[k].Obj? {
        AddsNothing(a.o[k], c.o[k]);
      }
    }
    assert l == r <==> l.o == r.o;
  }

  /** The trees agree on which paths are mappings. */
  predicate SameShape(a: Json, b: Json)
    requires a.Obj? && b.Obj?
    decreases a
  {
    forall k | k in a.o && k in b.o ::
      (a.o[k].Obj? <==> b.o[k].Obj?) && (a.o[k].Obj? && b.o[k].Obj? ==> SameShape(a.o[k], b.o[k]))
  }

  lemma {:induction false} SameShapeAbsorbs(a: Json, b: Json, c: Json)
    requires a.Obj? && b.Obj? && c.Obj? && SameShape(a, b) && SameShape(b, c) && SameShape(a, c)
    ensures Absorbs(a, b, c)
    decreases b
  {
    forall k | k in a.o && k in b.o && k in c.o && a.o[k].Obj? && b.o[k].Obj? && c.o[k].Obj?
      ensures Absorbs(a.o[k], b.o[k], c.o[k])
    {
      SameShapeAbsorbs(a.o[k], b.o[k], c.o[k]);
    }
  }

  /** On trees that agree on which paths are mappings the merge is associative. */
  lemma {:induction false} AssociativeOnSameShape(a: Json, b: Json, c: Json)
    requires a.Obj? && b.Obj? && c.Obj? && SameShape(a, b) && SameShape(b, c) && SameShape(a, c)
    ensures Merge(Merge(a, b), c) == Merge(a, Merge(b, c))
  {
    SameShapeAbsorbs(a, b, c);
    AssociativeExactlyWhen(a, b, c);
  }

  // ---- Resolving ------------------------------------------------------------------------------------

  datatype ProfileError = Cycle | TooDeep | NotFound | Unreadable | BadExtends

  datatype Resolved = Loaded(data: Json) | Refused(error: ProfileError)

  /** What `_read` finds under a name: nothing, a file that does not hold a mapping, or a mapping. */
  datatype File = Absent | Malformed | Mapping(o: map<string, Json>)

  type Files = string -> File

  /** The mapping after `data.pop("extends", None)`. */
  function Body(o: map<string, Json>): Json {
    Obj(o - {"extends"})
  }

  function Resolve(files: Files, name: string, visited: seq<string>): (r: Resolved)
    requires |visited| <= MAX_EXTENDS_DEPTH
    ensures r.Loaded? ==> r.data.Obj?
    decreases MAX_EXTENDS_DEPTH - |visited|
  {
    if name in visited then Refused(Cycle)
    else if |visited| >= MAX_EXTENDS_DEPTH then Refused(TooDeep)
    else match files(name)
      case Absent => Refused(NotFound)
      case Malformed => Refused(Unreadable)
      case Mapping(o) =>
        var parent := Get(o, "extends");
        if parent == Null then Loaded(Body(o))
        else if TextOf(parent).None? then Refused(BadExtends)
        else match Resolve(files, TextOf(parent).value, visited + [name])
          case Refused(error) => Refused(error)
          case Loaded(data) => Loaded(Merge(data, Body(o)))
  }

  /** `_resolve`, counting the profiles it reads. */
  method ResolveProfile(files: Files, name: string, visited: seq<string>) returns (r: Resolved, profilesRead: nat)
    requires |visited| <= MAX_EXTENDS_DEPTH
    ensures r == Resolve(files, name, visited)
    ensures profilesRead <= MAX_EXTENDS_DEPTH - |visited|
    decreases MAX_EXTENDS_DEPTH - |visited|
  {
    if name in visited {
      return Refused(Cycle), 0;
    }
    if |visited| >= MAX_EXTENDS_DEPTH {
      return Refused(TooDeep), 0;
    }
    var file := files(name);
    profilesRead := 1;
    match file
    case Absent => r := Refused(NotFound);
    case Malformed => r := Refused(Unreadable);
    case Mapping(o) =>
      var parentName := Get(o, "extends");
      var data := o - {"extends"};
      if parentName == Null {
        r := Loaded(Obj(data));
      } else if TextOf(parentName).None? {
        r := Refused(BadExtends);
      } else {
        var parent, more := ResolveProfile(files, TextOf(parentName).value, visited + [name]);
        profilesRead := profilesRead + more;
        if parent.Refused? {
          r := parent;
        } else {
          var merged := DeepMerge(parent.data, Obj(data));
          r := Loaded(merged);
        }
      }
  }

  // ---- Chains ----------------------------------------------------------------------------------------

  /** Where a profile's `extends` leads. */
  datatype Link = Root | Up(name: string) | Broken(error: ProfileError)

  function LinkOf(files: Files, name: string): Link {
    match files(name)
    case Absent => Broken(NotFound)
    case Malformed => Broken(Unreadable)
    case Mapping(o) =>
      var parent := Get(o, "extends");
      if parent == Null then Root
      else match TextOf(parent)
        case Some(text) => Up(text)
        case None => Broken(BadExtends)
  }

  /** Following `extends` from the first name leads through these names. */
  ghost predicate Walk(files: Files, names: seq<string>) {
    names != [] && forall i :: 0 <= i < |names| - 1 ==> LinkOf(files, names[i]) == Up(names[i + 1])
  }

  ghost predicate Distinct(names: seq<string>) {
    forall i, j :: 0 <= i < j < |names| ==> names[i] != names[j]
  }

  function Last(names: seq<string>): string
    requires names != []
  {
    names[|names| - 1]
  }

  /** The bodies along a walk to the root, merged from the root down to the first name. */
  function FoldFromRoot(files: Files, names: seq<string>): (data: Json)
    requires names != []
    ensures data.Obj?
  {
    var body := match files(names[0]) case Mapping(o) => Body(o) case _ => Obj(map[]);
    if |names| == 1 then body else Merge(FoldFromRoot(files, names[1..]), body)
  }

  /** Why resolving the first name gives this result. */
  ghost predicate Explains(files: Files, names: seq<string>, r: Resolved) {
    && Walk(files, names)
    && match r
       case Loaded(data) =>
         Distinct(names) && |names| <= MAX_EXTENDS_DEPTH && LinkOf(files, Last(names)) == Root
         && data == FoldFromRoot(files, names)
       case Refused(Cycle) =>
         |names| <= MAX_EXTENDS_DEPTH + 1 && Distinct(names[..|names| - 1]) && Last(names) in names[..|names| - 1]
       case Refused(TooDeep) =>
         |names| == MAX_EXTENDS_DEPTH + 1 && Distinct(names)
       case Refused(error) =>
         Distinct(names) && |names| <= MAX_EXTENDS_DEPTH && LinkOf(files, Last(names)) == Broken(error)
  }

  lemma {:induction false} WalkSnoc(files: Files, names: seq<string>, name: string)
    requires names == [] || (Walk(files, names) && LinkOf(files, Last(names)) == Up(name))
    ensures Walk(files, names + [name])
  {
    var all := names + [name];
    forall i | 0 <= i < |all| - 1 ensures LinkOf(files, all[i]) == Up(all[i + 1]) {
      if i == |names| - 1 { assert all[i] == Last(names) && all[i + 1] == name; }
    }
  }

  /** Resolution from the middle of a walk, and what is merged below it. */
  lemma {:induction false} ResolveExplained(files: Files, name: string, visited: seq<string>)
    returns (names: seq<string>)
    requires |visited| <= MAX_EXTENDS_DEPTH && Distinct(visited)
    requires visited == [] || (Walk(files, visited) && LinkOf(files, Last(visited)) == Up(name))
    ensures visited + [name] <= names
    ensures var r := Resolve(files, name, visited);
            match r
            case Loaded(data) =>
              data == FoldFromRoot(files, names[|visited|..]) && Explains(files, names, Loaded(FoldFromRoot(files, names)))
            case Refused(_) => Explains(files, names, r)
    decreases MAX_EXTENDS_DEPTH - |visited|
  {
    names := visited + [name];
    WalkSnoc(files, visited, name);
    assert names[..|names| - 1] == visited;
    if name !in visited && |visited| < MAX_EXTENDS_DEPTH {
      var here := names;
      match LinkOf(files, name) {
        case Up(parent) =>
          names := ResolveExplained(files, parent, here);
          assert here <= names && here + [parent] <= names;
          assert names[|visited|] == name;
          assert names[|visited|..][1..] == names[|here|..];
        case Root =>
          assert names[|visited|..] == [name];
        case Broken(_) =>
      }
    }
  }

  /** Two walks from the same name agree as far as both go. */
  lemma {:induction false} WalksAgree(files: Files, a: seq<string>, b: seq<string>, i: nat)
    requires Walk(files, a) && Walk(files, b) && a[0] == b[0] && i < |a| && i < |b|
    ensures a[i] == b[i]
  {
    if i > 0 {
      WalksAgree(files, a, b, i - 1);
      assert LinkOf(files, a[i - 1]) == Up(a[i]) && LinkOf(files, b[i - 1]) == Up(b[i]);
    }
  }

  /** A walk cannot go on past a name that an explanation ends with. */
  lemma {:induction false} ExplanationEnds(files: Files, a: seq<string>, r: Resolved, b: seq<string>, q: Resolved)
    requires Explains(files, a, r) && Explains(files, b, q) && a[0] == b[0]
    ensures |a| <= |b|
  {
    if |b| < |a| {
      var n := |b| - 1;
      WalksAgree(files, a, b, n);
      assert LinkOf(files, a[n]) == Up(a[n + 1]);
      if q == Refused(Cycle) {
        var i :| 0 <= i < n && b[..n][i] == b[n];
        WalksAgree(files, a, b, i);
        assert false;
      }
    }
  }

  /** At most one result can be explained, so the explanations are exact: resolution succeeds exactly on chains of at
      most 16 profiles that end at a root, and then it is the merge from root to leaf; it reports a cycle exactly when
      the walk comes back to a name, and so on for each error. */
  lemma {:induction false} ResolveExactly(files: Files, name: string, r: Resolved)
    ensures Resolve(files, name, []) == r <==> exists names :: Explains(files, names, r) && names[0] == name
  {
    var mine := ResolveExplained(files, name, []);
    var result := Resolve(files, name, []);
    assert mine[0] == name by { assert ([] + [name])[0] == name; }
    assert mine[0..] == mine;
    assert Explains(files, mine, result);
    if names :| Explains(files, names, r) && names[0] == name {
      ExplanationEnds(files, mine, result, names, r);
      ExplanationEnds(files, names, r, mine, result);
      forall i | 0 <= i < |mine| ensures mine[i] == names[i] {
        WalksAgree(files, mine, names, i);
      }
      assert mine == names;
      SameExplanation(files, mine, result, r);
    }
  }

  lemma {:induction false} SameExplanation(files: Files, names: seq<string>, r: Resolved, q: Resolved)
    requires Explains(files, names, r) && Explains(files, names, q)
    ensures r == q
  {
    var n := |names| - 1;
    if r == Refused(Cycle) || q == Refused(Cycle) {
      var i :| 0 <= i < n && names[..n][i] == names[n];
      assert names[i] == names[n];
    }
  }

  // ---- Where each value comes from -----------------------------------------------------------------

  /** A profile as it was read. */
  function Raw(files: Files, name: string): Json {
    match files(name)
    case Mapping(o) => Obj(o)
    case _ => Obj(map[])
  }

  /** The first profile of the chain that has anything to say about the path has this leaf there. */
  ghost predicate Defines(files: Files, names: seq<string>, path: seq<string>, leaf: Json, i: nat) {
    && i < |names| && At(Raw(files, names[i]), path) == Some(leaf)
    && forall j :: 0 <= j < i ==> At(Raw(files, names[j]), path) == None && !Blocks(Raw(files, names[j]), path)
  }

  ghost predicate Defined(files: Files, names: seq<string>, path: seq<string>, leaf: Json) {
    exists i: nat :: Defines(files, names, path, leaf, i)
  }

  lemma {:induction false} BodyAt(files: Files, name: string, path: seq<string>)
    requires path != []
    ensures var body := match files(name) case Mapping(o) => Body(o) case _ => Obj(map[]);
            if path[0] == "extends" then At(body, path) == None && !Blocks(body, path)
            else At(body, path) == At(Raw(files, name), path) && (Blocks(body, path) <==> Blocks(Raw(files, name), path))
  {
  }

  lemma {:induction false} DefinesBehind(files: Files, names: seq<string>, path: seq<string>, leaf: Json, i: nat)
    requires names != []
    ensures Defines(files, names, path, leaf, i + 1) <==>
            Defines(files, names[1..], path, leaf, i)
            && At(Raw(files, names[0]), path) == None && !Blocks(Raw(files, names[0]), path)
  {
    var rest := names[1..];
    if Defines(files, rest, path, leaf, i) && At(Raw(files, names[0]), path) == None && !Blocks(Raw(files, names[0]), path) {
      forall j | 0 <= j < i + 1 ensures At(Raw(files, names[j]), path) == None && !Blocks(Raw(files, names[j]), path) {
        if j > 0 { assert rest[j - 1] == names[j]; }
      }
    }
    if Defines(files, names, path, leaf, i + 1) {
      assert names[0] == names[..][0];
      forall j | 0 <= j < i ensures At(Raw(files, rest[j]), path) == None && !Blocks(Raw(files, rest[j]), path) {
        assert rest[j] == names[j + 1];
      }
    }
  }

  /** The first profile decides, or says nothing and leaves it to the rest. */
  lemma {:induction false} DefinedFirstOrBehind(files: Files, names: seq<string>, path: seq<string>, leaf: Json)
    requires names != []
    ensures Defined(files, names, path, leaf) <==>
            At(Raw(files, names[0]), path) == Some(leaf)
            || (At(Raw(files, names[0]), path) == None && !Blocks(Raw(files, names[0]), path)
                && Defined(files, names[1..], path, leaf))
  {
    if At(Raw(files, names[0]), path) == Some(leaf) {
      assert Defines(files, names, path, leaf, 0);
    }
    if i: nat :| Defines(files, names[1..], path, leaf, i) {
      DefinesBehind(files, names, path, leaf, i);
    }
    if i: nat :| Defines(files, names, path, leaf, i) && i > 0 {
      DefinesBehind(files, names, path, leaf, i - 1);
    }
  }

  lemma {:induction false} ChainLeaf(files: Files, names: seq<string>, path: seq<string>, leaf: Json)
    requires names != [] && path != [] && !leaf.Obj? && path[0] != "extends"
    ensures At(FoldFromRoot(files, names), path) == Some(leaf) <==> Defined(files, names, path, leaf)
    decreases |names|
  {
    BodyAt(files, names[0], path);
    DefinedFirstOrBehind(files, names, path, leaf);
    if |names| > 1 {
      var body := match files(names[0]) case Mapping(o) => Body(o) case _ => Obj(map[]);
      ChainLeaf(files, names[1..], path, leaf);
      NearestDefinition(FoldFromRoot(files, names[1..]), body, path, leaf);
    } else {
      assert !Defined(files, names[1..], path, leaf);
    }
  }

  lemma {:induction false} ExtendsIsGone(files: Files, names: seq<string>)
    requires names != []
    ensures "extends" !in FoldFromRoot(files, names).o
  {
    if |names| > 1 {
      ExtendsIsGone(files, names[1..]);
    }
  }

  /** In a resolved profile a leaf is that of the first profile on the way to the root that says anything there, as that
      profile was read, and `extends` itself is gone. */
  lemma {:induction false} LeavesComeFromTheChain(files: Files, name: string, data: Json) returns (names: seq<string>)
    requires Resolve(files, name, []) == Loaded(data)
    ensures Walk(files, names) && names[0] == name && LinkOf(files, Last(names)) == Root
    ensures data.Obj? && "extends" !in data.o
    ensures forall path, leaf: Json | path != [] && path[0] != "extends" && !leaf.Obj? ::
              At(data, path) == Some(leaf) <==> Defined(files, names, path, leaf)
  {
    names := ResolveExplained(files, name, []);
    assert names[0] == name by { assert ([] + [name])[0] == name; }
    assert names[0..] == names;
    ExtendsIsGone(files, names);
    forall path, leaf: Json | path != [] && path[0] != "extends" && !leaf.Obj?
      ensures At(data, path) == Some(leaf) <==> Defined(files, names, path, leaf)
    {
      ChainLeaf(files, names, path, leaf);
    }
  }
}
