/**
 The middleware chain of each command: named groups expanded depth first, each
 alias once, cycles and names nobody registered refused.
 */
module Commands {
  import opened Common
  import opened Ordering

  /** A middleware, whatever it does. */
  type Middleware = int

  datatype Wiring = Wiring(aliases: map<string, Middleware>, groups: map<string, seq<string>>)

  datatype Problem = NotRegistered(command: string, name: string) | Cycle(path: seq<string>)

  // -- depth first -----------------------------------------------------------------------

  ghost function Left(w: Wiring, stack: seq<string>): set<string> {
    w.groups.Keys - Elements(stack)
  }

  lemma Pushed(w: Wiring, stack: seq<string>, name: string)
    requires name in w.groups && name !in stack
    ensures Left(w, stack + [name]) < Left(w, stack)
  {
    assert name in Left(w, stack) && name in Elements(stack + [name]);
  }

  /** The aliases under `name`, depth first, as often as they come up; or the
      first that goes wrong, inside the groups of `stack`. */
  function Leaves(w: Wiring, command: string, name: string, stack: seq<string>): Result<seq<string>, Problem>
    decreases Left(w, stack), 0
  {
    if name in w.aliases then Ok([name])
    else if name !in w.groups then Err(NotRegistered(command, name))
    else if name in stack then Err(Cycle(stack + [name]))
    else
      Pushed(w, stack, name);
      AllLeaves(w, command, w.groups[name], stack + [name])
  }

  function AllLeaves(w: Wiring, command: string, names: seq<string>, stack: seq<string>): Result<seq<string>, Problem>
    decreases Left(w, stack), |names|
  {
    if names == [] then Ok([])
    else
      var before := AllLeaves(w, command, names[..|names| - 1], stack);
      if before.Err? then before
      else
        var last := Leaves(w, command, names[|names| - 1], stack);
        if last.Err? then last else Ok(before.value + last.value)
  }

  // -- paths -----------------------------------------------------------------------------

  /** A name, a member of it, a member of that. Aliases come before groups of
      the same name. */
  ghost predicate Path(w: Wiring, path: seq<string>) {
    |path| > 0 && forall i | 0 <= i < |path| - 1 :: Member(w, path[i], path[i + 1])
  }

  predicate Member(w: Wiring, name: string, member: string) {
    name !in w.aliases && name in w.groups && member in w.groups[name]
  }

  /** A path that goes wrong at its end: nobody registered it, or it is a group
      the path is inside already. */
  predicate GoesWrong(w: Wiring, stack: seq<string>, path: seq<string>)
    requires |path| > 0
  {
    var name := path[|path| - 1];
    name !in w.aliases && (name !in w.groups || name in stack + path[..|path| - 1])
  }

  ghost predicate Sound(w: Wiring, stack: seq<string>, name: string) {
    forall path | Path(w, path) && path[0] == name :: !GoesWrong(w, stack, path)
  }

  lemma PathInto(w: Wiring, stack: seq<string>, name: string, path: seq<string>)
    requires Path(w, path) && path[0] == name && |path| > 1
    ensures Path(w, path[1..]) && Member(w, name, path[1])
    ensures GoesWrong(w, stack, path) <==> GoesWrong(w, stack + [name], path[1..])
  {
    var rest := path[1..];
    assert Member(w, path[0], path[1]);
    forall i | 0 <= i < |rest| - 1
      ensures Member(w, rest[i], rest[i + 1])
    {
      assert Member(w, path[i + 1], path[i + 2]);
    }
    assert stack + path[..|path| - 1] == stack + [name] + rest[..|rest| - 1];
  }

  lemma PathFrom(w: Wiring, stack: seq<string>, name: string, path: seq<string>)
    requires Path(w, path) && Member(w, name, path[0])
    ensures Path(w, [name] + path)
    ensures GoesWrong(w, stack, [name] + path) <==> GoesWrong(w, stack + [name], path)
  {
    var longer := [name] + path;
    forall i | 0 <= i < |longer| - 1
      ensures Member(w, longer[i], longer[i + 1])
    {
      assert i > 0 ==> Member(w, path[i - 1], path[i]);
    }
    assert longer[1..] == path;
    PathInto(w, stack, name, longer);
  }

  lemma SoundInside(w: Wiring, stack: seq<string>, name: string)
    requires name !in w.aliases && name in w.groups && name !in stack
    ensures Sound(w, stack, name) <==> forall member | member in w.groups[name] :: Sound(w, stack + [name], member)
  {
    if Sound(w, stack, name) {
      forall member, path | member in w.groups[name] && Path(w, path) && path[0] == member
        ensures !GoesWrong(w, stack + [name], path)
      {
        PathFrom(w, stack, name, path);
        assert ([name] + path)[0] == name;
      }
    }
    if forall member | member in w.groups[name] :: Sound(w, stack + [name], member) {
      forall path | Path(w, path) && path[0] == name
        ensures !GoesWrong(w, stack, path)
      {
        if |path| > 1 {
          PathInto(w, stack, name, path);
          assert Sound(w, stack + [name], path[1]);
        }
      }
    }
  }

  lemma SoundAtOnce(w: Wiring, stack: seq<string>, name: string)
    ensures name in w.aliases ==> Sound(w, stack, name)
    ensures name !in w.aliases && (name !in w.groups || name in stack) ==> !Sound(w, stack, name)
  {
    if name in w.aliases {
      forall path | Path(w, path) && path[0] == name
        ensures !GoesWrong(w, stack, path)
      {
        assert |path| > 1 ==> Member(w, path[0], path[1]);
      }
    } else if name !in w.groups || name in stack {
      assert Path(w, [name]) && [name][0] == name && GoesWrong(w, stack, [name]);
    }
  }

  /** Expanding a name succeeds exactly when no path from it goes wrong. */
  lemma {:induction false} LeavesWhenSound(w: Wiring, command: string, name: string, stack: seq<string>)
    ensures Leaves(w, command, name, stack).Ok? <==> Sound(w, stack, name)
    decreases Left(w, stack), 0
  {
    SoundAtOnce(w, stack, name);
    if name !in w.aliases && name in w.groups && name !in stack {
      Pushed(w, stack, name);
      AllLeavesWhenSound(w, command, w.groups[name], stack + [name]);
      SoundInside(w, stack, name);
    }
  }

  lemma {:induction false} AllLeavesWhenSound(w: Wiring, command: string, names: seq<string>, stack: seq<string>)
    ensures AllLeaves(w, command, names, stack).Ok? <==> forall name | name in names :: Sound(w, stack, name)
    decreases Left(w, stack), |names|
  {
    if names != [] {
      var before, last := names[..|names| - 1], names[|names| - 1];
      AllLeavesWhenSound(w, command, before, stack);
      LeavesWhenSound(w, command, last, stack);
      assert names == before + [last];
    }
  }

  /** The problem told is that of a path that goes wrong: the command and the
      name nobody registered, or the whole way round. */
  ghost predicate TellsOf(problem: Problem, w: Wiring, command: string, stack: seq<string>, path: seq<string>) {
    && Path(w, path) && GoesWrong(w, stack, path)
    && var name := path[|path| - 1];
       problem == if name in w.groups then Cycle(stack + path) else NotRegistered(command, name)
  }

  lemma {:induction false} ProblemIsOnAPath(w: Wiring, command: string, name: string, stack: seq<string>)
    requires Leaves(w, command, name, stack).Err?
    ensures exists path ::
      TellsOf(Leaves(w, command, name, stack).error, w, command, stack, path) && path[0] == name
    decreases Left(w, stack), 0
  {
    var problem := Leaves(w, command, name, stack).error;
    if name !in w.groups || name in stack {
      assert TellsOf(problem, w, command, stack, [name]);
    } else {
      Pushed(w, stack, name);
      ProblemIsOfAMember(w, command, w.groups[name], stack + [name]);
      var path :| TellsOf(problem, w, command, stack + [name], path) && path[0] in w.groups[name];
      PathFrom(w, stack, name, path);
      assert stack + [name] + path == stack + ([name] + path);
      assert TellsOf(problem, w, command, stack, [name] + path);
    }
  }

  lemma {:induction false} ProblemIsOfAMember(w: Wiring, command: string, names: seq<string>, stack: seq<string>)
    requires AllLeaves(w, command, names, stack).Err?
    ensures exists path ::
      TellsOf(AllLeaves(w, command, names, stack).error, w, command, stack, path) && path[0] in names
    decreases Left(w, stack), |names|
  {
    var before, last := names[..|names| - 1], names[|names| - 1];
    assert names == before + [last];
    if AllLeaves(w, command, before, stack).Err? {
      ProblemIsOfAMember(w, command, before, stack);
    } else {
      ProblemIsOnAPath(w, command, last, stack);
    }
  }

  /** Members are expanded in their order: those of the first names, then those
      of the rest; the first names' problem before any of the rest. */
  lemma {:induction false} MembersInOrder(
    w: Wiring, command: string, a: seq<string>, b: seq<string>, stack: seq<string>)
    ensures
      var first, rest := AllLeaves(w, command, a, stack), AllLeaves(w, command, b, stack);
      AllLeaves(w, command, a + b, stack)
        == if first.Err? then first else if rest.Err? then rest else Ok(first.value + rest.value)
    decreases |b|
  {
    if b == [] {
      assert a + b == a;
      assert AllLeaves(w, command, a, stack).Ok? ==>
        AllLeaves(w, command, a, stack).value + [] == AllLeaves(w, command, a, stack).value;
    } else {
      assert (a + b)[..|a + b| - 1] == a + b[..|b| - 1];
      MembersInOrder(w, command, a, b[..|b| - 1], stack);
      var first, some := AllLeaves(w, command, a, stack), AllLeaves(w, command, b[..|b| - 1], stack);
      var last := Leaves(w, command, b[|b| - 1], stack);
      if first.Ok? && some.Ok? && last.Ok? {
        assert first.value + some.value + last.value == first.value + (some.value + last.value);
      }
    }
  }

  /** What is expanded to are the aliases paths lead to, all of them. */
  lemma {:induction false} LeavesAreReached(w: Wiring, command: string, name: string, stack: seq<string>, alias: string)
    requires Leaves(w, command, name, stack).Ok?
    ensures alias in Leaves(w, command, name, stack).value <==> Leads(w, name, alias)
    decreases Left(w, stack), 0
  {
    if name in w.aliases {
      LeadsAtOnce(w, name, alias);
    } else {
      Pushed(w, stack, name);
      AllLeavesAreReached(w, command, w.groups[name], stack + [name], alias);
      LeadsInside(w, name, alias);
    }
  }

  lemma {:induction false} AllLeavesAreReached(w: Wiring, command: string, names: seq<string>, stack: seq<string>,
      alias: string)
    requires AllLeaves(w, command, names, stack).Ok?
    ensures alias in AllLeaves(w, command, names, stack).value
      <==> exists name :: name in names && Leads(w, name, alias)
    decreases Left(w, stack), |names|
  {
    if names != [] {
      var before, last := names[..|names| - 1], names[|names| - 1];
      AllLeavesAreReached(w, command, before, stack, alias);
      LeavesAreReached(w, command, last, stack, alias);
      assert names == before + [last];
    }
  }

  ghost predicate Leads(w: Wiring, name: string, alias: string) {
    alias in w.aliases && exists path :: Path(w, path) && path[0] == name && path[|path| - 1] == alias
  }

  lemma LeadsAtOnce(w: Wiring, name: string, alias: string)
    requires name in w.aliases
    ensures Leads(w, name, alias) <==> alias == name
  {
    assert Path(w, [name]) && [name][0] == name;
    if Leads(w, name, alias) {
      var path :| Path(w, path) && path[0] == name && path[|path| - 1] == alias;
      assert |path| > 1 ==> Member(w, path[0], path[1]);
    }
  }

  lemma LeadsInside(w: Wiring, name: string, alias: string)
    requires name !in w.aliases && name in w.groups
    ensures Leads(w, name, alias) <==> exists member :: member in w.groups[name] && Leads(w, member, alias)
  {
    if Leads(w, name, alias) {
      var path :| Path(w, path) && path[0] == name && path[|path| - 1] == alias;
      PathInto(w, [], name, path);
      assert path[1..][|path| - 2] == alias;
      assert Leads(w, path[1], alias);
    }
    if exists member :: member in w.groups[name] && Leads(w, member, alias) {
      var member :| member in w.groups[name] && Leads(w, member, alias);
      var path :| Path(w, path) && path[0] == member && path[|path| - 1] == alias;
      PathFrom(w, [], name, path);
      assert ([name] + path)[|path|] == alias && ([name] + path)[0] == name;
    }
  }
}
