/** The registry of commands: expanding their middleware in place, once, before the app starts. */
module CommandRegistry {
  import opened Common
  import opened Ordering
  import opened Commands

  /** What `expand` pushes and pops while it works. */
  class Expansion {
    var stack: seq<string>
    var seen: seq<string>
    var chain: seq<Middleware>

    constructor (chain: seq<Middleware>)
      ensures stack == [] && seen == [] && this.chain == chain
    {
      stack, seen := [], [];
      this.chain := chain;
    }
  }

  function Middlewares(w: Wiring, names: seq<string>): seq<Middleware>
    requires forall name | name in names :: name in w.aliases
  {
    if names == [] then [] else Middlewares(w, names[..|names| - 1]) + [w.aliases[names[|names| - 1]]]
  }

  /** A chain: the global stack, then each of the command's aliases once, in the
      order they first come up. */
  predicate IsChain(chain: seq<Middleware>, global: seq<Middleware>, w: Wiring, leaves: seq<string>) {
    (forall name | name in Dedup(leaves) :: name in w.aliases) && chain == global + Middlewares(w, Dedup(leaves))
  }

  lemma DedupGrows(leaves: seq<string>, name: string)
    ensures Dedup(leaves + [name]) == if name in leaves then Dedup(leaves) else Dedup(leaves) + [name]
  {
    assert (leaves + [name])[..|leaves|] == leaves;
  }

  /** `leaves` expanded onto the global stack. */
  predicate Expanded(seen: seq<string>, chain: seq<Middleware>, global: seq<Middleware>, w: Wiring,
      leaves: seq<string>) {
    seen == Dedup(leaves) && IsChain(chain, global, w, leaves)
  }

  lemma LeafExpanded(seen: seq<string>, chain: seq<Middleware>, global: seq<Middleware>, w: Wiring,
      leaves: seq<string>, name: string)
    requires Expanded(seen, chain, global, w, leaves) && name in w.aliases
    ensures if name in seen then Expanded(seen, chain, global, w, leaves + [name])
            else Expanded(seen + [name], chain + [w.aliases[name]], global, w, leaves + [name])
  {
    DedupGrows(leaves, name);
    if name !in leaves {
      var names := Dedup(leaves) + [name];
      assert names[..|names| - 1] == Dedup(leaves);
    }
  }

  /** How expanding went, next to what it was to find after `leaves`. */
  ghost predicate Went(
    problem: Option<Problem>, found: Result<seq<string>, Problem>, stackKept: bool,
    seen: seq<string>, chain: seq<Middleware>, global: seq<Middleware>, w: Wiring, leaves: seq<string>)
  {
    if found.Err? then problem == Some(found.error)
    else problem == None && stackKept && Expanded(seen, chain, global, w, leaves + found.value)
  }

  /** The chain of a command: the global stack alone when nobody registered it. */
  function Resolved(w: Wiring, global: seq<Middleware>, commands: map<string, seq<string>>,
      name: string): Result<seq<string>, Problem> {
    if name in commands then AllLeaves(w, name, commands[name], []) else Ok([])
  }

  ghost predicate HasChain(w: Wiring, global: seq<Middleware>, commands: map<string, seq<string>>, name: string,
      chain: seq<Middleware>) {
    var leaves := Resolved(w, global, commands, name);
    leaves.Ok? && IsChain(chain, global, w, leaves.value)
  }

  class CommandRegistry {
    /** Each command's own middleware names. */
    var commands: map<string, seq<string>>
    var middleware: seq<Middleware>
    var aliases: map<string, Middleware>
    var groups: map<string, seq<string>>
    var chains: map<string, seq<Middleware>>

    ghost function Wired(): Wiring
      reads this
    {
      Wiring(aliases, groups)
    }

    constructor ()
      ensures commands == map[] && middleware == [] && aliases == map[] && groups == map[] && chains == map[]
    {
      commands, middleware, aliases, groups, chains := map[], [], map[], map[], map[];
    }

    /** One name onto the chain of `e`. `leaves`: what was expanded before it. */
    method Expand(command: string, name: string, e: Expansion, ghost leaves: seq<string>, ghost global: seq<Middleware>)
      returns (problem: Option<Problem>)
      requires Expanded(e.seen, e.chain, global, Wired(), leaves)
      modifies e
      ensures Went(problem, Leaves(Wired(), command, name, old(e.stack)), e.stack == old(e.stack),
                   e.seen, e.chain, global, Wired(), leaves)
      decreases Left(Wired(), e.stack), 0
    {
      problem := None;
      if name in aliases {
        LeafExpanded(e.seen, e.chain, global, Wired(), leaves, name);
        if name !in e.seen {
          e.seen := e.seen + [name];
          e.chain := e.chain + [aliases[name]];
        }
      } else if name !in groups {
        problem := Some(NotRegistered(command, name));
      } else if name in e.stack {
        e.stack := e.stack + [name];
        problem := Some(Cycle(e.stack));
      } else {
        Pushed(Wired(), e.stack, name);
        e.stack := e.stack + [name];
        problem := ExpandAll(command, groups[name], e, leaves, global);
        if problem.None? {
          e.stack := e.stack[..|e.stack| - 1];
        }
      }
    }

    /** Each of `names` in turn, until one goes wrong. */
    method ExpandAll(command: string, names: seq<string>, e: Expansion, ghost leaves: seq<string>,
        ghost global: seq<Middleware>)
      returns (problem: Option<Problem>)
      requires Expanded(e.seen, e.chain, global, Wired(), leaves)
      modifies e
      ensures Went(problem, AllLeaves(Wired(), command, names, old(e.stack)), e.stack == old(e.stack),
                   e.seen, e.chain, global, Wired(), leaves)
      decreases Left(Wired(), e.stack), |names| + 1
    {
      problem := None;
      ghost var w, stack, found := Wired(), e.stack, [];
      var i := 0;
      assert names[..0] == [] && leaves + [] == leaves;
      while i < |names|
        invariant i <= |names| && e.stack == stack && problem == None
        invariant AllLeaves(w, command, names[..i], stack) == Ok(found)
        invariant Expanded(e.seen, e.chain, global, w, leaves + found)
      {
        ghost var last := Leaves(w, command, names[i], stack);
        AllLeavesNext(w, command, names, i, stack);
        problem := Expand(command, names[i], e, leaves + found, global);
        if problem.Some? {
          AllLeavesStop(w, command, names, i, stack);
          return;
        }
        Associative(leaves, found, last.value);
        found := found + last.value;
        i := i + 1;
      }
      assert names[..i] == names;
    }

    method Resolve(name: string) returns (chain: Result<seq<Middleware>, Problem>)
      ensures var found := Resolved(Wired(), middleware, commands, name);
        if found.Err? then chain == Err(found.error)
        else chain.Ok? && IsChain(chain.value, middleware, Wired(), found.value)
    {
      var e := new Expansion(middleware);
      assert Middlewares(Wired(), []) == [] && middleware + [] == middleware;
      if name in commands {
        var problem := ExpandAll(name, commands[name], e, [], middleware);
        ghost var found := AllLeaves(Wired(), name, commands[name], []);
        assert found.Ok? ==> [] + found.value == found.value;
        if problem.Some? {
          return Err(problem.value);
        }
      }
      chain := Ok(e.chain);
    }

    /** What each command's chain would be, or the problem of the first, by
        name, that has one; nothing is kept then. */
    method Finalize() returns (problem: Option<Problem>)
      modifies this`chains
      ensures problem.None? <==> forall name | name in commands :: Resolved(Wired(), middleware, commands, name).Ok?
      ensures problem.None? ==>
        && chains.Keys == commands.Keys
        && forall name | name in commands :: HasChain(Wired(), middleware, commands, name, chains[name])
      ensures problem.Some? ==>
        && chains == old(chains)
        && exists name :: name in commands && Resolved(Wired(), middleware, commands, name) == Err(problem.value)
             && forall other | other in commands && Before(other, name) ::
               Resolved(Wired(), middleware, commands, other).Ok?
    {
      var names := SortedAscending(commands.Keys);
      var resolved: map<string, seq<Middleware>> := map[];
      var i := 0;
      while i < |names|
        invariant i <= |names| && chains == old(chains)
        invariant resolved.Keys == Elements(names[..i])
        invariant forall name | name in resolved :: HasChain(Wired(), middleware, commands, name, resolved[name])
      {
        var chain := Resolve(names[i]);
        if chain.Err? {
          EarlierComeBefore(names, i);
          forall other | other in commands && Before(other, names[i])
            ensures Resolved(Wired(), middleware, commands, other).Ok?
          {
            assert HasChain(Wired(), middleware, commands, other, resolved[other]);
          }
          assert names[i] in names && names[i] in commands;
          return Some(chain.error);
        }
        assert names[..i + 1] == names[..i] + [names[i]];
        resolved := resolved[names[i] := chain.value];
        i := i + 1;
      }
      assert names[..i] == names;
      assert resolved.Keys == commands.Keys;
      assert forall name | name in commands :: HasChain(Wired(), middleware, commands, name, resolved[name]);
      chains := resolved;
      problem := None;
    }

    /** Every command's problem, by name. */
    method WiringProblems() returns (problems: seq<Problem>)
      ensures exists names :: ByName(names, commands) && problems == ProblemsOf(Wired(), middleware, commands, names)
    {
      var names := SortedAscending(commands.Keys);
      problems := [];
      var i := 0;
      assert names[..0] == [];
      while i < |names|
        invariant i <= |names|
        invariant problems == ProblemsOf(Wired(), middleware, commands, names[..i])
      {
        var chain := Resolve(names[i]);
        assert names[..i + 1][..i] == names[..i];
        if chain.Err? {
          problems := problems + [chain.error];
        }
        i := i + 1;
      }
      assert names[..i] == names;
    }
  }

  ghost predicate ByName(names: seq<string>, commands: map<string, seq<string>>) {
    Ascending(names) && forall name :: name in names <==> name in commands
  }

  /** The problems of those of `names` that have one, in order. */
  function ProblemsOf(w: Wiring, global: seq<Middleware>, commands: map<string, seq<string>>,
      names: seq<string>): seq<Problem> {
    if names == [] then []
    else
      var last := Resolved(w, global, commands, names[|names| - 1]);
      ProblemsOf(w, global, commands, names[..|names| - 1]) + if last.Err? then [last.error] else []
  }

  lemma {:induction false} AllLeavesStop(w: Wiring, command: string, names: seq<string>, i: nat, stack: seq<string>)
    requires i < |names| && AllLeaves(w, command, names[..i], stack).Ok? && Leaves(w, command, names[i], stack).Err?
    ensures AllLeaves(w, command, names, stack) == Leaves(w, command, names[i], stack)
    decreases |names|
  {
    if i < |names| - 1 {
      var before := names[..|names| - 1];
      assert before[..i] == names[..i];
      AllLeavesStop(w, command, before, i, stack);
    }
  }

  lemma AllLeavesNext(w: Wiring, command: string, names: seq<string>, i: nat, stack: seq<string>)
    requires i < |names| && AllLeaves(w, command, names[..i], stack).Ok?
    ensures var last := Leaves(w, command, names[i], stack);
      AllLeaves(w, command, names[..i + 1], stack)
        == if last.Err? then last else Ok(AllLeaves(w, command, names[..i], stack).value + last.value)
  {
    assert names[..i + 1][..i] == names[..i];
  }

  lemma EarlierComeBefore(names: seq<string>, i: nat)
    requires Ascending(names) && i < |names|
    ensures forall other | other in names && Before(other, names[i]) :: other in names[..i]
  {
    forall other | other in names && Before(other, names[i])
      ensures other in names[..i]
    {
      var k :| 0 <= k < |names| && names[k] == other;
      BeforeIsTotal(names[k], names[i]);
      assert names[..i] == names[..i] && (k < i ==> names[..i][k] == other);
    }
  }

  /** A command is given its chain exactly when no path from its middleware
      names goes wrong; the chain is then the global stack and each alias its
      names lead to, once. */
  lemma ResolvedExactly(w: Wiring, global: seq<Middleware>, commands: map<string, seq<string>>, name: string)
    requires name in commands
    ensures Resolved(w, global, commands, name).Ok? <==> forall mw | mw in commands[name] :: Sound(w, [], mw)
    ensures Resolved(w, global, commands, name).Ok? ==>
      var names := Dedup(Resolved(w, global, commands, name).value);
      && NoDup(names)
      && forall alias :: alias in names <==> exists mw :: mw in commands[name] && Leads(w, mw, alias)
  {
    AllLeavesWhenSound(w, name, commands[name], []);
    if Resolved(w, global, commands, name).Ok? {
      forall alias
        ensures alias in Resolved(w, global, commands, name).value
          <==> exists mw :: mw in commands[name] && Leads(w, mw, alias)
      {
        AllLeavesAreReached(w, name, commands[name], [], alias);
      }
    }
  }

  ghost predicate IsFirst(
    w: Wiring, global: seq<Middleware>, commands: map<string, seq<string>>, names: seq<string>, name: string,
      problem: Problem)
  {
    && name in names && Resolved(w, global, commands, name) == Err(problem)
    && forall other | other in names && Before(other, name) :: Resolved(w, global, commands, other).Ok?
  }

  /** No command has a problem exactly when the wiring check lists none; else
      the first it lists is that of the first command by name that has one,
      which is what stops the app. */
  lemma {:induction false} FirstProblemStops(w: Wiring, global: seq<Middleware>, commands: map<string, seq<string>>,
      names: seq<string>)
    requires Ascending(names)
    ensures var problems := ProblemsOf(w, global, commands, names);
      if problems == [] then forall name | name in names :: Resolved(w, global, commands, name).Ok?
      else exists name :: IsFirst(w, global, commands, names, name, problems[0])
  {
    if names != [] {
      var before, last := names[..|names| - 1], names[|names| - 1];
      FirstProblemStops(w, global, commands, before);
      LastComesLast(names);
      var problems := ProblemsOf(w, global, commands, names);
      if ProblemsOf(w, global, commands, before) != [] {
        var name :| IsFirst(w, global, commands, before, name, problems[0]);
        BeforeIsTotal(name, last);
        assert IsFirst(w, global, commands, names, name, problems[0]);
      } else if problems != [] {
        BeforeIsTotal(last, last);
        assert IsFirst(w, global, commands, names, last, problems[0]);
      }
    }
  }

  lemma LastComesLast(names: seq<string>)
    requires Ascending(names) && names != []
    ensures var before, last := names[..|names| - 1], names[|names| - 1];
      forall name :: (name in names <==> name in before || name == last) && (name in before ==> Before(name, last))
  {
    assert names == names[..|names| - 1] + [names[|names| - 1]];
  }
}
