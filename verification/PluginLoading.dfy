/** Loading plugins into a registry: all of them or none (raychat/plugins.py). */
module PluginLoading {
  import opened Effects
  import opened Sequences

  datatype Name = Name(text: string)

  /** A registered name, with its kind. */
  datatype Identifier = Identifier(kind: string, name: string)

  type Callback = nat

  /** What a plugin stages: a named resource, a cleanup, or both. */
  datatype Registration = Registration(identifier: Option<Identifier>, cleanup: Option<Callback>)

  /** A module whose registration function stages `staged`, and may raise then. */
  datatype Module = Module(name: Name, staged: seq<Registration>, raises: bool)

  /** `present` is what the tables hold; services of the host are there without an owner. */
  datatype Registry =
    Registry(present: set<Identifier>, owners: map<Identifier, Name>, cleanup: seq<Callback>, plugins: seq<Name>)

  predicate Listed(r: Registry) {
    forall x | x in r.owners :: x in r.present
  }

  // ---------------------------------------------------------------- what loading means

  function Identifiers(staged: seq<Registration>): seq<Identifier> {
    if staged == [] then []
    else
      var last := staged[|staged| - 1];
      Identifiers(staged[..|staged| - 1]) + (if last.identifier.Some? then [last.identifier.value] else [])
  }

  function Cleanups(staged: seq<Registration>): seq<Callback> {
    if staged == [] then []
    else
      var last := staged[|staged| - 1];
      Cleanups(staged[..|staged| - 1]) + (if last.cleanup.Some? then [last.cleanup.value] else [])
  }

  function Applied(r: Registry, owner: Name, staged: seq<Registration>): Registry {
    if staged == [] then r
    else
      var before, last := Applied(r, owner, staged[..|staged| - 1]), staged[|staged| - 1];
      before.(present := if last.identifier.Some? then before.present + {last.identifier.value} else before.present,
              owners := if last.identifier.Some? then before.owners[last.identifier.value := owner] else before.owners,
              cleanup := before.cleanup + if last.cleanup.Some? then [last.cleanup.value] else [])
  }

  predicate New(r: Registry, identifiers: seq<Identifier>) {
    forall i | 0 <= i < |identifiers| :: identifiers[i] !in r.present
  }

  predicate Loads(r: Registry, m: Module) {
    !m.raises && New(r, Identifiers(m.staged)) && NoRepeats(Identifiers(m.staged))
  }

  function WithModule(r: Registry, m: Module): Registry {
    var s := Applied(r, m.name, m.staged);
    s.(plugins := s.plugins + [m.name])
  }

  function WithModules(r: Registry, modules: seq<Module>): Registry {
    if modules == [] then r else WithModule(WithModules(r, modules[..|modules| - 1]), modules[|modules| - 1])
  }

  /** Every module loads into what the ones before it left. */
  predicate AllLoad(r: Registry, modules: seq<Module>) {
    modules == [] ||
    (AllLoad(r, modules[..|modules| - 1]) && Loads(WithModules(r, modules[..|modules| - 1]), modules[|modules| - 1]))
  }

  function AllIdentifiers(modules: seq<Module>): seq<Identifier> {
    if modules == [] then []
    else AllIdentifiers(modules[..|modules| - 1]) + Identifiers(modules[|modules| - 1].staged)
  }

  function AllCleanups(modules: seq<Module>): seq<Callback> {
    if modules == [] then [] else AllCleanups(modules[..|modules| - 1]) + Cleanups(modules[|modules| - 1].staged)
  }

  lemma {:induction false} AppliedAdds(r: Registry, owner: Name, staged: seq<Registration>)
    ensures var s := Applied(r, owner, staged);
      && (forall x :: x in s.present <==> x in r.present || x in Identifiers(staged))
      && (forall x :: x in s.owners <==> x in r.owners || x in Identifiers(staged))
      && (forall x | x in Identifiers(staged) :: s.owners[x] == owner)
      && (forall x | x in r.owners && x !in Identifiers(staged) :: s.owners[x] == r.owners[x])
      && s.cleanup == r.cleanup + Cleanups(staged) && s.plugins == r.plugins
  {
    if staged == [] {
      assert r.cleanup + [] == r.cleanup;
    } else {
      AppliedAdds(r, owner, staged[..|staged| - 1]);
    }
  }

  lemma {:induction false} ModulesAdd(r: Registry, modules: seq<Module>)
    ensures var s := WithModules(r, modules);
      && (forall x :: x in s.present <==> x in r.present || x in AllIdentifiers(modules))
      && (forall x :: x in s.owners <==> x in r.owners || x in AllIdentifiers(modules))
      && (Listed(r) ==> Listed(s))
      && s.cleanup == r.cleanup + AllCleanups(modules)
      && s.plugins == r.plugins + seq(|modules|, i requires 0 <= i < |modules| => modules[i].name)
  {
    if modules == [] {
      assert r.cleanup + [] == r.cleanup;
    } else {
      var before, last := modules[..|modules| - 1], modules[|modules| - 1];
      ModulesAdd(r, before);
      AppliedAdds(WithModules(r, before), last.name, last.staged);
    }
  }

  /** Loading succeeds exactly when no module raises and all names are new and different. */
  lemma {:induction false} LoadsExactly(r: Registry, modules: seq<Module>)
    ensures AllLoad(r, modules) <==>
            && (forall i | 0 <= i < |modules| :: !modules[i].raises)
            && New(r, AllIdentifiers(modules)) && NoRepeats(AllIdentifiers(modules))
  {
    if modules != [] {
      var before, last := modules[..|modules| - 1], modules[|modules| - 1];
      var ids := Identifiers(last.staged);
      LoadsExactly(r, before);
      ModulesAdd(r, before);
      JoinNoRepeats(AllIdentifiers(before), ids);
      NewJoins(r, AllIdentifiers(before), ids);
      NewAfter(r, WithModules(r, before), AllIdentifiers(before), ids);
      assert modules == before + [last];
    }
  }

  /** Every registration counts, in order, for its name and for its cleanup. */
  lemma {:induction false} StagedJoin(a: seq<Registration>, b: seq<Registration>)
    ensures Identifiers(a + b) == Identifiers(a) + Identifiers(b) && Cleanups(a + b) == Cleanups(a) + Cleanups(b)
    ensures |b| == 1 ==> Identifiers(b) == match b[0].identifier case None => [] case Some(identifier) => [identifier]
    ensures |b| == 1 ==> Cleanups(b) == match b[0].cleanup case None => [] case Some(cleanup) => [cleanup]
  {
    if b == [] {
      assert a + b == a;
    } else {
      assert (a + b)[..|a + b| - 1] == a + b[..|b| - 1];
      StagedJoin(a, b[..|b| - 1]);
    }
  }

  lemma {:induction false} ModulesJoin(a: seq<Module>, b: seq<Module>)
    ensures AllIdentifiers(a + b) == AllIdentifiers(a) + AllIdentifiers(b) && AllCleanups(a + b) == AllCleanups(a) + AllCleanups(b)
  {
    if b == [] {
      assert a + b == a;
    } else {
      assert (a + b)[..|a + b| - 1] == a + b[..|b| - 1];
      ModulesJoin(a, b[..|b| - 1]);
    }
  }

  lemma OneModule(m: Module)
    ensures AllIdentifiers([m]) == Identifiers(m.staged) && AllCleanups([m]) == Cleanups(m.staged)
  {
    assert [m][..0] == [];
  }

  lemma NewJoins(r: Registry, a: seq<Identifier>, b: seq<Identifier>)
    ensures New(r, a + b) <==> New(r, a) && New(r, b)
  {
    if New(r, a + b) {
      forall i | 0 <= i < |a| ensures a[i] !in r.present { assert (a + b)[i] == a[i]; }
      forall i | 0 <= i < |b| ensures b[i] !in r.present { assert (a + b)[|a| + i] == b[i]; }
    }
  }

  lemma NewAfter(r: Registry, s: Registry, a: seq<Identifier>, b: seq<Identifier>)
    requires forall x :: x in s.present <==> x in r.present || x in a
    ensures New(s, b) <==> New(r, b) && forall x | x in a :: x !in b
  {
  }

  predicate Owns(r: Registry, m: Module) {
    forall x | x in Identifiers(m.staged) :: x in r.owners && r.owners[x] == m.name
  }

  /** Every name belongs to the module that registered it, and what was there keeps its owner. */
  lemma {:induction false} OwnersAreRight(r: Registry, modules: seq<Module>)
    requires AllLoad(r, modules) && Listed(r)
    ensures var s := WithModules(r, modules);
      && (forall x | x in r.owners :: x in s.owners && s.owners[x] == r.owners[x])
      && (forall i | 0 <= i < |modules| :: Owns(s, modules[i]))
  {
    if modules != [] {
      var before, last := modules[..|modules| - 1], modules[|modules| - 1];
      OwnersAreRight(r, before);
      AppliedAdds(WithModules(r, before), last.name, last.staged);
      var middle, s := WithModules(r, before), WithModules(r, modules);
      ModulesAdd(r, before);
      forall x | x in middle.owners ensures x in s.owners && s.owners[x] == middle.owners[x] {
        assert x !in Identifiers(last.staged);
      }
      forall i | 0 <= i < |modules| ensures Owns(s, modules[i]) {
        if i < |before| { assert Owns(middle, before[i]); }
      }
    }
  }

  // ---------------------------------------------------------------- the loops

  class LoadingRuntime {
    var registry: Registry
    /** The cleanup callbacks that were run, in order. */
    var called: seq<Callback>

    constructor (registry: Registry)
      ensures this.registry == registry && called == []
    {
      this.registry := registry;
      called := [];
    }

    /** Runs the callbacks from the last to the first; a failing one does not stop the others. */
    method RunCleanups(callbacks: seq<Callback>)
      modifies `called
      ensures called == old(called) + Reversed(callbacks)
    {
      var i := |callbacks|;
      assert callbacks[i..] == [];
      while i > 0
        invariant i <= |callbacks| && called == old(called) + Reversed(callbacks[i..])
      {
        i := i - 1;
        assert callbacks[i..] == [callbacks[i]] + callbacks[i + 1..];
        called := called + [callbacks[i]];
      }
      assert callbacks[0..] == callbacks;
    }

    /** Checks every name before the first registration is applied. */
    method ApplyRegistrations(owner: Name, staged: seq<Registration>) returns (ok: bool)
      modifies `registry
      ensures ok <==> New(old(registry), Identifiers(staged)) && NoRepeats(Identifiers(staged))
      ensures registry == if ok then Applied(old(registry), owner, staged) else old(registry)
    {
      var seen: set<Identifier> := {};
      for i := 0 to |staged|
        invariant registry == old(registry)
        invariant New(registry, Identifiers(staged[..i])) && NoRepeats(Identifiers(staged[..i]))
        invariant forall x :: x in seen <==> x in Identifiers(staged[..i])
      {
        assert staged[..i + 1][..i] == staged[..i];
        if staged[i].identifier.Some? {
          var identifier := staged[i].identifier.value;
          if identifier in registry.present || identifier in seen {
            Clashes(registry, staged, i);
            return false;
          }
          seen := seen + {identifier};
        }
      }
      assert staged[..|staged|] == staged;
      for i := 0 to |staged|
        invariant registry == Applied(old(registry), owner, staged[..i])
      {
        assert staged[..i + 1][..i] == staged[..i];
        var next := staged[i];
        registry := registry.(
          present := if next.identifier.Some? then registry.present + {next.identifier.value} else registry.present,
          owners := if next.identifier.Some? then registry.owners[next.identifier.value := owner] else registry.owners,
          cleanup := registry.cleanup + if next.cleanup.Some? then [next.cleanup.value] else []);
      }
      ok := true;
    }

    /** A module is registered completely, or its cleanups have run and the registry is as before. */
    method LoadModule(m: Module) returns (ok: bool)
      modifies this
      ensures ok <==> Loads(old(registry), m)
      ensures ok ==> registry == WithModule(old(registry), m) && called == old(called)
      ensures !ok ==> registry == old(registry) && called == old(called) + Reversed(Cleanups(m.staged))
    {
      ok := !m.raises;
      if ok { ok := ApplyRegistrations(m.name, m.staged); }
      if ok {
        registry := registry.(plugins := registry.plugins + [m.name]);
      } else {
        RunCleanups(Cleanups(m.staged));
      }
    }

    /** All modules are registered, or every staged cleanup has run, last first, and nothing is registered. */
    method Load(modules: seq<Module>) returns (ok: bool, ghost tried: nat)
      modifies this
      ensures tried <= |modules|
      ensures ok <==> AllLoad(old(registry), modules)
      ensures ok ==> registry == WithModules(old(registry), modules) && called == old(called)
      ensures !ok ==> registry == old(registry) && called == old(called) + Reversed(AllCleanups(modules[..tried]))
    {
      var original := registry;
      tried := 0;
      for i := 0 to |modules|
        invariant tried == i && called == old(called)
        invariant AllLoad(original, modules[..i]) && registry == WithModules(original, modules[..i])
      {
        assert modules[..i + 1][..i] == modules[..i];
        ok := LoadModule(modules[i]);
        tried := i + 1;
        if !ok {
          FrontFails(original, modules, i + 1);
          AddedCleanups(original, modules, i);
          CalledTogether(old(called), modules, i);
          RunCleanups(registry.cleanup[|original.cleanup|..]);
          registry := original;
          return;
        }
      }
      assert modules[..|modules|] == modules;
      ok := true;
    }
  }

  lemma AddedCleanups(r: Registry, modules: seq<Module>, n: nat)
    requires n <= |modules|
    ensures |r.cleanup| <= |WithModules(r, modules[..n]).cleanup|
    ensures WithModules(r, modules[..n]).cleanup[|r.cleanup|..] == AllCleanups(modules[..n])
  {
    ModulesAdd(r, modules[..n]);
  }

  /** The cleanups of the failing module, then those of the modules before it, are all of them in reverse. */
  lemma CalledTogether(called: seq<Callback>, modules: seq<Module>, n: nat)
    requires n < |modules|
    ensures called + Reversed(Cleanups(modules[n].staged)) + Reversed(AllCleanups(modules[..n])) ==
            called + Reversed(AllCleanups(modules[..n + 1]))
  {
    var front, last := AllCleanups(modules[..n]), Cleanups(modules[n].staged);
    assert modules[..n + 1][..n] == modules[..n];
    ReversedJoin(front, last);
    Regroup(called, Reversed(last), Reversed(front));
  }

  lemma {:induction false} FrontFails(r: Registry, modules: seq<Module>, n: nat)
    requires n <= |modules| && !AllLoad(r, modules[..n])
    ensures !AllLoad(r, modules)
    decreases |modules|
  {
    if n < |modules| {
      assert modules[..|modules| - 1][..n] == modules[..n];
      FrontFails(r, modules[..|modules| - 1], n);
    } else {
      assert modules[..n] == modules;
    }
  }

  /** A name that is taken or repeated spoils the whole list. */
  lemma Clashes(r: Registry, staged: seq<Registration>, i: nat)
    requires i < |staged| && staged[i].identifier.Some?
    requires staged[i].identifier.value in r.present || staged[i].identifier.value in Identifiers(staged[..i])
    ensures !(New(r, Identifiers(staged)) && NoRepeats(Identifiers(staged)))
  {
    IdentifiersSplit(staged, i);
    var ids := Identifiers(staged);
    var k := |Identifiers(staged[..i])|;
    assert ids[k] == staged[i].identifier.value;
    if staged[i].identifier.value in Identifiers(staged[..i]) {
      var j :| 0 <= j < k && Identifiers(staged[..i])[j] == ids[k];
      assert ids[j] == ids[k];
    }
  }

  lemma {:induction false} IdentifiersSplit(staged: seq<Registration>, i: nat)
    requires i < |staged| && staged[i].identifier.Some?
    ensures var front := Identifiers(staged[..i]);
      |front| < |Identifiers(staged)| && Identifiers(staged)[..|front|] == front
      && Identifiers(staged)[|front|] == staged[i].identifier.value
    decreases |staged|
  {
    var rest := staged[..|staged| - 1];
    if i < |rest| {
      assert rest[..i] == staged[..i];
      IdentifiersSplit(rest, i);
    } else {
      assert staged[..i] == rest;
    }
  }
}
