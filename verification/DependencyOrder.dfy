/** Dependency-first ordering of plugin packages (raychat/packages.py). */
module DependencyOrder {
  import opened Effects
  import opened Sequences

  datatype Name = Name(text: string)

  datatype Requirement = Requirement(name: Name, version: string)

  datatype Manifest = Manifest(version: string, needs: seq<Requirement>)

  type Manifests = map<Name, Manifest>

  datatype Fault =
    | Looped(name: Name)                             // leads back to itself
    | Unavailable(name: Name)                        // missing or disabled
    | Mismatched(name: Name, needed: Requirement)    // needs another version

  datatype Result = Ordered(names: seq<Name>) | Refused(fault: Fault)

  // ---------------------------------------------------------------- what a selection needs

  predicate Needs(m: Manifests, a: Name, b: Name) {
    a in m && exists i | 0 <= i < |m[a].needs| :: m[a].needs[i].name == b
  }

  predicate Link(m: Manifests, p: seq<Name>, i: nat)
    requires 0 < i < |p|
  {
    Needs(m, p[i - 1], p[i])
  }

  /** A chain of requirements that starts in the selection. */
  predicate Path(m: Manifests, selected: seq<Name>, p: seq<Name>) {
    && p != [] && p[0] in selected
    && forall i | 0 < i < |p| :: Link(m, p, i)
  }

  /** Present, enabled, and required packages have the required version. */
  predicate Usable(m: Manifests, disabled: set<Name>, name: Name) {
    && name in m && name !in disabled
    && forall i | 0 <= i < |m[name].needs| ::
         m[name].needs[i].name in m ==> m[m[name].needs[i].name].version == m[name].needs[i].version
  }

  /** Everything the selection leads to is usable, and nothing leads back to itself. */
  ghost predicate Resolvable(m: Manifests, disabled: set<Name>, selected: seq<Name>) {
    forall p | Path(m, selected, p) :: Usable(m, disabled, p[|p| - 1]) && NoRepeats(p)
  }

  ghost predicate Reachable(m: Manifests, selected: seq<Name>, name: Name) {
    exists p :: Path(m, selected, p) && p[|p| - 1] == name
  }

  /** What a refusal reports is so. */
  ghost predicate Faulty(m: Manifests, disabled: set<Name>, selected: seq<Name>, fault: Fault) {
    match fault
    case Looped(name) => exists p :: Path(m, selected, p) && p[|p| - 1] == name && name in p[..|p| - 1]
    case Unavailable(name) => Reachable(m, selected, name) && (name !in m || name in disabled)
    case Mismatched(name, needed) =>
      && Reachable(m, selected, name) && name in m && needed in m[name].needs
      && needed.name in m && m[needed.name].version != needed.version && Resolvable(m, disabled, [needed.name])
  }

  lemma FaultyIsUnresolvable(m: Manifests, disabled: set<Name>, selected: seq<Name>, fault: Fault)
    requires Faulty(m, disabled, selected, fault)
    ensures !Resolvable(m, disabled, selected)
  {
    if fault.Looped? {
      var p :| Path(m, selected, p) && p[|p| - 1] == fault.name && fault.name in p[..|p| - 1];
      assert !NoRepeats(p);
    } else {
      var p :| Path(m, selected, p) && p[|p| - 1] == fault.name;
      assert !Usable(m, disabled, p[|p| - 1]);
    }
  }

  /** A fault of one package is a fault of every selection with it. */
  lemma FaultyInAll(m: Manifests, disabled: set<Name>, selected: seq<Name>, name: Name, fault: Fault)
    requires Faulty(m, disabled, [name], fault) && name in selected
    ensures Faulty(m, disabled, selected, fault)
  {
    forall p | Path(m, [name], p) ensures Path(m, selected, p) {}
    if fault.Looped? {
      var p :| Path(m, [name], p) && p[|p| - 1] == fault.name && fault.name in p[..|p| - 1];
      assert Path(m, selected, p);
    } else {
      var p :| Path(m, [name], p) && p[|p| - 1] == fault.name;
      assert Path(m, selected, p);
    }
  }

  /** Every requirement of the package is met further to the front. */
  predicate MetBefore(m: Manifests, names: seq<Name>, k: nat)
    requires k < |names|
  {
    && names[k] in m
    && forall i | 0 <= i < |m[names[k]].needs| ::
         && m[names[k]].needs[i].name in names[..k]
         && m[names[k]].needs[i].name in m
         && m[m[names[k]].needs[i].name].version == m[names[k]].needs[i].version
  }

  /** A list that can be imported from front to back. */
  predicate Importable(m: Manifests, disabled: set<Name>, names: seq<Name>) {
    && NoRepeats(names)
    && forall k | 0 <= k < |names| :: names[k] !in disabled && MetBefore(m, names, k)
  }

  lemma Extends(m: Manifests, selected: seq<Name>, p: seq<Name>, name: Name)
    requires Path(m, selected, p) && Needs(m, p[|p| - 1], name)
    ensures Path(m, selected, p + [name])
  {
    forall i | 0 < i < |p + [name]| ensures Link(m, p + [name], i) {
      if i < |p| { assert Link(m, p, i); }
    }
  }

  lemma PathPrefix(m: Manifests, selected: seq<Name>, p: seq<Name>, n: nat)
    requires Path(m, selected, p) && 0 < n <= |p|
    ensures Path(m, selected, p[..n])
  {
    forall i | 0 < i < n ensures Link(m, p[..n], i) { assert Link(m, p, i); }
  }

  /** Along a chain the positions in an importable list fall: the chain stays in it and repeats nothing. */
  lemma {:induction false} PathDescends(m: Manifests, disabled: set<Name>, names: seq<Name>, selected: seq<Name>, p: seq<Name>)
      returns (at: seq<nat>)
    requires Importable(m, disabled, names) && Path(m, selected, p) && forall s | s in selected :: s in names
    ensures |at| == |p| && forall i | 0 <= i < |p| :: at[i] < |names| && names[at[i]] == p[i]
    ensures forall i, j | 0 <= i < j < |p| :: at[j] < at[i]
    decreases |p|
  {
    if |p| == 1 {
      var k :| 0 <= k < |names| && names[k] == p[0];
      at := [k];
    } else {
      var last := |p| - 1;
      PathPrefix(m, selected, p, last);
      var front := PathDescends(m, disabled, names, selected, p[..last]);
      assert Link(m, p, last);
      assert MetBefore(m, names, front[last - 1]);
      var k :| 0 <= k < front[last - 1] && names[..front[last - 1]][k] == p[last];
      at := front + [k];
    }
  }

  lemma ImportableIsResolvable(m: Manifests, disabled: set<Name>, names: seq<Name>, selected: seq<Name>)
    requires Importable(m, disabled, names) && forall s | s in selected :: s in names
    ensures Resolvable(m, disabled, selected)
    ensures forall name | Reachable(m, selected, name) :: name in names
  {
    forall p | Path(m, selected, p)
      ensures Usable(m, disabled, p[|p| - 1]) && NoRepeats(p) && p[|p| - 1] in names
    {
      var at := PathDescends(m, disabled, names, selected, p);
      assert MetBefore(m, names, at[|p| - 1]);
    }
  }

  /** Appending a package whose requirements are all listed. */
  lemma ImportableGrows(m: Manifests, disabled: set<Name>, names: seq<Name>, name: Name)
    requires Importable(m, disabled, names) && name !in names && name in m && name !in disabled
    requires forall i | 0 <= i < |m[name].needs| ::
               && m[name].needs[i].name in names && m[name].needs[i].name in m
               && m[m[name].needs[i].name].version == m[name].needs[i].version
    ensures Importable(m, disabled, names + [name])
  {
    var longer := names + [name];
    assert longer[..|names|] == names;
    forall k | 0 <= k < |names|
      ensures longer[k] !in disabled && MetBefore(m, longer, k)
    {
      assert MetBefore(m, names, k) && longer[..k] == names[..k];
    }
  }

  // ---------------------------------------------------------------- which of these orders

  function NeedsOf(m: Manifests, name: Name): seq<Name> {
    if name in m then seq(|m[name].needs|, i requires 0 <= i < |m[name].needs| => m[name].needs[i].name) else []
  }

  /** `name` behind all it needs, unless it is listed or being placed. */
  function Place(m: Manifests, before: seq<Name>, name: Name, open: set<Name>): seq<Name>
    decreases |m.Keys - open|, 0, 0
  {
    if name in before || name in open || name !in m then before
    else
      Fewer(m.Keys, open, name);
      PlaceAll(m, before, NeedsOf(m, name), open + {name}) + [name]
  }

  /** The names from front to back. */
  function PlaceAll(m: Manifests, before: seq<Name>, names: seq<Name>, open: set<Name>): seq<Name>
    decreases |m.Keys - open|, 1, |names|
  {
    if names == [] then before
    else Place(m, PlaceAll(m, before, names[..|names| - 1], open), names[|names| - 1], open)
  }

  lemma PlaceNext(m: Manifests, before: seq<Name>, names: seq<Name>, n: nat, open: set<Name>)
    requires n < |names|
    ensures PlaceAll(m, before, names[..n + 1], open) == Place(m, PlaceAll(m, before, names[..n], open), names[n], open)
  {
    assert names[..n + 1][..n] == names[..n];
  }

  /** The first `n` requirements of `name` are placed. */
  predicate PlacedFirst(m: Manifests, before: seq<Name>, name: Name, n: nat, open: set<Name>, now: seq<Name>)
    requires n <= |NeedsOf(m, name)|
  {
    now == PlaceAll(m, before, NeedsOf(m, name)[..n], open)
  }

  lemma PlacesNone(m: Manifests, before: seq<Name>, name: Name, open: set<Name>)
    ensures PlacedFirst(m, before, name, 0, open, before)
  {
  }

  lemma PlacesOneMore(m: Manifests, before: seq<Name>, name: Name, n: nat, open: set<Name>, now: seq<Name>, next: seq<Name>)
    requires name in m && n < |m[name].needs| && PlacedFirst(m, before, name, n, open, now)
    requires next == Place(m, now, m[name].needs[n].name, open)
    ensures PlacedFirst(m, before, name, n + 1, open, next)
  {
    PlaceNext(m, before, NeedsOf(m, name), n, open);
  }

  lemma PlacesAll(m: Manifests, before: seq<Name>, name: Name, open: set<Name>, now: seq<Name>)
    requires name in m && PlacedFirst(m, before, name, |m[name].needs|, open, now)
    ensures now == PlaceAll(m, before, NeedsOf(m, name), open)
  {
    assert NeedsOf(m, name)[..|NeedsOf(m, name)|] == NeedsOf(m, name);
  }

  function Order(m: Manifests, selected: seq<Name>): seq<Name> {
    PlaceAll(m, [], selected, {})
  }

  /** Nothing that `name` leads to is in `open`, and nothing leads back. */
  ghost predicate Clear(m: Manifests, name: Name, open: set<Name>) {
    forall p | Path(m, [name], p) :: p[|p| - 1] !in open && NoRepeats(p)
  }

  lemma ClearBelow(m: Manifests, name: Name, open: set<Name>, next: Name)
    requires Clear(m, name, open) && name in m && next in NeedsOf(m, name)
    ensures Clear(m, next, open + {name})
  {
    forall p | Path(m, [next], p)
      ensures p[|p| - 1] !in open + {name} && NoRepeats(p)
    {
      var longer := [name] + p;
      forall i | 0 < i < |longer| ensures Link(m, longer, i) {
        if i > 1 { assert Link(m, p, i - 1); }
      }
      assert Path(m, [name], longer);
      assert longer[|p|] == p[|p| - 1] && longer[0] == name;
      forall i, j | 0 <= i < j < |p| ensures p[i] != p[j] { assert longer[i + 1] != longer[j + 1]; }
    }
  }

  /** Without loops it does not matter what is being placed. */
  lemma {:induction false} OpenIsIdle(m: Manifests, before: seq<Name>, name: Name, open: set<Name>, other: set<Name>)
    requires Clear(m, name, open) && Clear(m, name, other)
    ensures Place(m, before, name, open) == Place(m, before, name, other)
    decreases |m.Keys - open|, 0, 0
  {
    assert Path(m, [name], [name]) && [name][0] == name;
    if name !in before && name in m {
      Fewer(m.Keys, open, name);
      forall next | next in NeedsOf(m, name)
        ensures Clear(m, next, open + {name}) && Clear(m, next, other + {name})
      {
        ClearBelow(m, name, open, next);
        ClearBelow(m, name, other, next);
      }
      OpenIsIdleAll(m, before, NeedsOf(m, name), open + {name}, other + {name});
    }
  }

  lemma {:induction false} OpenIsIdleAll(m: Manifests, before: seq<Name>, names: seq<Name>, open: set<Name>, other: set<Name>)
    requires forall name | name in names :: Clear(m, name, open) && Clear(m, name, other)
    ensures PlaceAll(m, before, names, open) == PlaceAll(m, before, names, other)
    decreases |m.Keys - open|, 1, |names|
  {
    if names != [] {
      var front := names[..|names| - 1];
      OpenIsIdleAll(m, before, front, open, other);
      OpenIsIdle(m, PlaceAll(m, before, front, open), names[|names| - 1], open, other);
    }
  }

  /** A package comes right behind what its requirements, in the order of its manifest, lead to. */
  lemma OrderOfOne(m: Manifests, disabled: set<Name>, name: Name)
    requires Resolvable(m, disabled, [name])
    ensures Order(m, [name]) == Order(m, NeedsOf(m, name)) + [name]
  {
    assert Path(m, [name], [name]) && [name][0] == name;
    assert Clear(m, name, {});
    forall next | next in NeedsOf(m, name)
      ensures Clear(m, next, {name}) && Clear(m, next, {})
    {
      ClearBelow(m, name, {}, next);
    }
    OpenIsIdleAll(m, [], NeedsOf(m, name), {name}, {});
    assert [name][..1] == [name] && [name][..0] == [];
    PlaceNext(m, [], [name], 0, {});
    assert {} + {name} == {name};
  }

  /** What is selected later comes later, with what it needs besides. */
  lemma OrderOfMore(m: Manifests, disabled: set<Name>, selected: seq<Name>, name: Name)
    requires Resolvable(m, disabled, selected + [name])
    ensures var before, after := Order(m, selected), Order(m, selected + [name]);
      if name in before then after == before else before < after && after[|after| - 1] == name
  {
    var more := selected + [name];
    assert more[..|selected|] == selected && more[..|selected| + 1] == more && more[|selected|] == name;
    assert Path(m, more, [name]) && Usable(m, disabled, [name][0]);
    PlaceNext(m, [], more, |selected|, {});
    PlacedGrows(m, Order(m, selected), NeedsOf(m, name), {name});
    assert {} + {name} == {name};
  }

  lemma {:induction false} PlacedGrows(m: Manifests, before: seq<Name>, names: seq<Name>, open: set<Name>)
    ensures before <= PlaceAll(m, before, names, open)
    decreases |m.Keys - open|, |names|
  {
    if names != [] {
      var front, name := PlaceAll(m, before, names[..|names| - 1], open), names[|names| - 1];
      PlacedGrows(m, before, names[..|names| - 1], open);
      if name !in front && name !in open && name in m {
        Fewer(m.Keys, open, name);
        PlacedGrows(m, front, NeedsOf(m, name), open + {name});
      }
    }
  }

  // ---------------------------------------------------------------- the traversal

  function Names(names: seq<Name>): set<Name> {
    set x | x in names
  }

  /** What has been ordered so far is importable, wanted, and exactly what counts as visited. */
  ghost predicate Settled(m: Manifests, disabled: set<Name>, selected: seq<Name>, ordered: seq<Name>, visited: set<Name>) {
    && Importable(m, disabled, ordered) && visited == Names(ordered)
    && forall x | x in ordered :: x in m && Reachable(m, selected, x)
  }

  /** The names being visited lead from the selection down to the caller. */
  ghost predicate Stacked(m: Manifests, selected: seq<Name>, visiting: set<Name>, path: seq<Name>) {
    && visiting == Names(path) && visiting <= m.Keys
    && (path != [] ==> Path(m, selected, path))
  }

  /** The first `n` requirements are met. */
  predicate Met(m: Manifests, name: Name, ordered: seq<Name>, n: nat)
    requires name in m && n <= |m[name].needs|
  {
    forall i | 0 <= i < n ::
      && m[name].needs[i].name in ordered && m[name].needs[i].name in m
      && m[m[name].needs[i].name].version == m[name].needs[i].version
  }

  lemma SettledGrows(m: Manifests, disabled: set<Name>, selected: seq<Name>,
                     ordered: seq<Name>, visited: set<Name>, path: seq<Name>, name: Name)
    requires Settled(m, disabled, selected, ordered, visited) && Path(m, selected, path + [name])
    requires name in m && name !in ordered && name !in disabled && Met(m, name, ordered, |m[name].needs|)
    ensures Settled(m, disabled, selected, ordered + [name], visited + {name})
  {
    ImportableGrows(m, disabled, ordered, name);
    assert (path + [name])[|path + [name]| - 1] == name;
  }

  lemma MetGrows(m: Manifests, name: Name, ordered: seq<Name>, longer: seq<Name>, n: nat)
    requires name in m && n <= |m[name].needs| && Met(m, name, ordered, n) && ordered <= longer
    ensures Met(m, name, longer, n)
  {
    forall x | x in ordered ensures x in longer {
      var k :| 0 <= k < |ordered| && ordered[k] == x;
      assert longer[k] == x;
    }
  }

  lemma MetOneMore(m: Manifests, name: Name, ordered: seq<Name>, longer: seq<Name>, n: nat)
    requires name in m && n < |m[name].needs| && Met(m, name, ordered, n) && ordered <= longer
    requires m[name].needs[n].name in longer && m[name].needs[n].name in m
    requires m[m[name].needs[n].name].version == m[name].needs[n].version
    ensures Met(m, name, longer, n + 1)
  {
    MetGrows(m, name, ordered, longer, n);
  }

  lemma MismatchFound(m: Manifests, disabled: set<Name>, selected: seq<Name>, here: seq<Name>, name: Name, n: nat,
                      ordered: seq<Name>)
    requires Path(m, selected, here) && here[|here| - 1] == name && name in m && n < |m[name].needs|
    requires m[name].needs[n].name in m && m[m[name].needs[n].name].version != m[name].needs[n].version
    requires Importable(m, disabled, ordered) && m[name].needs[n].name in ordered
    ensures Faulty(m, disabled, selected, Mismatched(name, m[name].needs[n]))
  {
    assert Reachable(m, selected, here[|here| - 1]);
    ImportableIsResolvable(m, disabled, ordered, [m[name].needs[n].name]);
  }

  lemma LoopFound(m: Manifests, disabled: set<Name>, selected: seq<Name>, path: seq<Name>, name: Name)
    requires Path(m, selected, path + [name]) && name in path
    ensures Faulty(m, disabled, selected, Looped(name))
  {
    assert (path + [name])[..|path|] == path;
  }

  lemma LastReached(m: Manifests, selected: seq<Name>, path: seq<Name>, name: Name)
    requires Path(m, selected, path + [name])
    ensures Reachable(m, selected, name)
  {
    assert (path + [name])[|path|] == name;
  }

  lemma Fewer<T>(all: set<T>, some: set<T>, x: T)
    requires x in all && x !in some
    ensures |all - (some + {x})| < |all - some|
  {
    assert all - some == (all - (some + {x})) + {x};
  }

  lemma StackedGrows(m: Manifests, selected: seq<Name>, visiting: set<Name>, path: seq<Name>, name: Name)
    requires Stacked(m, selected, visiting, path) && Path(m, selected, path + [name]) && name in m && name !in visiting
    ensures Stacked(m, selected, visiting + {name}, path + [name])
    ensures |m.Keys - (visiting + {name})| < |m.Keys - visiting|
  {
    Fewer(m.Keys, visiting, name);
    assert Names(path + [name]) == Names(path) + {name};
  }

  /** The first `n` selected packages are ordered. */
  predicate Covered(selected: seq<Name>, n: nat, ordered: seq<Name>)
    requires n <= |selected|
  {
    forall j | 0 <= j < n :: selected[j] in ordered
  }

  lemma CoveredGrows(selected: seq<Name>, n: nat, ordered: seq<Name>, longer: seq<Name>)
    requires n < |selected| && Covered(selected, n, ordered) && ordered <= longer && selected[n] in longer
    ensures Covered(selected, n + 1, longer)
  {
    forall j | 0 <= j < n ensures selected[j] in longer {
      var k :| 0 <= k < |ordered| && ordered[k] == selected[j];
      assert longer[k] == selected[j];
    }
  }

  /** The fault is one of the first selected package that cannot be resolved. */
  ghost predicate FirstFault(m: Manifests, disabled: set<Name>, selected: seq<Name>, fault: Fault) {
    exists i :: 0 <= i < |selected| && Resolvable(m, disabled, selected[..i]) && Faulty(m, disabled, [selected[i]], fault)
  }

  lemma FoundFirst(m: Manifests, disabled: set<Name>, selected: seq<Name>, i: nat, ordered: seq<Name>, fault: Fault)
    requires i < |selected| && Importable(m, disabled, ordered) && Covered(selected, i, ordered)
    requires Faulty(m, disabled, [selected[i]], fault)
    ensures FirstFault(m, disabled, selected, fault)
  {
    ImportableIsResolvable(m, disabled, ordered, selected[..i]);
  }

  lemma FirstIsFaulty(m: Manifests, disabled: set<Name>, selected: seq<Name>, fault: Fault)
    requires FirstFault(m, disabled, selected, fault)
    ensures Faulty(m, disabled, selected, fault)
  {
    var i :| 0 <= i < |selected| && Resolvable(m, disabled, selected[..i]) && Faulty(m, disabled, [selected[i]], fault);
    FaultyInAll(m, disabled, selected, selected[i], fault);
  }

  class Resolver {
    const manifests: Manifests
    const disabled: set<Name>
    ghost const selected: seq<Name>
    var ordered: seq<Name>
    var visiting: set<Name>
    var visited: set<Name>

    ghost predicate Valid()
      reads this
    {
      Settled(manifests, disabled, selected, ordered, visited) && visiting !! visited
    }

    constructor (manifests: Manifests, disabled: set<Name>, ghost selected: seq<Name>)
      ensures Valid() && visiting == {} && ordered == []
      ensures this.manifests == manifests && this.disabled == disabled && this.selected == selected
    {
      this.manifests, this.disabled, this.selected := manifests, disabled, selected;
      ordered, visiting, visited := [], {}, {};
    }

    /** Puts `name` behind everything it needs, or reports why the selection cannot be resolved. */
    method Visit(name: Name, ghost path: seq<Name>) returns (fault: Option<Fault>)
      requires Valid() && Stacked(manifests, selected, visiting, path) && Path(manifests, selected, path + [name])
      modifies this
      ensures fault == None ==> Valid() && visiting == old(visiting) && old(ordered) <= ordered
      ensures fault == None ==> name in ordered && name in manifests
      ensures fault == None ==> ordered == Place(manifests, old(ordered), name, visiting)
      ensures fault.Some? ==> Faulty(manifests, disabled, [(path + [name])[0]], fault.value)
      decreases |manifests.Keys - visiting|, 1
    {
      if name in visiting {
        LoopFound(manifests, disabled, [(path + [name])[0]], path, name);
        return Some(Looped(name));
      }
      if name in visited { return None; }
      if name in disabled || name !in manifests {
        LastReached(manifests, [(path + [name])[0]], path, name);
        return Some(Unavailable(name));
      }
      fault := VisitNew(name, path);
    }

    /** Visits what `name` needs while `name` itself counts as being visited. */
    method VisitNew(name: Name, ghost path: seq<Name>) returns (fault: Option<Fault>)
      requires Valid() && Stacked(manifests, selected, visiting, path) && Path(manifests, selected, path + [name])
      requires name in manifests && name !in disabled && name !in visiting && name !in visited
      modifies this
      ensures fault == None ==> Valid() && visiting == old(visiting) && old(ordered) <= ordered && name in ordered
      ensures fault == None ==> ordered == Place(manifests, old(ordered), name, visiting)
      ensures fault.Some? ==> Faulty(manifests, disabled, [(path + [name])[0]], fault.value)
      decreases |manifests.Keys - visiting|, 0
    {
      ghost var outer := visiting;
      visiting := visiting + {name};
      StackedGrows(manifests, selected, outer, path, name);
      fault := VisitNeeds(name, path + [name]);
      if fault.Some? { return; }
      Settle(name, path);
      assert visiting == outer;
    }

    /** Everything `name` needs is ordered, so it comes next. */
    method Settle(name: Name, ghost path: seq<Name>)
      requires Valid() && Path(manifests, selected, path + [name]) && name in visiting
      requires name in manifests && name !in disabled && Met(manifests, name, ordered, |manifests[name].needs|)
      modifies this
      ensures Valid() && visiting == old(visiting) - {name} && ordered == old(ordered) + [name]
    {
      SettledGrows(manifests, disabled, selected, ordered, visited, path, name);
      visiting := visiting - {name};
      visited := visited + {name};
      ordered := ordered + [name];
    }

    /** Visits what a package requires, in the order of its manifest, and compares versions. */
    method VisitNeeds(name: Name, ghost here: seq<Name>) returns (fault: Option<Fault>)
      requires Valid() && Stacked(manifests, selected, visiting, here)
      requires here != [] && here[|here| - 1] == name && name in manifests
      modifies this
      ensures fault == None ==>
                && Valid() && visiting == old(visiting) && old(ordered) <= ordered
                && Met(manifests, name, ordered, |manifests[name].needs|)
                && ordered == PlaceAll(manifests, old(ordered), NeedsOf(manifests, name), visiting)
      ensures fault.Some? ==> Faulty(manifests, disabled, [here[0]], fault.value)
      decreases |manifests.Keys - visiting|, 2
    {
      var needs := manifests[name].needs;
      fault := None;
      PlacesNone(manifests, ordered, name, visiting);
      for i := 0 to |needs|
        invariant fault == None && Valid() && visiting == old(visiting) && old(ordered) <= ordered
        invariant Met(manifests, name, ordered, i)
        invariant PlacedFirst(manifests, old(ordered), name, i, visiting, ordered)
      {
        ghost var before := ordered;
        Extends(manifests, selected, here, needs[i].name);
        fault := Visit(needs[i].name, here);
        if fault.Some? { return; }
        if manifests[needs[i].name].version != needs[i].version {
          MismatchFound(manifests, disabled, [here[0]], here, name, i, ordered);
          return Some(Mismatched(name, needs[i]));
        }
        MetOneMore(manifests, name, before, ordered, i);
        PlacesOneMore(manifests, old(ordered), name, i, visiting, before, ordered);
      }
      PlacesAll(manifests, old(ordered), name, visiting, ordered);
    }

    /** Visits the selection from front to back. */
    method VisitSelection(names: seq<Name>) returns (fault: Option<Fault>)
      requires Valid() && visiting == {} && names == selected
      modifies this
      ensures fault == None ==> Valid() && Covered(selected, |selected|, ordered)
      ensures fault == None ==> ordered == PlaceAll(manifests, old(ordered), selected, {})
      ensures fault.Some? ==> FirstFault(manifests, disabled, selected, fault.value)
    {
      fault := None;
      for i := 0 to |names|
        invariant fault == None && Valid() && visiting == {} && Covered(selected, i, ordered)
        invariant ordered == PlaceAll(manifests, old(ordered), selected[..i], {})
      {
        ghost var before := ordered;
        assert [] + [names[i]] == [names[i]];
        fault := Visit(names[i], []);
        if fault.Some? {
          FoundFirst(manifests, disabled, selected, i, before, fault.value);
          return;
        }
        CoveredGrows(selected, i, before, ordered);
        PlaceNext(manifests, old(ordered), selected, i, {});
      }
      assert selected[..|selected|] == selected;
    }
  }

  /** Succeeds exactly when the selection can be resolved; then lists what it leads to, requirements first. */
  method Resolve(manifests: Manifests, names: seq<Name>, selection: Option<seq<Name>>, disabled: set<Name>) returns (result: Result)
    requires forall x :: x in names <==> x in manifests
    ensures var selected := if selection.Some? then selection.value else names;
      && (result.Ordered? <==> Resolvable(manifests, disabled, selected))
      && (result.Refused? ==> FirstFault(manifests, disabled, selected, result.fault))
      && (result.Ordered? ==>
            && Importable(manifests, disabled, result.names) && result.names == Order(manifests, selected)
            && forall x :: x in result.names <==> Reachable(manifests, selected, x))
  {
    var selected := if selection.Some? then selection.value else names;
    var resolver := new Resolver(manifests, disabled, selected);
    var fault := resolver.VisitSelection(selected);
    if fault.Some? {
      FirstIsFaulty(manifests, disabled, selected, fault.value);
      FaultyIsUnresolvable(manifests, disabled, selected, fault.value);
      result := Refused(fault.value);
    } else {
      ImportableIsResolvable(manifests, disabled, resolver.ordered, selected);
      result := Ordered(resolver.ordered);
    }
  }
}
