/** Source generations shared by the trees captured from the same bytes (raychat/plugin_sources.py). */
module SharedGenerations {
  import opened Effects

  datatype Digest = Digest(hex: string)

  /** `attached` while the scratch directory would still be deleted; `cleaning` between the last release and its cleanup. */
  datatype Generation = Generation(
    digest: Digest,
    active: int,
    retained: bool,
    private: bool,
    attached: bool,
    cleaning: bool,
    deletions: nat,
    collected: bool)

  datatype Tree = Tree(generation: nat, retained: bool, released: bool, dropped: bool)

  datatype Shared = Shared(generations: seq<Generation>, trees: seq<Tree>, published: map<Digest, nat>)

  datatype Step =
    | Capture(digest: Digest, private: bool)
    | Retain(t: nat)
    | Retire(t: nat)
    | CleanUp(g: nat)
    | Drop(t: nat)
    | Collect(g: nat)

  // ---------------------------------------------------------------- the steps

  function Init(): Shared {
    Shared([], [], map[])
  }

  predicate Enabled(s: Shared, step: Step) {
    match step
    case Capture(_, _) => true
    case Retain(t) => t < |s.trees| && !s.trees[t].dropped && s.trees[t].generation < |s.generations|
    case Retire(t) => t < |s.trees| && !s.trees[t].dropped && s.trees[t].generation < |s.generations|
    case CleanUp(g) => g < |s.generations| && s.generations[g].cleaning
    case Drop(t) => t < |s.trees|
    case Collect(g) =>
      g < |s.generations| && forall t | 0 <= t < |s.trees| && s.trees[t].generation == g :: s.trees[t].dropped
  }

  function Unpublished(published: map<Digest, nat>, digest: Digest, g: nat): map<Digest, nat> {
    if Lookup(published, digest) == Some(g) then published - {digest} else published
  }

  /** Deletes the directory unless somebody did, or gave up doing it. */
  function Deleted(g: Generation): Generation {
    if g.attached then g.(attached := false, deletions := g.deletions + 1) else g
  }

  /** A published generation gains an owner; otherwise a new one is built and published. */
  function Captured(s: Shared, digest: Digest, private: bool): Shared {
    match Lookup(s.published, digest)
    case Some(g) =>
      if g < |s.generations| then
        s.(generations := s.generations[g := s.generations[g].(active := s.generations[g].active + 1)],
           trees := s.trees + [Tree(g, false, false, false)])
      else s
    case None =>
      Shared(s.generations + [Generation(digest, 1, false, private, private, false, 0, false)],
             s.trees + [Tree(|s.generations|, false, false, false)],
             s.published[digest := |s.generations|])
  }

  /** The files of a retained generation stay, and nobody else will share it. */
  function Retained(s: Shared, t: nat): Shared
    requires Enabled(s, Retain(t))
  {
    var g := s.trees[t].generation;
    var generation, trees := s.generations[g], s.trees[t := s.trees[t].(retained := true)];
    if generation.retained then s.(trees := trees)
    else Shared(s.generations[g := generation.(retained := true, attached := false)], trees,
                Unpublished(s.published, generation.digest, g))
  }

  /** The last owner unpublishes the generation; its private directory is then cleaned up outside the lock. */
  function Retired(s: Shared, t: nat): Shared
    requires Enabled(s, Retire(t))
  {
    var tree := s.trees[t];
    if tree.retained || tree.released then s
    else
      var generation := s.generations[tree.generation];
      var last := generation.active == 1 && !generation.retained;
      Shared(s.generations[tree.generation :=
               generation.(active := generation.active - 1, cleaning := generation.cleaning || (last && generation.private))],
             s.trees[t := tree.(released := true)],
             if last then Unpublished(s.published, generation.digest, tree.generation) else s.published)
  }

  function Collected(s: Shared, g: nat): Shared
    requires g < |s.generations|
  {
    s.(generations := s.generations[g := Deleted(s.generations[g]).(collected := true)],
       published := Unpublished(s.published, s.generations[g].digest, g))
  }

  function Apply(s: Shared, step: Step): Shared
    requires Enabled(s, step)
  {
    match step
    case Capture(digest, private) => Captured(s, digest, private)
    case Retain(t) => Retained(s, t)
    case Retire(t) => Retired(s, t)
    case CleanUp(g) => s.(generations := s.generations[g := Deleted(s.generations[g]).(cleaning := false)])
    case Drop(t) => s.(trees := s.trees[t := s.trees[t].(dropped := true)])
    case Collect(g) => Collected(s, g)
  }

  // ---------------------------------------------------------------- counting owners

  function Owners(trees: seq<Tree>, g: nat): nat {
    if trees == [] then 0
    else
      var last := trees[|trees| - 1];
      Owners(trees[..|trees| - 1], g) + (if last.generation == g && !last.released then 1 else 0)
  }

  lemma OwnersAppend(trees: seq<Tree>, tree: Tree, g: nat)
    ensures Owners(trees + [tree], g) == Owners(trees, g) + (if tree.generation == g && !tree.released then 1 else 0)
  {
    assert (trees + [tree])[..|trees|] == trees;
  }

  lemma {:induction false} OwnersUpdate(trees: seq<Tree>, t: nat, tree: Tree, g: nat)
    requires t < |trees|
    ensures Owners(trees[t := tree], g) ==
            Owners(trees, g) - (if trees[t].generation == g && !trees[t].released then 1 else 0)
            + (if tree.generation == g && !tree.released then 1 else 0)
  {
    var last := |trees| - 1;
    if t == last {
      assert trees[t := tree][..last] == trees[..last];
    } else {
      assert trees[t := tree][..last] == trees[..last][t := tree];
      OwnersUpdate(trees[..last], t, tree, g);
    }
  }

  lemma {:induction false} OwnerCounts(trees: seq<Tree>, t: nat)
    requires t < |trees| && !trees[t].released
    ensures Owners(trees, trees[t].generation) > 0
  {
    if t < |trees| - 1 { OwnerCounts(trees[..|trees| - 1], t); }
  }

  lemma {:induction false} NoOwners(trees: seq<Tree>, g: nat)
    requires forall t | 0 <= t < |trees| :: trees[t].generation != g
    ensures Owners(trees, g) == 0
  {
    if trees != [] { NoOwners(trees[..|trees| - 1], g); }
  }

  // ---------------------------------------------------------------- the invariant

  /** One generation: its count, its place in the registry, and the fate of its directory. */
  ghost predicate Sound(s: Shared, g: nat)
    requires g < |s.generations|
  {
    var generation := s.generations[g];
    && generation.active == Owners(s.trees, g)
    && (Lookup(s.published, generation.digest) == Some(g) <==>
          generation.active > 0 && !generation.retained && !generation.collected)
    && (generation.attached || generation.deletions > 0 ==> generation.private)
    && (generation.attached ==> generation.deletions == 0 && !generation.retained)
    && generation.deletions <= 1
    && (generation.private && !generation.retained ==> (generation.attached <==> generation.deletions == 0))
    && (generation.private && !generation.retained && generation.active == 0 ==> generation.cleaning || !generation.attached)
    && (generation.collected ==> !generation.attached)
    && (generation.cleaning || generation.deletions > 0 ==> generation.active == 0 || generation.collected)
  }

  /** Retained before it was released: it keeps its files, whether or not anybody still refers to it. */
  predicate Kept(tree: Tree) {
    tree.retained && !tree.released
  }

  /** A tree whose generation is gone is gone, and one that was kept in time keeps its files. */
  predicate Homed(s: Shared, tree: Tree) {
    && tree.generation < |s.generations|
    && (s.generations[tree.generation].collected ==> tree.dropped)
    && (Kept(tree) ==> s.generations[tree.generation].retained && s.generations[tree.generation].deletions == 0)
  }

  ghost predicate Inv(s: Shared) {
    && (forall g | 0 <= g < |s.generations| :: Sound(s, g))
    && (forall t | 0 <= t < |s.trees| :: Homed(s, s.trees[t]))
    && (forall d | d in s.published :: s.published[d] < |s.generations| && s.generations[s.published[d]].digest == d)
  }

  lemma ShareSounds(s: Shared, digest: Digest, private: bool, g: nat)
    requires Inv(s) && digest in s.published && g < |s.generations|
    ensures Sound(Captured(s, digest, private), g)
  {
    OwnersAppend(s.trees, Tree(s.published[digest], false, false, false), g);
    assert Sound(s, g);
  }

  lemma ShareHomes(s: Shared, digest: Digest, private: bool, t: nat)
    requires Inv(s) && digest in s.published && t <= |s.trees|
    ensures Homed(Captured(s, digest, private), Captured(s, digest, private).trees[t])
  {
    assert Sound(s, s.published[digest]);
    if t < |s.trees| { assert Homed(s, s.trees[t]); }
  }

  lemma ShareKeeps(s: Shared, digest: Digest, private: bool)
    requires Inv(s) && digest in s.published
    ensures Inv(Captured(s, digest, private))
  {
    var u := Captured(s, digest, private);
    forall g | 0 <= g < |u.generations| ensures Sound(u, g) { ShareSounds(s, digest, private, g); }
    forall t | 0 <= t < |u.trees| ensures Homed(u, u.trees[t]) { ShareHomes(s, digest, private, t); }
  }

  lemma BuildKeeps(s: Shared, digest: Digest, private: bool)
    requires Inv(s) && digest !in s.published
    ensures Inv(Captured(s, digest, private))
  {
    var u, tree := Captured(s, digest, private), Tree(|s.generations|, false, false, false);
    NoOwners(s.trees, |s.generations|);
    forall g | 0 <= g < |u.generations|
      ensures Sound(u, g)
    {
      OwnersAppend(s.trees, tree, g);
      if g < |s.generations| {
        assert Sound(s, g);
        assert u.generations[g] == s.generations[g];
      } else {
        assert Owners(u.trees, g) == 1;
      }
    }
    forall i | 0 <= i < |u.trees|
      ensures Homed(u, u.trees[i])
    {
      if i < |s.trees| { assert Homed(s, s.trees[i]) && Sound(s, s.trees[i].generation); }
    }
  }

  lemma CaptureKeeps(s: Shared, digest: Digest, private: bool)
    requires Inv(s)
    ensures Inv(Captured(s, digest, private))
  {
    if digest in s.published { ShareKeeps(s, digest, private); } else { BuildKeeps(s, digest, private); }
  }

  lemma RetainKeeps(s: Shared, t: nat)
    requires Inv(s) && Enabled(s, Retain(t))
    ensures Inv(Retained(s, t))
  {
    var u := Retained(s, t);
    forall g | 0 <= g < |u.generations|
      ensures Sound(u, g)
    {
      OwnersUpdate(s.trees, t, u.trees[t], g);
      assert Sound(s, g);
    }
    assert Homed(s, s.trees[t]) && Sound(s, s.trees[t].generation);
    if !s.trees[t].released { OwnerCounts(s.trees, t); }
    forall i | 0 <= i < |u.trees|
      ensures Homed(u, u.trees[i])
    {
      assert Homed(s, s.trees[i]);
    }
  }

  lemma RetireKeeps(s: Shared, t: nat)
    requires Inv(s) && Enabled(s, Retire(t))
    ensures Inv(Retired(s, t))
  {
    var u := Retired(s, t);
    assert Homed(s, s.trees[t]) && Sound(s, s.trees[t].generation);
    forall g | 0 <= g < |u.generations|
      ensures Sound(u, g)
    {
      OwnersUpdate(s.trees, t, u.trees[t], g);
      assert Sound(s, g);
    }
    forall i | 0 <= i < |u.trees|
      ensures Homed(u, u.trees[i])
    {
      if i < |s.trees| { assert Homed(s, s.trees[i]) && Sound(s, s.trees[i].generation); }
    }
  }

  lemma CleanUpKeeps(s: Shared, n: nat)
    requires Inv(s) && Enabled(s, CleanUp(n))
    ensures Inv(Apply(s, CleanUp(n)))
  {
    var u := Apply(s, CleanUp(n));
    forall g | 0 <= g < |u.generations|
      ensures Sound(u, g)
    {
      assert Sound(s, g);
    }
    forall i | 0 <= i < |u.trees|
      ensures Homed(u, u.trees[i])
    {
      if i < |s.trees| { assert Homed(s, s.trees[i]) && Sound(s, s.trees[i].generation); }
    }
  }

  lemma DropKeeps(s: Shared, t: nat)
    requires Inv(s) && Enabled(s, Drop(t))
    ensures Inv(Apply(s, Drop(t)))
  {
    var u := Apply(s, Drop(t));
    forall g | 0 <= g < |u.generations|
      ensures Sound(u, g)
    {
      OwnersUpdate(s.trees, t, u.trees[t], g);
      assert Sound(s, g);
    }
    forall i | 0 <= i < |u.trees|
      ensures Homed(u, u.trees[i])
    {
      if i < |s.trees| { assert Homed(s, s.trees[i]) && Sound(s, s.trees[i].generation); }
    }
  }

  lemma CollectKeeps(s: Shared, n: nat)
    requires Inv(s) && Enabled(s, Collect(n))
    ensures Inv(Collected(s, n))
  {
    var u := Collected(s, n);
    forall g | 0 <= g < |u.generations|
      ensures Sound(u, g)
    {
      assert Sound(s, g);
    }
    forall i | 0 <= i < |u.trees|
      ensures Homed(u, u.trees[i])
    {
      if i < |s.trees| { assert Homed(s, s.trees[i]) && Sound(s, s.trees[i].generation); }
    }
  }

  lemma StepKeeps(s: Shared, step: Step)
    requires Inv(s) && Enabled(s, step)
    ensures Inv(Apply(s, step))
  {
    match step
    case Capture(digest, private) => CaptureKeeps(s, digest, private);
    case Retain(t) => RetainKeeps(s, t);
    case Retire(t) => RetireKeeps(s, t);
    case CleanUp(g) => CleanUpKeeps(s, g);
    case Drop(t) => DropKeeps(s, t);
    case Collect(g) => CollectKeeps(s, g);
  }

  predicate EnabledRun(run: seq<Step>)
    decreases |run|, 0
  {
    run == [] || (EnabledRun(run[..|run| - 1]) && Enabled(Run(run[..|run| - 1]), run[|run| - 1]))
  }

  function Run(run: seq<Step>): Shared
    requires EnabledRun(run)
    decreases |run|, 1
  {
    if run == [] then Init() else Apply(Run(run[..|run| - 1]), run[|run| - 1])
  }

  /** In every reachable state the counts are right and exactly the live, unretained generations are published. */
  lemma {:induction false} RunKeeps(run: seq<Step>)
    requires EnabledRun(run)
    ensures Inv(Run(run))
    decreases |run|
  {
    if run != [] {
      RunKeeps(run[..|run| - 1]);
      StepKeeps(Run(run[..|run| - 1]), run[|run| - 1]);
    }
  }

  /** A tree that can still use its files: not retired, and referenced. */
  predicate InUse(tree: Tree) {
    !tree.released && !tree.dropped
  }

  /** A directory is never deleted under a tree in use or one that was retained in time, dropped or not. */
  lemma FilesOutliveTheirOwners(run: seq<Step>, t: nat)
    requires EnabledRun(run) && t < |Run(run).trees| && (InUse(Run(run).trees[t]) || Kept(Run(run).trees[t]))
    ensures var s := Run(run);
      && s.trees[t].generation < |s.generations|
      && s.generations[s.trees[t].generation].deletions == 0
      && (InUse(s.trees[t]) ==> !s.generations[s.trees[t].generation].cleaning)
  {
    RunKeeps(run);
    var s := Run(run);
    assert Homed(s, s.trees[t]);
    assert Sound(s, s.trees[t].generation);
    OwnerCounts(s.trees, t);
  }

  /** The step deletes the directory of `g`. */
  predicate Deletes(s: Shared, step: Step, g: nat)
    requires Enabled(s, step)
  {
    g < |s.generations| && g < |Apply(s, step).generations| && Apply(s, step).generations[g].deletions > s.generations[g].deletions
  }

  /** Whenever a directory is deleted, no tree of that generation is in use and none was retained in time. */
  lemma DeletesOnlyAbandoned(run: seq<Step>, step: Step, g: nat, t: nat)
    requires EnabledRun(run) && Enabled(Run(run), step) && Deletes(Run(run), step, g)
    requires t < |Run(run).trees| && Run(run).trees[t].generation == g
    ensures !InUse(Run(run).trees[t]) && !Kept(Run(run).trees[t])
  {
    var s := Run(run);
    RunKeeps(run);
    assert Sound(s, g) && Homed(s, s.trees[t]);
    if !s.trees[t].released { OwnerCounts(s.trees, t); }
    StepKeeps(s, step);
    assert Sound(Apply(s, step), g);
  }

  /** Only directories the process created are deleted, and each at most once. */
  lemma DeletedAtMostOnce(run: seq<Step>, g: nat)
    requires EnabledRun(run) && g < |Run(run).generations|
    ensures var generation := Run(run).generations[g];
      generation.deletions <= 1 && (generation.deletions == 1 ==> generation.private && !generation.attached)
  {
    RunKeeps(run);
    assert Sound(Run(run), g);
  }

  /** No directory is left behind: what was created, not retained, and is neither used nor about to be cleaned up is gone. */
  lemma AbandonedAreDeleted(run: seq<Step>, g: nat)
    requires EnabledRun(run) && g < |Run(run).generations|
    requires Run(run).generations[g].private && !Run(run).generations[g].retained && !Run(run).generations[g].cleaning
    requires forall t | 0 <= t < |Run(run).trees| && Run(run).trees[t].generation == g :: Run(run).trees[t].released
    ensures Run(run).generations[g].deletions == 1
  {
    RunKeeps(run);
    assert Sound(Run(run), g);
    NoneOwn(Run(run).trees, g);
  }

  lemma {:induction false} NoneOwn(trees: seq<Tree>, g: nat)
    requires forall t | 0 <= t < |trees| && trees[t].generation == g :: trees[t].released
    ensures Owners(trees, g) == 0
  {
    if trees != [] { NoneOwn(trees[..|trees| - 1], g); }
  }

  lemma RetainedStep(s: Shared, step: Step, g: nat)
    requires Inv(s) && Enabled(s, step) && g < |s.generations| && s.generations[g].retained
    ensures var u := Apply(s, step);
      && g < |u.generations| && u.generations[g].retained && u.generations[g].deletions == s.generations[g].deletions
  {
    assert Sound(s, g);
  }

  /** From its retention on, a generation is left alone. */
  lemma {:induction false} RetainedStays(run: seq<Step>, later: seq<Step>, g: nat)
    requires EnabledRun(run) && EnabledRun(run + later) && g < |Run(run).generations| && Run(run).generations[g].retained
    ensures var u := Run(run + later);
      && g < |u.generations| && u.generations[g].retained && u.generations[g].deletions == Run(run).generations[g].deletions
    decreases |later|
  {
    if later == [] {
      assert run + later == run;
    } else {
      var before, last := later[..|later| - 1], later[|later| - 1];
      assert (run + later)[..|run + later| - 1] == run + before;
      RetainedStays(run, before, g);
      RunKeeps(run + before);
      RetainedStep(Run(run + before), last, g);
    }
  }

  /** Retaining saves the directory for good exactly if it has not been deleted yet, whatever happens afterwards. */
  lemma RetainSavesExactly(run: seq<Step>, t: nat, later: seq<Step>)
    requires EnabledRun(run) && Enabled(Run(run), Retain(t)) && EnabledRun(run + [Retain(t)] + later)
    ensures var s, u, g := Run(run), Run(run + [Retain(t)] + later), Run(run).trees[t].generation;
      && g < |s.generations| && g < |u.generations|
      && (u.generations[g].deletions == 0 <==> s.generations[g].deletions == 0)
      && (!s.trees[t].released ==> u.generations[g].deletions == 0)
  {
    var kept := run + [Retain(t)];
    assert kept[..|run|] == run;
    RunKeeps(run);
    assert Homed(Run(run), Run(run).trees[t]);
    EnabledPrefix(kept, later);
    RetainedStays(kept, later, Run(run).trees[t].generation);
    if !Run(run).trees[t].released { FilesOutliveTheirOwners(run, t); }
  }

  lemma {:induction false} EnabledPrefix(run: seq<Step>, later: seq<Step>)
    requires EnabledRun(run + later)
    ensures EnabledRun(run)
    decreases |later|
  {
    if later == [] {
      assert run + later == run;
    } else {
      assert (run + later)[..|run + later| - 1] == run + later[..|later| - 1];
      EnabledPrefix(run, later[..|later| - 1]);
    }
  }

  /** Retaining a tree that was retired before comes too late: its directory may be gone. */
  lemma LateRetainIsTooLate(digest: Digest)
    ensures var s1 := Captured(Init(), digest, true);
      && Enabled(s1, Retire(0))
      && var s2 := Retired(s1, 0);
      && Enabled(s2, CleanUp(0))
      && var s3 := Apply(s2, CleanUp(0));
      && Enabled(s3, Retain(0))
      && var s4 := Retained(s3, 0);
      && s4.trees[0].retained && s4.generations[0].deletions == 1
  {
  }

  /** Capturing the same bytes shares a generation exactly while an unretained owner is left. */
  lemma SharesWhileOwned(s: Shared, digest: Digest, private: bool)
    requires Inv(s)
    ensures var u := Captured(s, digest, private);
      && |u.trees| == |s.trees| + 1
      && (u.generations[u.trees[|s.trees|].generation].digest == digest)
      && (|u.generations| == |s.generations| <==>
            exists g | 0 <= g < |s.generations| ::
              && s.generations[g].digest == digest && s.generations[g].active > 0
              && !s.generations[g].retained && !s.generations[g].collected)
  {
    if g :| 0 <= g < |s.generations| && s.generations[g].digest == digest && s.generations[g].active > 0
            && !s.generations[g].retained && !s.generations[g].collected
    {
      assert Sound(s, g);
    }
    if digest in s.published { assert Sound(s, s.published[digest]); }
  }

  // ---------------------------------------------------------------- the registry as an object

  class GenerationRegistry {
    var generations: seq<Generation>
    var trees: seq<Tree>
    var published: map<Digest, nat>

    ghost function View(): Shared
      reads this
    {
      Shared(generations, trees, published)
    }

    constructor ()
      ensures View() == Init()
    {
      generations, trees, published := [], [], map[];
    }

    method CaptureTree(digest: Digest, private: bool) returns (t: nat)
      requires Inv(View())
      modifies this
      ensures View() == Captured(old(View()), digest, private) && Inv(View())
      ensures t == |old(trees)| && InUse(trees[t]) && generations[trees[t].generation].digest == digest
      ensures trees == old(trees) + [trees[t]] && !trees[t].retained
      ensures generations == old(generations) + [Generation(digest, 1, false, private, private, false, 0, false)] ||
              (|generations| == |old(generations)| && digest in old(published) && trees[t].generation == old(published)[digest])
    {
      CaptureKeeps(View(), digest, private);
      t := |trees|;
      var g: nat;
      if digest in published {
        g := published[digest];
        generations := generations[g := generations[g].(active := generations[g].active + 1)];
      } else {
        g := |generations|;
        generations := generations + [Generation(digest, 1, false, private, private, false, 0, false)];
        published := published[digest := g];
      }
      trees := trees + [Tree(g, false, false, false)];
    }

    method RetainTree(t: nat)
      requires Inv(View()) && Enabled(View(), Retain(t))
      modifies this
      ensures View() == Retained(old(View()), t) && Inv(View())
      ensures trees[t].retained && generations[trees[t].generation].retained && !generations[trees[t].generation].attached
      ensures trees == old(trees)[t := old(trees)[t].(retained := true)]
    {
      RetainKeeps(View(), t);
      var g := trees[t].generation;
      assert Sound(View(), g);
      trees := trees[t := trees[t].(retained := true)];
      var generation := generations[g];
      if !generation.retained {
        if generation.digest in published && published[generation.digest] == g { published := published - {generation.digest}; }
        generations := generations[g := generation.(retained := true, attached := false)];
      }
    }

    /** Says whether this was the last owner of a private directory. */
    method RetireTree(t: nat) returns (last: bool)
      requires Inv(View()) && Enabled(View(), Retire(t))
      modifies this
      ensures View() == Retired(old(View()), t) && Inv(View())
      ensures var was := old(trees)[t];
        if was.retained || was.released then trees == old(trees) && generations == old(generations)
        else trees == old(trees)[t := was.(released := true)]
      ensures var was, g := old(trees)[t], old(generations)[old(trees)[t].generation];
        last <==> !was.retained && !was.released && Owners(trees, was.generation) == 0 && !g.retained && g.private
      ensures last ==> generations[trees[t].generation].cleaning
    {
      RetireKeeps(View(), t);
      ghost var after := Retired(View(), t);
      var tree := trees[t];
      if tree.retained || tree.released { return false; }
      var g, generation := tree.generation, generations[tree.generation];
      assert Sound(View(), g);
      assert Sound(after, g);
      trees := trees[t := tree.(released := true)];
      var emptied := generation.active == 1 && !generation.retained;
      if emptied && generation.digest in published && published[generation.digest] == g {
        published := published - {generation.digest};
      }
      last := emptied && generation.private;
      generations := generations[g := generation.(active := generation.active - 1, cleaning := generation.cleaning || last)];
    }

    method CleanUpFiles(g: nat)
      requires Inv(View()) && Enabled(View(), CleanUp(g))
      modifies `generations
      ensures View() == Apply(old(View()), CleanUp(g)) && Inv(View())
      ensures var was := old(generations)[g];
        generations[g].deletions == was.deletions + (if was.attached then 1 else 0) && !generations[g].attached
    {
      CleanUpKeeps(View(), g);
      var generation := generations[g];
      if generation.attached { generation := generation.(attached := false, deletions := generation.deletions + 1); }
      generations := generations[g := generation.(cleaning := false)];
    }
  }
}
