/** Package tree swaps with a receipt (raychat/package_transactions.py). */
module PackageTransactions {
  import opened Containers
  import opened Effects
  import opened JsonText

  type Name = string
  type Receipt = seq<nat>

  /** A package directory: its files by relative name. A digest is represented by the tree itself. */
  type Tree = map<string, nat>

  datatype Change = Change(name: Name, box: Name, before: Option<Tree>, after: Option<Tree>, identity: Inode)

  /** `location` is the package root. */
  datatype Record = Record(committed: bool, before: Option<Receipt>, after: Receipt, changes: seq<Change>, location: string)

  /** What a caller asks for one package: its removal, or the tree found at a path (perhaps none). */
  datatype Source = Removal | Path(tree: Option<Tree>)

  /** The trees in a container are called `incoming`, `package` and `discarded`. */
  datatype Disk = Disk(trees: map<Name, Tree>, boxes: map<Name, Box<Tree>>, receipt: Option<Receipt>, journal: Option<Record>)

  function Slot(d: Disk, c: Change, slot: string): Option<Tree> {
    if c.box in d.boxes then Lookup(d.boxes[c.box].slots, slot) else None
  }

  function Target(d: Disk, c: Change): Option<Tree> {
    Lookup(d.trees, c.name)
  }

  /** The container is missing or is still the reserved directory. */
  predicate Owned(d: Disk, c: Change) {
    c.box in d.boxes ==> d.boxes[c.box].identity == c.identity
  }

  predicate Distinct(cs: seq<Change>) {
    forall i, j | 0 <= i < j < |cs| :: cs[i].name != cs[j].name && cs[i].box != cs[j].box
  }

  // ---------------------------------------------------------------- what recovery demands of a record

  const METADATA_LIMIT: nat := 4 * 16 * 1024 * 1024

  predicate Alphanumeric(c: char) {
    'a' <= c <= 'z' || 'A' <= c <= 'Z' || '0' <= c <= '9'
  }

  predicate ValidName(n: Name) {
    1 <= |n| <= 64 && Alphanumeric(n[0]) && forall i | 0 <= i < |n| :: Alphanumeric(n[i]) || n[i] in "_.-"
  }

  /** A name is folded letter by letter; it has no letters but these. */
  function Folded(n: Name): Name {
    seq(|n|, i requires 0 <= i < |n| => if 'A' <= n[i] <= 'Z' then n[i] - 'A' + 'a' else n[i])
  }

  predicate FoldDistinct(names: seq<Name>) {
    forall i, j | 0 <= i < j < |names| :: Folded(names[i]) != Folded(names[j])
  }

  predicate ValidNames(names: seq<Name>) {
    forall i | 0 <= i < |names| :: ValidName(names[i])
  }

  function Names(cs: seq<Change>): seq<Name> {
    seq(|cs|, i requires 0 <= i < |cs| => cs[i].name)
  }

  // The lengths of `{"after": , "before": , "changes": [], "committed": , "location": , "schema": 1}`
  // and of `{"after": , "before": , "container": , "device": , "inode": , "name": }`.
  const RECORD_FRAME: nat := 80
  const CHANGE_FRAME: nat := 71
  const DIGEST_LENGTH: nat := 64

  function DigestLength(tree: Option<Tree>): nat {
    if tree.Some? then DIGEST_LENGTH + 2 else |"null"|
  }

  function ChangeLength(c: Change): nat {
    CHANGE_FRAME + DigestLength(c.after) + DigestLength(c.before) + Quoted(c.box) + Quoted(c.name)
    + Digits(c.identity.device) + Digits(c.identity.number)
  }

  function ChangesLength(cs: seq<Change>): nat {
    if cs == [] then 0
    else ChangesLength(cs[..|cs| - 1]) + (if |cs| > 1 then 2 else 0) + ChangeLength(cs[|cs| - 1])
  }

  /** The length of the journal, which holds the receipts in base64. */
  function Length(r: Record): nat {
    RECORD_FRAME + Encoded(|r.after|) + (if r.before.Some? then Encoded(|r.before.value|) else |"null"|)
    + ChangesLength(r.changes) + Quoted(r.location) + (if r.committed then |"true"| else |"false"|)
  }

  /** Short enough to be read back. */
  predicate Legible(r: Record) {
    Length(r) <= METADATA_LIMIT
  }

  /** Recovery trusts no other record. */
  predicate Sound(location: string, r: Record) {
    Legible(r) && (r.changes != [] ==> r.location == location)
    && ValidNames(Names(r.changes)) && FoldDistinct(Names(r.changes)) && Distinct(r.changes)
  }

  // ---------------------------------------------------------------- the renames

  /** The installed tree moves into the container. */
  function MovedOut(d: Disk, c: Change, slot: string): Disk
    requires c.name in d.trees && c.box in d.boxes
  {
    var box := d.boxes[c.box];
    d.(trees := d.trees - {c.name}, boxes := d.boxes[c.box := box.(slots := box.slots[slot := d.trees[c.name]])])
  }

  /** A tree in the container becomes the installed tree. */
  function MovedIn(d: Disk, c: Change, slot: string): Disk
    requires c.box in d.boxes && slot in d.boxes[c.box].slots
  {
    var box := d.boxes[c.box];
    d.(trees := d.trees[c.name := box.slots[slot]], boxes := d.boxes[c.box := box.(slots := box.slots - {slot})])
  }

  // ---------------------------------------------------------------- the invariant of a pending swap

  /** Not swapped yet, or put back. */
  predicate AtBefore(d: Disk, c: Change) {
    Owned(d, c) && Slot(d, c, "package") == None && Target(d, c) == c.before
  }

  /** The original is in the container and nothing is installed. */
  predicate Away(d: Disk, c: Change) {
    Owned(d, c) && c.before.Some? && Slot(d, c, "package") == c.before && Target(d, c) == None
  }

  predicate Swapped(d: Disk, c: Change) {
    && Owned(d, c) && c.box in d.boxes
    && Slot(d, c, "package") == c.before
    && c.after.Some? && Target(d, c) == c.after
    && Slot(d, c, "incoming") == None && Slot(d, c, "discarded") == None
  }

  predicate Legal(d: Disk, c: Change) {
    AtBefore(d, c) || Away(d, c) || Swapped(d, c)
  }

  /** The original tree exists at its target or in its container. */
  predicate OriginalKept(d: Disk, c: Change) {
    c.before.Some? ==> c.before in {Target(d, c), Slot(d, c, "package")}
  }

  ghost predicate AllBefore(d: Disk, start: Disk, r: Record) {
    && Elsewhere(d.trees, start.trees, Names(r.changes))
    && (forall i | 0 <= i < |r.changes| :: Target(d, r.changes[i]) == r.changes[i].before)
    && d.receipt == r.before
  }

  ghost predicate AllAfter(d: Disk, start: Disk, r: Record) {
    && Elsewhere(d.trees, start.trees, Names(r.changes))
    && (forall i | 0 <= i < |r.changes| :: Target(d, r.changes[i]) == r.changes[i].after)
    && d.receipt == Some(r.after)
  }

  /** No commit is recorded: every change is in a legal state and the receipt is one of the two. */
  ghost predicate Pending(d: Disk, start: Disk, r: Record) {
    && Distinct(r.changes) && !r.committed
    && d.journal == Some(r)
    && Elsewhere(d.trees, start.trees, Names(r.changes))
    && (forall i | 0 <= i < |r.changes| :: Legal(d, r.changes[i]))
    && d.receipt in {r.before, Some(r.after)}
  }

  /** Journaled, and no tree has moved. */
  ghost predicate Begun(d: Disk, start: Disk, r: Record) {
    Pending(d, start, r) && forall i | 0 <= i < |r.changes| :: AtBefore(d, r.changes[i])
  }

  /** No container of the swap is left. */
  predicate Gone(d: Disk, cs: seq<Change>) {
    forall i | 0 <= i < |cs| :: cs[i].box !in d.boxes
  }

  /** The commit is, or was, recorded. */
  ghost predicate Settled(d: Disk, start: Disk, r: Record) {
    && Distinct(r.changes) && !r.committed
    && d.journal in {None, Some(r.(committed := true))}
    && (if d.journal == None then Gone(d, r.changes) else forall i | 0 <= i < |r.changes| :: Owned(d, r.changes[i]))
    && AllAfter(d, start, r)
  }

  /** Rolled back and forgotten. */
  ghost predicate Reverted(d: Disk, start: Disk, r: Record) {
    d.journal == None && Gone(d, r.changes) && AllBefore(d, start, r)
  }

  /** Until the commit is recorded no original is lost. */
  lemma PendingKeepsOriginals(d: Disk, start: Disk, r: Record)
    requires Pending(d, start, r)
    ensures forall i | 0 <= i < |r.changes| :: OriginalKept(d, r.changes[i])
  {
    forall i | 0 <= i < |r.changes|
      ensures OriginalKept(d, r.changes[i])
    {
      assert Legal(d, r.changes[i]);
    }
  }

  /** What one change does to the disk is invisible to the others. */
  lemma LegalFrame(d: Disk, d0: Disk, c: Change)
    requires Target(d, c) == Target(d0, c) && Lookup(d.boxes, c.box) == Lookup(d0.boxes, c.box)
    ensures Legal(d, c) == Legal(d0, c) && AtBefore(d, c) == AtBefore(d0, c) && Owned(d, c) == Owned(d0, c)
    ensures forall slot :: Slot(d, c, slot) == Slot(d0, c, slot)
  {
    forall slot ensures Slot(d, c, slot) == Slot(d0, c, slot) {}
  }

  /** A step of change `i` that keeps it legal keeps the whole swap pending. */
  lemma PendingStep(d: Disk, d0: Disk, start: Disk, r: Record, i: nat)
    requires Pending(d0, start, r) && i < |r.changes|
    requires d.journal == d0.journal && d.receipt == d0.receipt
    requires forall n | n != r.changes[i].name :: Lookup(d.trees, n) == Lookup(d0.trees, n)
    requires forall b | b != r.changes[i].box :: Lookup(d.boxes, b) == Lookup(d0.boxes, b)
    requires Legal(d, r.changes[i])
    ensures Pending(d, start, r)
    ensures forall j | 0 <= j < |r.changes| && j != i ::
              AtBefore(d, r.changes[j]) == AtBefore(d0, r.changes[j]) && Target(d, r.changes[j]) == Target(d0, r.changes[j])
    ensures forall j, slot | 0 <= j < |r.changes| && j != i :: Slot(d, r.changes[j], slot) == Slot(d0, r.changes[j], slot)
  {
    assert Names(r.changes)[i] == r.changes[i].name;
    forall j | 0 <= j < |r.changes| && j != i
      ensures Legal(d, r.changes[j]) && AtBefore(d, r.changes[j]) == AtBefore(d0, r.changes[j])
      ensures Target(d, r.changes[j]) == Target(d0, r.changes[j])
      ensures forall slot :: Slot(d, r.changes[j], slot) == Slot(d0, r.changes[j], slot)
    {
      LegalFrame(d, d0, r.changes[j]);
    }
  }

  // ---------------------------------------------------------------- removing a container

  /** Fewer files are in the container, or it is gone; trees in it may be incomplete. */
  ghost predicate Removing(d: Disk, d0: Disk, box: Name) {
    d == d0.(boxes := d.boxes) && Shrunk(d.boxes, d0.boxes, box, false)
  }

  method RemoveSlot(machine: Machine<Disk>, box: Name, slot: string) returns (o: Outcome)
    requires box in machine.disk.boxes && slot in machine.disk.boxes[box].slots
    modifies machine
    ensures Removing(machine.disk, old(machine.disk), box) && box in machine.disk.boxes
    ensures o.Done? ==> machine.disk.boxes[box].slots.Keys == old(machine.disk.boxes[box].slots.Keys) - {slot}
    ensures o != Raised(Conflict)
    ensures old(machine.fates) == [] ==> machine.fates == [] && o.Done?
  {
    var files := machine.disk.boxes[box].slots[slot].Keys;
    while files != {}
      invariant Removing(machine.disk, old(machine.disk), box) && box in machine.disk.boxes
      invariant machine.disk.boxes[box].slots.Keys == old(machine.disk.boxes[box].slots.Keys)
      invariant machine.disk.boxes[box].slots[slot].Keys == files
      invariant old(machine.fates) == [] ==> machine.fates == []
      decreases files
    {
      var file :| file in files;
      var d := machine.disk;
      var slots := d.boxes[box].slots;
      o := machine.Perform(d.(boxes := d.boxes[box := d.boxes[box].(slots := slots[slot := slots[slot] - {file}])]));
      if !o.Done? { return; }
      files := files - {file};
    }
    var d := machine.disk;
    o := machine.Perform(d.(boxes := d.boxes[box := d.boxes[box].(slots := d.boxes[box].slots - {slot})]));
  }

  method RemoveTree(machine: Machine<Disk>, box: Name) returns (o: Outcome)
    modifies machine
    ensures Removing(machine.disk, old(machine.disk), box)
    ensures o.Done? ==> box !in machine.disk.boxes
    ensures o != Raised(Conflict)
    ensures old(machine.fates) == [] ==> machine.fates == [] && o.Done?
  {
    if box !in machine.disk.boxes { return Done; }
    var slots := machine.disk.boxes[box].slots.Keys;
    while slots != {}
      invariant Removing(machine.disk, old(machine.disk), box)
      invariant box in machine.disk.boxes && machine.disk.boxes[box].slots.Keys == slots
      invariant old(machine.fates) == [] ==> machine.fates == []
      decreases slots
    {
      var slot :| slot in slots;
      o := RemoveSlot(machine, box, slot);
      if !o.Done? { return; }
      slots := slots - {slot};
    }
    o := machine.Perform(machine.disk.(boxes := machine.disk.boxes - {box}));
  }

  // ---------------------------------------------------------------- undoing one change

  /** The installed tree is the new one, and nothing is in the way of discarding it. */
  predicate Retirable(d: Disk, c: Change) {
    && Target(d, c).Some? && Target(d, c) == c.after
    && Slot(d, c, "incoming") == None && Slot(d, c, "discarded") == None
  }

  predicate Refuses(d: Disk, c: Change) {
    || !Owned(d, c)
    || (Slot(d, c, "package").Some? && (Slot(d, c, "package") != c.before || (Target(d, c).Some? && !Retirable(d, c))))
    || (Slot(d, c, "package") == None && Target(d, c) != c.before && (c.before.Some? || !Retirable(d, c)))
  }

  /** Only the tree and the container of `c` differ, and a foreign tree never does. */
  ghost predicate TouchesOnly(d: Disk, d0: Disk, c: Change) {
    && d.journal == d0.journal && d.receipt == d0.receipt
    && (forall n | n != c.name :: Lookup(d.trees, n) == Lookup(d0.trees, n))
    && (forall b | b != c.box :: Lookup(d.boxes, b) == Lookup(d0.boxes, b))
    && (Target(d0, c).Some? && Target(d0, c) != c.after ==> Target(d, c) == Target(d0, c))
  }

  method Restore(machine: Machine<Disk>, c: Change) returns (o: Outcome)
    modifies machine
    ensures TouchesOnly(machine.disk, old(machine.disk), c)
    ensures old(Refuses(machine.disk, c)) ==> o == Raised(Conflict) && machine.disk == old(machine.disk)
    ensures !old(Refuses(machine.disk, c)) ==> o != Raised(Conflict)
    ensures o.Done? ==> AtBefore(machine.disk, c)
    ensures old(Legal(machine.disk, c)) ==> !old(Refuses(machine.disk, c)) && Legal(machine.disk, c)
    ensures old(Legal(machine.disk, c)) && old(machine.fates) == [] ==> machine.fates == [] && o.Done?
  {
    var d := machine.disk;
    if !Owned(d, c) { return Raised(Conflict); }
    var original, current := Slot(d, c, "package"), Target(d, c);
    if original.Some? {
      if original != c.before { return Raised(Conflict); }
      if current.Some? {
        if !Retirable(d, c) { return Raised(Conflict); }
        o := machine.Perform(MovedOut(d, c, "discarded"));
        if !o.Done? { return; }
      }
      o := machine.Perform(MovedIn(machine.disk, c, "package"));
    } else if current != c.before {
      if c.before.Some? || !Retirable(d, c) { return Raised(Conflict); }
      if c.box !in d.boxes { return Raised(System); }
      o := machine.Perform(MovedOut(d, c, "discarded"));
    } else {
      o := Done;
    }
  }

  // ---------------------------------------------------------------- staging and swapping one change

  /** An empty container, as `begin` leaves it. */
  predicate Reserved(d: Disk, c: Change) {
    c.box in d.boxes && Owned(d, c) && d.boxes[c.box].slots == map[]
  }

  /** The container holds the complete new tree and nothing else. */
  predicate StagedFor(d: Disk, c: Change) {
    && c.box in d.boxes && Owned(d, c)
    && Slot(d, c, "package") == None && Slot(d, c, "discarded") == None && Slot(d, c, "incoming") == c.after
  }

  /** The source still is the tree whose digest was recorded. */
  predicate StagedAs(source: Source, c: Change) {
    source.Removal? || (source.Path? && source.tree == c.after && c.after.Some?)
  }

  /** `apply` gets the mapping that `begin` got, though the trees in it may have changed since. */
  predicate SameRequest(sources: map<Name, Source>, c: Change) {
    c.name in sources && (SourceOf(sources, c).Removal? ==> c.after == None)
  }

  function SourceOf(sources: map<Name, Source>, c: Change): Source {
    if c.name in sources then sources[c.name] else Removal
  }

  ghost predicate BoxOnly(d: Disk, d0: Disk, c: Change) {
    && d.trees == d0.trees && d.journal == d0.journal && d.receipt == d0.receipt
    && forall b | b != c.box :: Lookup(d.boxes, b) == Lookup(d0.boxes, b)
  }

  /** How far the copy of one package has come; one that `Stopped` raised, or its process died. */
  datatype Progress = Waiting | Copying(copied: Tree) | Staged | Stopped

  predicate Shows(d: Disk, c: Change, source: Source, p: Progress) {
    match p
    case Waiting => Reserved(d, c)
    case Copying(copied) =>
      && c.box in d.boxes && d.boxes[c.box] == Box(c.identity, map["incoming" := copied])
      && source.Path? && source.tree.Some? && copied.Keys <= source.tree.value.Keys
      && forall file <- copied :: copied[file] == source.tree.value[file]
    case Staged => StagedFor(d, c) && StagedAs(source, c)
    case Stopped => true
  }

  /** The effects and checks that are still to come. */
  function Remaining(source: Source, p: Progress): nat {
    match p
    case Waiting => if source.Path? && source.tree.Some? then |source.tree.value.Keys| + 2 else 1
    case Copying(copied) => if source.Path? && source.tree.Some? then |source.tree.value.Keys - copied.Keys| + 1 else 0
    case _ => 0
  }

  /** One file more. */
  method CopyFile(tree: Tree, copied: Tree) returns (next: Tree)
    requires copied.Keys < tree.Keys && forall file <- copied :: copied[file] == tree[file]
    ensures next.Keys <= tree.Keys && forall file <- next :: next[file] == tree[file]
    ensures |tree.Keys - next.Keys| < |tree.Keys - copied.Keys|
  {
    var file :| file in tree.Keys && file !in copied.Keys;
    next := copied[file := tree[file]];
    assert tree.Keys - next.Keys == tree.Keys - copied.Keys - {file};
  }

  /** What is copied so far replaces what was. */
  method WriteCopy(machine: Machine<Disk>, c: Change, copied: Tree) returns (o: Outcome)
    requires c.box in machine.disk.boxes && Owned(machine.disk, c) && machine.disk.boxes[c.box].slots.Keys <= {"incoming"}
    modifies machine
    ensures BoxOnly(machine.disk, old(machine.disk), c)
    ensures o.Done? ==> c.box in machine.disk.boxes && machine.disk.boxes[c.box] == Box(c.identity, map["incoming" := copied])
    ensures old(AtBefore(machine.disk, c)) ==> AtBefore(machine.disk, c)
    ensures old(machine.fates) == [] ==> machine.fates == [] && o.Done?
  {
    var d := machine.disk;
    o := machine.Perform(d.(boxes := d.boxes[c.box := Box(c.identity, map["incoming" := copied])]));
  }

  /** The container, or one file more. */
  method CopyMore(machine: Machine<Disk>, c: Change, tree: Tree, p: Progress) returns (o: Outcome, q: Progress)
    requires Shows(machine.disk, c, Path(Some(tree)), p)
    requires p.Waiting? || (p.Copying? && p.copied.Keys != tree.Keys)
    modifies machine
    ensures BoxOnly(machine.disk, old(machine.disk), c) && Shows(machine.disk, c, Path(Some(tree)), q)
    ensures old(AtBefore(machine.disk, c)) ==> AtBefore(machine.disk, c)
    ensures o.Done? ==> q.Copying? && Remaining(Path(Some(tree)), q) < Remaining(Path(Some(tree)), p)
    ensures !o.Done? <==> q.Stopped?
    ensures old(machine.fates) == [] ==> machine.fates == [] && o.Done?
  {
    var copied := map[];
    if p.Copying? { copied := CopyFile(tree, p.copied); }
    o := WriteCopy(machine, c, copied);
    q := if o.Done? then Copying(copied) else Stopped;
  }

  /** The next effect of one copy, which is made file by file and then compared with the digest. */
  method CopyStep(machine: Machine<Disk>, c: Change, source: Source, p: Progress) returns (o: Outcome, q: Progress)
    requires Shows(machine.disk, c, source, p) && (source.Removal? ==> c.after == None)
    modifies machine
    ensures BoxOnly(machine.disk, old(machine.disk), c) && Shows(machine.disk, c, source, q)
    ensures old(AtBefore(machine.disk, c)) ==> AtBefore(machine.disk, c)
    ensures o.Done? && p !in {Staged, Stopped} ==> Remaining(source, q) < Remaining(source, p)
    ensures !o.Done? <==> q.Stopped? && !p.Stopped?
    ensures o.Done? && p in {Staged, Stopped} ==> q == p
    ensures old(machine.fates) == [] && StagedAs(source, c) ==> machine.fates == [] && o.Done?
  {
    o, q := Done, p;
    if p in {Staged, Stopped} { return; }
    if source.Removal? { return Done, Staged; }
    if source.tree == None { return Raised(System), Stopped; }
    var tree := source.tree.value;
    if p.Copying? && p.copied.Keys == tree.Keys {
      assert p.copied == tree;
      if source.tree != c.after { return Raised(Conflict), Stopped; }
      return Done, Staged;
    }
    o, q := CopyMore(machine, c, tree, p);
  }

  /** The original moves into the container, then the new tree takes its place. */
  method Swap(machine: Machine<Disk>, c: Change) returns (o: Outcome)
    requires StagedFor(machine.disk, c)
    modifies machine
    ensures machine.disk.journal == old(machine.disk.journal) && machine.disk.receipt == old(machine.disk.receipt)
    ensures forall n | n != c.name :: Lookup(machine.disk.trees, n) == Lookup(old(machine.disk.trees), n)
    ensures forall b | b != c.box :: Lookup(machine.disk.boxes, b) == Lookup(old(machine.disk.boxes), b)
    ensures old(Target(machine.disk, c)) != c.before ==> o == Raised(Conflict) && machine.disk == old(machine.disk)
    ensures old(Target(machine.disk, c)) == c.before ==> o != Raised(Conflict) && Legal(machine.disk, c)
    ensures o.Done? ==> Target(machine.disk, c) == c.after
    ensures old(Target(machine.disk, c) == c.before && machine.fates == []) ==> machine.fates == [] && o.Done?
  {
    if Target(machine.disk, c) != c.before { return Raised(Conflict); }
    o := Done;
    if c.before.Some? {
      o := machine.Perform(MovedOut(machine.disk, c, "package"));
      if !o.Done? { return; }
    }
    if c.after.Some? {
      o := machine.Perform(MovedIn(machine.disk, c, "incoming"));
    }
  }

  // ---------------------------------------------------------------- the transaction

  class PackageTransaction {
    const machine: Machine<Disk>
    const before: Option<Receipt>
    const after: Receipt
    const changes: seq<Change>
    const location: string
    var committed: bool

    constructor (machine: Machine<Disk>, r: Record)
      ensures this.machine == machine && this.Undo() == r.(committed := false) && this.committed == r.committed
    {
      this.machine := machine;
      this.before, this.after, this.changes, this.location := r.before, r.after, r.changes, r.location;
      this.committed := r.committed;
    }

    /** The journal entry that asks for an undo. */
    function Undo(): Record {
      Record(false, before, after, changes, location)
    }

    predicate RecordedCommit(d: Disk) {
      d.journal == Some(Undo().(committed := true))
    }

    method Save(committed: bool) returns (o: Outcome)
      modifies machine
      ensures machine.disk in {old(machine.disk), old(machine.disk).(journal := Some(Undo().(committed := committed)))}
      ensures o.Done? ==> machine.disk.journal == Some(Undo().(committed := committed))
      ensures o != Raised(Conflict)
      ensures old(machine.fates) == [] ==> machine.fates == [] && o.Done?
    {
      o := machine.Perform(machine.disk.(journal := Some(Undo().(committed := committed))));
    }

    /** Removes the containers, then the journal; nothing installed is touched. */
    method Cleanup() returns (o: Outcome)
      requires Distinct(changes)
      modifies machine
      ensures machine.disk.trees == old(machine.disk.trees) && machine.disk.receipt == old(machine.disk.receipt)
      ensures machine.disk.journal in {None, old(machine.disk.journal)}
      ensures o.Done? ==> machine.disk.journal == None && Gone(machine.disk, changes)
      ensures machine.disk.journal == old(machine.disk.journal) || Gone(machine.disk, changes)
      ensures old(forall i | 0 <= i < |changes| :: Owned(machine.disk, changes[i])) ==>
                && o != Raised(Conflict) && (old(machine.fates) == [] ==> o.Done?)
                && (forall i | 0 <= i < |changes| :: Owned(machine.disk, changes[i]))
      ensures old(forall i | 0 <= i < |changes| :: AtBefore(machine.disk, changes[i])) ==>
                forall i | 0 <= i < |changes| :: AtBefore(machine.disk, changes[i])
    {
      for i := 0 to |changes|
        invariant machine.disk.trees == old(machine.disk.trees) && machine.disk.receipt == old(machine.disk.receipt)
        invariant machine.disk.journal == old(machine.disk.journal)
        invariant forall j | 0 <= j < i :: changes[j].box !in machine.disk.boxes
        invariant old(machine.fates) == [] ==> machine.fates == []
        invariant forall j | 0 <= j < |changes| :: old(Owned(machine.disk, changes[j])) ==> Owned(machine.disk, changes[j])
        invariant forall j | 0 <= j < |changes| :: old(AtBefore(machine.disk, changes[j])) ==> AtBefore(machine.disk, changes[j])
      {
        if !Owned(machine.disk, changes[i]) { return Raised(Conflict); }
        ghost var d := machine.disk;
        o := RemoveTree(machine, changes[i].box);
        forall j | 0 <= j < |changes|
          ensures Owned(d, changes[j]) ==> Owned(machine.disk, changes[j])
          ensures AtBefore(d, changes[j]) ==> AtBefore(machine.disk, changes[j])
        {
          if j != i { LegalFrame(machine.disk, d, changes[j]); }
        }
        if !o.Done? { return; }
        forall j | 0 <= j < i ensures changes[j].box !in machine.disk.boxes {
          assert Lookup(machine.disk.boxes, changes[j].box) == Lookup(d.boxes, changes[j].box);
        }
      }
      o := machine.Perform(machine.disk.(journal := None));
    }

    /** Cleanup whose refusals and system errors are only logged. */
    method FinishCommitted() returns (o: Outcome)
      requires Distinct(changes)
      modifies machine
      ensures machine.disk.trees == old(machine.disk.trees) && machine.disk.receipt == old(machine.disk.receipt)
      ensures machine.disk.journal in {None, old(machine.disk.journal)}
      ensures machine.disk.journal == old(machine.disk.journal) || Gone(machine.disk, changes)
      ensures o.Done? || o == Raised(Interrupt) || o.Dead?
      ensures old(forall i | 0 <= i < |changes| :: Owned(machine.disk, changes[i])) ==>
                && (forall i | 0 <= i < |changes| :: Owned(machine.disk, changes[i]))
                && (old(machine.fates) == [] ==> o.Done? && machine.disk.journal == None)
    {
      o := Cleanup();
      if o.Raised? && o.cause != Interrupt { o := Done; }
    }

    method Commit(ghost start: Disk) returns (o: Outcome)
      requires Distinct(changes)
      modifies machine, `committed
      ensures old(committed) ==> o.Done? && machine.disk == old(machine.disk)
      ensures machine.disk.trees == old(machine.disk.trees) && machine.disk.receipt == old(machine.disk.receipt)
      ensures !old(committed) ==>
                && (machine.disk == old(machine.disk) || machine.disk.journal == None || RecordedCommit(machine.disk))
                && (o.Done? ==> machine.disk.journal == None || RecordedCommit(machine.disk))
      ensures !old(committed) && old(Pending(machine.disk, start, Undo()) && AllAfter(machine.disk, start, Undo())) ==>
                && (machine.disk == old(machine.disk) || Settled(machine.disk, start, Undo()))
                && (machine.disk.journal == None ==> committed)
                && (o.Done? ==> Settled(machine.disk, start, Undo()))
                && o != Raised(Conflict)
                && (old(machine.fates) == [] ==> o.Done? && machine.disk.journal == None)
    {
      if committed { return Done; }
      o := Save(true);
      if !o.Done? { return; }
      committed := true;
      o := FinishCommitted();
    }

    method Rollback(ghost start: Disk) returns (o: Outcome)
      requires Distinct(changes)
      modifies machine, `committed
      ensures old(committed) ==> o.Done? && machine.disk == old(machine.disk)
      ensures !old(committed) && old(RecordedCommit(machine.disk)) ==>
                machine.disk.trees == old(machine.disk.trees) && machine.disk.receipt == old(machine.disk.receipt)
      ensures !old(committed) && old(machine.disk.journal.Some? && !Legible(machine.disk.journal.value)) ==>
                o == Raised(Conflict) && machine.disk == old(machine.disk)
      ensures !old(committed) && old(!RecordedCommit(machine.disk) && machine.disk.receipt !in {before, Some(after)}) ==>
                o == Raised(Conflict) && machine.disk == old(machine.disk)
      ensures forall i | 0 <= i < |changes| ::
                old(Target(machine.disk, changes[i])).Some? && old(Target(machine.disk, changes[i])) != changes[i].after ==>
                  Target(machine.disk, changes[i]) == old(Target(machine.disk, changes[i]))
      ensures !old(committed) && old(Pending(machine.disk, start, Undo())) ==>
                && (Pending(machine.disk, start, Undo()) || Reverted(machine.disk, start, Undo()))
                && (o.Done? ==> Reverted(machine.disk, start, Undo()))
                && (Legible(Undo()) ==> o != Raised(Conflict) && (old(machine.fates) == [] ==> o.Done?))
      ensures !old(committed) && old(Settled(machine.disk, start, Undo()) && machine.disk.journal.Some?) ==>
                && Settled(machine.disk, start, Undo())
                && (Legible(Undo().(committed := true)) ==>
                      o != Raised(Conflict) && (old(machine.fates) == [] ==> o.Done? && machine.disk.journal == None))
    {
      if committed { return Done; }
      if machine.disk.journal.Some? && !Legible(machine.disk.journal.value) { return Raised(Conflict); }
      if RecordedCommit(machine.disk) {
        committed := true;
        o := FinishCommitted();
        return;
      }
      var current := machine.disk.receipt;
      if current !in {before, Some(after)} { return Raised(Conflict); }
      o := RestoreAll(start);
      if !o.Done? { return; }
      if before == None {
        o := machine.Perform(machine.disk.(receipt := None));
      } else if current != before {
        o := machine.Perform(machine.disk.(receipt := before));
      }
      if !o.Done? { return; }
      o := Cleanup();
    }

    /** Puts the originals back, last change first. */
    method RestoreAll(ghost start: Disk) returns (o: Outcome)
      requires Distinct(changes)
      modifies machine
      ensures machine.disk.receipt == old(machine.disk.receipt) && machine.disk.journal == old(machine.disk.journal)
      ensures forall i | 0 <= i < |changes| ::
                old(Target(machine.disk, changes[i])).Some? && old(Target(machine.disk, changes[i])) != changes[i].after ==>
                  Target(machine.disk, changes[i]) == old(Target(machine.disk, changes[i]))
      ensures o.Done? ==> forall i | 0 <= i < |changes| :: AtBefore(machine.disk, changes[i])
      ensures old(Pending(machine.disk, start, Undo())) ==>
                && o != Raised(Conflict) && Pending(machine.disk, start, Undo())
                && (old(machine.fates) == [] ==> machine.fates == [] && o.Done?)
    {
      var i := |changes|;
      while i > 0
        invariant 0 <= i <= |changes|
        invariant machine.disk.receipt == old(machine.disk.receipt) && machine.disk.journal == old(machine.disk.journal)
        invariant forall j | 0 <= j < |changes| ::
                    old(Target(machine.disk, changes[j])).Some? && old(Target(machine.disk, changes[j])) != changes[j].after ==>
                      Target(machine.disk, changes[j]) == old(Target(machine.disk, changes[j]))
        invariant forall j | i <= j < |changes| :: AtBefore(machine.disk, changes[j])
        invariant old(Pending(machine.disk, start, Undo())) ==> Pending(machine.disk, start, Undo())
        invariant old(machine.fates) == [] && old(Pending(machine.disk, start, Undo())) ==> machine.fates == []
      {
        i := i - 1;
        ghost var d := machine.disk;
        o := Restore(machine, changes[i]);
        forall j | 0 <= j < |changes| && j != i
          ensures AtBefore(machine.disk, changes[j]) == AtBefore(d, changes[j])
          ensures Target(machine.disk, changes[j]) == Target(d, changes[j])
        {
          LegalFrame(machine.disk, d, changes[j]);
        }
        if Pending(d, start, Undo()) {
          assert Legal(d, Undo().changes[i]);
          PendingStep(machine.disk, d, start, Undo(), i);
        }
        if !o.Done? { return; }
      }
      o := Done;
    }

    /** Stages every input, swaps the trees one by one, then publishes the receipt. */
    method Apply(sources: map<Name, Source>, schedule: seq<nat>, ghost start: Disk) returns (o: Outcome)
      requires Distinct(changes)
      requires forall i | 0 <= i < |changes| :: SameRequest(sources, changes[i]) && Reserved(machine.disk, changes[i])
      modifies machine
      ensures old(Begun(machine.disk, start, Undo())) ==> Pending(machine.disk, start, Undo())
      ensures o.Done? ==>
                && machine.disk.receipt == Some(after)
                && forall i | 0 <= i < |changes| ::
                     && StagedAs(SourceOf(sources, changes[i]), changes[i])
                     && old(Target(machine.disk, changes[i])) == changes[i].before
                     && Target(machine.disk, changes[i]) == changes[i].after
      ensures (exists i | 0 <= i < |changes| :: !StagedAs(SourceOf(sources, changes[i]), changes[i])) ==>
                !o.Done? && machine.disk.trees == old(machine.disk.trees) && machine.disk.receipt == old(machine.disk.receipt)
      ensures && old(machine.fates) == [] && Supplies(sources)
              && old(forall i | 0 <= i < |changes| :: Target(machine.disk, changes[i]) == changes[i].before) ==>
                machine.fates == [] && o.Done?
    {
      o := StageIncoming(sources, schedule, start);
      if !o.Done? { return; }
      for i := 0 to |changes|
        invariant old(Begun(machine.disk, start, Undo())) ==> Pending(machine.disk, start, Undo())
        invariant forall j | i <= j < |changes| ::
                    StagedFor(machine.disk, changes[j]) && Target(machine.disk, changes[j]) == old(Target(machine.disk, changes[j]))
        invariant forall j | 0 <= j < i ::
                    && old(Target(machine.disk, changes[j])) == changes[j].before
                    && Target(machine.disk, changes[j]) == changes[j].after
        invariant old(machine.fates) == [] && Supplies(sources) ==> machine.fates == []
      {
        ghost var d := machine.disk;
        o := Swap(machine, changes[i]);
        forall j | 0 <= j < |changes| && j != i
          ensures StagedFor(machine.disk, changes[j]) == StagedFor(d, changes[j])
          ensures Target(machine.disk, changes[j]) == Target(d, changes[j])
        {
          LegalFrame(machine.disk, d, changes[j]);
        }
        if Pending(d, start, Undo()) {
          assert Legal(d, Undo().changes[i]);
          PendingStep(machine.disk, d, start, Undo(), i);
        }
        if !o.Done? { return; }
      }
      o := machine.Perform(machine.disk.(receipt := Some(after)));
      forall i | 0 <= i < |changes|
        ensures Legal(machine.disk, changes[i]) || !old(Begun(machine.disk, start, Undo()))
      {
        if old(Begun(machine.disk, start, Undo())) {
          LegalFrame(machine.disk, machine.disk.(receipt := old(machine.disk.receipt)), changes[i]);
        }
      }
    }

    /** Every tree is still the one that was found before. */
    ghost predicate Supplies(sources: map<Name, Source>) {
      forall i | 0 <= i < |changes| :: StagedAs(SourceOf(sources, changes[i]), changes[i])
    }

    /** Every copy has come as far as `progress` says. */
    predicate Staging(d: Disk, sources: map<Name, Source>, progress: seq<Progress>)
      requires |progress| == |changes|
    {
      forall i | 0 <= i < |changes| :: Shows(d, changes[i], SourceOf(sources, changes[i]), progress[i])
    }

    /** One step of one copy; the others stand still. */
    method Advance(sources: map<Name, Source>, progress: seq<Progress>, i: nat, ghost start: Disk)
      returns (o: Outcome, next: Progress)
      requires Distinct(changes) && i < |changes| == |progress| && Staging(machine.disk, sources, progress)
      requires SameRequest(sources, changes[i])
      modifies machine
      ensures machine.disk.trees == old(machine.disk.trees) && machine.disk.receipt == old(machine.disk.receipt)
      ensures machine.disk.journal == old(machine.disk.journal)
      ensures old(Begun(machine.disk, start, Undo())) ==> Begun(machine.disk, start, Undo())
      ensures Staging(machine.disk, sources, progress[i := next])
      ensures !o.Done? <==> next.Stopped? && !progress[i].Stopped?
      ensures o.Done? && !progress[i].Staged? && !progress[i].Stopped? ==>
                Remaining(SourceOf(sources, changes[i]), next) < Remaining(SourceOf(sources, changes[i]), progress[i])
      ensures old(machine.fates) == [] && StagedAs(SourceOf(sources, changes[i]), changes[i]) ==> machine.fates == [] && o.Done?
    {
      ghost var d := machine.disk;
      o, next := CopyStep(machine, changes[i], SourceOf(sources, changes[i]), progress[i]);
      forall j | 0 <= j < |changes| && j != i
        ensures Shows(machine.disk, changes[j], SourceOf(sources, changes[j]), progress[j])
      {
        assert Lookup(machine.disk.boxes, changes[j].box) == Lookup(d.boxes, changes[j].box);
        LegalFrame(machine.disk, d, changes[j]);
      }
      if Begun(d, start, Undo()) {
        assert AtBefore(d, Undo().changes[i]);
        PendingStep(machine.disk, d, start, Undo(), i);
      }
    }

    /** Stages all inputs at once: `schedule` says whose copy goes on. The copies that have not raised may go on when one has;
      * a crash leaves any number of incomplete copies. */
    method StageIncoming(sources: map<Name, Source>, schedule: seq<nat>, ghost start: Disk) returns (o: Outcome)
      requires Distinct(changes)
      requires forall i | 0 <= i < |changes| :: SameRequest(sources, changes[i]) && Reserved(machine.disk, changes[i])
      modifies machine
      ensures machine.disk.trees == old(machine.disk.trees) && machine.disk.receipt == old(machine.disk.receipt)
      ensures machine.disk.journal == old(machine.disk.journal)
      ensures old(Begun(machine.disk, start, Undo())) ==> Begun(machine.disk, start, Undo())
      ensures o.Done? ==> forall i | 0 <= i < |changes| ::
                            StagedFor(machine.disk, changes[i]) && StagedAs(SourceOf(sources, changes[i]), changes[i])
      ensures old(machine.fates) == [] && Supplies(sources) ==> machine.fates == [] && o.Done?
    {
      var progress := seq(|changes|, _ => Waiting);
      o := Done;
      for k := 0 to |schedule|
        invariant machine.disk.trees == old(machine.disk.trees) && machine.disk.receipt == old(machine.disk.receipt)
        invariant machine.disk.journal == old(machine.disk.journal)
        invariant old(Begun(machine.disk, start, Undo())) ==> Begun(machine.disk, start, Undo())
        invariant |progress| == |changes| && Staging(machine.disk, sources, progress)
        invariant o.Done? ==> forall i | 0 <= i < |changes| :: !progress[i].Stopped?
        invariant old(machine.fates) == [] && Supplies(sources) ==> machine.fates == [] && o.Done?
      {
        if schedule[k] < |changes| {
          var step, next := Advance(sources, progress, schedule[k], start);
          progress := progress[schedule[k] := next];
          if o.Done? { o := step; }
          if step.Dead? { return step; }
        }
      }
      if !o.Done? { return; }
      o := FinishStaging(sources, progress, start);
    }

    /** Completes one copy. */
    method FinishCopy(sources: map<Name, Source>, progress: seq<Progress>, i: nat, ghost start: Disk)
      returns (o: Outcome, next: Progress)
      requires Distinct(changes) && i < |changes| == |progress| && Staging(machine.disk, sources, progress)
      requires SameRequest(sources, changes[i]) && !progress[i].Stopped?
      modifies machine
      ensures machine.disk.trees == old(machine.disk.trees) && machine.disk.receipt == old(machine.disk.receipt)
      ensures machine.disk.journal == old(machine.disk.journal)
      ensures old(Begun(machine.disk, start, Undo())) ==> Begun(machine.disk, start, Undo())
      ensures o.Done? ==> next.Staged? && Staging(machine.disk, sources, progress[i := next])
      ensures old(machine.fates) == [] && StagedAs(SourceOf(sources, changes[i]), changes[i]) ==> machine.fates == [] && o.Done?
    {
      o, next := Done, progress[i];
      while !next.Staged?
        invariant machine.disk.trees == old(machine.disk.trees) && machine.disk.receipt == old(machine.disk.receipt)
        invariant machine.disk.journal == old(machine.disk.journal)
        invariant old(Begun(machine.disk, start, Undo())) ==> Begun(machine.disk, start, Undo())
        invariant o.Done? && !next.Stopped? && Staging(machine.disk, sources, progress[i := next])
        invariant old(machine.fates) == [] && StagedAs(SourceOf(sources, changes[i]), changes[i]) ==> machine.fates == []
        decreases Remaining(SourceOf(sources, changes[i]), next), !next.Staged?
      {
        var now := progress[i := next];
        o, next := Advance(sources, now, i, start);
        assert now[i := next] == progress[i := next];
        if !o.Done? { return; }
      }
    }

    /** Completes the copies one after the other. */
    method FinishStaging(sources: map<Name, Source>, begun: seq<Progress>, ghost start: Disk) returns (o: Outcome)
      requires Distinct(changes) && |begun| == |changes| && Staging(machine.disk, sources, begun)
      requires forall i | 0 <= i < |changes| :: SameRequest(sources, changes[i]) && !begun[i].Stopped?
      modifies machine
      ensures machine.disk.trees == old(machine.disk.trees) && machine.disk.receipt == old(machine.disk.receipt)
      ensures machine.disk.journal == old(machine.disk.journal)
      ensures old(Begun(machine.disk, start, Undo())) ==> Begun(machine.disk, start, Undo())
      ensures o.Done? ==> forall i | 0 <= i < |changes| ::
                            StagedFor(machine.disk, changes[i]) && StagedAs(SourceOf(sources, changes[i]), changes[i])
      ensures old(machine.fates) == [] && Supplies(sources) ==> machine.fates == [] && o.Done?
    {
      var progress := begun;
      for i := 0 to |changes|
        invariant |progress| == |changes| && Staging(machine.disk, sources, progress)
        invariant machine.disk.trees == old(machine.disk.trees) && machine.disk.receipt == old(machine.disk.receipt)
        invariant machine.disk.journal == old(machine.disk.journal)
        invariant old(Begun(machine.disk, start, Undo())) ==> Begun(machine.disk, start, Undo())
        invariant forall j | 0 <= j < |changes| :: !progress[j].Stopped? && (j < i ==> progress[j].Staged?)
        invariant old(machine.fates) == [] && Supplies(sources) ==> machine.fates == []
      {
        var next;
        o, next := FinishCopy(sources, progress, i, start);
        if !o.Done? { return; }
        progress := progress[i := next];
      }
      o := Done;
    }
  }

  // ---------------------------------------------------------------- beginning

  /** One requested package, with the container name and the inode the system hands out for it. */
  datatype Input = Input(name: Name, source: Source, box: Name, identity: Inode)

  function Planned(d: Disk, input: Input): Change {
    Change(input.name, input.box, Lookup(d.trees, input.name),
           match input.source case Removal => None case Path(tree) => tree,
           input.identity)
  }

  ghost predicate PlannedFrom(cs: seq<Change>, inputs: seq<Input>, d: Disk) {
    |cs| == |inputs| && forall i | 0 <= i < |cs| :: cs[i] == Planned(d, inputs[i])
  }

  function AllPlanned(inputs: seq<Input>, d: Disk): seq<Change> {
    seq(|inputs|, i requires 0 <= i < |inputs| => Planned(d, inputs[i]))
  }

  function Asked(inputs: seq<Input>): seq<Name> {
    seq(|inputs|, i requires 0 <= i < |inputs| => inputs[i].name)
  }

  lemma PlannedNames(cs: seq<Change>, inputs: seq<Input>, d: Disk)
    requires PlannedFrom(cs, inputs, d)
    ensures Names(cs) == Asked(inputs)
  {
    forall i | 0 <= i < |cs| ensures Names(cs)[i] == Asked(inputs)[i] { assert cs[i] == Planned(d, inputs[i]); }
  }

  predicate NamedOnce(inputs: seq<Input>) {
    forall i, j | 0 <= i < j < |inputs| :: inputs[i].name != inputs[j].name
  }

  /** Nothing exists yet under the container names the system hands out. */
  predicate NewBoxes(d: Disk, inputs: seq<Input>) {
    && (forall i | 0 <= i < |inputs| :: inputs[i].box !in d.boxes)
    && forall i, j | 0 <= i < j < |inputs| :: inputs[i].box != inputs[j].box
  }

  /** The request is refused before anything is reserved. */
  predicate Unacceptable(d: Disk, inputs: seq<Input>) {
    d.journal.Some? || (d.receipt.Some? && |d.receipt.value| > METADATA_LIMIT) || !ValidNames(Asked(inputs))
  }

  /** A fresh, empty container for every input; trees, receipt and journal are untouched. */
  method Reserve(machine: Machine<Disk>, inputs: seq<Input>) returns (o: Outcome, changes: seq<Change>)
    requires NamedOnce(inputs)
    modifies machine
    ensures machine.disk == old(machine.disk).(boxes := machine.disk.boxes)
    ensures Distinct(changes)
    ensures forall i | 0 <= i < |changes| :: Reserved(machine.disk, changes[i])
    ensures o.Done? ==> PlannedFrom(changes, inputs, machine.disk)
    ensures old(NewBoxes(machine.disk, inputs) && machine.fates == []) ==> o.Done? && machine.fates == []
  {
    changes := [];
    for i := 0 to |inputs|
      invariant machine.disk == old(machine.disk).(boxes := machine.disk.boxes)
      invariant old(NewBoxes(machine.disk, inputs) && machine.fates == []) ==>
                  machine.fates == [] && forall j | i <= j < |inputs| :: inputs[j].box !in machine.disk.boxes
      invariant PlannedFrom(changes, inputs[..i], machine.disk) && Distinct(changes)
      invariant forall j | 0 <= j < i :: Reserved(machine.disk, changes[j])
    {
      var d := machine.disk;
      if inputs[i].box in d.boxes { return Raised(System), changes; }
      o := machine.Perform(d.(boxes := d.boxes[inputs[i].box := Box(inputs[i].identity, map[])]));
      forall j | 0 <= j < i
        ensures Reserved(machine.disk, changes[j]) && changes[j].box != inputs[i].box && changes[j].name != inputs[i].name
      {
        assert Reserved(d, changes[j]);
        assert changes[j] == Planned(d, inputs[..i][j]);
      }
      if !o.Done? { return; }
      changes := changes + [Planned(d, inputs[i])];
    }
    assert inputs[..|inputs|] == inputs;
    o := Done;
  }

  /** The record of a request, made on the disk `start`. */
  ghost predicate Requested(r: Record, inputs: seq<Input>, after: Receipt, location: string, start: Disk) {
    && PlannedFrom(r.changes, inputs, start) && r.before == start.receipt && r.after == after && r.location == location
    && ValidNames(Asked(inputs))
  }

  /** Names that differ only in case are begun like any others. */
  method Begin(machine: Machine<Disk>, inputs: seq<Input>, after: Receipt, location: string)
    returns (o: Outcome, t: PackageTransaction?, ghost r: Record)
    requires NamedOnce(inputs)
    modifies machine
    ensures machine.disk.trees == old(machine.disk.trees) && machine.disk.receipt == old(machine.disk.receipt)
    ensures old(Unacceptable(machine.disk, inputs)) ==> o == Raised(Conflict) && machine.disk == old(machine.disk)
    ensures old(!Unacceptable(machine.disk, inputs) && NewBoxes(machine.disk, inputs) && machine.fates == []) ==>
              o.Done? && machine.fates == []
    ensures o.Done? ==>
              && t != null && fresh(t) && t.machine == machine && t.Undo() == r && !t.committed
              && forall i | 0 <= i < |r.changes| :: Reserved(machine.disk, r.changes[i])
    ensures machine.disk.journal == old(machine.disk.journal)
         || (Requested(r, inputs, after, location, old(machine.disk)) && Begun(machine.disk, old(machine.disk), r))
    ensures o.Done? ==> machine.disk.journal == Some(r) && !old(Unacceptable(machine.disk, inputs))
  {
    t, r := null, Record(false, machine.disk.receipt, after, [], location);
    if Unacceptable(machine.disk, inputs) { return Raised(Conflict), null, r; }
    var receipt := machine.disk.receipt;
    var changes;
    o, changes := Reserve(machine, inputs);
    var transaction := new PackageTransaction(machine, Record(false, receipt, after, changes, location));
    if o.Done? {
      r := transaction.Undo();
      o := transaction.Save(false);
      forall i | 0 <= i < |changes|
        ensures AtBefore(machine.disk, changes[i]) && Reserved(machine.disk, changes[i])
      {
        assert changes[i] == Planned(old(machine.disk), inputs[i]);
      }
    }
    if o.Raised? {
      var abandoned := AbandonReserved(machine, changes, old(machine.disk), r);
      if !abandoned.Done? { o := abandoned; }
    }
    if o.Done? { t := transaction; }
  }

  /** Removes every reserved container, also when an interrupted write had recorded the journal. */
  method AbandonReserved(machine: Machine<Disk>, changes: seq<Change>, ghost start: Disk, ghost r: Record) returns (o: Outcome)
    requires Distinct(changes)
    modifies machine
    ensures machine.disk == old(machine.disk).(boxes := machine.disk.boxes)
    ensures r.changes == changes && old(Begun(machine.disk, start, r)) ==> Begun(machine.disk, start, r)
    ensures o.Done? || o == Raised(Interrupt) || o.Dead?
  {
    o := Done;
    for i := 0 to |changes|
      invariant machine.disk == old(machine.disk).(boxes := machine.disk.boxes)
      invariant r.changes == changes && old(Begun(machine.disk, start, r)) ==> Begun(machine.disk, start, r)
    {
      ghost var d := machine.disk;
      o := RemoveTree(machine, changes[i].box);
      if r.changes == changes && Begun(d, start, r) {
        assert AtBefore(d, r.changes[i]);
        PendingStep(machine.disk, d, start, r, i);
      }
      if o.Raised? && o.cause != Interrupt { o := Done; }
      if !o.Done? { return; }
    }
    o := Done;
  }

  // ---------------------------------------------------------------- recovery

  /** The journal, if there is one, is a record that recovery trusts. */
  predicate Recoverable(location: string, d: Disk) {
    d.journal.Some? ==> Sound(location, d.journal.value)
  }

  lemma PendingOwns(d: Disk, start: Disk, r: Record)
    requires Pending(d, start, r)
    ensures forall i | 0 <= i < |r.changes| :: Owned(d, r.changes[i])
  {
    forall i | 0 <= i < |r.changes|
      ensures Owned(d, r.changes[i])
    {
      assert Legal(d, r.changes[i]);
    }
  }

  /** Letters that differ in case at most. */
  predicate SameLetter(a: char, b: char) {
    a == b || ('A' <= a <= 'Z' && a as int + 32 == b as int) || ('a' <= a <= 'z' && a as int - 32 == b as int)
  }

  /** A record of another package root, with a name that no package can have, with two names that differ in case at most or
    * two changes in one container, or with a container that somebody has replaced. */
  ghost predicate Doubtful(location: string, d: Disk, r: Record) {
    || (r.changes != [] && r.location != location)
    || (exists i | 0 <= i < |r.changes| ::
          || r.changes[i].name == "" || |r.changes[i].name| > 64 || r.changes[i].name[0] in "_.-"
          || exists c | c in r.changes[i].name :: c < '-' || c > 'z' || c in "/:;<=>?@[\\]^`")
    || (exists i, j | 0 <= i < j < |r.changes| ::
          || r.changes[i].box == r.changes[j].box
          || (&& |r.changes[i].name| == |r.changes[j].name|
              && forall k | 0 <= k < |r.changes[i].name| :: SameLetter(r.changes[i].name[k], r.changes[j].name[k])))
    || exists i | 0 <= i < |r.changes| && r.changes[i].box in d.boxes ::
         d.boxes[r.changes[i].box].identity != r.changes[i].identity
  }

  lemma NameLetters(n: Name)
    requires ValidName(n)
    ensures 1 <= |n| <= 64 && n[0] !in "_.-" && forall c | c in n :: '-' <= c <= 'z' && c !in "/:;<=>?@[\\]^`"
  {
    assert '_' in "_.-" && '-' in "_.-";
  }

  lemma FoldsApart(a: Name, b: Name)
    requires |a| == |b| && Folded(a) != Folded(b)
    ensures exists k | 0 <= k < |a| :: !SameLetter(a[k], b[k])
  {
    var k :| 0 <= k < |a| && Folded(a)[k] != Folded(b)[k];
    assert !SameLetter(a[k], b[k]);
  }

  lemma DoubtfulIsRefused(location: string, d: Disk, r: Record)
    requires Doubtful(location, d, r) && Sound(location, r)
    ensures exists i | 0 <= i < |r.changes| :: !Owned(d, r.changes[i])
  {
    var names := Names(r.changes);
    forall i | 0 <= i < |r.changes|
      ensures 1 <= |r.changes[i].name| <= 64 && r.changes[i].name[0] !in "_.-"
      ensures forall c | c in r.changes[i].name :: '-' <= c <= 'z' && c !in "/:;<=>?@[\\]^`"
    {
      NameLetters(names[i]);
    }
    forall i, j | 0 <= i < j < |r.changes| && |r.changes[i].name| == |r.changes[j].name|
      ensures exists k | 0 <= k < |r.changes[i].name| :: !SameLetter(r.changes[i].name[k], r.changes[j].name[k])
    {
      FoldsApart(names[i], names[j]);
    }
  }

  /** Recovery trusts exactly the records that it can read and has no reason to doubt. */
  lemma TrustedExactly(location: string, d: Disk, r: Record)
    ensures Sound(location, r) && (forall i | 0 <= i < |r.changes| :: Owned(d, r.changes[i])) <==>
            Legible(r) && !Doubtful(location, d, r)
  {
    if Doubtful(location, d, r) {
      if Sound(location, r) { DoubtfulIsRefused(location, d, r); }
    } else {
      var names := Names(r.changes);
      forall i | 0 <= i < |names| ensures ValidName(names[i]) { LettersName(r.changes[i].name); }
      forall i, j | 0 <= i < j < |names|
        ensures Folded(names[i]) != Folded(names[j]) && names[i] != names[j]
      {
        assert names[i] == r.changes[i].name && names[j] == r.changes[j].name;
        if Folded(names[i]) == Folded(names[j]) { FoldsTogether(names[i], names[j]); }
      }
    }
  }

  lemma LettersName(n: Name)
    requires 1 <= |n| <= 64 && n[0] !in "_.-" && forall c | c in n :: '-' <= c <= 'z' && c !in "/:;<=>?@[\\]^`"
    ensures ValidName(n)
  {
    forall i | 0 <= i < |n|
      ensures Alphanumeric(n[i]) || n[i] in "_.-"
    {
      assert n[i] in n;
      OtherLetters(n[i]);
    }
  }

  lemma OtherLetters(c: char)
    requires '-' <= c <= 'z' && c !in "/:;<=>?@[\\]^`"
    ensures Alphanumeric(c) || c in "_.-"
  {
    var s, t := "/:;<=>?@[\\]^`", "_.-";
    assert s[0] == '/' && s[1] == ':' && s[2] == ';' && s[3] == '<' && s[4] == '=' && s[5] == '>' && s[6] == '?' && s[7] == '@';
    assert s[8] == '[' && s[9] == '\\' && s[10] == ']' && s[11] == '^' && s[12] == '`';
    assert t[0] == '_' && t[1] == '.' && t[2] == '-';
  }

  lemma FoldsTogether(a: Name, b: Name)
    requires Folded(a) == Folded(b)
    ensures |a| == |b| && forall k | 0 <= k < |a| :: SameLetter(a[k], b[k])
  {
    assert |Folded(a)| == |a| && |Folded(b)| == |b|;
    forall k | 0 <= k < |a| ensures SameLetter(a[k], b[k]) { assert Folded(a)[k] == Folded(b)[k]; }
  }

  method Recover(machine: Machine<Disk>, location: string, ghost start: Disk, ghost r: Record) returns (o: Outcome)
    modifies machine
    ensures old(machine.disk.journal) == None ==> o.Done? && machine.disk == old(machine.disk)
    ensures old(!Recoverable(location, machine.disk)) ==> o == Raised(Conflict) && machine.disk == old(machine.disk)
    ensures old(machine.disk.journal.Some? && Doubtful(location, machine.disk, machine.disk.journal.value)) ==>
              o == Raised(Conflict) && machine.disk == old(machine.disk)
    ensures old(Pending(machine.disk, start, r) && Recoverable(location, machine.disk)) ==>
              && o != Raised(Conflict)
              && (Pending(machine.disk, start, r) || Reverted(machine.disk, start, r))
              && (old(machine.fates) == [] ==> o.Done? && machine.disk.journal == None)
    ensures old(Settled(machine.disk, start, r) && Recoverable(location, machine.disk)) ==>
              && o != Raised(Conflict)
              && Settled(machine.disk, start, r)
              && (old(machine.fates) == [] ==> o.Done? && machine.disk.journal == None)
    ensures old(Forgettable(location, machine.disk, r.changes)) ==>
              && o != Raised(Conflict)
              && (Forgettable(location, machine.disk, r.changes) || (machine.disk.journal == None && Gone(machine.disk, r.changes)))
              && (old(machine.fates) == [] ==> o.Done? && machine.disk.journal == None)
    ensures old(machine.disk.journal.Some? && machine.disk.journal.value.committed) ==>
              machine.disk.trees == old(machine.disk.trees) && machine.disk.receipt == old(machine.disk.receipt)
  {
    if machine.disk.journal == None { return Done; }
    var recorded := machine.disk.journal.value;
    if !Sound(location, recorded) { return Raised(Conflict); }
    TrustedExactly(location, machine.disk, recorded);
    if Pending(machine.disk, start, r) { PendingOwns(machine.disk, start, r); }
    var changes := recorded.changes;
    for i := 0 to |changes|
      invariant machine.disk == old(machine.disk) && machine.fates == old(machine.fates)
      invariant forall j | 0 <= j < i :: Owned(machine.disk, changes[j])
    {
      if !Owned(machine.disk, changes[i]) {
        return Raised(Conflict);
      }
    }
    var transaction := new PackageTransaction(machine, recorded);
    if recorded.committed {
      o := transaction.FinishCommitted();
    } else {
      o := transaction.Rollback(start);
    }
  }

  /** Any number of recoveries, each broken off by its own script, then one that is left alone: everything ends well
    * if and only if there is no journal or recovery trusts it, and otherwise nothing ever moves again. */
  method RecoverRepeatedly(machine: Machine<Disk>, scripts: seq<seq<Fate>>, location: string, ghost start: Disk, ghost r: Record)
    returns (o: Outcome)
    requires Pending(machine.disk, start, r) || Settled(machine.disk, start, r) || Reverted(machine.disk, start, r)
    modifies machine
    ensures o.Done? <==> old(Recoverable(location, machine.disk))
    ensures o.Done? ==> machine.disk.journal == None && Gone(machine.disk, r.changes)
    ensures o.Done? && old(Settled(machine.disk, start, r)) ==> AllAfter(machine.disk, start, r)
    ensures o.Done? && !old(Settled(machine.disk, start, r)) ==> AllBefore(machine.disk, start, r)
    ensures !o.Done? ==> o == Raised(Conflict) && machine.disk == old(machine.disk)
  {
    for i := 0 to |scripts|
      invariant old(Recoverable(location, machine.disk)) ==> Recoverable(location, machine.disk)
      invariant old(!Recoverable(location, machine.disk)) ==> machine.disk == old(machine.disk)
      invariant old(Settled(machine.disk, start, r)) ==> Settled(machine.disk, start, r)
      invariant !old(Settled(machine.disk, start, r)) ==> Pending(machine.disk, start, r) || Reverted(machine.disk, start, r)
    {
      machine.fates := scripts[i];
      o := Recover(machine, location, start, r);
    }
    machine.fates := [];
    o := Recover(machine, location, start, r);
  }

  /** A recorded commit that recovery trusts; the trees and the receipt are anything. */
  ghost predicate Forgettable(location: string, d: Disk, cs: seq<Change>) {
    && d.journal.Some? && Sound(location, d.journal.value) && d.journal.value.committed && d.journal.value.changes == cs
    && forall i | 0 <= i < |cs| :: Owned(d, cs[i])
  }

  /** A recorded commit is retired by repeated recovery whatever is installed since; nothing installed is touched. */
  method ForgetRepeatedly(machine: Machine<Disk>, scripts: seq<seq<Fate>>, location: string, ghost cs: seq<Change>)
    returns (o: Outcome)
    requires Forgettable(location, machine.disk, cs)
    modifies machine
    ensures o.Done? && machine.disk.journal == None && Gone(machine.disk, cs)
    ensures machine.disk.trees == old(machine.disk.trees) && machine.disk.receipt == old(machine.disk.receipt)
  {
    ghost var d, r := machine.disk, machine.disk.journal.value;
    for i := 0 to |scripts|
      invariant Forgettable(location, machine.disk, cs) || (machine.disk.journal == None && Gone(machine.disk, cs))
      invariant machine.disk.trees == d.trees && machine.disk.receipt == d.receipt
    {
      machine.fates := scripts[i];
      o := Recover(machine, location, d, r);
    }
    machine.fates := [];
    o := Recover(machine, location, d, r);
  }

  // ---------------------------------------------------------------- journals that are never recovered

  const ROOT: string := "/packages"

  /** How the names of containers begin. */
  const PREFIX: string := ".transaction-"

  const TWINS: seq<Input> := [Input("Foo", Path(Some(map[])), PREFIX + "0f1e", Inode(1, 1)),
                              Input("foo", Path(Some(map[])), PREFIX + "2d3c", Inode(1, 2))]

  lemma TwinsFold()
    ensures NamedOnce(TWINS) && ValidNames(Asked(TWINS)) && !FoldDistinct(Asked(TWINS))
    ensures TWINS[0].box != TWINS[1].box
  {
    assert TWINS[0].name[0] != TWINS[1].name[0];
    assert Asked(TWINS)[0] == "Foo" && Asked(TWINS)[1] == "foo";
    assert Folded("Foo") == "foo" == Folded("foo");
    assert TWINS[0].box[13] != TWINS[1].box[13];
  }

  /** `Foo` and `foo` are begun; if the process is gone before anything is installed, every recovery raises. */
  method CrashedTwins(scripts: seq<seq<Fate>>) returns (machine: Machine<Disk>, o: Outcome)
    ensures machine.disk.journal.Some? && o == Raised(Conflict)
  {
    TwinsFold();
    var start := Disk(map[], map[], None, None);
    machine := new Machine(start, []);
    var t;
    ghost var r;
    o, t, r := Begin(machine, TWINS, [], ROOT);
    PlannedNames(r.changes, TWINS, start);
    o := RecoverRepeatedly(machine, scripts, ROOT, start, r);
  }

  const LONG_RECEIPT: nat := 48 * 1024 * 1024

  /** Base64 turns three bytes into four characters. */
  lemma LongReceipt(r: Record)
    requires |r.after| >= LONG_RECEIPT
    ensures !Legible(r)
  {
  }

  /** One package with a receipt of 48 MiB or more is begun; after a crash its journal is too long to be read. */
  method TooLongToRead(after: Receipt, scripts: seq<seq<Fate>>) returns (machine: Machine<Disk>, o: Outcome)
    requires |after| >= LONG_RECEIPT
    ensures machine.disk.journal.Some? && o == Raised(Conflict)
  {
    var start := Disk(map[], map[], None, None);
    machine := new Machine(start, []);
    var t;
    ghost var r;
    var inputs := [Input("foo", Path(Some(map[])), PREFIX + "0f1e", Inode(1, 1))];
    assert Asked(inputs) == ["foo"];
    o, t, r := Begin(machine, inputs, after, ROOT);
    LongReceipt(r);
    o := RecoverRepeatedly(machine, scripts, ROOT, start, r);
  }

  // ---------------------------------------------------------------- a whole life

  /** What `apply` is called with: the same names, removals as removals. */
  predicate Supplied(inputs: seq<Input>, sources: map<Name, Source>) {
    forall i | 0 <= i < |inputs| ::
      inputs[i].name in sources && (sources[inputs[i].name].Removal? <==> inputs[i].source.Removal?)
  }

  /** Nothing is in the way of the request, and every source is a tree that has not changed since it was asked for. */
  ghost predicate Undisturbed(machine: Machine<Disk>, inputs: seq<Input>, sources: map<Name, Source>, course: Course)
    reads machine
  {
    && machine.fates == [] && !course.cancelled && course.accepted
    && !Unacceptable(machine.disk, inputs) && NewBoxes(machine.disk, inputs)
    && forall i | 0 <= i < |inputs| ::
         && inputs[i].name in sources && sources[inputs[i].name] == inputs[i].source
         && (inputs[i].source.Path? ==> inputs[i].source.tree.Some?)
  }

  /** Begin, apply and commit; on the first exception the swap is rolled back, or left to the next recovery. */
  method Install(machine: Machine<Disk>, inputs: seq<Input>, after: Receipt, location: string, sources: map<Name, Source>,
                 schedule: seq<nat>, course: Course)
    returns (o: Outcome, ghost r: Record)
    requires machine.disk.journal == None && NamedOnce(inputs) && Supplied(inputs, sources)
    modifies machine
    ensures var d, start := machine.disk, old(machine.disk);
      || (d.journal == None && d.trees == start.trees && d.receipt == start.receipt && !o.Done?)
      || (&& Requested(r, inputs, after, location, start)
          && (Pending(d, start, r) || Reverted(d, start, r) || Settled(d, start, r))
          && (o.Done? ==> Settled(d, start, r)))
    ensures old(Undisturbed(machine, inputs, sources, course)) ==> o.Done? && machine.disk.journal == None
  {
    ghost var start := machine.disk;
    var t;
    o, t, r := Begin(machine, inputs, after, location);
    if !o.Done? { return; }
    forall i | 0 <= i < |t.changes|
      ensures SameRequest(sources, t.changes[i])
    {
      assert t.changes[i] == Planned(start, inputs[i]);
    }
    o := Raised(Interrupt);
    if !course.cancelled { o := t.Apply(sources, schedule, start); }
    if o.Done? && !course.accepted {
      o := Raised(System);
    } else if o.Done? {
      o := t.Commit(start);
    }
    if o.Raised? && course.undoes {
      var undone := t.Rollback(start);
    }
  }

  /** Every package and the receipt as requested: a package that is to be removed is gone, any other is the tree that was
    * found at its path; nothing else changed. */
  ghost predicate AllNew(d: Disk, start: Disk, inputs: seq<Input>, after: Receipt) {
    && (forall n | (forall i | 0 <= i < |inputs| :: inputs[i].name != n) :: Lookup(d.trees, n) == Lookup(start.trees, n))
    && (forall i | 0 <= i < |inputs| ::
          Lookup(d.trees, inputs[i].name) == match inputs[i].source case Removal => None case Path(tree) => tree)
    && d.receipt == Some(after)
  }

  ghost predicate Untouched(d: Disk, start: Disk) {
    d.trees == start.trees && d.receipt == start.receipt
  }

  /** The journal of a request, while no commit is recorded, is short enough to be read back. */
  predicate Fits(inputs: seq<Input>, after: Receipt, location: string, start: Disk) {
    Legible(Record(false, start.receipt, after, AllPlanned(inputs, start), location))
  }

  /** Recovery trusts the journal of a request exactly if the names differ after folding and it can be read back. */
  lemma RequestIsSound(r: Record, inputs: seq<Input>, after: Receipt, location: string, start: Disk, committed: bool)
    requires Requested(r, inputs, after, location, start) && !r.committed && Distinct(r.changes)
    ensures var journal := r.(committed := committed);
      && (Sound(location, journal) <==> FoldDistinct(Asked(inputs)) && Legible(journal))
      && (Fits(inputs, after, location, start) ==> Legible(journal))
  {
    PlannedNames(r.changes, inputs, start);
    assert r.changes == AllPlanned(inputs, start);
  }

  /** Crash atomicity from the first reserved container to the last recovery. A journal that a crash `left` behind is
    * recovered exactly if the names that were asked for differ in more than case and the journal can be read back. */
  method Live(machine: Machine<Disk>, inputs: seq<Input>, after: Receipt, location: string, sources: map<Name, Source>,
              schedule: seq<nat>, course: Course, restarts: seq<seq<Fate>>)
    returns (o: Outcome, recovered: Outcome, ghost left: Disk)
    requires machine.disk.journal == None && NamedOnce(inputs) && Supplied(inputs, sources)
    modifies machine
    ensures o.Done? ==> AllNew(machine.disk, old(machine.disk), inputs, after)
    ensures machine.disk.journal == None ==>
              AllNew(machine.disk, old(machine.disk), inputs, after) || Untouched(machine.disk, old(machine.disk))
    ensures left.journal == None ==> machine.disk == left
    ensures left.journal.Some? ==> (recovered.Done? <==> FoldDistinct(Asked(inputs)) && Legible(left.journal.value))
    ensures left.journal.Some? && recovered.Done? ==> machine.disk.journal == None
    ensures FoldDistinct(Asked(inputs)) && Fits(inputs, after, location, old(machine.disk)) ==>
              machine.disk.journal == None
    ensures left.journal.Some? && !recovered.Done? ==> recovered == Raised(Conflict) && machine.disk == left
    ensures old(Undisturbed(machine, inputs, sources, course)) ==> o.Done? && left.journal == None
  {
    ghost var start := machine.disk;
    ghost var r;
    o, r := Install(machine, inputs, after, location, sources, schedule, course);
    left, recovered := machine.disk, Done;
    if machine.disk.journal.Some? {
      RequestIsSound(r, inputs, after, location, start, left.journal.value.committed);
      recovered := RecoverRepeatedly(machine, restarts, location, start, r);
    }
    if Requested(r, inputs, after, location, start) { AllOrNothing(machine.disk, start, r, inputs); }
  }

  lemma AllOrNothing(d: Disk, start: Disk, r: Record, inputs: seq<Input>)
    requires PlannedFrom(r.changes, inputs, start)
    ensures AllAfter(d, start, r) ==> AllNew(d, start, inputs, r.after)
    ensures AllBefore(d, start, r) ==> d.trees == start.trees
  {
    if AllAfter(d, start, r) { AfterIsNew(d, start, r, inputs); }
    if AllBefore(d, start, r) { BeforeIsStart(d, start, r, inputs); }
  }

  lemma AfterIsNew(d: Disk, start: Disk, r: Record, inputs: seq<Input>)
    requires PlannedFrom(r.changes, inputs, start) && AllAfter(d, start, r)
    ensures AllNew(d, start, inputs, r.after)
  {
    PlannedNames(r.changes, inputs, start);
    forall n | (forall i | 0 <= i < |inputs| :: inputs[i].name != n)
      ensures Lookup(d.trees, n) == Lookup(start.trees, n)
    {
      forall i | 0 <= i < |inputs| ensures Asked(inputs)[i] != n { assert inputs[i].name != n; }
    }
    forall i | 0 <= i < |inputs|
      ensures Lookup(d.trees, inputs[i].name) == match inputs[i].source case Removal => None case Path(tree) => tree
    {
      assert Target(d, r.changes[i]) == r.changes[i].after;
    }
  }

  lemma BeforeIsStart(d: Disk, start: Disk, r: Record, inputs: seq<Input>)
    requires PlannedFrom(r.changes, inputs, start) && AllBefore(d, start, r)
    ensures d.trees == start.trees
  {
    forall n
      ensures Lookup(d.trees, n) == Lookup(start.trees, n)
    {
      if n in Names(r.changes) {
        var i :| 0 <= i < |r.changes| && Names(r.changes)[i] == n;
        assert Target(d, r.changes[i]) == r.changes[i].before;
        assert r.changes[i] == Planned(start, inputs[i]);
      }
    }
    assert forall n :: (n in d.trees <==> Lookup(d.trees, n).Some?) && (n in start.trees <==> Lookup(start.trees, n).Some?);
  }
}
