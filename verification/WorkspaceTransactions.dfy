/** Journaled batches of workspace files (raychat/workspace_transactions.py). */
module WorkspaceTransactions {
  import opened Containers
  import opened Effects
  import opened JsonText
  import opened Sequences

  datatype Part = Part(text: string)

  /** The names on the way from the workspace root. */
  type Path = seq<Part>

  /** Size and digest of a file are represented by its content. */
  datatype Version = Version(identity: Inode, content: Bytes, mode: nat)

  datatype Change = Change(
    path: Path,
    box: Path,
    boxIdentity: Inode,
    before: Option<Version>,
    backup: Option<Version>,
    after: Version)

  datatype Status = Pending | Committed | RolledBack

  /** The workspace. */
  datatype Root = Root(location: string, identity: Inode)

  datatype Record = Record(status: Status, changes: seq<Change>, root: Root)

  datatype Disk = Disk(files: map<Path, Version>, boxes: map<Path, Box<Version>>, journal: Option<Record>)

  datatype Standing = Original | Applied | Restored | Conflicting

  const WORKSPACE_FILE_MODE: nat := 438
  const CHANGE_LIMIT: nat := 4096
  const FILE_LIMIT: nat := 64 * 1024 * 1024
  const JOURNAL_LIMIT: nat := 4 * 1024 * 1024
  const STAGE_PREFIX: string := ".raychat-candidate-"
  const LOCK: Path := [Part(".raychat"), Part("filesystem.lock")]
  const JOURNAL: Path := [Part(".raychat"), Part("candidate.transaction.json")]

  // ---------------------------------------------------------------- classification

  predicate SameFile(a: Option<Version>, b: Option<Version>) {
    match (a, b)
    case (None, None) => true
    case (Some(x), Some(y)) => x.content == y.content && x.mode == y.mode
    case _ => false
  }

  function Expected(c: Change, name: string): Option<Version> {
    if name == "original" then c.backup
    else if name == "incoming" || name == "retired" then Some(c.after)
    else None
  }

  /** The container is the recorded one and holds nothing that was not put there. */
  predicate Intact(d: Disk, c: Change) {
    && c.box in d.boxes
    && d.boxes[c.box].identity == c.boxIdentity
    && forall name <- d.boxes[c.box].slots :: Expected(c, name) == Some(d.boxes[c.box].slots[name])
  }

  function Slot(d: Disk, c: Change, name: string): Option<Version> {
    if c.box in d.boxes then Lookup(d.boxes[c.box].slots, name) else None
  }

  function Classify(d: Disk, c: Change): Standing {
    var current := Lookup(d.files, c.path);
    var incoming := Slot(d, c, "incoming");
    var backup := Slot(d, c, "original");
    var retired := Slot(d, c, "retired");
    if !Intact(d, c) then Conflicting
    else if current == c.before && incoming == Some(c.after) && backup == c.backup && retired == None then Original
    else if current == Some(c.after) && incoming == None && backup == c.backup && retired == None then Applied
    else if c.before.Some? && current == c.backup && incoming == None && backup == None && retired == None then Restored
    else if c.before == None && current == None && incoming == None && retired == Some(c.after) && backup == None then Restored
    else Conflicting
  }

  predicate Distinct(cs: seq<Change>) {
    && (forall i, j | 0 <= i < j < |cs| :: cs[i].path != cs[j].path && cs[i].box != cs[j].box)
    && forall i | 0 <= i < |cs| :: SameFile(cs[i].before, cs[i].backup)
  }

  // ---------------------------------------------------------------- what recovery demands of a record

  function Word(status: Status): string {
    match status case Pending => "pending" case Committed => "committed" case RolledBack => "rolled_back"
  }

  // The lengths of `{"changes": [], "root": , "root_identity": [, ], "schema": 1, "status": ""}`,
  // of `{"after": , "backup": , "before": , "container": , "container_identity": [, ], "path": }`
  // and of `{"digest": "", "identity": [, ], "mode": , "size": }`.
  const RECORD_FRAME: nat := 75
  const CHANGE_FRAME: nat := 88
  const VERSION_FRAME: nat := 52
  const DIGEST_LENGTH: nat := 64

  function Posix(p: Path): string {
    if p == [] then "" else if |p| == 1 then p[0].text else Posix(p[..|p| - 1]) + "/" + p[|p| - 1].text
  }

  function InodeLength(i: Inode): nat {
    Digits(i.device) + Digits(i.number)
  }

  function VersionLength(v: Version): nat {
    VERSION_FRAME + DIGEST_LENGTH + InodeLength(v.identity) + Digits(v.mode) + Digits(|v.content|)
  }

  function MaybeLength(v: Option<Version>): nat {
    if v.Some? then VersionLength(v.value) else 4
  }

  function ChangeLength(c: Change): nat {
    CHANGE_FRAME + Quoted(Posix(c.path)) + Quoted(Posix(c.box)) + InodeLength(c.boxIdentity)
    + MaybeLength(c.before) + MaybeLength(c.backup) + VersionLength(c.after)
  }

  function ChangesLength(cs: seq<Change>): nat {
    if cs == [] then 0
    else ChangesLength(cs[..|cs| - 1]) + (if |cs| > 1 then 2 else 0) + ChangeLength(cs[|cs| - 1])
  }

  /** The length of the record as it is written. */
  function Length(r: Record): nat {
    RECORD_FRAME + ChangesLength(r.changes) + Quoted(r.root.location) + InodeLength(r.root.identity) + |Word(r.status)|
  }

  /** Short enough to be written, and to be read back. */
  predicate Legible(r: Record) {
    Length(r) <= JOURNAL_LIMIT
  }

  /** Paths that fold alike may name the same file. */
  function Folded(fold: string -> string, p: Path): seq<string> {
    seq(|p|, i requires 0 <= i < |p| => fold(p[i].text))
  }

  predicate FoldDistinct(fold: string -> string, paths: seq<Path>) {
    forall i, j | 0 <= i < j < |paths| :: Folded(fold, paths[i]) != Folded(fold, paths[j])
  }

  /** Neither the transaction's own files nor anything in a container. */
  predicate Public(fold: string -> string, p: Path) {
    && p != [] && Folded(fold, p) != Folded(fold, LOCK) && Folded(fold, p) != Folded(fold, JOURNAL)
    && forall i | 0 <= i < |p| :: !(STAGE_PREFIX <= fold(p[i].text))
  }

  predicate AllPublic(fold: string -> string, paths: seq<Path>) {
    forall i | 0 <= i < |paths| :: Public(fold, paths[i])
  }

  /** Containers that fold neither onto each other nor onto a file. */
  predicate BoxesApart(fold: string -> string, boxes: seq<Path>, paths: seq<Path>) {
    && FoldDistinct(fold, boxes)
    && forall i, j | 0 <= i < |boxes| && 0 <= j < |paths| :: Folded(fold, boxes[i]) != Folded(fold, paths[j])
  }

  function Paths(cs: seq<Change>): seq<Path> {
    seq(|cs|, i requires 0 <= i < |cs| => cs[i].path)
  }

  function Boxes(cs: seq<Change>): seq<Path> {
    seq(|cs|, i requires 0 <= i < |cs| => cs[i].box)
  }

  predicate Bounded(cs: seq<Change>) {
    0 < |cs| <= CHANGE_LIMIT && Distinct(cs)
  }

  /** Recovery trusts no other record. */
  predicate Trusted(fold: string -> string, root: Root, r: Record) {
    && Legible(r) && r.root == root && Bounded(r.changes)
    && FoldDistinct(fold, Paths(r.changes)) && AllPublic(fold, Paths(r.changes))
    && BoxesApart(fold, Boxes(r.changes), Paths(r.changes))
  }

  // ---------------------------------------------------------------- the two renames

  /** `incoming` becomes the public file. A missing source changes nothing. */
  function Published(d: Disk, c: Change): Disk {
    if Slot(d, c, "incoming") == None then d else
    var box := d.boxes[c.box];
    d.(files := d.files[c.path := box.slots["incoming"]],
       boxes := d.boxes[c.box := box.(slots := box.slots - {"incoming"})])
  }

  /** `original` becomes the public file again, or a file that was new moves to `retired`. */
  function Undone(d: Disk, c: Change): Disk {
    if c.before == None then
      if c.path !in d.files || c.box !in d.boxes then d else
      var box := d.boxes[c.box];
      d.(files := d.files - {c.path},
         boxes := d.boxes[c.box := box.(slots := box.slots["retired" := d.files[c.path]])])
    else if Slot(d, c, "original") == None then d else
      var box := d.boxes[c.box];
      d.(files := d.files[c.path := box.slots["original"]],
         boxes := d.boxes[c.box := box.(slots := box.slots - {"original"})])
  }

  lemma PublishStep(d: Disk, c: Change)
    requires Classify(d, c) == Original
    ensures Classify(Published(d, c), c) == Applied
  {
    var box := d.boxes[c.box];
    assert Published(d, c).boxes[c.box].slots == box.slots - {"incoming"};
  }

  lemma UndoStep(d: Disk, c: Change)
    requires Classify(d, c) == Applied && SameFile(c.before, c.backup)
    ensures Classify(Undone(d, c), c) == Restored
  {
    var box := d.boxes[c.box];
    if c.before == None {
      assert Undone(d, c).boxes[c.box].slots == box.slots["retired" := c.after];
    } else {
      assert Undone(d, c).boxes[c.box].slots == box.slots - {"original"};
    }
  }

  /** The disk after the first `|cs|` renames of `apply`. */
  function PublishAll(d: Disk, cs: seq<Change>): Disk {
    if cs == [] then d else Published(PublishAll(d, cs[..|cs| - 1]), cs[|cs| - 1])
  }

  /** The disk after `rollback` undid `cs[i..]`, last one first. */
  function UndoFrom(d: Disk, cs: seq<Change>, i: nat): Disk
    requires i <= |cs|
    decreases |cs| - i
  {
    if i == |cs| then d else Undone(UndoFrom(d, cs, i + 1), cs[i])
  }

  function AppliedOf(d: Disk, cs: seq<Change>): seq<Change> {
    if cs == [] then []
    else
      var c := cs[|cs| - 1];
      AppliedOf(d, cs[..|cs| - 1]) + (if Classify(d, c) == Applied then [c] else [])
  }

  // ---------------------------------------------------------------- what a run promises

  ghost predicate AllAfter(files: map<Path, Version>, start: map<Path, Version>, cs: seq<Change>) {
    && Elsewhere(files, start, Paths(cs))
    && forall i | 0 <= i < |cs| :: Lookup(files, cs[i].path) == Some(cs[i].after)
  }

  ghost predicate AllBefore(files: map<Path, Version>, start: map<Path, Version>, cs: seq<Change>) {
    && Elsewhere(files, start, Paths(cs))
    && forall i | 0 <= i < |cs| :: SameFile(Lookup(files, cs[i].path), cs[i].before)
  }

  /** A pending journal with every change in one of its three legal standings. */
  ghost predicate Undecided(d: Disk, start: map<Path, Version>, cs: seq<Change>) {
    && Bounded(cs)
    && Says(d.journal, Pending, cs)
    && Elsewhere(d.files, start, Paths(cs))
    && forall i | 0 <= i < |cs| :: Classify(d, cs[i]) != Conflicting
  }

  predicate Leftover(d: Disk, c: Change) {
    c.box !in d.boxes || Intact(d, c)
  }

  /** No container of the batch is left. */
  predicate Gone(d: Disk, cs: seq<Change>) {
    forall i | 0 <= i < |cs| :: cs[i].box !in d.boxes
  }

  ghost predicate Says(journal: Option<Record>, status: Status, cs: seq<Change>) {
    journal.Some? && journal.value.status == status && journal.value.changes == cs && Legible(journal.value)
  }

  /** A decision that is on disk, or was until its journal was retired. */
  ghost predicate Decided(d: Disk, start: map<Path, Version>, cs: seq<Change>, status: Status) {
    && Bounded(cs)
    && (if d.journal == None then Gone(d, cs)
        else Says(d.journal, status, cs) && forall i | 0 <= i < |cs| :: Leftover(d, cs[i]))
    && ((status == Committed && AllAfter(d.files, start, cs)) || (status == RolledBack && AllBefore(d.files, start, cs)))
  }

  lemma StandingFrame(d: Disk, d0: Disk, c: Change)
    requires Lookup(d.files, c.path) == Lookup(d0.files, c.path) && Lookup(d.boxes, c.box) == Lookup(d0.boxes, c.box)
    ensures Classify(d, c) == Classify(d0, c)
  {
    assert Slot(d, c, "incoming") == Slot(d0, c, "incoming");
    assert Slot(d, c, "original") == Slot(d0, c, "original");
    assert Slot(d, c, "retired") == Slot(d0, c, "retired");
  }

  lemma PublishFrame(d: Disk, c: Change, other: Change)
    requires c.path != other.path && c.box != other.box
    ensures Classify(Published(d, c), other) == Classify(d, other)
  {
    assert Slot(Published(d, c), other, "incoming") == Slot(d, other, "incoming");
  }

  lemma UndoFrame(d: Disk, c: Change, other: Change)
    requires c.path != other.path && c.box != other.box
    ensures Classify(Undone(d, c), other) == Classify(d, other)
  {
    assert Slot(Undone(d, c), other, "incoming") == Slot(d, other, "incoming");
  }

  lemma PathsHave(cs: seq<Change>, c: Change)
    requires c in cs
    ensures c.path in Paths(cs)
  {
    var i :| 0 <= i < |cs| && cs[i] == c;
    assert Paths(cs)[i] == c.path;
  }

  lemma {:induction false} PublishPrefix(d: Disk, cs: seq<Change>, k: nat)
    requires Distinct(cs) && k <= |cs|
    requires forall i | 0 <= i < |cs| :: Classify(d, cs[i]) == Original
    ensures Elsewhere(PublishAll(d, cs[..k]).files, d.files, Paths(cs))
    ensures PublishAll(d, cs[..k]).journal == d.journal
    ensures forall i | 0 <= i < |cs| ::
              Classify(PublishAll(d, cs[..k]), cs[i]) == if i < k then Applied else Original
  {
    if k > 0 {
      PublishPrefix(d, cs, k - 1);
      assert cs[..k][..k - 1] == cs[..k - 1];
      var last := PublishAll(d, cs[..k - 1]);
      PathsHave(cs, cs[k - 1]);
      forall i | 0 <= i < |cs|
        ensures Classify(Published(last, cs[k - 1]), cs[i]) == if i < k then Applied else Original
      {
        if i == k - 1 { PublishStep(last, cs[i]); } else { PublishFrame(last, cs[k - 1], cs[i]); }
      }
    } else {
      assert cs[..k] == [];
    }
  }

  lemma {:induction false} AppliedMembers(d: Disk, cs: seq<Change>)
    ensures forall c :: c in AppliedOf(d, cs) <==> c in cs && Classify(d, c) == Applied
    ensures Distinct(cs) ==> Distinct(AppliedOf(d, cs))
  {
    if cs != [] {
      var rest := cs[..|cs| - 1];
      AppliedMembers(d, rest);
      assert cs == rest + [cs[|cs| - 1]];
      if Distinct(cs) {
        var applied := AppliedOf(d, rest);
        forall j | 0 <= j < |applied|
          ensures applied[j].path != cs[|cs| - 1].path && applied[j].box != cs[|cs| - 1].box
        {
          assert applied[j] in rest;
        }
      }
    }
  }

  lemma UndoneElsewhere(d: Disk, start: map<Path, Version>, cs: seq<Change>, c: Change)
    requires c in cs && Elsewhere(d.files, start, Paths(cs))
    ensures Elsewhere(Undone(d, c).files, start, Paths(cs)) && Undone(d, c).journal == d.journal
  {
    PathsHave(cs, c);
  }

  lemma UndoOne(d: Disk, cs: seq<Change>, c: Change, e: Change)
    requires Distinct(cs) && c in cs && e in cs && Classify(d, c) == Applied
    ensures Classify(Undone(d, c), e) == if e == c then Restored else Classify(d, e)
  {
    if e == c { UndoStep(d, c); } else { UndoFrame(d, c, e); }
  }

  lemma {:induction false} UndoSuffix(d: Disk, cs: seq<Change>, i: nat)
    requires Distinct(cs) && i <= |AppliedOf(d, cs)|
    ensures var d' := UndoFrom(d, AppliedOf(d, cs), i);
      && Elsewhere(d'.files, d.files, Paths(cs))
      && d'.journal == d.journal
      && forall c | c in cs ::
           Classify(d', c) == if c in AppliedOf(d, cs)[i..] then Restored else Classify(d, c)
    decreases |AppliedOf(d, cs)| - i
  {
    var applied := AppliedOf(d, cs);
    AppliedMembers(d, cs);
    if i < |applied| {
      UndoSuffix(d, cs, i + 1);
      var last := UndoFrom(d, applied, i + 1);
      var c := applied[i];
      assert applied[i..] == [c] + applied[i + 1..];
      assert c in cs && c !in applied[i + 1..];
      UndoneElsewhere(last, d.files, cs, c);
      forall e | e in cs
        ensures Classify(Undone(last, c), e) == if e in applied[i..] then Restored else Classify(d, e)
      {
        UndoOne(last, cs, c, e);
      }
    }
  }

  // ---------------------------------------------------------------- reading the journal

  /** `Foreign`: another batch, or too long to be read. */
  datatype Reading = Missing | Foreign | Found(status: Status)

  function ReadStatus(d: Disk, cs: seq<Change>): Reading {
    match d.journal
    case None => Missing
    case Some(r) => if r.changes == cs && Legible(r) then Found(r.status) else Foreign
  }

  ghost predicate Ready(d: Disk, cs: seq<Change>) {
    ReadStatus(d, cs) == Found(Pending) && forall i | 0 <= i < |cs| :: Classify(d, cs[i]) == Original
  }

  ghost predicate Legal(d: Disk, cs: seq<Change>) {
    forall i | 0 <= i < |cs| :: Classify(d, cs[i]) != Conflicting
  }

  /** `apply` stopped after any number of its renames. */
  ghost predicate PartlyPublished(d: Disk, d0: Disk, cs: seq<Change>) {
    exists k: nat | k <= |cs| :: d == PublishAll(d0, cs[..k])
  }

  /** `rollback` stopped after any number of its renames. */
  ghost predicate PartlyUndone(d: Disk, d0: Disk, cs: seq<Change>) {
    exists i: nat | i <= |AppliedOf(d0, cs)| :: d == UndoFrom(d0, AppliedOf(d0, cs), i)
  }

  ghost predicate AllUndone(d: Disk, d0: Disk, cs: seq<Change>) {
    d == UndoFrom(d0, AppliedOf(d0, cs), 0)
  }

  /** Another directory lies where the container was, or something in it was not put there by the transaction. */
  ghost predicate Tampered(d: Disk, c: Change) {
    && c.box in d.boxes
    && (|| d.boxes[c.box].identity != c.boxIdentity
        || exists name <- d.boxes[c.box].slots ::
             && !(name in {"incoming", "retired"} && d.boxes[c.box].slots[name] == c.after)
             && !(name == "original" && Some(d.boxes[c.box].slots[name]) == c.backup))
  }

  /** Neither a foreign container nor an edited file is taken for one of the transaction. */
  lemma TamperedConflicts(d: Disk, c: Change)
    requires Tampered(d, c) || Lookup(d.files, c.path) !in {c.before, c.backup, Some(c.after)}
    ensures Classify(d, c) == Conflicting
  {
  }

  /** Cleanup only ever shrinks containers: nothing public, nothing new, nothing foreign. */
  ghost predicate Cleaned(d: Disk, d0: Disk, cs: seq<Change>) {
    && d.files == d0.files
    && (d.journal == d0.journal || (d.journal == None && Gone(d, cs)))
    && (forall b :: (forall i | 0 <= i < |cs| :: cs[i].box != b) ==> Lookup(d.boxes, b) == Lookup(d0.boxes, b))
    && (forall i | 0 <= i < |cs| :: Leftover(d0, cs[i]) ==> Leftover(d, cs[i]))
    && forall i | 0 <= i < |cs| :: Tampered(d0, cs[i]) ==> Lookup(d.boxes, cs[i].box) == Lookup(d0.boxes, cs[i].box)
  }

  /** Everything that is published is in its `after` version. */
  lemma CommitDecides(d: Disk, d0: Disk, start: map<Path, Version>, cs: seq<Change>, root: Root)
    requires Undecided(d0, start, cs) && Legible(Record(Committed, cs, root))
    requires forall i | 0 <= i < |cs| :: Classify(d0, cs[i]) == Applied
    requires Cleaned(d, d0.(journal := Some(Record(Committed, cs, root))), cs)
    ensures Decided(d, start, cs, Committed)
  {
    forall i | 0 <= i < |cs|
      ensures Leftover(d, cs[i])
    {
      assert Leftover(d0.(journal := Some(Record(Committed, cs, root))), cs[i]);
    }
  }

  /** Stopping `rollback` anywhere leaves a journal that recovery can still finish. */
  lemma RollbackKeepsUndecided(d: Disk, d0: Disk, start: map<Path, Version>, cs: seq<Change>)
    requires Undecided(d0, start, cs) && PartlyUndone(d, d0, cs)
    ensures Undecided(d, start, cs) && d.journal == d0.journal
  {
    var i: nat :| i <= |AppliedOf(d0, cs)| && d == UndoFrom(d0, AppliedOf(d0, cs), i);
    UndoSuffix(d0, cs, i);
  }

  lemma PublishKeepsUndecided(d: Disk, d0: Disk, start: map<Path, Version>, cs: seq<Change>)
    requires Undecided(d0, start, cs) && Ready(d0, cs) && PartlyPublished(d, d0, cs)
    ensures Undecided(d, start, cs) && d.journal == d0.journal
    ensures d == PublishAll(d0, cs) ==> forall i | 0 <= i < |cs| :: Classify(d, cs[i]) == Applied
  {
    var k: nat :| k <= |cs| && d == PublishAll(d0, cs[..k]);
    PublishPrefix(d0, cs, k);
    PublishPrefix(d0, cs, |cs|);
    assert cs[..|cs|] == cs;
  }

  /** Undoing what is published leaves every file as it was, whatever mixture it started from. */
  lemma FullyUndone(d0: Disk, start: map<Path, Version>, cs: seq<Change>)
    requires Undecided(d0, start, cs)
    ensures var undone := UndoFrom(d0, AppliedOf(d0, cs), 0);
      AllBefore(undone.files, start, cs) && forall i | 0 <= i < |cs| :: Leftover(undone, cs[i])
  {
    var undone := UndoFrom(d0, AppliedOf(d0, cs), 0);
    UndoSuffix(d0, cs, 0);
    AppliedMembers(d0, cs);
    assert AppliedOf(d0, cs)[0..] == AppliedOf(d0, cs);
    forall i | 0 <= i < |cs|
      ensures SameFile(Lookup(undone.files, cs[i].path), cs[i].before) && Leftover(undone, cs[i])
    {
      assert cs[i] in cs;
      assert Classify(undone, cs[i]) in {Original, Restored};
    }
  }

  /** A finished rollback is a decision. */
  lemma RollbackDecides(d: Disk, d0: Disk, start: map<Path, Version>, cs: seq<Change>, root: Root)
    requires Undecided(d0, start, cs) && Legible(Record(RolledBack, cs, root)) && RolledBackFrom(d, d0, cs, root)
    ensures Decided(d, start, cs, RolledBack)
  {
    var undone := UndoFrom(d0, AppliedOf(d0, cs), 0);
    FullyUndone(d0, start, cs);
    forall i | 0 <= i < |cs|
      ensures Leftover(d, cs[i])
    {
      assert Leftover(undone, cs[i]) == Leftover(undone.(journal := Some(Record(RolledBack, cs, root))), cs[i]);
    }
  }

  /** `commit` finds its own decision, or finds every file as it published it. */
  ghost predicate Accepts(d: Disk, cs: seq<Change>) {
    match ReadStatus(d, cs)
    case Foreign => false
    case Found(Committed) => true
    case _ => forall i | 0 <= i < |cs| :: Lookup(d.files, cs[i].path) == Some(cs[i].after)
  }

  ghost predicate RolledBackFrom(d: Disk, d0: Disk, cs: seq<Change>, root: Root) {
    Cleaned(d, UndoFrom(d0, AppliedOf(d0, cs), 0).(journal := Some(Record(RolledBack, cs, root))), cs)
  }

  /** A decided journal whose containers are intact or already gone. */
  ghost predicate Settling(d: Disk, cs: seq<Change>) {
    && ReadStatus(d, cs) in {Found(Committed), Found(RolledBack)}
    && forall i | 0 <= i < |cs| :: Leftover(d, cs[i])
  }

  // ---------------------------------------------------------------- the transaction

  /** Fewer files are in the container, or it is gone. */
  ghost predicate Removing(d: Disk, d0: Disk, box: Path) {
    d == d0.(boxes := d.boxes) && Shrunk(d.boxes, d0.boxes, box, true)
  }

  lemma ShrunkLeftover(d: Disk, d0: Disk, box: Path, c: Change)
    requires Removing(d, d0, box)
    ensures Leftover(d0, c) ==> Leftover(d, c)
    ensures c.box !in d0.boxes ==> c.box !in d.boxes
  {
    if c.box != box {
      assert Lookup(d.boxes, c.box) == Lookup(d0.boxes, c.box);
    }
  }

  lemma TamperedFrame(d: Disk, d0: Disk, c: Change)
    requires Tampered(d0, c) && Lookup(d.boxes, c.box) == Lookup(d0.boxes, c.box)
    ensures !Intact(d, c)
  {
  }

  /** Removing one more intact container. */
  lemma CleanedMore(d: Disk, d1: Disk, d0: Disk, cs: seq<Change>, i: nat)
    requires Distinct(cs) && i < |cs| && Cleaned(d1, d0, cs) && d1.journal == d0.journal
    requires Intact(d1, cs[i]) && Removing(d, d1, cs[i].box)
    ensures Cleaned(d, d0, cs) && d.journal == d0.journal
    ensures forall j | 0 <= j < |cs| && cs[j].box !in d1.boxes :: cs[j].box !in d.boxes
  {
    forall j | 0 <= j < |cs|
      ensures cs[j].box !in d1.boxes ==> cs[j].box !in d.boxes
      ensures Leftover(d0, cs[j]) ==> Leftover(d, cs[j])
      ensures Tampered(d0, cs[j]) ==> Lookup(d.boxes, cs[j].box) == Lookup(d0.boxes, cs[j].box)
    {
      ShrunkLeftover(d, d1, cs[i].box, cs[j]);
      if j == i && Tampered(d0, cs[i]) { TamperedFrame(d1, d0, cs[i]); }
    }
  }

  method RemoveTree(machine: Machine<Disk>, box: Path) returns (o: Outcome)
    modifies machine
    ensures Removing(machine.disk, old(machine.disk), box)
    ensures o != Raised(Conflict)
    ensures o.Done? ==> box !in machine.disk.boxes
    ensures old(machine.fates) == [] ==> machine.fates == [] && o.Done?
  {
    if box !in machine.disk.boxes { return Done; }
    var remaining := machine.disk.boxes[box].slots.Keys;
    while remaining != {}
      invariant Removing(machine.disk, old(machine.disk), box)
      invariant box in machine.disk.boxes && machine.disk.boxes[box].slots.Keys == remaining
      invariant old(machine.fates) == [] ==> machine.fates == []
      decreases remaining
    {
      var name :| name in remaining;
      var d := machine.disk;
      var emptier := d.boxes[box].(slots := d.boxes[box].slots - {name});
      o := machine.Perform(d.(boxes := d.boxes[box := emptier]));
      if !o.Done? { return; }
      remaining := remaining - {name};
    }
    o := machine.Perform(machine.disk.(boxes := machine.disk.boxes - {box}));
  }

  lemma UndoneIsLeftover(d: Disk, cs: seq<Change>, root: Root)
    requires Distinct(cs) && Legal(d, cs) && Legible(Record(RolledBack, cs, root))
    ensures Settling(UndoFrom(d, AppliedOf(d, cs), 0).(journal := Some(Record(RolledBack, cs, root))), cs)
  {
    UndoSuffix(d, cs, 0);
    var undone := UndoFrom(d, AppliedOf(d, cs), 0);
    forall i | 0 <= i < |cs|
      ensures Leftover(undone.(journal := Some(Record(RolledBack, cs, root))), cs[i])
    {
      assert cs[i] in cs && Classify(undone, cs[i]) != Conflicting;
    }
  }

  /** The published changes, or the news that one change is in no legal standing. */
  method Survey(d: Disk, cs: seq<Change>) returns (legal: bool, applied: seq<Change>)
    ensures legal <==> forall i | 0 <= i < |cs| :: Classify(d, cs[i]) != Conflicting
    ensures legal ==> applied == AppliedOf(d, cs)
  {
    applied := [];
    for i := 0 to |cs|
      invariant applied == AppliedOf(d, cs[..i])
      invariant forall j | 0 <= j < i :: Classify(d, cs[j]) != Conflicting
    {
      var standing := Classify(d, cs[i]);
      if standing == Conflicting { return false, applied; }
      assert cs[..i + 1][..i] == cs[..i];
      if standing == Applied { applied := applied + [cs[i]]; }
    }
    assert cs[..|cs|] == cs;
    legal := true;
  }

  /** The journal says pending, and nothing has been renamed yet. */
  method IsReady(d: Disk, cs: seq<Change>) returns (ready: bool)
    ensures ready <==> Ready(d, cs)
  {
    if ReadStatus(d, cs) != Found(Pending) { return false; }
    for i := 0 to |cs|
      invariant forall j | 0 <= j < i :: Classify(d, cs[j]) == Original
    {
      if Classify(d, cs[i]) != Original { return false; }
    }
    ready := true;
  }

  class WorkspaceTransaction {
    const machine: Machine<Disk>
    const root: Root
    var changes: seq<Change>
    var status: Status

    constructor (machine: Machine<Disk>, r: Record)
      ensures this.machine == machine && this.Writing(this.status) == r
    {
      this.machine := machine;
      this.root := r.root;
      this.changes := r.changes;
      this.status := r.status;
    }

    /** The record that announces a status. */
    function Writing(status: Status): Record
      reads this
    {
      Record(status, changes, root)
    }

    /** The in-memory status follows the journal only when the write returned; a long record is never written. */
    method Save(next: Status) returns (o: Outcome)
      requires Distinct(changes)
      modifies machine, `status
      ensures machine.disk in {old(machine.disk), old(machine.disk).(journal := Some(Writing(next)))}
      ensures status == if o.Done? then next else old(status)
      ensures o.Done? ==> machine.disk == old(machine.disk).(journal := Some(Writing(next)))
      ensures o == Raised(Conflict) <==> !Legible(Writing(next))
      ensures !Legible(Writing(next)) ==> machine.disk == old(machine.disk)
      ensures old(machine.fates) == [] ==> machine.fates == [] && (o.Done? || !Legible(Writing(next)))
    {
      if !Legible(Writing(next)) { return Raised(Conflict); }
      o := machine.Perform(machine.disk.(journal := Some(Writing(next))));
      if o.Done? { status := next; }
    }

    method Apply() returns (o: Outcome)
      requires Distinct(changes)
      modifies machine
      ensures !old(Ready(machine.disk, changes)) ==> o == Raised(Conflict) && machine.disk == old(machine.disk)
      ensures old(machine.disk.journal.Some? && machine.disk.journal.value.changes != changes) ==>
                o == Raised(Conflict) && machine.disk == old(machine.disk)
      ensures old(Ready(machine.disk, changes)) ==>
                && o != Raised(Conflict)
                && PartlyPublished(machine.disk, old(machine.disk), changes)
                && (o.Done? ==> machine.disk == PublishAll(old(machine.disk), changes))
                && (old(machine.fates) == [] ==> machine.fates == [] && o.Done?)
    {
      var ready := IsReady(machine.disk, changes);
      if !ready { return Raised(Conflict); }
      ghost var d0 := machine.disk;
      assert PublishAll(d0, changes[..0]) == d0;
      for i := 0 to |changes|
        invariant machine.disk == PublishAll(d0, changes[..i])
        invariant old(machine.fates) == [] ==> machine.fates == []
      {
        PublishPrefix(d0, changes, i);
        assert changes[..i + 1][..i] == changes[..i];
        o := machine.Perform(Published(machine.disk, changes[i]));
        if !o.Done? { return; }
      }
      assert changes[..|changes|] == changes;
      o := Done;
    }

    /** Removes the containers that are intact; the first one that is not raises. */
    method RemoveBoxes() returns (o: Outcome)
      requires Distinct(changes)
      modifies machine
      ensures Cleaned(machine.disk, old(machine.disk), changes) && machine.disk.journal == old(machine.disk.journal)
      ensures o.Done? ==> Gone(machine.disk, changes)
      ensures old(forall i | 0 <= i < |changes| :: Leftover(machine.disk, changes[i])) ==> o != Raised(Conflict)
      ensures old(machine.fates) == [] ==> machine.fates == [] && (o.Done? || o == Raised(Conflict))
    {
      for i := 0 to |changes|
        invariant Cleaned(machine.disk, old(machine.disk), changes) && machine.disk.journal == old(machine.disk.journal)
        invariant forall j | 0 <= j < i :: changes[j].box !in machine.disk.boxes
        invariant old(machine.fates) == [] ==> machine.fates == []
      {
        var c := changes[i];
        if c.box in machine.disk.boxes {
          if !Intact(machine.disk, c) { return Raised(Conflict); }
          ghost var d := machine.disk;
          o := RemoveTree(machine, c.box);
          CleanedMore(machine.disk, d, old(machine.disk), changes, i);
          if !o.Done? { return; }
        }
      }
      o := Done;
    }

    method Cleanup() returns (o: Outcome)
      requires Distinct(changes)
      modifies machine
      ensures Cleaned(machine.disk, old(machine.disk), changes)
      ensures old(ReadStatus(machine.disk, changes)) != Found(status) ==> machine.disk.journal == old(machine.disk.journal)
      ensures o.Done? ==> machine.disk.journal == None && Gone(machine.disk, changes)
      ensures old(&& ReadStatus(machine.disk, changes) == Found(status)
                  && forall i | 0 <= i < |changes| :: Leftover(machine.disk, changes[i])) ==>
                o != Raised(Conflict) && (old(machine.fates) == [] ==> o.Done?)
      ensures old(machine.fates) == [] ==> machine.fates == [] && (o.Done? || o == Raised(Conflict))
    {
      o := RemoveBoxes();
      if !o.Done? { return; }
      if ReadStatus(machine.disk, changes) != Found(status) { return Raised(Conflict); }
      o := machine.Perform(machine.disk.(journal := None));
    }

    /** Cleanup whose refusals and system errors are only logged. */
    method Finish() returns (o: Outcome)
      requires Distinct(changes)
      modifies machine
      ensures Cleaned(machine.disk, old(machine.disk), changes)
      ensures old(ReadStatus(machine.disk, changes)) != Found(status) ==> machine.disk.journal == old(machine.disk.journal)
      ensures o.Done? || o == Raised(Interrupt) || o.Dead?
      ensures old(machine.fates) == [] ==> machine.fates == [] && o.Done?
      ensures old(&& machine.fates == [] && ReadStatus(machine.disk, changes) == Found(status)
                  && forall i | 0 <= i < |changes| :: Leftover(machine.disk, changes[i])) ==>
                machine.disk.journal == None && Gone(machine.disk, changes)
    {
      o := Cleanup();
      if o.Raised? && o.cause != Interrupt { o := Done; }
    }

    /** Every change is at its new content. */
    method IsPublished() returns (ok: bool)
      ensures ok <==> forall i | 0 <= i < |changes| :: Lookup(machine.disk.files, changes[i].path) == Some(changes[i].after)
    {
      for i := 0 to |changes|
        invariant forall j | 0 <= j < i :: Lookup(machine.disk.files, changes[j].path) == Some(changes[j].after)
      {
        if Lookup(machine.disk.files, changes[i].path) != Some(changes[i].after) { return false; }
      }
      ok := true;
    }

    /** Once the decision is on disk nothing public is written again, not even by a failed commit. */
    method Commit() returns (o: Outcome)
      requires Distinct(changes)
      modifies machine, `status
      ensures old(status) == Committed ==> o.Done? && machine.disk == old(machine.disk)
      ensures machine.disk == old(machine.disk)
           || Cleaned(machine.disk, old(machine.disk).(journal := Some(Writing(Committed))), changes)
           || (old(ReadStatus(machine.disk, changes)) == Found(Committed) && Cleaned(machine.disk, old(machine.disk), changes))
      ensures old(status) != Committed && old(!Accepts(machine.disk, changes)) ==>
                o == Raised(Conflict) && machine.disk == old(machine.disk)
      ensures !Legible(Writing(Committed)) && old(status != Committed && ReadStatus(machine.disk, changes) != Found(Committed)) ==>
                o == Raised(Conflict) && machine.disk == old(machine.disk)
      ensures old(status) != Committed && old(Accepts(machine.disk, changes)) && Legible(Writing(Committed)) ==>
                o != Raised(Conflict)
      ensures old(status) != Committed && old(ReadStatus(machine.disk, changes)) == Found(Pending) && o.Done? ==>
                && Legible(Writing(Committed))
                && Cleaned(machine.disk, old(machine.disk).(journal := Some(Writing(Committed))), changes)
      ensures status in {old(status), Committed}
      ensures old(&& machine.fates == [] && status != Committed && ReadStatus(machine.disk, changes) == Found(Pending)
                  && Accepts(machine.disk, changes) && Legible(Writing(Committed))
                  && forall i | 0 <= i < |changes| :: Leftover(machine.disk, changes[i])) ==>
                o.Done? && machine.disk.journal == None && Gone(machine.disk, changes)
    {
      if status == Committed { return Done; }
      var reading := ReadStatus(machine.disk, changes);
      if reading == Foreign { return Raised(Conflict); }
      if reading != Found(Committed) {
        var complete := IsPublished();
        if !complete { return Raised(Conflict); }
        ghost var published := machine.disk;
        o := Save(Committed);
        if !o.Done? { return; }
        forall i | 0 <= i < |changes|
          ensures Leftover(machine.disk, changes[i]) == Leftover(published, changes[i])
        {
        }
      }
      status := Committed;
      o := Finish();
    }

    /** Undoes the published changes in reverse order. */
    method Restore(applied: seq<Change>) returns (o: Outcome)
      requires Distinct(changes) && applied == AppliedOf(machine.disk, changes)
      modifies machine
      ensures PartlyUndone(machine.disk, old(machine.disk), changes)
      ensures o.Done? ==> machine.disk == UndoFrom(old(machine.disk), applied, 0)
      ensures o != Raised(Conflict)
      ensures old(machine.fates) == [] ==> machine.fates == [] && o.Done?
    {
      ghost var d0 := machine.disk;
      var i := |applied|;
      while i > 0
        invariant 0 <= i <= |applied|
        invariant machine.disk == UndoFrom(d0, applied, i)
        invariant old(machine.fates) == [] ==> machine.fates == []
      {
        o := machine.Perform(Undone(machine.disk, applied[i - 1]));
        if !o.Done? {
          assert machine.disk in {UndoFrom(d0, applied, i), UndoFrom(d0, applied, i - 1)};
          return;
        }
        i := i - 1;
      }
      o := Done;
    }

    method Rollback() returns (o: Outcome)
      requires Distinct(changes)
      modifies machine, `status
      ensures old(status) != Pending ==> o.Done? && machine.disk == old(machine.disk)
      ensures old(status == Pending && machine.disk.journal.Some? && machine.disk.journal.value.changes != changes) ==>
                o == Raised(Conflict) && machine.disk == old(machine.disk)
      ensures old(status) == Pending ==>
                match old(ReadStatus(machine.disk, changes))
                case Missing => o == Raised(Conflict) && machine.disk == old(machine.disk)
                case Foreign => o == Raised(Conflict) && machine.disk == old(machine.disk)
                case Found(Pending) =>
                  if !old(Legal(machine.disk, changes)) then o == Raised(Conflict) && machine.disk == old(machine.disk)
                  else if Legible(Writing(RolledBack)) then
                    && o != Raised(Conflict)
                    && (|| PartlyUndone(machine.disk, old(machine.disk), changes)
                        || RolledBackFrom(machine.disk, old(machine.disk), changes, root))
                    && (o.Done? ==> RolledBackFrom(machine.disk, old(machine.disk), changes, root))
                    && (old(machine.fates) == [] ==> o.Done? && machine.disk.journal == None)
                  else
                    && !o.Done? && PartlyUndone(machine.disk, old(machine.disk), changes)
                    && (old(machine.fates) == [] ==> o == Raised(Conflict) && AllUndone(machine.disk, old(machine.disk), changes))
                case Found(decision) => Cleaned(machine.disk, old(machine.disk), changes) && o != Raised(Conflict)
      ensures old(machine.fates) == [] && old(Settling(machine.disk, changes)) && old(status) == Pending ==>
                o.Done? && machine.disk.journal == None
    {
      if status != Pending { return Done; }
      var reading := ReadStatus(machine.disk, changes);
      if !reading.Found? { return Raised(Conflict); }
      status := reading.status;
      if status == Pending {
        var legal, applied := Survey(machine.disk, changes);
        if !legal { return Raised(Conflict); }
        o := Restore(applied);
        if !o.Done? { return; }
        if Legible(Writing(RolledBack)) { UndoneIsLeftover(old(machine.disk), changes, root); }
        o := Save(RolledBack);
        if !o.Done? { return; }
      }
      o := Finish();
    }
  }

  // ---------------------------------------------------------------- recovery

  predicate Recoverable(fold: string -> string, root: Root, d: Disk) {
    d.journal.Some? ==> Trusted(fold, root, d.journal.value)
  }

  /** A record of another workspace, without changes or with too many of them, or with a change whose backup is another file
    * or whose path is reserved or folds onto that of another change or of a container. */
  ghost predicate Misplaced(fold: string -> string, root: Root, r: Record) {
    || r.root != root || r.changes == [] || |r.changes| > 4096
    || (exists i | 0 <= i < |r.changes| :: !SameFile(r.changes[i].before, r.changes[i].backup))
    || (exists i | 0 <= i < |r.changes| ::
          || r.changes[i].path == []
          || Folded(fold, r.changes[i].path) in {Folded(fold, LOCK), Folded(fold, JOURNAL)}
          || exists part <- r.changes[i].path :: STAGE_PREFIX <= fold(part.text))
    || (exists i, j | 0 <= i < j < |r.changes| ::
          || Folded(fold, r.changes[i].path) == Folded(fold, r.changes[j].path)
          || Folded(fold, r.changes[i].box) == Folded(fold, r.changes[j].box))
    || exists i, j | 0 <= i < |r.changes| && 0 <= j < |r.changes| ::
         Folded(fold, r.changes[i].box) == Folded(fold, r.changes[j].path)
  }

  lemma MisplacedIsUntrusted(fold: string -> string, root: Root, r: Record)
    requires Misplaced(fold, root, r)
    ensures !Trusted(fold, root, r)
  {
    var paths, boxes := Paths(r.changes), Boxes(r.changes);
    if Trusted(fold, root, r) {
      forall i | 0 <= i < |r.changes|
        ensures r.changes[i].path != [] && Folded(fold, r.changes[i].path) !in {Folded(fold, LOCK), Folded(fold, JOURNAL)}
        ensures !exists part <- r.changes[i].path :: STAGE_PREFIX <= fold(part.text)
      {
        assert Public(fold, paths[i]);
      }
      forall i, j | 0 <= i < j < |r.changes|
        ensures Folded(fold, r.changes[i].path) != Folded(fold, r.changes[j].path)
        ensures Folded(fold, r.changes[i].box) != Folded(fold, r.changes[j].box)
      {
        assert Folded(fold, paths[i]) != Folded(fold, paths[j]) && Folded(fold, boxes[i]) != Folded(fold, boxes[j]);
      }
      forall i, j | 0 <= i < |r.changes| && 0 <= j < |r.changes|
        ensures Folded(fold, r.changes[i].box) != Folded(fold, r.changes[j].path)
      {
        assert Folded(fold, boxes[i]) != Folded(fold, paths[j]);
      }
      assert false;
    }
  }

  /** Recovery trusts every other record that it can read. */
  lemma TrustedExactly(fold: string -> string, root: Root, r: Record)
    ensures Trusted(fold, root, r) <==> Legible(r) && !Misplaced(fold, root, r)
  {
    if Misplaced(fold, root, r) {
      MisplacedIsUntrusted(fold, root, r);
    } else {
      PlacedPaths(fold, root, r);
      PlacedBoxes(fold, root, r);
      PlacedChanges(fold, root, r);
    }
  }

  lemma PlacedPaths(fold: string -> string, root: Root, r: Record)
    requires !Misplaced(fold, root, r)
    ensures AllPublic(fold, Paths(r.changes)) && FoldDistinct(fold, Paths(r.changes))
  {
    var paths := Paths(r.changes);
    forall i | 0 <= i < |paths|
      ensures Public(fold, paths[i])
    {
      assert paths[i] == r.changes[i].path;
      forall k | 0 <= k < |paths[i]| ensures !(STAGE_PREFIX <= fold(paths[i][k].text)) { assert paths[i][k] in r.changes[i].path; }
    }
    forall i, j | 0 <= i < j < |paths|
      ensures Folded(fold, paths[i]) != Folded(fold, paths[j])
    {
      assert paths[i] == r.changes[i].path && paths[j] == r.changes[j].path;
    }
  }

  lemma PlacedBoxes(fold: string -> string, root: Root, r: Record)
    requires !Misplaced(fold, root, r)
    ensures BoxesApart(fold, Boxes(r.changes), Paths(r.changes))
  {
    var paths, boxes := Paths(r.changes), Boxes(r.changes);
    forall i, j | 0 <= i < j < |boxes|
      ensures Folded(fold, boxes[i]) != Folded(fold, boxes[j])
    {
      assert boxes[i] == r.changes[i].box && boxes[j] == r.changes[j].box;
    }
    forall i, j | 0 <= i < |boxes| && 0 <= j < |paths|
      ensures Folded(fold, boxes[i]) != Folded(fold, paths[j])
    {
      assert boxes[i] == r.changes[i].box && paths[j] == r.changes[j].path;
    }
  }

  lemma PlacedChanges(fold: string -> string, root: Root, r: Record)
    requires !Misplaced(fold, root, r)
    ensures Bounded(r.changes)
  {
    forall i, j | 0 <= i < j < |r.changes|
      ensures r.changes[i].path != r.changes[j].path && r.changes[i].box != r.changes[j].box
    {
      assert Folded(fold, r.changes[i].path) != Folded(fold, r.changes[j].path);
      assert Folded(fold, r.changes[i].box) != Folded(fold, r.changes[j].box);
    }
  }

  /** `rolled_back` is longer than `pending`, so a pending record can be too long to be replaced. */
  predicate Replaceable(d: Disk) {
    d.journal.Some? && d.journal.value.status == Pending ==> Legible(d.journal.value.(status := RolledBack))
  }

  /** However far a rollback came, the batch is still undecided or is rolled back. */
  lemma RollbackKnown(d: Disk, d0: Disk, start: map<Path, Version>, cs: seq<Change>, root: Root)
    requires Undecided(d0, start, cs)
    requires || PartlyUndone(d, d0, cs)
             || (Legible(Record(RolledBack, cs, root)) && RolledBackFrom(d, d0, cs, root))
    ensures Undecided(d, start, cs) || Decided(d, start, cs, RolledBack)
    ensures PartlyUndone(d, d0, cs) ==> Undecided(d, start, cs)
    ensures d.journal in {None, d0.journal, Some(Record(RolledBack, cs, root))}
    ensures AllUndone(d, d0, cs) ==> AllBefore(d.files, start, cs)
  {
    FullyUndone(d0, start, cs);
    UndoSuffix(d0, cs, 0);
    if PartlyUndone(d, d0, cs) {
      RollbackKeepsUndecided(d, d0, start, cs);
    } else {
      RollbackDecides(d, d0, start, cs, root);
    }
  }

  /** Cleaning up does not touch a decision. */
  lemma CleanedKeepsDecided(d: Disk, d0: Disk, start: map<Path, Version>, cs: seq<Change>, status: Status)
    requires Decided(d0, start, cs, status) && Cleaned(d, d0, cs) && d0.journal.Some?
    ensures Decided(d, start, cs, status)
  {
  }

  /** Rolls a pending record back. */
  method RecoverPending(machine: Machine<Disk>, recorded: Record, ghost start: map<Path, Version>, ghost cs: seq<Change>)
    returns (o: Outcome)
    requires machine.disk.journal == Some(recorded) && recorded.status == Pending
    requires Legible(recorded) && Distinct(recorded.changes)
    modifies machine
    ensures old(Undecided(machine.disk, start, cs) && Replaceable(machine.disk)) ==>
              && o != Raised(Conflict)
              && (Undecided(machine.disk, start, cs) || Decided(machine.disk, start, cs, RolledBack))
              && (old(machine.fates) == [] ==> o.Done? && machine.disk.journal == None)
    ensures old(Undecided(machine.disk, start, cs) && !Replaceable(machine.disk)) ==>
              && !o.Done? && Undecided(machine.disk, start, cs)
              && (old(machine.fates) == [] ==> o == Raised(Conflict) && AllBefore(machine.disk.files, start, cs))
    ensures machine.disk.journal in {None, Some(recorded), Some(recorded.(status := RolledBack))}
    ensures old(!Legal(machine.disk, recorded.changes)) ==> o == Raised(Conflict) && machine.disk == old(machine.disk)
  {
    var transaction := new WorkspaceTransaction(machine, recorded);
    ghost var d0 := machine.disk;
    o := transaction.Rollback();
    forall k: nat | k <= |AppliedOf(d0, recorded.changes)| { UndoSuffix(d0, recorded.changes, k); }
    if Undecided(d0, start, cs) { RollbackKnown(machine.disk, d0, start, cs, recorded.root); }
  }

  /** A recorded decision that recovery trusts, with containers that only cleanup has touched; the files are anything. */
  ghost predicate Forgettable(fold: string -> string, root: Root, d: Disk, cs: seq<Change>) {
    && d.journal.Some? && Trusted(fold, root, d.journal.value)
    && d.journal.value.status != Pending && d.journal.value.changes == cs
    && forall i | 0 <= i < |cs| :: Leftover(d, cs[i])
  }

  /** Finishes whatever the journal asks for; `start` and `cs` only name the batch in the contract. */
  method Recover(machine: Machine<Disk>, fold: string -> string, root: Root, ghost start: map<Path, Version>, ghost cs: seq<Change>)
    returns (o: Outcome)
    modifies machine
    ensures old(machine.disk.journal) == None ==> o.Done? && machine.disk == old(machine.disk)
    ensures old(!Recoverable(fold, root, machine.disk)) ==> o == Raised(Conflict) && machine.disk == old(machine.disk)
    ensures old(machine.disk.journal.Some? && Misplaced(fold, root, machine.disk.journal.value)) ==>
              o == Raised(Conflict) && machine.disk == old(machine.disk)
    ensures old(Recoverable(fold, root, machine.disk) && Undecided(machine.disk, start, cs) && Replaceable(machine.disk)) ==>
              && o != Raised(Conflict)
              && (Undecided(machine.disk, start, cs) || Decided(machine.disk, start, cs, RolledBack))
              && (old(machine.fates) == [] ==> o.Done? && machine.disk.journal == None)
    ensures old(Recoverable(fold, root, machine.disk) && Undecided(machine.disk, start, cs) && !Replaceable(machine.disk)) ==>
              && !o.Done? && Undecided(machine.disk, start, cs)
              && (old(machine.fates) == [] ==> o == Raised(Conflict) && AllBefore(machine.disk.files, start, cs))
    ensures forall status | old(Recoverable(fold, root, machine.disk) && Decided(machine.disk, start, cs, status)) ::
              && o != Raised(Conflict)
              && Decided(machine.disk, start, cs, status)
              && (old(machine.fates) == [] ==> o.Done? && machine.disk.journal == None)
    ensures old(Forgettable(fold, root, machine.disk, cs)) ==>
              && o != Raised(Conflict)
              && (Forgettable(fold, root, machine.disk, cs) || (machine.disk.journal == None && Gone(machine.disk, cs)))
              && (old(machine.fates) == [] ==> o.Done? && machine.disk.journal == None)
    ensures machine.disk.journal.Some? ==>
              machine.disk.journal in {old(machine.disk.journal), Some(old(machine.disk.journal.value).(status := RolledBack))}
    ensures old(machine.disk.journal.Some? && machine.disk.journal.value.status != Pending) ==>
              machine.disk.files == old(machine.disk.files)
    ensures old(&& machine.disk.journal.Some? && machine.disk.journal.value.status == Pending
                && !Legal(machine.disk, machine.disk.journal.value.changes)) ==>
              o == Raised(Conflict) && machine.disk == old(machine.disk)
  {
    if machine.disk.journal == None { return Done; }
    var recorded := machine.disk.journal.value;
    if Misplaced(fold, root, recorded) { MisplacedIsUntrusted(fold, root, recorded); }
    if !Trusted(fold, root, recorded) { return Raised(Conflict); }
    if recorded.status == Pending {
      o := RecoverPending(machine, recorded, start, cs);
    } else {
      ghost var d0 := machine.disk;
      var transaction := new WorkspaceTransaction(machine, recorded);
      o := transaction.Finish();
      if Decided(d0, start, cs, recorded.status) { CleanedKeepsDecided(machine.disk, d0, start, cs, recorded.status); }
    }
  }

  /** A batch that was recorded, and perhaps decided. */
  ghost predicate Known(d: Disk, start: map<Path, Version>, cs: seq<Change>) {
    Undecided(d, start, cs) || Decided(d, start, cs, Committed) || Decided(d, start, cs, RolledBack)
  }

  /** Any number of recoveries, each broken off by its own script, then one that is left alone. It ends the batch if and
    * only if recovery trusts the record and the rolled-back record, where one is needed, is short enough; the files are
    * all old or all new even where the record stays. */
  method RecoverRepeatedly(machine: Machine<Disk>, scripts: seq<seq<Fate>>, fold: string -> string, root: Root,
                           ghost start: map<Path, Version>, ghost cs: seq<Change>)
    returns (o: Outcome)
    requires Known(machine.disk, start, cs)
    modifies machine
    ensures o.Done? <==> old(Recoverable(fold, root, machine.disk) && Replaceable(machine.disk))
    ensures o.Done? ==> machine.disk.journal == None && Gone(machine.disk, cs)
    ensures !o.Done? ==> o == Raised(Conflict) && machine.disk.journal == old(machine.disk.journal)
    ensures !old(Recoverable(fold, root, machine.disk)) ==> machine.disk == old(machine.disk)
    ensures old(Recoverable(fold, root, machine.disk) && Undecided(machine.disk, start, cs)) ==>
              AllBefore(machine.disk.files, start, cs)
    ensures old(Decided(machine.disk, start, cs, RolledBack)) ==> AllBefore(machine.disk.files, start, cs)
    ensures old(Decided(machine.disk, start, cs, Committed)) ==> AllAfter(machine.disk.files, start, cs)
  {
    for i := 0 to |scripts|
      invariant !old(Recoverable(fold, root, machine.disk)) ==> machine.disk == old(machine.disk)
      invariant old(Recoverable(fold, root, machine.disk)) ==> Recoverable(fold, root, machine.disk)
      invariant old(Undecided(machine.disk, start, cs)) ==>
                  Undecided(machine.disk, start, cs) || Decided(machine.disk, start, cs, RolledBack)
      invariant old(Undecided(machine.disk, start, cs) && !Replaceable(machine.disk)) ==>
                  Undecided(machine.disk, start, cs) && machine.disk.journal == old(machine.disk.journal)
      invariant old(Undecided(machine.disk, start, cs) && Replaceable(machine.disk)) ==> Replaceable(machine.disk)
      invariant forall status | old(Decided(machine.disk, start, cs, status)) :: Decided(machine.disk, start, cs, status)
    {
      machine.fates := scripts[i];
      o := Recover(machine, fold, root, start, cs);
    }
    machine.fates := [];
    o := Recover(machine, fold, root, start, cs);
  }

  /** A recorded decision is retired by repeated recovery whatever the files have become since; none is touched. */
  method ForgetRepeatedly(machine: Machine<Disk>, scripts: seq<seq<Fate>>, fold: string -> string, root: Root,
                          ghost cs: seq<Change>)
    returns (o: Outcome)
    requires Forgettable(fold, root, machine.disk, cs)
    modifies machine
    ensures o.Done? && machine.disk.journal == None && Gone(machine.disk, cs)
    ensures machine.disk.files == old(machine.disk.files)
  {
    for i := 0 to |scripts|
      invariant Forgettable(fold, root, machine.disk, cs) || (machine.disk.journal == None && Gone(machine.disk, cs))
      invariant machine.disk.files == old(machine.disk.files)
    {
      machine.fates := scripts[i];
      o := Recover(machine, fold, root, machine.disk.files, cs);
    }
    machine.fates := [];
    o := Recover(machine, fold, root, machine.disk.files, cs);
  }

  // ---------------------------------------------------------------- staging

  /** One requested file: its new content and the content it is believed to have. */
  datatype Input = Input(path: Path, data: Bytes, original: Option<Bytes>)

  /** The random part of the container's name and the inode numbers the system hands out for one input. */
  datatype Scratch = Scratch(name: string, identity: Inode, incoming: Inode, original: Inode)

  /** The container lies beside the file. */
  function BoxFor(p: Path, name: string): Path {
    (if p == [] then [] else p[..|p| - 1]) + [Part(STAGE_PREFIX + name)]
  }

  function ContentAt(files: map<Path, Version>, p: Path): Option<Bytes> {
    if p in files then Some(files[p].content) else None
  }

  /** The change that is recorded for an input, among these files and with what the system hands out. */
  function Planned(files: map<Path, Version>, input: Input, scratch: Scratch): Change {
    var mode := if input.path in files then files[input.path].mode else WORKSPACE_FILE_MODE;
    Change(input.path, BoxFor(input.path, scratch.name), scratch.identity, Lookup(files, input.path),
           if input.original.Some? then Some(Version(scratch.original, input.original.value, mode)) else None,
           Version(scratch.incoming, input.data, mode))
  }

  function AllPlanned(files: map<Path, Version>, inputs: seq<Input>, scratch: seq<Scratch>): seq<Change>
    requires |scratch| == |inputs|
  {
    seq(|inputs|, i requires 0 <= i < |inputs| => Planned(files, inputs[i], scratch[i]))
  }

  ghost predicate Requested(cs: seq<Change>, inputs: seq<Input>, scratch: seq<Scratch>, files: map<Path, Version>) {
    |cs| == |inputs| == |scratch| && forall i | 0 <= i < |cs| :: cs[i] == Planned(files, inputs[i], scratch[i])
  }

  function Asked(inputs: seq<Input>): seq<Path> {
    seq(|inputs|, i requires 0 <= i < |inputs| => inputs[i].path)
  }

  function HandedOut(inputs: seq<Input>, scratch: seq<Scratch>): seq<Path>
    requires |scratch| == |inputs|
  {
    seq(|inputs|, i requires 0 <= i < |inputs| => BoxFor(inputs[i].path, scratch[i].name))
  }

  lemma RequestedPaths(cs: seq<Change>, inputs: seq<Input>, scratch: seq<Scratch>, files: map<Path, Version>)
    requires Requested(cs, inputs, scratch, files)
    ensures Paths(cs) == Asked(inputs) && Boxes(cs) == HandedOut(inputs, scratch)
  {
    forall i | 0 <= i < |cs|
      ensures Paths(cs)[i] == Asked(inputs)[i] && Boxes(cs)[i] == HandedOut(inputs, scratch)[i]
    {
      assert cs[i] == Planned(files, inputs[i], scratch[i]);
    }
  }

  /** The record of a request, with this status, is short enough. */
  predicate Fits(status: Status, files: map<Path, Version>, inputs: seq<Input>, scratch: seq<Scratch>, root: Root)
    requires |scratch| == |inputs|
  {
    Legible(Record(status, AllPlanned(files, inputs, scratch), root))
  }

  lemma RecordFits(cs: seq<Change>, inputs: seq<Input>, scratch: seq<Scratch>, files: map<Path, Version>, status: Status,
                   root: Root)
    requires Requested(cs, inputs, scratch, files)
    ensures Legible(Record(status, cs, root)) <==> Fits(status, files, inputs, scratch, root)
  {
    assert cs == AllPlanned(files, inputs, scratch);
  }

  lemma CommittedFits(files: map<Path, Version>, inputs: seq<Input>, scratch: seq<Scratch>, root: Root)
    requires |scratch| == |inputs| && Fits(Committed, files, inputs, scratch, root)
    ensures Fits(Pending, files, inputs, scratch, root)
  {
    assert |Word(Pending)| < |Word(Committed)|;
  }

  /** No path is another one or lies below it. */
  predicate NoOverlap(paths: seq<Path>) {
    forall i, j | 0 <= i < |paths| && 0 <= j < |paths| && i != j :: !(paths[i] <= paths[j])
  }

  predicate SameInode(files: map<Path, Version>, p: Path, q: Path) {
    p in files && q in files && files[p].identity == files[q].identity
  }

  /** No two of the files, and none and the lock, are one file under two names. */
  predicate NoHardLinks(files: map<Path, Version>, paths: seq<Path>) {
    && (forall i, j | 0 <= i < j < |paths| :: !SameInode(files, paths[i], paths[j]))
    && forall i | 0 <= i < |paths| :: !SameInode(files, paths[i], LOCK)
  }

  predicate Unedited(input: Input, files: map<Path, Version>) {
    && |input.data| <= FILE_LIMIT && ContentAt(files, input.path) == input.original
    && (input.original.Some? ==> |input.original.value| <= FILE_LIMIT)
  }

  predicate Acceptable(fold: string -> string, inputs: seq<Input>, files: map<Path, Version>) {
    && 0 < |inputs| <= CHANGE_LIMIT
    && FoldDistinct(fold, Asked(inputs)) && AllPublic(fold, Asked(inputs))
    && NoOverlap(Asked(inputs)) && NoHardLinks(files, Asked(inputs))
    && forall i | 0 <= i < |inputs| :: Unedited(inputs[i], files)
  }

  /** Nothing exists yet under the names the system hands out. */
  predicate NewBoxes(d: Disk, boxes: seq<Path>) {
    && (forall i | 0 <= i < |boxes| :: boxes[i] !in d.boxes)
    && forall i, j | 0 <= i < j < |boxes| :: boxes[i] != boxes[j]
  }

  /** Removes a container that no journal names; system errors are only logged. */
  method CleanupReserved(machine: Machine<Disk>, box: Path, identity: Inode) returns (o: Outcome)
    modifies machine
    ensures machine.disk.files == old(machine.disk.files) && machine.disk.journal == old(machine.disk.journal)
    ensures forall b | b != box :: Lookup(machine.disk.boxes, b) == Lookup(old(machine.disk.boxes), b)
    ensures o.Done? || o == Raised(Interrupt) || o.Dead?
  {
    if box !in machine.disk.boxes || machine.disk.boxes[box].identity != identity { return Done; }
    o := RemoveTree(machine, box);
    if o.Raised? && o.cause != Interrupt { o := Done; }
  }

  /** A complete copy of the new file, and of the old one if there is one, with the mode of the old file. */
  ghost predicate Filled(slots: map<string, Version>, input: Input, before: Option<Version>) {
    var mode := if before.Some? then before.value.mode else WORKSPACE_FILE_MODE;
    && slots.Keys == (if input.original.Some? then {"incoming", "original"} else {"incoming"})
    && slots["incoming"].content == input.data && slots["incoming"].mode == mode
    && (input.original.Some? ==> slots["original"].content == input.original.value && slots["original"].mode == mode)
  }

  /** Fills one container; only the container changes. */
  method Stage(machine: Machine<Disk>, input: Input, scratch: Scratch)
    returns (o: Outcome, c: Option<Change>)
    requires ContentAt(machine.disk.files, input.path) == input.original
    modifies machine
    ensures machine.disk.files == old(machine.disk.files) && machine.disk.journal == old(machine.disk.journal)
    ensures BoxFor(input.path, scratch.name) in old(machine.disk.boxes) ==> o == Raised(System) && machine.disk == old(machine.disk)
    ensures forall b | b != BoxFor(input.path, scratch.name) :: Lookup(machine.disk.boxes, b) == Lookup(old(machine.disk.boxes), b)
    ensures c.Some? <==> o.Done?
    ensures o != Raised(Conflict)
    ensures o.Done? ==> c.value == Planned(machine.disk.files, input, scratch)
    ensures old(machine.fates == [] && BoxFor(input.path, scratch.name) !in machine.disk.boxes) ==> o.Done? && machine.fates == []
    ensures o.Done? ==> SameFile(c.value.before, c.value.backup) && Classify(machine.disk, c.value) == Original
    ensures o.Done? ==>
              && c.value.path == input.path && c.value.box != [] && c.value.box in machine.disk.boxes
              && (input.path != [] ==> c.value.box[..|c.value.box| - 1] == input.path[..|input.path| - 1])
              && Filled(machine.disk.boxes[c.value.box].slots, input, Lookup(machine.disk.files, input.path))
  {
    c := None;
    var box := BoxFor(input.path, scratch.name);
    if box in machine.disk.boxes { return Raised(System), None; }
    var d := machine.disk;
    o := machine.Perform(d.(boxes := d.boxes[box := Box(scratch.identity, map[])]));
    if !o.Done? { return; }
    var before := Lookup(d.files, input.path);
    var mode := if before.Some? then before.value.mode else WORKSPACE_FILE_MODE;
    var after := Version(scratch.incoming, input.data, mode);
    var slots := map["incoming" := after];
    o := machine.Perform(d.(boxes := d.boxes[box := Box(scratch.identity, slots)]));
    if o.Done? && input.original.Some? {
      slots := slots["original" := Version(scratch.original, input.original.value, mode)];
      o := machine.Perform(d.(boxes := d.boxes[box := Box(scratch.identity, slots)]));
    }
    if o.Done? {
      c := Some(Change(input.path, box, scratch.identity, before, Lookup(slots, "original"), after));
      assert machine.disk == d.(boxes := d.boxes[box := Box(scratch.identity, slots)]);
      assert Filled(slots, input, before);
    } else if o.Raised? {
      var cleaned := CleanupReserved(machine, box, scratch.identity);
      if !cleaned.Done? { o := cleaned; }
    }
  }

  /** A prepared batch whose record names the whole request and whose files are untouched. */
  ghost predicate Prepared(d: Disk, cs: seq<Change>, root: Root, inputs: seq<Input>, scratch: seq<Scratch>,
                           files: map<Path, Version>) {
    && d.files == files
    && Undecided(d, files, cs) && Ready(d, cs) && d.journal.value.root == root
    && Requested(cs, inputs, scratch, files)
  }

  ghost predicate Staged(d: Disk, cs: seq<Change>) {
    Distinct(cs) && forall i | 0 <= i < |cs| :: Classify(d, cs[i]) == Original
  }

  /** A newly filled container joins the staged ones; a container elsewhere disturbs none of them. */
  lemma StagedGrows(d: Disk, d0: Disk, cs: seq<Change>, box: Path)
    requires Staged(d0, cs) && d.files == d0.files
    requires box !in d0.boxes
    requires forall b | b != box :: Lookup(d.boxes, b) == Lookup(d0.boxes, b)
    ensures Staged(d, cs) && forall i | 0 <= i < |cs| :: cs[i].box != box
  {
    forall i | 0 <= i < |cs|
      ensures Classify(d, cs[i]) == Original && cs[i].box != box
    {
      assert Classify(d0, cs[i]) == Original;
      assert cs[i].box in d0.boxes;
      StandingFrame(d, d0, cs[i]);
    }
  }

  /** Recording a staged batch. */
  lemma SavedIsPrepared(d: Disk, fold: string -> string, cs: seq<Change>, root: Root, inputs: seq<Input>, scratch: seq<Scratch>)
    requires Staged(d, cs) && Requested(cs, inputs, scratch, d.files) && Acceptable(fold, inputs, d.files)
    requires Legible(Record(Pending, cs, root))
    ensures Prepared(d.(journal := Some(Record(Pending, cs, root))), cs, root, inputs, scratch, d.files)
  {
    var recorded := d.(journal := Some(Record(Pending, cs, root)));
    forall i | 0 <= i < |cs|
      ensures Classify(recorded, cs[i]) == Original
    {
      StandingFrame(recorded, d, cs[i]);
    }
  }

  lemma Joins(d: Disk, cs: seq<Change>, inputs: seq<Input>, scratch: seq<Scratch>, i: nat, c: Change)
    requires i < |inputs| == |scratch| && NoOverlap(Asked(inputs))
    requires Staged(d, cs) && Requested(cs, inputs[..i], scratch[..i], d.files)
    requires Classify(d, c) == Original && SameFile(c.before, c.backup) && c == Planned(d.files, inputs[i], scratch[i])
    requires forall j | 0 <= j < |cs| :: cs[j].box != c.box
    ensures Staged(d, cs + [c]) && Requested(cs + [c], inputs[..i + 1], scratch[..i + 1], d.files)
  {
    forall j | 0 <= j < i
      ensures cs[j].path != c.path
    {
      assert cs[j] == Planned(d.files, inputs[..i][j], scratch[..i][j]);
      NoOverlapApart(inputs, j, i);
    }
    StagedMore(d, cs, c);
    RequestedMore(d.files, cs, inputs, scratch, i, c);
  }

  lemma StagedMore(d: Disk, cs: seq<Change>, c: Change)
    requires Staged(d, cs) && Classify(d, c) == Original && SameFile(c.before, c.backup)
    requires forall j | 0 <= j < |cs| :: cs[j].path != c.path && cs[j].box != c.box
    ensures Staged(d, cs + [c])
  {
  }

  lemma RequestedMore(files: map<Path, Version>, cs: seq<Change>, inputs: seq<Input>, scratch: seq<Scratch>, i: nat, c: Change)
    requires i < |inputs| == |scratch| && Requested(cs, inputs[..i], scratch[..i], files)
    requires c == Planned(files, inputs[i], scratch[i])
    ensures Requested(cs + [c], inputs[..i + 1], scratch[..i + 1], files)
  {
    forall j | 0 <= j < i
      ensures cs[j] == Planned(files, inputs[j], scratch[j])
    {
      assert cs[j] == Planned(files, inputs[..i][j], scratch[..i][j]);
    }
  }

  lemma NoOverlapApart(inputs: seq<Input>, j: nat, i: nat)
    requires j < i < |inputs| && NoOverlap(Asked(inputs))
    ensures inputs[j].path != inputs[i].path
  {
    assert !(Asked(inputs)[j] <= Asked(inputs)[i]);
  }

  method StageAll(machine: Machine<Disk>, inputs: seq<Input>, scratch: seq<Scratch>) returns (o: Outcome, changes: seq<Change>)
    requires |scratch| == |inputs| && NoOverlap(Asked(inputs))
    requires forall i | 0 <= i < |inputs| :: Unedited(inputs[i], machine.disk.files)
    modifies machine
    ensures machine.disk.files == old(machine.disk.files) && machine.disk.journal == old(machine.disk.journal)
    ensures Staged(machine.disk, changes)
    ensures o.Done? ==> Requested(changes, inputs, scratch, machine.disk.files)
    ensures o != Raised(Conflict)
    ensures old(NewBoxes(machine.disk, HandedOut(inputs, scratch)) && machine.fates == []) ==> o.Done? && machine.fates == []
  {
    changes := [];
    ghost var boxes := HandedOut(inputs, scratch);
    for i := 0 to |inputs|
      invariant machine.disk.files == old(machine.disk.files) && machine.disk.journal == old(machine.disk.journal)
      invariant Staged(machine.disk, changes)
      invariant Requested(changes, inputs[..i], scratch[..i], machine.disk.files)
      invariant old(NewBoxes(machine.disk, boxes) && machine.fates == []) ==>
                  machine.fates == [] && forall j | i <= j < |boxes| :: boxes[j] !in machine.disk.boxes
    {
      ghost var d := machine.disk;
      assert boxes[i] == BoxFor(inputs[i].path, scratch[i].name);
      var staged;
      o, staged := Stage(machine, inputs[i], scratch[i]);
      if boxes[i] !in d.boxes { StagedGrows(machine.disk, d, changes, boxes[i]); }
      if !o.Done? { return; }
      Joins(machine.disk, changes, inputs, scratch, i, staged.value);
      changes := changes + [staged.value];
      forall j | i < j < |boxes| && boxes[j] != boxes[i] && boxes[j] !in d.boxes
        ensures boxes[j] !in machine.disk.boxes
      {
        assert Lookup(machine.disk.boxes, boxes[j]) == Lookup(d.boxes, boxes[j]);
      }
    }
    assert inputs[..|inputs|] == inputs && scratch[..|scratch|] == scratch;
    o := Done;
  }

  /** Two of the requested files are one, or one of them is the lock, or was edited meanwhile. */
  ghost predicate Contested(files: map<Path, Version>, inputs: seq<Input>) {
    || (exists i, j | 0 <= i < j < |inputs| ::
          && inputs[i].path in files && inputs[j].path in files
          && files[inputs[i].path].identity == files[inputs[j].path].identity)
    || (exists i | 0 <= i < |inputs| ::
          inputs[i].path in files && LOCK in files && files[inputs[i].path].identity == files[LOCK].identity)
    || exists i | 0 <= i < |inputs| ::
         inputs[i].original != if inputs[i].path in files then Some(files[inputs[i].path].content) else None
  }

  lemma ContestedIsRefused(fold: string -> string, inputs: seq<Input>, files: map<Path, Version>)
    requires Contested(files, inputs)
    ensures !Acceptable(fold, inputs, files)
  {
    var paths := Asked(inputs);
    if Acceptable(fold, inputs, files) {
      forall i, j | 0 <= i < j < |inputs| && inputs[i].path in files && inputs[j].path in files
        ensures files[inputs[i].path].identity != files[inputs[j].path].identity
      {
        assert !SameInode(files, paths[i], paths[j]);
      }
      forall i | 0 <= i < |inputs| && inputs[i].path in files && LOCK in files
        ensures files[inputs[i].path].identity != files[LOCK].identity
      {
        assert !SameInode(files, paths[i], LOCK);
      }
      assert false;
    }
  }

  /** No file is requested, or too many or too large ones; or a path is reserved, folds onto another or lies below it. */
  ghost predicate Ambiguous(fold: string -> string, inputs: seq<Input>) {
    || |inputs| == 0 || |inputs| > 4096
    || (exists i | 0 <= i < |inputs| :: |inputs[i].data| > 64 * 1024 * 1024)
    || (exists i | 0 <= i < |inputs| ::
          || inputs[i].path == []
          || Folded(fold, inputs[i].path) in {Folded(fold, LOCK), Folded(fold, JOURNAL)}
          || exists part <- inputs[i].path :: STAGE_PREFIX <= fold(part.text))
    || exists i, j | 0 <= i < |inputs| && 0 <= j < |inputs| && i != j ::
         Folded(fold, inputs[i].path) == Folded(fold, inputs[j].path) || inputs[i].path <= inputs[j].path
  }

  lemma AmbiguousIsRefused(fold: string -> string, inputs: seq<Input>, files: map<Path, Version>)
    requires Ambiguous(fold, inputs)
    ensures !Acceptable(fold, inputs, files)
  {
    var paths := Asked(inputs);
    if Acceptable(fold, inputs, files) {
      forall i | 0 <= i < |inputs|
        ensures inputs[i].path != [] && |inputs[i].data| <= FILE_LIMIT
        ensures Folded(fold, inputs[i].path) !in {Folded(fold, LOCK), Folded(fold, JOURNAL)}
        ensures !exists part <- inputs[i].path :: STAGE_PREFIX <= fold(part.text)
      {
        assert Public(fold, paths[i]) && Unedited(inputs[i], files);
      }
      forall i, j | 0 <= i < |inputs| && 0 <= j < |inputs| && i != j
        ensures Folded(fold, inputs[i].path) != Folded(fold, inputs[j].path) && !(inputs[i].path <= inputs[j].path)
      {
        assert !(paths[i] <= paths[j]);
        assert Folded(fold, paths[if i < j then i else j]) != Folded(fold, paths[if i < j then j else i]);
      }
      assert false;
    }
  }

  /** Everything else is acceptable, unless an original is too large to be read. */
  lemma AcceptableExactly(fold: string -> string, inputs: seq<Input>, files: map<Path, Version>)
    ensures Acceptable(fold, inputs, files) <==>
            && !Ambiguous(fold, inputs) && !Contested(files, inputs)
            && forall i | 0 <= i < |inputs| && inputs[i].path in files :: |files[inputs[i].path].content| <= 64 * 1024 * 1024
  {
    if Ambiguous(fold, inputs) {
      AmbiguousIsRefused(fold, inputs, files);
    } else if Contested(files, inputs) {
      ContestedIsRefused(fold, inputs, files);
    } else {
      Unambiguous(fold, inputs);
      Uncontested(files, inputs);
      forall i | 0 <= i < |inputs|
        ensures Unedited(inputs[i], files) <==>
                (inputs[i].path in files ==> |files[inputs[i].path].content| <= 64 * 1024 * 1024)
      {
      }
    }
  }

  lemma Unambiguous(fold: string -> string, inputs: seq<Input>)
    requires !Ambiguous(fold, inputs)
    ensures FoldDistinct(fold, Asked(inputs)) && AllPublic(fold, Asked(inputs)) && NoOverlap(Asked(inputs))
  {
    var paths := Asked(inputs);
    forall i | 0 <= i < |paths|
      ensures Public(fold, paths[i])
    {
      assert paths[i] == inputs[i].path;
      forall k | 0 <= k < |paths[i]| ensures !(STAGE_PREFIX <= fold(paths[i][k].text)) { assert paths[i][k] in inputs[i].path; }
    }
    forall i, j | 0 <= i < |paths| && 0 <= j < |paths| && i != j
      ensures !(paths[i] <= paths[j]) && Folded(fold, paths[i]) != Folded(fold, paths[j])
    {
      assert paths[i] == inputs[i].path && paths[j] == inputs[j].path;
    }
  }

  lemma Uncontested(files: map<Path, Version>, inputs: seq<Input>)
    requires !Contested(files, inputs)
    ensures NoHardLinks(files, Asked(inputs))
    ensures forall i | 0 <= i < |inputs| :: ContentAt(files, inputs[i].path) == inputs[i].original
  {
    var paths := Asked(inputs);
    forall i, j | 0 <= i < j < |paths| ensures !SameInode(files, paths[i], paths[j]) {
      assert paths[i] == inputs[i].path && paths[j] == inputs[j].path;
    }
    forall i | 0 <= i < |paths| ensures !SameInode(files, paths[i], LOCK) { assert paths[i] == inputs[i].path; }
  }

  /** Stages every input, then records the batch; nothing public changes, whatever goes wrong. */
  method Begin(machine: Machine<Disk>, fold: string -> string, inputs: seq<Input>, scratch: seq<Scratch>, root: Root)
    returns (o: Outcome, t: WorkspaceTransaction?, ghost cs: seq<Change>)
    requires |scratch| == |inputs|
    modifies machine
    ensures machine.disk.files == old(machine.disk.files)
    ensures old(machine.disk.journal.Some?) ==> o == Raised(Conflict) && machine.disk == old(machine.disk)
    ensures !Acceptable(fold, inputs, old(machine.disk.files)) ==> o == Raised(Conflict) && machine.disk == old(machine.disk)
    ensures Ambiguous(fold, inputs) || old(Contested(machine.disk.files, inputs)) ==>
              o == Raised(Conflict) && machine.disk == old(machine.disk)
    ensures !Fits(Pending, old(machine.disk.files), inputs, scratch, root) ==>
              !o.Done? && machine.disk.journal == old(machine.disk.journal)
    ensures old(&& machine.disk.journal == None && Acceptable(fold, inputs, machine.disk.files)
                && NewBoxes(machine.disk, HandedOut(inputs, scratch)) && machine.fates == []) ==>
              (o.Done? <==> Fits(Pending, old(machine.disk.files), inputs, scratch, root)) && (o.Done? ==> machine.fates == [])
    ensures o.Done? ==>
              && t != null && fresh(t) && t.machine == machine && t.Writing(Pending) == Record(Pending, cs, root)
              && t.status == Pending
              && Prepared(machine.disk, cs, root, inputs, scratch, old(machine.disk.files))
    ensures old(machine.disk.journal) == None ==>
              || machine.disk.journal == None
              || (&& Prepared(machine.disk, cs, root, inputs, scratch, old(machine.disk.files))
                  && Acceptable(fold, inputs, old(machine.disk.files)))
  {
    t, cs := null, [];
    if Ambiguous(fold, inputs) || Contested(machine.disk.files, inputs) { AcceptableExactly(fold, inputs, machine.disk.files); }
    if machine.disk.journal.Some? || !Acceptable(fold, inputs, machine.disk.files) { return Raised(Conflict), null, []; }
    var changes;
    o, changes := StageAll(machine, inputs, scratch);
    var transaction := new WorkspaceTransaction(machine, Record(Pending, changes, root));
    if o.Done? {
      cs := changes;
      RecordFits(cs, inputs, scratch, machine.disk.files, Pending, root);
      ghost var staged := machine.disk;
      o := transaction.Save(Pending);
      if machine.disk != staged { SavedIsPrepared(staged, fold, cs, root, inputs, scratch); }
    }
    if o.Raised? && machine.disk.journal == None {
      var abandoned := AbandonUnrecorded(machine, changes);
      if !abandoned.Done? { o := abandoned; }
    }
    if o.Done? { t := transaction; }
  }

  method AbandonUnrecorded(machine: Machine<Disk>, changes: seq<Change>) returns (o: Outcome)
    modifies machine
    ensures machine.disk.files == old(machine.disk.files) && machine.disk.journal == old(machine.disk.journal)
    ensures o.Done? || o == Raised(Interrupt) || o.Dead?
  {
    o := Done;
    for i := 0 to |changes|
      invariant machine.disk.files == old(machine.disk.files) && machine.disk.journal == old(machine.disk.journal)
    {
      o := CleanupReserved(machine, changes[i].box, changes[i].boxIdentity);
      if !o.Done? { return; }
    }
    o := Done;
  }

  // ---------------------------------------------------------------- a whole life

  /** Every requested file has its new content and the mode it had, or that of new files; nothing else changed. */
  ghost predicate AllNew(files: map<Path, Version>, start: map<Path, Version>, inputs: seq<Input>) {
    && (forall p | (forall i | 0 <= i < |inputs| :: inputs[i].path != p) :: Lookup(files, p) == Lookup(start, p))
    && forall i | 0 <= i < |inputs| ::
         && inputs[i].path in files
         && files[inputs[i].path].content == inputs[i].data
         && files[inputs[i].path].mode == if inputs[i].path in start then start[inputs[i].path].mode else WORKSPACE_FILE_MODE
  }

  /** Every file has the content and the mode it started with. */
  ghost predicate AllOld(files: map<Path, Version>, start: map<Path, Version>) {
    && files.Keys == start.Keys
    && forall p <- files :: files[p].content == start[p].content && files[p].mode == start[p].mode
  }

  lemma AfterIsNew(files: map<Path, Version>, start: map<Path, Version>, cs: seq<Change>, inputs: seq<Input>, scratch: seq<Scratch>)
    requires Requested(cs, inputs, scratch, start) && AllAfter(files, start, cs)
    ensures AllNew(files, start, inputs)
  {
    RequestedPaths(cs, inputs, scratch, start);
    forall p | (forall i | 0 <= i < |inputs| :: inputs[i].path != p)
      ensures Lookup(files, p) == Lookup(start, p)
    {
      forall i | 0 <= i < |inputs| ensures Asked(inputs)[i] != p { assert inputs[i].path != p; }
    }
    forall i | 0 <= i < |inputs|
      ensures inputs[i].path in files && files[inputs[i].path].content == inputs[i].data
      ensures files[inputs[i].path].mode == if inputs[i].path in start then start[inputs[i].path].mode else WORKSPACE_FILE_MODE
    {
      assert cs[i] == Planned(start, inputs[i], scratch[i]);
      assert Lookup(files, cs[i].path) == Some(cs[i].after);
    }
  }

  lemma BeforeIsOld(files: map<Path, Version>, start: map<Path, Version>, cs: seq<Change>, inputs: seq<Input>,
                    scratch: seq<Scratch>)
    requires Requested(cs, inputs, scratch, start) && AllBefore(files, start, cs)
    ensures AllOld(files, start)
  {
    forall p
      ensures p in files <==> p in start
      ensures p in files ==> files[p].content == start[p].content && files[p].mode == start[p].mode
    {
      if p in Paths(cs) {
        var i :| 0 <= i < |cs| && Paths(cs)[i] == p;
        assert cs[i] == Planned(start, inputs[i], scratch[i]);
        assert SameFile(Lookup(files, cs[i].path), cs[i].before);
      } else {
        assert Lookup(files, p) == Lookup(start, p);
      }
    }
  }

  lemma AllOrNothing(files: map<Path, Version>, start: map<Path, Version>, cs: seq<Change>, inputs: seq<Input>,
                     scratch: seq<Scratch>)
    requires Requested(cs, inputs, scratch, start)
    ensures AllAfter(files, start, cs) ==> AllNew(files, start, inputs)
    ensures AllBefore(files, start, cs) ==> AllOld(files, start)
  {
    if AllAfter(files, start, cs) { AfterIsNew(files, start, cs, inputs, scratch); }
    if AllBefore(files, start, cs) { BeforeIsOld(files, start, cs, inputs, scratch); }
  }

  /** The batch, whose record, if there is one, names this workspace. */
  ghost predicate KnownAs(d: Disk, start: map<Path, Version>, cs: seq<Change>, root: Root) {
    Known(d, start, cs) && (d.journal.Some? ==> d.journal.value.root == root)
  }

  /** A commit that was refused or failed left the batch as it was; otherwise it is decided. */
  lemma CommitKnown(d: Disk, d0: Disk, start: map<Path, Version>, cs: seq<Change>, root: Root)
    requires Undecided(d0, start, cs) && KnownAs(d0, start, cs, root)
    requires forall i | 0 <= i < |cs| :: Classify(d0, cs[i]) == Applied
    requires Legible(Record(Committed, cs, root)) && Cleaned(d, d0.(journal := Some(Record(Committed, cs, root))), cs)
    ensures KnownAs(d, start, cs, root) && Decided(d, start, cs, Committed)
  {
    CommitDecides(d, d0, start, cs, root);
  }

  /** What the caller does about an exception: an undecided batch may be rolled back, a decided one never is. */
  method RollBackBatch(t: WorkspaceTransaction, ghost start: map<Path, Version>, ghost cs: seq<Change>) returns (o: Outcome)
    requires t.changes == cs && Distinct(cs) && KnownAs(t.machine.disk, start, cs, t.root)
    modifies t`status, t.machine
    ensures KnownAs(t.machine.disk, start, cs, t.root)
    ensures old(Decided(t.machine.disk, start, cs, Committed)) ==> Decided(t.machine.disk, start, cs, Committed)
  {
    ghost var d0 := t.machine.disk;
    o := t.Rollback();
    if t.machine.disk != d0 {
      if Undecided(d0, start, cs) {
        RollbackKnown(t.machine.disk, d0, start, cs, t.root);
      } else {
        CleanedKeepsDecided(t.machine.disk, d0, start, cs, d0.journal.value.status);
      }
    }
  }

  /** Applies and commits a prepared batch; on the first exception it is rolled back, or left to the next recovery. */
  method PublishBatch(t: WorkspaceTransaction, course: Course, ghost start: map<Path, Version>, ghost cs: seq<Change>)
    returns (o: Outcome)
    requires t.status == Pending && t.changes == cs && KnownAs(t.machine.disk, start, cs, t.root)
    requires Undecided(t.machine.disk, start, cs) && Ready(t.machine.disk, cs)
    modifies t`status, t.machine
    ensures KnownAs(t.machine.disk, start, cs, t.root)
    ensures o.Done? ==> Decided(t.machine.disk, start, cs, Committed)
    ensures old(t.machine.fates) == [] && !course.cancelled && course.accepted ==>
              && (o.Done? <==> Legible(Record(Committed, cs, t.root)))
              && (o.Done? ==> t.machine.disk.journal == None)
  {
    ghost var prepared := t.machine.disk;
    o := Raised(Interrupt);
    if !course.cancelled {
      o := t.Apply();
      PublishKeepsUndecided(t.machine.disk, prepared, start, cs);
    }
    ghost var published := t.machine.disk;
    if o.Done? && !course.accepted {
      o := Raised(System);
    } else if o.Done? {
      o := t.Commit();
      if t.machine.disk != published || o.Done? { CommitKnown(t.machine.disk, published, start, cs, t.root); }
    }
    if o.Raised? && course.undoes {
      var undone := RollBackBatch(t, start, cs);
    }
  }

  /** Nothing is in the way of an acceptable request. */
  ghost predicate Undisturbed(machine: Machine<Disk>, fold: string -> string, inputs: seq<Input>, scratch: seq<Scratch>,
                              course: Course)
    requires |scratch| == |inputs|
    reads machine
  {
    && machine.fates == [] && !course.cancelled && course.accepted
    && Acceptable(fold, inputs, machine.disk.files) && NewBoxes(machine.disk, HandedOut(inputs, scratch))
  }

  /** Prepare, publish and accept a batch. */
  method Promote(machine: Machine<Disk>, fold: string -> string, inputs: seq<Input>, scratch: seq<Scratch>, root: Root,
                 course: Course)
    returns (o: Outcome, ghost cs: seq<Change>)
    requires |scratch| == |inputs| && machine.disk.journal == None
    modifies machine
    ensures var d, start := machine.disk, old(machine.disk.files);
      || (d.journal == None && d.files == start && cs == [] && !o.Done?)
      || (&& Requested(cs, inputs, scratch, start) && Acceptable(fold, inputs, start) && Known(d, start, cs)
          && (d.journal.Some? ==> d.journal.value.root == root)
          && (o.Done? ==> Decided(d, start, cs, Committed)))
    ensures old(Undisturbed(machine, fold, inputs, scratch, course)) ==>
              && (o.Done? <==> Fits(Committed, old(machine.disk.files), inputs, scratch, root))
              && (o.Done? ==> machine.disk.journal == None)
  {
    ghost var start := machine.disk.files;
    if Fits(Committed, start, inputs, scratch, root) { CommittedFits(start, inputs, scratch, root); }
    var t;
    o, t, cs := Begin(machine, fold, inputs, scratch, root);
    if !o.Done? {
      if machine.disk.journal == None { cs := []; }
      return;
    }
    RecordFits(cs, inputs, scratch, start, Committed, root);
    o := PublishBatch(t, course, start, cs);
  }

  /** Recovery trusts the record of a request exactly if the containers stay apart. */
  lemma RequestIsTrusted(d: Disk, fold: string -> string, root: Root, start: map<Path, Version>, cs: seq<Change>,
                         inputs: seq<Input>, scratch: seq<Scratch>)
    requires Requested(cs, inputs, scratch, start) && Acceptable(fold, inputs, start)
    requires KnownAs(d, start, cs, root) && d.journal.Some?
    ensures Recoverable(fold, root, d) <==> BoxesApart(fold, HandedOut(inputs, scratch), Asked(inputs))
    ensures Fits(RolledBack, start, inputs, scratch, root) ==> Replaceable(d)
  {
    RequestedPaths(cs, inputs, scratch, start);
    RecordFits(cs, inputs, scratch, start, RolledBack, root);
  }

  /** Crash atomicity from the first staged byte to the last recovery. A record that a crash `left` behind is retired
    * exactly if the containers' names stay apart after folding and the rolled-back record, where one is needed, is short
    * enough; with containers apart the files are all old or all new in any case. */
  method Live(machine: Machine<Disk>, fold: string -> string, inputs: seq<Input>, scratch: seq<Scratch>, root: Root,
              course: Course, restarts: seq<seq<Fate>>)
    returns (o: Outcome, recovered: Outcome, ghost left: Disk)
    requires |scratch| == |inputs| && machine.disk.journal == None
    modifies machine
    ensures o.Done? ==> AllNew(machine.disk.files, old(machine.disk.files), inputs)
    ensures left.journal == None || BoxesApart(fold, HandedOut(inputs, scratch), Asked(inputs)) ==>
              AllNew(machine.disk.files, old(machine.disk.files), inputs) || AllOld(machine.disk.files, old(machine.disk.files))
    ensures left.journal == None ==> machine.disk == left
    ensures left.journal.Some? ==>
              (recovered.Done? <==> BoxesApart(fold, HandedOut(inputs, scratch), Asked(inputs)) && Replaceable(left))
    ensures left.journal.Some? ==> machine.disk.journal == if recovered.Done? then None else left.journal
    ensures && BoxesApart(fold, HandedOut(inputs, scratch), Asked(inputs))
            && Fits(RolledBack, old(machine.disk.files), inputs, scratch, root) ==>
              machine.disk.journal == None
    ensures old(Undisturbed(machine, fold, inputs, scratch, course)) ==>
              (o.Done? <==> Fits(Committed, old(machine.disk.files), inputs, scratch, root))
    ensures old(Undisturbed(machine, fold, inputs, scratch, course)) && o.Done? ==> left.journal == None
  {
    ghost var start := machine.disk.files;
    ghost var cs;
    o, cs := Promote(machine, fold, inputs, scratch, root, course);
    left, recovered := machine.disk, Done;
    if machine.disk.journal.Some? {
      RequestIsTrusted(left, fold, root, start, cs, inputs, scratch);
      recovered := RecoverRepeatedly(machine, restarts, fold, root, start, cs);
    }
    if Requested(cs, inputs, scratch, start) { AllOrNothing(machine.disk.files, start, cs, inputs, scratch); }
  }
}
