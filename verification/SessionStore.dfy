/** The session store: branches, checkpoints, forks and their journal (raychat/storage.py). */
module SessionStore {
  import opened Effects
  import opened Sequences
  import opened SessionRecords
  import opened SessionJournal

  // ---------------------------------------------------------------- the store as a value

  /** The complete records of the journal, the working branch and the selected one. */
  datatype Store = Store(log: seq<Record>, head: Option<Id>, committed: Option<Id>)

  datatype Snapshot = Snapshot(history: seq<Message>, state: State)

  datatype Op =
    | AppendMessage(id: Id, message: Message)
    | AppendStart(id: Id, promptId: int)
    | Commit(id: Id, state: State)
    | Checkpointed(id: Id, state: State)
    | Abort
    | Fork(id: Id, target: Id)

  /** Identifiers are random: a new one is well formed and unused. */
  predicate NewId(s: Store, id: Id) {
    IsId(id) && !Has(s.log, id)
  }

  predicate IsTurn(log: seq<Record>, id: Id) {
    exists i | 0 <= i < |log| :: log[i].id == id && log[i].payload.TurnCommit?
  }

  predicate Enabled(s: Store, op: Op) {
    match op
    case AppendMessage(id, message) => NewId(s, id) && ValidMessage(message)
    case AppendStart(id, _) => NewId(s, id)
    case Commit(id, _) => NewId(s, id)
    case Checkpointed(id, _) => NewId(s, id)
    case Abort => true
    case Fork(id, target) => NewId(s, id) && IsTurn(s.log, target)
  }

  /** The one record an operation writes; an abort writes none. */
  function NewRecord(s: Store, op: Op): Record
    requires !op.Abort?
  {
    match op
    case AppendMessage(id, message) => Record(id, s.head, Saved(message))
    case AppendStart(id, promptId) => Record(id, s.head, TurnStart(promptId))
    case Commit(id, state) => Record(id, s.head, TurnCommit(state))
    case Checkpointed(id, state) => Record(id, s.committed, Checkpoint(state))
    case Fork(id, target) => Record(id, Some(target), Select(Some(target)))
  }

  function NewCommitted(s: Store, op: Op): Option<Id> {
    match op
    case Commit(id, _) => Some(id)
    case Checkpointed(id, _) => Some(id)
    case Fork(_, target) => Some(target)
    case _ => s.committed
  }

  /** A checkpoint is a sibling of a pending turn; without one the working branch follows it. */
  function NewHead(s: Store, op: Op): Option<Id> {
    match op
    case Abort => s.committed
    case Fork(_, target) => Some(target)
    case Checkpointed(id, _) => if s.head != s.committed then s.head else Some(id)
    case _ => Some(op.id)
  }

  function Step(s: Store, op: Op): Store {
    Store(if op.Abort? then s.log else s.log + [NewRecord(s, op)], NewHead(s, op), NewCommitted(s, op))
  }

  predicate EnabledRun(s: Store, ops: seq<Op>) {
    ops == [] || (EnabledRun(s, ops[..|ops| - 1]) && Enabled(Run(s, ops[..|ops| - 1]), ops[|ops| - 1]))
  }

  function Run(s: Store, ops: seq<Op>): Store {
    if ops == [] then s else Step(Run(s, ops[..|ops| - 1]), ops[|ops| - 1])
  }

  function StateAt(log: seq<Record>, cursor: Option<Id>): State {
    var chain := Chain(log, cursor);
    if chain == [] then map[]
    else match chain[|chain| - 1].payload
         case TurnCommit(state) => state
         case Checkpoint(state) => state
         case _ => map[]
  }

  function SnapshotAt(s: Store, cursor: Option<Id>): Snapshot {
    Snapshot(History(s.log, cursor), StateAt(s.log, cursor))
  }

  // ---------------------------------------------------------------- replay refines memory

  /** Loading the journal selects what the store has selected, and the branches start in the log. */
  ghost predicate Consistent(s: Store) {
    && Replay(s.log).Some?
    && Replay(s.log).value.committed == s.committed
    && (s.head.Some? ==> Has(s.log, s.head.value))
  }

  lemma ReplayAppend(s: Store, r: Record)
    requires Replay(s.log).Some?
    ensures Replay(s.log + [r]) == Accept(Replay(s.log).value, r)
  {
    assert (s.log + [r])[..|s.log|] == s.log;
  }

  lemma CommittedExists(s: Store)
    requires Consistent(s) && s.committed.Some?
    ensures Has(s.log, s.committed.value) && Decision(s.log, s.committed.value)
  {
    ReplayShape(s.log);
    var i :| 0 <= i < |s.log| && s.log[i].id == s.committed.value && IsDecision(s.log[i]);
    assert s.log[i].id == s.committed.value;
  }

  lemma TurnExists(s: Store, target: Id)
    requires Consistent(s) && IsTurn(s.log, target)
    ensures Has(s.log, target) && Decision(s.log, target)
    ensures target in Replay(s.log).value.entries && IsDecision(Replay(s.log).value.entries[target])
  {
    ReplayEntries(s.log);
    var i :| 0 <= i < |s.log| && s.log[i].id == target && s.log[i].payload.TurnCommit?;
    assert s.log[i].id == target && IsDecision(s.log[i]);
  }

  /** The record is accepted, and selects what memory selects. */
  lemma RecordAccepted(s: Store, op: Op)
    requires Consistent(s) && Enabled(s, op) && !op.Abort?
    ensures Accept(Replay(s.log).value, NewRecord(s, op)).Some?
    ensures Accept(Replay(s.log).value, NewRecord(s, op)).value.committed == NewCommitted(s, op)
  {
    ReplayEntries(s.log);
    if op.Fork? { TurnExists(s, op.target); }
    if s.committed.Some? { CommittedExists(s); }
  }

  lemma StepConsistent(s: Store, op: Op)
    requires Consistent(s) && Enabled(s, op)
    ensures Consistent(Step(s, op))
  {
    if s.committed.Some? { CommittedExists(s); }
    if !op.Abort? {
      RecordAccepted(s, op);
      ReplayAppend(s, NewRecord(s, op));
      if op.Fork? { TurnExists(s, op.target); }
      if NewHead(s, op).Some? { HasGrows(s.log, NewRecord(s, op), NewHead(s, op).value); }
    }
  }

  /** Loading the journal gives back the selection in memory after every run of operations. */
  lemma {:induction false} RunConsistent(s: Store, ops: seq<Op>)
    requires Consistent(s) && EnabledRun(s, ops)
    ensures Consistent(Run(s, ops))
  {
    if ops != [] {
      RunConsistent(s, ops[..|ops| - 1]);
      StepConsistent(Run(s, ops[..|ops| - 1]), ops[|ops| - 1]);
    }
  }

  function Appended(s: Store, id: Id, payload: Payload): Store {
    Store(s.log + [Record(id, s.head, payload)], Some(id), s.committed)
  }

  /** Appending any payload keeps memory and journal together exactly when it does not decide anything by itself. */
  lemma AppendAgrees(s: Store, id: Id, payload: Payload)
    requires Consistent(s) && NewId(s, id)
    ensures Consistent(Appended(s, id, payload)) <==>
            match payload
            case Saved(message) => ValidMessage(message)
            case TurnStart(_) => true
            case Select(target) => target == s.committed
            case _ => false
  {
    var r := Record(id, s.head, payload);
    ReplayEntries(s.log);
    ReplayAppend(s, r);
    HasGrows(s.log, r, id);
    if s.committed.Some? {
      CommittedExists(s);
      var i :| 0 <= i < |s.log| && s.log[i].id == s.committed.value && IsDecision(s.log[i]);
      assert Lookup(Replay(s.log).value.entries, s.log[i].id) == Some(s.log[i]);
    }
  }

  // ---------------------------------------------------------------- one turn

  predicate Pending(op: Op) {
    op.AppendMessage? || op.AppendStart? || op.Checkpointed?
  }

  function AddedBy(op: Op): seq<Message> {
    if op.AppendMessage? then [op.message] else []
  }

  function Added(ops: seq<Op>): seq<Message> {
    if ops == [] then [] else Added(ops[..|ops| - 1]) + AddedBy(ops[|ops| - 1])
  }

  lemma HistoryGrows(log: seq<Record>, r: Record, cursor: Option<Id>)
    requires !Has(log, r.id) && (cursor.Some? ==> Has(log, cursor.value))
    ensures History(log + [r], cursor) == History(log, cursor)
  {
    ChainGrows(log, r, cursor);
  }

  lemma NewHistory(log: seq<Record>, r: Record)
    ensures History(log + [r], Some(r.id)) ==
            History(log, r.parent) + (if r.payload.Saved? then [r.payload.message] else [])
  {
    ChainOfNew(log, r);
  }

  lemma NewState(log: seq<Record>, r: Record, state: State)
    requires r.payload in {TurnCommit(state), Checkpoint(state)}
    ensures StateAt(log + [r], Some(r.id)) == state
  {
    ChainOfNew(log, r);
  }

  lemma StateGrows(log: seq<Record>, r: Record, cursor: Option<Id>)
    requires !Has(log, r.id) && (cursor.Some? ==> Has(log, cursor.value))
    ensures StateAt(log + [r], cursor) == StateAt(log, cursor)
  {
    ChainGrows(log, r, cursor);
  }

  /** The committed history stays, and the working one is longer by `added`. */
  ghost predicate Gained(s: Store, t: Store, added: seq<Message>) {
    && History(t.log, t.committed) == History(s.log, s.committed)
    && History(t.log, t.head) == History(s.log, s.head) + added
  }

  lemma GainedOn(s: Store, t: Store, u: Store, first: seq<Message>, second: seq<Message>)
    requires Gained(s, t, first) && Gained(t, u, second)
    ensures Gained(s, u, first + second)
  {
  }

  /** The working branch gains what an append or checkpoint adds to it. */
  lemma PendingStep(t: Store, op: Op)
    requires Consistent(t) && Enabled(t, op) && Pending(op)
    ensures Gained(t, Step(t, op), AddedBy(op))
  {
    if t.committed.Some? { CommittedExists(t); }
    var r := NewRecord(t, op);
    NewHistory(t.log, r);
    HistoryGrows(t.log, r, t.committed);
    HistoryGrows(t.log, r, t.head);
    var u := Step(t, op);
    var head, committed := u.head, u.committed;
    assert committed == t.committed || (committed == Some(r.id) && r.parent == t.committed && !r.payload.Saved?);
    assert head == Some(r.id) || (head == t.head && op.Checkpointed?);
    assert u.log == t.log + [r];
  }

  /** Appends and checkpoints never change the committed history, and the working branch collects exactly the messages. */
  lemma {:induction false} TurnCollects(s: Store, ops: seq<Op>)
    requires Consistent(s) && EnabledRun(s, ops)
    requires forall i | 0 <= i < |ops| :: Pending(ops[i])
    ensures Gained(s, Run(s, ops), Added(ops))
    decreases |ops|
  {
    if ops != [] {
      var before, last := ops[..|ops| - 1], ops[|ops| - 1];
      TurnCollects(s, before);
      RunConsistent(s, before);
      PendingStep(Run(s, before), last);
      GainedOn(s, Run(s, before), Run(s, ops), Added(before), AddedBy(last));
    }
  }

  /** A commit extends the committed history by exactly the messages of its turn. */
  lemma CommitPublishesTurn(s: Store, ops: seq<Op>, id: Id, state: State)
    requires Consistent(s) && s.head == s.committed && EnabledRun(s, ops)
    requires forall i | 0 <= i < |ops| :: Pending(ops[i])
    requires NewId(Run(s, ops), id)
    ensures var t := Step(Run(s, ops), Commit(id, state));
      SnapshotAt(t, t.committed) == Snapshot(History(s.log, s.committed) + Added(ops), state)
  {
    TurnCollects(s, ops);
    var t := Run(s, ops);
    NewHistory(t.log, Record(id, t.head, TurnCommit(state)));
    NewState(t.log, Record(id, t.head, TurnCommit(state)), state);
  }

  /** A checkpoint selects its state on top of the committed history. */
  lemma CheckpointSelects(s: Store, id: Id, state: State)
    requires Consistent(s) && NewId(s, id)
    ensures var t := Step(s, Checkpointed(id, state));
      SnapshotAt(t, t.committed) == Snapshot(History(s.log, s.committed), state)
  {
    NewHistory(s.log, Record(id, s.committed, Checkpoint(state)));
    NewState(s.log, Record(id, s.committed, Checkpoint(state)), state);
  }

  /** A fork goes back to exactly what the completed turn had selected. */
  lemma ForkSelects(s: Store, id: Id, target: Id)
    requires Consistent(s) && Enabled(s, Fork(id, target))
    ensures var t := Step(s, Fork(id, target));
      t.head == t.committed == Some(target) && SnapshotAt(t, t.committed) == SnapshotAt(s, Some(target))
  {
    TurnExists(s, target);
    var r := Record(id, Some(target), Select(Some(target)));
    HistoryGrows(s.log, r, Some(target));
    StateGrows(s.log, r, Some(target));
    assert Step(s, Fork(id, target)) == Store(s.log + [r], Some(target), Some(target));
  }

  // ---------------------------------------------------------------- dropped messages stay dropped

  predicate On(log: seq<Record>, cursor: Option<Id>, x: Id) {
    Has(Chain(log, cursor), x)
  }

  /** No selection that exists leads to `x`. */
  ghost predicate OffDecisions(log: seq<Record>, x: Id) {
    forall d | Decision(log, d) :: !On(log, Some(d), x)
  }

  /** Neither the working branch nor any selection leads to `x`. */
  ghost predicate Lost(s: Store, x: Id) {
    Has(s.log, x) && OffDecisions(s.log, x) && !On(s.log, s.head, x)
  }

  lemma OnGrows(log: seq<Record>, r: Record, x: Id)
    ensures forall cursor: Option<Id> | cursor != Some(r.id) :: On(log + [r], cursor, x) == On(log, cursor, x)
    ensures On(log + [r], Some(r.id), x) <==> x == r.id || On(log, r.parent, x)
  {
    forall cursor: Option<Id> | cursor != Some(r.id)
      ensures On(log + [r], cursor, x) == On(log, cursor, x)
    {
      ChainGrows(log, r, cursor);
    }
    ChainOfNew(log, r);
    HasGrows(Chain(log, r.parent), r, x);
  }

  lemma OffDecisionsGrows(log: seq<Record>, r: Record, x: Id)
    requires Rooted(log) && !Has(log, r.id) && x != r.id && OffDecisions(log, x)
    requires IsDecision(r) ==> !On(log, r.parent, x)
    ensures OffDecisions(log + [r], x)
  {
    OnGrows(log, r, x);
    forall d | Decision(log + [r], d)
      ensures !On(log + [r], Some(d), x)
    {
      HasGrows(log, r, d);
      DecisionHas(log, d);
    }
  }

  lemma DecisionHas(log: seq<Record>, d: Id)
    ensures Decision(log, d) ==> Has(log, d)
  {
  }

  lemma SelectionIsOff(t: Store, x: Id)
    requires Consistent(t) && OffDecisions(t.log, x)
    ensures !On(t.log, t.committed, x)
  {
    if t.committed.Some? { CommittedExists(t); } else { assert Chain(t.log, None) == []; }
  }

  lemma LostStep(s: Store, op: Op, x: Id)
    requires Consistent(s) && Enabled(s, op) && Lost(s, x)
    ensures Lost(Step(s, op), x)
  {
    ReplayShape(s.log);
    SelectionIsOff(s, x);
    if !op.Abort? {
      var r := NewRecord(s, op);
      if op.Fork? { TurnExists(s, op.target); }
      HasGrows(s.log, r, x);
      OnGrows(s.log, r, x);
      OffDecisionsGrows(s.log, r, x);
    }
  }

  /** What an abort dropped is in no later snapshot, whatever happens afterwards. */
  lemma {:induction false} LostForever(s: Store, ops: seq<Op>, x: Id)
    requires Consistent(s) && EnabledRun(s, ops) && Lost(s, x)
    ensures var t := Run(s, ops);
      && Lost(t, x)
      && !On(t.log, t.committed, x)
      && forall turn | IsTurn(t.log, turn) :: !On(t.log, Some(turn), x)
    decreases |ops|
  {
    if ops != [] {
      LostForever(s, ops[..|ops| - 1], x);
      RunConsistent(s, ops[..|ops| - 1]);
      LostStep(Run(s, ops[..|ops| - 1]), ops[|ops| - 1], x);
    }
    RunConsistent(s, ops);
    var t := Run(s, ops);
    SelectionIsOff(t, x);
    forall turn | IsTurn(t.log, turn)
      ensures !On(t.log, Some(turn), x)
    {
      TurnExists(t, turn);
    }
  }

  predicate AppendsAs(op: Op, x: Id) {
    (op.AppendMessage? || op.AppendStart?) && op.id == x
  }

  /** A record that was just appended is on no existing selection. */
  lemma NewIsOff(log: seq<Record>, r: Record)
    requires Rooted(log) && !Has(log, r.id) && !IsDecision(r)
    ensures OffDecisions(log + [r], r.id)
  {
    forall d | Decision(log + [r], d)
      ensures !On(log + [r], Some(d), r.id)
    {
      HasGrows(log, r, d);
      DecisionHas(log, d);
      ChainGrows(log, r, Some(d));
      ChainIsSound(log, Some(d));
      forall i | 0 <= i < |Chain(log, Some(d))|
        ensures Chain(log, Some(d))[i].id != r.id
      {
        assert Chain(log, Some(d))[i] in log;
      }
    }
  }

  lemma PendingStaysOff(t: Store, op: Op, x: Id)
    requires Consistent(t) && Enabled(t, op) && Pending(op) && Has(t.log, x) && OffDecisions(t.log, x)
    ensures Has(Step(t, op).log, x) && OffDecisions(Step(t, op).log, x)
  {
    ReplayShape(t.log);
    var r := NewRecord(t, op);
    HasGrows(t.log, r, x);
    SelectionIsOff(t, x);
    OffDecisionsGrows(t.log, r, x);
  }

  /** During a turn no selection leads to anything the turn has appended. */
  lemma {:induction false} TurnStaysOff(s: Store, ops: seq<Op>, x: Id)
    requires Consistent(s) && s.head == s.committed && EnabledRun(s, ops)
    requires forall i | 0 <= i < |ops| :: Pending(ops[i])
    requires exists i | 0 <= i < |ops| :: AppendsAs(ops[i], x)
    ensures Has(Run(s, ops).log, x) && OffDecisions(Run(s, ops).log, x)
    decreases |ops|
  {
    var before, op := ops[..|ops| - 1], ops[|ops| - 1];
    RunConsistent(s, before);
    var t := Run(s, before);
    if AppendsAs(op, x) {
      ReplayShape(t.log);
      HasGrows(t.log, NewRecord(t, op), x);
      NewIsOff(t.log, NewRecord(t, op));
    } else {
      var i :| 0 <= i < |ops| && AppendsAs(ops[i], x);
      assert AppendsAs(before[i], x);
      TurnStaysOff(s, before, x);
      PendingStaysOff(t, op, x);
    }
  }

  /** Every record of an aborted turn is lost. */
  lemma AbortLoses(s: Store, ops: seq<Op>, x: Id)
    requires Consistent(s) && s.head == s.committed && EnabledRun(s, ops)
    requires forall i | 0 <= i < |ops| :: Pending(ops[i])
    requires exists i | 0 <= i < |ops| :: AppendsAs(ops[i], x)
    ensures Lost(Step(Run(s, ops), Abort), x)
  {
    TurnStaysOff(s, ops, x);
    RunConsistent(s, ops);
    SelectionIsOff(Run(s, ops), x);
    assert Step(Run(s, ops), Abort) == Run(s, ops).(head := Run(s, ops).committed);
  }

  // ---------------------------------------------------------------- the store as an object

  /** What the system does with one write: all of it; an error behind the first `n` bytes or at the end; or nothing,
    * because the lock or the encoding already failed. */
  datatype Io = Written | Torn(n: nat) | Refused

  /** What it does when a selection is synchronized. */
  datatype Sync = Synced | Unsynced | Interrupted

  /** Whether a failed selection can be cut off the file again. */
  datatype Repair = Truncated | TruncatedUnsynced | Stuck

  /** What a failed attempt leaves: a store that refuses further writes, and perhaps its whole record in the file. */
  datatype Miss = Miss(breaks: bool, whole: bool)

  /** How much of a line reaches the file. */
  function Landed(failed: bool, io: Io, length: nat): (n: nat)
    ensures n <= length
  {
    if failed || io.Refused? then 0 else if io.Written? || io.n > length then length else io.n
  }

  function PlainMiss(failed: bool, io: Io, length: nat): Miss {
    if failed || !io.Torn? then Miss(false, false) else Miss(true, io.n >= length)
  }

  function DurableMiss(failed: bool, io: Io, length: nat, sync: Sync, repair: Repair): Miss {
    if failed then Miss(false, false)
    else Miss(io.Torn? || (io.Written? && sync.Unsynced?) || !repair.Truncated?,
              repair.Stuck? && (io.Written? || (io.Torn? && io.n >= length)))
  }

  function Surviving(log: seq<Record>, survivor: Option<Record>): seq<Record> {
    if survivor.Some? then log + [survivor.value] else log
  }

  /** What lands of a line behind a text: its record, or a tail that loading drops. */
  lemma LineLands(codec: Codec, header: Bytes, log: seq<Record>, text: Bytes, r: Record, cut: nat)
    requires Faithful(codec) && IsText(codec, header, log, text) && cut <= |Line(codec, r)|
    ensures var stream := text + Line(codec, r)[..cut];
      && IsText(codec, header, if cut == |Line(codec, r)| then log + [r] else log, stream[..Complete(stream)])
      && (cut == |Line(codec, r)| ==> Complete(stream) == |stream|)
  {
    var line := Line(codec, r);
    var stream := text + line[..cut];
    CompleteOf(codec, text, r, cut);
    if cut == |line| {
      assert line[..cut] == line && stream[..|stream|] == stream;
      TextGrows(codec, header, log, text, r);
    } else {
      assert stream[..|text|] == text;
    }
  }

  /** What the file of a store looks like. */
  ghost predicate Holds(codec: Codec, header: Bytes, log: seq<Record>, survivor: Option<Record>, failed: bool, stream: Bytes) {
    && Replay(Surviving(log, survivor)).Some?
    && IsText(codec, header, Surviving(log, survivor), stream[..Complete(stream)])
    && (!failed ==> survivor == None && Complete(stream) == |stream|)
  }

  /** A whole line is a record of the log, or survives a failed attempt. */
  lemma WholeHolds(codec: Codec, header: Bytes, log: seq<Record>, stream: Bytes, r: Record)
    requires Faithful(codec) && Holds(codec, header, log, None, false, stream) && Replay(log + [r]).Some?
    ensures var after := stream + Line(codec, r);
      Holds(codec, header, log + [r], None, false, after) && Holds(codec, header, log, Some(r), true, after)
  {
    var line := Line(codec, r);
    assert line[..|line|] == line && stream[..|stream|] == stream;
    LineLands(codec, header, log, stream, r, |line|);
  }

  /** Part of a line is a tail. */
  lemma PartHolds(codec: Codec, header: Bytes, log: seq<Record>, stream: Bytes, r: Record, cut: nat)
    requires Faithful(codec) && Holds(codec, header, log, None, false, stream) && cut < |Line(codec, r)|
    ensures Holds(codec, header, log, None, true, stream + Line(codec, r)[..cut])
  {
    assert stream[..|stream|] == stream;
    LineLands(codec, header, log, stream, r, cut);
  }

  /** What a file with this much more of a line holds. */
  ghost predicate HoldsMore(codec: Codec, header: Bytes, log: seq<Record>, survivor: Option<Record>, failed: bool,
                            stream: Bytes, r: Record, n: nat)
    requires n <= |Line(codec, r)|
  {
    Holds(codec, header, log, survivor, failed, stream + Line(codec, r)[..n])
  }

  lemma NothingLands(codec: Codec, header: Bytes, log: seq<Record>, survivor: Option<Record>, failed: bool, stream: Bytes,
                     r: Record)
    requires Holds(codec, header, log, survivor, failed, stream)
    ensures HoldsMore(codec, header, log, survivor, failed, stream, r, 0)
  {
    assert Line(codec, r)[..0] == [] && stream + [] == stream;
  }

  lemma WholeLands(codec: Codec, header: Bytes, log: seq<Record>, stream: Bytes, r: Record)
    requires Faithful(codec) && Holds(codec, header, log, None, false, stream) && Replay(log + [r]).Some?
    ensures HoldsMore(codec, header, log + [r], None, false, stream, r, |Line(codec, r)|)
    ensures HoldsMore(codec, header, log, Some(r), true, stream, r, |Line(codec, r)|)
  {
    WholeHolds(codec, header, log, stream, r);
    assert Line(codec, r)[..|Line(codec, r)|] == Line(codec, r);
  }

  /** A failed append may leave its record or a tail. */
  lemma PlainHolds(codec: Codec, header: Bytes, log: seq<Record>, survivor: Option<Record>, failed: bool, stream: Bytes,
                   r: Record, io: Io)
    requires Faithful(codec) && Holds(codec, header, log, survivor, failed, stream) && Replay(log + [r]).Some?
    ensures var n, miss := Landed(failed, io, |Line(codec, r)|), PlainMiss(failed, io, |Line(codec, r)|);
      if !failed && io.Written? then HoldsMore(codec, header, log + [r], survivor, failed, stream, r, n)
      else HoldsMore(codec, header, log, if miss.whole then Some(r) else survivor, failed || miss.breaks, stream, r, n)
  {
    var n := Landed(failed, io, |Line(codec, r)|);
    if failed || io.Refused? {
      NothingLands(codec, header, log, survivor, failed, stream, r);
    } else if n == |Line(codec, r)| {
      WholeLands(codec, header, log, stream, r);
    } else {
      PartHolds(codec, header, log, stream, r, n);
    }
  }

  /** So may a failed selection, unless it can be cut off. */
  lemma DurableHolds(codec: Codec, header: Bytes, log: seq<Record>, survivor: Option<Record>, failed: bool, stream: Bytes,
                     r: Record, io: Io, sync: Sync, repair: Repair)
    requires Faithful(codec) && Holds(codec, header, log, survivor, failed, stream) && Replay(log + [r]).Some?
    ensures var n, miss := Landed(failed, io, |Line(codec, r)|), DurableMiss(failed, io, |Line(codec, r)|, sync, repair);
      if !failed && io.Written? && sync.Synced? then HoldsMore(codec, header, log + [r], survivor, failed, stream, r, n)
      else if repair.Stuck? then
        HoldsMore(codec, header, log, if miss.whole then Some(r) else survivor, failed || miss.breaks, stream, r, n)
      else Holds(codec, header, log, if miss.whole then Some(r) else survivor, failed || miss.breaks, stream)
  {
    var n := Landed(failed, io, |Line(codec, r)|);
    if failed || io.Refused? {
      NothingLands(codec, header, log, survivor, failed, stream, r);
      NothingLands(codec, header, log, survivor, true, stream, r);
    } else if n == |Line(codec, r)| {
      WholeLands(codec, header, log, stream, r);
    } else {
      PartHolds(codec, header, log, stream, r, n);
    }
  }

  lemma EntriesGrow(log: seq<Record>, r: Record)
    requires Replay(log).Some? && Replay(log + [r]).Some?
    ensures Replay(log + [r]).value.entries == Replay(log).value.entries[r.id := r]
  {
    assert (log + [r])[..|log|] == log;
    AcceptAdds(Replay(log).value, r);
  }

  const EMPTY: Store := Store([], None, None)

  /** Every beginning of the log is what it was at some moment of the run. */
  lemma {:induction false} Moment(ops: seq<Op>, k: nat) returns (j: nat)
    requires k <= |Run(EMPTY, ops).log|
    ensures j <= |ops| && Run(EMPTY, ops[..j]).log == Run(EMPTY, ops).log[..k]
    decreases |ops|
  {
    if k == |Run(EMPTY, ops).log| {
      j := |ops|;
      assert ops[..j] == ops;
    } else {
      var before := ops[..|ops| - 1];
      j := Moment(before, k);
      assert before[..j] == ops[..j];
    }
  }

  /** Cut at any byte behind the header, the file of a run reopens with exactly the selection of an earlier moment. */
  lemma CrashReopens(codec: Codec, header: Bytes, ops: seq<Op>, n: nat) returns (j: nat)
    requires Faithful(codec) && OneLine(header) && EnabledRun(EMPTY, ops)
    requires |header| + 1 <= n <= |Journal(codec, header, Run(EMPTY, ops).log)|
    ensures j <= |ops| && (n == |Journal(codec, header, Run(EMPTY, ops).log)| ==> Run(EMPTY, ops[..j]).log == Run(EMPTY, ops).log)
    ensures var loaded := Load(codec, header, Journal(codec, header, Run(EMPTY, ops).log)[..n]);
      && loaded.Loaded? && loaded.log == Run(EMPTY, ops[..j]).log
      && |loaded.log| == Whole(codec, Run(EMPTY, ops).log, n - |header| - 1)
      && loaded.memory.committed == Run(EMPTY, ops[..j]).committed
  {
    var log := Run(EMPTY, ops).log;
    RunConsistent(EMPTY, ops);
    CutAnywhere(codec, header, log, n);
    j := Moment(ops, Whole(codec, log, n - |header| - 1));
    EnabledPrefix(ops, j);
    RunConsistent(EMPTY, ops[..j]);
    assert log[..|log|] == log;
  }

  lemma {:induction false} EnabledPrefix(ops: seq<Op>, j: nat)
    requires EnabledRun(EMPTY, ops) && j <= |ops|
    ensures EnabledRun(EMPTY, ops[..j])
    decreases |ops|
  {
    if j < |ops| {
      assert ops[..|ops| - 1][..j] == ops[..j];
      EnabledPrefix(ops[..|ops| - 1], j);
    } else {
      assert ops[..j] == ops;
    }
  }

  /** The dictionary holds exactly the records of a rooted log. */
  ghost predicate Indexed(entries: map<Id, Record>, log: seq<Record>) {
    && Rooted(log)
    && forall i | 0 <= i < |log| :: Lookup(entries, log[i].id) == Some(log[i])
  }

  lemma IsIndexed(log: seq<Record>)
    requires Replay(log).Some?
    ensures Indexed(Replay(log).value.entries, log)
  {
    ReplayShape(log);
    ReplayEntries(log);
  }

  /** Where a record is in the log, and how the walk goes on from there. */
  lemma ParentStep(entries: map<Id, Record>, log: seq<Record>, n: nat, id: Id) returns (k: nat)
    requires Indexed(entries, log) && n <= |log| && Has(log[..n], id)
    ensures k < n && id in entries
    ensures Chain(log[..n], Some(id)) == Chain(log[..k], entries[id].parent) + [entries[id]]
    ensures entries[id].parent.Some? ==> Has(log[..k], entries[id].parent.value)
  {
    k := Position(log, n, id);
    assert Lookup(entries, log[k].id) == Some(log[k]);
    ChainStep(log, n, k);
  }

  /** Follows the parents from `start` to the root. */
  method Walk(entries: map<Id, Record>, ghost log: seq<Record>, start: Option<Id>) returns (chain: seq<Record>)
    requires Indexed(entries, log) && (start.Some? ==> Has(log, start.value))
    ensures chain == Chain(log, start)
  {
    var cursor := start;
    chain := [];
    ghost var n := |log|;
    assert log[..n] == log;
    while cursor.Some?
      invariant n <= |log| && (cursor.Some? ==> Has(log[..n], cursor.value))
      invariant Chain(log, start) == Chain(log[..n], cursor) + chain
      decreases n
    {
      ghost var k := ParentStep(entries, log, n, cursor.value);
      var record := entries[cursor.value];
      Regroup(Chain(log[..k], record.parent), [record], chain);
      chain := [record] + chain;
      cursor := record.parent;
      n := k;
    }
    assert Chain(log[..n], cursor) == [];
  }

  ghost function Position(log: seq<Record>, n: nat, id: Id): (k: nat)
    requires n <= |log| && Has(log[..n], id)
    ensures k < n && log[k].id == id
  {
    var k :| 0 <= k < n && log[..n][k].id == id;
    k
  }

  method ReadBranch(entries: map<Id, Record>, ghost log: seq<Record>, start: Option<Id>) returns (r: Snapshot)
    requires Indexed(entries, log) && (start.Some? ==> Has(log, start.value))
    ensures r == Snapshot(History(log, start), StateAt(log, start))
  {
    var chain := Walk(entries, log, start);
    var state: State := map[];
    if start.Some? {
      HeadEndsChain(log, start.value);
      assert Lookup(entries, start.value) == Some(chain[|chain| - 1]);
      match entries[start.value].payload
      case TurnCommit(selected) => state := selected;
      case Checkpoint(selected) => state := selected;
      case _ =>
    }
    r := Snapshot(Messages(chain), state);
  }

  /** The records a session appends to an open turn. */
  predicate Plain(payload: Payload) {
    match payload
    case Saved(message) => ValidMessage(message)
    case TurnStart(_) => true
    case _ => false
  }

  lemma PlainKeeps(s: Store, id: Id, payload: Payload, entries: map<Id, Record>)
    requires Consistent(s) && NewId(s, id) && Plain(payload) && entries == Replay(s.log).value.entries
    ensures id !in entries && Consistent(Appended(s, id, payload))
    ensures Replay(s.log + [Record(id, s.head, payload)]).Some?
    ensures Replay(s.log + [Record(id, s.head, payload)]).value.entries == entries[id := Record(id, s.head, payload)]
  {
    AppendAgrees(s, id, payload);
    ReplayEntries(s.log);
    EntriesGrow(s.log, Record(id, s.head, payload));
  }

  /** The whole invariant of a store: memory is what loading its log gives, and the file holds the log. */
  ghost predicate Sound(codec: Codec, header: Bytes, s: Store, entries: map<Id, Record>,
                        survivor: Option<Record>, failed: bool, stream: Bytes) {
    && Faithful(codec)
    && Consistent(s) && entries == Replay(s.log).value.entries
    && Holds(codec, header, s.log, survivor, failed, stream)
  }

  /** An append that a session makes keeps the invariant, whether it works or not. */
  lemma PlainSound(codec: Codec, header: Bytes, s: Store, entries: map<Id, Record>, survivor: Option<Record>, failed: bool,
                   stream: Bytes, id: Id, payload: Payload, io: Io)
    requires Sound(codec, header, s, entries, survivor, failed, stream) && NewId(s, id) && Plain(payload)
    ensures var r := Record(id, s.head, payload);
      var n, miss := Landed(failed, io, |Line(codec, r)|), PlainMiss(failed, io, |Line(codec, r)|);
      var after := stream + Line(codec, r)[..n];
      && id !in entries
      && if !failed && io.Written? then Sound(codec, header, Appended(s, id, payload), entries[id := r], survivor, failed, after)
         else Sound(codec, header, s, entries, if miss.whole then Some(r) else survivor, failed || miss.breaks, after)
  {
    PlainKeeps(s, id, payload, entries);
    PlainHolds(codec, header, s.log, survivor, failed, stream, Record(id, s.head, payload), io);
  }

  /** So does a new selection, made or failed. */
  lemma SelectSound(codec: Codec, header: Bytes, s: Store, entries: map<Id, Record>, survivor: Option<Record>, failed: bool,
                    stream: Bytes, op: Op, io: Io, sync: Sync, repair: Repair)
    requires Sound(codec, header, s, entries, survivor, failed, stream) && Enabled(s, op) && !op.Abort?
    ensures var r := NewRecord(s, op);
      var n, miss := Landed(failed, io, |Line(codec, r)|), DurableMiss(failed, io, |Line(codec, r)|, sync, repair);
      var after := stream + Line(codec, r)[..n];
      && op.id !in entries
      && if !failed && io.Written? && sync.Synced? then
           Sound(codec, header, Step(s, op), entries[op.id := r], survivor, failed, after)
         else Sound(codec, header, s, entries, if miss.whole then Some(r) else survivor, failed || miss.breaks,
                    if repair.Stuck? then after else stream)
  {
    var r := NewRecord(s, op);
    StepConsistent(s, op);
    RecordAccepted(s, op);
    ReplayAppend(s, r);
    AcceptAdds(Replay(s.log).value, r);
    DurableHolds(codec, header, s.log, survivor, failed, stream, r, io, sync, repair);
  }

  class SessionStore {
    const codec: Codec
    const header: Bytes
    ghost var log: seq<Record>
    ghost var survivor: Option<Record>
    var entries: map<Id, Record>
    var head: Option<Id>
    var committed: Option<Id>
    var failed: bool
    var stream: Bytes

    ghost function View(): Store
      reads this
    {
      Store(log, head, committed)
    }

    ghost predicate Valid()
      reads this
    {
      Sound(codec, header, View(), entries, survivor, failed, stream)
    }

    /** Reopening finds the log of the store, and behind it the record that survived its failed attempt. */
    lemma FileLoads()
      requires Valid()
      ensures var whole := Surviving(log, survivor);
        Load(codec, header, stream) == Loaded(whole, Replay(whole).value, Complete(stream))
    {
      TextLoads(codec, header, Surviving(log, survivor), stream);
    }

    /** Cut at any byte behind the header, the file reopens with the first `k` of those records. */
    lemma CrashLoads(n: nat) returns (k: nat)
      requires Valid() && n <= Complete(stream) && Complete(stream[..n]) > 0
      ensures var whole := Surviving(log, survivor);
        && k <= |whole| && k == |SplitLines(stream[..Complete(stream[..n])], [])| - 1 && Replay(whole[..k]).Some?
        && Load(codec, header, stream[..n]) == Loaded(whole[..k], Replay(whole[..k]).value, Complete(stream[..n]))
    {
      var text := stream[..Complete(stream)];
      assert text[..n] == stream[..n] && text[..Complete(stream[..n])] == stream[..Complete(stream[..n])];
      k := CutText(codec, header, Surviving(log, survivor), text, n);
    }

    /** A new journal. */
    constructor (codec: Codec, header: Bytes)
      requires Faithful(codec) && OneLine(header)
      ensures Valid() && View() == Store([], None, None) && !failed
    {
      this.codec, this.header := codec, header;
      log, survivor, entries, head, committed, failed := [], None, map[], None, None, false;
      stream := header + [LF];
      new;
      HeaderIsText(codec, header);
      assert stream[..|stream|] == stream;
    }

    /** Loads any file that can be loaded; the cursor of the working branch starts at the selection. */
    constructor Open(codec: Codec, header: Bytes, raw: Bytes)
      requires Faithful(codec) && Load(codec, header, raw).Loaded?
      ensures Valid() && !failed
      ensures var loaded := Load(codec, header, raw);
        && View() == Store(loaded.log, loaded.memory.committed, loaded.memory.committed)
        && stream == raw[..Complete(raw)]
    {
      this.codec, this.header := codec, header;
      var complete := Complete(raw);
      var records := DecodeAll(codec, SplitLines(raw[..complete], [])[1..]).value;
      var memory := Memory(map[], None);
      for i := 0 to |records|
        invariant Replay(records[..i]) == Some(memory)
      {
        assert records[..i + 1][..i] == records[..i] && records[..|records|] == records;
        ReplayPrefix(records, i + 1);
        memory := Accept(memory, records[i]).value;
      }
      assert records[..|records|] == records;
      entries, committed, head := memory.entries, memory.committed, memory.committed;
      failed := false;
      stream := raw[..complete];
      log, survivor := records, None;
      new;
      CompleteIsText(raw);
      assert stream[..|stream|] == stream;
      if committed.Some? { ReplayShape(log); DecisionHas(log, committed.value); }
    }

    method Write(r: Record, io: Io) returns (ok: bool)
      modifies `stream, `failed
      ensures ok <==> !old(failed) && io.Written?
      ensures failed == (old(failed) || io.Torn?)
      ensures stream == old(stream) + Line(codec, r)[..Landed(old(failed), io, |Line(codec, r)|)]
      ensures ok ==> stream == old(stream) + Line(codec, r)
      ensures old(failed) || io.Refused? ==> stream == old(stream)
    {
      if failed { return false; }
      match io
      case Written =>
        stream := stream + Line(codec, r);
        ok := true;
      case Torn(n) =>
        stream := stream + (if n > |Line(codec, r)| then Line(codec, r) else Line(codec, r)[..n]);
        failed := true;
        ok := false;
      case Refused =>
        ok := false;
    }

    /** Appends to the working branch; a failure changes nothing in memory. */
    method Append(id: Id, payload: Payload, io: Io) returns (ok: bool)
      requires id !in entries
      modifies this
      ensures ok <==> !old(failed) && io.Written?
      ensures ok ==> View() == Appended(old(View()), id, payload)
      ensures ok ==> log == old(log) + [Record(id, old(head), payload)] && head == Some(id) && committed == old(committed)
      ensures ok ==> entries == old(entries)[id := Record(id, old(head), payload)]
      ensures !ok ==> View() == old(View()) && entries == old(entries)
      ensures failed == (old(failed) || io.Torn?) && survivor == old(survivor)
      ensures var line := Line(codec, Record(id, old(head), payload));
        stream == old(stream) + line[..Landed(old(failed), io, |line|)]
    {
      var record := Record(id, head, payload);
      ok := Write(record, io);
      if ok {
        entries := entries[id := record];
        head := Some(id);
        log := log + [record];
      }
    }

    /** What a session appends to an open turn keeps the store valid. */
    method AppendPlain(id: Id, payload: Payload, io: Io) returns (ok: bool, ghost miss: Miss)
      requires Valid() && NewId(View(), id) && Plain(payload)
      modifies this
      ensures Valid()
      ensures ok <==> !old(failed) && io.Written?
      ensures View() == if ok then Appended(old(View()), id, payload) else old(View())
      ensures ok ==> log == old(log) + [Record(id, old(head), payload)] && head == Some(id) && committed == old(committed)
      ensures miss == PlainMiss(old(failed), io, |Line(codec, Record(id, old(head), payload))|)
      ensures failed == (old(failed) || miss.breaks)
      ensures survivor == if miss.whole then Some(Record(id, old(head), payload)) else old(survivor)
    {
      ghost var record := Record(id, head, payload);
      PlainSound(codec, header, View(), entries, survivor, failed, stream, id, payload, io);
      miss := PlainMiss(failed, io, |Line(codec, record)|);
      ok := Append(id, payload, io);
      if miss.whole { survivor := Some(record); }
    }

    /** Appends below `parent` and makes it durable, or takes the attempt back. */
    method DurableAppend(id: Id, payload: Payload, parent: Option<Id>, io: Io, sync: Sync, repair: Repair)
      returns (ok: bool, ghost miss: Miss)
      requires id !in entries
      modifies this
      ensures ok <==> !old(failed) && io.Written? && sync.Synced?
      ensures ok ==>
                && log == old(log) + [Record(id, parent, payload)] && head == Some(id) && committed == old(committed)
                && entries == old(entries)[id := Record(id, parent, payload)]
      ensures !ok ==> View() == old(View()) && entries == old(entries)
      ensures var line := Line(codec, Record(id, parent, payload));
        stream == if ok || repair.Stuck? then old(stream) + line[..Landed(old(failed), io, |line|)] else old(stream)
      ensures Attempted(old(failed), old(survivor), ok, miss, Record(id, parent, payload), io, sync, repair)
    {
      var previous, offset := head, |stream|;
      var record := Record(id, parent, payload);
      ghost var line := Line(codec, record);
      assert (stream + line[..Landed(failed, io, |line|)])[..offset] == stream;
      miss := DurableMiss(failed, io, |line|, sync, repair);
      ok := Attempt(record, io, sync);
      if ok {
        log := log + [record];
      } else {
        TakeBack(record, previous, offset, repair);
        if miss.whole { survivor := Some(record); }
      }
    }

    /** Writes and synchronizes one record; the dictionary has it even if only the synchronization failed. */
    method Attempt(record: Record, io: Io, sync: Sync) returns (ok: bool)
      requires record.id !in entries
      modifies `head, `entries, `stream, `failed
      ensures ok <==> !old(failed) && io.Written? && sync.Synced?
      ensures entries - {record.id} == old(entries)
      ensures ok ==> head == Some(record.id) && entries == old(entries)[record.id := record]
      ensures failed == (old(failed) || io.Torn? || (io.Written? && sync.Unsynced?))
      ensures stream == old(stream) + Line(codec, record)[..Landed(old(failed), io, |Line(codec, record)|)]
    {
      head := record.parent;
      ok := Write(record, io);
      if ok {
        entries := entries[record.id := record];
        head := Some(record.id);
        if sync.Unsynced? { failed := true; }
        ok := sync.Synced?;
      }
    }

    /** Forgets the record in memory and, if the file can be truncated, there too. */
    method TakeBack(record: Record, previous: Option<Id>, offset: nat, repair: Repair)
      requires offset <= |stream|
      modifies `head, `entries, `stream, `failed
      ensures head == previous && entries == old(entries) - {record.id}
      ensures stream == if repair.Stuck? then old(stream) else old(stream)[..offset]
      ensures failed == (old(failed) || !repair.Truncated?)
    {
      head := previous;
      entries := entries - {record.id};
      if !repair.Stuck? { stream := stream[..offset]; }
      if !repair.Truncated? { failed := true; }
    }

    method CommitTurn(id: Id, state: State, io: Io, sync: Sync, repair: Repair) returns (ok: bool, ghost miss: Miss)
      requires Valid() && NewId(View(), id)
      modifies this
      ensures Valid()
      ensures ok <==> !old(failed) && io.Written? && sync.Synced?
      ensures View() == if ok then Step(old(View()), Commit(id, state)) else old(View())
      ensures ok ==> log == old(log) + [Record(id, old(head), TurnCommit(state))] && head == committed == Some(id)
      ensures Attempted(old(failed), old(survivor), ok, miss, Record(id, old(head), TurnCommit(state)), io, sync, repair)
    {
      ghost var was, next := View(), Step(View(), Commit(id, state));
      SelectSound(codec, header, was, entries, survivor, failed, stream, Commit(id, state), io, sync, repair);
      ok, miss := DurableAppend(id, TurnCommit(state), head, io, sync, repair);
      if ok { committed := Some(id); }
      assert View() == if ok then next else was;
      assert ok ==> Sound(codec, header, next, entries, survivor, failed, stream);
    }

    /** What an attempt to append a selection leaves behind. */
    ghost predicate Attempted(was: bool, had: Option<Record>, ok: bool, miss: Miss, r: Record, io: Io, sync: Sync, repair: Repair)
      reads this
    {
      if ok then !failed && survivor == had
      else
        && miss == DurableMiss(was, io, |Line(codec, r)|, sync, repair)
        && failed == (was || miss.breaks) && survivor == if miss.whole then Some(r) else had
    }

    method CheckpointState(id: Id, state: State, io: Io, sync: Sync, repair: Repair) returns (ok: bool, ghost miss: Miss)
      requires Valid() && NewId(View(), id)
      modifies this
      ensures Valid()
      ensures ok <==> !old(failed) && io.Written? && sync.Synced?
      ensures View() == if ok then Step(old(View()), Checkpointed(id, state)) else old(View())
      ensures ok ==> log == old(log) + [Record(id, old(committed), Checkpoint(state))] && committed == Some(id)
      ensures ok ==> head == if old(head) == old(committed) then Some(id) else old(head)
      ensures Attempted(old(failed), old(survivor), ok, miss, Record(id, old(committed), Checkpoint(state)), io, sync, repair)
    {
      var working, selected := head, committed;
      ghost var was, next := View(), Step(View(), Checkpointed(id, state));
      SelectSound(codec, header, was, entries, survivor, failed, stream, Checkpointed(id, state), io, sync, repair);
      ok, miss := DurableAppend(id, Checkpoint(state), selected, io, sync, repair);
      if ok {
        committed := Some(id);
        if working != selected { head := working; }
      }
      assert View() == if ok then next else was;
      assert ok ==> Sound(codec, header, next, entries, survivor, failed, stream);
    }

    method AbortTurn()
      requires Valid()
      modifies `head
      ensures Valid() && View() == Step(old(View()), Abort) && head == committed
    {
      if committed.Some? { CommittedExists(View()); }
      head := committed;
    }

    /** Only a completed turn can be forked. */
    method ValidateFork(target: Id) returns (valid: bool)
      requires Valid()
      ensures valid <==> IsTurn(log, target)
      ensures valid <==> exists i :: 0 <= i < |log| && log[i].id == target && log[i].payload.TurnCommit?
      ensures valid ==> Has(log, target)
    {
      TurnLookup(target);
      valid := target in entries && entries[target].payload.TurnCommit?;
      if valid { TurnExists(View(), target); }
    }

    /** Goes back to a completed turn. */
    method SelectTurn(id: Id, target: Id, io: Io, sync: Sync, repair: Repair) returns (ok: bool, ghost miss: Miss)
      requires Valid() && NewId(View(), id) && IsTurn(log, target)
      modifies this
      ensures Valid()
      ensures ok <==> !old(failed) && io.Written? && sync.Synced?
      ensures View() == if ok then Step(old(View()), Fork(id, target)) else old(View())
      ensures ok ==> log == old(log) + [Record(id, Some(target), Select(Some(target)))] && head == committed == Some(target)
      ensures Attempted(old(failed), old(survivor), ok, miss, Record(id, Some(target), Select(Some(target))), io, sync, repair)
    {
      ghost var was, next, record := View(), Step(View(), Fork(id, target)), NewRecord(View(), Fork(id, target));
      SelectSound(codec, header, was, entries, survivor, failed, stream, Fork(id, target), io, sync, repair);
      assert record == Record(id, Some(target), Select(Some(target)));
      assert next == Store(was.log + [record], Some(target), Some(target));
      ok, miss := DurableAppend(id, Select(Some(target)), Some(target), io, sync, repair);
      if ok { head, committed := Some(target), Some(target); }
      assert View() == if ok then next else was;
    }

    /** Refuses anything but a completed turn. */
    method ForkAt(id: Id, target: Id, io: Io, sync: Sync, repair: Repair) returns (ok: bool, ghost miss: Miss)
      requires Valid() && NewId(View(), id)
      modifies this
      ensures Valid()
      ensures ok <==> old(IsTurn(log, target)) && !old(failed) && io.Written? && sync.Synced?
      ensures View() == if ok then Step(old(View()), Fork(id, target)) else old(View())
      ensures ok ==> log == old(log) + [Record(id, Some(target), Select(Some(target)))] && head == committed == Some(target)
      ensures !old(IsTurn(log, target)) ==> failed == old(failed) && survivor == old(survivor)
      ensures old(IsTurn(log, target)) ==>
                Attempted(old(failed), old(survivor), ok, miss, Record(id, Some(target), Select(Some(target))), io, sync, repair)
    {
      var valid := ValidateFork(target);
      if valid {
        ok, miss := SelectTurn(id, target, io, sync, repair);
      } else {
        ok, miss := false, Miss(false, false);
      }
    }

    /** Reads the selected branch, or that of a completed turn, without changing anything. */
    method ReadSnapshot(at: Option<Id>) returns (r: Option<Snapshot>)
      requires Valid()
      ensures at == None ==> r == Some(SnapshotAt(View(), committed))
      ensures at.Some? && IsTurn(log, at.value) ==> r == Some(SnapshotAt(View(), at))
      ensures at.Some? && !IsTurn(log, at.value) ==> r == None
      ensures at == None && committed == None ==> r == Some(Snapshot([], map[]))
    {
      if at.Some? {
        var valid := ValidateFork(at.value);
        if !valid { return None; }
      }
      if committed.Some? { CommittedExists(View()); }
      IsIndexed(log);
      var start := if at == None then committed else at;
      var snapshot := ReadBranch(entries, log, start);
      r := Some(snapshot);
    }

    lemma TurnLookup(target: Id)
      requires Valid()
      ensures IsTurn(log, target) <==> target in entries && entries[target].payload.TurnCommit?
    {
      ReplayEntries(log);
      ReplayShape(log);
      if target in entries {
        var i :| 0 <= i < |log| && log[i].id == target;
        assert Lookup(entries, log[i].id) == Some(log[i]);
      }
    }
  }

  lemma {:induction false} HeadEndsChain(log: seq<Record>, id: Id)
    requires Rooted(log) && Has(log, id)
    ensures Chain(log, Some(id)) != [] && Chain(log, Some(id))[|Chain(log, Some(id))| - 1].id == id
    ensures Chain(log, Some(id))[|Chain(log, Some(id))| - 1] in log
  {
    var k :| 0 <= k < |log| && log[k].id == id;
    assert log[..|log|] == log;
    ChainStep(log, |log|, k);
  }
}