/** Turns of a session and the store below them (raychat/session.py). */
module SessionTurns {
  import opened Effects
  import opened SessionJournal
  import opened SessionRecords
  import opened SessionStore

  // ---------------------------------------------------------------- a session as a value

  /** `rollback` is what an abort returns to; a `broken` store refuses every write. `survivor` is a record that is in the
    * file although its append failed. */
  datatype Session = Session(
    history: seq<Message>,
    state: State,
    rollback: Option<State>,
    owners: set<Owner>,
    store: Store,
    broken: bool,
    survivor: Option<Record>)

  datatype Action =
    | Write(state: State)                            // plugins replace their state
    | Say(id: Id, message: Message)                  // one message joins the history
    | Begin(id: Id, promptId: int)                   // the store notes the start of a prompt
    | Keep(id: Id, owner: Owner)                     // an owner checkpoints its own state
    | KeepFails(id: Id, owner: Owner, miss: Miss)    // or tries to

  /** How an external turn ends once its snapshot is adopted and the restore hooks run; `said` are its stored messages. */
  datatype Completion =
    | HooksRaise
    | SaveFails(said: seq<Op>, next: Op, miss: Miss)
    | RecordFails(said: seq<Op>, id: Id, miss: Miss)
    | Recorded(said: seq<Op>, id: Id)

  /** An exception ends the turn, so does a write that raises. An external turn is rejected unless it extends the history;
    * otherwise its snapshot is adopted, and `gap` is what happens while the restore hooks run. */
  datatype Ending =
    | Aborts
    | Stumbles(op: Op, miss: Miss)
    | Commits(id: Id)
    | CommitFails(id: Id, miss: Miss)
    | Rejects(snapshot: Snapshot)
    | Completes(snapshot: Snapshot, gap: seq<Action>, completion: Completion)

  /** `after` is what commands do to the state until the next turn. */
  datatype Turn = Turn(actions: seq<Action>, ending: Ending, after: seq<Action>)

  function Open(s: Session): Session {
    s.(rollback := Some(s.state), owners := {})
  }

  /** `base` with the namespace of `owner` as it is in `from`. */
  function Adopt(base: State, from: State, owner: Owner): State {
    if owner in from then base[owner := from[owner]] else base - {owner}
  }

  /** What a checkpoint of `owner` saves: within a turn, nobody else's changes. */
  function ToKeep(s: Session, owner: Owner): State {
    Adopt(if s.rollback.Some? then s.rollback.value else s.state, s.state, owner)
  }

  /** The store selects `state`, and within a turn an abort returns to it. */
  function Kept(s: Session, id: Id, owner: Owner, state: State): Session {
    s.(store := Step(s.store, Checkpointed(id, state)),
       rollback := if s.rollback.Some? then Some(state) else None,
       owners := if s.rollback.Some? then s.owners + {owner} else s.owners)
  }

  function Said(s: Session, id: Id, message: Message): Session {
    s.(history := s.history + [message], store := Appended(s.store, id, Saved(message)))
  }

  /** The append of `r` failed. */
  function Missed(s: Session, r: Record, miss: Miss): Session {
    s.(broken := s.broken || miss.breaks, survivor := if miss.whole then Some(r) else s.survivor)
  }

  /** A broken store writes nothing, and a record stays in the file only where the store breaks. */
  predicate CanMiss(s: Session, miss: Miss) {
    miss.whole ==> miss.breaks && !s.broken
  }

  function Act(s: Session, a: Action): Session {
    match a
    case Write(state) => s.(state := state)
    case Say(id, message) => Said(s, id, message)
    case Begin(id, promptId) => s.(store := Step(s.store, AppendStart(id, promptId)))
    case Keep(id, owner) => Kept(s, id, owner, ToKeep(s, owner))
    case KeepFails(id, owner, miss) => Missed(s, NewRecord(s.store, Checkpointed(id, ToKeep(s, owner))), miss)
  }

  predicate CanAct(s: Session, a: Action) {
    match a
    case Write(_) => true
    case Say(id, message) => !s.broken && NewId(s.store, id) && ValidMessage(message)
    case Begin(id, _) => !s.broken && NewId(s.store, id)
    case Keep(id, _) => !s.broken && NewId(s.store, id)
    case KeepFails(id, _, miss) => NewId(s.store, id) && CanMiss(s, miss)
  }

  function CommitTurn(s: Session, id: Id): Session {
    s.(store := Step(s.store, Commit(id, s.state)), rollback := None)
  }

  /** The end of a turn: an undecided one goes back to its start. */
  function Finish(s: Session, start: seq<Message>): Session {
    match s.rollback
    case None => s.(owners := {})
    case Some(state) => s.(history := start, store := Step(s.store, Abort), state := state, rollback := None, owners := {})
  }

  /** `state` with every checkpointed namespace as `kept` has it. */
  function Retain(state: State, kept: State, owners: set<Owner>): State {
    map o | o in state.Keys + kept.Keys && (if o in owners then o in kept else o in state) ::
      if o in owners then kept[o] else state[o]
  }

  /** The appends that record `messages`, in order. */
  predicate Records(said: seq<Op>, messages: seq<Message>) {
    |said| == |messages| && forall i | 0 <= i < |said| :: said[i].AppendMessage? && said[i].message == messages[i]
  }

  predicate AllValid(messages: seq<Message>) {
    forall i | 0 <= i < |messages| :: ValidMessage(messages[i])
  }

  /** An external turn is adopted if its messages are valid and extend the history. */
  predicate Extends(s: Session, snapshot: Snapshot) {
    s.rollback.Some? && AllValid(snapshot.history) && s.history <= snapshot.history
  }

  function Adopted(s: Session, snapshot: Snapshot): Session
    requires s.rollback.Some?
  {
    s.(history := snapshot.history, state := Retain(snapshot.state, s.rollback.value, s.owners))
  }

  function ActAll(s: Session, actions: seq<Action>): Session {
    if actions == [] then s else Act(ActAll(s, actions[..|actions| - 1]), actions[|actions| - 1])
  }

  predicate CanActAll(s: Session, actions: seq<Action>) {
    actions == [] ||
    (CanActAll(s, actions[..|actions| - 1]) && CanAct(ActAll(s, actions[..|actions| - 1]), actions[|actions| - 1]))
  }

  function Storing(s: Session, said: seq<Op>): Session {
    s.(store := Run(s.store, said))
  }

  /** `s` is the session before the snapshot was adopted, `t` the one after the gap. */
  function Complete(s: Session, t: Session, completion: Completion): Session
    requires completion.SaveFails? ==> !completion.next.Abort?
  {
    match completion
    case HooksRaise => t.(history := s.history, state := s.state)
    case SaveFails(said, next, miss) => Missed(Storing(t, said), NewRecord(Run(t.store, said), next), miss)
    case RecordFails(said, id, miss) => Missed(Storing(t, said), NewRecord(Run(t.store, said), Commit(id, t.state)), miss)
    case Recorded(said, id) => CommitTurn(Storing(t, said), id)
  }

  predicate CanSave(t: Session, said: seq<Op>, messages: seq<Message>) {
    Records(said, messages) && EnabledRun(t.store, said) && (said != [] ==> !t.broken)
  }

  /** `added` are the messages that the adopted history adds. */
  predicate CanComplete(t: Session, added: seq<Message>, completion: Completion) {
    match completion
    case HooksRaise => true
    case SaveFails(said, next, miss) =>
      && |said| < |added| && CanSave(t, said, added[..|said|]) && CanMiss(t, miss)
      && next.AppendMessage? && next.message == added[|said|] && Enabled(Run(t.store, said), next)
    case RecordFails(said, id, miss) => CanSave(t, said, added) && NewId(Run(t.store, said), id) && CanMiss(t, miss)
    case Recorded(said, id) => !t.broken && CanSave(t, said, added) && NewId(Run(t.store, said), id)
  }

  function End(s: Session, ending: Ending): Session
    requires CanEnd(s, ending)
  {
    match ending
    case Aborts => s
    case Stumbles(op, miss) => Missed(s.(history := s.history + AddedBy(op)), NewRecord(s.store, op), miss)
    case Commits(id) => CommitTurn(s, id)
    case CommitFails(id, miss) => Missed(s, NewRecord(s.store, Commit(id, s.state)), miss)
    case Rejects(_) => s
    case Completes(snapshot, gap, completion) => Complete(s, ActAll(Adopted(s, snapshot), gap), completion)
  }

  /** What commands and hooks can do while no message is added: write state and checkpoint it. */
  predicate Quiet(actions: seq<Action>) {
    forall i | 0 <= i < |actions| :: actions[i].Write? || actions[i].Keep? || actions[i].KeepFails?
  }

  predicate CanEnd(s: Session, ending: Ending) {
    match ending
    case Aborts => true
    case Stumbles(op, miss) => (op.AppendMessage? || op.AppendStart?) && Enabled(s.store, op) && CanMiss(s, miss)
    case Commits(id) => !s.broken && NewId(s.store, id)
    case CommitFails(id, miss) => NewId(s.store, id) && CanMiss(s, miss)
    case Rejects(snapshot) => !Extends(s, snapshot)
    case Completes(snapshot, gap, completion) =>
      && Extends(s, snapshot) && Quiet(gap) && CanActAll(Adopted(s, snapshot), gap)
      && CanComplete(ActAll(Adopted(s, snapshot), gap), snapshot.history[|s.history|..], completion)
  }

  /** The turn itself. */
  function Turned(s: Session, turn: Turn): Session
    requires CanTurn(s, turn)
  {
    Finish(End(ActAll(Open(s), turn.actions), turn.ending), s.history)
  }

  predicate CanTurn(s: Session, turn: Turn) {
    && s.rollback == None && CanActAll(Open(s), turn.actions) && CanEnd(ActAll(Open(s), turn.actions), turn.ending)
    && Quiet(turn.after)
    && CanActAll(Finish(End(ActAll(Open(s), turn.actions), turn.ending), s.history), turn.after)
  }

  function RunTurn(s: Session, turn: Turn): Session
    requires CanTurn(s, turn)
  {
    ActAll(Turned(s, turn), turn.after)
  }

  predicate CanTurns(s: Session, turns: seq<Turn>)
    decreases |turns|, 0
  {
    turns == [] ||
    (CanTurns(s, turns[..|turns| - 1]) && CanTurn(RunTurns(s, turns[..|turns| - 1]), turns[|turns| - 1]))
  }

  function RunTurns(s: Session, turns: seq<Turn>): Session
    requires CanTurns(s, turns)
    decreases |turns|, 1
  {
    if turns == [] then s else RunTurn(RunTurns(s, turns[..|turns| - 1]), turns[|turns| - 1])
  }

  // ---------------------------------------------------------------- what reopening the store would restore

  /** The snapshot that a loaded file selects. */
  ghost function Restored(log: seq<Record>): Snapshot
    requires Replay(log).Some?
  {
    var selected := Replay(log).value.committed;
    Snapshot(History(log, selected), StateAt(log, selected))
  }

  function Whole(s: Session): seq<Record> {
    Surviving(s.store.log, s.survivor)
  }

  /** Memory and journal are together, and the file can be loaded with what survives in it. */
  ghost predicate Sturdy(s: Session) {
    && Consistent(s.store)
    && (s.survivor.Some? ==> s.broken && Replay(Whole(s)).Some?)
  }

  /** Memory holds exactly what reopening the file would restore. */
  ghost predicate Agree(s: Session) {
    Replay(Whole(s)).Some? && Restored(Whole(s)) == Snapshot(s.history, s.state)
  }

  /** What is selected: by the last durable selection, or by a surviving record that selects. */
  function Selected(s: Session): Snapshot {
    var log := s.store.log;
    match s.survivor
    case Some(Record(_, parent, TurnCommit(state))) => Snapshot(History(log, parent), state)
    case Some(Record(_, parent, Checkpoint(state))) => Snapshot(History(log, parent), state)
    case Some(Record(_, _, Select(target))) => SnapshotAt(s.store, target)
    case _ => SnapshotAt(s.store, s.store.committed)
  }

  lemma SurvivorIsNew(s: Session)
    requires Sturdy(s) && s.survivor.Some?
    ensures var r := s.survivor.value;
      && Replay(Whole(s)) == Accept(Replay(s.store.log).value, r)
      && !Has(s.store.log, r.id) && (r.parent.Some? ==> Has(s.store.log, r.parent.value))
  {
    ReplayAppend(s.store, s.survivor.value);
    ReplayEntries(s.store.log);
  }

  lemma DecisionSelects(s: Session, state: State)
    requires Sturdy(s) && s.survivor.Some? && s.survivor.value.payload in {TurnCommit(state), Checkpoint(state)}
    ensures Restored(Whole(s)) == Snapshot(History(s.store.log, s.survivor.value.parent), state)
  {
    var log, r := s.store.log, s.survivor.value;
    SurvivorIsNew(s);
    assert Replay(log + [r]).value.committed == Some(r.id);
    NewHistory(log, r);
    NewState(log, r, state);
  }

  lemma SelectionStays(s: Session)
    requires Sturdy(s) && s.survivor.Some? && (s.survivor.value.payload.Saved? || s.survivor.value.payload.TurnStart?)
    ensures Restored(Whole(s)) == SnapshotAt(s.store, s.store.committed)
  {
    var log, r := s.store.log, s.survivor.value;
    SurvivorIsNew(s);
    assert Replay(log + [r]).value.committed == s.store.committed;
    if s.store.committed.Some? { CommittedExists(s.store); }
    HistoryGrows(log, r, s.store.committed);
    StateGrows(log, r, s.store.committed);
  }

  lemma OldIsSelected(s: Session, target: Option<Id>)
    requires Sturdy(s) && s.survivor.Some? && s.survivor.value.payload == Select(target)
    ensures Restored(Whole(s)) == SnapshotAt(s.store, target)
  {
    var log, r := s.store.log, s.survivor.value;
    SurvivorIsNew(s);
    ReplayEntries(log);
    assert Replay(log + [r]).value.committed == target;
    HistoryGrows(log, r, target);
    StateGrows(log, r, target);
  }

  /** Reopening finds just that selection. */
  lemma ReopeningSelects(s: Session)
    requires Sturdy(s)
    ensures Replay(Whole(s)).Some? && Restored(Whole(s)) == Selected(s)
  {
    if s.survivor.Some? {
      match s.survivor.value.payload
      case TurnCommit(state) => DecisionSelects(s, state);
      case Checkpoint(state) => DecisionSelects(s, state);
      case Select(target) => OldIsSelected(s, target);
      case Unsupported(_) => SurvivorIsNew(s);
      case _ => SelectionStays(s);
    }
  }

  // ---------------------------------------------------------------- what every step keeps

  /** An undecided turn: the store still selects its start, with the checkpoints made since. */
  ghost predicate Undecided(s: Session, start: seq<Message>) {
    Sturdy(s) && s.rollback.Some? && History(s.store.log, s.store.committed) == start
  }

  /** The working branch of the store has these messages. */
  ghost predicate OpenAt(s: Session, start: seq<Message>, stored: seq<Message>) {
    Undecided(s, start) && History(s.store.log, s.store.head) == stored
  }

  /** Between turns the selection has the history in memory; the state may have been written since. */
  ghost predicate Settled(s: Session) {
    && Sturdy(s) && s.rollback == None
    && s.store.head == s.store.committed && History(s.store.log, s.store.committed) == s.history
  }

  function SaidBy(a: Action): seq<Message> {
    if a.Say? then [a.message] else []
  }

  lemma MissSturdy(s: Session, op: Op, miss: Miss)
    requires Sturdy(s) && Enabled(s.store, op) && !op.Abort? && CanMiss(s, miss)
    ensures Sturdy(Missed(s, NewRecord(s.store, op), miss))
  {
    RecordAccepted(s.store, op);
    ReplayAppend(s.store, NewRecord(s.store, op));
  }

  lemma StoreStep(t: Store, op: Op)
    requires Consistent(t) && Enabled(t, op) && Pending(op)
    ensures var u := Step(t, op);
      && Consistent(u)
      && History(u.log, u.head) == History(t.log, t.head) + AddedBy(op)
      && (!op.Checkpointed? ==> SnapshotAt(u, u.committed) == SnapshotAt(t, t.committed))
  {
    StepConsistent(t, op);
    PendingStep(t, op);
    if !op.Checkpointed? {
      if t.committed.Some? { CommittedExists(t); }
      StateGrows(t.log, NewRecord(t, op), t.committed);
    }
  }

  lemma CommitStep(t: Store, id: Id, state: State)
    requires Consistent(t) && NewId(t, id)
    ensures var u := Step(t, Commit(id, state));
      && Consistent(u) && u.head == u.committed
      && SnapshotAt(u, u.committed) == Snapshot(History(t.log, t.head), state)
  {
    StepConsistent(t, Commit(id, state));
    NewHistory(t.log, NewRecord(t, Commit(id, state)));
    NewState(t.log, NewRecord(t, Commit(id, state)), state);
  }

  lemma CheckpointStep(t: Store, id: Id, state: State)
    requires Consistent(t) && NewId(t, id)
    ensures var u := Step(t, Checkpointed(id, state));
      && Consistent(u) && (t.head == t.committed ==> u.head == u.committed)
      && SnapshotAt(u, u.committed) == Snapshot(History(t.log, t.committed), state)
      && History(u.log, u.head) == History(t.log, t.head)
  {
    StoreStep(t, Checkpointed(id, state));
    CheckpointSelects(t, id, state);
  }

  /** The state that the last durable selection saved. */
  function SavedState(s: Session): State {
    StateAt(s.store.log, s.store.committed)
  }

  lemma ActOpen(s: Session, a: Action, start: seq<Message>, stored: seq<Message>)
    requires OpenAt(s, start, stored) && CanAct(s, a)
    ensures var t := Act(s, a); OpenAt(t, start, stored + SaidBy(a)) && t.history == s.history + SaidBy(a)
    ensures SavedState(Act(s, a)) == if a.Keep? then ToKeep(s, a.owner) else SavedState(s)
  {
    match a
    case Write(_) =>
    case Say(id, message) =>
      assert Appended(s.store, id, Saved(message)) == Step(s.store, AppendMessage(id, message));
      StoreStep(s.store, AppendMessage(id, message));
    case Begin(id, promptId) => StoreStep(s.store, AppendStart(id, promptId));
    case Keep(id, owner) => CheckpointStep(s.store, id, ToKeep(s, owner));
    case KeepFails(id, owner, miss) => MissSturdy(s, Checkpointed(id, ToKeep(s, owner)), miss);
  }

  predicate AnyKept(actions: seq<Action>) {
    exists i | 0 <= i < |actions| :: actions[i].Keep?
  }

  lemma AnyKeptMore(actions: seq<Action>, a: Action)
    ensures AnyKept(actions + [a]) <==> AnyKept(actions) || a.Keep?
  {
    if i :| 0 <= i < |actions| && actions[i].Keep? { assert (actions + [a])[i].Keep?; }
    if a.Keep? { assert (actions + [a])[|actions|].Keep?; }
  }

  /** What an abort returns to is saved once anything was kept; until then it is what the turn began with. */
  ghost predicate Returns(s: Session, kept: bool, state: State, saved: State) {
    && s.rollback.Some?
    && if kept then s.rollback.value == SavedState(s) else s.rollback.value == state && SavedState(s) == saved
  }

  /** The actions of a turn, from a session whose store has its whole history. */
  lemma {:induction false} ActAllOpen(s: Session, actions: seq<Action>, start: seq<Message>)
    requires OpenAt(s, start, s.history) && CanActAll(s, actions)
    ensures var t := ActAll(s, actions);
      && OpenAt(t, start, t.history) && Returns(t, AnyKept(actions), s.rollback.value, SavedState(s))
  {
    if actions != [] {
      var before, last := actions[..|actions| - 1], actions[|actions| - 1];
      ActAllOpen(s, before, start);
      var t := ActAll(s, before);
      ActOpen(t, last, start, t.history);
      assert actions == before + [last];
      AnyKeptMore(before, last);
    }
  }

  /** Commands and hooks add no message, wherever the store is. */
  lemma {:induction false} QuietOpen(s: Session, actions: seq<Action>, start: seq<Message>, stored: seq<Message>)
    requires OpenAt(s, start, stored) && CanActAll(s, actions) && Quiet(actions)
    ensures var t := ActAll(s, actions);
      && OpenAt(t, start, stored) && t.history == s.history
      && Returns(t, AnyKept(actions), s.rollback.value, SavedState(s))
  {
    if actions != [] {
      var before, last := actions[..|actions| - 1], actions[|actions| - 1];
      QuietOpen(s, before, start, stored);
      ActOpen(ActAll(s, before), last, start, stored);
      assert actions == before + [last];
      AnyKeptMore(before, last);
    }
  }

  lemma {:induction false} RecordsAdd(said: seq<Op>, messages: seq<Message>)
    requires Records(said, messages)
    ensures Added(said) == messages
  {
    if said != [] {
      RecordsAdd(said[..|said| - 1], messages[..|said| - 1]);
    }
  }

  /** Storing the messages of an adopted history. */
  lemma StoringOpen(t: Session, said: seq<Op>, messages: seq<Message>, start: seq<Message>, stored: seq<Message>)
    requires OpenAt(t, start, stored) && CanSave(t, said, messages)
    ensures OpenAt(Storing(t, said), start, stored + messages) && SavedState(Storing(t, said)) == SavedState(t)
  {
    RecordsAdd(said, messages);
    TurnCollects(t.store, said);
    RunConsistent(t.store, said);
    StoringKeeps(t.store, said);
    if t.survivor.Some? { assert Run(t.store, []) == t.store; }
  }

  lemma {:induction false} StoringKeeps(t: Store, said: seq<Op>)
    requires Consistent(t) && EnabledRun(t, said) && forall i | 0 <= i < |said| :: said[i].AppendMessage?
    ensures StateAt(Run(t, said).log, Run(t, said).committed) == StateAt(t.log, t.committed)
  {
    if said != [] {
      StoringKeeps(t, said[..|said| - 1]);
      RunConsistent(t, said[..|said| - 1]);
      StoreStep(Run(t, said[..|said| - 1]), said[|said| - 1]);
    }
  }

  lemma CommitSettles(s: Session, id: Id, start: seq<Message>)
    requires OpenAt(s, start, s.history) && !s.broken && NewId(s.store, id)
    ensures Settled(CommitTurn(s, id)) && SavedState(CommitTurn(s, id)) == s.state
  {
    CommitStep(s.store, id, s.state);
  }

  lemma FinishSettles(s: Session, start: seq<Message>)
    requires Undecided(s, start)
    ensures Settled(Finish(s, start)) && SavedState(Finish(s, start)) == SavedState(s)
    ensures Finish(s, start).state == s.rollback.value
  {
    StepConsistent(s.store, Abort);
  }

  /** The turn is in the store for good. */
  predicate Decides(ending: Ending) {
    ending.Commits? || (ending.Completes? && ending.completion.Recorded?)
  }

  function GapOf(ending: Ending): seq<Action> {
    if ending.Completes? then ending.gap else []
  }

  /** A turn that ends is decided with what it leaves in memory, or undecided with what an abort returns to. */
  ghost predicate Ended(t: Session, start: seq<Message>, decided: bool, kept: bool, state: State, saved: State) {
    if decided then Settled(t) && SavedState(t) == t.state
    else Undecided(t, start) && Returns(t, kept, state, saved)
  }

  lemma CompletionEnds(s: Session, t: Session, completion: Completion, added: seq<Message>, start: seq<Message>,
                       kept: bool, state: State, saved: State)
    requires OpenAt(t, start, s.history) && t.history == s.history + added && Returns(t, kept, state, saved)
    requires CanComplete(t, added, completion)
    ensures Ended(Complete(s, t, completion), start, completion.Recorded?, kept, state, saved)
  {
    match completion
    case HooksRaise =>
    case SaveFails(said, next, miss) =>
      StoringOpen(t, said, added[..|said|], start, s.history);
      MissSturdy(Storing(t, said), next, miss);
    case RecordFails(said, id, miss) =>
      StoringOpen(t, said, added, start, s.history);
      MissSturdy(Storing(t, said), Commit(id, t.state), miss);
    case Recorded(said, id) =>
      StoringOpen(t, said, added, start, s.history);
      CommitSettles(Storing(t, said), id, start);
  }

  lemma CompletesEnds(s: Session, ending: Ending, start: seq<Message>, kept: bool, state: State, saved: State)
    requires OpenAt(s, start, s.history) && Returns(s, kept, state, saved) && CanEnd(s, ending) && ending.Completes?
    ensures Ended(End(s, ending), start, Decides(ending), kept || AnyKept(GapOf(ending)), state, saved)
  {
    var snapshot := ending.snapshot;
    var adopted := Adopted(s, snapshot);
    QuietOpen(adopted, ending.gap, start, s.history);
    var t := ActAll(adopted, ending.gap);
    assert s.history + snapshot.history[|s.history|..] == snapshot.history;
    CompletionEnds(s, t, ending.completion, snapshot.history[|s.history|..], start, kept || AnyKept(ending.gap), state, saved);
  }

  lemma EndingEnds(s: Session, ending: Ending, start: seq<Message>, kept: bool, state: State, saved: State)
    requires OpenAt(s, start, s.history) && Returns(s, kept, state, saved) && CanEnd(s, ending)
    ensures Ended(End(s, ending), start, Decides(ending), kept || AnyKept(GapOf(ending)), state, saved)
  {
    match ending
    case Aborts =>
    case Rejects(_) =>
    case Stumbles(op, miss) => MissSturdy(s, op, miss);
    case Commits(id) => CommitSettles(s, id, start);
    case CommitFails(id, miss) => MissSturdy(s, Commit(id, s.state), miss);
    case Completes(_, _, _) => CompletesEnds(s, ending, start, kept, state, saved);
  }

  predicate KeptIn(turn: Turn) {
    AnyKept(turn.actions) || AnyKept(GapOf(turn.ending))
  }

  /** However a turn ends, the selection has the history in memory. Its state is the one in memory if the turn was decided
    * or anything was kept in it; otherwise both are as they were before the turn. */
  lemma TurnSettles(s: Session, turn: Turn)
    requires Settled(s) && CanTurn(s, turn)
    ensures var t := Turned(s, turn);
      && Settled(t)
      && (if Decides(turn.ending) || KeptIn(turn) then t.state == SavedState(t)
          else t.state == s.state && SavedState(t) == SavedState(s))
  {
    var u := ActAll(Open(s), turn.actions);
    ActAllOpen(Open(s), turn.actions, s.history);
    EndingEnds(u, turn.ending, s.history, AnyKept(turn.actions), s.state, SavedState(s));
    if !Decides(turn.ending) { FinishSettles(End(u, turn.ending), s.history); }
  }

  // ---------------------------------------------------------------- between turns

  function StateAfter(state: State, actions: seq<Action>): State {
    if actions == [] then state
    else match actions[|actions| - 1]
         case Write(latest) => latest
         case _ => StateAfter(state, actions[..|actions| - 1])
  }

  /** The state that was saved last, by then or by a checkpoint since. */
  function SavedBy(saved: State, state: State, actions: seq<Action>): State {
    if actions == [] then saved
    else if actions[|actions| - 1].Keep? then StateAfter(state, actions[..|actions| - 1])
    else SavedBy(saved, state, actions[..|actions| - 1])
  }

  /** Outside a turn a checkpoint saves the whole state, whatever was written before it. */
  lemma KeepSaves(s: Session, id: Id, owner: Owner)
    requires Settled(s) && CanAct(s, Keep(id, owner))
    ensures Settled(Act(s, Keep(id, owner))) && SavedState(Act(s, Keep(id, owner))) == s.state
  {
    assert ToKeep(s, owner) == s.state;
    CheckpointStep(s.store, id, s.state);
  }

  lemma {:induction false} LateActions(s: Session, actions: seq<Action>)
    requires Settled(s) && CanActAll(s, actions) && Quiet(actions)
    ensures var t := ActAll(s, actions);
      && Settled(t) && t.history == s.history
      && t.state == StateAfter(s.state, actions) && SavedState(t) == SavedBy(SavedState(s), s.state, actions)
  {
    if actions != [] {
      var before, last := actions[..|actions| - 1], actions[|actions| - 1];
      LateActions(s, before);
      var t := ActAll(s, before);
      match last
      case Keep(id, owner) => KeepSaves(t, id, owner);
      case KeepFails(id, owner, miss) => MissSturdy(t, Checkpointed(id, ToKeep(t, owner)), miss);
      case _ =>
    }
  }

  // ---------------------------------------------------------------- agreement with the file

  /** A record that reached the file although its append failed, and that selects something. */
  predicate Deciding(s: Session) {
    s.survivor.Some? && !s.survivor.value.payload.Saved? && !s.survivor.value.payload.TurnStart?
  }

  /** A checkpoint whose record was completely written and could not be cut off again. */
  predicate Stays(a: Action) {
    a.KeepFails? && a.miss.whole
  }

  predicate StaysIn(actions: seq<Action>) {
    exists i | 0 <= i < |actions| :: Stays(actions[i])
  }

  /** The same of the commit. */
  predicate CommitStays(ending: Ending) {
    || (ending.CommitFails? && ending.miss.whole)
    || (ending.Completes? && ending.completion.RecordFails? && ending.completion.miss.whole)
  }

  /** Some selection of the turn, or after it, failed, was completely written and could not be cut off again. */
  predicate TurnStays(turn: Turn) {
    StaysIn(turn.actions) || StaysIn(GapOf(turn.ending)) || CommitStays(turn.ending) || StaysIn(turn.after)
  }

  predicate SomeStay(turns: seq<Turn>) {
    exists i | 0 <= i < |turns| :: TurnStays(turns[i])
  }

  lemma StaysMore(actions: seq<Action>, a: Action)
    ensures StaysIn(actions + [a]) <==> StaysIn(actions) || Stays(a)
  {
    if i :| 0 <= i < |actions| && Stays(actions[i]) { assert Stays((actions + [a])[i]); }
    if Stays(a) { assert Stays((actions + [a])[|actions|]); }
  }

  lemma SomeStayMore(turns: seq<Turn>, turn: Turn)
    ensures SomeStay(turns + [turn]) <==> SomeStay(turns) || TurnStays(turn)
  {
    if i :| 0 <= i < |turns| && TurnStays(turns[i]) { assert TurnStays((turns + [turn])[i]); }
    if TurnStays(turn) { assert TurnStays((turns + [turn])[|turns|]); }
    if i :| 0 <= i < |turns + [turn]| && TurnStays((turns + [turn])[i]) { assert i < |turns| ==> TurnStays(turns[i]); }
  }

  lemma LastStays(turns: seq<Turn>)
    requires turns != []
    ensures SomeStay(turns) <==> SomeStay(turns[..|turns| - 1]) || TurnStays(turns[|turns| - 1])
  {
    assert turns == turns[..|turns| - 1] + [turns[|turns| - 1]];
    SomeStayMore(turns[..|turns| - 1], turns[|turns| - 1]);
  }

  /** A session whose survivors broke the store. */
  predicate BrokenBy(s: Session) {
    s.survivor.Some? ==> s.broken
  }

  lemma {:induction false} ActionsStay(s: Session, actions: seq<Action>)
    requires BrokenBy(s) && CanActAll(s, actions)
    ensures BrokenBy(ActAll(s, actions)) && (Deciding(ActAll(s, actions)) <==> Deciding(s) || StaysIn(actions))
  {
    if actions != [] {
      var before, last := actions[..|actions| - 1], actions[|actions| - 1];
      ActionsStay(s, before);
      assert actions == before + [last];
      StaysMore(before, last);
    }
  }

  lemma EndingStays(s: Session, ending: Ending)
    requires BrokenBy(s) && CanEnd(s, ending)
    ensures var t := End(s, ending);
      BrokenBy(t) && (Deciding(t) <==> Deciding(s) || StaysIn(GapOf(ending)) || CommitStays(ending))
  {
    if ending.Completes? { ActionsStay(Adopted(s, ending.snapshot), ending.gap); }
  }

  lemma TurnedStays(s: Session, turn: Turn)
    requires BrokenBy(s) && CanTurn(s, turn)
    ensures BrokenBy(RunTurn(s, turn)) && (Deciding(RunTurn(s, turn)) <==> Deciding(s) || TurnStays(turn))
  {
    ActionsStay(Open(s), turn.actions);
    EndingStays(ActAll(Open(s), turn.actions), turn.ending);
    ActionsStay(Turned(s, turn), turn.after);
  }

  lemma {:induction false} RunsStay(s: Session, turns: seq<Turn>)
    requires BrokenBy(s) && CanTurns(s, turns)
    ensures BrokenBy(RunTurns(s, turns)) && (Deciding(RunTurns(s, turns)) <==> Deciding(s) || SomeStay(turns))
    decreases |turns|
  {
    if turns != [] {
      var before, last := turns[..|turns| - 1], turns[|turns| - 1];
      RunsStay(s, before);
      TurnedStays(RunTurns(s, before), last);
      LastStays(turns);
    }
  }

  lemma {:induction false} RunsSettle(s: Session, turns: seq<Turn>)
    requires Settled(s) && CanTurns(s, turns)
    ensures Settled(RunTurns(s, turns))
    decreases |turns|
  {
    if turns != [] {
      var before, last := turns[..|turns| - 1], turns[|turns| - 1];
      RunsSettle(s, before);
      TurnSettles(RunTurns(s, before), last);
      LateActions(Turned(RunTurns(s, before), last), last.after);
    }
  }

  /** Memory and file agree exactly if the state is the saved one, unless a selection that failed is in the file. */
  lemma AgreesExactly(s: Session)
    requires Settled(s) && !Deciding(s)
    ensures Agree(s) <==> s.state == SavedState(s)
  {
    ReopeningSelects(s);
    if s.survivor.Some? { SurvivorIsNew(s); }
  }

  /** A turn ends in agreement exactly if it was decided, kept something, or began in agreement. */
  lemma TurnAgrees(s: Session, turn: Turn)
    requires Settled(s) && !Deciding(s) && CanTurn(s, turn) && !TurnStays(turn)
    ensures Agree(Turned(s, turn)) <==> Decides(turn.ending) || KeptIn(turn) || Agree(s)
    ensures Agree(RunTurn(s, turn)) <==>
            StateAfter(Turned(s, turn).state, turn.after) == SavedBy(SavedState(Turned(s, turn)), Turned(s, turn).state, turn.after)
  {
    TurnSettles(s, turn);
    LateActions(Turned(s, turn), turn.after);
    ActionsStay(Turned(s, turn), turn.after);
    TurnedStays(s, turn);
    AgreesExactly(s);
    AgreesExactly(Turned(s, turn));
    AgreesExactly(RunTurn(s, turn));
  }

  /** Whatever was written after a turn was kept by somebody before the next one. */
  predicate Saves(actions: seq<Action>) {
    actions == [] || actions[|actions| - 1].Keep? || (!actions[|actions| - 1].Write? && Saves(actions[..|actions| - 1]))
  }

  predicate AllSaved(turns: seq<Turn>) {
    forall i | 0 <= i < |turns| :: Saves(turns[i].after)
  }

  lemma {:induction false} SavesKeeps(state: State, actions: seq<Action>)
    requires Saves(actions)
    ensures StateAfter(state, actions) == SavedBy(state, state, actions)
  {
    if actions != [] && !actions[|actions| - 1].Keep? { SavesKeeps(state, actions[..|actions| - 1]); }
  }

  lemma {:induction false} SavedRuns(s: Session, turns: seq<Turn>)
    requires Settled(s) && s.state == SavedState(s) && CanTurns(s, turns) && AllSaved(turns)
    ensures RunTurns(s, turns).state == SavedState(RunTurns(s, turns))
    decreases |turns|
  {
    if turns != [] {
      var before, last := turns[..|turns| - 1], turns[|turns| - 1];
      SavedRuns(s, before);
      RunsSettle(s, before);
      TurnSettles(RunTurns(s, before), last);
      var t := Turned(RunTurns(s, before), last);
      LateActions(t, last.after);
      SavesKeeps(t.state, last.after);
    }
  }

  /** An adopted external turn is committed with its history, the state that the hooks leave, and their checkpoints. */
  lemma CompleteAgrees(s: Session, ending: Ending, start: seq<Message>)
    requires OpenAt(s, start, s.history) && CanEnd(s, ending) && ending.Completes? && ending.completion.Recorded?
    ensures var t := End(s, ending);
      && Agree(t) && t.rollback == None && t.history == ending.snapshot.history
      && t.state == StateAfter(Retain(ending.snapshot.state, s.rollback.value, s.owners), ending.gap)
  {
    CompletesEnds(s, ending, start, false, s.rollback.value, SavedState(s));
    var adopted := Adopted(s, ending.snapshot);
    QuietOpen(adopted, ending.gap, start, s.history);
    WrittenIs(adopted, ending.gap);
    ActionsStay(adopted, ending.gap);
    AgreesExactly(End(s, ending));
  }

  lemma {:induction false} WrittenIs(s: Session, actions: seq<Action>)
    ensures ActAll(s, actions).state == StateAfter(s.state, actions)
  {
    if actions != [] { WrittenIs(s, actions[..|actions| - 1]); }
  }

  // ---------------------------------------------------------------- what an abort keeps

  predicate Keeps(a: Action, owner: Owner) {
    a.Keep? && a.owner == owner
  }

  /** The namespace of `owner` at its last checkpoint, or what the turn started with. */
  function LastKept(state: State, actions: seq<Action>, owner: Owner): Option<string> {
    if actions == [] then Lookup(state, owner)
    else if Keeps(actions[|actions| - 1], owner) then
      Lookup(StateAfter(state, actions[..|actions| - 1]), owner)
    else LastKept(state, actions[..|actions| - 1], owner)
  }

  /** The owner checkpoints among these actions. */
  predicate KeptOf(actions: seq<Action>, owner: Owner) {
    exists i | 0 <= i < |actions| :: Keeps(actions[i], owner)
  }

  lemma KeptOfLast(actions: seq<Action>, owner: Owner)
    requires actions != []
    ensures KeptOf(actions, owner) <==> KeptOf(actions[..|actions| - 1], owner) || Keeps(actions[|actions| - 1], owner)
  {
    var before := actions[..|actions| - 1];
    if i :| 0 <= i < |before| && Keeps(before[i], owner) { assert Keeps(actions[i], owner); }
    if i :| 0 <= i < |actions| && Keeps(actions[i], owner) { assert i < |before| ==> Keeps(before[i], owner); }
  }

  /** One more action changes what an abort returns to only if it is a checkpoint, and then only for its owner. */
  lemma ActTracks(s: Session, a: Action, owner: Owner)
    requires s.rollback.Some?
    ensures var t := Act(s, a);
      && t.rollback.Some?
      && Lookup(t.rollback.value, owner) == Lookup(if Keeps(a, owner) then s.state else s.rollback.value, owner)
      && (owner in t.owners <==> owner in s.owners || Keeps(a, owner))
  {
  }

  lemma {:induction false} ActAllTracks(s: Session, actions: seq<Action>, owner: Owner)
    ensures var t := ActAll(Open(s), actions);
      && t.state == StateAfter(s.state, actions)
      && t.rollback.Some? && Lookup(t.rollback.value, owner) == LastKept(s.state, actions, owner)
      && (owner in t.owners <==> KeptOf(actions, owner))
  {
    WrittenIs(Open(s), actions);
    if actions != [] {
      var before, last := actions[..|actions| - 1], actions[|actions| - 1];
      ActAllTracks(s, before, owner);
      ActTracks(ActAll(Open(s), before), last, owner);
      KeptOfLast(actions, owner);
    }
  }

  /** After an abort, checkpointed owners have their last checkpoint and all others the start of the turn, whether or not
    * that had been saved. */
  lemma AbortKeepsCheckpoints(s: Session, actions: seq<Action>, owner: Owner)
    requires CanTurn(s, Turn(actions, Aborts, []))
    ensures Lookup(RunTurn(s, Turn(actions, Aborts, [])).state, owner) == LastKept(s.state, actions, owner)
    ensures !KeptOf(actions, owner) ==>
              Lookup(RunTurn(s, Turn(actions, Aborts, [])).state, owner) == Lookup(s.state, owner)
    ensures RunTurn(s, Turn(actions, Aborts, [])).history == s.history
  {
    ActAllTracks(s, actions, owner);
    if !KeptOf(actions, owner) { NeverKept(s.state, actions, owner); }
  }

  lemma {:induction false} NeverKept(state: State, actions: seq<Action>, owner: Owner)
    requires !KeptOf(actions, owner)
    ensures LastKept(state, actions, owner) == Lookup(state, owner)
  {
    if actions != [] {
      KeptOfLast(actions, owner);
      NeverKept(state, actions[..|actions| - 1], owner);
    }
  }

  /** Between turns any sequence of writes and checkpoints leaves memory and file in agreement exactly if the last state is
    * the one saved by the turn or the last checkpoint; an abort of the next turn returns to that last state either way. */
  lemma LateWrites(s: Session, late: seq<Action>, turn: Turn)
    requires Settled(s) && Agree(s) && !Deciding(s) && CanActAll(s, late) && Quiet(late) && !StaysIn(late)
    requires CanTurn(ActAll(s, late), turn) && !Decides(turn.ending) && !KeptIn(turn)
    ensures Agree(ActAll(s, late)) <==> StateAfter(s.state, late) == SavedBy(s.state, s.state, late)
    ensures Turned(ActAll(s, late), turn).state == StateAfter(s.state, late)
    ensures SavedState(Turned(ActAll(s, late), turn)) == SavedBy(s.state, s.state, late)
  {
    AgreesExactly(s);
    LateActions(s, late);
    ActionsStay(s, late);
    AgreesExactly(ActAll(s, late));
    TurnSettles(ActAll(s, late), turn);
  }

  /** An adopted external turn does not undo checkpoints made while it ran. */
  lemma CompletionKeepsCheckpoints(s: Session, actions: seq<Action>, snapshot: Snapshot, owner: Owner)
    ensures var t := ActAll(Open(s), actions);
      t.rollback.Some? && Lookup(Retain(snapshot.state, t.rollback.value, t.owners), owner) ==
      if KeptOf(actions, owner) then LastKept(s.state, actions, owner) else Lookup(snapshot.state, owner)
  {
    ActAllTracks(s, actions, owner);
  }

  // ---------------------------------------------------------------- the session as an object

  /** A message of an external turn, with the identifier and the outcome of its write. */
  datatype Attempt = Attempt(id: Id, io: Io)

  /** What a hook or a command does to the plugin state. */
  datatype Command =
    | Replace(state: State)
    | Checkpoints(owner: Owner, id: Id, io: Io, sync: Sync, repair: Repair)

  predicate FreshIds(log: seq<Record>, ids: seq<Id>) {
    && (forall i | 0 <= i < |ids| :: IsId(ids[i]) && !Has(log, ids[i]))
    && forall i, j | 0 <= i < j < |ids| :: ids[i] != ids[j]
  }

  function AttemptIds(attempts: seq<Attempt>): seq<Id> {
    seq(|attempts|, i requires 0 <= i < |attempts| => attempts[i].id)
  }

  /** The identifiers that are still to be used from the attempt `i` on. */
  function IdsFrom(attempts: seq<Attempt>, last: Id, i: nat): seq<Id>
    requires i <= |attempts|
  {
    AttemptIds(attempts[i..]) + [last]
  }

  lemma NextAttempt(attempts: seq<Attempt>, last: Id, i: nat)
    requires i < |attempts|
    ensures IdsFrom(attempts, last, i) == [attempts[i].id] + IdsFrom(attempts, last, i + 1)
  {
  }

  function CommandId(command: Command): seq<Id> {
    if command.Checkpoints? then [command.id] else []
  }

  function CommandIds(commands: seq<Command>): seq<Id> {
    if commands == [] then [] else CommandId(commands[0]) + CommandIds(commands[1..])
  }

  /** A record under the first of some fresh identifiers leaves the others fresh. */
  lemma StillFresh(log: seq<Record>, r: Record, id: Id, ids: seq<Id>)
    requires FreshIds(log, [id] + ids) && r.id == id
    ensures FreshIds(log + [r], ids) && FreshIds(log, ids) && IsId(id) && !Has(log, id)
  {
    var all := [id] + ids;
    assert all[0] == id;
    forall i | 0 <= i < |ids|
      ensures IsId(ids[i]) && !Has(log + [r], ids[i]) && !Has(log, ids[i])
    {
      assert ids[i] == all[i + 1];
      HasGrows(log, r, ids[i]);
    }
    forall i, j | 0 <= i < j < |ids| ensures ids[i] != ids[j] { assert all[i + 1] != all[j + 1]; }
  }

  lemma NextIds(commands: seq<Command>, i: nat, later: seq<Id>)
    requires i < |commands|
    ensures CommandIds(commands[i..]) + later == CommandId(commands[i]) + (CommandIds(commands[i + 1..]) + later)
  {
    assert commands[i..][0] == commands[i] && commands[i..][1..] == commands[i + 1..];
  }

  /** The message is said, or the turn stumbles over it. */
  ghost predicate Spoken(was: Session, id: Id, message: Message, ok: bool, miss: Miss, now: Session) {
    var ending := Stumbles(AppendMessage(id, message), miss);
    if ok then CanAct(was, Say(id, message)) && now == Act(was, Say(id, message))
    else CanEnd(was, ending) && now == End(was, ending)
  }

  lemma SaidIs(was: Session, id: Id, message: Message, ok: bool, miss: Miss)
    requires NewId(was.store, id) && ValidMessage(message) && if ok then !was.broken else CanMiss(was, miss)
    ensures var longer := was.(history := was.history + [message]);
      Spoken(was, id, message, ok, miss,
             if ok then longer.(store := Step(was.store, AppendMessage(id, message)))
             else Missed(longer, NewRecord(was.store, AppendMessage(id, message)), miss))
  {
  }

  lemma KeepIs(s: Session, id: Id, owner: Owner, miss: Miss)
    requires NewId(s.store, id)
    ensures !s.broken ==> CanAct(s, Keep(id, owner)) && Act(s, Keep(id, owner)) == Kept(s, id, owner, ToKeep(s, owner))
    ensures CanMiss(s, miss) ==>
              && CanAct(s, KeepFails(id, owner, miss))
              && Act(s, KeepFails(id, owner, miss)) == Missed(s, NewRecord(s.store, Checkpointed(id, ToKeep(s, owner))), miss)
  {
  }

  ghost predicate Acted(was: Session, a: Action, now: Session) {
    !a.Say? && !a.Begin? && CanAct(was, a) && now == Act(was, a)
  }

  ghost predicate Ran(was: Session, gap: seq<Action>, now: Session) {
    Quiet(gap) && CanActAll(was, gap) && now == ActAll(was, gap)
  }

  lemma RanMore(was: Session, gap: seq<Action>, between: Session, a: Action, now: Session)
    requires Ran(was, gap, between) && Acted(between, a, now)
    ensures Ran(was, gap + [a], now)
  {
    assert (gap + [a])[..|gap|] == gap;
  }

  /** The first messages of an adopted history are stored. */
  ghost predicate SavedUpTo(was: Session, said: seq<Op>, messages: seq<Message>, now: Session) {
    |said| <= |messages| && CanSave(was, said, messages[..|said|]) && now == Storing(was, said)
  }

  /** The message behind them is not. */
  ghost predicate SavedPart(was: Session, said: seq<Op>, messages: seq<Message>, next: Op, miss: Miss, now: Session) {
    && |said| < |messages| && SavedUpTo(was, said, messages, Storing(was, said)) && CanMiss(was, miss)
    && next.AppendMessage? && next.message == messages[|said|] && Enabled(Run(was.store, said), next)
    && now == Missed(Storing(was, said), NewRecord(Run(was.store, said), next), miss)
  }

  lemma SavesFail(was: Session, said: seq<Op>, messages: seq<Message>, now: Session, next: Op, miss: Miss, after: Session)
    requires SavedUpTo(was, said, messages, now) && |said| < |messages| && CanMiss(now, miss)
    requires next.AppendMessage? && next.message == messages[|said|] && Enabled(now.store, next)
    requires after == Missed(now, NewRecord(now.store, next), miss)
    ensures SavedPart(was, said, messages, next, miss, after)
  {
  }

  lemma SavesOneMore(was: Session, said: seq<Op>, messages: seq<Message>, now: Session, op: Op)
    requires SavedUpTo(was, said, messages, now) && |said| < |messages| && !now.broken
    requires op.AppendMessage? && op.message == messages[|said|] && Enabled(now.store, op)
    ensures SavedUpTo(was, said + [op], messages, now.(store := Step(now.store, op)))
  {
    assert (said + [op])[..|said|] == said;
    assert messages[..|said| + 1] == messages[..|said|] + [messages[|said|]];
  }

  /** Takes the checkpointed namespaces over, one owner at a time. */
  method Merge(state: State, kept: State, owners: set<Owner>) returns (merged: State)
    ensures merged == Retain(state, kept, owners)
  {
    merged := state;
    var left := owners;
    while left != {}
      invariant left <= owners
      invariant merged == Retain(state, kept, owners - left)
      decreases |left|
    {
      var owner :| owner in left;
      left := left - {owner};
      merged := Adopt(merged, kept, owner);
    }
    assert owners - left == owners;
  }

  /** How an external turn that was adopted ended. */
  ghost predicate Completed(before: Session, t: Session, added: seq<Message>, completion: Completion, now: Session) {
    CanComplete(t, added, completion) && now == Complete(before, t, completion)
  }

  lemma PartCompletes(before: Session, t: Session, added: seq<Message>, said: seq<Op>, next: Op, miss: Miss, now: Session)
    requires SavedPart(t, said, added, next, miss, now)
    ensures Completed(before, t, added, SaveFails(said, next, miss), now)
  {
  }

  lemma AllCompletes(before: Session, t: Session, added: seq<Message>, said: seq<Op>, stored: Session, id: Id, ok: bool, miss: Miss)
    requires SavedUpTo(t, said, added, stored) && |said| == |added|
    requires CanEnd(stored, if ok then Commits(id) else CommitFails(id, miss))
    ensures Completed(before, t, added, if ok then Recorded(said, id) else RecordFails(said, id, miss),
                      End(stored, if ok then Commits(id) else CommitFails(id, miss)))
  {
    assert added[..|said|] == added;
  }

  class AgentSession {
    const store: SessionStore
    var history: seq<Message>
    var state: State
    var rollback: Option<State>
    var owners: set<Owner>
    var turnOpen: bool
    var sending: bool

    ghost function View(): Session
      reads this, store
    {
      Session(history, state, rollback, owners, store.View(), store.failed, store.survivor)
    }

    ghost predicate Valid()
      reads this, store
    {
      store.Valid() && (turnOpen ==> rollback.Some?)
    }

    /** Agreement is agreement with the bytes of the file. */
    lemma FileAgrees()
      requires Valid()
      ensures Sturdy(View())
      ensures var loaded := Load(store.codec, store.header, store.stream);
        loaded.Loaded? && (Agree(View()) <==> Restored(loaded.log) == Snapshot(history, state))
    {
      store.FileLoads();
    }

    /** Attaches to a store that was just opened and adopts what it selects. */
    constructor (store: SessionStore)
      requires store.Valid() && store.head == store.committed && !store.failed
      ensures this.store == store && Valid() && Settled(View()) && Agree(View()) && owners == {} && !sending
    {
      this.store := store;
      var selected := store.ReadSnapshot(None);
      history, state := selected.value.history, selected.value.state;
      rollback, owners, turnOpen, sending := None, {}, false, false;
      new;
      AgreesExactly(View());
    }

    /** Refused while a turn runs or an earlier one was left unfinished. */
    method OpenTurn() returns (start: Option<seq<Message>>)
      requires Valid()
      modifies this
      ensures Valid() && turnOpen == old(turnOpen)
      ensures start.Some? <==> !old(sending) && !old(turnOpen)
      ensures start.Some? ==> start.value == history && sending && View() == Open(old(View()))
      ensures start.Some? ==> rollback == Some(old(state)) && owners == {}
      ensures history == old(history) && state == old(state)
      ensures start == None ==> View() == old(View()) && sending == old(sending)
    {
      if sending || turnOpen { return None; }
      rollback, owners, sending := Some(state), {}, true;
      start := Some(history);
    }

    /** Stores a message that memory already has. */
    method StoreMessage(id: Id, message: Message, io: Io) returns (ok: bool, ghost miss: Miss)
      requires Valid() && NewId(store.View(), id) && ValidMessage(message)
      modifies store
      ensures Valid() && (ok <==> !old(store.failed) && io.Written?)
      ensures !ok ==> CanMiss(old(View()), miss)
      ensures View() == if ok then old(View()).(store := Step(old(store.View()), AppendMessage(id, message)))
                        else Missed(old(View()), NewRecord(old(store.View()), AppendMessage(id, message)), miss)
    {
      ghost var was, next := View(), Step(store.View(), AppendMessage(id, message));
      ok, miss := store.AppendPlain(id, Saved(message), io);
      assert ok ==> store.View() == next;
    }

    /** Stores a checkpoint. */
    method StoreState(id: Id, saved: State, io: Io, sync: Sync, repair: Repair) returns (ok: bool, ghost miss: Miss)
      requires Valid() && NewId(store.View(), id)
      modifies store
      ensures Valid() && (ok <==> !old(store.failed) && io.Written? && sync.Synced?)
      ensures !ok ==> CanMiss(old(View()), miss)
      ensures View() == if ok then old(View()).(store := Step(old(store.View()), Checkpointed(id, saved)))
                        else Missed(old(View()), NewRecord(old(store.View()), Checkpointed(id, saved)), miss)
    {
      ghost var was, next := View(), Step(store.View(), Checkpointed(id, saved));
      ok, miss := store.CheckpointState(id, saved, io, sync, repair);
      assert ok ==> store.View() == next;
    }

    /** Memory takes the message even when the store cannot. */
    method AddHistory(id: Id, message: Message, io: Io) returns (ok: bool, ghost miss: Miss)
      requires Valid() && NewId(store.View(), id) && ValidMessage(message)
      modifies `history, store
      ensures Valid() && (ok <==> !old(store.failed) && io.Written?)
      ensures Spoken(old(View()), id, message, ok, miss, View())
      ensures history == old(history) + [message]
      ensures store.log == old(store.log) + if ok then [Record(id, old(store.head), Saved(message))] else []
    {
      ghost var was := View();
      history := history + [message];
      ok, miss := StoreMessage(id, message, io);
      SaidIs(was, id, message, ok, miss);
    }

    /** Saves one owner over the start of the turn; within a turn an abort returns to that. */
    method CheckpointOwner(owner: Owner, id: Id, io: Io, sync: Sync, repair: Repair) returns (ok: bool, ghost miss: Miss)
      requires Valid() && NewId(store.View(), id)
      modifies `rollback, `owners, store
      ensures Valid() && (ok <==> !old(store.failed) && io.Written? && sync.Synced?)
      ensures !ok ==> CanMiss(old(View()), miss)
      ensures var was := old(View());
        View() == if ok then Kept(was, id, owner, ToKeep(was, owner))
                  else Missed(was, NewRecord(was.store, Checkpointed(id, ToKeep(was, owner))), miss)
      ensures !ok ==> rollback == old(rollback) && owners == old(owners) && store.log == old(store.log)
    {
      ghost var was := View();
      var saved := Adopt(if rollback.Some? then rollback.value else state, state, owner);
      assert saved == ToKeep(was, owner);
      ok, miss := StoreState(id, saved, io, sync, repair);
      if ok && rollback.Some? { rollback, owners := Some(saved), owners + {owner}; }
      assert ok ==> View() == Kept(was, id, owner, saved);
    }

    method CommitOpenTurn(id: Id, io: Io, sync: Sync, repair: Repair) returns (ok: bool, ghost miss: Miss)
      requires Valid() && NewId(store.View(), id)
      modifies `rollback, `turnOpen, store
      ensures Valid() && (ok <==> !old(store.failed) && io.Written? && sync.Synced?)
      ensures var ending := if ok then Commits(id) else CommitFails(id, miss);
        CanEnd(old(View()), ending) && View() == End(old(View()), ending)
      ensures turnOpen == (old(turnOpen) && !ok)
      ensures if ok then rollback == None && store.log == old(store.log) + [Record(id, old(store.head), TurnCommit(state))]
              else rollback == old(rollback) && store.log == old(store.log)
    {
      ghost var was := View();
      ok, miss := store.CommitTurn(id, state, io, sync, repair);
      if ok {
        rollback := None;
        turnOpen := false;
        assert View() == CommitTurn(was, id);
      }
    }

    /** Restores a snapshot in place of everything in memory, unless a turn runs. */
    method RestoreSnapshot(snapshot: Snapshot) returns (ok: bool)
      requires Valid()
      modifies `history, `state
      ensures Valid()
      ensures ok <==> !sending && AllValid(snapshot.history)
      ensures View() == if ok then old(View()).(history := snapshot.history, state := snapshot.state) else old(View())
    {
      ok := !sending && AllValid(snapshot.history);
      if ok { history, state := snapshot.history, snapshot.state; }
    }

    /** Adopts the snapshot of an external turn, with newer checkpoints on top of its state. */
    method AdoptSnapshot(snapshot: Snapshot) returns (ok: bool)
      requires Valid()
      modifies `history, `state
      ensures Valid() && (ok <==> Extends(old(View()), snapshot))
      ensures ok <==> rollback.Some? && old(history) <= snapshot.history &&
                      forall i | 0 <= i < |snapshot.history| :: ValidMessage(snapshot.history[i])
      ensures if ok then history == snapshot.history else history == old(history) && state == old(state)
      ensures View() == if ok then Adopted(old(View()), snapshot) else old(View())
    {
      if !AllValid(snapshot.history) || rollback == None || !(history <= snapshot.history) { return false; }
      var merged := Merge(snapshot.state, rollback.value, owners);
      history, state := snapshot.history, merged;
      ok := true;
    }

    /** One of them; the identifiers used `later` stay fresh. */
    method RunCommand(command: Command, ghost later: seq<Id>) returns (ghost a: Action)
      requires Valid() && FreshIds(store.log, CommandId(command) + later)
      modifies this, store
      ensures Valid() && sending == old(sending) && turnOpen == old(turnOpen)
      ensures Acted(old(View()), a, View()) && FreshIds(store.log, later)
    {
      match command
      case Replace(next) =>
        state := next;
        a := Write(next);
        assert [] + later == later;
      case Checkpoints(owner, id, io, sync, repair) =>
        ghost var was, record := View(), NewRecord(store.View(), Checkpointed(id, ToKeep(View(), owner)));
        StillFresh(store.log, record, id, later);
        var ok;
        ghost var miss;
        ok, miss := CheckpointOwner(owner, id, io, sync, repair);
        a := if ok then Keep(id, owner) else KeepFails(id, owner, miss);
        KeepIs(was, id, owner, miss);
        assert ok ==> store.log == was.store.log + [record];
    }

    /** What hooks and commands do while the lock is free. */
    method RunCommands(commands: seq<Command>, ghost later: seq<Id>) returns (ghost gap: seq<Action>)
      requires Valid() && FreshIds(store.log, CommandIds(commands) + later)
      modifies this, store
      ensures Valid() && sending == old(sending) && turnOpen == old(turnOpen)
      ensures Ran(old(View()), gap, View()) && FreshIds(store.log, later)
    {
      gap := [];
      for i := 0 to |commands|
        invariant Valid() && sending == old(sending) && turnOpen == old(turnOpen)
        invariant Ran(old(View()), gap, View())
        invariant FreshIds(store.log, CommandIds(commands[i..]) + later)
      {
        ghost var was := View();
        NextIds(commands, i, later);
        ghost var a;
        a := RunCommand(commands[i], CommandIds(commands[i + 1..]) + later);
        RanMore(old(View()), gap, was, a, View());
        gap := gap + [a];
      }
      assert CommandIds(commands[|commands|..]) + later == later;
    }

    /** Stores the next message of an adopted history; the identifiers used `later` stay fresh. */
    method SaveNext(message: Message, attempt: Attempt, ghost was: Session, ghost said: seq<Op>, ghost messages: seq<Message>,
                    ghost later: seq<Id>)
      returns (ok: bool, ghost next: Op, ghost miss: Miss)
      requires Valid() && SavedUpTo(was, said, messages, View()) && FreshIds(store.log, [attempt.id] + later)
      requires |said| < |messages| && message == messages[|said|] && ValidMessage(message)
      modifies store
      ensures Valid() && FreshIds(store.log, later)
      ensures if ok then SavedUpTo(was, said + [next], messages, View()) else SavedPart(was, said, messages, next, miss, View())
    {
      ghost var now := View();
      next := AppendMessage(attempt.id, message);
      StillFresh(store.log, NewRecord(store.View(), next), attempt.id, later);
      ok, miss := StoreMessage(attempt.id, message, attempt.io);
      if ok {
        SavesOneMore(was, said, messages, now, next);
      } else {
        SavesFail(was, said, messages, now, next, miss, View());
      }
    }

    /** Appends messages in order, up to the first write that fails. */
    method SaveAll(messages: seq<Message>, attempts: seq<Attempt>, ghost last: Id)
      returns (ok: bool, ghost said: seq<Op>, ghost next: Op, ghost miss: Miss)
      requires Valid() && |messages| == |attempts| && AllValid(messages)
      requires FreshIds(store.log, AttemptIds(attempts) + [last])
      modifies store
      ensures Valid()
      ensures ok ==> |said| == |messages| && SavedUpTo(old(View()), said, messages, View()) && NewId(store.View(), last)
      ensures !ok ==> SavedPart(old(View()), said, messages, next, miss, View())
    {
      said, next, miss := [], Op.Abort, Miss(false, false);
      assert IdsFrom(attempts, last, 0) == AttemptIds(attempts) + [last];
      for i := 0 to |messages|
        invariant Valid() && |said| == i && SavedUpTo(old(View()), said, messages, View())
        invariant FreshIds(store.log, IdsFrom(attempts, last, i))
      {
        NextAttempt(attempts, last, i);
        ok, next, miss := SaveNext(messages[i], attempts[i], old(View()), said, messages, IdsFrom(attempts, last, i + 1));
        if !ok { return; }
        said := said + [next];
      }
      assert IdsFrom(attempts, last, |messages|)[0] == last;
      ok := true;
    }

    /** The part of an external turn that holds the lock again: its messages are stored, then it is committed. */
    method RecordTurn(added: seq<Message>, attempts: seq<Attempt>, sync: Sync, repair: Repair, ghost before: Session)
      returns (ok: bool, ghost completion: Completion)
      requires Valid() && AllValid(added) && |attempts| == |added| + 1 && FreshIds(store.log, AttemptIds(attempts))
      modifies `rollback, `turnOpen, store
      ensures Valid() && (ok <==> completion.Recorded?)
      ensures Completed(before, old(View()), added, completion, View())
    {
      var last := attempts[|added|];
      ghost var was := View();
      assert AttemptIds(attempts) == AttemptIds(attempts[..|added|]) + [last.id];
      ghost var said, next, miss;
      ok, said, next, miss := SaveAll(added, attempts[..|added|], last.id);
      if !ok {
        completion := SaveFails(said, next, miss);
        PartCompletes(before, was, added, said, next, miss, View());
        return;
      }
      ghost var stored := View();
      ok, miss := CommitOpenTurn(last.id, last.io, sync, repair);
      completion := if ok then Recorded(said, last.id) else RecordFails(said, last.id, miss);
      AllCompletes(before, was, added, said, stored, last.id, ok, miss);
    }

    /** Adopts an external turn, runs the restore hooks without the lock, and records it; whatever fails on the way, the turn
      * is still undecided. */
    method CompleteSnapshot(snapshot: Snapshot, commands: seq<Command>, hooksRaise: bool, attempts: seq<Attempt>,
                            sync: Sync, repair: Repair)
      returns (ok: bool, ghost ending: Ending)
      requires Valid() && FreshIds(store.log, CommandIds(commands) + AttemptIds(attempts))
      requires history <= snapshot.history ==> |attempts| == |snapshot.history| - |history| + 1
      modifies this, store
      ensures Valid() && sending == old(sending) && (ok <==> Decides(ending))
      ensures if Extends(old(View()), snapshot) then ending.Completes? && ending.snapshot == snapshot
              else ending == Rejects(snapshot)
      ensures CanEnd(old(View()), ending) && View() == End(old(View()), ending)
      ensures hooksRaise ==> !ok && history == old(history) && state == old(state)
    {
      ghost var was := View();
      var before, kept := history, state;
      ok := AdoptSnapshot(snapshot);
      if !ok {
        ending := Rejects(snapshot);
        return;
      }
      ghost var gap := RunCommands(commands, AttemptIds(attempts));
      ghost var between := View();
      var added := snapshot.history[|before|..];
      ghost var completion := HooksRaise;
      if hooksRaise {
        history, state, ok := before, kept, false;
      } else {
        ok, completion := RecordTurn(added, attempts, sync, repair, was);
      }
      ending := Completes(snapshot, gap, completion);
    }

    /** An undecided turn goes back to its start. */
    method FinishTurn(start: seq<Message>)
      requires Valid()
      modifies this, store
      ensures Valid() && View() == Finish(old(View()), start)
      ensures !sending && !turnOpen && rollback == None && owners == {}
      ensures match old(rollback)
              case None => history == old(history) && state == old(state) && store.head == old(store.head)
              case Some(returned) => history == start && state == returned && store.head == store.committed
      ensures store.log == old(store.log) && store.committed == old(store.committed)
    {
      if rollback.Some? {
        history := start;
        store.AbortTurn();
        state := rollback.value;
        rollback := None;
        turnOpen := false;
      }
      owners := {};
      sending := false;
    }
  }
}
