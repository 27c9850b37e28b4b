/** Restores, forks and new conversations among the turns of a session (raychat/session.py, raychat/application.py). */
module SessionEvents {
  import opened Effects
  import opened SessionRecords
  import opened SessionRuns
  import opened SessionStore
  import opened SessionTurns

  /** What restore hooks do, and whether one of them raises in the end. */
  datatype Hooks = Hooks(actions: seq<Action>, raises: bool)

  /** A fork proposes the snapshot of its target to the hooks, then selects the target; if that fails, `undo` are the hooks of
    * the way back. A new conversation has a journal of its own. */
  datatype Event =
    | Takes(turn: Turn)
    | Restores(hooks: Hooks)
    | Forks(target: Id, hooks: Hooks, id: Id, miss: Option<Miss>, undo: Hooks)
    | Resets(actions: seq<Action>)

  // ---------------------------------------------------------------- what happens

  function Hooked(s: Session, snapshot: Snapshot, hooks: Hooks): Session {
    ActAll(s.(history := snapshot.history, state := snapshot.state), hooks.actions)
  }

  /** Puts a snapshot in place of everything in memory; what it replaced returns if a hook raises. */
  function Replaced(s: Session, snapshot: Snapshot, hooks: Hooks): Session {
    if !AllValid(snapshot.history) then s
    else if hooks.raises then Hooked(s, snapshot, hooks).(history := s.history, state := s.state)
    else Hooked(s, snapshot, hooks)
  }

  predicate CanReplace(s: Session, snapshot: Snapshot, hooks: Hooks) {
    AllValid(snapshot.history) ==>
      CanActAll(s.(history := snapshot.history, state := snapshot.state), hooks.actions) && Quiet(hooks.actions)
  }

  function Proposed(s: Session, target: Id): Snapshot {
    SnapshotAt(s.store, Some(target))
  }

  /** The target is a completed turn that the hooks accept. */
  predicate Accepted(s: Session, target: Id, hooks: Hooks) {
    IsTurn(s.store.log, target) && AllValid(Proposed(s, target).history) && !hooks.raises
  }

  function Forked(s: Session, t: Session, e: Event): Session
    requires e.Forks?
  {
    match e.miss
    case None => t.(store := Step(t.store, Fork(e.id, e.target)))
    case Some(miss) => Replaced(Missed(t, NewRecord(t.store, Fork(e.id, e.target)), miss), Snapshot(s.history, s.state), e.undo)
  }

  predicate CanFork(s: Session, t: Session, e: Event)
    requires e.Forks?
  {
    && NewId(t.store, e.id)
    && match e.miss
       case None => !t.broken
       case Some(miss) =>
         && CanMiss(t, miss)
         && CanReplace(Missed(t, NewRecord(t.store, Fork(e.id, e.target)), miss), Snapshot(s.history, s.state), e.undo)
  }

  predicate CanHappen(s: Session, e: Event) {
    match e
    case Takes(turn) => CanTurn(s, turn)
    case Restores(hooks) => CanReplace(s, SnapshotAt(s.store, s.store.committed), hooks)
    case Forks(target, hooks, _, _, _) =>
      IsTurn(s.store.log, target) ==>
        && CanReplace(s, Proposed(s, target), hooks)
        && (Accepted(s, target, hooks) ==> CanFork(s, Replaced(s, Proposed(s, target), hooks), e))
    case Resets(actions) => CanActAll(NOTHING, actions) && Quiet(actions)
  }

  function Happens(s: Session, e: Event): Session
    requires CanHappen(s, e)
  {
    match e
    case Takes(turn) => RunTurn(s, turn)
    case Restores(hooks) => Replaced(s, SnapshotAt(s.store, s.store.committed), hooks)
    case Forks(target, hooks, _, _, _) =>
      if !IsTurn(s.store.log, target) then s
      else if !Accepted(s, target, hooks) then Replaced(s, Proposed(s, target), hooks)
      else Forked(s, Replaced(s, Proposed(s, target), hooks), e)
    case Resets(actions) => ActAll(NOTHING, actions)
  }

  // ---------------------------------------------------------------- hooks between turns

  /** The store is at rest on a selection with this history, whatever memory holds. */
  ghost predicate Rests(s: Session, selected: seq<Message>) {
    Settled(s.(history := selected))
  }

  lemma {:induction false} QuietHistory(s: Session, actions: seq<Action>, history: seq<Message>)
    requires Quiet(actions)
    ensures ActAll(s.(history := history), actions) == ActAll(s, actions).(history := history)
    ensures CanActAll(s.(history := history), actions) <==> CanActAll(s, actions)
  {
    if actions != [] { QuietHistory(s, actions[..|actions| - 1], history); }
  }

  /** Hooks leave the selected history as it is; they decide which state is in memory and which is saved. */
  lemma HooksRest(s: Session, actions: seq<Action>, selected: seq<Message>)
    requires Rests(s, selected) && CanActAll(s, actions) && Quiet(actions)
    ensures var t := ActAll(s, actions);
      && Rests(t, selected) && t.history == s.history
      && t.state == StateAfter(s.state, actions) && SavedState(t) == SavedBy(SavedState(s), s.state, actions)
  {
    QuietHistory(s, actions, selected);
    QuietHistory(s, actions, s.history);
    LateActions(s.(history := selected), actions);
  }

  /** What is in the log stays what it is. */
  lemma {:induction false} HooksKeepTurns(s: Session, actions: seq<Action>, selected: seq<Message>, target: Id)
    requires Rests(s, selected) && CanActAll(s, actions) && Quiet(actions) && IsTurn(s.store.log, target)
    ensures var t := ActAll(s, actions);
      IsTurn(t.store.log, target) && SnapshotAt(t.store, Some(target)) == SnapshotAt(s.store, Some(target))
  {
    if actions != [] {
      var before, last := actions[..|actions| - 1], actions[|actions| - 1];
      HooksKeepTurns(s, before, selected, target);
      HooksRest(s, before, selected);
      var t := ActAll(s, before);
      if last.Keep? {
        var r := NewRecord(t.store, Checkpointed(last.id, ToKeep(t, last.owner)));
        TurnExists(t.store, target);
        HistoryGrows(t.store.log, r, Some(target));
        StateGrows(t.store.log, r, Some(target));
        TurnStaysTurn(t.store.log, r, target);
      }
    }
  }

  lemma TurnStaysTurn(log: seq<Record>, r: Record, target: Id)
    requires IsTurn(log, target)
    ensures IsTurn(log + [r], target)
  {
    var i :| 0 <= i < |log| && log[i].id == target && log[i].payload.TurnCommit?;
    assert (log + [r])[i] == log[i];
  }

  // ---------------------------------------------------------------- one event

  lemma ReplacedRests(s: Session, snapshot: Snapshot, hooks: Hooks, selected: seq<Message>)
    requires Rests(s, selected) && CanReplace(s, snapshot, hooks) && AllValid(snapshot.history)
    ensures var t := Replaced(s, snapshot, hooks);
      && Rests(t, selected)
      && SavedState(t) == SavedBy(SavedState(s), snapshot.state, hooks.actions)
      && (if hooks.raises then t.history == s.history && t.state == s.state
          else t.history == snapshot.history && t.state == StateAfter(snapshot.state, hooks.actions))
  {
    HooksRest(s.(history := snapshot.history, state := snapshot.state), hooks.actions, selected);
  }

  /** Restoring gives memory the selected state, which the hooks may change; a hook that raises leaves memory as it was. The
    * checkpoints of the hooks count in any case. */
  lemma RestoreAgrees(s: Session, hooks: Hooks)
    requires Settled(s) && CanHappen(s, Restores(hooks)) && AllValid(s.history)
    ensures var t, saved := Happens(s, Restores(hooks)), SavedState(s);
      && Settled(t) && t.history == s.history
      && t.state == (if hooks.raises then s.state else StateAfter(saved, hooks.actions))
      && SavedState(t) == SavedBy(saved, saved, hooks.actions)
      && (!Deciding(t) && hooks == Hooks([], false) ==> Agree(t))
  {
    var t := Happens(s, Restores(hooks));
    ReplacedRests(s, SnapshotAt(s.store, s.store.committed), hooks, s.history);
    if !Deciding(t) { AgreesExactly(t); }
  }

  /** A new conversation starts from nothing, in a journal that no old record reaches. */
  lemma ResetAgrees(s: Session, actions: seq<Action>)
    requires CanHappen(s, Resets(actions))
    ensures var t := Happens(s, Resets(actions));
      && Settled(t) && t.history == []
      && (!StaysIn(actions) ==> (Agree(t) <==> StateAfter(map[], actions) == SavedBy(map[], map[], actions)))
  {
    AgreesExactly(NOTHING);
    HooksRest(NOTHING, actions, []);
    ActionsStay(NOTHING, actions);
    if !StaysIn(actions) { AgreesExactly(Happens(s, Resets(actions))); }
  }

  /** A fork ends in agreement exactly if the hooks leave the state of the target as it is: their checkpoints are on the branch
    * that was left. */
  lemma ForkAgrees(s: Session, e: Event)
    requires Settled(s) && CanHappen(s, e) && e.Forks? && Accepted(s, e.target, e.hooks) && e.miss == None
    ensures var t, proposed := Happens(s, e), Proposed(s, e.target);
      && Settled(t) && t.history == proposed.history
      && (Agree(t) <==> StateAfter(proposed.state, e.hooks.actions) == proposed.state)
  {
    var proposed := Proposed(s, e.target);
    var t := Replaced(s, proposed, e.hooks);
    ReplacedRests(s, proposed, e.hooks, s.history);
    HooksKeepTurns(s.(history := proposed.history, state := proposed.state), e.hooks.actions, s.history, e.target);
    StepConsistent(t.store, Fork(e.id, e.target));
    ForkSelects(t.store, e.id, e.target);
    AgreesExactly(Happens(s, e));
  }

  /** A fork that the hooks refuse leaves memory as it was, but their checkpoints are saved on the old branch. */
  lemma RefusedFork(s: Session, e: Event)
    requires Settled(s) && CanHappen(s, e) && e.Forks? && IsTurn(s.store.log, e.target) && e.hooks.raises
    requires AllValid(Proposed(s, e.target).history)
    ensures var t := Happens(s, e);
      && Settled(t) && t.history == s.history && t.state == s.state
      && SavedState(t) == SavedBy(SavedState(s), Proposed(s, e.target).state, e.hooks.actions)
  {
    ReplacedRests(s, Proposed(s, e.target), e.hooks, s.history);
  }

  /** The way back from a failed fork fails too. */
  predicate Slips(s: Session, e: Event) {
    && e.Forks? && Accepted(s, e.target, e.hooks) && e.miss.Some?
    && (e.undo.raises || !AllValid(s.history))
  }

  /** The session when the selection of the fork is tried, and the record that is tried. */
  function Forking(s: Session, e: Event): Session
    requires e.Forks?
  {
    Replaced(s, Proposed(s, e.target), e.hooks)
  }

  lemma ForkMisses(s: Session, e: Event)
    requires Settled(s) && CanHappen(s, e) && e.Forks? && Accepted(s, e.target, e.hooks) && e.miss.Some?
    ensures var t, proposed := Forking(s, e), Proposed(s, e.target);
      var missed := Missed(t, NewRecord(t.store, Fork(e.id, e.target)), e.miss.value);
      && Rests(missed, s.history) && missed.history == proposed.history
      && SavedState(missed) == SavedBy(SavedState(s), proposed.state, e.hooks.actions)
      && (e.miss.value.whole ==> Deciding(missed) && Selected(missed) == proposed)
  {
    var t, proposed := Forking(s, e), Proposed(s, e.target);
    ReplacedRests(s, proposed, e.hooks, s.history);
    HooksKeepTurns(s.(history := proposed.history, state := proposed.state), e.hooks.actions, s.history, e.target);
    MissSturdy(t.(history := s.history), Fork(e.id, e.target), e.miss.value);
  }

  /** A fork that fails is taken back: memory returns to what it was, unless the way back fails as well; then the history of
    * the target stays in memory over the old selection. */
  lemma FailedFork(s: Session, e: Event)
    requires Settled(s) && CanHappen(s, e) && e.Forks? && Accepted(s, e.target, e.hooks) && e.miss.Some?
    ensures var t, proposed := Happens(s, e), Proposed(s, e.target);
      && Rests(t, s.history)
      && (if Slips(s, e) then t.history == proposed.history
          else && t.history == s.history && t.state == StateAfter(s.state, e.undo.actions)
               && SavedState(t) == SavedBy(SavedBy(SavedState(s), proposed.state, e.hooks.actions), s.state, e.undo.actions))
      && (Settled(t) <==> Slips(s, e) ==> proposed.history == s.history)
      && (e.miss.value.whole ==> Selected(t) == proposed)
  {
    var t := Forking(s, e);
    var missed := Missed(t, NewRecord(t.store, Fork(e.id, e.target)), e.miss.value);
    ForkMisses(s, e);
    if AllValid(s.history) {
      ReplacedRests(missed, Snapshot(s.history, s.state), e.undo, s.history);
      if e.miss.value.whole { BrokenActions(missed.(history := s.history, state := s.state), e.undo.actions); }
    }
  }

  /** Every event leaves the selection with the history in memory, except a failed fork whose way back fails and whose target
    * has another history. */
  lemma EventSettles(s: Session, e: Event)
    requires Settled(s) && CanHappen(s, e)
    ensures Settled(Happens(s, e)) <==> (Slips(s, e) ==> Proposed(s, e.target).history == s.history)
  {
    match e
    case Takes(turn) =>
      TurnSettles(s, turn);
      LateActions(Turned(s, turn), turn.after);
    case Restores(hooks) => if AllValid(s.history) { RestoreAgrees(s, hooks); }
    case Resets(actions) => ResetAgrees(s, actions);
    case Forks(target, hooks, _, miss, _) =>
      if IsTurn(s.store.log, target) && AllValid(Proposed(s, target).history) {
        if hooks.raises {
          RefusedFork(s, e);
        } else if miss.Some? {
          FailedFork(s, e);
        } else {
          ForkAgrees(s, e);
        }
      }
  }

  // ---------------------------------------------------------------- failed selections that stay

  /** Some selection of the event failed, was completely written and could not be cut off again. */
  predicate EventStays(s: Session, e: Event) {
    match e
    case Takes(turn) => TurnStays(turn)
    case Restores(hooks) => AllValid(SnapshotAt(s.store, s.store.committed).history) && StaysIn(hooks.actions)
    case Forks(target, hooks, _, miss, undo) =>
      && IsTurn(s.store.log, target) && AllValid(Proposed(s, target).history)
      && (|| StaysIn(hooks.actions)
          || (!hooks.raises && miss.Some? && (miss.value.whole || (AllValid(s.history) && StaysIn(undo.actions)))))
    case Resets(actions) => StaysIn(actions)
  }

  /** What its record selects. */
  function EventAttempts(s: Session, e: Event): Snapshot
    requires CanHappen(s, e) && EventStays(s, e)
  {
    match e
    case Takes(turn) => Attempted(s, turn)
    case Restores(hooks) =>
      var selected := SnapshotAt(s.store, s.store.committed);
      Snapshot(s.history, Trying(s.(history := selected.history, state := selected.state), hooks.actions).state)
    case Forks(target, hooks, id, miss, undo) =>
      var proposed := Proposed(s, target);
      if StaysIn(hooks.actions) then
        Snapshot(s.history, Trying(s.(history := proposed.history, state := proposed.state), hooks.actions).state)
      else if miss.value.whole then proposed
      else
        var t := Forking(s, e);
        var missed := Missed(t, NewRecord(t.store, Fork(id, target)), miss.value);
        Snapshot(s.history, Trying(missed.(history := s.history, state := s.state), undo.actions).state)
    case Resets(actions) => Snapshot([], Trying(NOTHING, actions).state)
  }

  /** A checkpoint of a hook stayed: the selected history with the state that it was to save. */
  lemma HookStays(s: Session, actions: seq<Action>, selected: seq<Message>)
    requires Rests(s, selected) && CanActAll(s, actions) && Quiet(actions) && StaysIn(actions)
    ensures var t := ActAll(s, actions);
      t.broken && Deciding(t) && Selected(t) == Snapshot(selected, Trying(s, actions).state)
  {
    var before := actions[..StayAt(actions)];
    StayLeaves(s, actions);
    HooksRest(s, before, selected);
    KeepsAllOf(Trying(s, actions), TriedBy(actions));
  }

  lemma ForkStaysExactly(s: Session, e: Event)
    requires BrokenBy(s) && CanHappen(s, e) && e.Forks? && IsTurn(s.store.log, e.target)
    requires AllValid(Proposed(s, e.target).history)
    ensures BrokenBy(Happens(s, e)) && (Deciding(Happens(s, e)) <==> Deciding(s) || EventStays(s, e))
  {
    var proposed, t := Proposed(s, e.target), Forking(s, e);
    ActionsStay(s.(history := proposed.history, state := proposed.state), e.hooks.actions);
    if !e.hooks.raises && e.miss.Some? && AllValid(s.history) {
      var missed := Missed(t, NewRecord(t.store, Fork(e.id, e.target)), e.miss.value);
      ActionsStay(missed.(history := s.history, state := s.state), e.undo.actions);
    }
  }

  lemma EventStaysExactly(s: Session, e: Event)
    requires BrokenBy(s) && CanHappen(s, e)
    ensures var t := Happens(s, e);
      BrokenBy(t) && (Deciding(t) <==> (Deciding(s) && !e.Resets?) || EventStays(s, e))
  {
    match e
    case Takes(turn) => TurnedStays(s, turn);
    case Restores(hooks) =>
      var selected := SnapshotAt(s.store, s.store.committed);
      if AllValid(selected.history) { ActionsStay(s.(history := selected.history, state := selected.state), hooks.actions); }
    case Resets(actions) => ActionsStay(NOTHING, actions);
    case Forks(target, _, _, _, _) =>
      if IsTurn(s.store.log, target) && AllValid(Proposed(s, target).history) { ForkStaysExactly(s, e); }
  }

  lemma HookedForkLeaves(s: Session, e: Event)
    requires Settled(s) && CanHappen(s, e) && e.Forks? && EventStays(s, e) && StaysIn(e.hooks.actions)
    ensures Selected(Happens(s, e)) == EventAttempts(s, e)
  {
    var proposed := Proposed(s, e.target);
    var u, t := s.(history := proposed.history, state := proposed.state), Forking(s, e);
    HookStays(u, e.hooks.actions, s.history);
    if !e.hooks.raises && e.miss.Some? && AllValid(s.history) {
      var missed := Missed(t, NewRecord(t.store, Fork(e.id, e.target)), e.miss.value);
      BrokenActions(missed.(history := s.history, state := s.state), e.undo.actions);
    }
  }

  lemma ForkLeaves(s: Session, e: Event)
    requires Settled(s) && CanHappen(s, e) && e.Forks? && EventStays(s, e)
    ensures Selected(Happens(s, e)) == EventAttempts(s, e)
  {
    if StaysIn(e.hooks.actions) {
      HookedForkLeaves(s, e);
    } else if e.miss.value.whole {
      FailedFork(s, e);
    } else {
      var t := Forking(s, e);
      var missed := Missed(t, NewRecord(t.store, Fork(e.id, e.target)), e.miss.value);
      ForkMisses(s, e);
      HookStays(missed.(history := s.history, state := s.state), e.undo.actions, s.history);
    }
  }

  /** Reopening the file then restores just that. */
  lemma EventLeaves(s: Session, e: Event)
    requires Settled(s) && CanHappen(s, e) && EventStays(s, e) && (Deciding(s) ==> e.Resets?)
    ensures Selected(Happens(s, e)) == EventAttempts(s, e)
  {
    match e
    case Takes(turn) => StayingTurn(s, turn);
    case Restores(hooks) =>
      var selected := SnapshotAt(s.store, s.store.committed);
      HookStays(s.(history := selected.history, state := selected.state), hooks.actions, s.history);
    case Resets(actions) =>
      AgreesExactly(NOTHING);
      HookStays(NOTHING, actions, []);
    case Forks(_, _, _, _, _) => ForkLeaves(s, e);
  }

  /** Until the journal is left nothing changes that. */
  lemma StuckEvent(s: Session, e: Event)
    requires Settled(s) && Deciding(s) && CanHappen(s, e) && !e.Resets?
    ensures Selected(Happens(s, e)) == Selected(s) && !EventStays(s, e)
  {
    match e
    case Takes(turn) =>
      StuckTurn(s, turn);
      BrokenTurn(s, turn);
    case Restores(hooks) =>
      var selected := SnapshotAt(s.store, s.store.committed);
      if AllValid(selected.history) { BrokenActions(s.(history := selected.history, state := selected.state), hooks.actions); }
    case Forks(target, hooks, id, miss, undo) =>
      var proposed := Proposed(s, target);
      if IsTurn(s.store.log, target) && AllValid(proposed.history) {
        BrokenActions(s.(history := proposed.history, state := proposed.state), hooks.actions);
        if !hooks.raises && miss.Some? && AllValid(s.history) {
          var t := Forking(s, e);
          var missed := Missed(t, NewRecord(t.store, Fork(id, target)), miss.value);
          BrokenActions(missed.(history := s.history, state := s.state), undo.actions);
        }
      }
  }

  // ---------------------------------------------------------------- runs

  predicate CanRun(s: Session, events: seq<Event>)
    decreases |events|, 0
  {
    events == [] ||
    (CanRun(s, events[..|events| - 1]) && CanHappen(RunAll(s, events[..|events| - 1]), events[|events| - 1]))
  }

  function RunAll(s: Session, events: seq<Event>): Session
    requires CanRun(s, events)
    decreases |events|, 1
  {
    if events == [] then s else Happens(RunAll(s, events[..|events| - 1]), events[|events| - 1])
  }

  predicate NeverSlips(s: Session, events: seq<Event>)
    requires CanRun(s, events)
    decreases |events|
  {
    events == [] ||
    (NeverSlips(s, events[..|events| - 1]) && !Slips(RunAll(s, events[..|events| - 1]), events[|events| - 1]))
  }

  /** A failed selection stayed in the journal that is open now. */
  predicate StayedIn(s: Session, events: seq<Event>)
    requires CanRun(s, events)
    decreases |events|
  {
    events != [] &&
    var before, last := events[..|events| - 1], events[|events| - 1];
    EventStays(RunAll(s, before), last) || (!last.Resets? && StayedIn(s, before))
  }

  /** What its record selects. */
  function LeftBy(s: Session, events: seq<Event>): Snapshot
    requires CanRun(s, events) && StayedIn(s, events)
    decreases |events|
  {
    var before, last := events[..|events| - 1], events[|events| - 1];
    if EventStays(RunAll(s, before), last) then EventAttempts(RunAll(s, before), last) else LeftBy(s, before)
  }

  lemma {:induction false} EventsSettle(s: Session, events: seq<Event>)
    requires Settled(s) && !Deciding(s) && CanRun(s, events) && NeverSlips(s, events)
    ensures var t := RunAll(s, events);
      && Settled(t) && (Deciding(t) <==> StayedIn(s, events))
      && (StayedIn(s, events) ==> Selected(t) == LeftBy(s, events))
    decreases |events|
  {
    if events != [] {
      var before, last := events[..|events| - 1], events[|events| - 1];
      EventsSettle(s, before);
      var u := RunAll(s, before);
      EventSettles(u, last);
      EventStaysExactly(u, last);
      if Deciding(u) && !last.Resets? {
        StuckEvent(u, last);
      } else if EventStays(u, last) {
        EventLeaves(u, last);
      }
    }
  }

  /** Over every run of turns, restores, forks and resets in which no fork fails twice: memory holds what reopening the file
    * restores exactly if its state is the saved one; or, where a failed selection stayed in the journal that is open, exactly
    * if that selected what memory holds. */
  lemma EventsAgree(s: Session, events: seq<Event>)
    requires Settled(s) && !Deciding(s) && CanRun(s, events) && NeverSlips(s, events)
    ensures var t := RunAll(s, events);
      && Settled(t)
      && (Agree(t) <==> if StayedIn(s, events) then LeftBy(s, events) == Snapshot(t.history, t.state)
                        else t.state == SavedState(t))
  {
    var t := RunAll(s, events);
    EventsSettle(s, events);
    ReopeningSelects(t);
    if !Deciding(t) { AgreesExactly(t); }
  }

  // ---------------------------------------------------------------- forks that do not end in agreement

  function Committed(s: Session, id: Id): Session {
    s.(store := Step(s.store, Commit(id, map[])))
  }

  lemma EmptyTurn(id: Id)
    requires IsId(id)
    ensures var s := Committed(NOTHING, id);
      && Settled(s) && Agree(s) && IsTurn(s.store.log, id) && Proposed(s, id) == Snapshot([], map[])
  {
    CommitStep(EMPTY, id, map[]);
    var s := Committed(NOTHING, id);
    assert s.store.log[0] == Record(id, None, TurnCommit(map[]));
    assert NewId(EMPTY, id);
    AgreesExactly(s);
  }

  lemma OneWrite(s: Session, state: State)
    ensures CanActAll(s, [Write(state)]) && Quiet([Write(state)])
  {
    var written := [Write(state)];
    assert written[..|written| - 1] == [] && CanActAll(s, []);
  }

  /** The hooks of a fork change the state, say of `owner`: memory has it, and reopening the file restores the target. */
  lemma ForkForgetsHooks(target: Id, id: Id, owner: Owner, text: string)
    requires IsId(target) && IsId(id) && target != id
    ensures var e := Forks(target, Hooks([Write(map[owner := text])], false), id, None, Hooks([], false));
      var s := Committed(NOTHING, target);
      Agree(s) && CanHappen(s, e) && Accepted(s, target, e.hooks) && !Agree(Happens(s, e))
  {
    var s, written := Committed(NOTHING, target), [Write(map[owner := text])];
    var e := Forks(target, Hooks(written, false), id, None, Hooks([], false));
    EmptyTurn(target);
    OneWrite(s.(history := [], state := map[]), map[owner := text]);
    HasGrows([], Record(target, None, TurnCommit(map[])), id);
    assert StateAfter(map[], written) == map[owner := text] && owner in StateAfter(map[], written);
    ForkAgrees(s, e);
  }

  /** A turn of one message behind an empty one. */
  function SecondTurn(first: Id, said: Id, second: Id, message: Message): Session {
    Committed(Said(Committed(NOTHING, first), said, message), second)
  }

  lemma StillTurn(t: Store, op: Op, first: Id, id: Id)
    requires Consistent(t) && Enabled(t, op) && (op.AppendMessage? || op.Commit?) && IsTurn(t.log, first)
    ensures IsTurn(Step(t, op).log, first) && SnapshotAt(Step(t, op), Some(first)) == SnapshotAt(t, Some(first))
    ensures NewId(t, id) && id != op.id ==> NewId(Step(t, op), id)
  {
    TurnExists(t, first);
    HistoryGrows(t.log, NewRecord(t, op), Some(first));
    StateGrows(t.log, NewRecord(t, op), Some(first));
    TurnStaysTurn(t.log, NewRecord(t, op), first);
    HasGrows(t.log, NewRecord(t, op), id);
  }

  lemma SecondTurnSettles(first: Id, said: Id, second: Id, message: Message, id: Id)
    requires IsId(first) && IsId(said) && IsId(second) && first != said && said != second && first != second
    requires ValidMessage(message) && IsId(id) && id !in {first, said, second}
    ensures var s := SecondTurn(first, said, second, message);
      && Settled(s) && IsTurn(s.store.log, first) && Proposed(s, first) == Snapshot([], map[]) && NewId(s.store, id)
  {
    EmptyTurn(first);
    var r := Record(first, None, TurnCommit(map[]));
    HasGrows([], r, said);
    HasGrows([], r, second);
    HasGrows([], r, id);
    var a := Committed(NOTHING, first).store;
    StillTurn(a, AppendMessage(said, message), first, second);
    StillTurn(a, AppendMessage(said, message), first, id);
    StoreStep(a, AppendMessage(said, message));
    var b := Step(a, AppendMessage(said, message));
    StillTurn(b, Commit(second, map[]), first, id);
    CommitStep(b, second, map[]);
  }

  /** The selection fails and a hook of the way back raises: memory keeps the history of the target, while the store goes on
    * from the old selection. */
  lemma ForkFailsTwice(first: Id, said: Id, second: Id, message: Message, id: Id)
    requires IsId(first) && IsId(said) && IsId(second) && first != said && said != second && first != second
    requires ValidMessage(message) && IsId(id) && id !in {first, said, second}
    ensures var s := SecondTurn(first, said, second, message);
      var e := Forks(first, Hooks([], false), id, Some(Miss(false, false)), Hooks([], true));
      && Settled(s) && CanHappen(s, e)
      && Happens(s, e).history == [] && Selected(Happens(s, e)).history == [message]
  {
    var s := SecondTurn(first, said, second, message);
    var e := Forks(first, Hooks([], false), id, Some(Miss(false, false)), Hooks([], true));
    SecondTurnSettles(first, said, second, message, id);
    assert CanReplace(s, Proposed(s, first), e.hooks);
    var t := Forking(s, e);
    assert CanReplace(Missed(t, NewRecord(t.store, Fork(id, first)), e.miss.value), Snapshot(s.history, s.state), e.undo);
    FailedFork(s, e);
  }
}
