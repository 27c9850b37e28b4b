/** Runs of a session, and what reopening its file restores (raychat/session.py). */
module SessionRuns {
  import opened Effects
  import opened SessionRecords
  import opened SessionStore
  import opened SessionTurns

  // ---------------------------------------------------------------- after a failed selection stayed

  lemma {:induction false} SplitActions(s: Session, a: seq<Action>, b: seq<Action>)
    ensures ActAll(s, a + b) == ActAll(ActAll(s, a), b)
    ensures CanActAll(s, a + b) <==> CanActAll(s, a) && CanActAll(ActAll(s, a), b)
  {
    if b == [] {
      assert a + b == a;
    } else {
      assert (a + b)[..|a + b| - 1] == a + b[..|b| - 1];
      SplitActions(s, a, b[..|b| - 1]);
    }
  }

  lemma CutAt(s: Session, actions: seq<Action>, k: nat)
    requires CanActAll(s, actions) && k < |actions|
    ensures var u := ActAll(s, actions[..k]);
      && CanActAll(s, actions[..k]) && CanAct(u, actions[k])
      && CanActAll(Act(u, actions[k]), actions[k + 1..])
      && ActAll(s, actions) == ActAll(Act(u, actions[k]), actions[k + 1..])
  {
    assert actions == actions[..k + 1] + actions[k + 1..];
    SplitActions(s, actions[..k + 1], actions[k + 1..]);
    assert actions[..k + 1][..k] == actions[..k];
  }

  /** Nothing has been written to the store, and an abort still returns to the same state. */
  predicate Frozen(t: Session, s: Session) {
    t.broken && t.store == s.store && t.survivor == s.survivor && t.rollback == s.rollback
  }

  lemma {:induction false} BrokenActions(s: Session, actions: seq<Action>)
    requires s.broken && CanActAll(s, actions)
    ensures Frozen(ActAll(s, actions), s) && ActAll(s, actions).history == s.history && !StaysIn(actions)
  {
    if actions != [] {
      var before, last := actions[..|actions| - 1], actions[|actions| - 1];
      BrokenActions(s, before);
      assert actions == before + [last];
      StaysMore(before, last);
    }
  }

  lemma BrokenCompletion(s: Session, t: Session, added: seq<Message>, completion: Completion)
    requires t.broken && CanComplete(t, added, completion)
    ensures Frozen(Complete(s, t, completion), t) && !completion.Recorded?
    ensures completion.RecordFails? ==> !completion.miss.whole
  {
    if completion.SaveFails? || completion.RecordFails? {
      assert completion.said == [] && Run(t.store, []) == t.store;
    }
  }

  /** A broken store writes nothing, so the turn stays undecided. */
  lemma BrokenEnding(s: Session, ending: Ending)
    requires s.broken && CanEnd(s, ending)
    ensures Frozen(End(s, ending), s) && !Decides(ending) && !CommitStays(ending) && !StaysIn(GapOf(ending))
  {
    if ending.Completes? {
      var adopted := Adopted(s, ending.snapshot);
      BrokenActions(adopted, ending.gap);
      BrokenCompletion(s, ActAll(adopted, ending.gap), ending.snapshot.history[|s.history|..], ending.completion);
    }
  }

  /** The only one of these actions whose record stayed. */
  function StayAt(actions: seq<Action>): (k: nat)
    requires StaysIn(actions)
    ensures k < |actions| && Stays(actions[k])
  {
    if Stays(actions[|actions| - 1]) then |actions| - 1
    else
      assert StaysIn(actions[..|actions| - 1]) by {
        var i :| 0 <= i < |actions| && Stays(actions[i]);
        assert Stays(actions[..|actions| - 1][i]);
      }
      StayAt(actions[..|actions| - 1])
  }

  /** The session when the checkpoint that stayed was tried. */
  function Trying(s: Session, actions: seq<Action>): Session
    requires StaysIn(actions)
  {
    ActAll(s, actions[..StayAt(actions)])
  }

  function TriedBy(actions: seq<Action>): Owner
    requires StaysIn(actions)
  {
    actions[StayAt(actions)].owner
  }

  /** From then on the file has its record, and nothing else reaches it. */
  lemma StayLeaves(s: Session, actions: seq<Action>)
    requires CanActAll(s, actions) && StaysIn(actions)
    ensures var k := StayAt(actions);
      var u, t := Trying(s, actions), ActAll(s, actions);
      && CanActAll(s, actions[..k])
      && t.broken && t.store == u.store && t.rollback == u.rollback && t.history == u.history
      && t.survivor == Some(NewRecord(u.store, Checkpointed(actions[k].id, ToKeep(u, TriedBy(actions)))))
  {
    var k := StayAt(actions);
    CutAt(s, actions, k);
    BrokenActions(Act(Trying(s, actions), actions[k]), actions[k + 1..]);
  }

  // ---------------------------------------------------------------- the turn in which it stayed

  /** It was the commit of the turn, and not a checkpoint. */
  predicate ByCommit(turn: Turn) {
    !StaysIn(turn.actions) && !StaysIn(GapOf(turn.ending)) && CommitStays(turn.ending)
  }

  /** It was a checkpoint after the turn. */
  predicate Afterwards(turn: Turn) {
    !StaysIn(turn.actions) && !StaysIn(GapOf(turn.ending)) && !CommitStays(turn.ending)
  }

  /** The session when the selection that stayed was tried. */
  function Tried(s: Session, turn: Turn): Session
    requires CanTurn(s, turn) && TurnStays(turn)
  {
    var u := ActAll(Open(s), turn.actions);
    if StaysIn(turn.actions) then Trying(Open(s), turn.actions)
    else if StaysIn(GapOf(turn.ending)) then Trying(Adopted(u, turn.ending.snapshot), turn.ending.gap)
    else if !CommitStays(turn.ending) then Trying(Turned(s, turn), turn.after)
    else if turn.ending.Completes? then ActAll(Adopted(u, turn.ending.snapshot), turn.ending.gap)
    else u
  }

  function TriedOwner(turn: Turn): Owner
    requires TurnStays(turn) && !ByCommit(turn)
  {
    TriedBy(if StaysIn(turn.actions) then turn.actions
            else if StaysIn(GapOf(turn.ending)) then GapOf(turn.ending)
            else turn.after)
  }

  function Back(u: Session): State {
    if u.rollback.Some? then u.rollback.value else u.state
  }

  /** What the record that stayed selects: the turn as it was to be committed, or the committed history with the state that
    * the checkpoint was to save. */
  function Attempted(s: Session, turn: Turn): Snapshot
    requires CanTurn(s, turn) && TurnStays(turn)
  {
    var u := Tried(s, turn);
    if ByCommit(turn) then Snapshot(u.history, u.state)
    else Snapshot(if Afterwards(turn) then u.history else s.history, ToKeep(u, TriedOwner(turn)))
  }

  /** What memory holds when the turn is over: what an abort returned to, and what was written since. */
  function Regained(s: Session, turn: Turn): Snapshot
    requires CanTurn(s, turn) && TurnStays(turn)
  {
    var u := Tried(s, turn);
    if Afterwards(turn) then Snapshot(u.history, StateAfter(u.state, turn.after[StayAt(turn.after)..]))
    else Snapshot(s.history, StateAfter(Back(u), turn.after))
  }

  lemma Aftermath(e: Session, start: seq<Message>, after: seq<Action>)
    requires e.broken && e.rollback.Some? && CanActAll(Finish(e, start), after)
    ensures var t := ActAll(Finish(e, start), after);
      && t.broken && t.survivor == e.survivor && Selected(t) == Selected(e)
      && t.history == start && t.state == StateAfter(e.rollback.value, after)
  {
    BrokenActions(Finish(e, start), after);
    WrittenIs(Finish(e, start), after);
  }

  /** A checkpoint within the turn stayed. */
  lemma ActionsLeave(s: Session, actions: seq<Action>)
    requires Settled(s) && CanActAll(Open(s), actions) && StaysIn(actions)
    ensures var u, v := Trying(Open(s), actions), ActAll(Open(s), actions);
      && v.broken && v.rollback == u.rollback && v.rollback.Some?
      && Selected(v) == Snapshot(s.history, ToKeep(u, TriedBy(actions)))
  {
    StayLeaves(Open(s), actions);
    ActAllOpen(Open(s), actions[..StayAt(actions)], s.history);
  }

  lemma StaysInActions(s: Session, turn: Turn)
    requires Settled(s) && CanTurn(s, turn) && StaysIn(turn.actions)
    ensures var t := RunTurn(s, turn);
      Selected(t) == Attempted(s, turn) && Snapshot(t.history, t.state) == Regained(s, turn)
  {
    ActionsLeave(s, turn.actions);
    var v := ActAll(Open(s), turn.actions);
    BrokenEnding(v, turn.ending);
    Aftermath(End(v, turn.ending), s.history, turn.after);
  }

  /** A checkpoint of a restore hook stayed. */
  lemma GapLeaves(v: Session, ending: Ending, start: seq<Message>)
    requires OpenAt(v, start, v.history) && CanEnd(v, ending) && StaysIn(GapOf(ending))
    ensures var u, e := Trying(Adopted(v, ending.snapshot), ending.gap), End(v, ending);
      && e.broken && e.rollback == u.rollback && e.rollback.Some?
      && Selected(e) == Snapshot(start, ToKeep(u, TriedBy(ending.gap)))
  {
    var adopted, gap := Adopted(v, ending.snapshot), ending.gap;
    StayLeaves(adopted, gap);
    QuietOpen(adopted, gap[..StayAt(gap)], start, v.history);
    BrokenCompletion(v, ActAll(adopted, gap), ending.snapshot.history[|v.history|..], ending.completion);
  }

  lemma StaysInGap(s: Session, turn: Turn)
    requires Settled(s) && CanTurn(s, turn) && !StaysIn(turn.actions) && StaysIn(GapOf(turn.ending))
    ensures var t := RunTurn(s, turn);
      Selected(t) == Attempted(s, turn) && Snapshot(t.history, t.state) == Regained(s, turn)
  {
    var v := ActAll(Open(s), turn.actions);
    ActAllOpen(Open(s), turn.actions, s.history);
    GapLeaves(v, turn.ending, s.history);
    Aftermath(End(v, turn.ending), s.history, turn.after);
  }

  lemma StaysInCommit(s: Session, turn: Turn)
    requires Settled(s) && CanTurn(s, turn) && ByCommit(turn) && turn.ending.CommitFails?
    ensures var t := RunTurn(s, turn);
      Selected(t) == Attempted(s, turn) && Snapshot(t.history, t.state) == Regained(s, turn)
  {
    ActAllOpen(Open(s), turn.actions, s.history);
    Aftermath(End(ActAll(Open(s), turn.actions), turn.ending), s.history, turn.after);
  }

  lemma CompletionLeaves(v: Session, t: Session, completion: Completion, added: seq<Message>, start: seq<Message>,
                         stored: seq<Message>)
    requires OpenAt(t, start, stored) && t.history == stored + added
    requires CanComplete(t, added, completion) && completion.RecordFails? && completion.miss.whole
    ensures var e := Complete(v, t, completion);
      && e.broken && e.rollback == t.rollback && Selected(e) == Snapshot(t.history, t.state)
  {
    StoringOpen(t, completion.said, added, start, stored);
  }

  /** The commit of an external turn stayed. */
  lemma RecordLeaves(v: Session, ending: Ending, start: seq<Message>)
    requires OpenAt(v, start, v.history) && CanEnd(v, ending) && ending.Completes? && CommitStays(ending)
    ensures var t, e := ActAll(Adopted(v, ending.snapshot), ending.gap), End(v, ending);
      && e.broken && e.rollback == t.rollback && e.rollback.Some?
      && Selected(e) == Snapshot(t.history, t.state)
  {
    var adopted, added := Adopted(v, ending.snapshot), ending.snapshot.history[|v.history|..];
    QuietOpen(adopted, ending.gap, start, v.history);
    assert v.history + added == adopted.history;
    CompletionLeaves(v, ActAll(adopted, ending.gap), ending.completion, added, start, v.history);
  }

  lemma StaysInRecord(s: Session, turn: Turn)
    requires Settled(s) && CanTurn(s, turn) && ByCommit(turn) && turn.ending.Completes?
    ensures var t := RunTurn(s, turn);
      Selected(t) == Attempted(s, turn) && Snapshot(t.history, t.state) == Regained(s, turn)
  {
    var v := ActAll(Open(s), turn.actions);
    ActAllOpen(Open(s), turn.actions, s.history);
    RecordLeaves(v, turn.ending, s.history);
    Aftermath(End(v, turn.ending), s.history, turn.after);
  }

  lemma {:induction false} WrittenSplit(state: State, a: seq<Action>, b: seq<Action>)
    ensures StateAfter(state, a + b) == StateAfter(StateAfter(state, a), b)
  {
    if b == [] {
      assert a + b == a;
    } else {
      assert (a + b)[..|a + b| - 1] == a + b[..|b| - 1];
      WrittenSplit(state, a, b[..|b| - 1]);
    }
  }

  /** What is written last, counted from some action on. */
  lemma StateFrom(s: Session, actions: seq<Action>, k: nat)
    requires k <= |actions|
    ensures ActAll(s, actions).state == StateAfter(ActAll(s, actions[..k]).state, actions[k..])
  {
    WrittenIs(s, actions);
    WrittenIs(s, actions[..k]);
    assert actions == actions[..k] + actions[k..];
    WrittenSplit(s.state, actions[..k], actions[k..]);
  }

  lemma SettledUpTo(u: Session, after: seq<Action>, k: nat)
    requires Settled(u) && k <= |after| && CanActAll(u, after[..k]) && Quiet(after)
    ensures Settled(ActAll(u, after[..k]))
  {
    LateActions(u, after[..k]);
  }

  lemma StaysBetween(u: Session, after: seq<Action>)
    requires Settled(u) && CanActAll(u, after) && Quiet(after) && StaysIn(after)
    ensures var v, t := Trying(u, after), ActAll(u, after);
      && Selected(t) == Snapshot(v.history, ToKeep(v, TriedBy(after)))
      && t.history == v.history && t.state == StateAfter(v.state, after[StayAt(after)..])
  {
    StayLeaves(u, after);
    SettledUpTo(u, after, StayAt(after));
    StateFrom(u, after, StayAt(after));
  }

  lemma StaysAfterwards(s: Session, turn: Turn)
    requires Settled(s) && CanTurn(s, turn) && StaysIn(turn.after) && Afterwards(turn)
    ensures var t := RunTurn(s, turn);
      Selected(t) == Attempted(s, turn) && Snapshot(t.history, t.state) == Regained(s, turn)
  {
    TurnSettles(s, turn);
    StaysBetween(Turned(s, turn), turn.after);
  }

  /** In whatever way a turn ends in which a failed selection stayed: reopening restores what was attempted, and memory holds
    * what an abort returns to. */
  lemma StayingTurn(s: Session, turn: Turn)
    requires Settled(s) && !Deciding(s) && CanTurn(s, turn) && TurnStays(turn)
    ensures var t := RunTurn(s, turn);
      && Settled(t) && Deciding(t)
      && Selected(t) == Attempted(s, turn) && Snapshot(t.history, t.state) == Regained(s, turn)
      && (Agree(t) <==> Attempted(s, turn) == Regained(s, turn))
  {
    if StaysIn(turn.actions) {
      StaysInActions(s, turn);
    } else if StaysIn(GapOf(turn.ending)) {
      StaysInGap(s, turn);
    } else if !CommitStays(turn.ending) {
      StaysAfterwards(s, turn);
    } else if turn.ending.Completes? {
      StaysInRecord(s, turn);
    } else {
      StaysInCommit(s, turn);
    }
    TurnedStays(s, turn);
    TurnSettles(s, turn);
    LateActions(Turned(s, turn), turn.after);
    ReopeningSelects(RunTurn(s, turn));
  }

  // ---------------------------------------------------------------- when it is harmless

  const STAYS: Miss := Miss(true, true)

  lemma NoneStaysLater(s: Session, actions: seq<Action>, i: nat, j: nat)
    requires CanActAll(s, actions) && i < j < |actions| && Stays(actions[i])
    ensures !Stays(actions[j])
  {
    CutAt(s, actions, i);
    BrokenActions(Act(ActAll(s, actions[..i]), actions[i]), actions[i + 1..]);
    assert actions[i + 1..][j - i - 1] == actions[j];
  }

  lemma OneStays(s: Session, before: seq<Action>, a: Action, more: seq<Action>)
    requires CanActAll(s, before + [a] + more) && Stays(a)
    ensures var actions := before + [a] + more;
      StaysIn(actions) && StayAt(actions) == |before| && actions[..|before|] == before
  {
    var actions := before + [a] + more;
    assert actions[|before|] == a;
    var k := StayAt(actions);
    if k < |before| {
      NoneStaysLater(s, actions, k, |before|);
    } else if k > |before| {
      NoneStaysLater(s, actions, |before|, k);
    }
  }

  /** A checkpoint within a turn: whoever tried it had saved the same before, and nothing else is written since. */
  lemma StayingCheckpoint(s: Session, before: seq<Action>, id: Id, owner: Owner, more: seq<Action>, ending: Ending,
                          after: seq<Action>)
    requires Settled(s) && !Deciding(s) && CanTurn(s, Turn(before + [KeepFails(id, owner, STAYS)] + more, ending, after))
    ensures var u := ActAll(Open(s), before);
      Agree(RunTurn(s, Turn(before + [KeepFails(id, owner, STAYS)] + more, ending, after)))
      <==> ToKeep(u, owner) == StateAfter(Back(u), after)
  {
    var turn := Turn(before + [KeepFails(id, owner, STAYS)] + more, ending, after);
    OneStays(Open(s), before, KeepFails(id, owner, STAYS), more);
    StayingTurn(s, turn);
    assert turn.actions[|before|] == KeepFails(id, owner, STAYS);
  }

  /** A commit: the turn added no message, and its state is the one that an abort and later writes end with. */
  lemma StayingCommit(s: Session, actions: seq<Action>, id: Id, after: seq<Action>)
    requires Settled(s) && !Deciding(s) && CanTurn(s, Turn(actions, CommitFails(id, STAYS), after))
    ensures var u := ActAll(Open(s), actions);
      Agree(RunTurn(s, Turn(actions, CommitFails(id, STAYS), after)))
      <==> u.history == s.history && u.state == StateAfter(Back(u), after)
  {
    var turn := Turn(actions, CommitFails(id, STAYS), after);
    if StaysIn(actions) { StayLeaves(Open(s), actions); }
    StayingTurn(s, turn);
  }

  /** The commit of an external turn: the same of the adopted history and the state that the hooks left. */
  lemma StayingRecord(s: Session, turn: Turn)
    requires Settled(s) && !Deciding(s) && CanTurn(s, turn) && turn.ending.Completes? && CommitStays(turn.ending)
    ensures var t := ActAll(Adopted(ActAll(Open(s), turn.actions), turn.ending.snapshot), turn.ending.gap);
      Agree(RunTurn(s, turn)) <==> turn.ending.snapshot.history == s.history && t.state == StateAfter(Back(t), turn.after)
  {
    var v := ActAll(Open(s), turn.actions);
    if StaysIn(turn.actions) {
      StayLeaves(Open(s), turn.actions);
      BrokenEnding(v, turn.ending);
    }
    if StaysIn(turn.ending.gap) { StayLeaves(Adopted(v, turn.ending.snapshot), turn.ending.gap); }
    ActAllOpen(Open(s), turn.actions, s.history);
    QuietOpen(Adopted(v, turn.ending.snapshot), turn.ending.gap, s.history, v.history);
    StayingTurn(s, turn);
  }

  /** A checkpoint of a restore hook, before an external turn is recorded. */
  lemma StayingHook(s: Session, turn: Turn, before: seq<Action>, id: Id, owner: Owner, more: seq<Action>)
    requires Settled(s) && !Deciding(s) && CanTurn(s, turn) && turn.ending.Completes?
    requires turn.ending.gap == before + [KeepFails(id, owner, STAYS)] + more
    ensures var u := ActAll(Adopted(ActAll(Open(s), turn.actions), turn.ending.snapshot), before);
      Agree(RunTurn(s, turn)) <==> ToKeep(u, owner) == StateAfter(Back(u), turn.after)
  {
    var v := ActAll(Open(s), turn.actions);
    OneStays(Adopted(v, turn.ending.snapshot), before, KeepFails(id, owner, STAYS), more);
    if StaysIn(turn.actions) {
      StayLeaves(Open(s), turn.actions);
      BrokenEnding(v, turn.ending);
    }
    StayingTurn(s, turn);
    assert turn.ending.gap[|before|] == KeepFails(id, owner, STAYS);
  }

  lemma LateIsAfterwards(s: Session, turn: Turn)
    requires CanTurn(s, turn) && StaysIn(turn.after)
    ensures Afterwards(turn)
  {
    var v := ActAll(Open(s), turn.actions);
    if StaysIn(turn.actions) { StayLeaves(Open(s), turn.actions); }
    if v.broken { BrokenEnding(v, turn.ending); }
    if StaysIn(GapOf(turn.ending)) {
      var gap := turn.ending.gap;
      StayLeaves(Adopted(v, turn.ending.snapshot), gap);
      BrokenCompletion(v, ActAll(Adopted(v, turn.ending.snapshot), gap), turn.ending.snapshot.history[|v.history|..],
                       turn.ending.completion);
    }
    if Turned(s, turn).broken { BrokenActions(Turned(s, turn), turn.after); }
  }

  lemma KeptLate(state: State, id: Id, owner: Owner, more: seq<Action>)
    ensures StateAfter(state, [KeepFails(id, owner, STAYS)] + more) == StateAfter(state, more)
  {
    WrittenSplit(state, [KeepFails(id, owner, STAYS)], more);
    assert StateAfter(state, [KeepFails(id, owner, STAYS)][..0]) == state;
  }

  lemma LateSplit(v: Session, after: seq<Action>, before: seq<Action>, id: Id, owner: Owner, more: seq<Action>)
    requires CanActAll(v, after) && after == before + [KeepFails(id, owner, STAYS)] + more
    ensures StaysIn(after) && Trying(v, after) == ActAll(v, before)
    ensures var state := ActAll(v, before).state; StateAfter(state, after[StayAt(after)..]) == StateAfter(state, more)
  {
    OneStays(v, before, KeepFails(id, owner, STAYS), more);
    assert after[|before|..] == [KeepFails(id, owner, STAYS)] + more;
    KeptLate(ActAll(v, before).state, id, owner, more);
  }

  lemma KeepsAllOf(u: Session, owner: Owner)
    requires u.rollback == None
    ensures ToKeep(u, owner) == u.state
  {
  }

  lemma LateHarmless(s: Session, turn: Turn)
    requires Settled(s) && !Deciding(s) && CanTurn(s, turn) && StaysIn(turn.after)
    ensures var u := Trying(Turned(s, turn), turn.after);
      Agree(RunTurn(s, turn)) <==> u.state == StateAfter(u.state, turn.after[StayAt(turn.after)..])
  {
    LateIsAfterwards(s, turn);
    StayLeaves(Turned(s, turn), turn.after);
    StayingTurn(s, turn);
    KeepsAllOf(Trying(Turned(s, turn), turn.after), TriedBy(turn.after));
  }

  /** A checkpoint between turns: memory holds what it was to save until something else is written. */
  lemma StayingLate(s: Session, turn: Turn, before: seq<Action>, id: Id, owner: Owner, more: seq<Action>)
    requires Settled(s) && !Deciding(s) && CanTurn(s, turn) && turn.after == before + [KeepFails(id, owner, STAYS)] + more
    ensures var u := ActAll(Turned(s, turn), before);
      Agree(RunTurn(s, turn)) <==> u.state == StateAfter(u.state, more)
  {
    LateSplit(Turned(s, turn), turn.after, before, id, owner, more);
    LateHarmless(s, turn);
  }

  // ---------------------------------------------------------------- runs of turns

  /** The state that is written last after some turns that an abort takes back. */
  function StateLater(state: State, turns: seq<Turn>): State {
    if turns == [] then state else StateAfter(StateLater(state, turns[..|turns| - 1]), turns[|turns| - 1].after)
  }

  /** Once a failed selection is in the file no later turn changes what reopening restores, and memory keeps nothing of it. */
  lemma StuckTurn(s: Session, turn: Turn)
    requires Settled(s) && Deciding(s) && CanTurn(s, turn)
    ensures var t := RunTurn(s, turn);
      && Settled(t) && Deciding(t) && Selected(t) == Selected(s)
      && t.history == s.history && t.state == StateAfter(s.state, turn.after)
  {
    BrokenActions(Open(s), turn.actions);
    var v := ActAll(Open(s), turn.actions);
    BrokenEnding(v, turn.ending);
    Aftermath(End(v, turn.ending), s.history, turn.after);
    TurnSettles(s, turn);
    LateActions(Turned(s, turn), turn.after);
    TurnedStays(s, turn);
  }

  lemma {:induction false} StuckRuns(s: Session, turns: seq<Turn>)
    requires Settled(s) && Deciding(s) && CanTurns(s, turns)
    ensures var t := RunTurns(s, turns);
      && Settled(t) && Deciding(t) && Selected(t) == Selected(s)
      && t.history == s.history && t.state == StateLater(s.state, turns)
    decreases |turns|
  {
    if turns != [] {
      StuckRuns(s, turns[..|turns| - 1]);
      StuckTurn(RunTurns(s, turns[..|turns| - 1]), turns[|turns| - 1]);
    }
  }

  lemma StuckAgree(s: Session, turns: seq<Turn>)
    requires Settled(s) && Deciding(s) && CanTurns(s, turns)
    ensures var t := RunTurns(s, turns);
      && Settled(t) && Deciding(t) && Selected(t) == Selected(s)
      && Snapshot(t.history, t.state) == Later(Snapshot(s.history, s.state), turns)
      && (Agree(t) <==> Selected(s) == Later(Snapshot(s.history, s.state), turns))
  {
    StuckRuns(s, turns);
    ReopeningSelects(RunTurns(s, turns));
  }

  /** A turn on a broken store leaves nothing behind. */
  lemma BrokenTurn(s: Session, turn: Turn)
    requires s.broken && CanTurn(s, turn)
    ensures !TurnStays(turn)
  {
    BrokenActions(Open(s), turn.actions);
    var v := ActAll(Open(s), turn.actions);
    BrokenEnding(v, turn.ending);
    BrokenActions(Finish(End(v, turn.ending), s.history), turn.after);
  }

  /** At the end of every run of turns in which no failed selection stays in the file, memory holds what reopening the file
    * restores exactly if the state is the saved one. */
  lemma RunsAgree(s: Session, turns: seq<Turn>)
    requires Settled(s) && !Deciding(s) && CanTurns(s, turns)
    ensures var t := RunTurns(s, turns);
      && Settled(t) && (Deciding(t) <==> SomeStay(turns))
      && (!SomeStay(turns) ==> (Agree(t) <==> t.state == SavedState(t)))
      && (Agree(s) && AllSaved(turns) && !SomeStay(turns) ==> Agree(t))
  {
    RunsSettle(s, turns);
    RunsStay(s, turns);
    if !SomeStay(turns) { AgreesExactly(RunTurns(s, turns)); }
    AgreesExactly(s);
    if Agree(s) && AllSaved(turns) { SavedRuns(s, turns); }
  }

  /** What memory holds after later turns. */
  function Later(memory: Snapshot, turns: seq<Turn>): Snapshot {
    Snapshot(memory.history, StateLater(memory.state, turns))
  }

  /** A run in which one stays, in the turn between `before` and `later`: reopening restores what was attempted then, memory
    * holds what it was left with then and what was written since, and they agree exactly if these are equal. */
  lemma StayedRunsAgree(s: Session, before: seq<Turn>, turn: Turn, later: seq<Turn>)
    requires Settled(s) && BrokenBy(s) && CanTurns(s, before) && CanTurn(RunTurns(s, before), turn) && TurnStays(turn)
    requires CanTurns(RunTurn(RunTurns(s, before), turn), later)
    ensures var u := RunTurns(s, before);
      var t := RunTurns(RunTurn(u, turn), later);
      && Settled(t) && Deciding(t)
      && Selected(t) == Attempted(u, turn) && Snapshot(t.history, t.state) == Later(Regained(u, turn), later)
      && (Agree(t) <==> Attempted(u, turn) == Later(Regained(u, turn), later))
  {
    RunsSettle(s, before);
    RunsStay(s, before);
    StayedThen(RunTurns(s, before), turn, later);
  }

  lemma StayedThen(u: Session, turn: Turn, later: seq<Turn>)
    requires Settled(u) && BrokenBy(u) && CanTurn(u, turn) && TurnStays(turn) && CanTurns(RunTurn(u, turn), later)
    ensures var t := RunTurns(RunTurn(u, turn), later);
      && Settled(t) && Deciding(t)
      && Selected(t) == Attempted(u, turn) && Snapshot(t.history, t.state) == Later(Regained(u, turn), later)
      && (Agree(t) <==> Attempted(u, turn) == Later(Regained(u, turn), later))
  {
    if Deciding(u) { BrokenTurn(u, turn); }
    StayingTurn(u, turn);
    StuckAgree(RunTurn(u, turn), later);
  }

  // ---------------------------------------------------------------- selections that return

  const NOTHING: Session := Session([], map[], None, {}, EMPTY, false, None)

  lemma OneMessage(said: Id, id: Id, message: Message)
    requires IsId(said) && IsId(id) && said != id && ValidMessage(message)
    ensures var u := ActAll(Open(NOTHING), [Say(said, message)]);
      && CanActAll(Open(NOTHING), [Say(said, message)])
      && u == Said(Open(NOTHING), said, message) && NewId(u.store, id)
  {
    var s, actions := Open(NOTHING), [Say(said, message)];
    assert actions[..|actions| - 1] == [] && CanActAll(s, []) && ActAll(s, []) == s;
    assert CanAct(s, actions[0]);
    HasGrows([], Record(said, None, Saved(message)), id);
  }

  /** A message is said, the commit is written, its synchronization and its truncation fail: the turn is aborted in memory,
    * and reopening the file restores it. */
  lemma AbortedTurnReturns(said: Id, id: Id, message: Message)
    requires IsId(said) && IsId(id) && said != id && ValidMessage(message)
    ensures Settled(NOTHING) && Agree(NOTHING)
    ensures var turn := Turn([Say(said, message)], CommitFails(id, STAYS), []);
      && CanTurn(NOTHING, turn) && !Agree(RunTurn(NOTHING, turn))
      && RunTurn(NOTHING, turn).history == [] && Selected(RunTurn(NOTHING, turn)).history == [message]
  {
    AgreesExactly(NOTHING);
    OneMessage(said, id, message);
    var turn := Turn([Say(said, message)], CommitFails(id, STAYS), []);
    assert !Stays(turn.actions[0]);
    StayingTurn(NOTHING, turn);
  }

  lemma OneCheckpoint(id: Id, owner: Owner, state: State)
    requires IsId(id)
    ensures var actions := [Write(state), KeepFails(id, owner, STAYS)];
      && CanActAll(Open(NOTHING), actions)
      && actions[..1] == [Write(state)] && ActAll(Open(NOTHING), [Write(state)]) == Open(NOTHING).(state := state)
  {
    var s, actions := Open(NOTHING), [Write(state), KeepFails(id, owner, STAYS)];
    var written := [Write(state)];
    assert written[..|written| - 1] == [] && CanActAll(s, []) && ActAll(s, []) == s;
    assert CanActAll(s, written) && ActAll(s, written) == s.(state := state);
    assert actions[..|actions| - 1] == written;
    assert CanAct(ActAll(s, written), actions[1]);
  }

  /** An owner changes its state, its checkpoint is written, the synchronization and the truncation fail, and the turn is
    * aborted: memory forgets the change, and reopening the file restores it. */
  lemma FailedCheckpointReturns(id: Id, owner: Owner, text: string)
    requires IsId(id)
    ensures var turn := Turn([Write(map[owner := text]), KeepFails(id, owner, STAYS)], Aborts, []);
      && CanTurn(NOTHING, turn) && !Agree(RunTurn(NOTHING, turn))
      && RunTurn(NOTHING, turn).state == map[] && Selected(RunTurn(NOTHING, turn)).state == map[owner := text]
  {
    AgreesExactly(NOTHING);
    OneCheckpoint(id, owner, map[owner := text]);
    var actions := [Write(map[owner := text]), KeepFails(id, owner, STAYS)];
    assert Stays(actions[1]);
    StayingTurn(NOTHING, Turn(actions, Aborts, []));
    assert StayAt(actions) == 1;
  }
}
