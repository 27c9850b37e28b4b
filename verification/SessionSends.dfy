/** What a reopened session restores after any prompts: whole turns only (raychat/session.py). */
module SessionSends {
  import Conversation
  import opened Effects
  import opened SessionRecords
  import opened SessionRuns
  import opened SessionStore
  import opened SessionTurns

  /** One prompt as the store sees it: the turn of the session in which it is answered, under this prompt id. */
  datatype Send = Send(turn: Turn, request: Conversation.Request, promptId: int)

  function SaidIn(actions: seq<Action>): seq<Message> {
    if actions == [] then [] else SaidIn(actions[..|actions| - 1]) + SaidBy(actions[|actions| - 1])
  }

  /** The turn is committed, or the commit is tried. */
  predicate Closes(ending: Ending) {
    ending.Commits? || ending.CommitFails?
  }

  /** Until then anything may have been said; a turn is closed only when it has been finished. */
  ghost predicate IsSend(x: Send) {
    && !x.turn.ending.Completes?
    && (Closes(x.turn.ending) ==>
          exists used: nat :: Conversation.IsTurnAs(x.request, SaidIn(x.turn.actions), used, x.promptId))
  }

  /** The least prompt id that no closed turn has used. */
  function Next(xs: seq<Send>, next: int): int {
    if xs == [] then next
    else if Closes(xs[|xs| - 1].turn.ending) then xs[|xs| - 1].promptId + 1
    else Next(xs[..|xs| - 1], next)
  }

  /** A prompt id is not used again once a turn was closed under it. */
  predicate Numbered(xs: seq<Send>, next: int) {
    xs == [] || (Numbered(xs[..|xs| - 1], next) && Next(xs[..|xs| - 1], next) <= xs[|xs| - 1].promptId)
  }

  function TurnsOf(xs: seq<Send>): seq<Turn> {
    seq(|xs|, i requires 0 <= i < |xs| => xs[i].turn)
  }

  lemma {:induction false} SaidHistory(s: Session, actions: seq<Action>)
    ensures ActAll(s, actions).history == s.history + SaidIn(actions)
  {
    if actions != [] { SaidHistory(s, actions[..|actions| - 1]); }
  }

  lemma LaterWellFormed(h: seq<Message>, a: int, b: int)
    requires Conversation.WellFormed(h, a) && a <= b
    ensures Conversation.WellFormed(h, b)
  {
    Conversation.GrammarIsLocal(h, a);
    Conversation.GrammarIsLocal(h, b);
  }

  /** A closed turn adds a whole turn under its prompt id. */
  lemma ClosedAdds(x: Send, h: seq<Message>)
    requires IsSend(x) && Closes(x.turn.ending) && x.promptId >= 1 && Conversation.WellFormed(h, x.promptId)
    ensures Conversation.WellFormed(h + SaidIn(x.turn.actions), x.promptId + 1)
  {
    var used: nat :| Conversation.IsTurnAs(x.request, SaidIn(x.turn.actions), used, x.promptId);
    var r := x.request;
    Conversation.FinishedIsTurn(r.prompt, r.script, Conversation.Budget(r.maxSteps, r.reviewing), r.review, used, x.promptId);
    Conversation.TurnExtends(h, SaidIn(x.turn.actions), x.promptId);
  }

  lemma StayedMidTurn(s: Session, actions: seq<Action>)
    requires Settled(s) && CanActAll(Open(s), actions) && StaysIn(actions)
    ensures Selected(ActAll(Open(s), actions)).history == s.history
  {
    ActionsLeave(s, actions);
  }

  /** A process that is gone in the middle of a turn leaves a file that restores the history before it, or what it restored. */
  lemma MidTurn(s: Session, actions: seq<Action>)
    requires Settled(s) && CanActAll(Open(s), actions)
    ensures var u := ActAll(Open(s), actions);
      && Replay(Whole(u)).Some?
      && Restored(Whole(u)).history in {s.history, Selected(s).history}
  {
    var u := ActAll(Open(s), actions);
    ActAllOpen(Open(s), actions, s.history);
    ReopeningSelects(u);
    ActionsStay(Open(s), actions);
    if StaysIn(actions) {
      StayedMidTurn(s, actions);
    } else if Deciding(s) {
      BrokenActions(Open(s), actions);
    }
  }

  /** Memory has the messages of a turn that was committed. */
  lemma TurnHistory(s: Session, turn: Turn)
    requires Settled(s) && CanTurn(s, turn) && !turn.ending.Completes?
    ensures var h := if turn.ending.Commits? then s.history + SaidIn(turn.actions) else s.history;
      Turned(s, turn).history == h && RunTurn(s, turn).history == h
  {
    ActAllOpen(Open(s), turn.actions, s.history);
    SaidHistory(Open(s), turn.actions);
    TurnSettles(s, turn);
    LateActions(Turned(s, turn), turn.after);
  }

  lemma AfterwardsHistory(u: Session, after: seq<Action>)
    requires Settled(u) && CanActAll(u, after) && Quiet(after) && StaysIn(after)
    ensures Trying(u, after).history == u.history
  {
    StayLeaves(u, after);
    LateActions(u, after[..StayAt(after)]);
  }

  /** The record that stayed was to select the history before the turn, or the turn behind it. */
  lemma StayedHistory(s: Session, turn: Turn)
    requires Settled(s) && CanTurn(s, turn) && TurnStays(turn) && !turn.ending.Completes?
    ensures var h := Attempted(s, turn).history;
      h == s.history || (Closes(turn.ending) && h == s.history + SaidIn(turn.actions))
  {
    if Afterwards(turn) {
      TurnSettles(s, turn);
      TurnHistory(s, turn);
      AfterwardsHistory(Turned(s, turn), turn.after);
    } else {
      SaidHistory(Open(s), turn.actions);
    }
  }

  /** What the file restores after a send. */
  lemma SendSelects(s: Session, turn: Turn)
    requires Settled(s) && CanTurn(s, turn) && !turn.ending.Completes?
    ensures var h := Selected(RunTurn(s, turn)).history;
      || h == s.history || (Deciding(s) && h == Selected(s).history)
      || (Closes(turn.ending) && h == s.history + SaidIn(turn.actions))
  {
    TurnHistory(s, turn);
    TurnedStays(s, turn);
    if Deciding(s) {
      StuckTurn(s, turn);
    } else if TurnStays(turn) {
      StayingTurn(s, turn);
      StayedHistory(s, turn);
    } else {
      TurnSettles(s, turn);
      LateActions(Turned(s, turn), turn.after);
    }
  }

  /** Memory holds whole turns, and the file restores whole turns. */
  ghost predicate WholeTurns(s: Session, next: int) {
    Conversation.WellFormed(s.history, next) && Conversation.WellFormed(Selected(s).history, next)
  }

  lemma SendKeeps(s: Session, x: Send, next: int)
    requires Settled(s) && CanTurn(s, x.turn) && IsSend(x) && 1 <= next <= x.promptId && WholeTurns(s, next)
    ensures WholeTurns(RunTurn(s, x.turn), if Closes(x.turn.ending) then x.promptId + 1 else next)
  {
    TurnHistory(s, x.turn);
    SendSelects(s, x.turn);
    if Closes(x.turn.ending) {
      LaterWellFormed(s.history, next, x.promptId);
      ClosedAdds(x, s.history);
      LaterWellFormed(s.history, next, x.promptId + 1);
      LaterWellFormed(Selected(s).history, next, x.promptId + 1);
    }
  }

  lemma {:induction false} SendsKeep(s: Session, xs: seq<Send>, next: int)
    requires Settled(s) && WholeTurns(s, next) && next >= 1
    requires CanTurns(s, TurnsOf(xs)) && Numbered(xs, next) && forall i | 0 <= i < |xs| :: IsSend(xs[i])
    ensures Settled(RunTurns(s, TurnsOf(xs))) && WholeTurns(RunTurns(s, TurnsOf(xs)), Next(xs, next)) && Next(xs, next) >= 1
    decreases |xs|
  {
    RunsSettle(s, TurnsOf(xs));
    if xs != [] {
      var before, last := xs[..|xs| - 1], xs[|xs| - 1];
      assert TurnsOf(before) == TurnsOf(xs)[..|xs| - 1];
      SendsKeep(s, before, next);
      RunsSettle(s, TurnsOf(before));
      SendKeeps(RunTurns(s, TurnsOf(before)), last, Next(before, next));
    }
  }

  /** After any prompts, answered or broken off in whatever way, with whatever checkpoints of plugins and failures of the store
    * in between, reopening the file restores whole turns under increasing prompt ids; also when the process is gone in the
    * middle of the next turn, after any of its `actions`. */
  lemma SendsRestore(s: Session, xs: seq<Send>, next: int, actions: seq<Action>)
    requires Settled(s) && WholeTurns(s, next) && next >= 1
    requires CanTurns(s, TurnsOf(xs)) && Numbered(xs, next) && forall i | 0 <= i < |xs| :: IsSend(xs[i])
    requires CanActAll(Open(RunTurns(s, TurnsOf(xs))), actions)
    ensures var t := ActAll(Open(RunTurns(s, TurnsOf(xs))), actions);
      Replay(Whole(t)).Some? && Conversation.WellFormed(Restored(Whole(t)).history, Next(xs, next))
  {
    SendsKeep(s, xs, next);
    MidTurn(RunTurns(s, TurnsOf(xs)), actions);
  }
}
