/** Records of a session journal and what loading makes of them (raychat/storage.py). */
module SessionRecords {
  import opened Effects

  type Id = string
  type Owner = string

  /** Namespaced plugin state, each namespace as its JSON text. */
  type State = map<Owner, string>

  datatype Role = User | Assistant

  datatype Kind = Prompt | Reply | HostResult

  datatype Message = Message(role: Role, content: string, kind: Kind, promptId: int)

  datatype Payload =
    | Saved(message: Message)
    | TurnStart(promptId: int)
    | TurnCommit(state: State)
    | Select(target: Option<Id>)
    | Checkpoint(state: State)
    | Unsupported(kind: string)

  datatype Record = Record(id: Id, parent: Option<Id>, payload: Payload)

  const ID_CHARS: nat := 32

  predicate IsId(id: Id) {
    |id| == ID_CHARS && forall i | 0 <= i < |id| :: '0' <= id[i] <= '9' || 'a' <= id[i] <= 'f'
  }

  predicate ValidMessage(m: Message) {
    m.role == (if m.kind == Reply then Assistant else User) && m.promptId >= 1
  }

  /** The kinds that select a branch by themselves. */
  predicate IsDecision(r: Record) {
    r.payload.TurnCommit? || r.payload.Checkpoint?
  }

  /** What a loaded journal leaves in memory. */
  datatype Memory = Memory(entries: map<Id, Record>, committed: Option<Id>)

  /** One record joins the memory, or is refused. */
  function Accept(m: Memory, r: Record): Option<Memory> {
    if !IsId(r.id) || r.id in m.entries then None
    else if r.parent.Some? && r.parent.value !in m.entries then None
    else
      var entries := m.entries[r.id := r];
      match r.payload
      case Unsupported(_) => None
      case Saved(message) => if ValidMessage(message) then Some(Memory(entries, m.committed)) else None
      case TurnStart(_) => Some(Memory(entries, m.committed))
      case TurnCommit(_) => Some(Memory(entries, Some(r.id)))
      case Checkpoint(_) => Some(Memory(entries, Some(r.id)))
      case Select(None) => Some(Memory(entries, None))
      case Select(Some(target)) =>
        if target in entries && IsDecision(entries[target]) then Some(Memory(entries, Some(target))) else None
  }

  function Replay(log: seq<Record>): Option<Memory> {
    if log == [] then Some(Memory(map[], None))
    else
      match Replay(log[..|log| - 1])
      case None => None
      case Some(m) => Accept(m, log[|log| - 1])
  }

  /** The branch that ends at `cursor`, root first: each record is the parent of the next. */
  function Chain(log: seq<Record>, cursor: Option<Id>): seq<Record> {
    if log == [] || cursor == None then []
    else
      var last, rest := log[|log| - 1], log[..|log| - 1];
      if cursor == Some(last.id) then Chain(rest, last.parent) + [last] else Chain(rest, cursor)
  }

  function Messages(chain: seq<Record>): seq<Message> {
    if chain == [] then []
    else
      var last := chain[|chain| - 1];
      Messages(chain[..|chain| - 1]) + (if last.payload.Saved? then [last.payload.message] else [])
  }

  function History(log: seq<Record>, cursor: Option<Id>): seq<Message> {
    Messages(Chain(log, cursor))
  }

  predicate Has(log: seq<Record>, id: Id) {
    exists i | 0 <= i < |log| :: log[i].id == id
  }

  predicate Decision(log: seq<Record>, id: Id) {
    exists i | 0 <= i < |log| :: log[i].id == id && IsDecision(log[i])
  }

  // ---------------------------------------------------------------- what a loadable log looks like

  /** Unique names, and parents that come earlier: every walk towards the root ends. */
  ghost predicate Rooted(log: seq<Record>) {
    && (forall i, j | 0 <= i < j < |log| :: log[i].id != log[j].id)
    && forall i | 0 <= i < |log| && log[i].parent.Some? :: Has(log[..i], log[i].parent.value)
  }

  lemma HasGrows(log: seq<Record>, r: Record, id: Id)
    ensures Has(log + [r], id) <==> Has(log, id) || id == r.id
    ensures Decision(log + [r], id) <==> Decision(log, id) || (id == r.id && IsDecision(r))
  {
    if id == r.id { assert (log + [r])[|log|] == r; }
    if i :| 0 <= i < |log| && log[i].id == id { assert (log + [r])[i].id == id; }
    if i :| 0 <= i < |log| && log[i].id == id && IsDecision(log[i]) { assert (log + [r])[i] == log[i]; }
  }

  lemma RootedGrows(log: seq<Record>, r: Record)
    requires Rooted(log) && !Has(log, r.id) && (r.parent.Some? ==> Has(log, r.parent.value))
    ensures Rooted(log + [r])
  {
    forall i | 0 <= i < |log + [r]| && (log + [r])[i].parent.Some?
      ensures Has((log + [r])[..i], (log + [r])[i].parent.value)
    {
      assert (log + [r])[..i] == log[..i];
      assert log[..|log|] == log;
    }
  }

  lemma AcceptAdds(m: Memory, r: Record)
    requires Accept(m, r).Some?
    ensures Accept(m, r).value.entries == m.entries[r.id := r] && r.id !in m.entries
    ensures r.parent.Some? ==> r.parent.value in m.entries
  {
  }

  /** The entries are exactly the records of the log. */
  lemma {:induction false} ReplayEntries(log: seq<Record>)
    requires Replay(log).Some?
    ensures forall id :: id in Replay(log).value.entries <==> Has(log, id)
    ensures forall i | 0 <= i < |log| :: Lookup(Replay(log).value.entries, log[i].id) == Some(log[i])
  {
    if log != [] {
      var rest, r := log[..|log| - 1], log[|log| - 1];
      ReplayEntries(rest);
      var m := Replay(rest).value;
      AcceptAdds(m, r);
      assert Replay(log) == Accept(m, r) && log == rest + [r];
      var entries := m.entries[r.id := r];
      forall id
        ensures id in entries <==> Has(log, id)
      {
        HasGrows(rest, r, id);
      }
      forall i | 0 <= i < |log|
        ensures Lookup(entries, log[i].id) == Some(log[i])
      {
        if i < |rest| { assert log[i] == rest[i] && Has(rest, rest[i].id); }
      }
    }
  }

  lemma {:induction false} ReplayShape(log: seq<Record>)
    requires Replay(log).Some?
    ensures Rooted(log)
    ensures Replay(log).value.committed.Some? ==> Decision(log, Replay(log).value.committed.value)
  {
    if log != [] {
      var rest, r := log[..|log| - 1], log[|log| - 1];
      ReplayShape(rest);
      ReplayEntries(rest);
      assert log == rest + [r];
      RootedGrows(rest, r);
      SelectionDecides(rest, r);
    }
  }

  lemma SelectionDecides(rest: seq<Record>, r: Record)
    requires Replay(rest).Some? && Accept(Replay(rest).value, r).Some?
    requires Replay(rest).value.committed.Some? ==> Decision(rest, Replay(rest).value.committed.value)
    ensures var m := Accept(Replay(rest).value, r).value; m.committed.Some? ==> Decision(rest + [r], m.committed.value)
  {
    ReplayEntries(rest);
    var m := Accept(Replay(rest).value, r).value;
    if m.committed.Some? {
      HasGrows(rest, r, m.committed.value);
      if r.payload.Select? && r.payload.target.value != r.id {
        var i :| 0 <= i < |rest| && rest[i].id == r.payload.target.value;
        assert Lookup(Replay(rest).value.entries, rest[i].id) == Some(rest[i]);
      }
    }
  }

  /** What loading demands of the record behind `before`. */
  ghost predicate Acceptable(before: seq<Record>, r: Record) {
    && |r.id| == 32 && (forall i | 0 <= i < 32 :: '0' <= r.id[i] <= '9' || 'a' <= r.id[i] <= 'f')
    && (forall i | 0 <= i < |before| :: before[i].id != r.id)
    && (r.parent.Some? ==> exists i :: 0 <= i < |before| && before[i].id == r.parent.value)
    && match r.payload
       case Saved(Message(role, _, kind, promptId)) => (role.Assistant? <==> kind.Reply?) && promptId >= 1
       case Select(Some(target)) =>
         exists i :: 0 <= i < |before| && before[i].id == target && (before[i].payload.TurnCommit? || before[i].payload.Checkpoint?)
       case Unsupported(_) => false
       case _ => true
  }

  lemma AcceptableStep(rest: seq<Record>, r: Record)
    requires Replay(rest).Some?
    ensures Accept(Replay(rest).value, r).Some? <==> Acceptable(rest, r)
  {
    ReplayEntries(rest);
    var entries := Replay(rest).value.entries;
    forall i | 0 <= i < |rest|
      ensures rest[i].id in entries && entries[rest[i].id] == rest[i] && Has(rest, rest[i].id)
    {
      assert Lookup(entries, rest[i].id) == Some(rest[i]);
    }
  }

  /** A log is loaded exactly if every record in it is well formed, new, below an earlier one, and selects an earlier decision. */
  lemma {:induction false} AcceptedExactly(log: seq<Record>)
    ensures Replay(log).Some? <==> forall i | 0 <= i < |log| :: Acceptable(log[..i], log[i])
  {
    if log != [] {
      var rest, r := log[..|log| - 1], log[|log| - 1];
      AcceptedExactly(rest);
      forall i | 0 <= i < |rest| ensures log[..i] == rest[..i] {}
      assert log[..|rest|] == rest;
      if Replay(rest).Some? { AcceptableStep(rest, r); }
    }
  }

  predicate Selects(r: Record) {
    r.payload.TurnCommit? || r.payload.Checkpoint? || r.payload.Select?
  }

  /** The last record that selects anything is the one that counts, */
  lemma {:induction false} LastSelects(log: seq<Record>, i: nat)
    requires Replay(log).Some? && i < |log| && Selects(log[i]) && forall j | i < j < |log| :: !Selects(log[j])
    ensures Replay(log).value.committed == match log[i].payload case Select(target) => target case _ => Some(log[i].id)
    decreases |log|
  {
    if i < |log| - 1 { LastSelects(log[..|log| - 1], i); }
  }

  /** and without one nothing is selected. */
  lemma {:induction false} NothingSelected(log: seq<Record>)
    requires Replay(log).Some? && forall i | 0 <= i < |log| :: !Selects(log[i])
    ensures Replay(log).value.committed == None
  {
    if log != [] { NothingSelected(log[..|log| - 1]); }
  }

  /** Loading is prefix-closed: whatever was cut off, what remains is accepted. */
  lemma {:induction false} ReplayPrefix(log: seq<Record>, k: nat)
    requires Replay(log).Some? && k <= |log|
    ensures Replay(log[..k]).Some?
    decreases |log|
  {
    if k < |log| {
      ReplayPrefix(log[..|log| - 1], k);
      assert log[..|log| - 1][..k] == log[..k];
    } else {
      assert log[..k] == log;
    }
  }

  /** A branch does not notice records that are appended later. */
  lemma {:induction false} ChainGrows(log: seq<Record>, r: Record, cursor: Option<Id>)
    requires cursor != Some(r.id)
    ensures Chain(log + [r], cursor) == Chain(log, cursor)
    ensures History(log + [r], cursor) == History(log, cursor)
  {
    assert (log + [r])[..|log|] == log;
  }

  lemma ChainOfNew(log: seq<Record>, r: Record)
    ensures Chain(log + [r], Some(r.id)) == Chain(log, r.parent) + [r]
    ensures History(log + [r], Some(r.id)) ==
            History(log, r.parent) + (if r.payload.Saved? then [r.payload.message] else [])
  {
    assert (log + [r])[..|log|] == log;
    var chain := Chain(log, r.parent);
    assert (chain + [r])[..|chain|] == chain;
  }

  /** The walk to a parent continues in the part of the log that precedes the record. */
  lemma {:induction false} ChainStep(log: seq<Record>, n: nat, k: nat)
    requires Rooted(log) && k < n <= |log|
    ensures Chain(log[..n], Some(log[k].id)) == Chain(log[..k], log[k].parent) + [log[k]]
    decreases n
  {
    assert log[..n][..n - 1] == log[..n - 1];
    if k < n - 1 {
      ChainStep(log, n - 1, k);
    }
  }

  lemma {:induction false} ChainIsSound(log: seq<Record>, cursor: Option<Id>)
    ensures forall r | r in Chain(log, cursor) :: r in log
  {
    if log != [] && cursor.Some? {
      var last, rest := log[|log| - 1], log[..|log| - 1];
      assert log == rest + [last];
      if cursor == Some(last.id) { ChainIsSound(rest, last.parent); } else { ChainIsSound(rest, cursor); }
    }
  }
}
