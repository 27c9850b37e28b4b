/** The self-repairing, newline-delimited log (raychat/filesystem.py). */
module RecordLog {
  import opened Effects
  import opened Sequences

  const LF := 10
  const BLOCK := 65536

  // ---------------------------------------------------------------- what counts as recorded

  predicate Terminated(b: Bytes) {
    b == [] || b[|b| - 1] == LF
  }

  /** The longest beginning that is empty or ends with a newline. */
  function Committed(b: Bytes): Bytes {
    if Terminated(b) then b else Committed(b[..|b| - 1])
  }

  /** A record ends with its only newline. */
  predicate IsRecord(data: Bytes) {
    data != [] && data[|data| - 1] == LF && LF !in data[..|data| - 1]
  }

  lemma {:induction false} CommittedIsLongest(b: Bytes, k: nat)
    requires k <= |b|
    ensures Committed(b) <= b && Terminated(Committed(b))
    ensures Committed(b) != [] ==> Committed(b)[|Committed(b)| - 1] == 10
    ensures Terminated(b[..k]) ==> k <= |Committed(b)|
    decreases |b|
  {
    if !Terminated(b) {
      CommittedIsLongest(b[..|b| - 1], if k < |b| then k else 0);
      if k < |b| { assert b[..|b| - 1][..k] == b[..k]; } else { assert b[..k] == b; }
    }
  }

  /** No newline from `start` up to `end`. */
  predicate Clean(b: Bytes, start: int, end: int)
    requires 0 <= start && end <= |b|
  {
    forall i | start <= i < end :: b[i] != LF
  }

  lemma {:induction false} CommittedIs(b: Bytes, kept: nat)
    requires kept <= |b| && (kept == 0 || b[kept - 1] == LF) && Clean(b, kept, |b|)
    ensures Committed(b) == b[..kept]
    decreases |b|
  {
    if kept == |b| {
      assert b[..kept] == b;
    } else {
      var front := b[..|b| - 1];
      assert front[..kept] == b[..kept];
      assert Clean(front, kept, |front|);
      CommittedIs(front, kept);
    }
  }

  /** An unfinished record behind complete ones does not count. */
  lemma TornTail(b: Bytes, data: Bytes, n: nat)
    requires Terminated(b) && IsRecord(data) && n < |data|
    ensures Committed(b + data[..n]) == b
  {
    var c := b + data[..n];
    assert c[..|b|] == b;
    forall i | |b| <= i < |c| ensures c[i] != LF {
      assert data[..|data| - 1][i - |b|] == c[i];
    }
    CommittedIs(c, |b|);
  }

  // ---------------------------------------------------------------- appending over whole runs

  /** How an attempt ends: it works; it raises because the close failed after everything was written; or it raises before. */
  datatype Ending = Succeeds | CloseFails | GivesUp

  /** What one attempt leaves: the repaired file and the record; or a part of it; or the file as it was. */
  predicate Leaves(before: Bytes, data: Bytes, ending: Ending, after: Bytes) {
    if !ending.GivesUp? then IsRecord(data) && after == Committed(before) + data
    else || after == before
         || (IsRecord(data) && |Committed(before)| <= |after| && after < Committed(before) + data)
  }

  /** A failed attempt keeps its record exactly if everything was written and then the close failed. */
  lemma AttemptCommits(before: Bytes, data: Bytes, ending: Ending, after: Bytes)
    requires Leaves(before, data, ending, after)
    ensures Committed(after) == Committed(before) + if ending.GivesUp? then [] else data
    ensures IsRecord(data) ==> (Committed(after) == Committed(before) + data <==> !ending.GivesUp?)
  {
    var kept := Committed(before);
    CommittedIsLongest(before, 0);
    if !ending.GivesUp? {
      assert Terminated(after);
    } else if after != before {
      var n := |after| - |kept|;
      assert after == (kept + data)[..|after|] == kept + data[..n];
      TornTail(kept, data, n);
    }
  }

  datatype Attempt = Attempt(data: Bytes, ending: Ending, after: Bytes)

  /** Each attempt finds what the one before it left. */
  predicate History(start: Bytes, attempts: seq<Attempt>) {
    attempts == [] ||
    (History(start, attempts[..|attempts| - 1]) &&
     Follows(Content(start, attempts[..|attempts| - 1]), attempts[|attempts| - 1]))
  }

  predicate Follows(before: Bytes, a: Attempt) {
    Leaves(before, a.data, a.ending, a.after)
  }

  function Content(start: Bytes, attempts: seq<Attempt>): Bytes {
    if attempts == [] then start else attempts[|attempts| - 1].after
  }

  /** The records of the attempts that ended in one of these ways. */
  function Records(attempts: seq<Attempt>, endings: set<Ending>): Bytes {
    if attempts == [] then []
    else
      var last := attempts[|attempts| - 1];
      Records(attempts[..|attempts| - 1], endings) + (if last.ending in endings then last.data else [])
  }

  lemma LastRecord(attempts: seq<Attempt>)
    requires attempts != []
    ensures var before, last := attempts[..|attempts| - 1], attempts[|attempts| - 1];
      Records(attempts, {Succeeds, CloseFails})
      == Records(before, {Succeeds, CloseFails}) + if last.ending.GivesUp? then [] else last.data
  {
    var last := attempts[|attempts| - 1];
    assert last.ending in {Succeeds, CloseFails} <==> !last.ending.GivesUp?;
  }

  /** Over every run of attempts the log holds the old records and exactly those that were completely written. */
  lemma {:induction false} HistoryCommits(start: Bytes, attempts: seq<Attempt>)
    requires History(start, attempts)
    ensures Committed(Content(start, attempts)) == Committed(start) + Records(attempts, {Succeeds, CloseFails})
    decreases |attempts|
  {
    if attempts == [] {
      assert Committed(start) + [] == Committed(start);
    } else {
      var before, last := attempts[..|attempts| - 1], attempts[|attempts| - 1];
      var record := if last.ending.GivesUp? then [] else last.data;
      HistoryCommits(start, before);
      AttemptCommits(Content(start, before), last.data, last.ending, last.after);
      LastRecord(attempts);
      Regroup(Committed(start), Records(before, {Succeeds, CloseFails}), record);
    }
  }

  predicate Closed(attempts: seq<Attempt>) {
    forall i | 0 <= i < |attempts| :: attempts[i].ending != CloseFails
  }

  lemma {:induction false} FewerRecords(start: Bytes, attempts: seq<Attempt>)
    requires History(start, attempts)
    ensures |Records(attempts, {Succeeds})| <= |Records(attempts, {Succeeds, CloseFails})|
    ensures |Records(attempts, {Succeeds})| == |Records(attempts, {Succeeds, CloseFails})| <==> Closed(attempts)
    ensures Closed(attempts) ==> Records(attempts, {Succeeds}) == Records(attempts, {Succeeds, CloseFails})
    decreases |attempts|
  {
    if attempts != [] {
      var before, last := attempts[..|attempts| - 1], attempts[|attempts| - 1];
      FewerRecords(start, before);
      assert attempts == before + [last];
      assert Follows(Content(start, before), last);
    }
  }

  /** They are exactly the successful ones if and only if no close failed. */
  lemma OnlySuccessful(start: Bytes, attempts: seq<Attempt>)
    requires History(start, attempts)
    ensures Committed(Content(start, attempts)) == Committed(start) + Records(attempts, {Succeeds}) <==> Closed(attempts)
  {
    HistoryCommits(start, attempts);
    FewerRecords(start, attempts);
  }

  // ---------------------------------------------------------------- the file

  /** What one system call does: all that is asked, some bytes of a write, or nothing and an error. */
  datatype Call = Full | Short(n: nat) | Error

  /** The last newline of a block. */
  method LastNewline(chunk: Bytes) returns (end: int)
    ensures -1 <= end < |chunk|
    ensures end >= 0 ==> chunk[end] == LF
    ensures Clean(chunk, end + 1, |chunk|)
  {
    end := |chunk| - 1;
    while end >= 0 && chunk[end] != LF
      invariant -1 <= end < |chunk| && Clean(chunk, end + 1, |chunk|)
    {
      end := end - 1;
    }
  }

  /** A block with a newline decides what is kept; one without leaves nothing behind its start. */
  lemma BlockSearched(content: Bytes, start: nat, position: nat, chunk: Bytes, end: int)
    requires start <= position <= |content| && Clean(content, position, |content|)
    requires chunk == content[start..position] && -1 <= end < |chunk|
    requires (end >= 0 ==> chunk[end] == LF) && Clean(chunk, end + 1, |chunk|)
    ensures end >= 0 ==> Committed(content) == content[..start + end + 1]
    ensures end == -1 ==> Clean(content, start, |content|)
  {
    forall i | start + end + 1 <= i < |content| ensures content[i] != LF {
      if i < position { assert content[i] == chunk[i - start]; }
    }
    if end >= 0 { CommittedIs(content, start + end + 1); }
  }

  class LogFile {
    var content: Bytes
    /** How the next system calls go; after the script all succeed. */
    var calls: seq<Call>

    constructor (content: Bytes, calls: seq<Call>)
      ensures this.content == content && this.calls == calls
    {
      this.content, this.calls := content, calls;
    }

    method Next() returns (call: Call)
      modifies `calls
      ensures call == if old(calls) == [] then Full else old(calls[0])
      ensures calls == if old(calls) == [] then [] else old(calls[1..])
    {
      if calls == [] { return Full; }
      call := calls[0];
      calls := calls[1..];
    }

    /** Reads exactly `size` bytes at `start`, or fails. */
    method ReadChunk(start: nat, size: nat) returns (chunk: Option<Bytes>)
      requires start + size <= |content|
      modifies `calls
      ensures chunk.Some? ==> chunk.value == content[start..start + size]
      ensures old(calls) == [] ==> chunk.Some? && calls == []
    {
      var call := Next();
      chunk := if call.Full? then Some(content[start..start + size]) else None;
    }

    method Truncate(size: nat) returns (ok: bool)
      requires size <= |content|
      modifies this
      ensures content == if ok then old(content)[..size] else old(content)
      ensures old(calls) == [] ==> ok && calls == []
    {
      var call := Next();
      ok := call.Full?;
      if ok { content := content[..size]; }
    }

    /** Cuts off an unterminated last record, looking for its start block by block from the end. */
    method TrimIncompleteRecord() returns (discarded: Option<nat>)
      modifies this
      ensures discarded.Some? ==>
                content == Committed(old(content)) && discarded.value == |old(content)| - |content|
      ensures discarded == None ==> content == old(content)
      ensures old(calls) == [] ==> discarded.Some? && calls == []
    {
      var size := |content|;
      if size == 0 { return Some(0); }
      var final := ReadChunk(size - 1, 1);
      if final == None { return None; }
      if final.value == [LF] {
        assert content[size - 1..size][0] == content[size - 1];
        return Some(0);
      }
      var position := size;
      while position > 0
        invariant 0 <= position <= size == |content| && content == old(content) && Clean(content, position, size)
        invariant old(calls) == [] ==> calls == []
      {
        var start := if position < BLOCK then 0 else position - BLOCK;
        var chunk := ReadChunk(start, position - start);
        if chunk == None { return None; }
        var end := LastNewline(chunk.value);
        BlockSearched(content, start, position, chunk.value, end);
        if end >= 0 {
          var kept := start + end + 1;
          var ok := Truncate(kept);
          return if ok then Some(size - kept) else None;
        }
        position := start;
      }
      CommittedIs(content, 0);
      var ok := Truncate(0);
      discarded := if ok then Some(size) else None;
    }

    /** Writes until nothing is left; a write that takes no bytes is an error. */
    method AppendAll(data: Bytes) returns (ok: bool)
      modifies this
      ensures old(content) <= content <= old(content) + data
      ensures ok <==> content == old(content) + data
      ensures old(calls) == [] ==> ok && calls == []
    {
      var view := data;
      while view != []
        invariant |view| <= |data| && view == data[|data| - |view|..]
        invariant content == old(content) + data[..|data| - |view|]
        invariant old(calls) == [] ==> calls == []
      {
        var call := Next();
        var written := match call
          case Full => |view|
          case Short(n) => if n <= |view| then n else |view|
          case Error => 0;
        if written == 0 { return false; }
        content := content + view[..written];
        assert data[..|data| - |view|] + view[..written] == data[..|data| - |view| + written];
        view := view[written..];
      }
      assert data[..|data|] == data;
      ok := true;
    }

    /** An open, a close: it works or raises, and the content stays. */
    method Calling() returns (ok: bool)
      modifies `calls
      ensures ok <==> old(calls) == [] || old(calls)[0].Full?
      ensures old(calls) == [] ==> calls == []
    {
      var call := Next();
      ok := call.Full?;
    }

    /** Repairs the end of the log, then appends one record; a failed attempt is never repeated. */
    method AppendRecord(data: Bytes) returns (ok: bool, ghost ending: Ending)
      modifies this
      ensures Leaves(old(content), data, ending, content) && (ok <==> ending.Succeeds?)
      ensures Committed(content) == Committed(old(content)) + if ending.GivesUp? then [] else data
      ensures !IsRecord(data) ==> content == old(content)
      ensures ok ==> content == Committed(old(content)) + data
      ensures old(calls) == [] ==> (ok <==> data != [] && data[|data| - 1] == 10 && 10 !in data[..|data| - 1])
    {
      ghost var before := content;
      ok, ending := false, GivesUp;
      AttemptCommits(before, data, GivesUp, before);
      if data == [] || data[|data| - 1] != LF || LF in data[..|data| - 1] { return; }
      var isOpen := Calling();
      if !isOpen { return; }
      var discarded := TrimIncompleteRecord();
      var appended := false;
      if discarded.Some? { appended := AppendAll(data); }
      var closed := Calling();
      ok := appended && closed;
      ending := if !appended then GivesUp else if closed then Succeeds else CloseFails;
      AttemptCommits(before, data, ending, content);
    }
  }
}
