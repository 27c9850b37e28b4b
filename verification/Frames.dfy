/** Newline-delimited frames read from a stream in pieces (raychat/transport.py). */
module Frames {
  import opened Sequences

  const LF := 10

  // ---------------------------------------------------------------- the whole stream at once

  /** The pieces between newlines; the last one ends with the stream and may be empty. */
  function Split(b: Bytes): (pieces: seq<Bytes>)
    ensures pieces != []
  {
    if b == [] then [[]]
    else
      var more := Split(b[1..]);
      if b[0] == LF then [[]] + more else [[b[0]] + more[0]] + more[1..]
  }

  function Rejoined(pieces: seq<Bytes>): Bytes
    requires pieces != []
  {
    if |pieces| == 1 then pieces[0] else pieces[0] + [LF] + Rejoined(pieces[1..])
  }

  /** The frames of a complete stream: a last piece counts only if there is something in it. */
  function FramesOf(b: Bytes): seq<Bytes> {
    var pieces := Split(b);
    if pieces[|pieces| - 1] == [] then pieces[..|pieces| - 1] else pieces
  }

  /** Splitting is the one way to cut the stream at its newlines. */
  lemma {:induction false} SplitRejoins(b: Bytes)
    ensures Rejoined(Split(b)) == b && forall i | 0 <= i < |Split(b)| :: LF !in Split(b)[i]
  {
    if b != [] {
      SplitRejoins(b[1..]);
      var more := Split(b[1..]);
      assert b == [b[0]] + b[1..];
      if b[0] == LF {
        assert Split(b)[1..] == more;
      } else {
        assert Split(b)[1..] == more[1..];
      }
    }
  }

  lemma {:induction false} RejoinSplits(pieces: seq<Bytes>)
    requires pieces != [] && forall i | 0 <= i < |pieces| :: LF !in pieces[i]
    ensures Split(Rejoined(pieces)) == pieces
    decreases |pieces|
  {
    if |pieces| == 1 {
      SplitOne(pieces[0]);
    } else {
      RejoinSplits(pieces[1..]);
      SplitFirst(pieces[0], Rejoined(pieces[1..]));
      assert pieces[0] + [LF] + Rejoined(pieces[1..]) == pieces[0] + ([LF] + Rejoined(pieces[1..]));
      assert pieces == [pieces[0]] + pieces[1..];
    }
  }

  lemma {:induction false} SplitOne(line: Bytes)
    requires LF !in line
    ensures Split(line) == [line]
  {
    if line != [] {
      SplitOne(line[1..]);
      assert [line[0]] + line[1..] == line;
    }
  }

  /** A line in front of a newline is split off. */
  lemma {:induction false} SplitFirst(line: Bytes, rest: Bytes)
    requires LF !in line
    ensures Split(line + ([LF] + rest)) == [line] + Split(rest)
  {
    var b := line + ([LF] + rest);
    if line == [] {
      assert b == [LF] + rest;
      assert b[1..] == rest;
    } else {
      assert b[1..] == line[1..] + ([LF] + rest);
      SplitFirst(line[1..], rest);
      assert [line[0]] + line[1..] == line;
      var more := [line[1..]] + Split(rest);
      assert more[1..] == Split(rest);
    }
  }

  /** Frames without newlines that make up the stream; only the last may lack its newline, unless it is empty. */
  predicate AreFrames(b: Bytes, frames: seq<Bytes>) {
    && (forall i | 0 <= i < |frames| :: 10 !in frames[i])
    && if frames == [] then b == []
       else b == Rejoined(frames) + [10] || (b == Rejoined(frames) && frames[|frames| - 1] != [])
  }

  /** The frames of a stream are the only such. */
  lemma FramesExactly(b: Bytes, frames: seq<Bytes>)
    ensures FramesOf(b) == frames <==> AreFrames(b, frames)
  {
    if FramesOf(b) == frames { FramesAre(b); }
    if AreFrames(b, frames) { OnlyFrames(b, frames); }
  }

  lemma FramesAre(b: Bytes)
    ensures AreFrames(b, FramesOf(b))
  {
    var pieces := Split(b);
    SplitRejoins(b);
    if pieces[|pieces| - 1] == [] {
      var frames := pieces[..|pieces| - 1];
      assert pieces == frames + [[]];
      if frames != [] { EmptyTail(frames); }
    }
  }

  lemma OnlyFrames(b: Bytes, frames: seq<Bytes>)
    requires AreFrames(b, frames)
    ensures FramesOf(b) == frames
  {
    if frames == [] {
      SplitOne([]);
    } else if b == Rejoined(frames) + [10] {
      EmptyTail(frames);
      RejoinSplits(frames + [[]]);
      assert (frames + [[]])[..|frames|] == frames;
    } else {
      RejoinSplits(frames);
    }
  }

  lemma {:induction false} EmptyTail(pieces: seq<Bytes>)
    requires pieces != []
    ensures Rejoined(pieces + [[]]) == Rejoined(pieces) + [10]
  {
    assert (pieces + [[]])[1..] == pieces[1..] + [[]];
    if |pieces| > 1 { EmptyTail(pieces[1..]); }
  }

  // ---------------------------------------------------------------- the stream in pieces

  function Joined(chunks: seq<Bytes>): Bytes {
    if chunks == [] then [] else chunks[0] + Joined(chunks[1..])
  }

  lemma {:induction false} ChunksJoin(a: seq<Bytes>, b: seq<Bytes>)
    ensures Joined(a + b) == Joined(a) + Joined(b) && (|a| == 1 ==> Joined(a) == a[0])
  {
    if a == [] {
      assert a + b == b;
    } else {
      assert (a + b)[1..] == a[1..] + b;
      ChunksJoin(a[1..], b);
    }
  }

  lemma JoinedFrom(chunks: seq<Bytes>, i: nat, front: Bytes)
    requires i < |chunks|
    ensures Joined(chunks[i..]) == chunks[i] + Joined(chunks[i + 1..])
    ensures front + Joined(chunks[i..]) == (front + chunks[i]) + Joined(chunks[i + 1..])
  {
    assert chunks[i..][1..] == chunks[i + 1..];
    Regroup(front, chunks[i], Joined(chunks[i + 1..]));
  }

  /** What the sink has been given, or that the size limit was exceeded. */
  datatype Outcome = Consumed(frames: seq<Bytes>) | TooLarge(frames: seq<Bytes>)

  /** The frames completed so far, in front of what a split of buffer and rest still yields. */
  lemma FrameOff(frames: seq<Bytes>, line: Bytes, rest: Bytes)
    requires LF !in line
    ensures frames + Split(line + ([LF] + rest)) == (frames + [line]) + Split(rest)
  {
    SplitFirst(line, rest);
  }

  method FindNewline(b: Bytes) returns (k: int)
    ensures -1 <= k < |b|
    ensures k == -1 ==> LF !in b
    ensures k >= 0 ==> b[k] == LF && LF !in b[..k]
  {
    k := 0;
    while k < |b| && b[k] != LF
      invariant 0 <= k <= |b| && forall i | 0 <= i < k :: b[i] != LF
    {
      k := k + 1;
    }
    if k == |b| { k := -1; }
  }

  class Sink {
    var frames: seq<Bytes>
    var buffered: Bytes

    constructor ()
      ensures frames == [] && buffered == []
    {
      frames, buffered := [], [];
    }

    /** Hands over every complete frame of the buffer. */
    method Drain(ghost rest: Bytes)
      modifies this
      ensures LF !in buffered
      ensures frames + Split(buffered + rest) == old(frames) + Split(old(buffered) + rest)
      ensures old(frames) <= frames
    {
      while true
        invariant frames + Split(buffered + rest) == old(frames) + Split(old(buffered) + rest)
        invariant old(frames) <= frames
        decreases |buffered|
      {
        var newline := FindNewline(buffered);
        if newline < 0 { break; }
        var frame, left := buffered[..newline], buffered[newline + 1..];
        assert buffered + rest == frame + ([LF] + (left + rest));
        FrameOff(frames, frame, left + rest);
        frames := frames + [frame];
        buffered := left;
      }
    }
  }

  /** Reading in pieces gives the sink the frames of the whole stream, unless the pieces exceed the limit. */
  method ConsumeFrames(chunks: seq<Bytes>, limit: nat) returns (outcome: Outcome)
    requires forall i | 0 <= i < |chunks| :: chunks[i] != []
    ensures outcome.Consumed? <==> |Joined(chunks)| <= limit
    ensures outcome.Consumed? ==> outcome.frames == FramesOf(Joined(chunks))
    ensures outcome.TooLarge? ==> outcome.frames <= Split(Joined(chunks))[..|Split(Joined(chunks))| - 1]
  {
    var sink := new Sink();
    var total := 0;
    ghost var whole := Joined(chunks);
    assert chunks[0..] == chunks && [] + whole == whole && [] + Split(whole) == Split(whole);
    for i := 0 to |chunks|
      invariant 0 <= total == |whole| - |Joined(chunks[i..])| <= limit
      invariant sink.frames + Split(sink.buffered + Joined(chunks[i..])) == Split(whole) && LF !in sink.buffered
      invariant fresh(sink)
    {
      var chunk := chunks[i];
      ghost var frames, rest := sink.frames, Joined(chunks[i + 1..]);
      JoinedFrom(chunks, i, sink.buffered);
      total := total + |chunk|;
      if total > limit {
        return TooLarge(sink.frames);
      }
      sink.buffered := sink.buffered + chunk;
      sink.Drain(rest);
    }
    assert chunks[|chunks|..] == [] && sink.buffered + [] == sink.buffered;
    SplitOne(sink.buffered);
    assert Split(whole) == sink.frames + [sink.buffered];
    if sink.buffered != [] { sink.frames := sink.frames + [sink.buffered]; }
    outcome := Consumed(sink.frames);
  }
}
