/** The bytes of a session journal: lines, torn tails and loading (raychat/storage.py). */
module SessionJournal {
  import opened Effects
  import opened Sequences
  import opened SessionRecords

  const LF: nat := 10
  const CR: nat := 13

  /** JSON text of one record, its parser, and whether two lines are the same JSON header. */
  datatype Codec = Codec(encode: Record -> Bytes, decode: Bytes -> Option<Record>, sameHeader: (Bytes, Bytes) -> bool)

  /** JSON escapes control characters, and parsing undoes printing. */
  ghost predicate Faithful(codec: Codec) {
    && (forall r :: LF !in codec.encode(r) && CR !in codec.encode(r) && codec.decode(codec.encode(r)) == Some(r))
    && forall header :: codec.sameHeader(header, header)
  }

  predicate OneLine(line: Bytes) {
    LF !in line && CR !in line
  }

  function Encoded(codec: Codec, log: seq<Record>): Bytes {
    if log == [] then [] else Encoded(codec, log[..|log| - 1]) + codec.encode(log[|log| - 1]) + [LF]
  }

  /** The file as the store writes it. */
  function Journal(codec: Codec, header: Bytes, log: seq<Record>): Bytes {
    header + [LF] + Encoded(codec, log)
  }

  /** The lines of `b`, of which `line` is the part of the current one that has been read. */
  function SplitLines(b: Bytes, line: Bytes): seq<Bytes> {
    if b == [] then (if line == [] then [] else [line])
    else if b[0] == LF then [line] + SplitLines(b[1..], [])
    else if b[0] == CR then [line] + SplitLines(if |b| > 1 && b[1] == LF then b[2..] else b[1..], [])
    else SplitLines(b[1..], line + [b[0]])
  }

  /** The length of the part that ends with the last newline. */
  function Complete(raw: Bytes): (n: nat)
    ensures n <= |raw|
  {
    if raw == [] then 0
    else if raw[|raw| - 1] == LF then |raw|
    else Complete(raw[..|raw| - 1])
  }

  function DecodeAll(codec: Codec, lines: seq<Bytes>): Option<seq<Record>> {
    if lines == [] then Some([])
    else
      match (codec.decode(lines[0]), DecodeAll(codec, lines[1..]))
      case (Some(r), Some(rest)) => Some([r] + rest)
      case _ => None
  }

  datatype Loading = Fresh | Refused | Loaded(log: seq<Record>, memory: Memory, kept: nat)

  /** What opening the file makes of its bytes. */
  function Load(codec: Codec, header: Bytes, raw: Bytes): Loading {
    if raw == [] then Fresh
    else if Complete(raw) == 0 then Refused
    else
      var lines := SplitLines(raw[..Complete(raw)], []);
      if lines == [] || !codec.sameHeader(lines[0], header) then Refused
      else
        match DecodeAll(codec, lines[1..])
        case None => Refused
        case Some(records) =>
          match Replay(records)
          case None => Refused
          case Some(m) => Loaded(records, m, Complete(raw))
  }

  // ---------------------------------------------------------------- reading back what was written

  lemma {:induction false} SplitOneLine(text: Bytes, rest: Bytes, line: Bytes)
    requires OneLine(text)
    ensures SplitLines(text + [LF] + rest, line) == [line + text] + SplitLines(rest, [])
    decreases |text|
  {
    if text == [] {
      assert [LF] + rest == text + [LF] + rest && ([LF] + rest)[1..] == rest && line + text == line;
    } else {
      var b := text + [LF] + rest;
      assert b[1..] == text[1..] + [LF] + rest;
      SplitOneLine(text[1..], rest, line + [text[0]]);
      assert line + [text[0]] + text[1..] == line + text;
    }
  }

  function Texts(codec: Codec, log: seq<Record>): seq<Bytes> {
    seq(|log|, i requires 0 <= i < |log| => codec.encode(log[i]))
  }

  lemma {:induction false} EncodedFirst(codec: Codec, log: seq<Record>)
    requires log != []
    ensures Encoded(codec, log) == codec.encode(log[0]) + [LF] + Encoded(codec, log[1..])
  {
    var last := log[|log| - 1];
    if |log| == 1 {
      assert log[..0] == [] && log[1..] == [];
      assert Encoded(codec, []) + codec.encode(last) == codec.encode(last);
    } else {
      EncodedFirst(codec, log[..|log| - 1]);
      assert log[..|log| - 1][1..] == log[1..][..|log| - 2];
    }
  }

  lemma {:induction false} SplitEncoded(codec: Codec, log: seq<Record>)
    requires Faithful(codec)
    ensures SplitLines(Encoded(codec, log), []) == Texts(codec, log)
    ensures DecodeAll(codec, Texts(codec, log)) == Some(log)
    decreases |log|
  {
    if log != [] {
      EncodedFirst(codec, log);
      SplitOneLine(codec.encode(log[0]), Encoded(codec, log[1..]), []);
      SplitEncoded(codec, log[1..]);
      assert [] + codec.encode(log[0]) == codec.encode(log[0]);
      assert Texts(codec, log) == [codec.encode(log[0])] + Texts(codec, log[1..]);
      assert log == [log[0]] + log[1..];
    }
  }

  lemma {:induction false} CompleteBeforeTail(a: Bytes, tail: Bytes)
    requires a != [] && a[|a| - 1] == LF && LF !in tail
    ensures Complete(a + tail) == |a|
    decreases |tail|
  {
    if tail == [] {
      assert a + tail == a;
    } else {
      assert (a + tail)[..|a + tail| - 1] == a + tail[..|tail| - 1];
      CompleteBeforeTail(a, tail[..|tail| - 1]);
    }
  }

  /** How many records of the log lie completely within the first `m` bytes of its encoding. */
  function Whole(codec: Codec, log: seq<Record>, m: nat): (k: nat)
    ensures k <= |log|
  {
    if log == [] || |Encoded(codec, log)| <= m then |log| else Whole(codec, log[..|log| - 1], m)
  }

  lemma JournalEnds(codec: Codec, header: Bytes, log: seq<Record>)
    ensures var raw := Journal(codec, header, log); raw != [] && raw[|raw| - 1] == LF
  {
    if log == [] { assert Journal(codec, header, log) == header + [LF]; }
  }

  /** A cut behind the header leaves some complete records and a tail without newline. */
  lemma {:induction false} CutShape(codec: Codec, header: Bytes, log: seq<Record>, n: nat)
    requires Faithful(codec) && |header| + 1 <= n <= |Journal(codec, header, log)|
    ensures var k := Whole(codec, log, n - |header| - 1);
      && |Journal(codec, header, log[..k])| <= n
      && Journal(codec, header, log[..k]) == Journal(codec, header, log)[..|Journal(codec, header, log[..k])|]
      && LF !in Journal(codec, header, log)[|Journal(codec, header, log[..k])|..n]
    decreases |log|
  {
    var raw, m := Journal(codec, header, log), n - |header| - 1;
    if log == [] || |Encoded(codec, log)| <= m {
      assert log[..|log|] == log;
    } else {
      var rest, last := log[..|log| - 1], codec.encode(log[|log| - 1]);
      var shorter := Journal(codec, header, rest);
      assert raw == shorter + last + [LF];
      assert forall k | 0 <= k <= |rest| :: rest[..k] == log[..k];
      if n <= |shorter| {
        CutShape(codec, header, rest, n);
      } else {
        assert Whole(codec, rest, m) == |rest|;
        assert raw[|shorter|..n] == last[..n - |shorter|];
      }
    }
  }

  /** A file cut at any byte behind its header loads as its longest run of complete records. */
  lemma CutAnywhere(codec: Codec, header: Bytes, log: seq<Record>, n: nat)
    requires Faithful(codec) && OneLine(header) && Replay(log).Some?
    requires |header| + 1 <= n <= |Journal(codec, header, log)|
    ensures var k := Whole(codec, log, n - |header| - 1);
      && Replay(log[..k]).Some?
      && Load(codec, header, Journal(codec, header, log)[..n])
         == Loaded(log[..k], Replay(log[..k]).value, |Journal(codec, header, log[..k])|)
  {
    var k := Whole(codec, log, n - |header| - 1);
    var raw := Journal(codec, header, log)[..n];
    var whole := Journal(codec, header, log[..k]);
    CutShape(codec, header, log, n);
    JournalEnds(codec, header, log[..k]);
    assert raw == whole + raw[|whole|..] && raw[|whole|..] == Journal(codec, header, log)[|whole|..n];
    CompleteBeforeTail(whole, raw[|whole|..]);
    assert raw[..|whole|] == whole;
    SplitOneLine(header, Encoded(codec, log[..k]), []);
    SplitEncoded(codec, log[..k]);
    var lines := SplitLines(whole, []);
    assert [] + header == header;
    assert lines == [header] + Texts(codec, log[..k]) && lines[1..] == Texts(codec, log[..k]);
    ReplayPrefix(log, k);
  }

  /** An untouched file loads as exactly what was written. */
  lemma LoadsBack(codec: Codec, header: Bytes, log: seq<Record>)
    requires Faithful(codec) && OneLine(header) && Replay(log).Some?
    ensures Load(codec, header, Journal(codec, header, log))
         == Loaded(log, Replay(log).value, |Journal(codec, header, log)|)
  {
    var raw := Journal(codec, header, log);
    CutAnywhere(codec, header, log, |raw|);
    assert raw[..|raw|] == raw && log[..|log|] == log;
  }

  // ---------------------------------------------------------------- any text that reads as a log

  /** Complete lines, however spaced, that read as the header and the records of the log. */
  ghost predicate IsText(codec: Codec, header: Bytes, log: seq<Record>, text: Bytes) {
    && text != [] && text[|text| - 1] == LF
    && var lines := SplitLines(text, []);
       lines != [] && codec.sameHeader(lines[0], header) && DecodeAll(codec, lines[1..]) == Some(log)
  }

  lemma {:induction false} SplitJoin(a: Bytes, b: Bytes, line: Bytes)
    requires a != [] && a[|a| - 1] == LF
    ensures SplitLines(a + b, line) == SplitLines(a, line) + SplitLines(b, [])
    decreases |a|
  {
    var c, rest := a + b, a[1..];
    assert c[1..] == rest + b;
    if rest == [] {
    } else if a[0] == CR && a[1] == LF {
      assert c[2..] == a[2..] + b;
      if a[2..] == [] { assert a[2..] + b == b; } else { SplitJoin(a[2..], b, []); }
    } else if a[0] == LF || a[0] == CR {
      SplitJoin(rest, b, []);
    } else {
      SplitJoin(rest, b, line + [a[0]]);
    }
  }

  lemma {:induction false} DecodeJoin(codec: Codec, lines: seq<Bytes>, log: seq<Record>, r: Record)
    requires Faithful(codec) && DecodeAll(codec, lines) == Some(log)
    ensures DecodeAll(codec, lines + [codec.encode(r)]) == Some(log + [r])
    decreases |lines|
  {
    var longer := lines + [codec.encode(r)];
    if lines == [] {
      assert longer[1..] == [] && longer[0] == codec.encode(r);
      assert [r] + [] == log + [r];
    } else {
      assert longer[1..] == lines[1..] + [codec.encode(r)];
      DecodeJoin(codec, lines[1..], log[1..], r);
      assert log + [r] == [log[0]] + (log[1..] + [r]);
    }
  }

  /** A whole new line adds its record. */
  lemma TextGrows(codec: Codec, header: Bytes, log: seq<Record>, text: Bytes, r: Record)
    requires Faithful(codec) && IsText(codec, header, log, text)
    ensures IsText(codec, header, log + [r], text + Line(codec, r))
  {
    var line := Line(codec, r);
    SplitJoin(text, line, []);
    SplitOneLine(codec.encode(r), [], []);
    assert codec.encode(r) + [LF] + [] == line && [] + codec.encode(r) == codec.encode(r);
    var lines := SplitLines(text, []);
    assert SplitLines(text + line, []) == lines + [codec.encode(r)];
    assert (lines + [codec.encode(r)])[1..] == lines[1..] + [codec.encode(r)];
    DecodeJoin(codec, lines[1..], log, r);
  }

  function Line(codec: Codec, r: Record): Bytes {
    codec.encode(r) + [LF]
  }

  /** A new file is the text of the empty log. */
  lemma HeaderIsText(codec: Codec, header: Bytes)
    requires Faithful(codec) && OneLine(header)
    ensures IsText(codec, header, [], header + [LF])
  {
    SplitOneLine(header, [], []);
    assert header + [LF] + [] == header + [LF] && [] + header == header;
  }

  /** Behind a text, an unfinished line changes nothing. */
  lemma TextLoads(codec: Codec, header: Bytes, log: seq<Record>, raw: Bytes)
    requires IsText(codec, header, log, raw[..Complete(raw)]) && Replay(log).Some?
    ensures Load(codec, header, raw) == Loaded(log, Replay(log).value, Complete(raw))
  {
  }

  /** Loading cuts a file down to a text of its records. */
  lemma CompleteIsText(raw: Bytes)
    ensures var text := raw[..Complete(raw)]; Complete(text) == |text| && (text != [] ==> text[|text| - 1] == LF)
  {
    CompleteEnds(raw);
  }

  lemma {:induction false} CompleteEnds(raw: Bytes)
    ensures Complete(raw) > 0 ==> raw[Complete(raw) - 1] == LF
    ensures Complete(raw[..Complete(raw)]) == Complete(raw)
    decreases |raw|
  {
    if raw != [] {
      if raw[|raw| - 1] == LF {
        assert raw[..|raw|] == raw;
      } else {
        var shorter := raw[..|raw| - 1];
        CompleteEnds(shorter);
        assert raw[..Complete(raw)] == shorter[..Complete(raw)];
      }
    }
  }

  lemma {:induction false} SplitSome(text: Bytes, line: Bytes)
    requires text != [] || line != []
    ensures SplitLines(text, line) != []
    decreases |text|
  {
    if text != [] && text[0] != LF && text[0] != CR { SplitSome(text[1..], line + [text[0]]); }
  }

  lemma {:induction false} DecodePrefix(codec: Codec, front: seq<Bytes>, back: seq<Bytes>, log: seq<Record>)
    requires DecodeAll(codec, front + back) == Some(log)
    ensures |front| <= |log| && DecodeAll(codec, front) == Some(log[..|front|])
    decreases |front|
  {
    if front != [] {
      assert (front + back)[1..] == front[1..] + back;
      DecodePrefix(codec, front[1..], back, log[1..]);
      assert log[..|front|] == [log[0]] + log[1..][..|front| - 1];
    }
  }

  /** The complete lines in front of some others are a text themselves. */
  lemma FrontIsText(codec: Codec, header: Bytes, log: seq<Record>, front: Bytes, back: Bytes) returns (k: nat)
    requires IsText(codec, header, log, front + back) && front != [] && front[|front| - 1] == LF
    ensures k <= |log| && k == |SplitLines(front, [])| - 1 && IsText(codec, header, log[..k], front)
  {
    SplitJoin(front, back, []);
    SplitSome(front, []);
    var lines, more := SplitLines(front, []), SplitLines(back, []);
    assert (lines + more)[1..] == lines[1..] + more;
    DecodePrefix(codec, lines[1..], more, log);
    k := |lines| - 1;
  }

  /** Cut at any byte, a text loads as the `k` records whose lines are complete. */
  lemma CutText(codec: Codec, header: Bytes, log: seq<Record>, text: Bytes, n: nat) returns (k: nat)
    requires IsText(codec, header, log, text) && Replay(log).Some?
    requires n <= |text| && Complete(text[..n]) > 0
    ensures k <= |log| && k == |SplitLines(text[..Complete(text[..n])], [])| - 1
    ensures Replay(log[..k]).Some?
    ensures Load(codec, header, text[..n]) == Loaded(log[..k], Replay(log[..k]).value, Complete(text[..n]))
  {
    var raw := text[..n];
    var c := Complete(raw);
    CompleteEnds(raw);
    assert raw[..c] == text[..c] && raw[c - 1] == text[..c][c - 1];
    assert text == text[..c] + text[c..];
    k := FrontIsText(codec, header, log, text[..c], text[c..]);
    ReplayPrefix(log, k);
    TextLoads(codec, header, log[..k], raw);
  }

  /** Where the complete lines end once the first `cut` bytes of another one have been written. */
  lemma CompleteOf(codec: Codec, text: Bytes, r: Record, cut: nat)
    requires Faithful(codec) && text != [] && text[|text| - 1] == LF && cut <= |Line(codec, r)|
    ensures Complete(text + Line(codec, r)[..cut]) == if cut == |Line(codec, r)| then |text| + cut else |text|
  {
    var part := Line(codec, r)[..cut];
    if cut < |Line(codec, r)| {
      assert part == codec.encode(r)[..cut];
      CompleteBeforeTail(text, part);
    }
  }

  /** A cut inside the header is never taken for a session. */
  lemma CutHeader(codec: Codec, header: Bytes, log: seq<Record>, n: nat)
    requires OneLine(header) && 0 < n <= |header|
    ensures Load(codec, header, Journal(codec, header, log)[..n]) == Refused
  {
    assert Journal(codec, header, log)[..n] == header[..n];
    NoNewline(header[..n]);
  }

  lemma {:induction false} NoNewline(b: Bytes)
    requires LF !in b
    ensures Complete(b) == 0
    decreases |b|
  {
    if b != [] { NoNewline(b[..|b| - 1]); }
  }
}
