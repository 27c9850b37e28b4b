/** Chunked request bodies and header lines of captured requests (raychat/http_replay.py). */
module ChunkedBodies {
  import opened Effects
  import opened Sequences

  const TAB := 9
  const LF := 10
  const CR := 13
  const SPACE := 32
  const COLON := 58
  const SEMICOLON := 59
  const CRLF: Bytes := [CR, LF]

  // ---------------------------------------------------------------- lines

  predicate BreaksAt(b: Bytes, i: nat) {
    i + 1 < |b| && b[i] == CR && b[i + 1] == LF
  }

  predicate OneLine(line: Bytes) {
    forall i | 0 <= i < |line| :: !BreaksAt(line, i)
  }

  /** The position of the first line end. */
  function Find(b: Bytes): Option<nat> {
    if |b| < 2 then None
    else if BreaksAt(b, 0) then Some(0)
    else match Find(b[1..])
         case None => None
         case Some(k) => Some(k + 1)
  }

  lemma {:induction false} FindsFirst(b: Bytes)
    ensures match Find(b)
            case None => forall i | 0 <= i < |b| :: !BreaksAt(b, i)
            case Some(k) => BreaksAt(b, k) && (forall i | 0 <= i < k :: !BreaksAt(b, i)) && OneLine(b[..k])
  {
    if |b| >= 2 && !BreaksAt(b, 0) {
      FindsFirst(b[1..]);
      forall i | 0 < i < |b| ensures BreaksAt(b, i) == BreaksAt(b[1..], i - 1) {}
      if Find(b).Some? {
        var k := Find(b).value;
        forall i | 0 <= i < k ensures !BreaksAt(b, i) { if i > 0 { assert BreaksAt(b, i) == BreaksAt(b[1..], i - 1); } }
        forall i | 0 <= i < k ensures !BreaksAt(b[..k], i) { assert !BreaksAt(b, i); }
      }
    }
  }

  /** A line, and what follows its end. */
  datatype Split = Split(line: Bytes, rest: Bytes)

  function Cut(b: Bytes): (r: Option<Split>)
    ensures r.Some? ==> |r.value.rest| < |b|
  {
    match Find(b)
    case None => None
    case Some(k) => if k + 2 <= |b| then Some(Split(b[..k], b[k + 2..])) else None
  }

  /** A line and its end are found again in front of anything. */
  lemma CutsLine(line: Bytes, rest: Bytes)
    requires OneLine(line)
    ensures Cut(line + CRLF + rest) == Some(Split(line, rest))
  {
    var b := line + CRLF + rest;
    FindsFirst(b);
    assert BreaksAt(b, |line|);
    forall i | 0 <= i < |line|
      ensures !BreaksAt(b, i)
    {
      assert !BreaksAt(line, i);
    }
    assert b[..|line|] == line && b[|line| + 2..] == rest;
  }

  lemma CutIsLine(b: Bytes)
    requires Cut(b).Some?
    ensures OneLine(Cut(b).value.line) && b == Cut(b).value.line + CRLF + Cut(b).value.rest
  {
    FindsFirst(b);
  }

  /** `n` bytes and a line end, and what follows. */
  function Take(b: Bytes, n: nat): (r: Option<Split>)
    ensures r.Some? ==> |r.value.rest| < |b|
  {
    if BreaksAt(b, n) then Some(Split(b[..n], b[n + 2..])) else None
  }

  lemma TakesExactly(b: Bytes, n: nat, data: Bytes, rest: Bytes)
    ensures Take(b, n) == Some(Split(data, rest)) <==> |data| == n && b == data + CRLF + rest
  {
    if |data| == n && b == data + CRLF + rest {
      assert b[n] == CR && b[n + 1] == LF;
      assert b[..n] == data && b[n + 2..] == rest;
    }
    if BreaksAt(b, n) { assert b == b[..n] + CRLF + b[n + 2..]; }
  }

  // ---------------------------------------------------------------- chunk sizes

  function HexValue(c: nat): Option<nat> {
    if 48 <= c <= 57 then Some(c - 48)
    else if 97 <= c <= 102 then Some(c - 87)
    else if 65 <= c <= 70 then Some(c - 55)
    else None
  }

  predicate IsHex(text: Bytes) {
    text != [] && forall i | 0 <= i < |text| :: HexValue(text[i]).Some?
  }

  function Number(text: Bytes): nat {
    if text == [] then 0
    else
      var digit := HexValue(text[|text| - 1]);
      16 * Number(text[..|text| - 1]) + (if digit.Some? then digit.value else 0)
  }

  /** The part in front of the first `stop`. */
  function Before(b: Bytes, stop: nat): Bytes {
    if b == [] || b[0] == stop then [] else [b[0]] + Before(b[1..], stop)
  }

  /** The number in front of the chunk extensions. */
  function SizeOf(line: Bytes): Option<nat> {
    var text := Before(line, SEMICOLON);
    if IsHex(text) then Some(Number(text)) else None
  }

  function HexDigit(d: nat): nat
    requires d < 16
  {
    if d < 10 then 48 + d else 87 + d
  }

  function Hex(n: nat): Bytes {
    if n < 16 then [HexDigit(n)] else Hex(n / 16) + [HexDigit(n % 16)]
  }

  lemma {:induction false} HexIsRead(n: nat)
    ensures IsHex(Hex(n)) && Number(Hex(n)) == n && OneLine(Hex(n)) && SEMICOLON !in Hex(n)
  {
    if n >= 16 {
      HexIsRead(n / 16);
      var front := Hex(n / 16);
      assert Hex(n)[..|front|] == front;
    } else {
      assert Hex(n)[..0] == [];
    }
    forall i | 0 <= i < |Hex(n)| ensures Hex(n)[i] != CR && Hex(n)[i] != SEMICOLON { assert HexValue(Hex(n)[i]).Some?; }
  }

  /** Digits in either case, */
  lemma HexDigits(c: nat, d: nat)
    requires d < 16 && c in {"0123456789abcdef"[d] as nat, "0123456789ABCDEF"[d] as nat}
    ensures IsHex([c]) && Number([c]) == d
  {
    assert HexValue(c) == Some(d);
    assert [c][..0] == [];
  }

  /** the first one counting most. */
  lemma NumberJoins(text: Bytes, c: nat)
    requires IsHex(text) && IsHex([c])
    ensures IsHex(text + [c]) && Number(text + [c]) == 16 * Number(text) + Number([c])
  {
    assert HexValue([c][0]).Some? && [c][..0] == [];
    assert (text + [c])[..|text|] == text;
  }

  /** No other byte is a digit. */
  lemma HexOnly(c: nat)
    requires IsHex([c])
    ensures exists d | 0 <= d < 16 :: c == "0123456789abcdef"[d] as nat || c == "0123456789ABCDEF"[d] as nat
  {
    assert HexValue([c][0]).Some?;
    var d := HexValue(c).value;
    assert c == "0123456789abcdef"[d] as nat || c == "0123456789ABCDEF"[d] as nat;
  }

  lemma {:induction false} BeforeStops(text: Bytes, stop: nat, rest: Bytes)
    requires stop !in text && (rest == [] || rest[0] == stop)
    ensures Before(text + rest, stop) == text
  {
    if text == [] {
      assert text + rest == rest;
    } else {
      assert (text + rest)[1..] == text[1..] + rest;
      BeforeStops(text[1..], stop, rest);
    }
  }

  /** A size is digits up to the end or the first semicolon. */
  lemma SizeExactly(line: Bytes, n: nat)
    ensures SizeOf(line) == Some(n) <==>
            exists k | 0 < k <= |line| :: IsHex(line[..k]) && (k == |line| || line[k] == 59) && Number(line[..k]) == n
  {
    BeforeIs(line, SEMICOLON);
    var text := Before(line, SEMICOLON);
    assert |text| < |line| ==> line == text + [SEMICOLON] + line[|text| + 1..];
    BeforeBegins(line, SEMICOLON);
    if k :| 0 < k <= |line| && IsHex(line[..k]) && (k == |line| || line[k] == 59) && Number(line[..k]) == n {
      assert forall i | 0 <= i < k :: HexValue(line[..k][i]).Some?;
      assert line == line[..k] + line[k..];
      BeforeStops(line[..k], SEMICOLON, line[k..]);
    }
  }

  lemma {:induction false} BeforeBegins(b: Bytes, stop: nat)
    ensures |Before(b, stop)| <= |b| && Before(b, stop) == b[..|Before(b, stop)|]
  {
    if b != [] && b[0] != stop { BeforeBegins(b[1..], stop); }
  }

  // ---------------------------------------------------------------- what a chunked body is

  datatype Chunk = Chunk(line: Bytes, data: Bytes)

  predicate ValidChunk(c: Chunk) {
    OneLine(c.line) && c.data != [] && SizeOf(c.line) == Some(|c.data|)
  }

  function Frame(c: Chunk): Bytes {
    c.line + CRLF + c.data + CRLF
  }

  function Frames(chunks: seq<Chunk>): Bytes {
    if chunks == [] then [] else Frame(chunks[0]) + Frames(chunks[1..])
  }

  function Content(chunks: seq<Chunk>): Bytes {
    if chunks == [] then [] else chunks[0].data + Content(chunks[1..])
  }

  function Lines(lines: seq<Bytes>): Bytes {
    if lines == [] then [] else lines[0] + CRLF + Lines(lines[1..])
  }

  predicate ValidTrailers(trailers: seq<Bytes>) {
    && (forall i | 0 <= i < |trailers| :: trailers[i] != [] && OneLine(trailers[i]))
    && Fields(trailers).Some?
  }

  /** Chunks one behind the other: line, end, data, end. */
  lemma {:induction false} ChunksJoin(a: seq<Chunk>, b: seq<Chunk>)
    ensures Content(a + b) == Content(a) + Content(b) && Frames(a + b) == Frames(a) + Frames(b)
    ensures |a| == 1 ==> Content(a) == a[0].data && Frames(a) == a[0].line + [13, 10] + a[0].data + [13, 10]
  {
    if a == [] {
      assert a + b == b;
    } else {
      assert (a + b)[1..] == a[1..] + b;
      ChunksJoin(a[1..], b);
    }
  }

  lemma {:induction false} LinesJoin(a: seq<Bytes>, b: seq<Bytes>)
    ensures Lines(a + b) == Lines(a) + Lines(b) && (|a| == 1 ==> Lines(a) == a[0] + [13, 10])
  {
    if a == [] {
      assert a + b == b;
    } else {
      assert (a + b)[1..] == a[1..] + b;
      LinesJoin(a[1..], b);
    }
  }

  datatype Chunked = Chunked(chunks: seq<Chunk>, last: Bytes, trailers: seq<Bytes>)

  predicate Valid(c: Chunked) {
    && (forall i | 0 <= i < |c.chunks| :: ValidChunk(c.chunks[i]))
    && OneLine(c.last) && SizeOf(c.last) == Some(0)
    && ValidTrailers(c.trailers)
  }

  function Text(c: Chunked): Bytes {
    Frames(c.chunks) + (c.last + CRLF + (Lines(c.trailers) + CRLF))
  }

  // ---------------------------------------------------------------- reading it

  function TrailerLines(b: Bytes): Option<seq<Bytes>>
    decreases |b|
  {
    match Cut(b)
    case None => None
    case Some(Split(line, rest)) =>
      if line == [] then (if rest == [] then Some([]) else None)
      else match TrailerLines(rest)
           case None => None
           case Some(more) => Some([line] + more)
  }

  /** Valid trailers and nothing else. */
  function Ending(b: Bytes): Option<Bytes> {
    match TrailerLines(b)
    case None => None
    case Some(trailers) => if Fields(trailers).Some? then Some([]) else None
  }

  /** The content of what starts with a chunk size. */
  function Decode(b: Bytes): Option<Bytes>
    decreases |b|
  {
    match Cut(b)
    case None => None
    case Some(Split(line, after)) =>
      match SizeOf(line)
      case None => None
      case Some(n) =>
        if n == 0 then Ending(after)
        else
          match Take(after, n)
          case None => None
          case Some(Split(data, rest)) =>
            match Decode(rest)
            case None => None
            case Some(content) => Some(data + content)
  }

  lemma {:induction false} TrailersRead(trailers: seq<Bytes>)
    requires forall i | 0 <= i < |trailers| :: trailers[i] != [] && OneLine(trailers[i])
    ensures TrailerLines(Lines(trailers) + CRLF) == Some(trailers)
  {
    var b := Lines(trailers) + CRLF;
    if trailers == [] {
      assert b == [] + CRLF + [];
      CutsLine([], []);
    } else {
      var line, rest := trailers[0], Lines(trailers[1..]) + CRLF;
      assert b == line + CRLF + rest;
      CutsLine(line, rest);
      TrailersRead(trailers[1..]);
      assert [line] + trailers[1..] == trailers;
    }
  }

  /** Whatever is a chunked body is accepted, and its content is the concatenation of its chunks. */
  lemma {:induction false} ValidIsDecoded(c: Chunked)
    requires Valid(c)
    ensures Decode(Text(c)) == Some(Content(c.chunks))
    decreases |c.chunks|
  {
    if c.chunks == [] {
      var rest := Lines(c.trailers) + CRLF;
      assert Text(c) == c.last + CRLF + rest;
      CutsLine(c.last, rest);
      TrailersRead(c.trailers);
    } else {
      var head, tail := c.chunks[0], Chunked(c.chunks[1..], c.last, c.trailers);
      ValidIsDecoded(tail);
      assert ValidChunk(head);
      var after := head.data + CRLF + Text(tail);
      Reframe(head, tail);
      assert [head] + tail.chunks == c.chunks;
      CutsLine(head.line, after);
      TakesExactly(after, |head.data|, head.data, Text(tail));
    }
  }

  lemma {:induction false} TrailersAre(b: Bytes) returns (trailers: seq<Bytes>)
    requires TrailerLines(b).Some?
    ensures TrailerLines(b) == Some(trailers) && b == Lines(trailers) + CRLF
    ensures forall i | 0 <= i < |trailers| :: trailers[i] != [] && OneLine(trailers[i])
    decreases |b|
  {
    CutIsLine(b);
    var cut := Cut(b).value;
    if cut.line == [] {
      trailers := [];
    } else {
      var more := TrailersAre(cut.rest);
      trailers := [cut.line] + more;
      assert trailers[1..] == more;
      assert b == cut.line + CRLF + (Lines(more) + CRLF);
    }
  }

  /** Whatever is accepted is a chunked body, with no byte left over. */
  lemma {:induction false} DecodedIsValid(b: Bytes) returns (c: Chunked)
    requires Decode(b).Some?
    ensures Valid(c) && Text(c) == b && Content(c.chunks) == Decode(b).value
    decreases |b|
  {
    CutIsLine(b);
    var line, after := Cut(b).value.line, Cut(b).value.rest;
    var n := SizeOf(line).value;
    if n == 0 {
      var trailers := TrailersAre(after);
      c := Chunked([], line, trailers);
      assert Text(c) == line + CRLF + after;
    } else {
      var data, rest := Take(after, n).value.line, Take(after, n).value.rest;
      TakesExactly(after, n, data, rest);
      var more := DecodedIsValid(rest);
      c := Chunked([Chunk(line, data)] + more.chunks, more.last, more.trailers);
      assert c.chunks[1..] == more.chunks;
      Reframe(Chunk(line, data), more);
    }
  }

  lemma Reframe(head: Chunk, more: Chunked)
    ensures Text(Chunked([head] + more.chunks, more.last, more.trailers)) == head.line + CRLF + (head.data + CRLF + Text(more))
  {
    var chunks := [head] + more.chunks;
    assert chunks[1..] == more.chunks;
    assert Frames(chunks) == Frame(head) + Frames(more.chunks);
  }

  /** Acceptance means exactly that the bytes are a chunked body with that content. */
  lemma DecodesExactly(b: Bytes, content: Bytes)
    ensures Decode(b) == Some(content) <==> exists c :: Valid(c) && Text(c) == b && Content(c.chunks) == content
  {
    if Decode(b) == Some(content) {
      var c := DecodedIsValid(b);
    }
    if c :| Valid(c) && Text(c) == b && Content(c.chunks) == content {
      ValidIsDecoded(c);
    }
  }

  // ---------------------------------------------------------------- the round trip

  function Encoded(parts: seq<Bytes>): seq<Chunk> {
    if parts == [] then [] else [Chunk(Hex(|parts[0]|), parts[0])] + Encoded(parts[1..])
  }

  function Joined(parts: seq<Bytes>): Bytes {
    if parts == [] then [] else parts[0] + Joined(parts[1..])
  }

  function Encode(parts: seq<Bytes>, trailers: seq<Bytes>): Bytes {
    Text(Chunked(Encoded(parts), Hex(0), trailers))
  }

  lemma SizeIsRead(n: nat)
    ensures SizeOf(Hex(n)) == Some(n) && OneLine(Hex(n))
  {
    HexIsRead(n);
    BeforeStops(Hex(n), SEMICOLON, []);
    assert Hex(n) + [] == Hex(n);
  }

  lemma {:induction false} EncodedIsValid(parts: seq<Bytes>)
    requires forall i | 0 <= i < |parts| :: parts[i] != []
    ensures forall i | 0 <= i < |Encoded(parts)| :: ValidChunk(Encoded(parts)[i])
    ensures Content(Encoded(parts)) == Joined(parts)
  {
    if parts != [] {
      SizeIsRead(|parts[0]|);
      EncodedIsValid(parts[1..]);
      assert Encoded(parts)[1..] == Encoded(parts[1..]);
    }
  }

  /** Encoding nonempty parts and decoding them again joins the parts. */
  lemma RoundTrip(parts: seq<Bytes>, trailers: seq<Bytes>)
    requires (forall i | 0 <= i < |parts| :: parts[i] != []) && ValidTrailers(trailers)
    ensures Decode(Encode(parts, trailers)) == Some(Joined(parts))
    ensures |parts| == 1 ==> Joined(parts) == parts[0]
  {
    EncodedIsValid(parts);
    SizeIsRead(0);
    ValidIsDecoded(Chunked(Encoded(parts), Hex(0), trailers));
  }

  // ---------------------------------------------------------------- header fields

  /** A header line and the folded lines that continue it. */
  datatype Field = Field(name: Bytes, spaced: bool, first: Bytes, folds: seq<Bytes>)

  predicate NameByte(c: nat) {
    33 <= c < 127
  }

  predicate Folded(line: Bytes) {
    line != [] && (line[0] == SPACE || line[0] == TAB)
  }

  predicate ValidField(f: Field) {
    && f.name != [] && (forall i | 0 <= i < |f.name| :: 33 <= f.name[i] < 127 && f.name[i] != 58)
    && (!f.spaced ==> f.first == [] || f.first[0] != 32)
    && forall i | 0 <= i < |f.folds| :: f.folds[i] != [] && f.folds[i][0] in {32, 9}
  }

  function FirstLine(f: Field): Bytes {
    f.name + [COLON] + (if f.spaced then [SPACE] else []) + f.first
  }

  function FieldLines(fields: seq<Field>): seq<Bytes> {
    if fields == [] then []
    else FieldLines(fields[..|fields| - 1]) + [FirstLine(fields[|fields| - 1])] + fields[|fields| - 1].folds
  }

  function ParseLine(line: Bytes): Option<Field> {
    var name := Before(line, COLON);
    if |name| >= |line| || name == [] || exists i | 0 <= i < |name| :: !NameByte(name[i]) then None
    else
      var value := line[|name| + 1..];
      Some(if value != [] && value[0] == SPACE then Field(name, true, value[1..], []) else Field(name, false, value, []))
  }

  /** What one more line makes of the fields so far. */
  function AddLine(fields: seq<Field>, line: Bytes): Option<seq<Field>> {
    if Folded(line) && fields != [] then
      var last := |fields| - 1;
      Some(fields[last := fields[last].(folds := fields[last].folds + [line])])
    else match ParseLine(line)
         case None => None
         case Some(field) => Some(fields + [field])
  }

  function Fields(lines: seq<Bytes>): Option<seq<Field>> {
    if lines == [] then Some([])
    else match Fields(lines[..|lines| - 1])
         case None => None
         case Some(fields) => AddLine(fields, lines[|lines| - 1])
  }

  predicate ValidFields(fields: seq<Field>) {
    forall i | 0 <= i < |fields| :: ValidField(fields[i])
  }

  lemma {:induction false} BeforeIs(b: Bytes, stop: nat)
    ensures var name := Before(b, stop);
      && |name| <= |b| && stop !in name
      && (|name| < |b| ==> b == name + [stop] + b[|name| + 1..])
  {
    if b != [] && b[0] != stop { BeforeIs(b[1..], stop); }
  }

  function Spaced(value: Bytes): bool {
    value != [] && value[0] == SPACE
  }

  /** A first line is read as the field it belongs to. */
  lemma FirstLineIsField(f: Field)
    requires ValidField(f) && f.folds == []
    ensures ParseLine(FirstLine(f)) == Some(f)
  {
    var value := (if f.spaced then [SPACE] else []) + f.first;
    assert FirstLine(f) == f.name + ([COLON] + value);
    BeforeStops(f.name, COLON, [COLON] + value);
    assert FirstLine(f)[|f.name| + 1..] == value;
    if f.spaced { assert value[1..] == f.first; } else { assert value == f.first; }
  }

  lemma FieldIsFirstLine(line: Bytes)
    requires ParseLine(line).Some?
    ensures var f := ParseLine(line).value; ValidField(f) && f.folds == [] && line == FirstLine(f)
  {
    BeforeIs(line, COLON);
    var name := Before(line, COLON);
    var value := line[|name| + 1..];
    if Spaced(value) { assert value == [SPACE] + value[1..]; }
  }

  lemma FirstLineIsNotFolded(f: Field)
    requires ValidField(f)
    ensures !Folded(FirstLine(f))
  {
    assert FirstLine(f)[0] == f.name[0];
  }

  lemma FoldAdds(fields: seq<Field>, line: Bytes)
    requires fields != []
    ensures var last := |fields| - 1;
      FieldLines(fields[last := fields[last].(folds := fields[last].folds + [line])]) == FieldLines(fields) + [line]
  {
    var last := |fields| - 1;
    var longer := fields[last := fields[last].(folds := fields[last].folds + [line])];
    assert longer[..last] == fields[..last];
  }

  lemma FieldAdds(fields: seq<Field>, f: Field)
    requires f.folds == []
    ensures FieldLines(fields + [f]) == FieldLines(fields) + [FirstLine(f)]
  {
    assert (fields + [f])[..|fields|] == fields;
  }

  lemma AddedLine(fields: seq<Field>, line: Bytes)
    requires ValidFields(fields) && AddLine(fields, line).Some?
    ensures ValidFields(AddLine(fields, line).value)
    ensures FieldLines(AddLine(fields, line).value) == FieldLines(fields) + [line]
  {
    if Folded(line) && fields != [] {
      FoldAdds(fields, line);
    } else {
      FieldIsFirstLine(line);
      FieldAdds(fields, ParseLine(line).value);
    }
  }

  lemma {:induction false} FieldsAreLines(lines: seq<Bytes>)
    requires Fields(lines).Some?
    ensures ValidFields(Fields(lines).value) && FieldLines(Fields(lines).value) == lines
  {
    if lines != [] {
      var front, line := lines[..|lines| - 1], lines[|lines| - 1];
      FieldsAreLines(front);
      AddedLine(Fields(front).value, line);
      assert lines == front + [line];
    }
  }

  /** The last line, and the fields that the lines before it make. */
  lemma LastLine(fields: seq<Field>) returns (fewer: seq<Field>, line: Bytes)
    requires fields != [] && ValidFields(fields)
    ensures ValidFields(fewer) && FieldLines(fields) == FieldLines(fewer) + [line]
    ensures AddLine(fewer, line) == Some(fields)
  {
    var last := |fields| - 1;
    var f := fields[last];
    if f.folds == [] {
      fewer, line := fields[..last], FirstLine(f);
      assert fields == fewer + [f];
      FieldAdds(fewer, f);
      FirstLineIsNotFolded(f);
      FirstLineIsField(f);
    } else {
      var k := |f.folds| - 1;
      line := f.folds[k];
      var shorter := f.(folds := f.folds[..k]);
      fewer := fields[last := shorter];
      assert shorter.folds + [line] == f.folds;
      assert fewer[last := f] == fields;
      FoldAdds(fewer, line);
    }
  }

  lemma {:induction false} LinesAreFields(fields: seq<Field>)
    requires ValidFields(fields)
    ensures Fields(FieldLines(fields)) == Some(fields)
    decreases |FieldLines(fields)|
  {
    if fields != [] {
      var fewer, line := LastLine(fields);
      LinesAreFields(fewer);
      assert (FieldLines(fewer) + [line])[..|FieldLines(fewer)|] == FieldLines(fewer);
    }
  }

  /** Header lines are accepted exactly when they are the lines of valid fields, and then give those fields. */
  lemma FieldsExactly(lines: seq<Bytes>, fields: seq<Field>)
    ensures Fields(lines) == Some(fields) <==> ValidFields(fields) && FieldLines(fields) == lines
  {
    if Fields(lines) == Some(fields) { FieldsAreLines(lines); }
    if ValidFields(fields) && FieldLines(fields) == lines { LinesAreFields(fields); }
  }

  // ---------------------------------------------------------------- the loops

  /** Folds continuation lines into the field before them. */
  method HeaderFields(lines: seq<Bytes>) returns (r: Option<seq<Field>>)
    ensures r == Fields(lines)
    ensures r.Some? ==> ValidFields(r.value) && FieldLines(r.value) == lines
  {
    var headers: seq<Field> := [];
    for i := 0 to |lines|
      invariant Fields(lines[..i]) == Some(headers)
    {
      assert lines[..i + 1][..i] == lines[..i];
      var line := lines[i];
      if Folded(line) && headers != [] {
        var last := |headers| - 1;
        headers := headers[last := headers[last].(folds := headers[last].folds + [line])];
      } else {
        var field := ParseLine(line);
        if field == None {
          Refused(lines, i + 1);
          return None;
        }
        headers := headers + [field.value];
      }
    }
    assert lines[..|lines|] == lines;
    FieldsAreLines(lines);
    r := Some(headers);
  }

  lemma {:induction false} Refused(lines: seq<Bytes>, n: nat)
    requires n <= |lines| && Fields(lines[..n]) == None
    ensures Fields(lines) == None
    decreases |lines|
  {
    if n < |lines| {
      assert lines[..|lines| - 1][..n] == lines[..n];
      Refused(lines[..|lines| - 1], n);
    } else {
      assert lines[..n] == lines;
    }
  }

  /** The next line from `offset` on, and where the one after it starts. */
  method ChunkLine(body: Bytes, offset: nat) returns (found: bool, line: Bytes, next: nat)
    requires offset <= |body|
    ensures found <==> Cut(body[offset..]).Some?
    ensures found ==> offset < next <= |body| && Cut(body[offset..]) == Some(Split(line, body[next..]))
    ensures found ==> next == offset + |line| + 2 && body[offset..next] == line + [13, 10]
  {
    FindsFirst(body[offset..]);
    var end := Find(body[offset..]);
    if end == None { return false, [], offset; }
    found, line, next := true, body[offset..offset + end.value], offset + end.value + 2;
    assert body[offset..][..end.value] == line && body[offset..][end.value + 2..] == body[next..];
  }

  function Prepended<T>(front: seq<T>, r: Option<seq<T>>): Option<seq<T>> {
    if r == None then None else Some(front + r.value)
  }

  lemma PrependMore<T>(front: seq<T>, more: seq<T>, r: Option<seq<T>>)
    ensures Prepended([], r) == r
    ensures Prepended(front, Prepended(more, r)) == Prepended(front + more, r)
  {
    if r.Some? {
      assert [] + r.value == r.value;
      assert front + (more + r.value) == front + more + r.value;
    }
  }

  lemma ChunkStep(b: Bytes, line: Bytes, after: Bytes, data: Bytes, rest: Bytes)
    requires Cut(b) == Some(Split(line, after)) && data != [] && SizeOf(line) == Some(|data|)
    requires Take(after, |data|) == Some(Split(data, rest))
    ensures Decode(b) == Prepended(data, Decode(rest))
  {
  }

  lemma TrailerStep(b: Bytes, line: Bytes, rest: Bytes)
    requires Cut(b) == Some(Split(line, rest)) && line != []
    ensures TrailerLines(b) == Prepended([line], TrailerLines(rest))
  {
  }

  /** `n` bytes from `offset` on, and where the chunk after them starts. */
  method ChunkData(body: Bytes, offset: nat, n: nat) returns (complete: bool, data: Bytes, next: nat)
    requires offset <= |body|
    ensures complete <==> Take(body[offset..], n).Some?
    ensures complete ==> offset < next <= |body| && Take(body[offset..], n) == Some(Split(data, body[next..])) && |data| == n
  {
    complete := offset + n + 2 <= |body| && body[offset + n] == CR && body[offset + n + 1] == LF;
    if !complete { return false, [], offset; }
    data, next := body[offset..offset + n], offset + n + 2;
    assert body[offset..][..n] == data && body[offset..][n + 2..] == body[next..];
  }

  /** Collects the chunks, and finds where the trailers start. */
  method ReadChunks(body: Bytes) returns (content: Option<Bytes>, offset: nat)
    ensures offset <= |body|
    ensures content == None ==> Decode(body) == None
    ensures content.Some? ==> Decode(body) == Prepended(content.value, Ending(body[offset..]))
  {
    var chunks: Bytes := [];
    offset := 0;
    assert body[0..] == body;
    PrependMore<nat>([], [], Decode(body));
    while true
      invariant offset <= |body| && Decode(body) == Prepended(chunks, Decode(body[offset..]))
      decreases |body| - offset
    {
      var found, line, next := ChunkLine(body, offset);
      if !found { return None, offset; }
      var size := SizeOf(line);
      if size == None { return None, offset; }
      if size.value == 0 { return Some(chunks), next; }
      var complete, data, after := ChunkData(body, next, size.value);
      if !complete { return None, offset; }
      ChunkStep(body[offset..], line, body[next..], data, body[after..]);
      PrependMore(chunks, data, Decode(body[after..]));
      chunks := chunks + data;
      offset := after;
    }
  }

  /** Collects lines up to the empty one, and insists that nothing follows it. */
  method ReadTrailers(body: Bytes, start: nat) returns (trailers: Option<seq<Bytes>>)
    requires start <= |body|
    ensures trailers == TrailerLines(body[start..])
  {
    var lines: seq<Bytes> := [];
    var offset := start;
    PrependMore<Bytes>([], [], TrailerLines(body[start..]));
    while true
      invariant offset <= |body| && TrailerLines(body[start..]) == Prepended(lines, TrailerLines(body[offset..]))
      decreases |body| - offset
    {
      var found, line, next := ChunkLine(body, offset);
      if !found { return None; }
      if line == [] {
        assert (next == |body|) == (body[next..] == []);
        assert lines + [] == lines;
        return if next == |body| then Some(lines) else None;
      }
      TrailerStep(body[offset..], line, body[next..]);
      PrependMore(lines, [line], TrailerLines(body[next..]));
      lines := lines + [line];
      offset := next;
    }
  }

  /** Accepts exactly the chunked bodies, and returns their content. */
  method ChunkedBody(body: Bytes) returns (r: Option<Bytes>)
    ensures r.Some? <==> exists c :: Valid(c) && Text(c) == body
    ensures forall c | Valid(c) && Text(c) == body :: r == Some(Content(c.chunks))
  {
    var content, offset := ReadChunks(body);
    r := None;
    if content.Some? {
      var trailers := ReadTrailers(body, offset);
      if trailers.Some? {
        var fields := HeaderFields(trailers.value);
        if fields.Some? {
          r := content;
          assert content.value + [] == content.value;
        }
      }
    }
    assert r == Decode(body);
    if r.Some? { var c := DecodedIsValid(body); }
    forall c | Valid(c) && Text(c) == body ensures r == Some(Content(c.chunks)) { ValidIsDecoded(c); }
  }
}
