/** Untrusted text made harmless for a terminal (raychat/presentation.py). */
module ConsoleText {
  import opened Sequences

  /** Code points. */
  type Text = seq<nat>

  const BEL := 0x07
  const TAB := 0x09
  const LF := 0x0A
  const CR := 0x0D
  const ESC := 0x1B
  const SPACE := 0x20
  const BRACKET := 0x5B
  const BACKSLASH := 0x5C
  const CSI := 0x9B
  const ST := 0x9C

  predicate Parameter(c: nat) { 0x30 <= c < 0x40 }
  predicate Intermediate(c: nat) { 0x20 <= c < 0x30 }
  predicate CsiFinal(c: nat) { 0x40 <= c < 0x7F }
  predicate EscapeFinal(c: nat) { 0x30 <= c < 0x7F }

  /** The second character of a control string: P, X, ], ^ or _. */
  predicate OpensString(c: nat) { c in {0x50, 0x58, 0x5D, 0x5E, 0x5F} }

  /** The single characters that open a control string. */
  predicate StringControl(c: nat) { c in {0x90, 0x98, 0x9D, 0x9E, 0x9F} }

  predicate Bidi(c: nat) {
    c == 0x061C || c in {0x200E, 0x200F} || 0x202A <= c <= 0x202E || 0x2066 <= c <= 0x206F
  }

  predicate Surrogate(c: nat) { 0xD800 <= c < 0xE000 }

  // ---------------------------------------------------------------- the terminal's view, one character at a time

  datatype State = Ground | Escape | Inter | CsiParam | CsiInter | Str | StrEsc

  datatype Move = Move(state: State, shown: Text)

  /** What is shown for one character outside every sequence. */
  function Visible(c: nat): Text {
    if c == LF then [LF]
    else if c == TAB then [SPACE, SPACE, SPACE, SPACE]
    else if Surrogate(c) then [0xFFFD]
    else if c < SPACE || 0x7F <= c < 0xA0 || Bidi(c) then []
    else [c]
  }

  function FromGround(c: nat): Move {
    if c == ESC then Move(Escape, [])
    else if c == CSI then Move(CsiParam, [])
    else if StringControl(c) then Move(Str, [])
    else Move(Ground, Visible(c))
  }

  function InString(c: nat): Move {
    if c == BEL || c == ST then Move(Ground, [])
    else if c == ESC then Move(StrEsc, [])
    else Move(Str, [])
  }

  /** A character that cannot continue a sequence starts afresh. */
  function Next(s: State, c: nat): Move {
    match s
    case Ground => FromGround(c)
    case Escape =>
      if c == BRACKET then Move(CsiParam, [])
      else if OpensString(c) then Move(Str, [])
      else if Intermediate(c) then Move(Inter, [])
      else if EscapeFinal(c) then Move(Ground, [])
      else FromGround(c)
    case Inter =>
      if Intermediate(c) then Move(Inter, []) else if EscapeFinal(c) then Move(Ground, []) else FromGround(c)
    case CsiParam =>
      if Parameter(c) then Move(CsiParam, [])
      else if Intermediate(c) then Move(CsiInter, [])
      else if CsiFinal(c) then Move(Ground, [])
      else FromGround(c)
    case CsiInter =>
      if Intermediate(c) then Move(CsiInter, []) else if CsiFinal(c) then Move(Ground, []) else FromGround(c)
    case Str => InString(c)
    case StrEsc => if c == BACKSLASH then Move(Ground, []) else InString(c)
  }

  function Shown(s: State, text: Text): Text
    decreases |text|
  {
    if text == [] then [] else Next(s, text[0]).shown + Shown(Next(s, text[0]).state, text[1..])
  }

  function After(s: State, text: Text): State
    decreases |text|
  {
    if text == [] then s else After(Next(s, text[0]).state, text[1..])
  }

  /** Line ends as newlines. */
  function Normal(text: Text): Text {
    if text == [] then []
    else if text[0] != CR then [text[0]] + Normal(text[1..])
    else [LF] + Normal(if |text| > 1 && text[1] == LF then text[2..] else text[1..])
  }

  function Rendered(text: Text): Text {
    Shown(Ground, Normal(text))
  }

  lemma {:induction false} ShownJoin(s: State, a: Text, b: Text)
    ensures Shown(s, a + b) == Shown(s, a) + Shown(After(s, a), b)
    ensures After(s, a + b) == After(After(s, a), b)
    decreases |a|
  {
    if a == [] {
      assert a + b == b;
    } else {
      var m, rest := Next(s, a[0]), a[1..];
      assert (a + b)[1..] == rest + b && (a + b)[0] == a[0];
      ShownJoin(m.state, rest, b);
      Regroup(m.shown, Shown(m.state, rest), Shown(After(m.state, rest), b));
    }
  }

  /** How much of a text its first line end or character takes. */
  function Width(text: Text): (k: nat)
    requires text != []
    ensures 0 < k <= |text|
  {
    if text[0] == CR && |text| > 1 && text[1] == LF then 2 else 1
  }

  lemma NormalStep(text: Text)
    requires text != []
    ensures Normal(text) == [if text[0] == CR then LF else text[0]] + Normal(text[Width(text)..])
  {
  }

  lemma {:induction false} NormalJoin(a: Text, b: Text)
    requires a == [] || a[|a| - 1] != CR || b == [] || b[0] != LF
    ensures Normal(a + b) == Normal(a) + Normal(b)
    decreases |a|
  {
    if a == [] {
      assert a + b == b;
    } else {
      var k, rest := Width(a), a[Width(a)..];
      NormalStep(a);
      NormalStep(a + b);
      assert Width(a + b) == k && (a + b)[k..] == rest + b;
      NormalJoin(rest, b);
      Regroup([if a[0] == CR then LF else a[0]], Normal(rest), Normal(b));
    }
  }

  // ---------------------------------------------------------------- nothing harmful is shown

  /** A newline or a visible character. */
  predicate Harmless(c: nat) {
    c == LF || (c >= SPACE && !(0x7F <= c < 0xA0) && !Bidi(c) && !Surrogate(c))
  }

  predicate Clean(text: Text) {
    forall i | 0 <= i < |text| :: Harmless(text[i])
  }

  lemma {:induction false} ShownIsClean(s: State, text: Text)
    ensures Clean(Shown(s, text))
    decreases |text|
  {
    if text != [] { ShownIsClean(Next(s, text[0]).state, text[1..]); }
  }

  lemma {:induction false} CleanStays(text: Text)
    requires Clean(text)
    ensures Normal(text) == text && Shown(Ground, text) == text
  {
    if text != [] {
      assert Harmless(text[0]);
      CleanStays(text[1..]);
    }
  }

  /** The result has no control character but newlines, no bidirectional control and no surrogate. */
  lemma RenderedIsClean(text: Text)
    ensures Clean(Rendered(text))
  {
    ShownIsClean(Ground, Normal(text));
  }

  lemma RenderedTwice(text: Text)
    ensures Rendered(Rendered(text)) == Rendered(text)
  {
    RenderedIsClean(text);
    CleanStays(Rendered(text));
  }

  // ---------------------------------------------------------------- control sequences leave no trace

  datatype Sequence =
    | Control(short: bool, parameters: Text, intermediates: Text, final: nat)
    | Escaped(intermediates: Text, final: nat)
    | ControlString(introducer: Text, body: Text, terminator: Text)

  predicate AllParameters(text: Text) { forall i | 0 <= i < |text| :: 0x30 <= text[i] <= 0x3F }
  predicate AllIntermediate(text: Text) { forall i | 0 <= i < |text| :: 0x20 <= text[i] <= 0x2F }
  predicate Plain(text: Text) { forall i | 0 <= i < |text| :: text[i] !in {0x07, 0x9C, 0x1B} }

  predicate Opening(text: Text) {
    || (|text| == 1 && text[0] in {0x90, 0x98, 0x9D, 0x9E, 0x9F})
    || (|text| == 2 && text[0] == 0x1B && text[1] in {0x50, 0x58, 0x5D, 0x5E, 0x5F})
  }

  predicate Closing(text: Text) {
    text in {[0x07], [0x9C], [0x1B, 0x5C]}
  }

  /** The sequences of section 5.4 and 5.6 of ECMA-48, with the bell as another end of a control string. */
  predicate WellFormed(q: Sequence) {
    match q
    case Control(_, parameters, intermediates, final) =>
      AllParameters(parameters) && AllIntermediate(intermediates) && 0x40 <= final <= 0x7E
    case Escaped(intermediates, final) =>
      && AllIntermediate(intermediates) && 0x30 <= final <= 0x7E
      && (intermediates == [] ==> final !in {0x50, 0x58, 0x5B, 0x5D, 0x5E, 0x5F})
    case ControlString(introducer, body, terminator) =>
      Opening(introducer) && Plain(body) && Closing(terminator)
  }

  function Spelled(q: Sequence): Text {
    match q
    case Control(short, parameters, intermediates, final) =>
      (if short then [0x9B] else [0x1B, 0x5B]) + (parameters + (intermediates + [final]))
    case Escaped(intermediates, final) => [0x1B] + (intermediates + [final])
    case ControlString(introducer, body, terminator) => introducer + (body + terminator)
  }

  /** The text moves the terminal from one state to another without showing anything. */
  predicate Silent(s: State, text: Text, t: State) {
    Shown(s, text) == [] && After(s, text) == t
  }

  lemma SilentJoin(s: State, a: Text, t: State, b: Text, u: State)
    requires Silent(s, a, t) && Silent(t, b, u)
    ensures Silent(s, a + b, u)
  {
    ShownJoin(s, a, b);
  }

  lemma SilentOne(s: State, c: nat)
    requires Next(s, c).shown == []
    ensures Silent(s, [c], Next(s, c).state)
  {
    assert [c][1..] == [];
  }

  lemma {:induction false} ParametersAreSilent(text: Text)
    requires AllParameters(text)
    ensures Silent(CsiParam, text, CsiParam)
  {
    if text != [] { ParametersAreSilent(text[1..]); }
  }

  lemma {:induction false} IntermediatesAreSilent(s: State, text: Text)
    requires AllIntermediate(text) && s in {Inter, CsiInter}
    ensures Silent(s, text, s)
  {
    if text != [] { IntermediatesAreSilent(s, text[1..]); }
  }

  lemma {:induction false} BodyIsSilent(text: Text)
    requires Plain(text)
    ensures Silent(Str, text, Str)
  {
    if text != [] { BodyIsSilent(text[1..]); }
  }

  /** Intermediates, if any, and a final character. */
  lemma TailIsSilent(s: State, intermediates: Text, final: nat)
    requires AllIntermediate(intermediates)
    requires (s == CsiParam && CsiFinal(final)) ||
             (s == Escape && EscapeFinal(final) && (intermediates == [] ==> final != BRACKET && !OpensString(final)))
    ensures Silent(s, intermediates + [final], Ground)
  {
    if intermediates == [] {
      assert intermediates + [final] == [final];
      SilentOne(s, final);
    } else {
      var inner := if s == CsiParam then CsiInter else Inter;
      var first, more := intermediates[0], intermediates[1..];
      SilentOne(s, first);
      IntermediatesAreSilent(inner, more);
      SilentOne(inner, final);
      SilentJoin(s, [first], inner, more, inner);
      assert [first] + more == intermediates;
      SilentJoin(s, intermediates, inner, [final], Ground);
    }
  }

  lemma ControlIsSilent(q: Sequence)
    requires WellFormed(q) && q.Control?
    ensures Silent(Ground, Spelled(q), Ground)
  {
    var opening := if q.short then [CSI] else [ESC, BRACKET];
    SilentOne(Ground, CSI);
    SilentOne(Ground, ESC);
    SilentOne(Escape, BRACKET);
    SilentJoin(Ground, [ESC], Escape, [BRACKET], CsiParam);
    assert [ESC] + [BRACKET] == [ESC, BRACKET];
    ParametersAreSilent(q.parameters);
    TailIsSilent(CsiParam, q.intermediates, q.final);
    SilentJoin(CsiParam, q.parameters, CsiParam, q.intermediates + [q.final], Ground);
    SilentJoin(Ground, opening, CsiParam, q.parameters + (q.intermediates + [q.final]), Ground);
  }

  lemma EscapedIsSilent(q: Sequence)
    requires WellFormed(q) && q.Escaped?
    ensures Silent(Ground, Spelled(q), Ground)
  {
    SilentOne(Ground, ESC);
    TailIsSilent(Escape, q.intermediates, q.final);
    SilentJoin(Ground, [ESC], Escape, q.intermediates + [q.final], Ground);
  }

  lemma StringIsSilent(introducer: Text, body: Text, terminator: Text)
    requires Opening(introducer) && Plain(body) && Closing(terminator)
    ensures Silent(Ground, introducer + (body + terminator), Ground)
  {
    if |introducer| == 1 {
      assert introducer == [introducer[0]];
      SilentOne(Ground, introducer[0]);
    } else {
      assert introducer == [ESC] + [introducer[1]];
      SilentOne(Ground, ESC);
      SilentOne(Escape, introducer[1]);
      SilentJoin(Ground, [ESC], Escape, [introducer[1]], Str);
    }
    BodyIsSilent(body);
    if |terminator| == 1 {
      SilentOne(Str, terminator[0]);
    } else {
      assert terminator == [ESC] + [BACKSLASH];
      SilentOne(Str, ESC);
      SilentOne(StrEsc, BACKSLASH);
      SilentJoin(Str, [ESC], StrEsc, [BACKSLASH], Ground);
    }
    SilentJoin(Str, body, Str, terminator, Ground);
    SilentJoin(Ground, introducer, Str, body + terminator, Ground);
  }

  lemma {:induction false} NoLineEnds(text: Text)
    requires CR !in text
    ensures Normal(text) == text
  {
    if text != [] { NoLineEnds(text[1..]); }
  }

  lemma {:induction false} NormalIsPlain(text: Text)
    requires Plain(text)
    ensures Plain(Normal(text))
    decreases |text|
  {
    if text != [] {
      NormalIsPlain(text[1..]);
      if text[0] == CR && |text| > 1 && text[1] == LF { NormalIsPlain(text[2..]); }
    }
  }

  /** A sequence is silent after line ends were normalized, too. */
  lemma SequenceIsSilent(q: Sequence)
    requires WellFormed(q)
    ensures Silent(Ground, Normal(Spelled(q)), Ground)
    ensures Spelled(q) != [] && Spelled(q)[|Spelled(q)| - 1] != CR
    ensures Normal(Spelled(q)) != [] && Normal(Spelled(q))[0] == Spelled(q)[0]
    ensures Spelled(q)[0] == ESC || Spelled(q)[0] == CSI || StringControl(Spelled(q)[0])
  {
    match q
    case Control(_, _, _, _) =>
      NoLineEnds(Spelled(q));
      ControlIsSilent(q);
    case Escaped(_, _) =>
      NoLineEnds(Spelled(q));
      EscapedIsSilent(q);
    case ControlString(introducer, body, terminator) =>
      NoLineEnds(introducer);
      NoLineEnds(terminator);
      NormalJoin(body, terminator);
      NormalJoin(introducer, body + terminator);
      NormalIsPlain(body);
      StringIsSilent(introducer, Normal(body), terminator);
  }

  /** The text does not end inside a control string. */
  predicate Settled(a: Text) {
    After(Ground, Normal(a)) !in {Str, StrEsc}
  }

  /** Outside a control string, the first character of a sequence is taken as if nothing had been open. */
  lemma StartsAfresh(s: State, q: Text)
    requires s !in {Str, StrEsc} && q != [] && (q[0] == ESC || q[0] == CSI || StringControl(q[0]))
    ensures Shown(s, q) == Shown(Ground, q) && After(s, q) == After(Ground, q)
  {
  }

  lemma EndsOf(a: Text, b: Text)
    requires b != []
    ensures (a + b)[|a + b| - 1] == b[|b| - 1]
  {
  }

  lemma SilentBetween(a: Text, q: Text, b: Text)
    requires After(Ground, a) !in {Str, StrEsc} && q != [] && (q[0] == ESC || q[0] == CSI || StringControl(q[0]))
    requires Silent(Ground, q, Ground)
    ensures Shown(Ground, a + q + b) == Shown(Ground, a) + Shown(Ground, b)
  {
    StartsAfresh(After(Ground, a), q);
    ShownJoin(Ground, a, q);
    ShownJoin(Ground, a + q, b);
  }

  /** A control sequence between two texts leaves exactly what the texts show by themselves. */
  lemma SequencesLeaveNoTrace(a: Text, q: Sequence, b: Text)
    requires Settled(a) && WellFormed(q)
    ensures Rendered(a + Spelled(q) + b) == Rendered(a) + Rendered(b)
  {
    var middle := Spelled(q);
    SequenceIsSilent(q);
    EndsOf(a, middle);
    NormalJoin(a, middle);
    NormalJoin(a + middle, b);
    SilentBetween(Normal(a), Normal(middle), Normal(b));
  }

  /** The text ends outside every sequence. */
  predicate Idle(a: Text) {
    After(Ground, Normal(a)) == Ground
  }

  /** What a single character outside every sequence shows. */
  lemma CharacterShown(a: Text, c: nat, b: Text)
    requires Idle(a) && c !in {0x0A, 0x0D, 0x1B, 0x90, 0x98, 0x9B, 0x9D, 0x9E, 0x9F}
    ensures Idle(a + [c])
    ensures Rendered(a + [c] + b) ==
            Rendered(a) +
            (if c == 0x09 then [0x20, 0x20, 0x20, 0x20]
             else if 0xD800 <= c <= 0xDFFF then [0xFFFD]
             else if c < 0x20 || 0x7F <= c <= 0x9F then []
             else if c in {0x061C, 0x200E, 0x200F} || 0x202A <= c <= 0x202E || 0x2066 <= c <= 0x206F then []
             else [c]) +
            Rendered(b)
  {
    NormalJoin(a, [c]);
    NormalJoin(a + [c], b);
    assert [c][1..] == [] && Normal([c]) == [c];
    ShownJoin(Ground, Normal(a), [c]);
    ShownJoin(Ground, Normal(a) + [c], Normal(b));
  }

  /** Every kind of line end is shown as a newline. */
  lemma LineEndShown(a: Text, end: Text, b: Text)
    requires Idle(a) && end in {[0x0D, 0x0A], [0x0A], [0x0D]}
    requires (end == [0x0A] ==> a == [] || a[|a| - 1] != 0x0D) && (end == [0x0D] ==> b == [] || b[0] != 0x0A)
    ensures Idle(a + end)
    ensures Rendered(a + end + b) == Rendered(a) + [0x0A] + Rendered(b)
  {
    NormalJoin(a, end);
    NormalJoin(a + end, b);
    NormalStep(end);
    assert Normal(end) == [LF] && [LF][1..] == [];
    ShownJoin(Ground, Normal(a), [LF]);
    ShownJoin(Ground, Normal(a) + [LF], Normal(b));
  }

  /** A sequence that is broken off by a character that can be no part of it shows nothing, and that character counts. */
  lemma BrokenOff(a: Text, opening: Text, c: nat, b: Text)
    requires Idle(a) && opening in {[0x1B], [0x9B], [0x1B, 0x5B]} && (c < 0x20 || c > 0x7E)
    ensures Rendered(a + opening + ([c] + b)) == Rendered(a) + Rendered([c] + b)
  {
    var rest := [c] + b;
    NormalJoin(a, opening);
    NormalJoin(a + opening, rest);
    NormalStep(rest);
    NoLineEnds(opening);
    SilentOne(Ground, opening[0]);
    if |opening| == 2 {
      SilentOne(Escape, BRACKET);
      SilentJoin(Ground, [ESC], Escape, [BRACKET], CsiParam);
      assert [ESC] + [BRACKET] == opening;
    }
    var s := After(Ground, opening);
    assert Silent(Ground, opening, s) && s in {Escape, CsiParam};
    StartsOver(s, Normal(rest));
    ShownJoin(Ground, Normal(a), opening);
    ShownJoin(Ground, Normal(a) + opening, Normal(rest));
  }

  lemma StartsOver(s: State, text: Text)
    requires s in {Escape, CsiParam} && text != [] && (text[0] < 0x20 || text[0] > 0x7E)
    ensures Shown(s, text) == Shown(Ground, text)
  {
  }

  /** Inside an unfinished control string the sequence and what follows are swallowed instead. */
  lemma StringsSwallow(a: Text, q: Sequence, b: Text)
    requires !Settled(a) && WellFormed(q) && q.Control? && q.short && Plain(b)
    ensures Rendered(a + Spelled(q) + b) == Rendered(a)
  {
    var middle := Spelled(q);
    ControlIsPlain(q);
    NoLineEnds(middle);
    NormalIsPlain(b);
    NormalJoin(middle, b);
    NormalJoin(a, middle + b);
    assert a + middle + b == a + (middle + b);
    Swallowed(Normal(a), middle + Normal(b));
  }

  lemma ControlIsPlain(q: Sequence)
    requires WellFormed(q) && q.Control? && q.short
    ensures Plain(Spelled(q)) && CR !in Spelled(q) && Spelled(q)[0] == CSI
    ensures Spelled(q)[|Spelled(q)| - 1] != CR
  {
  }

  lemma Swallowed(a: Text, rest: Text)
    requires After(Ground, a) in {Str, StrEsc} && Plain(rest) && rest != [] && rest[0] != BACKSLASH
    ensures Shown(Ground, a + rest) == Shown(Ground, a)
  {
    ShownJoin(Ground, a, rest);
    BodyIsSilent(rest[1..]);
  }

  /** Every sequence leaves no trace behind a text. */
  ghost predicate Traceless(a: Text) {
    forall q, b: Text | WellFormed(q) :: Rendered(a + Spelled(q) + b) == Rendered(a) + Rendered(b)
  }

  /** Sequences leave no trace behind exactly those texts that do not end inside a control string. */
  lemma TracelessExactly(a: Text)
    ensures Traceless(a) <==> Settled(a)
  {
    if Settled(a) {
      forall q, b: Text | WellFormed(q)
        ensures Rendered(a + Spelled(q) + b) == Rendered(a) + Rendered(b)
      {
        SequencesLeaveNoTrace(a, q, b);
      }
    } else {
      var q, b := Control(true, [], [], 0x6D), [0x78];
      StringsSwallow(a, q, b);
      CleanStays(b);
      assert |Rendered(a + Spelled(q) + b)| != |Rendered(a) + Rendered(b)|;
    }
  }

  // ---------------------------------------------------------------- the loops

  /** What is shown from `i` on. */
  function Rest(s: State, value: Text, i: nat): Text
    requires i <= |value|
  {
    Shown(s, value[i..])
  }

  lemma RestStep(s: State, value: Text, i: nat)
    requires i < |value|
    ensures Rest(s, value, i) == Next(s, value[i]).shown + Rest(Next(s, value[i]).state, value, i + 1)
  {
    assert value[i..][1..] == value[i + 1..];
  }

  /** A sequence that cannot continue is over. */
  lemma FallsBack(s: State, value: Text, i: nat)
    requires i <= |value| && (i < |value| ==> Next(s, value[i]) == FromGround(value[i]))
    ensures Rest(s, value, i) == Rest(Ground, value, i)
  {
    if i < |value| {
      RestStep(s, value, i);
      RestStep(Ground, value, i);
    }
  }

  method ConsumeCsi(value: Text, start: nat) returns (index: nat)
    requires start <= |value|
    ensures start <= index <= |value|
    ensures Rest(CsiParam, value, start) == Rest(Ground, value, index)
  {
    index := start;
    while index < |value| && Parameter(value[index])
      invariant start <= index <= |value| && Rest(CsiParam, value, start) == Rest(CsiParam, value, index)
    {
      RestStep(CsiParam, value, index);
      index := index + 1;
    }
    ghost var s := CsiParam;
    while index < |value| && Intermediate(value[index])
      invariant start <= index <= |value| && s in {CsiParam, CsiInter}
      invariant index < |value| && s == CsiParam ==> !Parameter(value[index])
      invariant Rest(CsiParam, value, start) == Rest(s, value, index)
    {
      RestStep(s, value, index);
      s := CsiInter;
      index := index + 1;
    }
    if index < |value| && CsiFinal(value[index]) {
      RestStep(s, value, index);
      index := index + 1;
    } else {
      FallsBack(s, value, index);
    }
  }

  method ConsumeString(value: Text, start: nat) returns (index: nat)
    requires start <= |value|
    ensures start <= index <= |value|
    ensures Rest(Str, value, start) == Rest(Ground, value, index)
  {
    index := start;
    while index < |value|
      invariant start <= index <= |value| && Rest(Str, value, start) == Rest(Str, value, index)
    {
      RestStep(Str, value, index);
      if value[index] == BEL || value[index] == ST { return index + 1; }
      if value[index] == ESC && index + 1 < |value| && value[index + 1] == BACKSLASH {
        RestStep(StrEsc, value, index + 1);
        return index + 2;
      }
      if value[index] == ESC { EscapeInString(value, index + 1); }
      index := index + 1;
    }
  }

  /** An escape character that does not end the string changes nothing. */
  lemma EscapeInString(value: Text, i: nat)
    requires i <= |value| && (i < |value| ==> value[i] != BACKSLASH)
    ensures Rest(StrEsc, value, i) == Rest(Str, value, i)
  {
    if i < |value| {
      RestStep(StrEsc, value, i);
      RestStep(Str, value, i);
    }
  }

  method ConsumeEscape(value: Text, start: nat) returns (index: nat)
    requires start <= |value|
    ensures start <= index <= |value|
    ensures Rest(Escape, value, start) == Rest(Ground, value, index)
  {
    index := start;
    if index >= |value| { return; }
    RestStep(Escape, value, index);
    if value[index] == BRACKET {
      index := ConsumeCsi(value, index + 1);
      return;
    }
    if OpensString(value[index]) {
      index := ConsumeString(value, index + 1);
      return;
    }
    ghost var s := Escape;
    while index < |value| && Intermediate(value[index])
      invariant start <= index <= |value| && s in {Escape, Inter}
      invariant s == Escape ==> index == start
      invariant Rest(Escape, value, start) == Rest(s, value, index)
    {
      RestStep(s, value, index);
      s := Inter;
      index := index + 1;
    }
    if index < |value| && EscapeFinal(value[index]) {
      RestStep(s, value, index);
      index := index + 1;
    } else {
      FallsBack(s, value, index);
    }
  }

  /** Skips control sequences and shows everything else harmlessly. */
  method Render(text: Text) returns (rendered: Text)
    ensures rendered == Rendered(text) && Clean(rendered)
  {
    var value := Normal(text);
    rendered := [];
    var index := 0;
    assert value[0..] == value;
    while index < |value|
      invariant index <= |value| && Rendered(text) == rendered + Rest(Ground, value, index)
    {
      RestStep(Ground, value, index);
      var c := value[index];
      Regroup(rendered, FromGround(c).shown, Rest(FromGround(c).state, value, index + 1));
      if c == ESC {
        index := ConsumeEscape(value, index + 1);
      } else if c == CSI {
        index := ConsumeCsi(value, index + 1);
      } else if StringControl(c) {
        index := ConsumeString(value, index + 1);
      } else {
        rendered := rendered + Visible(c);
        index := index + 1;
      }
    }
    RenderedIsClean(text);
  }
}
