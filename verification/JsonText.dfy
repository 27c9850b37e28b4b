/** Values as JSON text, with every character outside ASCII escaped, and how long that is. */
module JsonText {

  // ---------------------------------------------------------------- the text

  const HEX: string := "0123456789abcdef"

  function Decimal(n: nat): string {
    if n < 10 then [HEX[n]] else Decimal(n / 10) + [HEX[n % 10]]
  }

  /** A code unit. */
  function Unit(n: nat): string {
    "\\u" + [HEX[n / 4096 % 16], HEX[n / 256 % 16], HEX[n / 16 % 16], HEX[n % 16]]
  }

  function CharText(c: char): string {
    var n := c as int;
    if c == '\"' then "\\\""
    else if c == '\\' then "\\\\"
    else if c == '\n' then "\\n"
    else if c == '\r' then "\\r"
    else if c == '\t' then "\\t"
    else if n == 8 then "\\b"
    else if n == 12 then "\\f"
    else if ' ' <= c <= '~' then [c]
    else if n < 0x10000 then Unit(n)
    else Unit(0xD800 + (n - 0x10000) / 1024) + Unit(0xDC00 + (n - 0x10000) % 1024)
  }

  function Chars(s: string): string {
    if s == [] then "" else Chars(s[..|s| - 1]) + CharText(s[|s| - 1])
  }

  function StringText(s: string): string {
    "\"" + Chars(s) + "\""
  }

  /** Six bits. */
  function Sextet(n: nat): char
    requires n < 64
  {
    if n < 26 then 'A' + n as char
    else if n < 52 then 'a' + (n - 26) as char
    else if n < 62 then '0' + (n - 52) as char
    else if n == 62 then '+'
    else '/'
  }

  /** Up to three bytes. */
  function Group(b: seq<nat>): (g: string)
    requires b != []
    ensures |g| == 4
  {
    var x, y, z := b[0] % 256, if |b| > 1 then b[1] % 256 else 0, if |b| > 2 then b[2] % 256 else 0;
    [Sextet(x / 4), Sextet(x % 4 * 16 + y / 16),
     if |b| > 1 then Sextet(y % 16 * 4 + z / 64) else '=', if |b| > 2 then Sextet(z % 64) else '=']
  }

  function Base64Of(b: seq<nat>): string {
    if b == [] then "" else if |b| <= 3 then Group(b) else Group(b[..3]) + Base64Of(b[3..])
  }

  // ---------------------------------------------------------------- its length

  function Digits(n: nat): nat {
    if n < 10 then 1 else Digits(n / 10) + 1
  }

  /** A character beyond the basic plane takes two escapes of six. */
  function Escaped(c: char): nat {
    if c in "\"\\\n\r\t" || c as int in {8, 12} then 2
    else if ' ' <= c <= '~' then 1
    else if c as int < 0x10000 then 6
    else 12
  }

  /** A string with its two quotes. */
  function Quoted(s: string): nat {
    if s == [] then 2 else Quoted(s[..|s| - 1]) + Escaped(s[|s| - 1])
  }

  /** Bytes in base64, with the two quotes. */
  function Encoded(bytes: nat): nat {
    4 * ((bytes + 2) / 3) + 2
  }

  lemma {:induction false} DecimalLength(n: nat)
    ensures |Decimal(n)| == Digits(n)
  {
    if n >= 10 { DecimalLength(n / 10); }
  }

  lemma CharLength(c: char)
    ensures |CharText(c)| == Escaped(c)
  {
    assert c in "\"\\\n\r\t" <==> c == '\"' || c == '\\' || c == '\n' || c == '\r' || c == '\t';
  }

  lemma {:induction false} CharsLength(s: string)
    ensures |Chars(s)| + 2 == Quoted(s)
  {
    if s != [] {
      CharsLength(s[..|s| - 1]);
      CharLength(s[|s| - 1]);
    }
  }

  lemma StringLength(s: string)
    ensures |StringText(s)| == Quoted(s)
  {
    CharsLength(s);
  }

  /** Three bytes become four characters, and so does an incomplete group at the end. */
  lemma {:induction false} Base64Length(b: seq<nat>)
    ensures |Base64Of(b)| + 2 == Encoded(|b|)
  {
    if |b| > 3 {
      Base64Length(b[3..]);
      assert (|b| + 2) / 3 == (|b[3..]| + 2) / 3 + 1;
    }
  }

  predicate Plain(s: string) {
    forall i | 0 <= i < |s| :: Escaped(s[i]) == 1
  }

  lemma {:induction false} PlainLength(s: string)
    requires Plain(s)
    ensures Quoted(s) == |s| + 2
  {
    if s != [] { PlainLength(s[..|s| - 1]); }
  }

  lemma {:induction false} PlainJoins(a: string, b: string)
    requires Plain(a) && Plain(b)
    ensures Plain(a + b)
  {
    forall i | 0 <= i < |a + b|
      ensures Escaped((a + b)[i]) == 1
    {
      if i >= |a| { assert (a + b)[i] == b[i - |a|]; }
    }
  }

  lemma SevenDigits(n: nat)
    requires 1_000_000 <= n < 10_000_000
    ensures Digits(n) == 7
  {
    assert Digits(n / 10) == 6 by {
      assert n / 10 / 10 / 10 / 10 / 10 / 10 == n / 1_000_000;
      assert Digits(n / 10 / 10 / 10 / 10 / 10 / 10) == 1;
      assert Digits(n / 10 / 10 / 10 / 10 / 10) == 2;
      assert Digits(n / 10 / 10 / 10 / 10) == 3;
      assert Digits(n / 10 / 10 / 10) == 4;
      assert Digits(n / 10 / 10) == 5;
    }
  }
}
