/** JSON strings as the canonical printer writes them, and the reader that undoes it. */
module JsonText {
  datatype Option<+T> = None | Some(value: T)

  // ----------------------------------------------------------------- hexadecimal

  function HexDigit(n: nat): (c: char)
    requires n < 16
    ensures HexValue(c) == Some(n) && '0' <= c <= 'f'
  {
    if n < 10 then ('0' as nat + n) as char else ('a' as nat + (n - 10)) as char
  }

  function HexValue(c: char): Option<nat> {
    if '0' <= c <= '9' then Some(c as nat - '0' as nat)
    else if 'a' <= c <= 'f' then Some(c as nat - 'a' as nat + 10)
    else None
  }

  /** `\uXXXX` of one UTF-16 unit. */
  function Unit(n: nat): (s: string)
    requires n < 0x10000
    ensures |s| == 6
  {
    ['\\', 'u', HexDigit(n / 4096), HexDigit(n / 256 % 16), HexDigit(n / 16 % 16), HexDigit(n % 16)]
  }

  function ReadUnit(t: string): Option<nat> {
    if |t| < 6 || t[0] != '\\' || t[1] != 'u' then None
    else
      var a, b, c, d := HexValue(t[2]), HexValue(t[3]), HexValue(t[4]), HexValue(t[5]);
      if a.None? || b.None? || c.None? || d.None? then None
      else Some(a.value * 4096 + b.value * 256 + c.value * 16 + d.value)
  }

  lemma {:induction false} Nibbles(n: nat)
    requires n < 0x10000
    ensures n / 4096 < 16 && n == n / 4096 * 4096 + n / 256 % 16 * 256 + n / 16 % 16 * 16 + n % 16
  {
    var tens := n / 16;
    var hundreds := tens / 16;
    assert n == 16 * tens + n % 16 && tens == 16 * hundreds + tens % 16;
    assert n / 256 == hundreds && n / 4096 == hundreds / 16;
    assert hundreds == 16 * (hundreds / 16) + hundreds % 16;
  }

  lemma {:induction false} UnitIsRead(n: nat, rest: string)
    requires n < 0x10000
    ensures ReadUnit(Unit(n) + rest) == Some(n)
    ensures (Unit(n) + rest)[6..] == rest
  {
    Nibbles(n);
    var t := Unit(n) + rest;
    assert t[0] == '\\' && t[1] == 'u';
    assert t[2] == HexDigit(n / 4096) && t[3] == HexDigit(n / 256 % 16);
    assert t[4] == HexDigit(n / 16 % 16) && t[5] == HexDigit(n % 16);
  }

  // --------------------------------------------------------------------- escapes

  predicate Control(c: char) { c as nat < 0x20 || c as nat == 0x7f }

  /** The short escapes, as the letter after the backslash. */
  function Short(c: char): Option<char> {
    if c == '"' then Some('"')
    else if c == '\\' then Some('\\')
    else if c as nat == 8 then Some('b')
    else if c as nat == 12 then Some('f')
    else if c == '\n' then Some('n')
    else if c == '\r' then Some('r')
    else if c == '\t' then Some('t')
    else None
  }

  function LongOf(letter: char): Option<char> {
    match letter
    case '"' => Some('"')
    case '\\' => Some('\\')
    case 'b' => Some(8 as char)
    case 'f' => Some(12 as char)
    case 'n' => Some('\n')
    case 'r' => Some('\r')
    case 't' => Some('\t')
    case _ => None
  }

  /** One character: a short escape, a control or non-ASCII character as UTF-16 units, or itself. */
  function Escape(c: char): (s: string)
    ensures |s| > 0 && s[0] != '"'
  {
    var n := c as nat;
    if Short(c).Some? then ['\\', Short(c).value]
    else if n < 0x80 then (if Control(c) then Unit(n) else [c])
    else if n < 0x10000 then Unit(n)
    else Unit(0xD800 + (n - 0x10000) / 0x400) + Unit(0xDC00 + (n - 0x10000) % 0x400)
  }

  function EscapeAll(s: string): string { if |s| == 0 then "" else Escape(s[0]) + EscapeAll(s[1..]) }

  function Quoted(s: string): string { "\"" + EscapeAll(s) + "\"" }

  // ---------------------------------------------------------------------- reading

  /** One character off the front. */
  function ReadChar(t: string): (r: Option<(char, string)>)
    ensures r.Some? ==> |r.value.1| < |t|
  {
    if |t| == 0 || t[0] == '"' then None
    else if t[0] != '\\' then (if Control(t[0]) || t[0] as nat >= 0x80 then None else Some((t[0], t[1..])))
    else if |t| >= 2 && LongOf(t[1]).Some? then Some((LongOf(t[1]).value, t[2..]))
    else
      var high := ReadUnit(t);
      if high.None? || 0xDC00 <= high.value < 0xE000 || high.value >= 0x10000 then None
      else if high.value < 0xD800 || high.value >= 0xE000 then Some((high.value as char, t[6..]))
      else
        var low := ReadUnit(t[6..]);
        if low.None? || low.value < 0xDC00 || low.value >= 0xE000 then None
        else Some(((0x10000 + (high.value - 0xD800) * 0x400 + (low.value - 0xDC00)) as char, t[6..][6..]))
  }

  /** A string body up to its closing quote. */
  function ReadText(t: string): (r: Option<(string, string)>)
    ensures r.Some? ==> |r.value.1| < |t|
    decreases |t|
  {
    if |t| == 0 then None
    else if t[0] == '"' then Some(("", t[1..]))
    else
      var first := ReadChar(t);
      if first.None? then None
      else
        var more := ReadText(first.value.1);
        if more.None? then None else Some(([first.value.0] + more.value.0, more.value.1))
  }

  lemma {:induction false} ShortIsRead(c: char, rest: string)
    requires Short(c).Some?
    ensures ReadChar(Escape(c) + rest) == Some((c, rest))
  {
    assert (Escape(c) + rest)[2..] == rest;
  }

  lemma {:induction false} PairSplits(n: nat)
    requires 0x10000 <= n < 0x110000
    ensures n - 0x10000 == (n - 0x10000) / 0x400 * 0x400 + (n - 0x10000) % 0x400
    ensures (n - 0x10000) / 0x400 < 0x400
  {
  }

  /** A surrogate pair at the front of a text is read as the character it stands for. */
  lemma {:induction false} PairValue(t: string, high: nat, low: nat)
    requires ReadUnit(t) == Some(0xD800 + high) && high < 0x400
    requires ReadUnit(t[6..]) == Some(0xDC00 + low) && low < 0x400
    ensures ReadChar(t) == Some(((0x10000 + high * 0x400 + low) as char, t[6..][6..]))
  {
    assert t[1] == 'u' && LongOf(t[1]).None?;
  }

  lemma {:induction false} PairIsRead(c: char, rest: string)
    requires c as nat >= 0x10000
    ensures ReadChar(Escape(c) + rest) == Some((c, rest))
  {
    var n := c as nat;
    PairSplits(n);
    var high, low := (n - 0x10000) / 0x400, (n - 0x10000) % 0x400;
    var text := Unit(0xD800 + high) + (Unit(0xDC00 + low) + rest);
    assert Escape(c) + rest == text;
    UnitIsRead(0xD800 + high, Unit(0xDC00 + low) + rest);
    UnitIsRead(0xDC00 + low, rest);
    assert text[6..] == Unit(0xDC00 + low) + rest && text[6..][6..] == rest;
    PairValue(text, high, low);
    assert 0x10000 + high * 0x400 + low == n;
  }

  /** Reading undoes escaping, character by character. */
  lemma {:induction false} CharIsRead(c: char, rest: string)
    ensures ReadChar(Escape(c) + rest) == Some((c, rest))
  {
    var n := c as nat;
    if Short(c).Some? {
      ShortIsRead(c, rest);
    } else if n >= 0x10000 {
      PairIsRead(c, rest);
    } else if n < 0x80 && !Control(c) {
      assert ([c] + rest)[1..] == rest;
    } else {
      UnitIsRead(n, rest);
    }
  }

  /** Reading undoes quoting, whatever follows the closing quote. */
  lemma {:induction false} TextIsRead(s: string, rest: string)
    ensures ReadText(EscapeAll(s) + "\"" + rest) == Some((s, rest))
    decreases |s|
  {
    if |s| == 0 {
      assert (EscapeAll(s) + "\"" + rest)[1..] == rest;
    } else {
      var after := EscapeAll(s[1..]) + "\"" + rest;
      assert EscapeAll(s) + "\"" + rest == Escape(s[0]) + after;
      CharIsRead(s[0], after);
      TextIsRead(s[1..], rest);
      assert [s[0]] + s[1..] == s;
    }
  }

  /** Everything the printer writes between the quotes is printable ASCII. */
  lemma {:induction false} OnlyPrintable(s: string)
    ensures forall i | 0 <= i < |Quoted(s)| :: 0x20 <= Quoted(s)[i] as nat < 0x7f
  {
    if |s| > 0 {
      OnlyPrintable(s[1..]);
      var inner := EscapeAll(s[1..]);
      forall i | 0 <= i < |inner| ensures 0x20 <= inner[i] as nat < 0x7f {
        assert Quoted(s[1..])[i + 1] == inner[i];
      }
      EscapeIsPrintable(s[0]);
    }
  }

  lemma {:induction false} UnitIsPrintable(n: nat)
    requires n < 0x10000
    ensures forall i | 0 <= i < 6 :: 0x20 <= Unit(n)[i] as nat < 0x7f
  {
  }

  lemma {:induction false} EscapeIsPrintable(c: char)
    ensures forall i | 0 <= i < |Escape(c)| :: 0x20 <= Escape(c)[i] as nat < 0x7f
  {
    var n := c as nat;
    if Short(c).None? && (n >= 0x80 || Control(c)) {
      if n < 0x10000 {
        UnitIsPrintable(n);
      } else {
        UnitIsPrintable(0xD800 + (n - 0x10000) / 0x400);
        UnitIsPrintable(0xDC00 + (n - 0x10000) % 0x400);
      }
    }
  }
}
