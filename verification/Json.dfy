/** The diagnostics printer's string escaper, checked against an independent reader of
    JSON strings (RFC 8259, section 7), both on raw bytes. */
module Json {
  import opened Types

  newtype Byte = x: int | 0 <= x < 256

  const QUOTE: Byte := 0x22
  const BACKSLASH: Byte := 0x5C

  /** Lower-case hexadecimal digit of n. */
  function HexDigit(n: int): (d: Byte)
    requires 0 <= n < 16
  {
    if n < 10 then (0x30 + n) as Byte else (0x61 + n - 10) as Byte
  }

  /** The bytes the escaper emits for one input byte. */
  function EscapeByte(c: Byte): seq<Byte> {
    if c == QUOTE then [BACKSLASH, QUOTE]
    else if c == BACKSLASH then [BACKSLASH, BACKSLASH]
    else if c == 0x08 then [BACKSLASH, 0x62]
    else if c == 0x0C then [BACKSLASH, 0x66]
    else if c == 0x0A then [BACKSLASH, 0x6E]
    else if c == 0x0D then [BACKSLASH, 0x72]
    else if c == 0x09 then [BACKSLASH, 0x74]
    else if c < 0x20 then
      [BACKSLASH, 0x75, 0x30, 0x30, HexDigit(c as int / 16), HexDigit(c as int % 16)]
    else [c]
  }

  function Escape(s: seq<Byte>): seq<Byte> {
    if s == [] then [] else EscapeByte(s[0]) + Escape(s[1..])
  }

  /** The value of a hexadecimal digit of either case. */
  function HexValue(d: Byte): Option<int> {
    if 0x30 <= d <= 0x39 then Some(d as int - 0x30)
    else if 0x61 <= d <= 0x66 then Some(d as int - 0x61 + 10)
    else if 0x41 <= d <= 0x46 then Some(d as int - 0x41 + 10)
    else None
  }

  /** Reads one JSON character from the front of s: its byte and how many bytes it took.
      Code points above 0xFF have no single byte and are refused here. */
  function ReadChar(s: seq<Byte>): (r: Option<(Byte, nat)>)
    ensures r.Some? ==> 1 <= r.value.1 <= |s|
  {
    if s == [] || s[0] < 0x20 || s[0] == QUOTE then None
    else if s[0] != BACKSLASH then Some((s[0], 1))
    else if |s| < 2 then None
    else if s[1] == QUOTE || s[1] == BACKSLASH || s[1] == 0x2F then Some((s[1], 2))
    else if s[1] == 0x62 then Some((0x08, 2))
    else if s[1] == 0x66 then Some((0x0C, 2))
    else if s[1] == 0x6E then Some((0x0A, 2))
    else if s[1] == 0x72 then Some((0x0D, 2))
    else if s[1] == 0x74 then Some((0x09, 2))
    else if s[1] == 0x75 && |s| >= 6 then
      match (HexValue(s[2]), HexValue(s[3]), HexValue(s[4]), HexValue(s[5]))
      case (Some(a), Some(b), Some(c), Some(d)) =>
        if a == 0 && b == 0 then Some(((16 * c + d) as Byte, 6)) else None
      case _ => None
    else None
  }

  /** Decodes a string body that must be consumed to its end. */
  function Unescape(s: seq<Byte>): Option<seq<Byte>>
    decreases |s|
  {
    if s == [] then Some([])
    else
      match ReadChar(s)
      case None => None
      case Some((c, n)) =>
        match Unescape(s[n..])
        case None => None
        case Some(rest) => Some([c] + rest)
  }

  /** A string token scanner that has just passed the opening quote: the decoded value and
      the offset just past the closing quote. */
  function ScanBody(s: seq<Byte>): Option<(seq<Byte>, nat)>
    decreases |s|
  {
    if s == [] then None
    else if s[0] == QUOTE then Some(([], 1))
    else
      match ReadChar(s)
      case None => None
      case Some((c, n)) =>
        match ScanBody(s[n..])
        case None => None
        case Some((rest, used)) => Some(([c] + rest, n + used))
  }

  function Scan(s: seq<Byte>): Option<(seq<Byte>, nat)> {
    if s == [] || s[0] != QUOTE then None
    else
      match ScanBody(s[1..])
      case None => None
      case Some((v, n)) => Some((v, n + 1))
  }

  /** One escaped byte is read back as itself, whatever follows it. */
  lemma ReadEscapedByte(c: Byte, rest: seq<Byte>)
    ensures ReadChar(EscapeByte(c) + rest) == Some((c, |EscapeByte(c)|))
    ensures EscapeByte(c)[0] != QUOTE
  {
    var e := EscapeByte(c) + rest;
    if c < 0x20 && c != 0x08 && c != 0x0C && c != 0x0A && c != 0x0D && c != 0x09 {
      assert e[..6] == EscapeByte(c);
      assert HexValue(e[2]) == Some(0) && HexValue(e[3]) == Some(0);
      assert HexValue(e[4]) == Some(c as int / 16);
      assert HexValue(e[5]) == Some(c as int % 16);
    }
  }

  /** Round trip on every byte string. */
  lemma {:induction false} UnescapeEscape(s: seq<Byte>)
    ensures Unescape(Escape(s)) == Some(s)
  {
    if s != [] {
      var e := EscapeByte(s[0]);
      ReadEscapedByte(s[0], Escape(s[1..]));
      assert (e + Escape(s[1..]))[|e|..] == Escape(s[1..]);
      UnescapeEscape(s[1..]);
      assert [s[0]] + s[1..] == s;
    }
  }

  /** The escaped form holds no control byte, which section 7 forbids inside a string. */
  lemma {:induction false} EscapeIsPrintable(s: seq<Byte>)
    ensures forall b <- Escape(s) :: b >= 0x20
  {
    if s != [] {
      EscapeIsPrintable(s[1..]);
    }
  }

  lemma {:induction false} ScanEscapedBody(s: seq<Byte>, suffix: seq<Byte>)
    ensures ScanBody(Escape(s) + [QUOTE] + suffix) == Some((s, |Escape(s)| + 1))
  {
    if s == [] {
      assert Escape(s) + [QUOTE] + suffix == [QUOTE] + suffix;
    } else {
      var e, rest := EscapeByte(s[0]), Escape(s[1..]) + [QUOTE] + suffix;
      assert Escape(s) + [QUOTE] + suffix == e + rest;
      ReadEscapedByte(s[0], rest);
      assert (e + rest)[|e|..] == rest;
      ScanEscapedBody(s[1..], suffix);
      assert [s[0]] + s[1..] == s;
    }
  }

  /** A scanner put at the opening quote of printed output stops exactly at the closing quote
      that was printed, whatever text follows, and returns the printed value. */
  lemma ScanQuoted(s: seq<Byte>, suffix: seq<Byte>)
    ensures Scan([QUOTE] + Escape(s) + [QUOTE] + suffix) == Some((s, |Escape(s)| + 2))
  {
    var body := Escape(s) + [QUOTE] + suffix;
    var t := [QUOTE] + body;
    ScanEscapedBody(s, suffix);
    assert t[1..] == body;
    assert [QUOTE] + Escape(s) + [QUOTE] + suffix == t;
  }

  /** Printed strings form a prefix code: two texts that begin with a printed string and are equal
      began with the same string and go on alike, so no two values print alike. */
  lemma QuotedIsPrefixFree(a: seq<Byte>, b: seq<Byte>, restA: seq<Byte>, restB: seq<Byte>)
    requires [QUOTE] + Escape(a) + [QUOTE] + restA == [QUOTE] + Escape(b) + [QUOTE] + restB
    ensures a == b && restA == restB
  {
    var ta, tb := [QUOTE] + Escape(a) + [QUOTE] + restA, [QUOTE] + Escape(b) + [QUOTE] + restB;
    ScanQuoted(a, restA);
    ScanQuoted(b, restB);
    assert ta[|Escape(a)| + 2..] == restA && tb[|Escape(b)| + 2..] == restB;
  }

  lemma {:induction false} EscapeSnoc(s: seq<Byte>, c: Byte)
    ensures Escape(s + [c]) == Escape(s) + EscapeByte(c)
  {
    if s == [] {
      assert s + [c] == [c];
      assert Escape([c]) == EscapeByte(c) + Escape([]);
    } else {
      EscapeSnoc(s[1..], c);
      assert (s + [c])[1..] == s[1..] + [c];
    }
  }

  /** The escaper's loop: one branch for each byte with a short escape, one for other control
      bytes, and one for the rest. */
  method EscapeJsonString(input: seq<Byte>) returns (out: seq<Byte>)
    ensures out == Escape(input)
    ensures Unescape(out) == Some(input)
  {
    out := [];
    for i := 0 to |input|
      invariant out == Escape(input[..i])
    {
      var c := input[i];
      if c == QUOTE { out := out + [BACKSLASH, QUOTE]; }
      else if c == BACKSLASH { out := out + [BACKSLASH, BACKSLASH]; }
      else if c == 0x08 { out := out + [BACKSLASH, 0x62]; }
      else if c == 0x0C { out := out + [BACKSLASH, 0x66]; }
      else if c == 0x0A { out := out + [BACKSLASH, 0x6E]; }
      else if c == 0x0D { out := out + [BACKSLASH, 0x72]; }
      else if c == 0x09 { out := out + [BACKSLASH, 0x74]; }
      else if c < 0x20 {
        out := out + [BACKSLASH, 0x75, 0x30, 0x30, HexDigit(c as int / 16), HexDigit(c as int % 16)];
      } else {
        out := out + [c];
      }
      EscapeSnoc(input[..i], c);
      assert input[..i + 1] == input[..i] + [c];
    }
    assert input[..|input|] == input;
    UnescapeEscape(input);
  }

  /** An output string stream. */
  class OutStream {
    var buf: seq<Byte>

    constructor ()
      ensures buf == []
    {
      buf := [];
    }

    /** Appends s as a JSON string: scanning from the old end of the buffer gives s back and
        stops at the new end. */
    method AppendQuoted(s: seq<Byte>)
      modifies this
      ensures buf == old(buf) + [QUOTE] + Escape(s) + [QUOTE]
      ensures Scan(buf[|old(buf)|..]) == Some((s, |buf| - |old(buf)|))
    {
      var e := EscapeJsonString(s);
      ghost var start := |buf|;
      buf := buf + [QUOTE] + e + [QUOTE];
      ScanQuoted(s, []);
      assert buf[start..] == [QUOTE] + Escape(s) + [QUOTE] + [];
    }
  }
}
