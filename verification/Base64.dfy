/** Standard base64 (section 4 of RFC 4648) as `encoding/base64` reads and writes it. A Go string is a
    sequence of bytes; here each byte is a char below 256. */
module Base64 {
  import opened Domain

  predicate IsBytes(s: string) { forall i :: 0 <= i < |s| ==> s[i] as int < 256 }

  function Digit(v: int): char
    requires 0 <= v < 64
  {
    if v < 26 then ('A' as int + v) as char
    else if v < 52 then ('a' as int + v - 26) as char
    else if v < 62 then ('0' as int + v - 52) as char
    else if v == 62 then '+' else '/'
  }

  /** The value of a digit, -1 for any other character. */
  function Value(c: char): (v: int)
    ensures -1 <= v < 64
    ensures v >= 0 ==> Digit(v) == c
  {
    if 'A' <= c <= 'Z' then c as int - 'A' as int
    else if 'a' <= c <= 'z' then c as int - 'a' as int + 26
    else if '0' <= c <= '9' then c as int - '0' as int + 52
    else if c == '+' then 62 else if c == '/' then 63 else -1
  }

  lemma ValueOfDigit(v: int)
    requires 0 <= v < 64
    ensures Value(Digit(v)) == v && Digit(v) != '=' && Digit(v) != '\r' && Digit(v) != '\n'
  {
  }

  function Encode(b: string): string
    requires IsBytes(b)
  {
    if |b| == 0 then ""
    else if |b| == 1 then var x := b[0] as int; [Digit(x / 4), Digit(x % 4 * 16), '=', '=']
    else if |b| == 2 then
      var x, y := b[0] as int, b[1] as int;
      [Digit(x / 4), Digit(x % 4 * 16 + y / 16), Digit(y % 16 * 4), '=']
    else
      var x, y, z := b[0] as int, b[1] as int, b[2] as int;
      [Digit(x / 4), Digit(x % 4 * 16 + y / 16), Digit(y % 16 * 4 + z / 64), Digit(z % 64)] + Encode(b[3..])
  }

  /** The decoder skips line breaks wherever they stand. */
  function Strip(s: string): string {
    if s == "" then "" else if s[0] == '\r' || s[0] == '\n' then Strip(s[1..]) else [s[0]] + Strip(s[1..])
  }

  /** The first byte of a quantum; the bits that do not fill a byte are dropped, as the non-strict
      decoder drops them. */
  function Byte0(a: int, b: int): char
    requires 0 <= a < 64 && 0 <= b < 64
  {
    (a * 4 + b / 16) as char
  }

  function Byte1(b: int, c: int): char
    requires 0 <= b < 64 && 0 <= c < 64
  {
    (b % 16 * 16 + c / 4) as char
  }

  function Byte2(c: int, d: int): char
    requires 0 <= c < 64 && 0 <= d < 64
  {
    (c % 4 * 64 + d) as char
  }

  function Quanta(t: string): (r: Option<string>)
    ensures r.Some? ==> IsBytes(r.value)
    decreases |t|
  {
    if t == "" then Some("")
    else if |t| < 4 || Value(t[0]) < 0 || Value(t[1]) < 0 then None
    else if |t| == 4 && t[2] == '=' then
      if t[3] == '=' then Some([Byte0(Value(t[0]), Value(t[1]))]) else None
    else if Value(t[2]) < 0 then None
    else if |t| == 4 && t[3] == '=' then
      Some([Byte0(Value(t[0]), Value(t[1])), Byte1(Value(t[1]), Value(t[2]))])
    else if Value(t[3]) < 0 then None
    else
      var rest := Quanta(t[4..]);
      if rest.None? then None
      else Some([Byte0(Value(t[0]), Value(t[1])), Byte1(Value(t[1]), Value(t[2])),
          Byte2(Value(t[2]), Value(t[3]))] + rest.value)
  }

  /** `StdEncoding.DecodeString`. */
  function Decode(s: string): (r: Option<string>)
    ensures r.Some? ==> IsBytes(r.value)
  {
    Quanta(Strip(s))
  }

  lemma {:induction false} StripConcat(a: string, b: string)
    ensures Strip(a + b) == Strip(a) + Strip(b)
  {
    if a == "" {
      assert a + b == b;
    } else {
      assert (a + b)[1..] == a[1..] + b;
      StripConcat(a[1..], b);
    }
  }

  lemma {:induction false} StripKeeps(s: string)
    requires forall i :: 0 <= i < |s| ==> s[i] != '\r' && s[i] != '\n'
    ensures Strip(s) == s
  {
    if s != "" { StripKeeps(s[1..]); }
  }

  lemma {:induction false} EncodeIsPrintable(b: string)
    requires IsBytes(b)
    ensures forall i :: 0 <= i < |Encode(b)| ==> Encode(b)[i] != '\r' && Encode(b)[i] != '\n'
    decreases |b|
  {
    if |b| >= 3 { EncodeIsPrintable(b[3..]); }
  }

  lemma DigitsHoldBytes(x: int, y: int, z: int)
    requires 0 <= x < 256 && 0 <= y < 256 && 0 <= z < 256
    ensures Byte0(x / 4, x % 4 * 16 + y / 16) as int == x && Byte0(x / 4, x % 4 * 16) as int == x
    ensures Byte1(x % 4 * 16 + y / 16, y % 16 * 4 + z / 64) as int == y
          && Byte1(x % 4 * 16 + y / 16, y % 16 * 4) as int == y
    ensures Byte2(y % 16 * 4 + z / 64, z % 64) as int == z
  {
  }

  lemma {:induction false} QuantaOfEncode(b: string)
    requires IsBytes(b)
    ensures Quanta(Encode(b)) == Some(b)
    decreases |b|
  {
    hide Digit, Value, Byte0, Byte1, Byte2;
    if |b| == 1 {
      var x := b[0] as int;
      DigitsHoldBytes(x, 0, 0);
      ValueOfDigit(x / 4); ValueOfDigit(x % 4 * 16);
      assert b == [b[0]];
    } else if |b| == 2 {
      var x, y := b[0] as int, b[1] as int;
      DigitsHoldBytes(x, y, 0);
      ValueOfDigit(x / 4); ValueOfDigit(x % 4 * 16 + y / 16); ValueOfDigit(y % 16 * 4);
      assert b == [b[0], b[1]];
    } else if |b| >= 3 {
      var x, y, z := b[0] as int, b[1] as int, b[2] as int;
      DigitsHoldBytes(x, y, z);
      ValueOfDigit(x / 4); ValueOfDigit(x % 4 * 16 + y / 16); ValueOfDigit(y % 16 * 4 + z / 64); ValueOfDigit(z % 64);
      QuantaOfEncode(b[3..]);
      assert Encode(b)[4..] == Encode(b[3..]);
      assert b == [b[0], b[1], b[2]] + b[3..];
    }
  }

  /** Decoding undoes encoding. */
  lemma RoundTrip(b: string)
    requires IsBytes(b)
    ensures Decode(Encode(b)) == Some(b)
  {
    EncodeIsPrintable(b);
    StripKeeps(Encode(b));
    QuantaOfEncode(b);
  }

  /** Line breaks anywhere in a spelling do not change what it decodes to. */
  lemma LineBreaksAreIgnored(a: string, b: string, breaks: string)
    requires forall i :: 0 <= i < |breaks| ==> breaks[i] == '\r' || breaks[i] == '\n'
    ensures Decode(a + breaks + b) == Decode(a + b)
  {
    StripConcat(a + breaks, b);
    StripConcat(a, breaks);
    StripConcat(a, b);
    OnlyBreaks(breaks);
    assert Strip(a + breaks + b) == Strip(a) + Strip(b) == Strip(a + b);
  }

  lemma {:induction false} OnlyBreaks(breaks: string)
    requires forall i :: 0 <= i < |breaks| ==> breaks[i] == '\r' || breaks[i] == '\n'
    ensures Strip(breaks) == ""
  {
    if breaks != "" { OnlyBreaks(breaks[1..]); }
  }

  /** Encoding does not undo decoding: the bits below the last byte are free, so one byte has sixteen
      spellings. */
  lemma SpellingsAreNotUnique()
    ensures Decode("QQ==") == Decode("QR==") == Some("A") && Encode("A") == "QQ=="
  {
    assert Strip("QQ==") == "QQ==" && Strip("QR==") == "QR==" by { StripKeeps("QQ=="); StripKeeps("QR=="); }
  }
}
