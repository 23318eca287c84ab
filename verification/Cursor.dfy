/** The text of a list cursor: the identifier's text in unpadded URL-safe base64 (section 5 of RFC 4648),
    as `base64.RawURLEncoding` writes and reads it. */
module Cursor {
  import opened Domain
  import Base64
  import Identifiers

  function ToUrl(c: char): char { if c == '+' then '-' else if c == '/' then '_' else c }

  function FromUrl(c: char): char { if c == '-' then '+' else if c == '_' then '/' else c }

  function Map(f: char -> char, s: string): (r: string)
    ensures |r| == |s| && forall i :: 0 <= i < |s| ==> r[i] == f(s[i])
  {
    seq(|s|, i requires 0 <= i < |s| => f(s[i]))
  }

  function Trim(s: string): string {
    if s != "" && s[|s| - 1] == '=' then Trim(s[..|s| - 1]) else s
  }

  function Pad(s: string): string {
    s + (if |s| % 4 == 1 then "===" else if |s| % 4 == 2 then "==" else if |s| % 4 == 3 then "=" else "")
  }

  function RawEncode(b: string): string
    requires Base64.IsBytes(b)
  {
    Map(ToUrl, Trim(Base64.Encode(b)))
  }

  predicate Foreign(c: char) { c == '+' || c == '/' || c == '=' }

  function RawDecode(v: string): (r: Option<string>)
    ensures r.Some? ==> Base64.IsBytes(r.value)
  {
    if exists i :: 0 <= i < |v| && Foreign(v[i]) then None
    else Base64.Quanta(Pad(Map(FromUrl, Base64.Strip(v))))
  }

  predicate Digits(s: string) { forall i :: 0 <= i < |s| ==> Base64.Value(s[i]) >= 0 }

  /** Digits and then the padding that their number calls for. */
  predicate WellPadded(e: string) { |e| % 4 == 0 && Digits(Trim(e)) && Pad(Trim(e)) == e }

  lemma PaddedTail(t: string)
    requires 2 <= |t| <= 3 && Digits(t)
    ensures WellPadded(Pad(t))
  {
    assert Base64.Value(t[|t| - 1]) >= 0;
    if |t| == 2 {
      assert Pad(t)[..3][..2] == t && Trim(Pad(t)) == Trim(Pad(t)[..3]) == Trim(t) == t;
    } else {
      assert Pad(t)[..3] == t && Trim(Pad(t)) == Trim(t) == t;
    }
  }

  lemma PaddedMore(a: string, e: string)
    requires |a| == 4 && Digits(a) && WellPadded(e)
    ensures WellPadded(a + e)
  {
    hide Base64.Value;
    TrimConcat(a, e);
    var t := Trim(e);
    assert (|a + t|) % 4 == |t| % 4;
    assert Pad(a + t) == a + Pad(t);
  }

  lemma {:induction false} EncodeShape(b: string)
    requires Base64.IsBytes(b)
    ensures WellPadded(Base64.Encode(b))
    decreases |b|
  {
    hide Base64.Digit, Base64.Value, WellPadded;
    var e := Base64.Encode(b);
    if |b| == 0 {
      assert WellPadded("") by { EmptyPadded(); }
    } else if |b| == 1 {
      var x := b[0] as int;
      Base64.ValueOfDigit(x / 4); Base64.ValueOfDigit(x % 4 * 16);
      assert e == Pad(e[..2]);
      PaddedTail(e[..2]);
    } else if |b| == 2 {
      var x, y := b[0] as int, b[1] as int;
      Base64.ValueOfDigit(x / 4); Base64.ValueOfDigit(x % 4 * 16 + y / 16); Base64.ValueOfDigit(y % 16 * 4);
      assert e == Pad(e[..3]);
      PaddedTail(e[..3]);
    } else {
      var x, y, z := b[0] as int, b[1] as int, b[2] as int;
      Base64.ValueOfDigit(x / 4); Base64.ValueOfDigit(x % 4 * 16 + y / 16);
      Base64.ValueOfDigit(y % 16 * 4 + z / 64); Base64.ValueOfDigit(z % 64);
      EncodeShape(b[3..]);
      PaddedMore([Base64.Digit(x / 4), Base64.Digit(x % 4 * 16 + y / 16), Base64.Digit(y % 16 * 4 + z / 64),
          Base64.Digit(z % 64)],
                 Base64.Encode(b[3..]));
    }
  }

  lemma EmptyPadded()
    ensures WellPadded("")
  {
  }

  lemma {:induction false} TrimConcat(a: string, b: string)
    requires |a| == 4 && Digits(a)
    ensures Trim(a + b) == a + Trim(b)
    decreases |b|
  {
    if b == "" {
      assert a + b == a && Base64.Value(a[3]) >= 0;
    } else if b[|b| - 1] == '=' {
      assert (a + b)[..|a + b| - 1] == a + b[..|b| - 1];
      TrimConcat(a, b[..|b| - 1]);
    }
  }

  lemma RawRoundTrip(b: string)
    requires Base64.IsBytes(b)
    ensures RawDecode(RawEncode(b)) == Some(b)
  {
    var t := Trim(Base64.Encode(b));
    var v := RawEncode(b);
    EncodeShape(b);
    forall i | 0 <= i < |v| ensures !Foreign(v[i]) && v[i] != '\r' && v[i] != '\n' && FromUrl(v[i]) == t[i] {
      assert Base64.Value(t[i]) >= 0;
    }
    Base64.StripKeeps(v);
    assert Map(FromUrl, v) == t;
    Base64.QuantaOfEncode(b);
  }

  const ID_LIMIT: nat := Identifiers.Pow256(16)

  lemma TextIsBytes(b: Identifiers.Bytes)
    requires Identifiers.IsId(b)
    ensures Base64.IsBytes(Identifiers.Text(b))
  {
    HexIsBytes(b);
  }

  lemma {:induction false} HexIsBytes(b: Identifiers.Bytes)
    requires Identifiers.IsBytes(b)
    ensures Base64.IsBytes(Identifiers.Hex(b))
    decreases |b|
  {
    if b != [] { HexIsBytes(b[1..]); }
  }

  function TextOf(id: Id): (s: string)
    ensures Base64.IsBytes(s)
  {
    var b := Identifiers.BigEndian(id, 16);
    TextIsBytes(b);
    Identifiers.Text(b)
  }

  /** `RawURLEncoding.EncodeToString([]byte(id.String()))`. */
  function CursorOf(id: Id): string { RawEncode(TextOf(id)) }

  /** What `list` makes of its cursor parameter. */
  function ReadCursor(v: string): Option<Id> {
    var b := RawDecode(v);
    if b.None? then None
    else
      var id := Identifiers.ParseID(b.value);
      if id.None? then None else Some(Identifiers.Value(id.value))
  }

  /** The cursor of a page names the identifier it was made from. */
  lemma CursorRoundTrip(id: Id)
    requires id < ID_LIMIT
    ensures ReadCursor(CursorOf(id)) == Some(id) && CursorOf(id) != ""
  {
    hide RawEncode, RawDecode, Identifiers.ParseID, Identifiers.Text;
    RawRoundTrip(TextOf(id));
    var b := Identifiers.BigEndian(id, 16);
    Identifiers.ParseOfText(b);
    Identifiers.BigEndianValue(id, 16);
    if CursorOf(id) == "" { EmptyDecodes(); }
  }

  lemma EmptyDecodes()
    ensures RawDecode("") == Some("")
  {
    assert Map(FromUrl, "") == "";
  }

  /** Naming an identifier by its value loses nothing: the cursor of the value is made from the text of the
      sixteen bytes themselves. */
  lemma CursorOfBytes(b: Identifiers.Bytes)
    requires Identifiers.IsId(b)
    ensures Identifiers.Value(b) < ID_LIMIT && TextOf(Identifiers.Value(b)) == Identifiers.Text(b)
    ensures ReadCursor(CursorOf(Identifiers.Value(b))) == Some(Identifiers.Value(b))
  {
    hide Identifiers.Text, RawEncode, RawDecode;
    Identifiers.ValueBound(b);
    Identifiers.ValueBigEndian(b);
    CursorRoundTrip(Identifiers.Value(b));
  }
}
