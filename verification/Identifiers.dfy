/** `domain.ID`: sixteen bytes, their text form and their order. */
module Identifiers {
  import opened Domain

  type Bytes = seq<int>

  predicate IsBytes(b: Bytes) { forall i :: 0 <= i < |b| ==> 0 <= b[i] < 256 }

  predicate IsId(b: Bytes) { |b| == 16 && IsBytes(b) }

  // ---- order ------------------------------------------------------------------------------------------

  function Pow256(k: nat): (p: nat)
    ensures p > 0
  {
    if k == 0 then 1 else 256 * Pow256(k - 1)
  }

  /** The big-endian value of the bytes; the other modules name an identifier by it. */
  function Value(b: Bytes): (v: nat)
    requires IsBytes(b)
  {
    if b == [] then 0 else Value(b[..|b| - 1]) * 256 + b[|b| - 1]
  }

  function BigEndian(v: nat, k: nat): (b: Bytes)
    ensures |b| == k && IsBytes(b)
  {
    if k == 0 then [] else BigEndian(v / 256, k - 1) + [v % 256]
  }

  lemma {:induction false} ValueBound(b: Bytes)
    requires IsBytes(b)
    ensures Value(b) < Pow256(|b|)
    decreases |b|
  {
    if b != [] { ValueBound(b[..|b| - 1]); }
  }

  lemma {:induction false} BigEndianValue(v: nat, k: nat)
    requires v < Pow256(k)
    ensures Value(BigEndian(v, k)) == v
    decreases k
  {
    if k > 0 {
      BigEndianValue(v / 256, k - 1);
      assert BigEndian(v, k)[..k - 1] == BigEndian(v / 256, k - 1);
    }
  }

  lemma LastByte(v: nat, byte: int)
    requires 0 <= byte < 256
    ensures (v * 256 + byte) / 256 == v && (v * 256 + byte) % 256 == byte
  {
  }

  lemma {:induction false} ValueBigEndian(b: Bytes)
    requires IsBytes(b)
    ensures BigEndian(Value(b), |b|) == b
    decreases |b|
  {
    if b != [] {
      var rest, last := b[..|b| - 1], b[|b| - 1];
      ValueBigEndian(rest);
      assert b == rest + [last];
      LastByte(Value(rest), last);
      assert BigEndian(Value(b), |b|) == BigEndian(Value(rest), |rest|) + [last] by { hide Value; }
    }
  }

  /** The order of BINARY columns: byte by byte from the front. */
  predicate Less(a: Bytes, b: Bytes)
    requires |a| == |b|
    decreases |a|
  {
    a != [] && (a[0] < b[0] || (a[0] == b[0] && Less(a[1..], b[1..])))
  }

  lemma {:induction false} ValueFront(b: Bytes)
    requires IsBytes(b) && b != []
    ensures Value(b) == b[0] * Pow256(|b| - 1) + Value(b[1..])
    decreases |b|
  {
    if |b| > 1 {
      var c := b[..|b| - 1];
      ValueFront(c);
      assert c[1..] == b[1..][..|b| - 2];
      var p, v := Pow256(|c| - 1), Value(c[1..]);
      assert Value(b) == (b[0] * p + v) * 256 + b[|b| - 1] && Pow256(|b| - 1) == 256 * p
          && Value(b[1..]) == v * 256 + b[|b| - 1];
      hide Pow256, Value;
      assert (b[0] * p + v) * 256 == b[0] * (256 * p) + v * 256;
    } else {
      assert b[..0] == [] && b[1..] == [];
    }
  }

  lemma Scaled(x: int, y: int, p: int)
    requires x < y && p > 0
    ensures x * p + p <= y * p
  {
    assert y * p == x * p + p + (y - x - 1) * p;
    assert (y - x - 1) * p >= 0;
  }

  /** Identifiers are ordered in the database as their values are. */
  lemma {:induction false} LessIsLess(a: Bytes, b: Bytes)
    requires |a| == |b| && IsBytes(a) && IsBytes(b)
    ensures Less(a, b) <==> Value(a) < Value(b)
    decreases |a|
  {
    if a != [] {
      LessIsLess(a[1..], b[1..]);
      ValueFront(a); ValueFront(b);
      ValueBound(a[1..]); ValueBound(b[1..]);
      if a[0] < b[0] { Scaled(a[0], b[0], Pow256(|a| - 1)); }
      if b[0] < a[0] { Scaled(b[0], a[0], Pow256(|a| - 1)); }
    }
  }

  // ---- NewID ------------------------------------------------------------------------------------------

  const MS_LIMIT := 0x1_0000_0000_0000

  /** `NewID` with the random bytes and the millisecond clock as inputs. */
  method NewID(random: Bytes, unixMilli: int) returns (id: Bytes)
    requires IsId(random)
    ensures IsId(id)
    ensures Value(id[..6]) == unixMilli % MS_LIMIT
    ensures id[6] / 16 == 7 && id[6] % 16 == random[6] % 16 && id[8] / 64 == 2 && id[8] % 64 == random[8] % 64
    ensures id[7] == random[7] && id[9..] == random[9..]
  {
    var a := new int[16](i requires 0 <= i < 16 => random[i]);
    var ms := unixMilli % 0x1_0000_0000_0000_0000;
    var i := 5;
    while i >= 0
      invariant -1 <= i <= 5 && ms >= 0
      invariant IsBytes(a[..]) && forall j :: 6 <= j < 16 ==> a[j] == random[j]
      invariant ms * Pow256(5 - i) + Value(a[i + 1..6]) == unixMilli % 0x1_0000_0000_0000_0000
      decreases i
    {
      hide Pow256, Value;
      ByteOut(ms, a[i + 1..6]);
      a[i] := ms % 256;
      assert a[i..6] == [ms % 256] + a[i + 1..6];
      ms := ms / 256;
      i := i - 1;
    }
    ValueBound(a[..6]);
    assert Pow256(6) == MS_LIMIT by { assert Pow256(3) == 16777216; }
    assert a[0..6] == a[..6];
    LowBits(ms, Value(a[..6]), unixMilli);
    a[6] := a[6] % 16 + 0x70;
    a[8] := a[8] % 64 + 0x80;
    id := a[..];
    assert id[..6] == a[..6];
  }

  /** Writing one byte in front moves it from the clock to the bytes. */
  lemma ByteOut(ms: nat, tail: Bytes)
    requires IsBytes(tail)
    ensures ms / 256 * Pow256(|tail| + 1) + Value([ms % 256] + tail) == ms * Pow256(|tail|) + Value(tail)
  {
    var b, p := [ms % 256] + tail, Pow256(|tail|);
    assert Pow256(|tail| + 1) == 256 * p;
    ValueFront(b);
    hide Pow256, Value;
    assert b[1..] == tail && Value(b) == ms % 256 * p + Value(tail);
    Shifted(ms, p);
  }

  lemma Shifted(ms: nat, p: nat)
    ensures ms * p == ms / 256 * (256 * p) + ms % 256 * p
  {
    var q, r := ms / 256, ms % 256;
    assert ms == q * 256 + r;
    assert (q * 256 + r) * p == q * 256 * p + r * p;
    assert q * 256 * p == q * (256 * p);
  }

  lemma LowBits(ms: nat, low: nat, t: int)
    requires ms * 0x1_0000_0000_0000 + low == t % 0x1_0000_0000_0000_0000 && low < 0x1_0000_0000_0000
    ensures low == t % 0x1_0000_0000_0000
  {
  }

  /** An identifier made in an earlier millisecond comes first, whatever the random bytes are. */
  lemma OrderFollowsTime(a: Bytes, b: Bytes, ta: int, tb: int)
    requires IsId(a) && IsId(b) && Value(a[..6]) == ta % MS_LIMIT && Value(b[..6]) == tb % MS_LIMIT
    requires 0 <= ta < tb < MS_LIMIT
    ensures Less(a, b)
  {
    LessIsLess(a[..6], b[..6]);
    PrefixLess(a, b, 6);
  }

  lemma {:induction false} PrefixLess(a: Bytes, b: Bytes, k: nat)
    requires |a| == |b| && k <= |a| && Less(a[..k], b[..k])
    ensures Less(a, b)
    decreases k
  {
    if a[0] == b[0] {
      assert a[1..][..k - 1] == a[..k][1..] && b[1..][..k - 1] == b[..k][1..];
      PrefixLess(a[1..], b[1..], k - 1);
    }
  }

  // ---- text -------------------------------------------------------------------------------------------

  function HexDigit(v: int): char
    requires 0 <= v < 16
  {
    if v < 10 then ('0' as int + v) as char else ('a' as int + v - 10) as char
  }

  function HexValue(c: char): (v: int)
    ensures -1 <= v < 16
  {
    if '0' <= c <= '9' then c as int - '0' as int
    else if 'a' <= c <= 'f' then c as int - 'a' as int + 10
    else if 'A' <= c <= 'F' then c as int - 'A' as int + 10
    else -1
  }

  function Hex(b: Bytes): (s: string)
    requires IsBytes(b)
    ensures |s| == 2 * |b|
  {
    if b == [] then "" else [HexDigit(b[0] / 16), HexDigit(b[0] % 16)] + Hex(b[1..])
  }

  /** `hex.DecodeString`. */
  function Unhex(s: string): (r: Option<Bytes>)
    ensures r.Some? ==> IsBytes(r.value) && |s| == 2 * |r.value|
  {
    if s == "" then Some([])
    else if |s| == 1 || HexValue(s[0]) < 0 || HexValue(s[1]) < 0 then None
    else
      var rest := Unhex(s[2..]);
      if rest.None? then None else Some([HexValue(s[0]) * 16 + HexValue(s[1])] + rest.value)
  }

  function Text(id: Bytes): (s: string)
    requires IsId(id)
    ensures |s| == 36
  {
    var h := Hex(id);
    h[..8] + "-" + h[8..12] + "-" + h[12..16] + "-" + h[16..20] + "-" + h[20..]
  }

  /** `strings.ReplaceAll(s, "-", "")`. */
  function Undash(s: string): string {
    if s == "" then "" else if s[0] == '-' then Undash(s[1..]) else [s[0]] + Undash(s[1..])
  }

  predicate Dashed(s: string) { |s| == 36 && s[8] == '-' && s[13] == '-' && s[18] == '-' && s[23] == '-' }

  function ParseID(s: string): (r: Option<Bytes>)
    ensures r.Some? ==> IsId(r.value)
  {
    if !Dashed(s) then None
    else
      var b := Unhex(Undash(s));
      if b.None? || |b.value| != 16 then None else b
  }

  /** The case of hexadecimal digits. */
  function Fold(c: char): char { if 'A' <= c <= 'F' then (c as int + 32) as char else c }

  function FoldAll(s: string): (r: string)
    ensures |r| == |s| && forall i :: 0 <= i < |s| ==> r[i] == Fold(s[i])
  {
    seq(|s|, i requires 0 <= i < |s| => Fold(s[i]))
  }

  lemma {:induction false} UnhexIff(s: string, b: Bytes)
    requires IsBytes(b)
    ensures Unhex(s) == Some(b) <==> FoldAll(s) == Hex(b)
    decreases |s|
  {
    if |s| >= 2 && b != [] {
      UnhexIff(s[2..], b[1..]);
      assert FoldAll(s) == [Fold(s[0]), Fold(s[1])] + FoldAll(s[2..]);
      assert FoldAll(s) == Hex(b) <==>
          Fold(s[0]) == HexDigit(b[0] / 16) && Fold(s[1]) == HexDigit(b[0] % 16)
          && FoldAll(s[2..]) == Hex(b[1..]) by {
        assert FoldAll(s)[2..] == FoldAll(s[2..]) && Hex(b)[2..] == Hex(b[1..]);
      }
      DigitIff(s[0], s[1], b[0]);
      assert b == [b[0]] + b[1..];
      hide HexValue, HexDigit, Fold;
      var rest := Unhex(s[2..]);
      if rest.Some? && HexValue(s[0]) >= 0 && HexValue(s[1]) >= 0 {
        var x := HexValue(s[0]) * 16 + HexValue(s[1]);
        assert Unhex(s) == Some([x] + rest.value);
        assert ([x] + rest.value)[0] == x && ([x] + rest.value)[1..] == rest.value;
        assert Unhex(s) == Some(b) <==> x == b[0] && rest.value == b[1..];
      } else {
        assert Unhex(s) == None;
      }
    } else if |s| >= 2 {
      assert Unhex(s) != Some(b);
    }
  }

  lemma DigitIff(c: char, d: char, x: int)
    requires 0 <= x < 256
    ensures Fold(c) == HexDigit(x / 16) && Fold(d) == HexDigit(x % 16)
          <==> HexValue(c) >= 0 && HexValue(d) >= 0 && HexValue(c) * 16 + HexValue(d) == x
  {
  }

  lemma {:induction false} UndashConcat(a: string, b: string)
    ensures Undash(a + b) == Undash(a) + Undash(b)
  {
    if a == "" {
      assert a + b == b;
    } else {
      assert (a + b)[1..] == a[1..] + b;
      UndashConcat(a[1..], b);
    }
  }

  lemma {:induction false} UndashLength(s: string)
    ensures |Undash(s)| <= |s|
    ensures |Undash(s)| == |s| <==> '-' !in s
    ensures '-' !in s ==> Undash(s) == s
  {
    if s != "" {
      UndashLength(s[1..]);
      assert s == [s[0]] + s[1..];
    }
  }

  function Groups(s: string): string
    requires |s| == 36
  {
    s[..8] + s[9..13] + s[14..18] + s[19..23] + s[24..]
  }

  lemma UndashGroups(s: string)
    requires Dashed(s)
    ensures Undash(s) == Undash(Groups(s))
  {
    var a, b, c, d, e := s[..8], s[9..13], s[14..18], s[19..23], s[24..];
    assert s == a + "-" + b + "-" + c + "-" + d + "-" + e;
    UndashConcat(a + "-" + b + "-" + c + "-" + d + "-", e);
    UndashConcat(a + "-" + b + "-" + c + "-" + d, "-");
    UndashConcat(a + "-" + b + "-" + c + "-", d);
    UndashConcat(a + "-" + b + "-" + c, "-");
    UndashConcat(a + "-" + b + "-", c);
    UndashConcat(a + "-" + b, "-");
    UndashConcat(a + "-", b);
    UndashConcat(a, "-");
    assert Undash("-") == "";
    UndashConcat(a + b + c + d, e);
    UndashConcat(a + b + c, d);
    UndashConcat(a + b, c);
    UndashConcat(a, b);
  }

  /** A text parses to an identifier exactly when it is that identifier's text, up to the case of digits. */
  lemma ParseIff(s: string, id: Bytes)
    requires IsId(id)
    ensures ParseID(s) == Some(id) <==> FoldAll(s) == Text(id)
  {
    hide Hex, Unhex;
    var h := Hex(id);
    HexHasNoDash(id);
    if FoldAll(s) == Text(id) {
      assert FoldAll(s)[8] == '-' && FoldAll(s)[13] == '-' && FoldAll(s)[18] == '-' && FoldAll(s)[23] == '-';
      assert Dashed(s);
    }
    if Dashed(s) {
      var g := Groups(s);
      UndashGroups(s);
      UndashLength(g);
      UnhexIff(Undash(g), id);
      assert FoldAll(s) == Text(id) <==> FoldAll(g) == h by { FoldGroups(s, id); }
      if '-' in g {
        var i :| 0 <= i < |g| && g[i] == '-';
        assert FoldAll(g)[i] == '-';
      }
    }
  }

  lemma FoldGroups(s: string, id: Bytes)
    requires Dashed(s) && IsId(id)
    ensures FoldAll(s) == Text(id) <==> FoldAll(Groups(s)) == Hex(id)
  {
    hide Hex;
    var f, g := FoldAll(s), Groups(s);
    assert FoldAll(g) == Groups(f);
    assert f == f[..8] + "-" + f[9..13] + "-" + f[14..18] + "-" + f[19..23] + "-" + f[24..];
    var h := Hex(id);
    assert h == h[..8] + h[8..12] + h[12..16] + h[16..20] + h[20..];
    if f == Text(id) {
      assert f[..8] == h[..8] && f[9..13] == h[8..12] && f[14..18] == h[12..16] && f[19..23] == h[16..20]
          && f[24..] == h[20..];
    }
    if Groups(f) == Hex(id) {
      assert h[..8] == f[..8] && h[8..12] == f[9..13] && h[12..16] == f[14..18] && h[16..20] == f[19..23]
          && h[20..] == f[24..];
    }
  }

  lemma {:induction false} HexHasNoDash(b: Bytes)
    requires IsBytes(b)
    ensures '-' !in Hex(b) && FoldAll(Hex(b)) == Hex(b)
    decreases |b|
  {
    if b != [] { HexHasNoDash(b[1..]); }
  }

  /** `ParseID(id.String()) == id`. */
  lemma ParseOfText(id: Bytes)
    requires IsId(id)
    ensures ParseID(Text(id)) == Some(id)
  {
    hide Hex;
    HexHasNoDash(id);
    assert FoldAll(Text(id)) == Text(id) by {
      var h := Hex(id);
      forall i | 0 <= i < 36 ensures Fold(Text(id)[i]) == Text(id)[i] {
        assert Text(id)[i] == '-' || Text(id)[i] in h;
        assert forall j :: 0 <= j < |h| ==> FoldAll(h)[j] == Fold(h[j]);
      }
    }
    ParseIff(Text(id), id);
  }
}
