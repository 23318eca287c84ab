/** UTF-8 (RFC 3629) as `unicode/utf8` accepts it, with the encoding it is the image of. */
module Utf8 {
  predicate Within(c: char, lo: int, hi: int) { lo <= c as int <= hi }

  predicate Tail(c: char) { Within(c, 0x80, 0xBF) }

  /** The second bytes that may follow a first byte of three or four. */
  predicate Second(c: char, d: char) {
    if c as int == 0xE0 then Within(d, 0xA0, 0xBF)
    else if c as int == 0xED then Within(d, 0x80, 0x9F)
    else if c as int == 0xF0 then Within(d, 0x90, 0xBF)
    else if c as int == 0xF4 then Within(d, 0x80, 0x8F)
    else Tail(d)
  }

  /** Length of the code point at the front of s, zero when none is well formed. */
  function Width(s: string): (w: nat)
    ensures w <= |s| && w <= 4
  {
    if s == "" then 0
    else if s[0] as int < 0x80 then 1
    else if Within(s[0], 0xC2, 0xDF) && |s| >= 2 && Tail(s[1]) then 2
    else if Within(s[0], 0xE0, 0xEF) && |s| >= 3 && Second(s[0], s[1]) && Tail(s[2]) then 3
    else if Within(s[0], 0xF0, 0xF4) && |s| >= 4 && Second(s[0], s[1]) && Tail(s[2]) && Tail(s[3]) then 4
    else 0
  }

  /** `utf8.Valid` and `utf8.ValidString`. */
  predicate Valid(s: string)
    decreases |s|
  {
    s == "" || (Width(s) > 0 && Valid(s[Width(s)..]))
  }

  // ---- the encoding ---------------------------------------------------------------------------------

  /** A Unicode scalar value. */
  predicate IsScalar(r: int) { 0 <= r < 0xD800 || 0xE000 <= r < 0x110000 }

  function Encode(r: int): (s: string)
    requires IsScalar(r)
  {
    if r < 0x80 then [r as char]
    else if r < 0x800 then [(0xC0 + r / 64) as char, (0x80 + r % 64) as char]
    else if r < 0x10000 then [(0xE0 + r / 64 / 64) as char, (0x80 + r / 64 % 64) as char, (0x80 + r % 64) as char]
    else [(0xF0 + r / 64 / 64 / 64) as char, (0x80 + r / 64 / 64 % 64) as char, (0x80 + r / 64 % 64) as char,
        (0x80 + r % 64) as char]
  }

  function EncodeAll(rs: seq<int>): string
    requires forall i :: 0 <= i < |rs| ==> IsScalar(rs[i])
  {
    if rs == [] then "" else Encode(rs[0]) + EncodeAll(rs[1..])
  }

  /** The value with one more tail byte. */
  function More(v: int, c: char): int { v * 64 + (c as int - 0x80) }

  function First(s: string): int
    requires Width(s) > 0
  {
    var c := s[0] as int;
    if Width(s) == 1 then c
    else if Width(s) == 2 then More(c - 0xC0, s[1])
    else if Width(s) == 3 then More(More(c - 0xE0, s[1]), s[2])
    else More(More(More(c - 0xF0, s[1]), s[2]), s[3])
  }

  lemma MoreSplits(v: int, c: char)
    requires Tail(c)
    ensures More(v, c) / 64 == v && More(v, c) % 64 == c as int - 0x80
  {
  }

  lemma SplitIsMore(r: int)
    requires 0 <= r
    ensures More(r / 64, (0x80 + r % 64) as char) == r && Tail((0x80 + r % 64) as char)
  {
  }

  function Scalars(s: string): seq<int>
    requires Valid(s)
    decreases |s|
  {
    if s == "" then [] else [First(s)] + Scalars(s[Width(s)..])
  }

  lemma FirstIsEncoded(s: string)
    requires Width(s) > 0
    ensures IsScalar(First(s)) && Encode(First(s)) == s[..Width(s)]
  {
    if Width(s) == 2 {
      EncodedTwo(s[0], s[1]);
    } else if Width(s) == 3 {
      EncodedThree(s[0], s[1], s[2]);
    } else if Width(s) == 4 {
      EncodedFour(s[0], s[1], s[2], s[3]);
    }
  }

  lemma EncodedTwo(a: char, b: char)
    requires Within(a, 0xC2, 0xDF) && Tail(b)
    ensures var r := More(a as int - 0xC0, b); IsScalar(r) && Encode(r) == [a, b]
  {
    MoreSplits(a as int - 0xC0, b);
  }

  lemma EncodedThree(a: char, b: char, c: char)
    requires Within(a, 0xE0, 0xEF) && Second(a, b) && Tail(c)
    ensures var r := More(More(a as int - 0xE0, b), c); IsScalar(r) && Encode(r) == [a, b, c]
  {
    MoreSplits(a as int - 0xE0, b);
    MoreSplits(More(a as int - 0xE0, b), c);
  }

  lemma EncodedFour(a: char, b: char, c: char, d: char)
    requires Within(a, 0xF0, 0xF4) && Second(a, b) && Tail(c) && Tail(d)
    ensures var r := More(More(More(a as int - 0xF0, b), c), d); IsScalar(r) && Encode(r) == [a, b, c, d]
  {
    MoreSplits(a as int - 0xF0, b);
    MoreSplits(More(a as int - 0xF0, b), c);
    MoreSplits(More(More(a as int - 0xF0, b), c), d);
  }

  lemma EncodedIsFirst(r: int, rest: string)
    requires IsScalar(r)
    ensures Width(Encode(r) + rest) == |Encode(r)| > 0 && First(Encode(r) + rest) == r
  {
    hide More, Tail;
    SplitIsMore(r);
    SplitIsMore(r / 64);
    SplitIsMore(r / 64 / 64);
  }

  lemma {:induction false} ScalarsEncode(s: string)
    requires Valid(s)
    ensures forall i :: 0 <= i < |Scalars(s)| ==> IsScalar(Scalars(s)[i])
    ensures EncodeAll(Scalars(s)) == s
    decreases |s|
  {
    hide First, Width, Encode, IsScalar;
    if s != "" {
      FirstIsEncoded(s);
      ScalarsEncode(s[Width(s)..]);
      assert Scalars(s)[1..] == Scalars(s[Width(s)..]);
      assert s == s[..Width(s)] + s[Width(s)..];
    }
  }

  lemma {:induction false} EncodeAllValid(rs: seq<int>)
    requires forall i :: 0 <= i < |rs| ==> IsScalar(rs[i])
    ensures Valid(EncodeAll(rs)) && Scalars(EncodeAll(rs)) == rs
  {
    if rs != [] {
      var rest := EncodeAll(rs[1..]);
      EncodedIsFirst(rs[0], rest);
      EncodeAllValid(rs[1..]);
      assert EncodeAll(rs)[|Encode(rs[0])|..] == rest;
      assert rs == [rs[0]] + rs[1..];
    }
  }

  /** The accepted strings are exactly the encodings of sequences of scalar values. */
  lemma ValidIsImage(s: string)
    ensures Valid(s) <==> exists rs: seq<int> :: (forall i :: 0 <= i < |rs| ==> IsScalar(rs[i])) && EncodeAll(rs) == s
  {
    if Valid(s) { ScalarsEncode(s); }
    forall rs: seq<int> | (forall i :: 0 <= i < |rs| ==> IsScalar(rs[i])) && EncodeAll(rs) == s ensures Valid(s) {
      EncodeAllValid(rs);
    }
  }
}
