/** `application.normalize`: the form of a request that is hashed and stored. */
module Normalize {
  import opened Domain
  import Base64
  import Utf8

  type Fields = map<string, string>

  datatype Request = Request(verb: string, path: string, query: Fields, headers: Fields, encoding: string, body: string)

  const MAX_BODY := 1048576
  const MAX_FIELDS := 16384

  // ---- checks of the configuration package ----------------------------------------------------------

  predicate ContainsAny(s: string, chars: string) { exists i :: 0 <= i < |s| && s[i] in chars }

  predicate Clean(s: string) { !ContainsAny(s, "\r\n\0") }

  /** A segment "." or "..": between slashes, or after the last one. */
  predicate HasDots(p: string, start: bool) {
    if start && (p == "." || p == ".." || (|p| >= 2 && p[..2] == "./") || (|p| >= 3 && p[..3] == "../")) then true
    else p != "" && HasDots(p[1..], p[0] == '/')
  }

  predicate ValidPath(p: string) {
    && "/" <= p && !("//" <= p) && |p| <= 2048 && !ContainsAny(p, "\\?#%\r\n\0")
    && !HasDots(p, true)
  }

  predicate IsTokenChar(c: char) {
    'a' <= c <= 'z' || 'A' <= c <= 'Z' || '0' <= c <= '9' || c in "!#$%&'*+-.^_`|~"
  }

  predicate ValidHeader(s: string) {
    0 < |s| <= 128 && forall i :: 0 <= i < |s| ==> IsTokenChar(s[i])
  }

  function LowerChar(c: char): char { if 'A' <= c <= 'Z' then (c as int + 32) as char else c }

  function UpperChar(c: char): char { if 'a' <= c <= 'z' then (c as int - 32) as char else c }

  function Lower(s: string): (r: string)
    ensures |r| == |s| && forall i :: 0 <= i < |s| ==> r[i] == LowerChar(s[i])
  {
    seq(|s|, i requires 0 <= i < |s| => LowerChar(s[i]))
  }

  function Upper(s: string): (r: string)
    ensures |r| == |s| && forall i :: 0 <= i < |s| ==> r[i] == UpperChar(s[i])
  {
    seq(|s|, i requires 0 <= i < |s| => UpperChar(s[i]))
  }

  predicate ForbiddenTransportHeader(s: string) {
    Lower(s) in {"host", "connection", "content-length", "transfer-encoding", "trailer", "te", "upgrade",
                 "proxy-authorization", "proxy-connection"}
  }

  predicate OccursAt(s: string, part: string, i: nat) { i + |part| <= |s| && s[i..i + |part|] == part }

  predicate Contains(s: string, part: string) { exists i :: 0 <= i <= |s| && OccursAt(s, part, i) }

  predicate SensitiveHeader(s: string) {
    var t := Lower(s);
    var u := seq(|t|, i requires 0 <= i < |t| => if t[i] == '_' then '-' else t[i]);
    Contains(u, "authorization") || Contains(u, "cookie") || Contains(u, "api-key") || Contains(u, "apikey")
    || Contains(u, "token") || Contains(u, "secret") || Contains(u, "password") || Contains(u, "passwd")
  }

  // ---- header names ---------------------------------------------------------------------------------

  /** `http.CanonicalHeaderKey` of a valid header name. */
  function Canon(s: string, upper: bool): (r: string)
    ensures |r| == |s|
  {
    if s == "" then ""
    else [if upper then UpperChar(s[0]) else LowerChar(s[0])] + Canon(s[1..], s[0] == '-')
  }

  function CanonicalKey(k: string): (r: string)
    ensures |r| == |k|
  {
    Canon(k, true)
  }

  lemma {:induction false} CanonAt(s: string, upper: bool, i: nat)
    requires i < |s|
    ensures Canon(s, upper)[i] == if (if i == 0 then upper else s[i - 1] == '-') then UpperChar(s[i])
          else LowerChar(s[i])
  {
    if i > 0 { CanonAt(s[1..], s[0] == '-', i - 1); }
  }

  /** Two names have one canonical form exactly when they differ at most in the case of letters. */
  lemma CanonicalIffFold(a: string, b: string)
    ensures CanonicalKey(a) == CanonicalKey(b) <==> Lower(a) == Lower(b)
  {
    if CanonicalKey(a) == CanonicalKey(b) {
      forall i | 0 <= i < |a| ensures LowerChar(a[i]) == LowerChar(b[i]) { CanonAt(a, true, i); CanonAt(b, true, i); }
    }
    if Lower(a) == Lower(b) {
      assert |a| == |b|;
      forall i | 0 <= i < |a| ensures CanonicalKey(a)[i] == CanonicalKey(b)[i] {
        CanonAt(a, true, i);
        CanonAt(b, true, i);
        assert Lower(a)[i] == Lower(b)[i];
        if i > 0 { assert Lower(a)[i - 1] == Lower(b)[i - 1]; }
      }
    }
  }

  lemma CanonicalKeepsFold(k: string)
    ensures Lower(CanonicalKey(k)) == Lower(k) && CanonicalKey(CanonicalKey(k)) == CanonicalKey(k)
  {
    forall i | 0 <= i < |k| ensures LowerChar(CanonicalKey(k)[i]) == LowerChar(k[i]) { CanonAt(k, true, i); }
    CanonicalIffFold(CanonicalKey(k), k);
  }

  predicate HeaderOk(k: string, v: string) {
    ValidHeader(k) && !ForbiddenTransportHeader(k) && !SensitiveHeader(k) && Clean(v)
  }

  /** The checks on a header name do not look at the case of its letters. */
  lemma HeaderOkFolds(k: string, l: string, v: string)
    requires HeaderOk(k, v) && Lower(k) == Lower(l)
    ensures HeaderOk(l, v)
  {
    forall i | 0 <= i < |l| ensures IsTokenChar(l[i]) {
      assert IsTokenChar(k[i]) && LowerChar(k[i]) == LowerChar(l[i]) by { assert Lower(k)[i] == Lower(l)[i]; }
    }
  }

  predicate DistinctNames(h: Fields) {
    forall k, l :: k in h && l in h && CanonicalKey(k) == CanonicalKey(l) ==> k == l
  }

  function CanonicalFields(h: Fields): Fields
    requires DistinctNames(h)
  {
    map k | k in h :: CanonicalKey(k) := h[k]
  }

  // ---- sizes ------------------------------------------------------------------------------------------

  ghost function Size(h: Fields): nat {
    if h == map[] then 0 else var k := Pick(h); |k| + |h[k]| + Size(h - {k})
  }

  ghost function Pick(h: Fields): (k: string)
    requires h != map[]
    ensures k in h
  {
    var k :| k in h; k
  }

  /** The sum does not depend on the order in which the loop visits the fields. */
  lemma {:induction false} SizeRemove(h: Fields, k: string)
    requires k in h
    ensures Size(h) == |k| + |h[k]| + Size(h - {k})
    decreases |h|
  {
    var l := Pick(h);
    if l != k {
      SizeRemove(h - {l}, k);
      SizeRemove(h - {k}, l);
      assert h - {l} - {k} == h - {k} - {l};
    }
  }

  lemma SizeAdd(h: Fields, k: string, v: string)
    requires k !in h
    ensures Size(h[k := v]) == Size(h) + |k| + |v|
  {
    SizeRemove(h[k := v], k);
    assert h[k := v] - {k} == h;
  }

  lemma FieldsOf(h: Fields)
    requires DistinctNames(h)
    ensures forall k :: k in h ==> CanonicalKey(k) in CanonicalFields(h) && CanonicalFields(h)[CanonicalKey(k)] == h[k]
    ensures forall c :: c in CanonicalFields(h) ==> exists k :: k in h && CanonicalKey(k) == c
  {
    hide CanonicalKey;
  }

  lemma CanonicalAdd(h: Fields, k: string, v: string)
    requires DistinctNames(h) && k !in h && CanonicalKey(k) !in CanonicalFields(h)
    ensures DistinctNames(h[k := v]) && CanonicalFields(h[k := v]) == CanonicalFields(h)[CanonicalKey(k) := v]
  {
    hide CanonicalKey, CanonicalFields;
    FieldsOf(h);
    FieldsOf(h[k := v]);
    var x, y := CanonicalFields(h)[CanonicalKey(k) := v], CanonicalFields(h[k := v]);
    forall c | c in x ensures c in y && y[c] == x[c] {
      var l :| l in h[k := v] && CanonicalKey(l) == c;
    }
    forall c | c in y ensures c in x {
      var l :| l in h[k := v] && CanonicalKey(l) == c;
    }
  }

  /** Removing a field before or after the renaming is the same. */
  lemma CanonicalRemove(h: Fields, k: string)
    requires DistinctNames(h) && k in h
    ensures DistinctNames(h - {k}) && CanonicalFields(h) - {CanonicalKey(k)} == CanonicalFields(h - {k})
    ensures CanonicalKey(k) in CanonicalFields(h) && CanonicalFields(h)[CanonicalKey(k)] == h[k]
  {
    hide CanonicalKey, CanonicalFields;
    FieldsOf(h);
    FieldsOf(h - {k});
    var x, y := CanonicalFields(h) - {CanonicalKey(k)}, CanonicalFields(h - {k});
    forall c | c in x ensures c in y && y[c] == x[c] {
      var l :| l in h && CanonicalKey(l) == c;
    }
    forall c | c in y ensures c in x {
      var l :| l in h - {k} && CanonicalKey(l) == c;
    }
  }

  lemma {:induction false} SizeOfCanonical(h: Fields)
    requires DistinctNames(h)
    ensures Size(CanonicalFields(h)) == Size(h) && |CanonicalFields(h)| == |h|
    decreases |h|
  {
    hide CanonicalKey, DistinctNames;
    if h == map[] {
      assert CanonicalFields(h) == map[];
    } else {
      hide CanonicalFields;
      var k := Pick(h);
      CanonicalRemove(h, k);
      SizeOfCanonical(h - {k});
      SizeRemove(CanonicalFields(h), CanonicalKey(k));
    }
  }

  // ---- the normal form --------------------------------------------------------------------------------

  /** The bytes a request asks to deliver. */
  function Body(r: Request): Option<string> {
    if r.encoding == "" || r.encoding == "utf8" then (if Utf8.Valid(r.body) then Some(r.body) else None)
    else if r.encoding == "base64" then Base64.Decode(r.body)
    else None
  }

  predicate QueryOk(k: string, v: string) { k != "" && Clean(k + v) && !SensitiveHeader(k) }

  ghost predicate Acceptable(r: Request) {
    && ValidPath(r.path)
    && Body(r).Some? && |Body(r).value| <= MAX_BODY
    && |r.headers| <= 64 && |r.query| <= 128
    && (forall k :: k in r.headers ==> HeaderOk(k, r.headers[k]))
    && DistinctNames(r.headers)
    && (forall k :: k in r.query ==> QueryOk(k, r.query[k]))
    && Size(r.headers) + Size(r.query) <= MAX_FIELDS
  }

  ghost function Normal(r: Request): Request
    requires Acceptable(r)
  {
    var b := Body(r).value;
    var text := Utf8.Valid(b);
    assert !text ==> r.encoding == "base64";
    Request(r.verb, r.path, r.query, CanonicalFields(r.headers),
            if text then "utf8" else "base64", if text then b else Base64.Encode(b))
  }

  /** The set h has the field (k, v), whatever the case of its name. */
  ghost predicate Has(h: Fields, k: string, v: string) {
    exists l :: l in h && Lower(l) == Lower(k) && h[l] == v
  }

  /** Two header sets that a receiver cannot tell apart. */
  ghost predicate SameHeaders(a: Fields, b: Fields) {
    (forall k :: k in a ==> Has(b, k, a[k])) && (forall k :: k in b ==> Has(a, k, b[k]))
  }

  ghost predicate SameMeaning(a: Request, b: Request) {
    && a.verb == b.verb && a.path == b.path && a.query == b.query
    && Body(a) == Body(b) && SameHeaders(a.headers, b.headers)
  }

  lemma BodyOfNormal(r: Request)
    requires Acceptable(r)
    ensures Body(Normal(r)) == Body(r)
  {
    var b := Body(r).value;
    if !Utf8.Valid(b) { Base64.RoundTrip(b); }
  }

  lemma HasIffCanonical(h: Fields, k: string, v: string)
    requires DistinctNames(h)
    ensures Has(h, k, v) <==> CanonicalKey(k) in CanonicalFields(h) && CanonicalFields(h)[CanonicalKey(k)] == v
  {
    hide CanonicalKey, Lower;
    forall l | l in h ensures CanonicalKey(l) == CanonicalKey(k) <==> Lower(l) == Lower(k) { CanonicalIffFold(l, k); }
    if CanonicalKey(k) in CanonicalFields(h) {
      var l :| l in h && CanonicalKey(l) == CanonicalKey(k);
      assert Lower(l) == Lower(k);
    }
  }

  lemma CanonicalIff(a: Fields, b: Fields)
    requires DistinctNames(a) && DistinctNames(b)
    ensures CanonicalFields(a) == CanonicalFields(b) <==> SameHeaders(a, b)
  {
    hide CanonicalKey, Lower, Has, CanonicalFields, DistinctNames;
    var x, y := CanonicalFields(a), CanonicalFields(b);
    FieldsOf(a);
    FieldsOf(b);
    forall k | k in a
      ensures Has(b, k, a[k]) <==> CanonicalKey(k) in y && y[CanonicalKey(k)] == a[k]
    {
      HasIffCanonical(b, k, a[k]);
    }
    forall k | k in b
      ensures Has(a, k, b[k]) <==> CanonicalKey(k) in x && x[CanonicalKey(k)] == b[k]
    {
      HasIffCanonical(a, k, b[k]);
    }
    if SameHeaders(a, b) {
      forall c | c in x ensures c in y && y[c] == x[c] {
        var k :| k in a && CanonicalKey(k) == c;
      }
      forall c | c in y ensures c in x && x[c] == y[c] {
        var k :| k in b && CanonicalKey(k) == c;
      }
    }
  }

  /** The normal form is canonical: two accepted requests get the same one exactly when they mean the
      same, whatever spelling of the body and case of header names each uses. */
  lemma NormalIsCanonical(a: Request, b: Request)
    requires Acceptable(a) && Acceptable(b)
    ensures Normal(a) == Normal(b) <==> SameMeaning(a, b)
  {
    CanonicalIff(a.headers, b.headers);
    if Normal(a) == Normal(b) {
      BodyOfNormal(a);
      BodyOfNormal(b);
    }
  }

  lemma AcceptableNormal(r: Request)
    requires Acceptable(r)
    ensures Acceptable(Normal(r))
  {
    var h := CanonicalFields(r.headers);
    BodyOfNormal(r);
    SizeOfCanonical(r.headers);
    forall c | c in h ensures HeaderOk(c, h[c]) && CanonicalKey(c) == c {
      var k :| k in r.headers && CanonicalKey(k) == c;
      CanonicalKeepsFold(k);
      HeaderOkFolds(k, c, r.headers[k]);
    }
  }

  lemma CanonicalAgain(h: Fields)
    requires DistinctNames(h)
    ensures DistinctNames(CanonicalFields(h)) && CanonicalFields(CanonicalFields(h)) == CanonicalFields(h)
  {
    hide CanonicalKey, Lower;
    FieldsOf(h);
    var x := CanonicalFields(h);
    forall c | c in x ensures CanonicalKey(c) == c {
      var k :| k in h && CanonicalKey(k) == c;
      CanonicalKeepsFold(k);
    }
  }

  /** A normal form is accepted again and is its own normal form. */
  lemma NormalIsIdempotent(r: Request)
    requires Acceptable(r)
    ensures Acceptable(Normal(r)) && Normal(Normal(r)) == Normal(r) && SameMeaning(r, Normal(r))
  {
    hide HeaderOk, ValidPath, Body, CanonicalFields, DistinctNames;
    AcceptableNormal(r);
    BodyOfNormal(r);
    CanonicalAgain(r.headers);
    NormalIsCanonical(r, Normal(r));
  }

  lemma HeaderOkFollows(a: Fields, b: Fields, k: string)
    requires (forall l :: l in a ==> HeaderOk(l, a[l])) && k in b && Has(a, k, b[k])
    ensures HeaderOk(k, b[k])
  {
    hide HeaderOk, Lower;
    var l :| l in a && Lower(l) == Lower(k) && a[l] == b[k];
    HeaderOkFolds(l, k, b[k]);
  }

  /** Acceptance depends on the meaning alone, except that a request must not name one header twice. */
  lemma AcceptanceFollowsMeaning(a: Request, b: Request)
    requires Acceptable(a) && SameMeaning(a, b)
    ensures Acceptable(b) <==> DistinctNames(b.headers)
  {
    hide HeaderOk, ValidPath, Body, CanonicalFields, DistinctNames, QueryOk, Has, Size;
    if DistinctNames(b.headers) {
      CanonicalIff(a.headers, b.headers);
      SizeOfCanonical(a.headers);
      SizeOfCanonical(b.headers);
      forall k | k in b.headers ensures HeaderOk(k, b.headers[k]) { HeaderOkFollows(a.headers, b.headers, k); }
    }
  }

  /** A request for the root path with no fields is acceptable whenever it has a body. */
  lemma PlainRequestIsAcceptable(r: Request)
    requires r.path == "/" && r.query == map[] && r.headers == map[] && Body(r).Some? && |Body(r).value| <= MAX_BODY
    ensures Acceptable(r)
  {
    assert !HasDots("/", true) by { assert "/"[1..] == ""; }
  }

  // ---- the code ---------------------------------------------------------------------------------------

  lemma NoFields()
    ensures DistinctNames(map[]) && CanonicalFields(map[]) == map[] && Size(map[]) == 0
  {
  }

  /** One turn of the header loop: `done` has been copied and k is next. */
  lemma HeaderTurn(h: Fields, done: Fields, k: string)
    requires DistinctNames(done) && done.Keys <= h.Keys && (forall l :: l in done ==> done[l] == h[l]) && k in h
          && k !in done
    ensures CanonicalKey(k) in CanonicalFields(done) ==> !DistinctNames(h)
    ensures CanonicalKey(k) !in CanonicalFields(done) ==>
              && DistinctNames(done[k := h[k]])
              && CanonicalFields(done[k := h[k]]) == CanonicalFields(done)[CanonicalKey(k) := h[k]]
              && Size(done[k := h[k]]) == Size(done) + |k| + |h[k]|
  {
    hide CanonicalKey, Size;
    SizeAdd(done, k, h[k]);
    if CanonicalKey(k) in CanonicalFields(done) {
      var l :| l in done && CanonicalKey(l) == CanonicalKey(k);
      assert l in h && k in h && l != k;
    } else {
      CanonicalAdd(done, k, h[k]);
    }
  }

  class Draft {
    var verb: string
    var path: string
    var query: Fields
    var headers: Fields
    var encoding: string
    var body: string

    function Value(): Request
      reads this
    {
      Request(verb, path, query, headers, encoding, body)
    }

    method NormalizeBody() returns (ok: bool)
      modifies this`encoding, this`body
      ensures ok <==> old(Body(Value())).Some? && |old(Body(Value())).value| <= MAX_BODY
      ensures ok ==> var b := old(Body(Value())).value; var text := Utf8.Valid(b);
                     encoding == (if text then "utf8" else "base64") && (text ==> body == b)
                         && (!text ==> body == Base64.Encode(b))
    {
      if encoding == "" { encoding := "utf8"; }
      var bytes := "";
      if encoding == "utf8" {
        if !Utf8.Valid(body) { return false; }
        bytes := body;
      } else if encoding == "base64" {
        var d := Base64.Decode(body);
        if d.None? { return false; }
        bytes := d.value;
        body := Base64.Encode(bytes);
      } else {
        return false;
      }
      if |bytes| > MAX_BODY { return false; }
      if Utf8.Valid(bytes) {
        encoding := "utf8";
        body := bytes;
      }
      return true;
    }

    /** The loop over the headers, in any order. */
    method NormalHeaders() returns (ok: bool, canonical: Fields, total: nat)
      ensures ok <==> (forall k :: k in headers ==> HeaderOk(k, headers[k])) && DistinctNames(headers)
      ensures ok ==> canonical == CanonicalFields(headers) && total == Size(headers)
    {
      hide CanonicalKey, CanonicalFields, DistinctNames, HeaderOk, Size;
      canonical, total := map[], 0;
      var rest := headers.Keys;
      ghost var done: Fields := map[];
      NoFields();
      while rest != {}
        invariant rest <= headers.Keys && done.Keys == headers.Keys - rest
        invariant DistinctNames(done) && canonical == CanonicalFields(done) && total == Size(done)
        invariant forall k :: k in done ==> done[k] == headers[k] && HeaderOk(k, headers[k])
        decreases |rest|
      {
        var k :| k in rest;
        if !HeaderOk(k, headers[k]) { return false, map[], 0; }
        var c := CanonicalKey(k);
        HeaderTurn(headers, done, k);
        if c in canonical { return false, map[], 0; }
        canonical := canonical[c := headers[k]];
        total := total + |c| + |headers[k]|;
        rest, done := rest - {k}, done[k := headers[k]];
      }
      assert done == headers;
      return true, canonical, total;
    }

    method QuerySize() returns (ok: bool, total: nat)
      ensures ok <==> forall k :: k in query ==> QueryOk(k, query[k])
      ensures ok ==> total == Size(query)
    {
      hide QueryOk, Size, DistinctNames, CanonicalFields;
      total := 0;
      var q, rest := query, query.Keys;
      ghost var done: Fields := map[];
      NoFields();
      while rest != {}
        invariant rest <= q.Keys && done.Keys == q.Keys - rest && total == Size(done)
        invariant forall k :: k in done ==> done[k] == q[k] && QueryOk(k, q[k])
        decreases |rest|
      {
        var k :| k in rest;
        if !QueryOk(k, q[k]) { return false, 0; }
        SizeAdd(done, k, q[k]);
        total := total + |k| + |q[k]|;
        rest, done := rest - {k}, done[k := q[k]];
      }
      assert done == q;
      return true, total;
    }

    /** `normalize`: accepts exactly the acceptable requests and leaves their normal form. */
    method Normalize() returns (ok: bool)
      modifies this
      ensures ok <==> old(Acceptable(Value()))
      ensures ok ==> Value() == old(Normal(Value()))
    {
      hide ValidPath, HeaderOk, QueryOk, DistinctNames, CanonicalFields, Size, Body;
      if !ValidPath(path) { return false; }
      ok := NormalizeBody();
      if !ok { return false; }
      if |headers| > 64 || |query| > 128 { return false; }
      var headersOk, canonical, headerTotal := NormalHeaders();
      if !headersOk { return false; }
      var queryOk, queryTotal := QuerySize();
      if !queryOk || headerTotal + queryTotal > MAX_FIELDS { return false; }
      headers := canonical;
      return true;
    }
  }
}
