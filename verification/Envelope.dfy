/** DSSE envelopes: base64 as `binascii` reads and writes it, the pre-authentication encoding, and
    wrapping and unwrapping payloads. */
module Envelope {
  import opened ByteStrings
  import opened JsonText
  import opened Canonical
  import opened Models

  // ------------------------------------------------------------------ base64

  function SextetChar(v: int): (c: char)
    requires 0 <= v < 64
  {
    if v < 26 then ('A' as int + v) as char
    else if v < 52 then ('a' as int + (v - 26)) as char
    else if v < 62 then ('0' as int + (v - 52)) as char
    else if v == 62 then '+'
    else '/'
  }

  function SextetValue(c: char): (r: Option<int>)
    ensures r.Some? ==> 0 <= r.value < 64 && c != '='
  {
    if 'A' <= c <= 'Z' then Some(c as int - 'A' as int)
    else if 'a' <= c <= 'z' then Some(c as int - 'a' as int + 26)
    else if '0' <= c <= '9' then Some(c as int - '0' as int + 52)
    else if c == '+' then Some(62)
    else if c == '/' then Some(63)
    else None
  }

  /** `base64.standard_b64encode` (section 4 of RFC 4648). */
  function Base64(b: Bytes): string {
    if |b| == 0 then ""
    else if |b| == 1 then [SextetChar(b[0] / 4), SextetChar(b[0] % 4 * 16), '=', '=']
    else if |b| == 2 then
      [SextetChar(b[0] / 4), SextetChar(b[0] % 4 * 16 + b[1] / 16), SextetChar(b[1] % 16 * 4), '=']
    else
      [SextetChar(b[0] / 4), SextetChar(b[0] % 4 * 16 + b[1] / 16), SextetChar(b[1] % 16 * 4 + b[2] / 64),
       SextetChar(b[2] % 64)] + Base64(b[3..])
  }

  /** The scanner of `binascii.a2b_base64`: `quad` characters of the current group seen, their
      left-over bits in `left`, `pads` consecutive pad characters. Characters outside the alphabet
      are skipped, and a complete pad ends the scan whatever follows. `None` is `binascii.Error`. */
  function Scan(s: string, quad: nat, left: nat, pads: nat): Option<Bytes>
    requires quad < 4 && left < (if quad == 1 then 64 else if quad == 2 then 16 else if quad == 3 then 4 else 1)
  {
    if s == "" then if quad == 0 then Some([]) else None
    else if s[0] == '=' then
      if quad >= 2 && quad + pads + 1 >= 4 then Some([])
      else Scan(s[1..], quad, left, if quad >= 2 then pads + 1 else pads)
    else
      match SextetValue(s[0])
      case None => Scan(s[1..], quad, left, pads)
      case Some(v) =>
        if quad == 0 then Scan(s[1..], 1, v, 0)
        else if quad == 1 then
          var rest :- Scan(s[1..], 2, v % 16, 0);
          Some([left * 4 + v / 16] + rest)
        else if quad == 2 then
          var rest :- Scan(s[1..], 3, v % 4, 0);
          Some([left * 16 + v / 4] + rest)
        else
          var rest :- Scan(s[1..], 0, 0, 0);
          Some([left * 64 + v] + rest)
  }

  predicate IsAscii(s: string) {
    forall c :: c in s ==> c as int < 128
  }

  /** `base64.standard_b64decode` on a `str`; `None` is `ValueError`. */
  function Base64Decode(s: string): Option<Bytes> {
    if IsAscii(s) then Scan(s, 0, 0, 0) else None
  }

  lemma SextetRoundTrip(v: int)
    requires 0 <= v < 64
    ensures SextetValue(SextetChar(v)) == Some(v) && SextetChar(v) as int < 128 && SextetChar(v) != '='
  {
  }

  /** One character of the alphabet moves the scanner one place. */
  lemma ScanOne(v: int, rest: string, quad: nat, left: nat, pads: nat)
    requires 0 <= v < 64
    requires quad < 4 && left < (if quad == 1 then 64 else if quad == 2 then 16 else if quad == 3 then 4 else 1)
    ensures Scan([SextetChar(v)] + rest, quad, left, pads)
         == if quad == 0 then Scan(rest, 1, v, 0)
            else if quad == 1 then Emit(left * 4 + v / 16, Scan(rest, 2, v % 16, 0))
            else if quad == 2 then Emit(left * 16 + v / 4, Scan(rest, 3, v % 4, 0))
            else Emit(left * 64 + v, Scan(rest, 0, 0, 0))
  {
    SextetRoundTrip(v);
    var s := [SextetChar(v)] + rest;
    assert s[0] == SextetChar(v) && s[1..] == rest;
  }

  function Emit(b: Byte, rest: Option<Bytes>): Option<Bytes> {
    if rest.None? then None else Some([b] + rest.value)
  }

  lemma ScanPads(two: bool, left: nat)
    requires left < if two then 16 else 4
    ensures Scan(if two then "==" else "=", if two then 2 else 3, left, 0) == Some([])
  {
    assert "=="[1..] == "=";
  }

  /** A group of three bytes is read back whatever follows it. */
  lemma ScanGroup(a: Byte, b: Byte, c: Byte, rest: string)
    ensures Scan([SextetChar(a / 4), SextetChar(a % 4 * 16 + b / 16), SextetChar(b % 16 * 4 + c / 64), SextetChar(c % 64)]
                 + rest, 0, 0, 0)
         == Emit(a, Emit(b, Emit(c, Scan(rest, 0, 0, 0))))
  {
    hide Scan, SextetChar;
    var w, x, y, z := a / 4, a % 4 * 16 + b / 16, b % 16 * 4 + c / 64, c % 64;
    var t3 := [SextetChar(z)] + rest;
    var t2 := [SextetChar(y)] + t3;
    var t1 := [SextetChar(x)] + t2;
    assert [SextetChar(w), SextetChar(x), SextetChar(y), SextetChar(z)] + rest == [SextetChar(w)] + t1;
    ScanOne(w, t1, 0, 0, 0);
    ScanOne(x, t2, 1, w, 0);
    ScanOne(y, t3, 2, x % 16, 0);
    ScanOne(z, rest, 3, y % 4, 0);
    assert w * 4 + x / 16 == a && x % 16 * 16 + y / 4 == b && y % 4 * 64 + z == c;
  }

  lemma ScanTail1(a: Byte)
    ensures Scan([SextetChar(a / 4), SextetChar(a % 4 * 16), '=', '='], 0, 0, 0) == Some([a])
  {
    hide Scan, SextetChar;
    var w, x := a / 4, a % 4 * 16;
    assert [SextetChar(w), SextetChar(x), '=', '='] == [SextetChar(w)] + ([SextetChar(x)] + "==");
    ScanOne(w, [SextetChar(x)] + "==", 0, 0, 0);
    ScanOne(x, "==", 1, w, 0);
    ScanPads(true, x % 16);
    assert w * 4 + x / 16 == a && [a] + [] == [a];
  }

  lemma ScanTail2(a: Byte, b: Byte)
    ensures Scan([SextetChar(a / 4), SextetChar(a % 4 * 16 + b / 16), SextetChar(b % 16 * 4), '='], 0, 0, 0) == Some([a, b])
  {
    hide Scan, SextetChar;
    var w, x, y := a / 4, a % 4 * 16 + b / 16, b % 16 * 4;
    assert [SextetChar(w), SextetChar(x), SextetChar(y), '=']
        == [SextetChar(w)] + ([SextetChar(x)] + ([SextetChar(y)] + "="));
    ScanOne(w, [SextetChar(x)] + ([SextetChar(y)] + "="), 0, 0, 0);
    ScanOne(x, [SextetChar(y)] + "=", 1, w, 0);
    ScanOne(y, "=", 2, x % 16, 0);
    ScanPads(false, y % 4);
    assert w * 4 + x / 16 == a && x % 16 * 16 + y / 4 == b;
    assert [a] + ([b] + []) == [a, b];
  }

  lemma {:induction false} ScanInverts(b: Bytes)
    ensures Scan(Base64(b), 0, 0, 0) == Some(b)
  {
    hide Scan, SextetChar;
    if |b| == 0 {
      ScanEmpty();
    } else if |b| == 1 {
      ScanTail1(b[0]);
      assert b == [b[0]];
    } else if |b| == 2 {
      ScanTail2(b[0], b[1]);
      assert b == [b[0], b[1]];
    } else {
      ScanGroup(b[0], b[1], b[2], Base64(b[3..]));
      ScanInverts(b[3..]);
      assert b == [b[0]] + ([b[1]] + ([b[2]] + b[3..]));
    }
  }

  lemma ScanEmpty()
    ensures Scan("", 0, 0, 0) == Some([])
  {
  }

  lemma {:induction false} Base64IsAscii(b: Bytes)
    ensures IsAscii(Base64(b))
  {
    hide SextetChar;
    forall v | 0 <= v < 64
      ensures SextetChar(v) as int < 128
    {
      SextetRoundTrip(v);
    }
    if |b| >= 3 {
      Base64IsAscii(b[3..]);
    }
  }

  /** Decoding inverts encoding. */
  lemma Base64RoundTrip(b: Bytes)
    ensures Base64Decode(Base64(b)) == Some(b)
  {
    ScanInverts(b);
    Base64IsAscii(b);
  }

  // -------------------------------------------- pre-authentication encoding

  const SPACE: Bytes := [32]

  /** `pae`: DSSE v1. The type's length counts characters, the body's counts bytes. */
  function Pae(payloadType: string, payload: Bytes): Bytes {
    Utf8("DSSEv1") + (SPACE + (Utf8(Decimal(|payloadType|)) + (SPACE + (Utf8(payloadType)
    + (SPACE + (Utf8(Decimal(|payload|)) + (SPACE + payload)))))))
  }

  lemma {:induction false} Utf8OfDigits(s: string)
    requires forall i :: 0 <= i < |s| ==> IsDigit(s[i])
    ensures |Utf8(s)| == |s| && forall i :: 0 <= i < |s| ==> Utf8(s)[i] == s[i] as int && Utf8(s)[i] != 32
  {
    if s != "" {
      Utf8OfDigits(s[1..]);
    }
  }

  function FirstSpace(b: Bytes): nat {
    if b == [] || b[0] == 32 then 0 else 1 + FirstSpace(b[1..])
  }

  lemma {:induction false} SpaceAfter(a: Bytes, x: Bytes)
    requires forall i :: 0 <= i < |a| ==> a[i] != 32
    ensures FirstSpace(a + (SPACE + x)) == |a|
  {
    if a == [] {
      assert a + (SPACE + x) == SPACE + x;
    } else {
      assert (a + (SPACE + x))[1..] == a[1..] + (SPACE + x);
      SpaceAfter(a[1..], x);
    }
  }

  /** A decimal number followed by a space can be told apart from what comes next. */
  lemma NumberPrefix(m: nat, n: nat, x: Bytes, y: Bytes)
    requires Utf8(Decimal(m)) + (SPACE + x) == Utf8(Decimal(n)) + (SPACE + y)
    ensures m == n && x == y
  {
    hide Decimal, Utf8;
    var s, t := Decimal(m), Decimal(n);
    var a, b := Utf8(s), Utf8(t);
    Utf8OfDigits(s);
    Utf8OfDigits(t);
    var l, r := a + (SPACE + x), b + (SPACE + y);
    SpaceAfter(a, x);
    SpaceAfter(b, y);
    assert a == l[..|a|] && b == r[..|b|];
    Utf8Injective(s, t);
    DecimalRoundTrip(m);
    DecimalRoundTrip(n);
    assert x == l[|a| + 1..] && y == r[|b| + 1..];
  }

  lemma DropCommon(p: Bytes, x: Bytes, y: Bytes)
    requires p + x == p + y
    ensures x == y
  {
    assert x == (p + x)[|p|..] && y == (p + y)[|p|..];
  }

  /** The encoding is injective in type and body together. */
  lemma PaeInjective(t: string, b: Bytes, u: string, c: Bytes)
    requires Pae(t, b) == Pae(u, c)
    ensures t == u && b == c
  {
    hide Utf8, Decimal;
    var bodyT := Utf8(Decimal(|b|)) + (SPACE + b);
    var bodyU := Utf8(Decimal(|c|)) + (SPACE + c);
    var x := Utf8(t) + (SPACE + bodyT);
    var y := Utf8(u) + (SPACE + bodyU);
    var nx := Utf8(Decimal(|t|)) + (SPACE + x);
    var ny := Utf8(Decimal(|u|)) + (SPACE + y);
    DropCommon(Utf8("DSSEv1"), SPACE + nx, SPACE + ny);
    DropCommon(SPACE, nx, ny);
    NumberPrefix(|t|, |u|, x, y);
    Utf8Prefix(t, u, SPACE + bodyT, SPACE + bodyU);
    DropCommon(SPACE, bodyT, bodyU);
    NumberPrefix(|b|, |c|, b, c);
  }

  // ---------------------------------------------------------------- envelopes

  /** An envelope as the service assembles it. */
  function MakeEnvelope(payloadType: string, payload64: string, signatures: seq<Json>): (j: Json)
    ensures j.Obj?
  {
    Obj(map["payloadType" := Str(payloadType), "payload" := Str(payload64), "signatures" := Arr(signatures)])
  }

  /** `wrap` without the signing: the body, encoded. */
  function Wrapped(payload: Json, payloadType: string, signatures: seq<Json>): Json {
    MakeEnvelope(payloadType, Base64(JsonBytes(payload)), signatures)
  }

  /** The decoded body; `None` is `KeyError` or `ValueError`. */
  function Body(envelope: Json): Option<Bytes> {
    if !envelope.Obj? then None
    else
      var text :- GetStr(envelope.fields, "payload");
      Base64Decode(text)
  }

  /** `unwrap_payload` */
  function UnwrapPayload(envelope: Json): Option<Json> {
    var body :- Body(envelope);
    LoadBytes(body)
  }

  /** `Decision.from_dict(unwrap_payload(envelope))`; `None` is a malformed envelope. */
  function DecodeDecision(envelope: Json): Option<Decision> {
    var payload :- UnwrapPayload(envelope);
    DecisionFromJson(payload)
  }

  /** `signable_bytes`: what a signature on the envelope must cover. */
  function SignableBytes(envelope: Json): Option<Bytes> {
    var body :- Body(envelope);
    var payloadType :- GetStr(envelope.fields, "payloadType");
    Some(Pae(payloadType, body))
  }

  lemma MadeEnvelope(payloadType: string, payload64: string, signatures: seq<Json>)
    ensures var m := MakeEnvelope(payloadType, payload64, signatures).fields;
            && Has(m, "payloadType", Str(payloadType)) && Has(m, "payload", Str(payload64))
            && Has(m, "signatures", Arr(signatures))
  {
  }

  /** Unwrapping inverts wrapping, and the signable bytes are the encoding of the canonical body. */
  lemma WrapRoundTrip(payload: Json, payloadType: string, signatures: seq<Json>)
    ensures UnwrapPayload(Wrapped(payload, payloadType, signatures)) == Some(payload)
    ensures SignableBytes(Wrapped(payload, payloadType, signatures)) == Some(Pae(payloadType, JsonBytes(payload)))
  {
    hide Base64Decode, Base64, JsonBytes, LoadBytes, MakeEnvelope;
    var body := JsonBytes(payload);
    MadeEnvelope(payloadType, Base64(body), signatures);
    Base64RoundTrip(body);
    LoadBytesInverts(payload);
  }

  /** Two envelopes a signature cannot tell apart carry the same type and the same body. */
  lemma SignableBytesBind(e: Json, f: Json)
    requires SignableBytes(e).Some? && SignableBytes(e) == SignableBytes(f)
    ensures GetStr(e.fields, "payloadType") == GetStr(f.fields, "payloadType")
    ensures Body(e) == Body(f) && DecodeDecision(e) == DecodeDecision(f)
  {
    hide Base64Decode, Pae, LoadBytes, DecisionFromJson;
    PaeInjective(GetStr(e.fields, "payloadType").value, Body(e).value,
                 GetStr(f.fields, "payloadType").value, Body(f).value);
  }
}
