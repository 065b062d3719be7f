/** Which signatures on an envelope or a checkpoint count, and for whom. */
module Verifier {
  import opened ByteStrings
  import opened JsonText
  import opened Canonical
  import opened Models
  import opened Datetime
  import opened Keys
  import opened Envelope

  /** A signature scheme's check of `sig` over `msg` under a public key; `false` covers a bad
      signature and an unknown scheme. */
  type CheckSig = (string, Bytes, Bytes, Bytes) -> bool

  /** What verification trusts. */
  datatype Trust = Trust(parse: Parse, check: CheckSig, keys: KeyMap)

  datatype VerifiedSignature = VerifiedSignature(keyid: string, ownerId: string, keyUse: string)

  /** `envelope.get("signatures", ())` as something to loop over; `None` raises. */
  function SignaturesOf(envelope: Json): Option<seq<Json>> {
    if !envelope.Obj? then None
    else
      match GetOr(envelope.fields, "signatures", Arr([]))
      case Arr(items) => Some(items)
      case Str(s) => if s == "" then Some([]) else None
      case Obj(fields) => if fields == map[] then Some([]) else None
      case _ => None
  }

  /** `key_dir.get(sig.get("keyid", ""))`: the outer `None` raises, the inner one is a key id the
      directory does not hold. */
  function KeyNamed(keys: KeyMap, sig: Json): Option<Option<KeyRef>> {
    if !sig.Obj? then None
    else
      match GetOr(sig.fields, "keyid", Str(""))
      case Str(id) => Some(if id in keys then Some(keys[id]) else None)
      case Arr(_) => None
      case Obj(_) => None
      case _ => Some(None)
  }

  /** The body of the `try`: anything that goes wrong in it is a signature that does not count. */
  predicate SignatureHolds(check: CheckSig, key: KeyRef, sig: Json, signable: Bytes) {
    && sig.Obj? && "sig" in sig.fields && sig.fields["sig"].Str?
    && FromHex(key.publicHex).Some? && Base64Decode(sig.fields["sig"].s).Some?
    && check(key.scheme, FromHex(key.publicHex).value, Base64Decode(sig.fields["sig"].s).value, signable)
  }

  /** One signature: the key it counts for, if any; the outer `None` raises. */
  function Counting(trust: Trust, sig: Json, signable: Bytes, at: string): Option<Option<KeyRef>> {
    var named :- KeyNamed(trust.keys, sig);
    if named.None? then Some(None)
    else
      var valid :- ValidAt(trust.parse, named.value, at);
      Some(if valid && SignatureHolds(trust.check, named.value, sig, signable) then named else None)
  }

  predicate Seen(out: seq<VerifiedSignature>, id: string) {
    exists v :: v in out && v.keyid == id
  }

  function Collected(trust: Trust, sigs: seq<Json>, signable: Bytes, at: string): Option<seq<VerifiedSignature>> {
    if sigs == [] then Some([])
    else
      var out :- Collected(trust, sigs[..|sigs| - 1], signable, at);
      var counting :- Counting(trust, sigs[|sigs| - 1], signable, at);
      Some(match counting
           case None => out
           case Some(key) =>
             if Seen(out, key.keyid) then out else out + [VerifiedSignature(key.keyid, key.ownerId, key.keyUse)])
  }

  /** `verified_signatures`; `None` raises. */
  function Verified(trust: Trust, envelope: Json, at: string): Option<seq<VerifiedSignature>> {
    var signable :- SignableBytes(envelope);
    var sigs :- SignaturesOf(envelope);
    Collected(trust, sigs, signable, at)
  }

  method VerifiedSignatures(trust: Trust, envelope: Json, at: string) returns (r: Option<seq<VerifiedSignature>>)
    ensures r == Verified(trust, envelope, at)
  {
    hide SignableBytes, SignaturesOf, KeyNamed, ValidAt, SignatureHolds;
    var signable := SignableBytes(envelope);
    if signable.None? {
      return None;
    }
    var sigs := SignaturesOf(envelope);
    if sigs.None? {
      return None;
    }
    var out, seen := [], {};
    for i := 0 to |sigs.value|
      invariant Collected(trust, sigs.value[..i], signable.value, at) == Some(out)
      invariant forall id :: id in seen <==> Seen(out, id)
    {
      var sig := sigs.value[i];
      assert sigs.value[..i + 1][..i] == sigs.value[..i];
      CollectedStops(trust, sigs.value, signable.value, at, i + 1);
      var named := KeyNamed(trust.keys, sig);
      if named.None? {
        return None;
      }
      if named.value.None? {
        continue;
      }
      var key := named.value.value;
      var valid := ValidAt(trust.parse, key, at);
      if valid.None? {
        return None;
      }
      if !valid.value || !SignatureHolds(trust.check, key, sig, signable.value) {
        continue;
      }
      if key.keyid !in seen {
        seen := seen + {key.keyid};
        out := out + [VerifiedSignature(key.keyid, key.ownerId, key.keyUse)];
      }
    }
    assert sigs.value[..|sigs.value|] == sigs.value;
    return Some(out);
  }

  /** A raise anywhere is a raise of the whole. */
  lemma {:induction false} CollectedStops(trust: Trust, sigs: seq<Json>, signable: Bytes, at: string, n: nat)
    requires n <= |sigs|
    ensures Collected(trust, sigs[..n], signable, at).None? ==> Collected(trust, sigs, signable, at).None?
    decreases |sigs|
  {
    hide Counting;
    if n < |sigs| {
      var init := sigs[..|sigs| - 1];
      assert init[..n] == sigs[..n];
      CollectedStops(trust, init, signable, at, n);
    } else {
      assert sigs[..n] == sigs;
    }
  }

  // ----------------------------------------------------- what the list consists of

  ghost predicate Distinct(out: seq<VerifiedSignature>) {
    forall i, j :: 0 <= i < j < |out| ==> out[i].keyid != out[j].keyid
  }

  /** Signature `sig` counts for `key`. */
  predicate CountsFor(trust: Trust, sig: Json, signable: Bytes, at: string, key: KeyRef) {
    Counting(trust, sig, signable, at) == Some(Some(key))
  }

  ghost predicate SomeCountsFor(trust: Trust, sigs: seq<Json>, signable: Bytes, at: string, key: KeyRef) {
    exists s :: s in sigs && CountsFor(trust, s, signable, at, key)
  }

  /** The list holds each key that a signature counts for, once. */
  lemma {:induction false} CollectedAreCounting(trust: Trust, sigs: seq<Json>, signable: Bytes, at: string)
    requires WellKeyed(trust.keys) && Collected(trust, sigs, signable, at).Some?
    ensures var out := Collected(trust, sigs, signable, at).value;
            && Distinct(out)
            && forall v :: v in out <==>
                 && v.keyid in trust.keys && v == SignedBy(trust.keys[v.keyid])
                 && SomeCountsFor(trust, sigs, signable, at, trust.keys[v.keyid])
  {
    hide Counting;
    if sigs != [] {
      var init, last := sigs[..|sigs| - 1], sigs[|sigs| - 1];
      CollectedAreCounting(trust, init, signable, at);
      assert sigs == init + [last];
      CountingIsKeyed(trust, last, signable, at);
      var counting := Counting(trust, last, signable, at).value;
      var before, out := Collected(trust, init, signable, at).value, Collected(trust, sigs, signable, at).value;
      forall key: KeyRef
        ensures SomeCountsFor(trust, sigs, signable, at, key)
           <==> SomeCountsFor(trust, init, signable, at, key) || counting == Some(key)
      {
        OneMoreSignature(trust, init, last, signable, at, key);
      }
      if counting.Some? {
        SeenIsListed(trust, before, counting.value);
      }
    }
  }

  function SignedBy(key: KeyRef): VerifiedSignature {
    VerifiedSignature(key.keyid, key.ownerId, key.keyUse)
  }

  lemma SeenIsListed(trust: Trust, out: seq<VerifiedSignature>, key: KeyRef)
    requires WellKeyed(trust.keys) && key.keyid in trust.keys && trust.keys[key.keyid] == key
    requires forall v :: v in out ==> v.keyid in trust.keys && v == SignedBy(trust.keys[v.keyid])
    ensures Seen(out, key.keyid) <==> SignedBy(key) in out
  {
  }

  lemma OneMoreSignature(trust: Trust, init: seq<Json>, last: Json, signable: Bytes, at: string, key: KeyRef)
    requires Counting(trust, last, signable, at).Some?
    ensures SomeCountsFor(trust, init + [last], signable, at, key)
       <==> SomeCountsFor(trust, init, signable, at, key) || Counting(trust, last, signable, at).value == Some(key)
  {
    hide Counting;
    var sigs := init + [last];
    assert forall s :: s in sigs <==> s in init || s == last;
    if Counting(trust, last, signable, at).value == Some(key) {
      assert CountsFor(trust, last, signable, at, key);
    }
  }

  lemma CountingIsKeyed(trust: Trust, sig: Json, signable: Bytes, at: string)
    requires WellKeyed(trust.keys)
    ensures var c := Counting(trust, sig, signable, at);
            c.Some? && c.value.Some? ==> c.value.value.keyid in trust.keys && trust.keys[c.value.value.keyid] == c.value.value
  {
    hide ValidAt, SignatureHolds;
  }

  // ------------------------------------------------------------- authorization

  /** One verified signature lets the envelope speak for the approver. */
  predicate Authorizes(keys: KeyMap, v: VerifiedSignature, approverId: string, logId: string, known: bool) {
    || (v.keyUse == APPROVER && v.ownerId == approverId)
    || (v.keyUse == DECISION_ISSUER && known && v.keyid in keys && ScopedTo(keys[v.keyid], logId))
  }

  /** `decision_authorized`; `None` raises. */
  function Authorized(trust: Trust, envelope: Json, approverId: string, logId: string, at: string, known: bool): Option<bool> {
    var vs :- Verified(trust, envelope, at);
    Some(exists v :: v in vs && Authorizes(trust.keys, v, approverId, logId, known))
  }

  method DecisionAuthorized(trust: Trust, envelope: Json, approverId: string, logId: string, at: string, known: bool)
      returns (r: Option<bool>)
    ensures r == Authorized(trust, envelope, approverId, logId, at, known)
  {
    hide Verified, ScopedTo;
    var vs := VerifiedSignatures(trust, envelope, at);
    if vs.None? {
      return None;
    }
    for i := 0 to |vs.value|
      invariant forall j :: 0 <= j < i ==> !Authorizes(trust.keys, vs.value[j], approverId, logId, known)
    {
      var v := vs.value[i];
      if v.keyUse == APPROVER && v.ownerId == approverId {
        assert Authorizes(trust.keys, v, approverId, logId, known);
        return Some(true);
      }
      if v.keyUse == DECISION_ISSUER && known && v.keyid in trust.keys && ScopedTo(trust.keys[v.keyid], logId) {
        assert Authorizes(trust.keys, v, approverId, logId, known);
        return Some(true);
      }
    }
    return Some(false);
  }

  /** The key may speak for the approver on this log. */
  predicate MaySpeakFor(key: KeyRef, approverId: string, logId: string, known: bool) {
    || (key.keyUse == APPROVER && key.ownerId == approverId)
    || (key.keyUse == DECISION_ISSUER && known && ScopedTo(key, logId))
  }

  /** An envelope is authorized exactly when one of its signatures counts for a key that may speak
      for the approver. */
  lemma AuthorizedBySignature(trust: Trust, envelope: Json, approverId: string, logId: string, at: string, known: bool)
    requires WellKeyed(trust.keys) && Verified(trust, envelope, at).Some?
    ensures Authorized(trust, envelope, approverId, logId, at, known) == Some(true)
       <==> exists id :: id in trust.keys && MaySpeakFor(trust.keys[id], approverId, logId, known)
              && SomeCountsFor(trust, SignaturesOf(envelope).value, SignableBytes(envelope).value, at, trust.keys[id])
  {
    hide SignableBytes, SignaturesOf, SomeCountsFor, Collected, Distinct, ScopedTo;
    var sigs, signable := SignaturesOf(envelope).value, SignableBytes(envelope).value;
    CollectedAreCounting(trust, sigs, signable, at);
    var out := Verified(trust, envelope, at).value;
    forall id | id in trust.keys && SomeCountsFor(trust, sigs, signable, at, trust.keys[id])
      ensures SignedBy(trust.keys[id]) in out
    {
      assert trust.keys[id].keyid == id;
    }
    forall v | v in out
      ensures Authorizes(trust.keys, v, approverId, logId, known) <==> MaySpeakFor(trust.keys[v.keyid], approverId, logId, known)
    {
    }
  }

  /** The signature is by this key, good at the time, over these bytes. */
  predicate Vouches(trust: Trust, sig: Json, signable: Bytes, at: string, id: string) {
    && sig.Obj? && GetOr(sig.fields, "keyid", Str("")) == Str(id)
    && id in trust.keys && GoodAt(trust.parse, trust.keys[id], at)
    && FromHex(trust.keys[id].publicHex).Some?
    && "sig" in sig.fields && sig.fields["sig"].Str? && Base64Decode(sig.fields["sig"].s).Some?
    && trust.check(trust.keys[id].scheme, FromHex(trust.keys[id].publicHex).value, Base64Decode(sig.fields["sig"].s).value, signable)
  }

  /** The approver's own key, or an issuer's key for this log while the approver is known. */
  predicate SpeaksFor(key: KeyRef, approverId: string, logId: string, known: bool) {
    || (key.keyUse == "approver" && key.ownerId == approverId)
    || (key.keyUse == "decision_issuer" && known && (key.logIds.Some? ==> logId in key.logIds.value))
  }

  lemma CountingVouches(trust: Trust, sig: Json, signable: Bytes, at: string, id: string)
    requires WellKeyed(trust.keys) && id in trust.keys
    ensures CountsFor(trust, sig, signable, at, trust.keys[id]) <==> Vouches(trust, sig, signable, at, id)
  {
    hide ValidAt, GoodAt, FromHex, Base64Decode;
    if sig.Obj? && GetOr(sig.fields, "keyid", Str("")).Str? && GetOr(sig.fields, "keyid", Str("")).s in trust.keys {
      var named := GetOr(sig.fields, "keyid", Str("")).s;
      assert trust.keys[named].keyid == named && trust.keys[id].keyid == id;
      ValidIsGood(trust.parse, trust.keys[named], at);
    }
  }

  /** Authorization from first principles: the envelope can be read, no signature on it raises, and
      one of them is by a key that is good at the time and speaks for the approver, and checks over
      the encoding of the envelope's type and body. */
  lemma AuthorizedExactly(trust: Trust, envelope: Json, approverId: string, logId: string, at: string, known: bool)
    requires WellKeyed(trust.keys)
    ensures Authorized(trust, envelope, approverId, logId, at, known) == Some(true)
       <==> && SignableBytes(envelope).Some? && SignaturesOf(envelope).Some?
            && (forall s :: s in SignaturesOf(envelope).value ==> Counting(trust, s, SignableBytes(envelope).value, at).Some?)
            && exists s, id :: s in SignaturesOf(envelope).value && id in trust.keys
                 && SpeaksFor(trust.keys[id], approverId, logId, known)
                 && Vouches(trust, s, SignableBytes(envelope).value, at, id)
  {
    hide SignableBytes, SignaturesOf, Counting, Vouches, Collected, MaySpeakFor, SpeaksFor, CountsFor;
    if SignableBytes(envelope).Some? && SignaturesOf(envelope).Some? {
      var sigs, signable := SignaturesOf(envelope).value, SignableBytes(envelope).value;
      CollectedRaises(trust, sigs, signable, at);
      forall s, id | id in trust.keys
        ensures CountsFor(trust, s, signable, at, trust.keys[id]) <==> Vouches(trust, s, signable, at, id)
      {
        CountingVouches(trust, s, signable, at, id);
      }
      forall id | id in trust.keys
        ensures MaySpeakFor(trust.keys[id], approverId, logId, known) <==> SpeaksFor(trust.keys[id], approverId, logId, known)
      {
        SpeakingAlike(trust.keys[id], approverId, logId, known);
      }
      if Verified(trust, envelope, at).Some? {
        AuthorizedBySignature(trust, envelope, approverId, logId, at, known);
        SomeVouch(trust, sigs, signable, at, approverId, logId, known);
      }
    }
  }

  lemma SpeakingAlike(key: KeyRef, approverId: string, logId: string, known: bool)
    ensures MaySpeakFor(key, approverId, logId, known) <==> SpeaksFor(key, approverId, logId, known)
  {
  }

  lemma SomeVouch(trust: Trust, sigs: seq<Json>, signable: Bytes, at: string, approverId: string, logId: string, known: bool)
    requires forall s, id :: id in trust.keys ==>
               (CountsFor(trust, s, signable, at, trust.keys[id]) <==> Vouches(trust, s, signable, at, id))
    requires forall id :: id in trust.keys ==>
               (MaySpeakFor(trust.keys[id], approverId, logId, known) <==> SpeaksFor(trust.keys[id], approverId, logId, known))
    ensures (exists id :: id in trust.keys && MaySpeakFor(trust.keys[id], approverId, logId, known)
                          && SomeCountsFor(trust, sigs, signable, at, trust.keys[id]))
       <==> exists s, id :: s in sigs && id in trust.keys && SpeaksFor(trust.keys[id], approverId, logId, known)
                            && Vouches(trust, s, signable, at, id)
  {
    hide CountsFor, Vouches, MaySpeakFor, SpeaksFor;
  }

  lemma {:induction false} CollectedRaises(trust: Trust, sigs: seq<Json>, signable: Bytes, at: string)
    ensures Collected(trust, sigs, signable, at).Some? <==> forall s :: s in sigs ==> Counting(trust, s, signable, at).Some?
  {
    hide Counting;
    if sigs != [] {
      var init, last := sigs[..|sigs| - 1], sigs[|sigs| - 1];
      assert sigs == init + [last];
      CollectedRaises(trust, init, signable, at);
    }
  }

  // ----------------------------------------------------------------- revocation

  /** Two readings of one signature that raise alike and name the same key, owner and use. */
  predicate SameStanding(x: Option<Option<KeyRef>>, y: Option<Option<KeyRef>>) {
    match (x, y)
    case (Some(Some(j)), Some(Some(k))) => SignedBy(j) == SignedBy(k)
    case _ => x == y
  }

  lemma {:induction false} SameCollection(trust: Trust, other: Trust, sigs: seq<Json>, signable: Bytes, at: string)
    requires forall s :: s in sigs ==> SameStanding(Counting(trust, s, signable, at), Counting(other, s, signable, at))
    ensures Collected(trust, sigs, signable, at) == Collected(other, sigs, signable, at)
  {
    hide Counting;
    if sigs != [] {
      var init, last := sigs[..|sigs| - 1], sigs[|sigs| - 1];
      assert sigs == init + [last];
      SameCollection(trust, other, init, signable, at);
    }
  }

  /** Revoking a key leaves every signature made before the revocation time as it was. */
  lemma RevocationIsNotRetroactive(trust: Trust, id: string, revokedAt: string, envelope: Json, at: string)
    requires id in trust.keys && trust.keys[id].revokedAt.None?
    requires trust.parse(revokedAt).Some? && trust.parse(at).Some?
    requires Less(trust.parse(at).value, trust.parse(revokedAt).value) == Some(true)
    ensures Verified(trust.(keys := Revoked(trust.keys, id, revokedAt)), envelope, at) == Verified(trust, envelope, at)
  {
    hide SignableBytes, SignaturesOf, SignatureHolds;
    var later := trust.(keys := Revoked(trust.keys, id, revokedAt));
    if SignableBytes(envelope).Some? && SignaturesOf(envelope).Some? {
      var sigs, signable := SignaturesOf(envelope).value, SignableBytes(envelope).value;
      SameHolds(trust, id, revokedAt, signable);
      SameCollection(trust, later, sigs, signable, at);
    }
  }

  lemma SameHolds(trust: Trust, id: string, revokedAt: string, signable: Bytes)
    requires id in trust.keys
    ensures forall s :: SignatureHolds(trust.check, Revoked(trust.keys, id, revokedAt)[id], s, signable)
                   <==> SignatureHolds(trust.check, trust.keys[id], s, signable)
  {
    hide FromHex, Base64Decode;
  }

  /** From the revocation time on, no signature of the key counts. */
  lemma RevokedKeysDoNotCount(trust: Trust, id: string, revokedAt: string, envelope: Json, at: string)
    requires id in trust.keys && WellKeyed(trust.keys)
    requires trust.parse(revokedAt).Some? && trust.parse(at).Some?
    requires Less(trust.parse(at).value, trust.parse(revokedAt).value) == Some(false)
    ensures var vs := Verified(trust.(keys := Revoked(trust.keys, id, revokedAt)), envelope, at);
            vs.Some? ==> !Seen(vs.value, id)
  {
    hide SignableBytes, SignaturesOf, SignatureHolds, Collected;
    var later := trust.(keys := Revoked(trust.keys, id, revokedAt));
    if Verified(later, envelope, at).Some? {
      var sigs, signable := SignaturesOf(envelope).value, SignableBytes(envelope).value;
      CollectedAreCounting(later, sigs, signable, at);
      assert ValidAt(trust.parse, later.keys[id], at) != Some(true);
      forall s | s in sigs
        ensures !CountsFor(later, s, signable, at, later.keys[id])
      {
        NotCountedWhenInvalid(later, s, signable, at, id);
      }
    }
  }

  lemma NotCountedWhenInvalid(trust: Trust, sig: Json, signable: Bytes, at: string, id: string)
    requires WellKeyed(trust.keys) && id in trust.keys && ValidAt(trust.parse, trust.keys[id], at) != Some(true)
    ensures !CountsFor(trust, sig, signable, at, trust.keys[id])
  {
    hide ValidAt, SignatureHolds;
  }

  // -------------------------------------------------------------------- signing

  datatype Signer = Signer(keyid: string, sign: Bytes -> Bytes)

  /** The directory knows the signer's key, and the key checks what the signer signs. */
  ghost predicate Signs(trust: Trust, signer: Signer) {
    && signer.keyid in trust.keys
    && var key := trust.keys[signer.keyid];
       && FromHex(key.publicHex).Some?
       && forall m :: trust.check(key.scheme, FromHex(key.publicHex).value, signer.sign(m), m)
  }

  /** A signature as it is stored: `{"keyid": ..., "sig": <base64>}`. */
  function SignatureEntry(keyid: string, sig: Bytes): (j: Json)
    ensures j.Obj?
  {
    Obj(map["keyid" := Str(keyid), "sig" := Str(Base64(sig))])
  }

  lemma EntryLookups(keyid: string, sig: Bytes)
    ensures var m := SignatureEntry(keyid, sig).fields; Has(m, "keyid", Str(keyid)) && Has(m, "sig", Str(Base64(sig)))
  {
    hide Base64;
  }

  /** What a trusted signer signs holds. */
  lemma SignedHolds(trust: Trust, signer: Signer, signable: Bytes)
    requires Signs(trust, signer)
    ensures var entry := SignatureEntry(signer.keyid, signer.sign(signable));
            && KeyNamed(trust.keys, entry) == Some(Some(trust.keys[signer.keyid]))
            && SignatureHolds(trust.check, trust.keys[signer.keyid], entry, signable)
  {
    hide Base64, Base64Decode, FromHex, SignatureEntry;
    EntryLookups(signer.keyid, signer.sign(signable));
    Base64RoundTrip(signer.sign(signable));
  }
}
