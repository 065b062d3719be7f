/** Signing a checkpoint with a log key, and verifying one. */
module SignedCheckpoints {
  import opened ByteStrings
  import opened JsonText
  import opened Canonical
  import opened Models
  import opened Datetime
  import opened Keys
  import opened Envelope
  import opened Verifier

  const CONTEXT: string := "approvo/checkpoint/v1\n"

  /** `checkpoint.signable_bytes`: a context string, then the canonical checkpoint without its
      signatures. */
  function CheckpointSignable(cp: Checkpoint): Bytes {
    Utf8(CONTEXT) + JsonBytes(Obj(SignedFields(cp)))
  }

  /** `sign_checkpoint` */
  function SignCheckpoint(cp: Checkpoint, signer: Signer): Checkpoint {
    cp.(signatures := cp.signatures + [SignatureEntry(signer.keyid, signer.sign(CheckpointSignable(cp)))])
  }

  /** `Some(owners)`, where no owners is `CheckpointUnverified`; `None` is any other exception. */
  type Signers = Option<seq<string>>

  /** The owner one signature counts for: a log key of this log, valid at the time of publication. */
  function LogOwner(trust: Trust, cp: Checkpoint, sig: Json): Option<Option<string>> {
    var named :- KeyNamed(trust.keys, sig);
    if named.None? || named.value.keyUse != LOG then Some(None)
    else
      var key := named.value;
      var valid :- ValidAt(trust.parse, key, cp.publishedAt);
      Some(if valid && ScopedTo(key, cp.logId) && SignatureHolds(trust.check, key, sig, CheckpointSignable(cp))
           then Some(key.ownerId) else None)
  }

  function LogOwners(trust: Trust, cp: Checkpoint, sigs: seq<Json>): Signers {
    if sigs == [] then Some([])
    else
      var owners :- LogOwners(trust, cp, sigs[..|sigs| - 1]);
      var owner :- LogOwner(trust, cp, sigs[|sigs| - 1]);
      Some(if owner.Some? then owners + [owner.value] else owners)
  }

  /** `verify_checkpoint` accepts. */
  predicate Accepts(trust: Trust, cp: Checkpoint) {
    var owners := LogOwners(trust, cp, cp.signatures);
    owners.Some? && owners.value != []
  }

  method VerifyCheckpoint(trust: Trust, cp: Checkpoint) returns (verified: Signers)
    ensures verified == LogOwners(trust, cp, cp.signatures)
    ensures Accepts(trust, cp) <==> verified.Some? && verified.value != []
  {
    hide KeyNamed, ValidAt, ScopedTo, SignatureHolds, CheckpointSignable;
    var signable := CheckpointSignable(cp);
    var owners: seq<string> := [];
    var sigs := cp.signatures;
    for i := 0 to |sigs|
      invariant LogOwners(trust, cp, sigs[..i]) == Some(owners)
    {
      var sig := sigs[i];
      assert sigs[..i + 1][..i] == sigs[..i];
      OwnersStop(trust, cp, sigs, i + 1);
      var named := KeyNamed(trust.keys, sig);
      if named.None? {
        return None;
      }
      if named.value.None? || named.value.value.keyUse != LOG {
        continue;
      }
      var key := named.value.value;
      var valid := ValidAt(trust.parse, key, cp.publishedAt);
      if valid.None? {
        return None;
      }
      if !valid.value || !ScopedTo(key, cp.logId) {
        continue;
      }
      if !SignatureHolds(trust.check, key, sig, signable) {
        continue;
      }
      owners := owners + [key.ownerId];
    }
    assert sigs[..|sigs|] == sigs;
    return Some(owners);
  }

  lemma {:induction false} OwnersStop(trust: Trust, cp: Checkpoint, sigs: seq<Json>, n: nat)
    requires n <= |sigs|
    ensures LogOwners(trust, cp, sigs[..n]).None? ==> LogOwners(trust, cp, sigs).None?
    decreases |sigs|
  {
    hide LogOwner;
    if n < |sigs| {
      var init := sigs[..|sigs| - 1];
      assert init[..n] == sigs[..n];
      OwnersStop(trust, cp, init, n);
    } else {
      assert sigs[..n] == sigs;
    }
  }

  /** An accepted checkpoint was signed, over exactly these fields, by a log key of this log that
      was valid when it was published. */
  lemma {:induction false} AcceptedWasSigned(trust: Trust, cp: Checkpoint, sigs: seq<Json>) returns (sig: Json, key: KeyRef)
    requires LogOwners(trust, cp, sigs).Some? && LogOwners(trust, cp, sigs).value != []
    ensures sig in sigs && KeyNamed(trust.keys, sig) == Some(Some(key)) && key.keyUse == LOG && ScopedTo(key, cp.logId)
    ensures ValidAt(trust.parse, key, cp.publishedAt) == Some(true)
    ensures SignatureHolds(trust.check, key, sig, CheckpointSignable(cp))
  {
    hide KeyNamed, ValidAt, ScopedTo, SignatureHolds, CheckpointSignable;
    var n := |sigs| - 1;
    if LogOwner(trust, cp, sigs[n]).value.Some? {
      sig, key := sigs[n], KeyNamed(trust.keys, sigs[n]).value.value;
    } else {
      sig, key := AcceptedWasSigned(trust, cp, sigs[..n]);
    }
  }

  /** Acceptance from first principles: no signature raises, and one of them is by a log key for this
      log, good at publication, and checks over the context and the canonical checkpoint. */
  lemma AcceptedExactly(trust: Trust, cp: Checkpoint)
    requires WellKeyed(trust.keys)
    ensures Accepts(trust, cp)
       <==> && (forall s :: s in cp.signatures ==> LogOwner(trust, cp, s).Some?)
            && exists s, id :: s in cp.signatures && id in trust.keys && trust.keys[id].keyUse == "log"
                 && (trust.keys[id].logIds.Some? ==> cp.logId in trust.keys[id].logIds.value)
                 && Vouches(trust, s, Utf8("approvo/checkpoint/v1\n") + JsonBytes(Obj(SignedFields(cp))), cp.publishedAt, id)
  {
    hide Vouches, LogOwner, JsonBytes, SignedFields, Utf8;
    OwnersExactly(trust, cp, cp.signatures);
    forall s | s in cp.signatures && LogOwner(trust, cp, s).Some?
      ensures LogOwner(trust, cp, s).value.Some?
         <==> exists id :: id in trust.keys && trust.keys[id].keyUse == "log"
                && (trust.keys[id].logIds.Some? ==> cp.logId in trust.keys[id].logIds.value)
                && Vouches(trust, s, CheckpointSignable(cp), cp.publishedAt, id)
    {
      OwnerExactly(trust, cp, s);
    }
  }

  lemma {:induction false} OwnersExactly(trust: Trust, cp: Checkpoint, sigs: seq<Json>)
    ensures LogOwners(trust, cp, sigs).Some? <==> forall s :: s in sigs ==> LogOwner(trust, cp, s).Some?
    ensures LogOwners(trust, cp, sigs).Some? ==>
              (LogOwners(trust, cp, sigs).value != [] <==> exists s :: s in sigs && LogOwner(trust, cp, s).value.Some?)
  {
    hide LogOwner;
    if sigs != [] {
      var init, last := sigs[..|sigs| - 1], sigs[|sigs| - 1];
      assert sigs == init + [last];
      OwnersExactly(trust, cp, init);
    }
  }

  lemma OwnerExactly(trust: Trust, cp: Checkpoint, s: Json)
    requires WellKeyed(trust.keys) && LogOwner(trust, cp, s).Some?
    ensures LogOwner(trust, cp, s).value.Some?
       <==> exists id :: id in trust.keys && trust.keys[id].keyUse == "log"
              && (trust.keys[id].logIds.Some? ==> cp.logId in trust.keys[id].logIds.value)
              && Vouches(trust, s, CheckpointSignable(cp), cp.publishedAt, id)
  {
    hide ValidAt, GoodAt, FromHex, Base64Decode, CheckpointSignable;
    if s.Obj? && GetOr(s.fields, "keyid", Str("")).Str? && GetOr(s.fields, "keyid", Str("")).s in trust.keys {
      var named := GetOr(s.fields, "keyid", Str("")).s;
      ValidIsGood(trust.parse, trust.keys[named], cp.publishedAt);
    }
  }

  /** A trusted log signer's checkpoint is accepted. */
  lemma SignedIsAccepted(trust: Trust, cp: Checkpoint, signer: Signer)
    requires Signs(trust, signer) && cp.signatures == []
    requires var key := trust.keys[signer.keyid];
             key.keyUse == LOG && ScopedTo(key, cp.logId) && ValidAt(trust.parse, key, cp.publishedAt) == Some(true)
    ensures Accepts(trust, SignCheckpoint(cp, signer))
  {
    hide KeyNamed, ValidAt, ScopedTo, SignatureHolds, SignatureEntry, CheckpointSignable, FromHex, LogOwners, LogOwner;
    var signable := CheckpointSignable(cp);
    var entry := SignatureEntry(signer.keyid, signer.sign(signable));
    var signed := SignCheckpoint(cp, signer);
    SignedHolds(trust, signer, signable);
    SignaturesAreNotSigned(cp, signed);
    assert signed == cp.(signatures := [entry]);
    OneOwner(trust, signed, entry);
    OwnerCounts(trust, signed, entry, trust.keys[signer.keyid]);
  }

  lemma OwnerCounts(trust: Trust, cp: Checkpoint, sig: Json, key: KeyRef)
    requires KeyNamed(trust.keys, sig) == Some(Some(key)) && SignatureHolds(trust.check, key, sig, CheckpointSignable(cp))
    requires key.keyUse == LOG && ScopedTo(key, cp.logId) && ValidAt(trust.parse, key, cp.publishedAt) == Some(true)
    ensures LogOwner(trust, cp, sig) == Some(Some(key.ownerId))
  {
    hide KeyNamed, ValidAt, ScopedTo, SignatureHolds, CheckpointSignable;
  }

  lemma SignaturesAreNotSigned(cp: Checkpoint, other: Checkpoint)
    requires cp.(signatures := []) == other.(signatures := [])
    ensures CheckpointSignable(cp) == CheckpointSignable(other)
  {
    hide JsonBytes;
    assert SignedFields(cp) == SignedFields(cp.(signatures := [])) == SignedFields(other);
  }

  lemma OneOwner(trust: Trust, cp: Checkpoint, sig: Json)
    ensures LogOwners(trust, cp, [sig]) ==
      (if LogOwner(trust, cp, sig).None? then None
       else if LogOwner(trust, cp, sig).value.None? then Some([]) else Some([LogOwner(trust, cp, sig).value.value]))
  {
    hide LogOwner;
    assert [sig][..0] == [] && LogOwners(trust, cp, []) == Some([]);
    if LogOwner(trust, cp, sig).Some? && LogOwner(trust, cp, sig).value.Some? {
      assert [] + [LogOwner(trust, cp, sig).value.value] == [LogOwner(trust, cp, sig).value.value];
    }
  }

  /** A log key's signature covers every field of a checkpoint but the list of signatures. */
  lemma CheckpointSignableBinds(cp: Checkpoint, other: Checkpoint)
    requires CheckpointSignable(cp) == CheckpointSignable(other)
    ensures cp.(signatures := []) == other.(signatures := [])
  {
    hide SignedFields, JsonBytes, LoadBytes, Utf8;
    var j, k := Obj(SignedFields(cp)), Obj(SignedFields(other));
    DropCommon(Utf8(CONTEXT), JsonBytes(j), JsonBytes(k));
    LoadBytesInverts(j);
    LoadBytesInverts(k);
    SignedLookups(cp);
    SignedLookups(other);
    var m := SignedFields(cp);
    assert m == SignedFields(other);
    assert Has(m, "schema", Str(other.schema)) && Has(m, "log_id", Str(other.logId));
    assert Has(m, "tree_size", Int(other.treeSize)) && Has(m, "root_hash", Str(other.rootHash));
    assert Has(m, "published_at", Str(other.publishedAt)) && Has(m, "prev_root_hash", OptStr(other.prevRootHash));
  }
}
