/** Public keys, what they may sign and when, and the directory that is the verifier's trust root. */
module Keys {
  import opened ByteStrings
  import opened Datetime

  datatype KeyRef = KeyRef(
    keyid: string,
    scheme: string,
    publicHex: string,
    ownerId: string,
    notBefore: string,
    notAfter: Option<string>,
    revokedAt: Option<string>,
    keyUse: string,
    logIds: Option<seq<string>>)

  const APPROVER := "approver"
  const DECISION_ISSUER := "decision_issuer"
  const LOG := "log"

  type KeyMap = map<string, KeyRef>

  /** Every key is filed under its own id. */
  predicate WellKeyed(keys: KeyMap) {
    forall id :: id in keys ==> keys[id].keyid == id
  }

  /** `valid_at`: both ends of the window are inclusive, the revocation time is not. `None` is a
      time that does not parse or cannot be compared, among those that are reached. */
  function ValidAt(parse: Parse, k: KeyRef, at: string): Option<bool> {
    var t :- parse(at);
    var from :- parse(k.notBefore);
    var early :- Less(t, from);
    if early then Some(false)
    else
      var late :- After(parse, t, k.notAfter);
      if late then Some(false)
      else
        var revoked :- AtOrAfter(parse, t, k.revokedAt);
        Some(!revoked)
  }

  function After(parse: Parse, t: DateTime, bound: Option<string>): Option<bool> {
    match bound
    case None => Some(false)
    case Some(text) =>
      var b :- parse(text);
      Less(b, t)
  }

  function AtOrAfter(parse: Parse, t: DateTime, bound: Option<string>): Option<bool> {
    match bound
    case None => Some(false)
    case Some(text) =>
      var b :- parse(text);
      var before :- Less(t, b);
      Some(!before)
  }

  /** The key is good at this time: not before its first moment, not after its last, and before it is
      revoked; every time that matters parses and can be compared. */
  predicate GoodAt(parse: Parse, k: KeyRef, at: string) {
    && parse(at).Some? && parse(k.notBefore).Some?
    && var t := parse(at).value;
       && parse(k.notBefore).value.offset.Some? == t.offset.Some? && Instant(parse(k.notBefore).value) <= Instant(t)
       && (k.notAfter.Some? ==>
            && parse(k.notAfter.value).Some? && parse(k.notAfter.value).value.offset.Some? == t.offset.Some?
            && Instant(t) <= Instant(parse(k.notAfter.value).value))
       && (k.revokedAt.Some? ==>
            && parse(k.revokedAt.value).Some? && parse(k.revokedAt.value).value.offset.Some? == t.offset.Some?
            && Instant(t) < Instant(parse(k.revokedAt.value).value))
  }

  lemma ValidIsGood(parse: Parse, k: KeyRef, at: string)
    ensures ValidAt(parse, k, at) == Some(true) <==> GoodAt(parse, k, at)
  {
  }

  /** `scoped_to`: no list of logs means every log. */
  predicate ScopedTo(k: KeyRef, logId: string) {
    k.logIds.None? || logId in k.logIds.value
  }

  /** The directory after `revoke`. */
  function Revoked(keys: KeyMap, id: string, at: string): KeyMap
    requires id in keys
  {
    keys[id := keys[id].(revokedAt := Some(at))]
  }

  /** The directory after adding keys in order: a later key of the same id replaces an earlier. */
  function Extended(keys: KeyMap, more: seq<KeyRef>): KeyMap {
    if more == [] then keys
    else Extended(keys, more[..|more| - 1])[more[|more| - 1].keyid := more[|more| - 1]]
  }

  lemma {:induction false} ExtendedLookup(keys: KeyMap, more: seq<KeyRef>, id: string)
    ensures id in Extended(keys, more) <==> id in keys || exists k :: k in more && k.keyid == id
    ensures id in Extended(keys, more) ==>
              if exists k :: k in more && k.keyid == id then
                exists i :: 0 <= i < |more| && more[i] == Extended(keys, more)[id] && more[i].keyid == id
                  && forall j :: i < j < |more| ==> more[j].keyid != id
              else Extended(keys, more)[id] == keys[id]
    ensures WellKeyed(keys) ==> WellKeyed(Extended(keys, more))
  {
    if more != [] {
      var n := |more| - 1;
      var init, k := more[..n], more[n];
      ExtendedLookup(keys, init, id);
      assert more == init + [k];
      if k.keyid == id {
        assert more[n] == Extended(keys, more)[id];
      }
    }
  }

  /** Revoking a key again with a later time makes it valid at the times in between: a key counts
      after the second call and did not before exactly there. */
  lemma ReRevoking(parse: Parse, k: KeyRef, again: string, at: string)
    requires parse(at).Some? && parse(again).Some?
    ensures var k' := k.(revokedAt := Some(again));
            ValidAt(parse, k', at) == Some(true) && ValidAt(parse, k, at) == Some(false)
            <==> ValidAt(parse, k.(revokedAt := None), at) == Some(true)
                 && k.revokedAt.Some? && parse(k.revokedAt.value).Some?
                 && Less(parse(at).value, parse(k.revokedAt.value).value) == Some(false)
                 && Less(parse(at).value, parse(again).value) == Some(true)
  {
  }

  class KeyDirectory {
    var keys: KeyMap

    ghost predicate Valid()
      reads this
    {
      WellKeyed(keys)
    }

    constructor (initial: seq<KeyRef>)
      ensures Valid() && keys == Extended(map[], initial)
    {
      keys := map[];
      new;
      Extend(initial);
    }

    method Add(key: KeyRef)
      requires Valid()
      modifies this
      ensures Valid() && keys == old(keys)[key.keyid := key]
    {
      keys := keys[key.keyid := key];
    }

    method Extend(more: seq<KeyRef>)
      requires Valid()
      modifies this
      ensures Valid() && keys == Extended(old(keys), more)
    {
      for i := 0 to |more|
        invariant Valid() && keys == Extended(old(keys), more[..i])
      {
        assert more[..i + 1][..i] == more[..i];
        keys := keys[more[i].keyid := more[i]];
      }
      assert more[..|more|] == more;
    }

    /** `KeyError` when there is no such key. */
    method Revoke(id: string, at: string) returns (found: bool)
      requires Valid()
      modifies this
      ensures Valid() && found == (id in old(keys))
      ensures keys == if found then Revoked(old(keys), id, at) else old(keys)
    {
      if id !in keys {
        return false;
      }
      keys := keys[id := keys[id].(revokedAt := Some(at))];
      return true;
    }
  }
}
