/**
 * The signing-key record and one rotation of it (server/rotation.go).
 *
 * `Rotated` is the value-level meaning of the updater that `rotate` hands to the
 * storage; `KeyRecord.Rotate` is that updater as the source runs it, compacting the
 * verification keys inside their backing array.
 */
module Rotation {
  import opened Common

  /** A JSON web key, represented by its key ID: signatures carry nothing else here. */
  type KeyId = int

  datatype VerificationKey = VerificationKey(publicKey: KeyId, expiry: Time)

  datatype Keys = Keys(
    signingKey: Option<KeyId>,
    signingKeyPub: Option<KeyId>,
    verificationKeys: seq<VerificationKey>,
    nextRotation: Time)

  /** The record of a store no rotation has touched; the zero time precedes every clock reading. */
  const NO_KEYS := Keys(None, None, [], 0)

  datatype Strategy = Strategy(rotationFrequency: Time, idTokenValidFor: Time)

  datatype RotationError = AlreadyRotated

  predicate Expired(key: VerificationKey, tNow: Time) {
    tNow > key.expiry
  }

  /** The entries of `keys` that have not expired, in order. */
  function Unexpired(keys: seq<VerificationKey>, tNow: Time): (kept: seq<VerificationKey>)
    ensures |kept| <= |keys|
  {
    if keys == [] then []
    else
      var init, last := keys[..|keys| - 1], keys[|keys| - 1];
      Unexpired(init, tNow) + (if Expired(last, tNow) then [] else [last])
  }

  /** What demoting the current signing key appends to the verification keys. */
  function Demoted(keys: Keys, tNow: Time, strategy: Strategy): seq<VerificationKey> {
    match keys.signingKeyPub
    case None => []
    case Some(pub) => [VerificationKey(pub, tNow + strategy.idTokenValidFor)]
  }

  /**
   * The updater: `tNow` is its first clock reading, `tLater` the second one, from which
   * the next rotation is scheduled.
   */
  function Rotated(keys: Keys, id: KeyId, tNow: Time, tLater: Time, strategy: Strategy): Result<Keys, RotationError> {
    if tNow < keys.nextRotation then Err(AlreadyRotated)
    else Ok(Keys(Some(id), Some(id),
                 Unexpired(keys.verificationKeys, tNow) + Demoted(keys, tNow, strategy),
                 tLater + strategy.rotationFrequency))
  }

  /** Membership in `Unexpired`: exactly the members that have not expired. */
  lemma {:induction false} UnexpiredMembers(keys: seq<VerificationKey>, tNow: Time, key: VerificationKey)
    ensures key in Unexpired(keys, tNow) <==> key in keys && tNow <= key.expiry
  {
    if keys != [] {
      var init, last := keys[..|keys| - 1], keys[|keys| - 1];
      assert keys == init + [last];
      UnexpiredMembers(init, tNow, key);
    }
  }

  /** The stored record, held the way the source holds it: a slice over a backing array. */
  class KeyRecord {
    var signingKey: Option<KeyId>
    var signingKeyPub: Option<KeyId>
    var slots: array<VerificationKey>
    var count: nat
    var nextRotation: Time

    ghost predicate Valid()
      reads this
    {
      count <= slots.Length
    }

    ghost function Value(): Keys
      requires Valid()
      reads this, slots
    {
      Keys(signingKey, signingKeyPub, slots[..count], nextRotation)
    }

    constructor ()
      ensures Valid() && fresh(slots)
      ensures Value() == NO_KEYS
    {
      signingKey, signingKeyPub, nextRotation, count := None, None, 0, 0;
      slots := new VerificationKey[0];
    }

    /**
     * Rotates in place. A refused rotation touches nothing. A reader still holding the old
     * slice (same array, same length) finds the unexpired keys at its front.
     */
    method Rotate(id: KeyId, tNow: Time, tLater: Time, strategy: Strategy) returns (done: bool)
      requires Valid()
      modifies this, slots
      ensures Valid()
      ensures done <==> old(nextRotation) <= tNow
      ensures done ==> signingKey == signingKeyPub == Some(id)
      ensures done ==> nextRotation == tLater + strategy.rotationFrequency
      ensures done ==> Value().verificationKeys ==
                         Unexpired(old(Value()).verificationKeys, tNow)
                         + (if old(signingKeyPub).None? then []
                            else [VerificationKey(old(signingKeyPub).value, tNow + strategy.idTokenValidFor)])
      ensures done ==> Rotated(old(Value()), id, tNow, tLater, strategy) == Ok(Value())
      ensures !done ==> unchanged(this) && unchanged(slots)
      ensures slots == old(slots) || fresh(slots)
      ensures done ==> var kept := Unexpired(old(slots[..count]), tNow);
                       |kept| <= old(slots).Length && old(slots)[..|kept|] == kept
    {
      if tNow < nextRotation {
        return false;
      }
      ghost var before := Value();
      Compact(tNow);
      ghost var kept := slots[..count];
      if signingKeyPub.Some? {
        Append(VerificationKey(signingKeyPub.value, tNow + strategy.idTokenValidFor));
        assert slots[..count] == kept + Demoted(before, tNow, strategy);
      } else {
        assert slots[..count] == kept + Demoted(before, tNow, strategy);
      }
      signingKey, signingKeyPub := Some(id), Some(id);
      nextRotation := tLater + strategy.rotationFrequency;
      return true;
    }

    /** Drops the expired keys inside the backing array, then truncates the slice. */
    method Compact(tNow: Time)
      requires Valid()
      modifies this`count, slots
      ensures Valid() && count <= old(count)
      ensures slots[..count] == Unexpired(old(slots[..count]), tNow)
    {
      ghost var before := slots[..count];
      var i := 0;
      for n := 0 to count
        invariant 0 <= i <= n
        invariant Valid() && count == old(count)
        invariant slots[..i] == Unexpired(before[..n], tNow)
        invariant slots[n..count] == before[n..]
      {
        assert before[..n + 1][..n] == before[..n];
        assert slots[n] == slots[n..count][0] == before[n];
        assert before[n + 1..] == before[n..][1..];
        if tNow <= slots[n].expiry {
          slots[i] := slots[n];
          i := i + 1;
        }
        assert slots[n + 1..count] == before[n + 1..];
      }
      assert before[..count] == before;
      count := i;
    }

    /** Go's `append`: reuse the backing array while it has room, otherwise move to a larger one. */
    method Append(key: VerificationKey)
      requires Valid()
      modifies this`slots, this`count, slots
      ensures Valid() && count == old(count) + 1
      ensures slots[..count] == old(slots[..count]) + [key]
      ensures slots == old(slots) || fresh(slots)
      ensures old(slots)[..old(count)] == old(slots[..count])
    {
      if count == slots.Length {
        var grown := new VerificationKey[2 * count + 1](_ => key);
        for n := 0 to count
          invariant slots == old(slots) && count == old(count) && slots[..] == old(slots[..])
          invariant fresh(grown) && grown.Length == 2 * count + 1
          invariant grown[..n] == slots[..n]
        {
          grown[n] := slots[n];
        }
        slots := grown;
      }
      slots[count] := key;
      count := count + 1;
    }
  }
}
