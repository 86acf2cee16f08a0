/**
 * The Kubernetes storage of clients, passwords and offline sessions (storage/kubernetes/client.go,
 * storage/kubernetes/storage.go): objects are filed under names computed from their keys with
 * a hash function that need not avoid collisions, so every read checks what it got.
 */
module Kubernetes {
  import opened Common
  import opened Base32

  type Name = string

  /** Any hash function, even a constant one. */
  type Hash = Bytes -> Bytes

  datatype Key =
    | ClientKey(id: Bytes)
    | PasswordKey(email: Bytes)
    | SessionKey(userID: Bytes, connID: Bytes)

  /** ObjectMeta.Name, the key fields of the item, and the rest of it. */
  datatype Object = Object(name: Name, key: Key, body: string)

  datatype StorageError = NotFound | AlreadyExists | WrongObject | UpdaterFailed

  function ToLower(b: Bytes): Bytes {
    seq(|b|, i requires 0 <= i < |b| => if 65 <= b[i] <= 90 then b[i] + 32 else b[i])
  }

  /** Two spellings of an email are the same in lower case if and only if they differ in the case of letters alone. */
  lemma SameLetters(a: Bytes, b: Bytes)
    ensures ToLower(a) == ToLower(b) <==>
            |a| == |b| && forall i :: 0 <= i < |a| ==>
              a[i] == b[i] || (65 <= a[i] <= 90 && b[i] == a[i] + 32) || (65 <= b[i] <= 90 && a[i] == b[i] + 32)
  {
    assert |ToLower(a)| == |a| && |ToLower(b)| == |b|;
    if |a| == |b| {
      forall i | 0 <= i < |a|
        ensures ToLower(a)[i] == ToLower(b)[i] <==>
                a[i] == b[i] || (65 <= a[i] <= 90 && b[i] == a[i] + 32) || (65 <= b[i] <= 90 && a[i] == b[i] + 32)
      {
      }
    }
  }

  /** Emails are filed and found in lower case. */
  function Norm(key: Key): Key {
    if key.PasswordKey? then PasswordKey(ToLower(key.email)) else key
  }

  // ---------------------------------------------------------------- names

  /** The hash is never fed the ID: its sum of nothing is appended to the ID, and that is encoded. */
  function IdToName(id: Bytes, hash: Hash): Name {
    TrimRight(Encode(id + hash([])))
  }

  /** Here the hash is fed both IDs, one after the other. */
  function OfflineTokenName(userID: Bytes, connID: Bytes, hash: Hash): Name {
    TrimRight(Encode(hash(userID + connID)))
  }

  function NameOf(key: Key, hash: Hash): Name {
    match key
    case ClientKey(id) => IdToName(id, hash)
    case PasswordKey(email) => IdToName(email, hash)
    case SessionKey(userID, connID) => OfflineTokenName(userID, connID, hash)
  }

  /** The name of a client or password spells its ID and the sum of nothing, five bits to a letter. */
  lemma IdNamesSpell(id: Bytes, hash: Hash, j: nat)
    ensures |IdToName(id, hash)| == (8 * |id + hash([])| + 4) / 5
    ensures j < |IdToName(id, hash)| ==>
              IdToName(id, hash)[j] == Letter(FiveBitsAt(id + hash([]), 5 * j))
  {
    TrimmedSpells(id + hash([]), j);
  }

  /** The name of a session spells the sum of both its IDs. */
  lemma SessionNamesSpell(userID: Bytes, connID: Bytes, hash: Hash, j: nat)
    ensures |OfflineTokenName(userID, connID, hash)| == (8 * |hash(userID + connID)| + 4) / 5
    ensures j < |OfflineTokenName(userID, connID, hash)| ==>
              OfflineTokenName(userID, connID, hash)[j] == Letter(FiveBitsAt(hash(userID + connID), 5 * j))
  {
    TrimmedSpells(hash(userID + connID), j);
  }

  /** Emails are found in lower case, IDs as they are. */
  lemma KeysAsFiled(key: Key)
    ensures key.PasswordKey? ==> Norm(key).PasswordKey? && Norm(key).email == ToLower(key.email)
    ensures !key.PasswordKey? ==> Norm(key) == key
  {
  }

  /** Whatever the hash, no two IDs share a name. */
  lemma IdToNameInjective(a: Bytes, b: Bytes, hash: Hash)
    ensures IdToName(a, hash) == IdToName(b, hash) <==> a == b
  {
    if IdToName(a, hash) == IdToName(b, hash) {
      TrimmedEncodingInjective(a + hash([]), b + hash([]));
      assert a == (a + hash([]))[..|a|] && b == (b + hash([]))[..|b|];
    }
  }

  /** Session names collide exactly when the hash does, on the two IDs written without a separator. */
  lemma OfflineTokenNamesCollide(u: Bytes, c: Bytes, u': Bytes, c': Bytes, hash: Hash)
    ensures OfflineTokenName(u, c, hash) == OfflineTokenName(u', c', hash) <==> hash(u + c) == hash(u' + c')
  {
    if OfflineTokenName(u, c, hash) == OfflineTokenName(u', c', hash) {
      TrimmedEncodingInjective(hash(u + c), hash(u' + c'));
    }
  }

  /** So there are different sessions with one name under every hash. */
  lemma SomeSessionsAlwaysCollide(hash: Hash)
    ensures SessionKey([1, 2], [3]) != SessionKey([1], [2, 3])
    ensures NameOf(SessionKey([1, 2], [3]), hash) == NameOf(SessionKey([1], [2, 3]), hash)
  {
    assert [1, 2] + [3] == [1] + [2, 3];
    OfflineTokenNamesCollide([1, 2], [3], [1], [2, 3], hash);
  }

  // ---------------------------------------------------------------- what the objects of a resource say

  type Table = map<Name, Object>

  /** Objects carry the name they are filed under, which is that of their key. */
  ghost predicate Filed(table: Table, hash: Hash) {
    forall n :: n in table ==> table[n].name == n == NameOf(table[n].key, hash)
  }

  /** What is stored for a key, regardless of how it is filed. */
  ghost predicate Holds(table: Table, key: Key, body: string) {
    exists n :: n in table && table[n].key == key && table[n].body == body
  }

  /** Get: the object of that name, provided it is the one asked for. */
  function Get(table: Table, key: Key, hash: Hash): Result<Object, StorageError> {
    var n := NameOf(Norm(key), hash);
    if n !in table then Err(NotFound)
    else if table[n].key != Norm(key) then Err(WrongObject)
    else Ok(table[n])
  }

  /** A get that succeeds returns what is stored for exactly that key; one that fails means nothing is. */
  lemma GetIsExact(table: Table, key: Key, hash: Hash)
    requires Filed(table, hash)
    ensures var r := Get(table, key, hash);
            if r.Ok? then r.value.key == Norm(key) && Holds(table, Norm(key), r.value.body)
            else forall body :: !Holds(table, Norm(key), body)
  {
  }

  /** At most one thing is stored for a key. */
  lemma HoldsOne(table: Table, key: Key, body: string, hash: Hash)
    requires Filed(table, hash) && Holds(table, key, body)
    ensures forall b :: Holds(table, key, b) ==> b == body
  {
  }

  /** `table'` holds `body` for `key`, or nothing if None, and for all other keys what `table` holds. */
  ghost predicate ChangesOnly(table: Table, table': Table, key: Key, body: Option<string>) {
    forall k, b {:trigger Holds(table', k, b)} {:trigger Holds(table, k, b)} ::
      Holds(table', k, b) <==> if k == key then body == Some(b) else Holds(table, k, b)
  }

  lemma PuttingChangesOnly(table: Table, item: Object, hash: Hash)
    requires Filed(table, hash) && item.name == NameOf(item.key, hash)
    requires item.name in table ==> table[item.name].key == item.key
    ensures Filed(table[item.name := item], hash)
    ensures ChangesOnly(table, table[item.name := item], item.key, Some(item.body))
  {
    var table' := table[item.name := item];
    forall k, b
      ensures Holds(table', k, b) <==> if k == item.key then Some(item.body) == Some(b) else Holds(table, k, b)
    {
      if k == item.key {
        assert item.name in table' && table'[item.name].key == k;
      } else if Holds(table, k, b) {
        var n :| n in table && table[n].key == k && table[n].body == b;
        assert n in table' && table'[n] == table[n];
      }
    }
  }

  lemma DeletingChangesOnly(table: Table, n: Name, hash: Hash)
    requires Filed(table, hash) && n in table
    ensures Filed(table - {n}, hash) && ChangesOnly(table, table - {n}, table[n].key, None)
  {
    var table', key := table - {n}, table[n].key;
    forall k, b
      ensures Holds(table', k, b) <==> if k == key then false else Holds(table, k, b)
    {
      if k != key && Holds(table, k, b) {
        var m :| m in table && table[m].key == k && table[m].body == b;
        assert m in table' && table'[m] == table[m];
      }
    }
  }

  // ---------------------------------------------------------------- the storage as it runs

  class Resource {
    const hash: Hash
    var table: Table

    ghost predicate Valid()
      reads this
    {
      Filed(table, hash)
    }

    constructor (hash: Hash)
      ensures Valid() && this.hash == hash && table == map[]
    {
      this.hash, table := hash, map[];
    }

    /** Create posts under the computed name; a name already taken, be it by another key, is a refusal. */
    method Create(key: Key, body: string) returns (r: Result<(), StorageError>)
      requires Valid()
      modifies this`table
      ensures Valid()
      ensures r.Ok? <==> NameOf(Norm(key), hash) !in old(table)
      ensures r.Ok? ==> ChangesOnly(old(table), table, Norm(key), Some(body))
      ensures r.Ok? ==> forall b :: !Holds(old(table), Norm(key), b)
      ensures r.Err? ==> table == old(table) && r.error == AlreadyExists
    {
      var item := Object(NameOf(Norm(key), hash), Norm(key), body);
      if item.name in table {
        return Err(AlreadyExists);
      }
      PuttingChangesOnly(table, item, hash);
      table := table[item.name := item];
      return Ok(());
    }

    /** Update gets, checks, runs the updater on what it got, and puts under the name of the object it got. */
    method Update(key: Key, updater: string -> Option<string>) returns (r: Result<(), StorageError>)
      requires Valid()
      modifies this`table
      ensures Valid()
      ensures r.Ok? <==> exists b :: Holds(old(table), Norm(key), b) && updater(b).Some?
      ensures r.Ok? ==>
                forall b :: Holds(old(table), Norm(key), b) ==> ChangesOnly(old(table), table, Norm(key), updater(b))
      ensures r.Err? ==> table == old(table)
      ensures r == Err(UpdaterFailed) <==> exists b :: Holds(old(table), Norm(key), b) && updater(b).None?
    {
      GetIsExact(table, key, hash);
      var got := Get(table, key, hash);
      if got.Err? {
        return Err(got.error);
      }
      HoldsOne(table, Norm(key), got.value.body, hash);
      var updated := updater(got.value.body);
      if updated.None? {
        return Err(UpdaterFailed);
      }
      var item := got.value.(body := updated.value);
      PuttingChangesOnly(table, item, hash);
      table := table[got.value.name := item];
      return Ok(());
    }

    /** Delete gets, checks, and deletes the name of the object it got. */
    method Delete(key: Key) returns (r: Result<(), StorageError>)
      requires Valid()
      modifies this`table
      ensures Valid()
      ensures r.Ok? <==> exists b :: Holds(old(table), Norm(key), b)
      ensures r.Ok? ==> ChangesOnly(old(table), table, Norm(key), None)
      ensures r.Err? ==> table == old(table)
    {
      GetIsExact(table, key, hash);
      var got := Get(table, key, hash);
      if got.Err? {
        return Err(got.error);
      }
      DeletingChangesOnly(table, got.value.name, hash);
      table := table - {got.value.name};
      return Ok(());
    }
  }

  /** A name is taken by another key only between offline sessions: clients and passwords are refused no create. */
  lemma OnlySessionsAreRefused(table: Table, key: Key, hash: Hash)
    requires Filed(table, hash) && NameOf(key, hash) in table
    requires (key.ClientKey? && table[NameOf(key, hash)].key.ClientKey?)
             || (key.PasswordKey? && table[NameOf(key, hash)].key.PasswordKey?)
    ensures Holds(table, key, table[NameOf(key, hash)].body)
  {
    var other := table[NameOf(key, hash)].key;
    if key.ClientKey? {
      IdToNameInjective(key.id, other.id, hash);
    } else {
      IdToNameInjective(key.email, other.email, hash);
    }
  }
}
