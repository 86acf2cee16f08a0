/**
 * Read-only static entries laid over a storage (storage/static.go): clients, passwords and
 * connectors are treated alike, except that passwords are found by lower-cased email.
 */
module StaticOverlay {
  import opened Common

  datatype Kind = Clients | Passwords | Connectors

  /** A client, password or connector: the ID or email it is filed under, and everything else. */
  datatype Item = Item(name: string, body: string)

  datatype WriteError = ReadOnly | AlreadyExists | NotFound

  function Lower(c: char): char {
    if 'A' <= c <= 'Z' then c - 'A' + 'a' else c
  }

  function ToLower(s: string): string {
    seq(|s|, i requires 0 <= i < |s| => Lower(s[i]))
  }

  lemma SameLetter(c: char, d: char)
    ensures Lower(c) == Lower(d) <==>
            || c == d
            || ('A' <= c <= 'Z' && d as int == c as int + 32)
            || ('A' <= d <= 'Z' && c as int == d as int + 32)
  {
  }

  /** Two spellings of an email are the same in lower case if and only if they differ in the case of letters alone. */
  lemma SameLetters(a: string, b: string)
    ensures ToLower(a) == ToLower(b) <==>
            |a| == |b| && forall i :: 0 <= i < |a| ==>
              || a[i] == b[i]
              || ('A' <= a[i] <= 'Z' && b[i] as int == a[i] as int + 32)
              || ('A' <= b[i] <= 'Z' && a[i] as int == b[i] as int + 32)
  {
    assert |ToLower(a)| == |a| && |ToLower(b)| == |b|;
    if |a| == |b| {
      forall i | 0 <= i < |a|
        ensures ToLower(a)[i] == ToLower(b)[i] <==>
                || a[i] == b[i]
                || ('A' <= a[i] <= 'Z' && b[i] as int == a[i] as int + 32)
                || ('A' <= b[i] <= 'Z' && a[i] as int == b[i] as int + 32)
      {
        SameLetter(a[i], b[i]);
      }
    }
  }

  /** What entries of this kind are looked up by. */
  function Norm(kind: Kind, name: string): string {
    if kind.Passwords? then ToLower(name) else name
  }

  function KeyOf(kind: Kind, item: Item): string {
    Norm(kind, item.name)
  }

  // ---------------------------------------------------------------- what a list says about a key

  /** The last entry with the key, if there is one. */
  function LastWith(kind: Kind, items: seq<Item>, key: string): Option<Item> {
    if items == [] then None
    else if KeyOf(kind, items[|items| - 1]) == key then Some(items[|items| - 1])
    else LastWith(kind, items[..|items| - 1], key)
  }

  /** The index the constructor builds: later entries replace earlier ones. */
  function Index(kind: Kind, items: seq<Item>): map<string, Item> {
    if items == [] then map[]
    else Index(kind, items[..|items| - 1])[KeyOf(kind, items[|items| - 1]) := items[|items| - 1]]
  }

  /** The entries of `items` that no static entry hides. */
  function Unhidden(kind: Kind, statics: map<string, Item>, items: seq<Item>): (kept: seq<Item>)
    ensures |kept| <= |items|
  {
    if items == [] then []
    else
      var last := items[|items| - 1];
      Unhidden(kind, statics, items[..|items| - 1]) + (if KeyOf(kind, last) in statics then [] else [last])
  }

  function Look(table: map<string, Item>, key: string): Option<Item> {
    if key in table then Some(table[key]) else None
  }

  lemma {:induction false} IndexFindsLast(kind: Kind, items: seq<Item>, key: string)
    ensures Look(Index(kind, items), key) == LastWith(kind, items, key)
  {
    if items != [] {
      IndexFindsLast(kind, items[..|items| - 1], key);
    }
  }

  lemma {:induction false} LastOfConcat(kind: Kind, items: seq<Item>, more: seq<Item>, key: string)
    ensures LastWith(kind, items + more, key) ==
            if LastWith(kind, more, key).Some? then LastWith(kind, more, key) else LastWith(kind, items, key)
  {
    if more == [] {
      assert items + more == items;
    } else {
      assert (items + more)[..|items + more| - 1] == items + more[..|more| - 1];
      LastOfConcat(kind, items, more[..|more| - 1], key);
    }
  }

  lemma {:induction false} LastUnhidden(kind: Kind, statics: map<string, Item>, items: seq<Item>, key: string)
    ensures LastWith(kind, Unhidden(kind, statics, items), key) ==
            if key in statics then None else LastWith(kind, items, key)
  {
    if items != [] {
      var init, last := items[..|items| - 1], items[|items| - 1];
      LastUnhidden(kind, statics, init, key);
      LastOfConcat(kind, Unhidden(kind, statics, init), [last], key);
      var kept := Unhidden(kind, statics, init);
      assert kept + [] == kept;
    }
  }

  // ---------------------------------------------------------------- the backing storage

  /** Entries are filed under their own keys. */
  ghost predicate Filed(kind: Kind, table: map<string, Item>) {
    forall key :: key in table ==> KeyOf(kind, table[key]) == key
  }

  /** `items` lists `table`, in whatever order. */
  ghost predicate Enumerates(kind: Kind, items: seq<Item>, table: map<string, Item>) {
    && (forall i :: 0 <= i < |items| ==> KeyOf(kind, items[i]) in table && table[KeyOf(kind, items[i])] == items[i])
    && (forall key :: key in table ==> table[key] in items)
  }

  lemma {:induction false} LastIn(kind: Kind, items: seq<Item>, key: string)
    ensures LastWith(kind, items, key).Some? <==> exists i :: 0 <= i < |items| && KeyOf(kind, items[i]) == key
    ensures LastWith(kind, items, key).Some? ==>
              LastWith(kind, items, key).value in items && KeyOf(kind, LastWith(kind, items, key).value) == key
  {
    if items != [] && KeyOf(kind, items[|items| - 1]) != key {
      var init := items[..|items| - 1];
      LastIn(kind, init, key);
      if i :| 0 <= i < |items| && KeyOf(kind, items[i]) == key {
        assert init[i] == items[i];
      }
    }
  }

  lemma EnumerationFinds(kind: Kind, items: seq<Item>, table: map<string, Item>, key: string)
    requires Filed(kind, table) && Enumerates(kind, items, table)
    ensures LastWith(kind, items, key) == Look(table, key)
  {
    LastIn(kind, items, key);
    if key in table {
      var i :| 0 <= i < |items| && items[i] == table[key];
    }
  }

  // ---------------------------------------------------------------- writes

  datatype Write =
    | Create(item: Item)
    | Delete(name: string)
    | Update(name: string, body: string)

  function Target(kind: Kind, w: Write): string {
    match w
    case Create(item) => KeyOf(kind, item)
    case Delete(name) => Norm(kind, name)
    case Update(name, _) => Norm(kind, name)
  }

  /** A write to a plain table; updates leave the name alone. */
  function Written(kind: Kind, table: map<string, Item>, w: Write): Result<map<string, Item>, WriteError> {
    var key := Target(kind, w);
    match w
    case Create(item) => if key in table then Err(AlreadyExists) else Ok(table[key := item])
    case Delete(_) => if key in table then Ok(table - {key}) else Err(NotFound)
    case Update(_, body) => if key in table then Ok(table[key := table[key].(body := body)]) else Err(NotFound)
  }

  function OverlayWritten(kind: Kind, statics: map<string, Item>, table: map<string, Item>, w: Write)
    : Result<map<string, Item>, WriteError>
  {
    if Target(kind, w) in statics then Err(ReadOnly) else Written(kind, table, w)
  }

  /** The table after a sequence of writes, refused ones included. */
  function AllWritten(kind: Kind, statics: map<string, Item>, table: map<string, Item>, ws: seq<Write>)
    : map<string, Item>
  {
    if ws == [] then table
    else
      var before := AllWritten(kind, statics, table, ws[..|ws| - 1]);
      var r := OverlayWritten(kind, statics, before, ws[|ws| - 1]);
      if r.Ok? then r.value else before
  }

  /** What readers see: the static entries, and the rest of the table. */
  function Seen(statics: map<string, Item>, table: map<string, Item>): map<string, Item> {
    table + statics
  }

  /** To its readers a write either fails as it would on a plain table of what is seen, or does there what it does. */
  lemma WritesActOnWhatIsSeen(kind: Kind, statics: map<string, Item>, table: map<string, Item>, w: Write)
    ensures var r := OverlayWritten(kind, statics, table, w);
            if Target(kind, w) in statics then r == Err(ReadOnly)
            else r.Ok? == Written(kind, Seen(statics, table), w).Ok?
                 && (r.Ok? ==> Seen(statics, r.value) == Written(kind, Seen(statics, table), w).value)
                 && (r.Err? ==> r == Written(kind, Seen(statics, table), w))
  {
    var r := OverlayWritten(kind, statics, table, w);
    if r.Ok? {
      assert Seen(statics, r.value) == Written(kind, Seen(statics, table), w).value;
    }
  }

  /** No sequence of writes changes what is seen or stored under a static key, and entries stay filed. */
  lemma {:induction false} StaticEntriesNeverChange(
    kind: Kind, statics: map<string, Item>, table: map<string, Item>, ws: seq<Write>, key: string)
    requires key in statics && Filed(kind, table)
    ensures var after := AllWritten(kind, statics, table, ws);
            && Seen(statics, after)[key] == statics[key]
            && Look(after, key) == Look(table, key)
            && Filed(kind, after)
  {
    if ws != [] {
      StaticEntriesNeverChange(kind, statics, table, ws[..|ws| - 1], key);
    }
  }

  /** The last listed entry of a key is what a lookup finds. */
  lemma ListedAsSeen(kind: Kind, statics: seq<Item>, listed: seq<Item>, table: map<string, Item>, key: string)
    requires Filed(kind, table) && Enumerates(kind, listed, table)
    ensures var byKey := Index(kind, statics);
            LastWith(kind, Unhidden(kind, byKey, listed) + statics, key) == Look(Seen(byKey, table), key)
  {
    var byKey := Index(kind, statics);
    LastOfConcat(kind, Unhidden(kind, byKey, listed), statics, key);
    IndexFindsLast(kind, statics, key);
    LastUnhidden(kind, byKey, listed, key);
    EnumerationFinds(kind, listed, table, key);
  }

  // ---------------------------------------------------------------- the overlay as it runs

  class Overlay {
    const kind: Kind
    const statics: seq<Item>
    const byKey: map<string, Item>
    var backing: map<string, Item>

    ghost predicate Valid()
      reads this
    {
      byKey == Index(kind, statics) && Filed(kind, backing)
    }

    constructor (kind: Kind, statics: seq<Item>, backing: map<string, Item>)
      requires Filed(kind, backing)
      ensures Valid() && this.kind == kind && this.statics == statics && this.backing == backing
    {
      var index: map<string, Item> := map[];
      for i := 0 to |statics|
        invariant index == Index(kind, statics[..i])
      {
        assert statics[..i + 1][..i] == statics[..i];
        index := index[KeyOf(kind, statics[i]) := statics[i]];
      }
      assert statics[..|statics|] == statics;
      this.kind, this.statics, this.byKey, this.backing := kind, statics, index, backing;
    }

    method Get(name: string) returns (r: Option<Item>)
      requires Valid()
      ensures r == Look(Seen(byKey, backing), Norm(kind, name))
      ensures var key := if kind.Passwords? then ToLower(name) else name;
              r == if LastWith(kind, statics, key).Some? then LastWith(kind, statics, key)
                   else if key in backing then Some(backing[key]) else None
    {
      IndexFindsLast(kind, statics, Norm(kind, name));
      var key := Norm(kind, name);
      if key in byKey {
        return Some(byKey[key]);
      }
      if key in backing {
        return Some(backing[key]);
      }
      return None;
    }

    /**
     * The listing; `listed` is what the backing storage answered. The hidden entries are
     * squeezed out in place. Get and List agree: Get finds the last listed entry of a key.
     */
    method List(listed: seq<Item>) returns (r: seq<Item>)
      requires Valid() && Enumerates(kind, listed, backing)
      ensures r == Unhidden(kind, byKey, listed) + statics
      ensures forall name :: LastWith(kind, r, Norm(kind, name)) == Look(Seen(byKey, backing), Norm(kind, name))
    {
      var items := new Item[|listed|](i requires 0 <= i < |listed| => listed[i]);
      var n := Squeeze(items, listed);
      r := items[..n] + statics;
      forall name
        ensures LastWith(kind, r, Norm(kind, name)) == Look(Seen(byKey, backing), Norm(kind, name))
      {
        ListedAsSeen(kind, statics, listed, backing, Norm(kind, name));
      }
    }

    method Squeeze(items: array<Item>, ghost listed: seq<Item>) returns (n: nat)
      requires items[..] == listed
      modifies items
      ensures n <= items.Length && items[..n] == Unhidden(kind, byKey, listed)
    {
      n := 0;
      for i := 0 to items.Length
        invariant n <= i
        invariant items[..n] == Unhidden(kind, byKey, listed[..i])
        invariant items[i..] == listed[i..]
      {
        assert items[i] == items[i..][0] == listed[i];
        assert listed[..i + 1][..i] == listed[..i];
        assert listed[i + 1..] == listed[i..][1..];
        if KeyOf(kind, items[i]) !in byKey {
          items[n] := items[i];
          n := n + 1;
        }
        assert items[i + 1..] == listed[i + 1..];
      }
      assert listed[..items.Length] == listed;
    }

    method Apply(w: Write) returns (r: Result<(), WriteError>)
      requires Valid()
      modifies this`backing
      ensures Valid()
      ensures var expected := OverlayWritten(kind, byKey, old(backing), w);
              if expected.Ok? then r.Ok? && backing == expected.value
              else r == Err(expected.error) && backing == old(backing)
      ensures var key := Norm(kind, if w.Create? then w.item.name else w.name);
              && (key in byKey ==> r == Err(ReadOnly))
              && (key !in byKey && w.Create? ==>
                    r == if key in old(backing) then Err(AlreadyExists) else Ok(()))
              && (key !in byKey && !w.Create? ==> r == if key in old(backing) then Ok(()) else Err(NotFound))
              && (r.Err? ==> backing == old(backing))
              && (r.Ok? ==>
                    && backing - {key} == old(backing) - {key}
                    && (w.Create? ==> key in backing && backing[key] == w.item)
                    && (w.Delete? ==> key !in backing)
                    && (w.Update? ==> key in backing && backing[key].name == old(backing)[key].name
                                      && backing[key].body == w.body))
    {
      var key := Target(kind, w);
      if key in byKey {
        return Err(ReadOnly);
      }
      match w {
        case Create(item) =>
          if key in backing {
            return Err(AlreadyExists);
          }
          backing := backing[key := item];
        case Delete(_) =>
          if key !in backing {
            return Err(NotFound);
          }
          backing := backing - {key};
        case Update(_, body) =>
          if key !in backing {
            return Err(NotFound);
          }
          backing := backing[key := backing[key].(body := body)];
      }
      return Ok(());
    }
  }
}
