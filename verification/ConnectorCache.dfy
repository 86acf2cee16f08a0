/**
 * The per-server cache of opened connectors (server/server.go): getConnector reads the
 * stored record first and opens it unless the cache holds that very version. The mutex covers
 * single accesses of the cache only, so other requests come in between.
 */
module ConnectorCache {
  import opened Common

  type Tid = int

  /** A stored connector. */
  datatype Record = Record(id: string, kind: string, version: string, config: string)

  /** An opened connector: the version it was filed with, and the record it was opened from. */
  datatype Connector = Connector(version: string, source: Record)

  /** Where a getConnector call stands. */
  datatype Thread =
    | Read(rec: Record)                                  // record read, cache not yet consulted
    | Consulted(rec: Record, cached: Option<Connector>)  // cache consulted
    | Opened(rec: Record, conn: Connector)               // opened afresh, cache not yet written
    | Returned(rec: Record, conn: Connector)
    | Failed

  datatype State = State(
    storage: map<string, Record>,
    cache: map<string, Connector>,
    threads: map<Tid, Thread>,
    seen: set<Record>)  // every record a call has read

  const INIT := State(map[], map[], map[], {})

  datatype Event =
    | Configure(rec: Record)
    | Remove(id: string)
    | Startup(t: Tid, id: string)   // the server starts up and opens this record, whatever is cached
    | Begin(t: Tid, id: string)
    | Advance(t: Tid, opens: bool)  // `opens`: whether opening the record, if it comes to that, succeeds

  function Open(rec: Record): Connector {
    Connector(rec.version, rec)
  }

  /** Hit: the cached connector has the version that was read. */
  function Decide(rec: Record, cached: Option<Connector>, opens: bool): Thread {
    if cached.Some? && rec.version == cached.value.version then Returned(rec, cached.value)
    else if opens then Opened(rec, Open(rec))
    else Failed
  }

  function AdvanceThread(s: State, th: Thread, opens: bool): Thread {
    match th
    case Read(rec) => Consulted(rec, if rec.id in s.cache then Some(s.cache[rec.id]) else None)
    case Consulted(rec, cached) => Decide(rec, cached, opens)
    case Opened(rec, conn) => Returned(rec, conn)
    case _ => th
  }

  function Step(s: State, e: Event): State {
    match e
    case Configure(rec) => s.(storage := s.storage[rec.id := rec])
    case Remove(id) => s.(storage := s.storage - {id})
    case Begin(t, id) =>
      if t in s.threads then s
      else if id !in s.storage then s.(threads := s.threads[t := Failed])
      else s.(threads := s.threads[t := Read(s.storage[id])], seen := s.seen + {s.storage[id]})
    case Startup(t, id) =>
      if t in s.threads || id !in s.storage then s
      else s.(threads := s.threads[t := Consulted(s.storage[id], None)], seen := s.seen + {s.storage[id]})
    case Advance(t, opens) =>
      if t !in s.threads then s
      else
        var th := s.threads[t];
        s.(threads := s.threads[t := AdvanceThread(s, th, opens)],
           cache := if th.Opened? then s.cache[th.rec.id := th.conn] else s.cache)
  }

  function Run(s: State, run: seq<Event>): State {
    if run == [] then s else Step(Run(s, run[..|run| - 1]), run[|run| - 1])
  }

  /** Opened from some record that was read, with that ID and the version it is filed with. */
  ghost predicate Genuine(seen: set<Record>, id: string, conn: Connector) {
    conn.source in seen && conn.source.id == id && conn.source.version == conn.version
  }

  ghost predicate ThreadOk(seen: set<Record>, th: Thread) {
    match th
    case Read(rec) => rec in seen
    case Consulted(rec, cached) => rec in seen && (cached.Some? ==> Genuine(seen, rec.id, cached.value))
    case Opened(rec, conn) => rec in seen && Genuine(seen, rec.id, conn) && conn.version == rec.version
    case Returned(rec, conn) => rec in seen && Genuine(seen, rec.id, conn) && conn.version == rec.version
    case Failed => true
  }

  ghost predicate Inv(s: State) {
    && (forall id :: id in s.storage ==> s.storage[id].id == id)
    && (forall id :: id in s.cache ==> Genuine(s.seen, id, s.cache[id]))
    && (forall t :: t in s.threads ==> ThreadOk(s.seen, s.threads[t]))
  }

  lemma StepKeeps(s: State, e: Event)
    requires Inv(s)
    ensures Inv(Step(s, e))
  {
    var s' := Step(s, e);
    forall t | t in s'.threads
      ensures ThreadOk(s'.seen, s'.threads[t])
    {
      if t in s.threads {
        assert ThreadOk(s.seen, s.threads[t]);
      }
    }
  }

  lemma {:induction false} RunsKeep(run: seq<Event>)
    ensures Inv(Run(INIT, run))
  {
    if run != [] {
      RunsKeep(run[..|run| - 1]);
      StepKeeps(Run(INIT, run[..|run| - 1]), run[|run| - 1]);
    }
  }

  /**
   * Whatever other requests do to the cache meanwhile, getConnector returns a connector opened from
   * a record with the ID and version of the one it read; where a version determines its record, that
   * is the connector it would have opened itself.
   */
  lemma CacheAgreesWithStorage(run: seq<Event>, t: Tid)
    requires var s := Run(INIT, run); t in s.threads && s.threads[t].Returned?
    ensures var s := Run(INIT, run);
            var rec, conn := s.threads[t].rec, s.threads[t].conn;
            && conn.source in s.seen && conn.source.id == rec.id && conn.source.version == rec.version == conn.version
            && ((forall r, r' :: r in s.seen && r' in s.seen && r.id == r'.id && r.version == r'.version ==> r == r')
                ==> conn == Open(rec))
  {
    RunsKeep(run);
    var s := Run(INIT, run);
    assert ThreadOk(s.seen, s.threads[t]);
  }

  /** A cached connector of the version that was read is returned as it is, and nothing is opened. */
  lemma HitsOpenNothing(s: State, t: Tid, opens: bool)
    requires t in s.threads && s.threads[t].Consulted? && s.threads[t].cached.Some?
    requires s.threads[t].cached.value.version == s.threads[t].rec.version
    ensures var s' := Step(s, Advance(t, opens));
            && s'.threads[t] == Returned(s.threads[t].rec, s.threads[t].cached.value)
            && s'.cache == s.cache && s'.storage == s.storage
  {
  }

  // ---------------------------------------------------------------- one server, undisturbed

  datatype OpenError = NoSuchConnector | CannotOpen

  /** The cache after opening the listed records one after the other. */
  function OpenedAll(listed: seq<Record>): map<string, Connector> {
    if listed == [] then map[]
    else OpenedAll(listed[..|listed| - 1])[listed[|listed| - 1].id := Open(listed[|listed| - 1])]
  }

  /** It agrees with the list: a connector for each listed ID and no other, opened from the last record with that ID. */
  lemma {:induction false} StartupOpensLast(listed: seq<Record>, id: string)
    ensures id in OpenedAll(listed) <==> exists i :: 0 <= i < |listed| && listed[i].id == id
    ensures id in OpenedAll(listed) ==>
              exists i :: 0 <= i < |listed| && OpenedAll(listed)[id] == Open(listed[i]) && listed[i].id == id
                          && forall j :: i < j < |listed| ==> listed[j].id != id
  {
    if listed != [] {
      var init, last := listed[..|listed| - 1], listed[|listed| - 1];
      StartupOpensLast(init, id);
      assert forall i :: 0 <= i < |init| ==> init[i] == listed[i];
      if last.id == id {
        assert listed[|listed| - 1].id == id;
      } else if id in OpenedAll(init) {
        var i :| 0 <= i < |init| && OpenedAll(init)[id] == Open(init[i]) && init[i].id == id
                 && forall j :: i < j < |init| ==> init[j].id != id;
        assert listed[i].id == id && forall j :: i < j < |listed| ==> listed[j].id != id;
      }
    }
  }

  class Server {
    var connectors: map<string, Connector>

    ghost predicate Valid()
      reads this
    {
      forall id :: id in connectors ==>
        connectors[id].source.id == id && connectors[id].source.version == connectors[id].version
    }

    constructor ()
      ensures Valid() && connectors == map[]
    {
      connectors := map[];
    }

    /** Opens the record and files the connector, replacing the one filed before and no other. */
    method OpenConnector(rec: Record, opens: bool) returns (r: Result<Connector, OpenError>)
      requires Valid()
      modifies this
      ensures Valid()
      ensures r.Ok? <==> opens
      ensures r.Ok? ==> r.value.source == rec && r.value.version == rec.version
      ensures r.Ok? ==> connectors == old(connectors)[rec.id := r.value]
      ensures r.Err? ==> r.error == CannotOpen && connectors == old(connectors)
    {
      if !opens {
        return Err(CannotOpen);
      }
      connectors := connectors[rec.id := Connector(rec.version, rec)];
      return Ok(connectors[rec.id]);
    }

    /** Startup opens everything the storage lists, and gives up at the first record that does not open. */
    method OpenAll(listed: seq<Record>, opens: seq<bool>) returns (r: Result<(), OpenError>)
      requires |listed| == |opens| && connectors == map[]
      modifies this
      ensures Valid()
      ensures r.Ok? <==> listed != [] && forall i :: 0 <= i < |opens| ==> opens[i]
      ensures r.Ok? ==> connectors == OpenedAll(listed)
    {
      if |listed| == 0 {
        return Err(NoSuchConnector);
      }
      for n := 0 to |listed|
        invariant Valid() && connectors == OpenedAll(listed[..n])
        invariant forall i :: 0 <= i < n ==> opens[i]
      {
        assert listed[..n + 1][..n] == listed[..n];
        var c := OpenConnector(listed[n], opens[n]);
        if c.Err? {
          return Err(c.error);
        }
      }
      assert listed[..|listed|] == listed;
      return Ok(());
    }

    /** getConnector on the record `stored` that the storage answered; it opens at most once per version. */
    method GetConnector(id: string, stored: Option<Record>, opens: bool) returns (r: Result<Connector, OpenError>)
      requires Valid() && (stored.Some? ==> stored.value.id == id)
      modifies this
      ensures Valid()
      ensures stored.Some? ==>
                (r.Ok? <==> opens || (id in old(connectors) && old(connectors)[id].version == stored.value.version))
      ensures stored.None? ==> r == Err(NoSuchConnector)
      ensures r.Ok? ==> r.value.source.id == id && r.value.version == r.value.source.version == stored.value.version
      ensures r.Ok? ==> connectors == old(connectors)[id := r.value]
      ensures r.Ok? && id in old(connectors) && old(connectors)[id].version == stored.value.version ==>
                connectors == old(connectors)
      ensures r.Err? ==> connectors == old(connectors)
    {
      if stored.None? {
        return Err(NoSuchConnector);
      }
      var rec := stored.value;
      if id in connectors && rec.version == connectors[id].version {
        assert connectors[id].source.id == id && connectors[id := connectors[id]] == connectors;
        return Ok(connectors[id]);
      }
      r := OpenConnector(rec, opens);
    }
  }
}
