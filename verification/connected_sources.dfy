/**
 * The in-memory connected-sources state of main.py: connect_source,
 * get_data and list_sources over the module-level connected_sources list.
 * fake_data_sources is an abstract map fixed when the application starts;
 * the connection timestamp is supplied by the caller.
 */
module ConnectedSources {
  import opened Wrappers
  import opened Values

  /** datetime.now().isoformat(), as the caller supplies it. */
  type Timestamp = string

  /** One {"name", "connected_at"} entry of connected_sources. */
  datatype Connection = Connection(name: string, connectedAt: Timestamp)

  /** HTTPException(status_code, detail). */
  datatype HttpError = HttpError(status: int, detail: string)

  const NotSupported: HttpError := HttpError(404, "Source not supported yet")

  function AlreadyConnectedMessage(name: string): string { name + " already connected" }

  function ConnectedMessage(name: string): string { name + " connected successfully" }

  predicate IsConnected(entries: seq<Connection>, name: string) {
    exists i :: 0 <= i < |entries| && entries[i].name == name
  }

  /** The invariant connect_source keeps: distinct names, each a supported source. */
  ghost predicate WellFormed(entries: seq<Connection>, sources: map<string, seq<Record>>) {
    && (forall i :: 0 <= i < |entries| ==> entries[i].name in sources)
    && (forall i, j :: 0 <= i < j < |entries| ==> entries[i].name != entries[j].name)
  }

  /** The list after a connect_source call, and the call's reply. */
  datatype ConnectStep = ConnectStep(entries: seq<Connection>, reply: Result<string, HttpError>)

  /** connect_source, as a function of the list before the call. */
  function Connect(entries: seq<Connection>, sources: map<string, seq<Record>>, name: string, now: Timestamp): (r: ConnectStep)
    ensures r.reply.Failure? <==> name !in sources
    ensures |entries| <= |r.entries| <= |entries| + 1 && r.entries[..|entries|] == entries
  {
    if name !in sources then ConnectStep(entries, Failure(NotSupported))
    else if IsConnected(entries, name) then ConnectStep(entries, Success(AlreadyConnectedMessage(name)))
    else ConnectStep(entries + [Connection(name, now)], Success(ConnectedMessage(name)))
  }

  /**
   * An unsupported name fails with 404 and changes nothing; an already
   * connected one is reported and changes nothing; a new supported one is
   * appended, once, at the end, with every earlier entry kept.
   */
  lemma ConnectCases(entries: seq<Connection>, sources: map<string, seq<Record>>, name: string, now: Timestamp)
    ensures var r := Connect(entries, sources, name, now);
      && (name !in sources ==> r.entries == entries && r.reply == Failure(HttpError(404, "Source not supported yet")))
      && (name in sources && IsConnected(entries, name) ==>
            r.entries == entries && r.reply == Success(name + " already connected"))
      && (name in sources && !IsConnected(entries, name) ==>
            && |r.entries| == |entries| + 1
            && r.entries[..|entries|] == entries
            && r.entries[|entries|] == Connection(name, now)
            && r.reply == Success(name + " connected successfully"))
      && (r.reply.Failure? <==> name !in sources)
  {
  }

  /** Connecting the same name twice leaves the list as the first call did. */
  lemma ConnectIdempotent(entries: seq<Connection>, sources: map<string, seq<Record>>, name: string, t1: Timestamp, t2: Timestamp)
    ensures var s1 := Connect(entries, sources, name, t1);
      var s2 := Connect(s1.entries, sources, name, t2);
      && s2.entries == s1.entries
      && (name in sources ==> s2.reply == Success(name + " already connected"))
  {
    var s1 := Connect(entries, sources, name, t1);
    if name in sources && !IsConnected(entries, name) {
      assert s1.entries[|entries|].name == name;
    }
  }

  /** connect_source keeps the names distinct and supported. */
  lemma ConnectPreservesWellFormed(entries: seq<Connection>, sources: map<string, seq<Record>>, name: string, now: Timestamp)
    requires WellFormed(entries, sources)
    ensures WellFormed(Connect(entries, sources, name, now).entries, sources)
  {
  }

  /**
   * The concatenation of each connected source's records, in connection
   * order; it holds as many records as the connected sources together.
   */
  function AllData(entries: seq<Connection>, sources: map<string, seq<Record>>): (r: seq<Record>)
    requires forall i :: 0 <= i < |entries| ==> entries[i].name in sources
    ensures |r| == TotalRecords(entries, sources)
  {
    if entries == [] then [] else sources[entries[0].name] + AllData(entries[1..], sources)
  }

  /** The sum of the connected sources' record counts. */
  function TotalRecords(entries: seq<Connection>, sources: map<string, seq<Record>>): nat
    requires forall i :: 0 <= i < |entries| ==> entries[i].name in sources
  {
    if entries == [] then 0 else |sources[entries[0].name]| + TotalRecords(entries[1..], sources)
  }

  /** Extending by one more connected source appends that source's records. */
  lemma {:induction false} AllDataSnoc(entries: seq<Connection>, c: Connection, sources: map<string, seq<Record>>)
    requires forall i :: 0 <= i < |entries| ==> entries[i].name in sources
    requires c.name in sources
    ensures AllData(entries + [c], sources) == AllData(entries, sources) + sources[c.name]
  {
    if entries != [] {
      assert (entries + [c])[1..] == entries[1..] + [c];
      AllDataSnoc(entries[1..], c, sources);
    } else {
      assert entries + [c] == [c];
    }
  }

  /** A record is in get_data's data exactly when some connected source holds it. */
  lemma {:induction false} AllDataMembers(entries: seq<Connection>, sources: map<string, seq<Record>>, r: Record)
    requires forall i :: 0 <= i < |entries| ==> entries[i].name in sources
    ensures r in AllData(entries, sources) <==>
      exists i :: 0 <= i < |entries| && r in sources[entries[i].name]
  {
    if entries != [] {
      AllDataMembers(entries[1..], sources, r);
      if r in AllData(entries[1..], sources) {
        var i :| 0 <= i < |entries[1..]| && r in sources[entries[1..][i].name];
        assert r in sources[entries[i + 1].name];
      }
      if exists i :: 0 <= i < |entries| && r in sources[entries[i].name] {
        var i :| 0 <= i < |entries| && r in sources[entries[i].name];
        if i > 0 { assert entries[1..][i - 1] == entries[i]; }
      }
    }
  }

  /** The application state of main.py. */
  class SyncHub {
    /** mock_sources.fake_data_sources */
    const dataSources: map<string, seq<Record>>
    /** connected_sources */
    var connected: seq<Connection>

    ghost predicate Valid()
      reads this
    {
      WellFormed(connected, dataSources)
    }

    /** Process start: nothing is connected. */
    constructor (sources: map<string, seq<Record>>)
      ensures dataSources == sources && connected == [] && Valid()
    {
      dataSources := sources;
      connected := [];
    }

    /** POST /connect-source */
    method ConnectSource(name: string, now: Timestamp) returns (reply: Result<string, HttpError>)
      requires Valid()
      modifies this
      ensures Valid()
      ensures ConnectStep(connected, reply) == Connect(old(connected), dataSources, name, now)
    {
      if name !in dataSources {
        return Failure(NotSupported);
      }
      var i := 0;
      while i < |connected|
        invariant 0 <= i <= |connected|
        invariant forall k :: 0 <= k < i ==> connected[k].name != name
      {
        if connected[i].name == name {
          return Success(AlreadyConnectedMessage(name));
        }
        i := i + 1;
      }
      ConnectPreservesWellFormed(connected, dataSources, name, now);
      connected := connected + [Connection(name, now)];
      reply := Success(ConnectedMessage(name));
    }

    /** GET /get-data: the connected list and every connected source's records. */
    method GetData() returns (sourcesConnected: seq<Connection>, data: seq<Record>)
      requires Valid()
      ensures sourcesConnected == connected
      ensures data == AllData(connected, dataSources)
    {
      data := [];
      var i := 0;
      while i < |connected|
        invariant 0 <= i <= |connected|
        invariant data == AllData(connected[..i], dataSources)
      {
        AllDataSnoc(connected[..i], connected[i], dataSources);
        assert connected[..i + 1] == connected[..i] + [connected[i]];
        data := data + dataSources[connected[i].name];
        i := i + 1;
      }
      assert connected[..i] == connected;
      sourcesConnected := connected;
    }

    /** GET /list-connected-sources */
    method ListSources() returns (sources: seq<Connection>)
      ensures sources == connected
    {
      sources := connected;
    }
  }
}
