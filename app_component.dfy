/** The root component: it keeps the last response (the snapshot), a loading flag
    and the address of the server being pinged, and after each request it updates
    the snapshot's server list, notifies the user and emits the view's state. */
module App {
  import opened Interfaces
  import Sequences
  import ServerService

  // ---------------------------------------------------------------------------
  // How the three mutating requests change the snapshot's list of servers
  // ---------------------------------------------------------------------------

  /** Position of the first server with identifier `id`, or -1 when there is none
      (what `Array.prototype.findIndex` answers). */
  function FirstIndexOf(servers: seq<Server>, id: int): (k: int)
    ensures -1 <= k < |servers|
    ensures k == -1 <==> forall j :: 0 <= j < |servers| ==> servers[j].id != id
    ensures k >= 0 ==> servers[k].id == id && forall j :: 0 <= j < k ==> servers[j].id != id
  {
    if servers == [] then -1
    else if servers[0].id == id then 0
    else
      var k := FirstIndexOf(servers[1..], id);
      if k == -1 then -1 else k + 1
  }

  /** The list after a successful ping: the first entry with the pinged server's
      identifier is overwritten by it. Writing at index -1 in the source touches
      no element, so a list without that identifier stays as it is. */
  function Overwrite(servers: seq<Server>, server: Server): (r: seq<Server>)
    ensures |r| == |servers|
    ensures var k := FirstIndexOf(servers, server.id);
      forall j :: 0 <= j < |r| ==> r[j] == if j == k then server else servers[j]
    ensures (forall j :: 0 <= j < |servers| ==> servers[j].id != server.id) ==> r == servers
  {
    var k := FirstIndexOf(servers, server.id);
    if k >= 0 then servers[k := server] else servers
  }

  /** The predicate handed to `Array.prototype.filter` by a successful delete. */
  function IdIsNot(id: int): Server -> bool
  {
    (server: Server) => server.id != id
  }

  /** The list after a successful delete: every entry with identifier `id` is gone. */
  function WithoutId(servers: seq<Server>, id: int): seq<Server>
  {
    Sequences.Filter(servers, IdIsNot(id))
  }

  /** The identifiers present in a list. */
  ghost function Ids(servers: seq<Server>): set<int>
  {
    set server | server in servers :: server.id
  }

  /** No identifier occurs twice. */
  ghost predicate DistinctIds(servers: seq<Server>)
  {
    forall i, j :: 0 <= i < j < |servers| ==> servers[i].id != servers[j].id
  }

  /** A delete keeps exactly the other entries, in their original order and with
      their multiplicities; no entry with the deleted identifier remains, every other
      identifier remains, and a list without that identifier is left as it is. */
  lemma {:induction false} DeleteKeepsExactlyTheOthers(servers: seq<Server>, id: int)
    ensures Sequences.IsSubsequence(WithoutId(servers, id), servers)
    ensures forall x: Server ::
              multiset(WithoutId(servers, id))[x] == (if x.id != id then multiset(servers)[x] else 0)
    ensures Ids(WithoutId(servers, id)) == Ids(servers) - {id}
    ensures id !in Ids(servers) ==> WithoutId(servers, id) == servers
  {
    var r := WithoutId(servers, id);
    Sequences.FilterIsSubsequence(servers, IdIsNot(id));
    forall x: Server
      ensures multiset(r)[x] == (if x.id != id then multiset(servers)[x] else 0)
      ensures x in r <==> x in servers && x.id != id
    {
      Sequences.FilterCount(servers, IdIsNot(id), x);
      Sequences.FilterMembership(servers, IdIsNot(id), x);
    }
    forall n | n in Ids(servers) - {id} ensures n in Ids(r) {
      var x :| x in servers && x.id == n;
      assert x in r;
    }
    if id !in Ids(servers) {
      forall j | 0 <= j < |servers| ensures IdIsNot(id)(servers[j]) {
        assert servers[j] in servers;
      }
      Sequences.FilterKeepsAll(servers, IdIsNot(id));
    }
  }

  /** A delete never introduces a repeated identifier. */
  lemma {:induction false} DeleteKeepsIdsDistinct(servers: seq<Server>, id: int)
    requires DistinctIds(servers)
    ensures DistinctIds(WithoutId(servers, id))
    decreases |servers|
  {
    if servers != [] {
      var rest := WithoutId(servers[1..], id);
      DeleteKeepsIdsDistinct(servers[1..], id);
      if servers[0].id != id {
        assert WithoutId(servers, id) == [servers[0]] + rest;
        forall j | 0 <= j < |rest| ensures servers[0].id != rest[j].id {
          Sequences.FilterMembership(servers[1..], IdIsNot(id), rest[j]);
          var k :| 0 <= k < |servers[1..]| && servers[1..][k] == rest[j];
          assert servers[k + 1] == rest[j];
        }
      }
    }
  }

  /** A save appends one entry; when the backend hands out a fresh identifier the
      identifiers stay distinct and gain exactly that one. */
  lemma {:induction false} SaveAddsOneId(servers: seq<Server>, server: Server)
    requires DistinctIds(servers) && server.id !in Ids(servers)
    ensures DistinctIds(servers + [server])
    ensures Ids(servers + [server]) == Ids(servers) + {server.id}
  {
  }

  /** A ping keeps the set of identifiers, and keeps them distinct. */
  lemma {:induction false} PingKeepsIds(servers: seq<Server>, server: Server)
    ensures Ids(Overwrite(servers, server)) == Ids(servers)
    ensures DistinctIds(servers) ==> DistinctIds(Overwrite(servers, server))
  {
  }

  /** The success of a request that changes the snapshot's list. */
  datatype Update = Ping(server: Server) | Save(server: Server) | Delete(id: int)

  /** The list after one successful update. */
  function ApplyUpdate(servers: seq<Server>, update: Update): seq<Server>
  {
    match update
    case Ping(server) => Overwrite(servers, server)
    case Save(server) => servers + [server]
    case Delete(id) => WithoutId(servers, id)
  }

  /** The list after a run of successful updates, applied in order. */
  function ApplyAll(servers: seq<Server>, updates: seq<Update>): seq<Server>
    decreases |updates|
  {
    if updates == [] then servers else ApplyAll(ApplyUpdate(servers, updates[0]), updates[1..])
  }

  /** The identifiers expected after one update: a save adds one, a delete removes one. */
  ghost function IdsAfterUpdate(ids: set<int>, update: Update): set<int>
  {
    match update
    case Ping(_) => ids
    case Save(server) => ids + {server.id}
    case Delete(id) => ids - {id}
  }

  /** Every save in the run brings an identifier that is not present at that point. */
  ghost predicate SavesAreFresh(ids: set<int>, updates: seq<Update>)
    decreases |updates|
  {
    updates == [] ||
    ((updates[0].Save? ==> updates[0].server.id !in ids) &&
     SavesAreFresh(IdsAfterUpdate(ids, updates[0]), updates[1..]))
  }

  /** The identifiers expected after a run of updates. */
  ghost function IdsAfter(ids: set<int>, updates: seq<Update>): set<int>
    decreases |updates|
  {
    if updates == [] then ids else IdsAfter(IdsAfterUpdate(ids, updates[0]), updates[1..])
  }

  /** After any run of successful pings, saves and deletes, starting from a list
      with distinct identifiers and with the backend handing out fresh identifiers
      on save, the list holds exactly the identifiers still present, none twice. */
  lemma {:induction false} UpdatesKeepIdsExact(servers: seq<Server>, updates: seq<Update>)
    requires DistinctIds(servers) && SavesAreFresh(Ids(servers), updates)
    ensures DistinctIds(ApplyAll(servers, updates))
    ensures Ids(ApplyAll(servers, updates)) == IdsAfter(Ids(servers), updates)
    decreases |updates|
  {
    if updates != [] {
      var next := ApplyUpdate(servers, updates[0]);
      match updates[0] {
        case Ping(server) => PingKeepsIds(servers, server);
        case Save(server) => SaveAddsOneId(servers, server);
        case Delete(id) =>
          DeleteKeepsExactlyTheOthers(servers, id);
          DeleteKeepsIdsDistinct(servers, id);
      }
      assert Ids(next) == IdsAfterUpdate(Ids(servers), updates[0]);
      UpdatesKeepIdsExact(next, updates[1..]);
    }
  }

  // ---------------------------------------------------------------------------
  // The component
  // ---------------------------------------------------------------------------

  /** A message handed to the notification service, with its severity. */
  datatype Notification = Default(message: string) | Error(message: string)

  /** The request whose result the current `appState$` stream is waiting for; a
      delete remembers the identifier it was called with. */
  datatype Pending = Idle | ListPending | PingPending | SavePending | DeletePending(id: int)

  class AppComponent {
    /** Whether a response has been stored yet (the snapshot starts out `null`). */
    var loaded: bool
    /** The stored response, apart from its list of servers. */
    var head: Response
    /** The stored response's list of servers. */
    var servers: array<Server>
    /** The address of the server being pinged, or empty. */
    var filter: string
    /** Whether a save or delete is in progress. */
    var isLoading: bool
    var pending: Pending
    /** The states the current `appState$` stream has emitted so far. */
    var appState: seq<AppState>
    var notifications: seq<Notification>

    /** The stored response as the rest of the application sees it. */
    function Snapshot(): (r: Option<Response>)
      reads this, servers
      ensures r.Some? <==> loaded
      ensures r.Some? ==> r.value.data.servers == Some(servers[..])
    {
      if loaded then Some(head.(data := head.data.(servers := Some(servers[..])))) else None
    }

    /** Each stream emits one initial state and, once the request settles, exactly
        one terminal state, which is LOADED or ERROR; every state is well formed. */
    ghost predicate Valid()
      reads this
    {
      (forall i :: 0 <= i < |appState| ==> WellFormed(appState[i])) &&
      match pending
      case Idle =>
        appState == [] ||
        (|appState| == 2 && appState[0].dataState != ERROR_STATE && appState[1].dataState != LOADING_STATE)
      case ListPending => appState == [Loading()]
      case _ => |appState| == 1 && appState[0].dataState == LOADED_STATE
    }

    constructor ()
      ensures Valid()
      ensures Snapshot() == None && filter == "" && !isLoading
      ensures pending == Idle && appState == [] && notifications == []
    {
      loaded := false;
      head := Response("", 0, "", "", "", "", ResponseData(None, None));
      servers := new Server[0];
      filter := "";
      isLoading := false;
      pending := Idle;
      appState := [];
      notifications := [];
    }

    /** Index of the first server in the snapshot's list with identifier `id`, or -1. */
    method IndexOfId(id: int) returns (k: int)
      ensures k == FirstIndexOf(servers[..], id)
    {
      k := 0;
      while k < servers.Length && servers[k].id != id
        invariant 0 <= k <= servers.Length
        invariant forall j :: 0 <= j < k ==> servers[j].id != id
      {
        k := k + 1;
      }
      if k == servers.Length {
        k := -1;
      }
    }

    /** Startup: request the list; the stream starts with LOADING. */
    method OnInit()
      modifies this
      ensures Valid()
      ensures pending == ListPending && appState == [Loading()]
      ensures servers == old(servers) && Snapshot() == old(Snapshot())
      ensures filter == old(filter) && isLoading == old(isLoading) && notifications == old(notifications)
    {
      pending := ListPending;
      appState := [Loading()];
    }

    /** The list arrived: it becomes the snapshot and is emitted as LOADED. */
    method ListSucceeded(response: Response)
      requires Valid() && pending == ListPending
      requires response.data.servers.Some?
      modifies this
      ensures Valid()
      ensures fresh(servers) && Snapshot() == Some(response)
      ensures notifications == old(notifications) + [Default(response.message)]
      ensures pending == Idle && appState == old(appState) + [Loaded(Some(response))]
      ensures filter == old(filter) && isLoading == old(isLoading)
    {
      notifications := notifications + [Default(response.message)];
      var list := response.data.servers.value;
      servers := new Server[|list|](i requires 0 <= i < |list| => list[i]);
      assert servers[..] == list;
      head := response;
      loaded := true;
      pending := Idle;
      appState := appState + [Loaded(Some(response))];
    }

    /** The list request failed: ERROR with the error text, nothing else changes. */
    method ListFailed(error: string)
      requires Valid() && pending == ListPending
      modifies this
      ensures Valid()
      ensures servers == old(servers) && Snapshot() == old(Snapshot())
      ensures notifications == old(notifications) + [Error(error)]
      ensures pending == Idle && appState == old(appState) + [Failed(error)]
      ensures filter == old(filter) && isLoading == old(isLoading)
    {
      notifications := notifications + [Error(error)];
      pending := Idle;
      appState := appState + [Failed(error)];
    }

    /** Ping requested: remember the address and emit the current snapshot as LOADED. */
    method PingServer(ipAddress: string)
      modifies this
      ensures Valid()
      ensures filter == ipAddress
      ensures pending == PingPending && appState == [Loaded(Snapshot())]
      ensures servers == old(servers) && Snapshot() == old(Snapshot())
      ensures isLoading == old(isLoading) && notifications == old(notifications)
    {
      filter := ipAddress;
      pending := PingPending;
      appState := [Loaded(Snapshot())];
    }

    /** The ping answered: the returned server overwrites, in the same array, the
        first entry with its identifier; the address is cleared and the snapshot
        emitted. A response without a server is harmless only on an empty list,
        where the identifier is never read. */
    method PingSucceeded(response: Response)
      requires Valid() && pending == PingPending
      requires loaded && (response.data.server.Some? || servers.Length == 0)
      modifies this, servers
      ensures Valid()
      ensures servers == old(servers)
      ensures servers[..] == if response.data.server.Some?
                             then Overwrite(old(servers[..]), response.data.server.value)
                             else old(servers[..])
      ensures loaded && head == old(head)
      ensures filter == "" && isLoading == old(isLoading)
      ensures notifications == old(notifications) + [Default(response.message)]
      ensures pending == Idle && appState == old(appState) + [Loaded(Snapshot())]
    {
      if response.data.server.Some? {
        var server := response.data.server.value;
        var k := IndexOfId(server.id);
        if k >= 0 {
          servers[k] := server;
        }
      }
      notifications := notifications + [Default(response.message)];
      filter := "";
      pending := Idle;
      appState := appState + [Loaded(Snapshot())];
    }

    /** The ping failed: the address is cleared and ERROR emitted. */
    method PingFailed(error: string)
      requires Valid() && pending == PingPending
      modifies this
      ensures Valid()
      ensures servers == old(servers) && Snapshot() == old(Snapshot())
      ensures filter == "" && isLoading == old(isLoading)
      ensures notifications == old(notifications) + [Error(error)]
      ensures pending == Idle && appState == old(appState) + [Failed(error)]
    {
      notifications := notifications + [Error(error)];
      filter := "";
      pending := Idle;
      appState := appState + [Failed(error)];
    }

    /** Filter by status: the snapshot is emitted, then the filtered copy of it;
        the snapshot itself is not changed. Before the list has arrived, a status
        other than `ALL` makes the filter fail on the missing list: the error
        handler's text for a missing status is notified and emitted as ERROR, and
        the ping address is cleared. */
    method FilterServers(status: Status)
      requires Valid() && (loaded || status != ALL)
      modifies this
      ensures Valid()
      ensures servers == old(servers) && Snapshot() == old(Snapshot())
      ensures pending == Idle && isLoading == old(isLoading)
      ensures old(loaded) ==>
        var filtered := ServerService.Filter(status, old(Snapshot()).value);
        appState == [Loaded(old(Snapshot())), Loaded(Some(filtered))] &&
        notifications == old(notifications) + [Default(filtered.message)] &&
        filter == old(filter)
      ensures !old(loaded) ==>
        appState == [Loaded(None), Failed(ServerService.UndefinedStatusError)] &&
        notifications == old(notifications) + [Error(ServerService.UndefinedStatusError)] &&
        filter == ""
    {
      var current := Snapshot();
      if current.Some? {
        var filtered := ServerService.Filter(status, current.value);
        notifications := notifications + [Default(filtered.message)];
        appState := [Loaded(current), Loaded(Some(filtered))];
      } else {
        var error := ServerService.UndefinedStatusError;
        notifications := notifications + [Error(error)];
        filter := "";
        appState := [Loaded(current), Failed(error)];
      }
      pending := Idle;
    }

    /** Save requested: loading is switched on and the snapshot emitted as LOADED. */
    method SaveServer()
      modifies this
      ensures Valid()
      ensures isLoading
      ensures pending == SavePending && appState == [Loaded(Snapshot())]
      ensures servers == old(servers) && Snapshot() == old(Snapshot())
      ensures filter == old(filter) && notifications == old(notifications)
    {
      isLoading := true;
      pending := SavePending;
      appState := [Loaded(Snapshot())];
    }

    /** The save answered with the new server: the response's envelope becomes the
        snapshot, its data holding the old list with the new server appended. */
    method SaveSucceeded(response: Response)
      requires Valid() && pending == SavePending
      requires loaded && response.data.server.Some?
      modifies this
      ensures Valid()
      ensures fresh(servers) && servers[..] == old(servers[..]) + [response.data.server.value]
      ensures Snapshot() == Some(response.(data := ResponseData(Some(servers[..]), None)))
      ensures !isLoading && filter == old(filter)
      ensures notifications == old(notifications) + [Default(response.message)]
      ensures pending == Idle && appState == old(appState) + [Loaded(Snapshot())]
    {
      var list := servers[..] + [response.data.server.value];
      servers := new Server[|list|](i requires 0 <= i < |list| => list[i]);
      head := response.(data := ResponseData(None, None));
      notifications := notifications + [Default(response.message)];
      isLoading := false;
      pending := Idle;
      appState := appState + [Loaded(Snapshot())];
    }

    /** The save failed: loading is switched off and ERROR emitted. */
    method SaveFailed(error: string)
      requires Valid() && pending == SavePending
      modifies this
      ensures Valid()
      ensures servers == old(servers) && Snapshot() == old(Snapshot())
      ensures !isLoading && filter == old(filter)
      ensures notifications == old(notifications) + [Error(error)]
      ensures pending == Idle && appState == old(appState) + [Failed(error)]
    {
      notifications := notifications + [Error(error)];
      isLoading := false;
      pending := Idle;
      appState := appState + [Failed(error)];
    }

    /** Delete requested: loading is switched on and the snapshot emitted as LOADED. */
    method DeleteServer(id: int)
      modifies this
      ensures Valid()
      ensures isLoading
      ensures pending == DeletePending(id) && appState == [Loaded(Snapshot())]
      ensures servers == old(servers) && Snapshot() == old(Snapshot())
      ensures filter == old(filter) && notifications == old(notifications)
    {
      isLoading := true;
      pending := DeletePending(id);
      appState := [Loaded(Snapshot())];
    }

    /** The delete succeeded: the response's envelope becomes the snapshot, its
        data holding the old list without the deleted identifier. */
    method DeleteSucceeded(response: Response)
      requires Valid() && pending.DeletePending? && loaded
      modifies this
      ensures Valid()
      ensures fresh(servers) && servers[..] == WithoutId(old(servers[..]), old(pending).id)
      ensures Snapshot() == Some(response.(data := ResponseData(Some(servers[..]), None)))
      ensures !isLoading && filter == old(filter)
      ensures notifications == old(notifications) + [Default(response.message)]
      ensures pending == Idle && appState == old(appState) + [Loaded(Snapshot())]
    {
      var list := WithoutId(servers[..], pending.id);
      servers := new Server[|list|](i requires 0 <= i < |list| => list[i]);
      head := response.(data := ResponseData(None, None));
      notifications := notifications + [Default(response.message)];
      isLoading := false;
      pending := Idle;
      appState := appState + [Loaded(Snapshot())];
    }

    /** The delete failed: the ping address is cleared, loading stays as it was,
        and ERROR is emitted. */
    method DeleteFailed(error: string)
      requires Valid() && pending.DeletePending?
      modifies this
      ensures Valid()
      ensures servers == old(servers) && Snapshot() == old(Snapshot())
      ensures filter == "" && isLoading == old(isLoading)
      ensures notifications == old(notifications) + [Error(error)]
      ensures pending == Idle && appState == old(appState) + [Failed(error)]
    {
      notifications := notifications + [Error(error)];
      filter := "";
      pending := Idle;
      appState := appState + [Failed(error)];
    }
  }

  /** Three servers are listed, server 2 is deleted and server 4 saved: the list
      then holds servers 1, 3 and 4, in that order. */
  method DeleteThenSaveScenario(envelope: Response, s1: Server, s2: Server, s3: Server, s4: Server)
    requires s1.id == 1 && s2.id == 2 && s3.id == 3 && s4.id == 4
  {
    var app := new AppComponent();
    app.OnInit();
    app.ListSucceeded(envelope.(data := ResponseData(Some([s1, s2, s3]), None)));
    app.DeleteServer(2);
    app.DeleteSucceeded(envelope.(data := ResponseData(None, None)));
    assert [s1, s2, s3][1..] == [s2, s3] && [s2, s3][1..] == [s3] && [s3][1..] == [];
    assert WithoutId([s3], 2) == [s3] + WithoutId([], 2) == [s3];
    assert WithoutId([s2, s3], 2) == WithoutId([s3], 2);
    assert WithoutId([s1, s2, s3], 2) == [s1] + WithoutId([s2, s3], 2) == [s1, s3];
    assert app.servers[..] == [s1, s3];
    app.SaveServer();
    app.SaveSucceeded(envelope.(data := ResponseData(None, Some(s4))));
    assert app.servers[..] == [s1, s3, s4];
  }
}
