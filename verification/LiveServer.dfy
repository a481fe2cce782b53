/** The stream server as the proxy runs it: an object with two mutable maps of streams that it
    updates in place whenever an id is announced. */
module LiveServer {
  import opened Common
  import opened ProfileModel
  import Registrar
  import opened LiveRegistrar
  import opened StreamServer
  import opened ServerAgreement

  /** A stream as the server sees it; `serial` is its place among all streams ever opened. */
  class ServedStream {
    const sdkId: Id
    var sdkClient: SdkClient
    var open: bool
    ghost const serial: nat

    constructor (sdkId: Id, sdkClient: SdkClient, ghost serial: nat)
      ensures this.sdkId == sdkId && this.sdkClient == sdkClient && open && this.serial == serial
    {
      this.sdkId, this.sdkClient, this.open, this.serial := sdkId, sdkClient, true, serial;
    }

    ghost function Value(): Feed
      reads this
    {
      Feed(sdkId, sdkClient.serial, open)
    }

    function SdkKeys(): (Key, Option<Key>)
      reads this, sdkClient
    {
      sdkClient.SdkKeys()
    }
  }

  ghost function FeedsOf(fs: seq<ServedStream>): (r: seq<Feed>)
    reads fs
    ensures |r| == |fs| && forall i :: 0 <= i < |r| ==> r[i] == fs[i].Value()
  {
    seq(|fs|, i requires 0 <= i < |fs| reads fs => fs[i].Value())
  }

  ghost function Places(m: map<string, ServedStream>): map<string, nat> {
    map k | k in m :: m[k].serial
  }

  lemma PlacesUpdate(m: map<string, ServedStream>, k: string, str: ServedStream)
    ensures Places(m[k := str]) == Places(m)[k := str.serial]
  {
  }

  lemma PlacesRemove(m: map<string, ServedStream>, ks: set<string>)
    ensures Places(m - ks) == Places(m) - ks
  {
  }

  class Server {
    const registrar: AutoRegistrar
    var streams: map<Id, ServedStream>
    var streamsBySdkKey: map<Key, ServedStream>
    ghost var feeds: seq<ServedStream>
    /** The subscriptions of all clients' publishers, gathered. */
    ghost var subs: set<(nat, nat)>

    ghost predicate Known(str: ServedStream)
      reads `feeds
    {
      str.serial < |feeds| && feeds[str.serial] == str
    }

    /** Streams are numbered, both maps hold known streams, and those hold clients of the registrar. */
    ghost predicate Valid()
      reads `streams, `streamsBySdkKey, `feeds, feeds, registrar
    {
      && registrar.Valid()
      && (forall i :: 0 <= i < |feeds| ==> feeds[i].serial == i && registrar.Known(feeds[i].sdkClient))
      && (forall id :: id in streams ==> Known(streams[id]))
      && (forall k :: k in streamsBySdkKey ==> Known(streamsBySdkKey[k]))
    }

    ghost function View(): (s: StreamServer.ServerState)
      requires Valid()
      reads this, feeds, registrar, registrar.built
      ensures Placed(registrar.Values(), s)
    {
      StreamServer.ServerState(FeedsOf(feeds), Places(streams), Places(streamsBySdkKey), subs)
    }

    constructor (registrar: AutoRegistrar)
      requires registrar.Valid()
      ensures Valid() && this.registrar == registrar && View() == StreamServer.ServerState([], map[], map[], {})
    {
      this.registrar := registrar;
      streams, streamsBySdkKey, feeds, subs := map[], map[], [], {};
    }

    /** Takes the current keys of a client out of the index. */
    method RemoveKeys(c: SdkClient)
      requires Valid()
      modifies `streamsBySdkKey
      ensures Valid() && Places(streamsBySdkKey) == Registrar.DropKeys(Places(old(streamsBySdkKey)), c.Value())
    {
      PlacesRemove(streamsBySdkKey, {c.conf.key, c.Value().Secondary()} - {""});
      var (key1, key2) := c.SdkKeys();
      if key1 != "" {
        streamsBySdkKey := streamsBySdkKey - {key1};
      }
      if key2.Some? && key2.value != "" {
        streamsBySdkKey := streamsBySdkKey - {key2.value};
      }
      assert streamsBySdkKey == old(streamsBySdkKey) - ({c.conf.key, c.Value().Secondary()} - {""});
    }

    /** Lets the current keys of a client find the stream. */
    method StoreKeys(c: SdkClient, str: ServedStream)
      requires Valid() && Known(str)
      modifies `streamsBySdkKey
      ensures Valid()
      ensures Places(streamsBySdkKey) == Registrar.StoreKeys(Places(old(streamsBySdkKey)), c.Value().Sdk(), str.serial)
    {
      var (key1, key2) := c.SdkKeys();
      if key1 != "" {
        PlacesUpdate(streamsBySdkKey, key1, str);
        streamsBySdkKey := streamsBySdkKey[key1 := str];
      }
      if key2.Some? && key2.value != "" {
        PlacesUpdate(streamsBySdkKey, key2.value, str);
        streamsBySdkKey := streamsBySdkKey[key2.value := str];
      }
    }

    ghost method Subscribe(c: SdkClient, str: ServedStream)
      requires Valid() && registrar.Known(c)
      modifies `subs
      ensures subs == StreamServer.Subscribe(registrar.Values(), old(subs), c.serial, str.serial)
    {
      if c.closes == 0 {
        subs := subs + {(c.serial, str.serial)};
      }
    }

    ghost method Unsubscribe(c: SdkClient, str: ServedStream)
      requires Valid() && registrar.Known(c)
      modifies `subs
      ensures subs == StreamServer.Unsubscribe(registrar.Values(), old(subs), c.serial, str.serial)
    {
      if c.closes == 0 {
        subs := subs - {(c.serial, str.serial)};
      }
    }

    method SwapClient(str: ServedStream, client: SdkClient)
      requires Valid() && Known(str) && registrar.Known(client)
      modifies str`sdkClient
      ensures Valid() && str.sdkClient == client
      ensures View() == old(View()).(feeds :=
                old(View()).feeds[str.serial := old(str.Value()).(client := client.serial)])
    {
      str.sdkClient := client;
      assert FeedsOf(feeds) == old(FeedsOf(feeds))[str.serial := str.Value()];
    }

    /** Swaps the client of a stream and moves its subscription. */
    method ResetSdk(str: ServedStream, client: SdkClient)
      requires Valid() && Known(str) && registrar.Known(client)
      modifies str`sdkClient, `subs
      ensures Valid()
      ensures View() == StreamServer.ResetSdk(registrar.Values(), old(View()), str.serial, client.serial)
    {
      hide Places;
      if !str.open {
        return;
      }
      var before := str.sdkClient;
      SwapClient(str, client);
      Unsubscribe(before, str);
      Subscribe(client, str);
    }

    method Create(id: Id, client: SdkClient) returns (str: ServedStream)
      requires Valid() && registrar.Known(client)
      modifies `feeds
      ensures Valid() && Known(str) && str.serial == |old(feeds)| && str.sdkClient == client
      ensures View() == old(View()).(feeds := old(View()).feeds + [Feed(id, client.serial, true)])
    {
      str := new ServedStream(id, client, |feeds|);
      feeds := feeds + [str];
      assert FeedsOf(feeds) == old(FeedsOf(feeds)) + [Feed(id, client.serial, true)];
    }

    method NewStream(id: Id, client: SdkClient) returns (str: ServedStream)
      requires Valid() && registrar.Known(client)
      modifies `streams, `feeds, `subs
      ensures Valid() && Known(str) && str.serial == |old(feeds)|
      ensures View() == StreamServer.NewStream(registrar.Values(), old(View()), id, client.serial)
    {
      str := Create(id, client);
      Subscribe(client, str);
      List(id, str);
    }

    method List(id: Id, str: ServedStream)
      requires Valid() && Known(str)
      modifies `streams
      ensures Valid() && View() == old(View()).(streams := old(View()).streams[id := str.serial])
    {
      PlacesUpdate(streams, id, str);
      streams := streams[id := str];
    }

    method CloseStream(str: ServedStream)
      requires Valid() && Known(str)
      modifies str`open, `subs
      ensures Valid()
      ensures View() == StreamServer.CloseStream(registrar.Values(), old(View()), str.serial)
    {
      str.open := false;
      Unsubscribe(str.sdkClient, str);
    }

    /** A registered id that already has a stream. */
    method Reset(str: ServedStream, client: SdkClient)
      requires Valid() && Known(str) && registrar.Known(client)
      modifies `streamsBySdkKey, `subs, str`sdkClient
      ensures Valid()
      ensures View() ==
                var before := old(View());
                var t := before.(byKey := Registrar.DropKeys(before.byKey, old(str.sdkClient.Value())));
                StreamServer.ResetSdk(registrar.Values(), t, str.serial, client.serial)
    {
      RemoveKeys(str.sdkClient);
      ResetSdk(str, client);
    }

    /** A stream that is no longer listed loses its keys and is closed. */
    method Retire(existing: ServedStream)
      requires Valid() && Known(existing)
      modifies `streamsBySdkKey, `subs, existing`open
      ensures Valid()
      ensures View() ==
                var before := old(View());
                var t := before.(byKey := Registrar.DropKeys(before.byKey, old(existing.sdkClient.Value())));
                StreamServer.CloseStream(registrar.Values(), t, existing.serial)
    {
      RemoveKeys(existing.sdkClient);
      CloseStream(existing);
    }

    method Unlist(sdkId: Id)
      requires Valid()
      modifies `streams
      ensures Valid() && View() == old(View()).(streams := old(View()).streams - {sdkId})
    {
      PlacesRemove(streams, {sdkId});
      streams := streams - {sdkId};
    }

    method Index(str: ServedStream, client: SdkClient)
      requires Valid() && Known(str)
      modifies `streamsBySdkKey
      ensures Valid()
      ensures View() == old(View()).(byKey :=
                Registrar.StoreKeys(old(View()).byKey, client.Value().Sdk(), str.serial))
    {
      StoreKeys(client, str);
    }

    lemma StreamAt(str: ServedStream)
      requires Valid() && Known(str)
      ensures View().feeds[str.serial] == str.Value()
      ensures registrar.Values()[str.sdkClient.serial] == str.sdkClient.Value()
    {
    }

    /** The stream of a registered id is moved to the registrar's client, not yet indexed. */
    method Move(sdkId: Id, str: ServedStream, sdkClient: SdkClient)
      requires Valid() && sdkId in registrar.sdkClients && registrar.sdkClients[sdkId] == sdkClient
      requires sdkId in streams && streams[sdkId] == str
      modifies `streamsBySdkKey, `subs, str`sdkClient
      ensures Valid() && View() == Moved(old(registrar.View()), old(View()), sdkId)
    {
      RegisteredAt(registrar, sdkId);
      StreamAt(str);
      Reset(str, sdkClient);
    }

    /** An announced id that the registrar has, and the server as well. */
    method Refollow(sdkId: Id, str: ServedStream, sdkClient: SdkClient)
      requires Valid() && sdkId in registrar.sdkClients && registrar.sdkClients[sdkId] == sdkClient
      requires sdkId in streams && streams[sdkId] == str
      modifies `streamsBySdkKey, `subs, str`sdkClient
      ensures Valid()
      ensures View() == StreamServer.HandleSdkId(old(registrar.View()), old(View()), sdkId)
    {
      hide StreamServer.HandleSdkId, Moved, Registrar.StoreKeys;
      ghost var r, before := registrar.View(), View();
      RegisteredAt(registrar, sdkId);
      HandleLoaded(r, before, sdkId);
      Move(sdkId, str, sdkClient);
      assert View() == Moved(r, before, sdkId);
      Index(str, sdkClient);
    }

    /** An announced id that only the registrar has. */
    method Follow(sdkId: Id, sdkClient: SdkClient)
      requires Valid() && sdkId in registrar.sdkClients && registrar.sdkClients[sdkId] == sdkClient
      requires sdkId !in streams
      modifies `streams, `streamsBySdkKey, `feeds, `subs
      ensures Valid()
      ensures View() == StreamServer.HandleSdkId(old(registrar.View()), old(View()), sdkId)
    {
      RegisteredAt(registrar, sdkId);
      var str := NewStream(sdkId, sdkClient);
      Index(str, sdkClient);
    }

    /** One more stream at the start of the server, which sees the registrar as `r`. */
    method OpenNext(ghost r: Registrar.State, ids: seq<Id>, i: nat)
      requires Valid() && registrar.View() == r && i < |ids| && Enumerates(ids, r.byId.Keys)
      requires Elems(ids[..i]) <= r.byId.Keys && View() == Opened(r, ids[..i])
      modifies `streams, `streamsBySdkKey, `feeds, `subs
      ensures Valid() && Elems(ids[..i + 1]) <= r.byId.Keys && View() == Opened(r, ids[..i + 1])
    {
      hide Opened, StreamServer.HandleSdkId;
      NewPrefix(ids, i);
      OpenedConsistent(r, ids[..i]);
      assert ids[i] in Elems(ids) && ids[i] !in View().streams;
      OpenedMore(r, ids, i);
      Follow(ids[i], registrar.sdkClients[ids[i]]);
    }

    /** An announced id that only the server has. */
    method Forget(sdkId: Id, existing: ServedStream)
      requires Valid() && sdkId !in registrar.sdkClients && sdkId in streams && streams[sdkId] == existing
      modifies `streams, `streamsBySdkKey, `subs, existing`open
      ensures Valid()
      ensures View() == StreamServer.HandleSdkId(old(registrar.View()), old(View()), sdkId)
    {
      hide StreamServer.HandleSdkId, StreamServer.CloseStream, Registrar.DropKeys, FeedsOf;
      StreamAt(existing);
      HandleGone(registrar.View(), View(), sdkId);
      Unlist(sdkId);
      Retire(existing);
    }

    /** Follows the registrar for one announced id. */
    method HandleSdkId(sdkId: Id)
      requires Valid()
      modifies `streams, `streamsBySdkKey, `feeds, `subs, feeds
      ensures Valid()
      ensures View() == StreamServer.HandleSdkId(old(registrar.View()), old(View()), sdkId)
    {
      if sdkId in registrar.sdkClients {
        var sdkClient := registrar.sdkClients[sdkId];
        if sdkId in streams {
          Refollow(sdkId, streams[sdkId], sdkClient);
        } else {
          Follow(sdkId, sdkClient);
        }
      } else if sdkId in streams {
        Forget(sdkId, streams[sdkId]);
      }
    }
  }

  /** Opens a stream for every client of the registrar, in whatever order they are ranged over. */
  method NewServer(registrar: AutoRegistrar) returns (srv: Server, ghost order: seq<Id>)
    requires registrar.Valid()
    ensures fresh(srv) && srv.Valid() && srv.registrar == registrar
    ensures Enumerates(order, registrar.View().byId.Keys) && srv.View() == Opened(registrar.View(), order)
  {
    hide *;
    srv := new Server(registrar);
    var ids := KeysOfMap(registrar.sdkClients);
    order := ids;
    ghost var r := registrar.View();
    AtStart(registrar, ids);
    for i := 0 to |ids|
      invariant srv.Valid() && srv.registrar == registrar && registrar.View() == r
      invariant Elems(ids[..i]) <= r.byId.Keys && srv.View() == Opened(r, ids[..i])
    {
      srv.OpenNext(r, ids, i);
    }
    TakeAll(ids);
  }

  lemma AtStart(registrar: AutoRegistrar, ids: seq<Id>)
    requires registrar.Valid()
    ensures registrar.View().byId.Keys == registrar.sdkClients.Keys
    ensures Elems(ids[..0]) <= registrar.View().byId.Keys
    ensures Opened(registrar.View(), ids[..0]) == StreamServer.ServerState([], map[], map[], {})
  {
  }

  lemma OpenedMore(r: Registrar.State, ids: seq<Id>, i: nat)
    requires r.InRange() && i < |ids| && Elems(ids[..i + 1]) <= r.byId.Keys && Elems(ids[..i]) <= r.byId.Keys
    ensures Opened(r, ids[..i + 1]) == StreamServer.HandleSdkId(r, Opened(r, ids[..i]), ids[i])
  {
    assert ids[..i + 1][..i] == ids[..i];
  }

  function Moved(r: Registrar.State, s: StreamServer.ServerState, id: Id): StreamServer.ServerState
    requires r.InRange() && Placed(r.clients, s) && id in r.byId && id in s.streams
  {
    var t := s.(byKey := Registrar.DropKeys(s.byKey, r.clients[s.feeds[s.streams[id]].client]));
    StreamServer.ResetSdk(r.clients, t, s.streams[id], r.byId[id])
  }

  lemma HandleLoaded(r: Registrar.State, s: StreamServer.ServerState, id: Id)
    requires r.InRange() && Placed(r.clients, s) && id in r.byId && id in s.streams
    ensures var m := Moved(r, s, id);
            StreamServer.HandleSdkId(r, s, id) ==
              m.(byKey := Registrar.StoreKeys(m.byKey, r.clients[r.byId[id]].Sdk(), s.streams[id]))
  {
  }

  lemma HandleGone(r: Registrar.State, s: StreamServer.ServerState, id: Id)
    requires r.InRange() && Placed(r.clients, s) && id !in r.byId && id in s.streams
    ensures var t := s.(byKey := Registrar.DropKeys(s.byKey, r.clients[s.feeds[s.streams[id]].client]),
                        streams := s.streams - {id});
            StreamServer.HandleSdkId(r, s, id) == StreamServer.CloseStream(r.clients, t, s.streams[id])
  {
  }

  lemma RegisteredAt(r: AutoRegistrar, id: Id)
    requires r.Valid() && id in r.sdkClients
    ensures id in r.View().byId && r.View().byId[id] == r.sdkClients[id].serial
    ensures r.Known(r.sdkClients[id]) && r.View().clients == r.Values()
    ensures r.Values()[r.sdkClients[id].serial] == r.sdkClients[id].Value()
  {
  }
}
