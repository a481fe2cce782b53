/** The registrar as the proxy runs it: an object with two mutable maps of client objects,
    updated in place. Every method is proved to do what the updates on values prescribe. */
module LiveRegistrar {
  import opened Common
  import opened ProfileModel
  import opened CacheCodec
  import opened ProfilePoll
  import opened Registrar
  import opened RegistrarRuns
  import opened Reconcile
  import opened ReconcileRuns
  import opened RegistrarLoops

  /** The shared state of a client; `serial` is its place in the ledger of built clients. */
  class SdkClient {
    const sdkId: Id
    const conf: SdkConfig
    var secondary: Option<Key>
    var closes: nat
    ghost const serial: nat

    constructor (sdkId: Id, conf: SdkConfig, secondary: Option<Key>, ghost serial: nat)
      ensures this.sdkId == sdkId && this.conf == conf && this.secondary == secondary
      ensures closes == 0 && this.serial == serial
    {
      this.sdkId, this.conf, this.secondary := sdkId, conf, secondary;
      this.closes, this.serial := 0, serial;
    }

    ghost function Value(): Client
      reads this
    {
      Client(sdkId, conf, secondary, closes)
    }

    function SdkKeys(): (Key, Option<Key>)
      reads this
    {
      (conf.key, secondary)
    }

    method SetSecondarySdkKey(key: Key)
      modifies this`secondary
      ensures secondary == Some(key)
    {
      secondary := Some(key);
    }

    method Close()
      modifies this`closes
      ensures closes == old(closes) + 1
    {
      closes := closes + 1;
    }
  }

  ghost function ValuesOf(cs: seq<SdkClient>): (r: seq<Client>)
    reads cs
    ensures |r| == |cs| && forall i :: 0 <= i < |r| ==> r[i] == cs[i].Value()
  {
    seq(|cs|, i requires 0 <= i < |cs| reads cs => cs[i].Value())
  }

  ghost function Serials(m: map<string, SdkClient>): map<string, nat> {
    map k | k in m :: m[k].serial
  }

  lemma SerialsUpdate(m: map<string, SdkClient>, k: string, c: SdkClient)
    ensures Serials(m[k := c]) == Serials(m)[k := c.serial]
  {
  }

  lemma SerialsRemove(m: map<string, SdkClient>, ks: set<string>)
    ensures Serials(m - ks) == Serials(m) - ks
  {
  }

  class AutoRegistrar {
    const conf: ProxyConf
    const decode: Bytes -> Option<Profile>
    var options: Options
    var etag: Bytes
    var sdkClients: map<Id, SdkClient>
    var sdkClientsBySdkKey: map<Key, SdkClient>
    var published: seq<Id>
    var calls: seq<ReporterCall>
    ghost var built: seq<SdkClient>

    ghost predicate Known(c: SdkClient)
      reads `built
    {
      c.serial < |built| && built[c.serial] == c
    }

    /** The ledger numbers its clients, and both maps hold clients of the ledger. */
    ghost predicate Valid()
      reads `built, `sdkClients, `sdkClientsBySdkKey
    {
      && (forall i :: 0 <= i < |built| ==> built[i].serial == i)
      && (forall id :: id in sdkClients ==> Known(sdkClients[id]) && sdkClients[id].sdkId == id)
      && (forall k :: k in sdkClientsBySdkKey ==> Known(sdkClientsBySdkKey[k]))
    }

    ghost function Values(): seq<Client>
      reads `built, built
    {
      ValuesOf(built)
    }

    /** The registrar as a value: objects become their places in the ledger. */
    ghost function View(): (s: State)
      requires Valid()
      reads this, built
      ensures s.InRange()
    {
      State(conf, options, Values(), Serials(sdkClients), Serials(sdkClientsBySdkKey), published, calls)
    }

    method BuildSdkConfig(id: Id, sdk: SdkModel) returns (c: SdkConfig)
      ensures c == ProfileModel.BuildSdkConfig(conf, options, id, sdk.key1)
    {
      c := ProfileModel.BuildSdkConfig(conf, options, id, sdk.key1);
    }

    method BuildSdkClient(id: Id, config: SdkConfig, sdk: SdkModel) returns (c: SdkClient)
      requires Valid()
      modifies `built
      ensures Valid() && fresh(c) && built == old(built) + [c] && c.sdkId == id && c.serial == |old(built)|
      ensures Values() == old(Values()) + [Client(id, config, if |sdk.key2| > 0 then Some(sdk.key2) else None, 0)]
    {
      c := new SdkClient(id, config, if |sdk.key2| > 0 then Some(sdk.key2) else None, |built|);
      built := built + [c];
    }

    method RemoveId(id: Id)
      requires Valid()
      modifies `sdkClients
      ensures Valid() && sdkClients == old(sdkClients) - {id}
      ensures Serials(sdkClients) == Serials(old(sdkClients)) - {id}
    {
      SerialsRemove(sdkClients, {id});
      sdkClients := sdkClients - {id};
    }

    method StoreId(id: Id, c: SdkClient)
      requires Valid() && Known(c) && c.sdkId == id
      modifies `sdkClients
      ensures Valid() && Serials(sdkClients) == Serials(old(sdkClients))[id := c.serial]
    {
      SerialsUpdate(sdkClients, id, c);
      sdkClients := sdkClients[id := c];
    }

    method RemoveKeys(c: SdkClient)
      requires Valid()
      modifies `sdkClientsBySdkKey
      ensures Valid() && Serials(sdkClientsBySdkKey) == DropKeys(Serials(old(sdkClientsBySdkKey)), c.Value())
    {
      SerialsRemove(sdkClientsBySdkKey, {c.conf.key, c.Value().Secondary()} - {""});
      var (key1, key2) := c.SdkKeys();
      if key1 != "" {
        sdkClientsBySdkKey := sdkClientsBySdkKey - {key1};
      }
      if key2.Some? && key2.value != "" {
        sdkClientsBySdkKey := sdkClientsBySdkKey - {key2.value};
      }
      assert sdkClientsBySdkKey == old(sdkClientsBySdkKey) - ({c.conf.key, c.Value().Secondary()} - {""});
    }

    method StoreKeys(sdk: SdkModel, c: SdkClient)
      requires Valid() && Known(c)
      modifies `sdkClientsBySdkKey
      ensures Valid()
      ensures Serials(sdkClientsBySdkKey) == Registrar.StoreKeys(Serials(old(sdkClientsBySdkKey)), sdk, c.serial)
    {
      if sdk.key1 != "" {
        SerialsUpdate(sdkClientsBySdkKey, sdk.key1, c);
        sdkClientsBySdkKey := sdkClientsBySdkKey[sdk.key1 := c];
      }
      if sdk.key2 != "" {
        SerialsUpdate(sdkClientsBySdkKey, sdk.key2, c);
        sdkClientsBySdkKey := sdkClientsBySdkKey[sdk.key2 := c];
      }
    }

    method CloseClient(c: SdkClient)
      requires Valid() && Known(c)
      modifies c`closes
      ensures Values() == old(Values())[c.serial := Closed(old(Values())[c.serial])]
    {
      c.Close();
      assert forall i :: 0 <= i < |built| && i != c.serial ==> built[i] != c;
    }

    /** Takes the keys of a replaced or removed client out of the index and closes it. */
    method Retire(c: SdkClient)
      requires Valid() && Known(c)
      modifies `sdkClientsBySdkKey, c`closes
      ensures Valid()
      ensures Serials(sdkClientsBySdkKey) == DropKeys(Serials(old(sdkClientsBySdkKey)), old(c.Value()))
      ensures Values() == old(Values())[c.serial := Closed(old(c.Value()))]
    {
      RemoveKeys(c);
      CloseClient(c);
    }

    ghost function ClientAt(id: Id): set<SdkClient>
      reads `sdkClients
    {
      if id in sdkClients then {sdkClients[id]} else {}
    }

    /** Tells the reporter and the subscribers about `id`. */
    method Announce(call: ReporterCall, id: Id)
      modifies `calls, `published
      ensures calls == old(calls) + [call] && published == old(published) + [id]
    {
      calls := calls + [call];
      published := published + [id];
    }

    method Unregister(id: Id, c: SdkClient)
      requires Valid() && Known(c)
      modifies `sdkClients, `sdkClientsBySdkKey, `calls, `published, c`closes
      ensures Valid() && Serials(sdkClients) == Serials(old(sdkClients)) - {id}
      ensures Serials(sdkClientsBySdkKey) == DropKeys(Serials(old(sdkClientsBySdkKey)), old(c.Value()))
      ensures Values() == old(Values())[c.serial := Closed(old(c.Value()))]
      ensures calls == old(calls) + [RemoveSdk(id)] && published == old(published) + [id]
    {
      RemoveId(id);
      Retire(c);
      Announce(RemoveSdk(id), id);
    }

    /** A new client for an id that has none. */
    method Register(id: Id, config: SdkConfig, sdk: SdkModel)
      requires Valid()
      modifies `built, `sdkClients, `sdkClientsBySdkKey, `calls, `published
      ensures Valid() && Serials(sdkClients) == Serials(old(sdkClients))[id := |old(built)|]
      ensures Serials(sdkClientsBySdkKey) == Registrar.StoreKeys(Serials(old(sdkClientsBySdkKey)), sdk, |old(built)|)
      ensures Values() == old(Values()) + [Client(id, config, if |sdk.key2| > 0 then Some(sdk.key2) else None, 0)]
      ensures calls == old(calls) + [RegisterSdk(id, config)] && published == old(published) + [id]
      ensures |built| == |old(built)| + 1 && built[..|old(built)|] == old(built) && fresh(built[|old(built)|])
      ensures forall c :: c in built ==> c in old(built) || fresh(c)
    {
      StoreUnannounced(id, config, sdk);
      Announce(RegisterSdk(id, config), id);
    }

    method Swap(id: Id, config: SdkConfig, sdk: SdkModel, existing: SdkClient) returns (c: SdkClient)
      requires Valid() && Known(existing)
      modifies `built, `sdkClients, `sdkClientsBySdkKey, existing`closes
      ensures Valid() && Serials(sdkClients) == Serials(old(sdkClients))[id := |old(built)|]
      ensures Serials(sdkClientsBySdkKey) == DropKeys(Serials(old(sdkClientsBySdkKey)), old(existing.Value()))
      ensures Values() == old(Values())[existing.serial := Closed(old(existing.Value()))]
                          + [Client(id, config, if |sdk.key2| > 0 then Some(sdk.key2) else None, 0)]
      ensures built == old(built) + [c] && fresh(c) && c.serial == |old(built)|
    {
      hide DropKeys, Closed;
      c := BuildSdkClient(id, config, sdk);
      StoreId(id, c);
      Retire(existing);
    }

    /** A new client in place of `existing`; the new keys are indexed after the announcement. */
    method Replace(id: Id, config: SdkConfig, sdk: SdkModel, existing: SdkClient)
      requires Valid() && Known(existing)
      modifies `built, `sdkClients, `sdkClientsBySdkKey, `calls, `published, existing`closes
      ensures Valid() && Serials(sdkClients) == Serials(old(sdkClients))[id := |old(built)|]
      ensures Serials(sdkClientsBySdkKey) ==
              Registrar.StoreKeys(DropKeys(Serials(old(sdkClientsBySdkKey)), old(existing.Value())), sdk, |old(built)|)
      ensures Values() == old(Values())[existing.serial := Closed(old(existing.Value()))]
                          + [Client(id, config, if |sdk.key2| > 0 then Some(sdk.key2) else None, 0)]
      ensures calls == old(calls) + [UpdateSdk(id, config)] && published == old(published) + [id]
      ensures |built| == |old(built)| + 1 && built[..|old(built)|] == old(built) && fresh(built[|old(built)|])
      ensures forall c :: c in built ==> c in old(built) || fresh(c)
    {
      hide DropKeys, Registrar.StoreKeys, ValuesOf;
      var c := Swap(id, config, sdk, existing);
      Announce(UpdateSdk(id, config), id);
      StoreKeys(sdk, c);
    }

    /** A new client stored without telling anyone: the id was not registered. */
    method StoreUnannounced(id: Id, config: SdkConfig, sdk: SdkModel)
      requires Valid()
      modifies `built, `sdkClients, `sdkClientsBySdkKey
      ensures Valid() && Serials(sdkClients) == Serials(old(sdkClients))[id := |old(built)|]
      ensures Serials(sdkClientsBySdkKey) == Registrar.StoreKeys(Serials(old(sdkClientsBySdkKey)), sdk, |old(built)|)
      ensures Values() == old(Values()) + [Client(id, config, if |sdk.key2| > 0 then Some(sdk.key2) else None, 0)]
      ensures |built| == |old(built)| + 1 && built[..|old(built)|] == old(built) && fresh(built[|old(built)|])
      ensures forall c :: c in built ==> c in old(built) || fresh(c)
    {
      var c := BuildSdkClient(id, config, sdk);
      StoreId(id, c);
      StoreKeys(sdk, c);
    }

    method DeleteSdkClient(id: Id)
      requires Valid()
      modifies `sdkClients, `sdkClientsBySdkKey, `calls, `published, ClientAt(id)
      ensures Valid() && View() == DeleteOne(old(View()), id)
    {
      if id in sdkClients {
        var c := sdkClients[id];
        assert Known(c);
        DeleteOneIs(View(), id, c.serial, c.Value());
        Unregister(id, c);
      }
    }

    /** Stores a new secondary key in the client the readers already hold. */
    method ReplaceSecondary(id: Id, c: SdkClient, dropped: Option<Key>, key: Key)
      requires Valid() && Known(c)
      modifies `sdkClientsBySdkKey, `published, c`secondary
      ensures Valid() && published == old(published) + [id]
      ensures Values() == old(Values())[c.serial := old(c.Value()).(key2 := Some(key))]
      ensures var keys := Serials(old(sdkClientsBySdkKey));
              Serials(sdkClientsBySdkKey) == (if dropped.Some? then keys - {dropped.value} else keys)[key := c.serial]
    {
      SetSecondary(c, key);
      if dropped.Some? {
        UnindexKey(dropped.value);
      }
      IndexClient(key, c);
      published := published + [id];
    }

    method TouchSdkClient(id: Id, sdk: SdkModel)
      requires Valid()
      modifies `sdkClientsBySdkKey, `published, ClientAt(id)
      ensures Valid() && View() == TouchOne(old(View()), id, sdk)
    {
      if id in sdkClients {
        var c := sdkClients[id];
        assert Known(c);
        TouchOneIs(View(), id, sdk, c.serial, c.Value());
        var (_, key2) := c.SdkKeys();
        if key2.None? && sdk.key2 != "" {
          ReplaceSecondary(id, c, None, sdk.key2);
        } else if key2.Some? && key2.value != sdk.key2 {
          ReplaceSecondary(id, c, key2, sdk.key2);
        }
      }
    }

    method SetSecondary(c: SdkClient, key: Key)
      requires Valid() && Known(c)
      modifies c`secondary
      ensures Values() == old(Values())[c.serial := old(c.Value()).(key2 := Some(key))]
    {
      c.SetSecondarySdkKey(key);
      assert forall i :: 0 <= i < |built| && i != c.serial ==> built[i] != c;
    }

    method IndexClient(key: Key, c: SdkClient)
      requires Valid() && Known(c)
      modifies `sdkClientsBySdkKey
      ensures Valid() && Serials(sdkClientsBySdkKey) == Serials(old(sdkClientsBySdkKey))[key := c.serial]
    {
      SerialsUpdate(sdkClientsBySdkKey, key, c);
      sdkClientsBySdkKey := sdkClientsBySdkKey[key := c];
    }

    method UnindexKey(key: Key)
      requires Valid()
      modifies `sdkClientsBySdkKey
      ensures Valid() && Serials(sdkClientsBySdkKey) == Serials(old(sdkClientsBySdkKey)) - {key}
    {
      SerialsRemove(sdkClientsBySdkKey, {key});
      sdkClientsBySdkKey := sdkClientsBySdkKey - {key};
    }

    method AddSdkClient(id: Id, sdk: SdkModel)
      requires Valid()
      modifies `built, `sdkClients, `sdkClientsBySdkKey, `calls, `published
      ensures Valid() && View() == AddOne(old(View()), id, sdk)
      ensures forall c :: c in built ==> c in old(built) || fresh(c)
    {
      var config := BuildSdkConfig(id, sdk);
      if id !in sdkClients {
        AddOneIs(View(), id, sdk);
        Register(id, config, sdk);
      }
    }

    method ResetSdkClient(id: Id, sdk: SdkModel)
      requires Valid()
      modifies `built, `sdkClients, `sdkClientsBySdkKey, `calls, `published, ClientAt(id)
      ensures Valid() && View() == ResetOne(old(View()), id, sdk)
      ensures forall c :: c in built ==> c in old(built) || fresh(c)
    {
      var config := BuildSdkConfig(id, sdk);
      ResetOneIs(View(), id, sdk);
      if id in sdkClients {
        Replace(id, config, sdk, sdkClients[id]);
      } else {
        StoreUnannounced(id, config, sdk);
      }
    }

    // ----- Getting the profile -----

    method ParseConfig(body: Option<Bytes>, newTag: Bytes) returns (outcome: Outcome)
      modifies `etag
      ensures var r := ProfilePoll.ParseConfig(decode, old(etag), body, newTag); outcome == r.outcome && etag == r.etag
    {
      if newTag == etag {
        return Unchanged;
      }
      if body.None? {
        return Failed(AbsentBody);
      }
      var parsed := decode(body.value);
      if parsed.None? {
        return Failed(MalformedBody);
      }
      etag := newTag;
      return Loaded(parsed.value);
    }

    method GetConfig(poll: Poll) returns (outcome: Outcome, written: Option<Bytes>)
      modifies `etag
      ensures PollResult(outcome, etag, written) == ProfilePoll.GetConfig(decode, conf.globalOffline, old(etag), poll)
    {
      var cached := ReadCache(etag, poll.cache);
      written := None;
      if conf.globalOffline || poll.answer.FetchFailed? {
        if cached.body.None? {
          outcome := Failed(CacheUnavailable);
        } else {
          outcome := ParseConfig(cached.body, cached.etag);
        }
      } else if poll.answer.NotModified? {
        outcome := ParseConfig(cached.body, cached.etag);
      } else {
        var received := StripWeak(poll.answer.etagHeader);
        if poll.cacheWritable && !poll.cache.NotConfigured? {
          written := Some(SegmentsToBytes(received, poll.answer.body));
        }
        outcome := ParseConfig(Some(poll.answer.body), received);
      }
    }

    // ----- The loops over ids -----

    method DeleteSdkClients(ids: seq<Id>)
      requires Valid()
      modifies `sdkClients, `sdkClientsBySdkKey, `calls, `published, built
      ensures Valid() && View() == ApplyAll(old(View()), Deletes(ids))
    {
      for i := 0 to |ids|
        invariant Valid() && View() == ApplyAll(old(View()), Deletes(ids[..i]))
      {
        DeletesSnoc(old(View()), ids, i);
        DeleteSdkClient(ids[i]);
      }
      TakeAll(ids);
    }

    method AddSdkClients(ids: seq<Id>, p: Profile)
      requires Valid()
      modifies `built, `sdkClients, `sdkClientsBySdkKey, `calls, `published
      ensures Valid() && View() == ApplyAll(old(View()), Adds(Present(ids, p.sdks), p.sdks))
      ensures forall c :: c in built ==> c in old(built) || fresh(c)
    {
      for i := 0 to |ids|
        invariant Valid() && View() == ApplyAll(old(View()), Adds(Present(ids[..i], p.sdks), p.sdks))
        invariant forall c :: c in built ==> c in old(built) || fresh(c)
      {
        AddsSnoc(old(View()), ids, p.sdks, i);
        if ids[i] in p.sdks {
          AddSdkClient(ids[i], p.sdks[ids[i]]);
        }
      }
      TakeAll(ids);
    }

    method ResetSdkClients(ids: seq<Id>, p: Profile)
      requires Valid()
      modifies `built, `sdkClients, `sdkClientsBySdkKey, `calls, `published, built
      ensures Valid() && View() == ApplyAll(old(View()), Resets(Present(ids, p.sdks), p.sdks))
      ensures forall c :: c in built ==> c in old(built) || fresh(c)
    {
      for i := 0 to |ids|
        invariant Valid() && View() == ApplyAll(old(View()), Resets(Present(ids[..i], p.sdks), p.sdks))
        invariant forall c :: c in built ==> c in old(built) || fresh(c)
      {
        ResetsSnoc(old(View()), ids, p.sdks, i);
        if ids[i] in p.sdks {
          assert forall c :: c in ClientAt(ids[i]) ==> Known(c) && c in built;
          ResetSdkClient(ids[i], p.sdks[ids[i]]);
        }
      }
      TakeAll(ids);
    }

    /** Updates the secondary keys and collects the ids whose primary key changed. */
    method TouchSdkClients(ids: seq<Id>, p: Profile) returns (rekeyed: seq<Id>)
      requires Valid()
      modifies `sdkClientsBySdkKey, `published, built
      ensures Valid() && rekeyed == ByPrimary(ids, old(View()).Table(), p.sdks, true)
      ensures View() == ApplyAll(old(View()), TouchesOf(ids, old(View()).Table(), p.sdks))
    {
      rekeyed := [];
      ghost var t := View().Table();
      for i := 0 to |ids|
        invariant Valid() && rekeyed == ByPrimary(ids[..i], t, p.sdks, true)
        invariant View() == ApplyAll(old(View()), TouchesOf(ids[..i], t, p.sdks))
      {
        var id := ids[i];
        TouchesSnoc(old(View()), ids, t, p.sdks, i);
        assert ids[..i + 1][..i] == ids[..i];
        assert id in t <==> id in sdkClients;
        if id in sdkClients && id in p.sdks {
          assert Known(sdkClients[id]) && t[id].key1 == sdkClients[id].conf.key;
          var (key1, _) := sdkClients[id].SdkKeys();
          if key1 != p.sdks[id].key1 {
            rekeyed := rekeyed + [id];
          } else {
            TouchSdkClient(id, p.sdks[id]);
          }
        }
      }
      TakeAll(ids);
    }

    // ----- One refresh -----

    predicate ShouldUpdateOptions(o: Options)
      reads `options
    {
      options.pollInterval != o.pollInterval || options.dataGovernance != o.dataGovernance
    }

    /** The updates of the ids that stay. */
    method UpdateSdkClients(remaining: seq<Id>, p: Profile)
      requires Valid() && Elems(remaining) <= p.sdks.Keys
      modifies `options, `built, `sdkClients, `sdkClientsBySdkKey, `calls, `published, built
      ensures Valid() && forall c :: c in built ==> c in old(built) || fresh(c)
      ensures View() == Updated(old(View()), p, remaining)
    {
      if ShouldUpdateOptions(p.options) {
        options := p.options;
        ResetSdkClients(remaining, p);
      } else {
        ByPrimaryElems(remaining, View().Table(), p.sdks, true);
        var rekeyed := TouchSdkClients(remaining, p);
        if |rekeyed| > 0 {
          ResetSdkClients(rekeyed, p);
        }
      }
    }

    /** Reconciles the clients with a downloaded profile. The listing orders are whatever
        ranging over the two maps gave. */
    method Reconcile(p: Profile) returns (ghost existing: seq<Id>, ghost remote: seq<Id>)
      requires Valid()
      modifies `options, `built, `sdkClients, `sdkClientsBySdkKey, `calls, `published, built
      ensures Valid() && forall c :: c in built ==> c in old(built) || fresh(c)
      ensures Enumerates(existing, old(View()).byId.Keys) && Enumerates(remote, p.sdks.Keys)
      ensures View() == Refresh(old(View()), p, existing, remote)
    {
      hide Refresh, Enumerates;
      ghost var s := View();
      var existingKeys := KeysOfMap(sdkClients);
      var remoteKeys := KeysOfMap(p.sdks);
      existing, remote := existingKeys, remoteKeys;
      var toAdd := ComputeExcept(remoteKeys, existingKeys);
      var toDelete := ComputeExcept(existingKeys, remoteKeys);
      var remaining := ComputeExcept(remoteKeys, toAdd);
      RefreshSteps(s, p, existing, remote);
      DeleteSdkClients(toDelete);
      UpdateSdkClients(remaining, p);
      AddSdkClients(toAdd, p);
    }

    /** One tick of the registrar's loop: get the profile, and reconcile if it is a new one. */
    method RefreshConfig(poll: Poll) returns (written: Option<Bytes>, ghost existing: seq<Id>, ghost remote: seq<Id>)
      requires Valid()
      modifies `etag, `options, `built, `sdkClients, `sdkClientsBySdkKey, `calls, `published, built
      ensures Valid() && forall c :: c in built ==> c in old(built) || fresh(c)
      ensures var got := ProfilePoll.GetConfig(decode, conf.globalOffline, old(etag), poll);
              && etag == got.etag && written == got.written
              && if !got.outcome.Loaded? then View() == old(View())
                 else && Enumerates(existing, old(View()).byId.Keys)
                      && Enumerates(remote, got.outcome.profile.sdks.Keys)
                      && View() == Refresh(old(View()), got.outcome.profile, existing, remote)
                      && (Sound(old(View())) && Configured(old(View()), old(View()).byId.Keys)
                          && DistinctKeys(got.outcome.profile.sdks)
                          && NoTakeover(Served(old(View())), got.outcome.profile)
                          ==> Mirrors(View(), got.outcome.profile))
    {
      ghost var s := View();
      existing, remote := [], [];
      var outcome;
      outcome, written := GetConfig(poll);
      if outcome.Loaded? {
        existing, remote := Reconcile(outcome.profile);
        if Sound(s) && Configured(s, s.byId.Keys) && DistinctKeys(outcome.profile.sdks)
           && NoTakeover(Served(s), outcome.profile) {
          NoTakeoverIsClashFree(s, outcome.profile, existing, remote);
          RefreshMirrors(s, outcome.profile, existing, remote);
        }
      }
    }

    // ----- Construction -----

    /** A registrar before its first poll. */
    constructor (conf: ProxyConf, decode: Bytes -> Option<Profile>, options: Options)
      ensures Valid() && this.conf == conf && this.decode == decode && etag == INITIAL_ETAG && built == []
      ensures View() == Empty(conf, options)
    {
      this.conf, this.decode, this.etag, this.options := conf, decode, INITIAL_ETAG, options;
      this.sdkClients, this.sdkClientsBySdkKey := map[], map[];
      this.published, this.calls, this.built := [], [], [];
    }

    /** Builds every client of the first profile and announces none of them. */
    method Populate(p: Profile) returns (ghost order: seq<Id>)
      requires Valid() && View() == Empty(conf, options) && built == []
      modifies `options, `built, `sdkClients, `sdkClientsBySdkKey, `calls
      ensures Valid() && forall c :: c in built ==> fresh(c)
      ensures Enumerates(order, p.sdks.Keys) && View() == Construct(conf, p, order)
    {
      options := p.options;
      order := AddInitials(p);
    }

    method AddInitials(p: Profile) returns (ghost order: seq<Id>)
      requires Valid() && View() == Empty(conf, p.options) && built == []
      modifies `built, `sdkClients, `sdkClientsBySdkKey, `calls
      ensures Valid() && forall c :: c in built ==> fresh(c)
      ensures Enumerates(order, p.sdks.Keys) && View() == Initial(Empty(conf, p.options), order, p.sdks)
    {
      ghost var s := View();
      var ids := KeysOfMap(p.sdks);
      order := ids;
      assert Serials(sdkClients) == map[];
      for i := 0 to |ids|
        invariant Valid() && forall c :: c in built ==> fresh(c)
        invariant Elems(ids[..i]) <= p.sdks.Keys && Serials(sdkClients).Keys == Elems(ids[..i])
        invariant View() == Initial(s, ids[..i], p.sdks)
      {
        NewPrefix(ids, i);
        InitialSnoc(s, ids, p.sdks, i);
        AddInitial(ids[i], p.sdks[ids[i]]);
      }
      TakeAll(ids);
    }

    method AddInitial(id: Id, sdk: SdkModel)
      requires Valid() && id !in Serials(sdkClients)
      modifies `built, `sdkClients, `sdkClientsBySdkKey, `calls
      ensures Valid() && View() == AddOne(old(View()), id, sdk).(published := old(published))
      ensures Serials(sdkClients).Keys == old(Serials(sdkClients)).Keys + {id}
      ensures forall c :: c in built ==> c in old(built) || fresh(c)
    {
      AddOneIs(View(), id, sdk);
      var config := BuildSdkConfig(id, sdk);
      StoreInitial(id, config, sdk);
    }

    /** The constructor tells the reporter first. */
    method StoreInitial(id: Id, config: SdkConfig, sdk: SdkModel)
      requires Valid()
      modifies `built, `sdkClients, `sdkClientsBySdkKey, `calls
      ensures Valid() && Serials(sdkClients) == Serials(old(sdkClients))[id := |old(built)|]
      ensures Serials(sdkClientsBySdkKey) == Registrar.StoreKeys(Serials(old(sdkClientsBySdkKey)), sdk, |old(built)|)
      ensures Values() == old(Values()) + [Client(id, config, if |sdk.key2| > 0 then Some(sdk.key2) else None, 0)]
      ensures calls == old(calls) + [RegisterSdk(id, config)]
      ensures forall c :: c in built ==> c in old(built) || fresh(c)
    {
      calls := calls + [RegisterSdk(id, config)];
      StoreUnannounced(id, config, sdk);
    }
  }

  /** How the construction of a registrar ends; an unchanged first poll leaves no options to read. */
  datatype Creation = Refused(reason: Reason) | MissingOptions | Created(registrar: AutoRegistrar)

  /** Polls once and builds the clients of the profile, if there is one. */
  method NewAutoRegistrar(conf: ProxyConf, decode: Bytes -> Option<Profile>, poll: Poll)
    returns (created: Creation, written: Option<Bytes>, ghost order: seq<Id>)
    ensures var got := ProfilePoll.GetConfig(decode, conf.globalOffline, INITIAL_ETAG, poll);
            && written == got.written
            && match got.outcome
               case Failed(reason) => created == Refused(reason)
               case Unchanged => created == MissingOptions
               case Loaded(p) =>
                 && created.Created? && fresh(created.registrar) && created.registrar.Valid()
                 && created.registrar.conf == conf && created.registrar.decode == decode
                 && created.registrar.etag == got.etag
                 && Enumerates(order, p.sdks.Keys) && created.registrar.View() == Construct(conf, p, order)
                 && (DistinctKeys(p.sdks) ==> Mirrors(created.registrar.View(), p))
  {
    var registrar := new AutoRegistrar(conf, decode, Options(0, ""));
    order := [];
    var outcome;
    outcome, written := registrar.GetConfig(poll);
    match outcome {
      case Failed(reason) => created := Refused(reason);
      case Unchanged => created := MissingOptions;
      case Loaded(p) =>
        order := registrar.Populate(p);
        created := Created(registrar);
        if DistinctKeys(p.sdks) {
          ConstructMirrors(conf, p, order);
        }
    }
  }
}
