/** Where the stream server's key index is not exact: a secondary key that is replaced or
    removed in place stays in it. */
module StaleKeys {
  import opened Common
  import opened ProfileModel
  import opened Registrar
  import opened RegistrarRuns
  import opened Reconcile
  import opened ReconcileRuns
  import opened RegistrarEffects
  import opened StreamServer
  import opened ServerAgreement
  import opened ServerKeys
  import PubSub

  /** `k` is in the index, but no registered client and no client of an open stream has it. */
  ghost predicate Orphaned(s: System, k: Key)
    requires s.Ok()
  {
    && k in s.srv.byKey
    && (forall id :: id in s.reg.byId ==> !s.reg.ClientOf(id).Has(k))
    && (forall i :: 0 <= i < |s.srv.feeds| && s.srv.feeds[i].open ==> !s.reg.clients[s.srv.feeds[i].client].Has(k))
  }

  predicate Gives(op: Op, k: Key) {
    !op.Delete? && !op.SetOptions? && op.sdk.Has(k)
  }

  lemma OrphanIsStale(s: System, k: Key)
    requires s.Ok() && Orphaned(s, k)
    ensures !NoStaleKey(s.reg.clients, s.srv)
  {
  }

  lemma NoNewKey(r: State, op: Op, h: nat, k: Key)
    requires r.InRange() && Enabled(r.Table(), op) && !Gives(op, k)
    requires h < |Apply(r, op).clients| && Apply(r, op).clients[h].Has(k)
    ensures h < |r.clients| && r.clients[h].Has(k)
  {
    if op.Touch? {
      assert r.Table()[op.id].key1 == op.sdk.key1;
    }
  }

  lemma RegisteredBefore(r: State, op: Op, id: Id, k: Key)
    requires r.InRange() && Enabled(r.Table(), op) && !Gives(op, k)
    requires id in Apply(r, op).byId && Apply(r, op).ClientOf(id).Has(k)
    ensures id in r.byId && r.ClientOf(id).Has(k)
  {
    NoNewKey(r, op, Apply(r, op).byId[id], k);
  }

  /** An orphaned key is stuck: no notification, not even the removal of its SDK, takes it
      out of the index as long as no SDK is given the key again. */
  lemma {:induction false} StepOrphaned(s: System, a: Action, k: Key)
    requires s.Ok() && Consistent(s) && Orphaned(s, k) && Allowed(s, a)
    requires a.Update? ==> !Gives(a.op, k)
    ensures Orphaned(Act(s, a), k)
  {
    var t := Act(s, a);
    if a.Update? {
      forall id | id in t.reg.byId
        ensures !t.reg.ClientOf(id).Has(k)
      {
        if t.reg.ClientOf(id).Has(k) {
          RegisteredBefore(s.reg, a.op, id, k);
        }
      }
      forall i | 0 <= i < |t.srv.feeds| && t.srv.feeds[i].open
        ensures !t.reg.clients[t.srv.feeds[i].client].Has(k)
      {
        if t.reg.clients[t.srv.feeds[i].client].Has(k) {
          NoNewKey(s.reg, a.op, t.srv.feeds[i].client, k);
        }
      }
    } else if a.Handle? && s.handled < |s.Inbox()| {
      HandleOrphaned(s.reg, s.srv, s.Inbox()[s.handled], k);
    }
  }

  lemma HandleOrphaned(r: State, s: ServerState, x: Id, k: Key)
    requires r.InRange() && Placed(r.clients, s) && Tracked(r.clients, s) && k in s.byKey
    requires forall id :: id in r.byId ==> !r.ClientOf(id).Has(k)
    requires forall i :: 0 <= i < |s.feeds| && s.feeds[i].open ==> !r.clients[s.feeds[i].client].Has(k)
    ensures var t := HandleSdkId(r, s, x);
            && k in t.byKey
            && forall i :: 0 <= i < |t.feeds| && t.feeds[i].open ==> !r.clients[t.feeds[i].client].Has(k)
  {
    var t := HandleSdkId(r, s, x);
    if x in s.streams {
      assert s.feeds[s.streams[x]].open;
    }
    if x in r.byId {
      HandledKeys(r, s, x, k);
      assert !r.ClientOf(x).Has(k);
    }
  }

  // ----- Dropping an indexed secondary key in place -----

  /** Nothing about `id` is on its way, and its key `k` is still its own and indexed. */
  ghost predicate Holds(s: System, id: Id, k: Key)
    requires s.Ok()
  {
    !s.Pending(id) && id in s.reg.byId && s.reg.ClientOf(id).Has(k)
  }

  lemma UpdatePendsOnly(s: System, op: Op, x: Id)
    requires s.Ok() && Enabled(s.reg.Table(), op) && Act(s, Update(op)).Pending(x)
    ensures s.Pending(x) || (!op.SetOptions? && op.id == x)
  {
    OpAnnounces(s.reg, op);
  }

  lemma HandlePendsOnly(s: System, x: Id)
    requires s.Ok() && Act(s, Handle).Pending(x)
    ensures s.Pending(x)
  {
  }

  lemma OneOwner(owner: Key -> Id, clients: seq<Client>, a: nat, b: nat, k: Key)
    requires Owned(owner, clients) && a < |clients| && b < |clients| && clients[a].Has(k) && clients[b].Has(k)
    ensures clients[a].sdkId == clients[b].sdkId
  {
    assert owner(k) == clients[a].sdkId;
    assert owner(k) == clients[b].sdkId;
  }

  /** The touched client is the only one of a registered id or open stream that had the key. */
  lemma OnlyHolder(owner: Key -> Id, s: System, id: Id, k: Key)
    requires s.Ok() && Consistent(s) && Owned(owner, s.reg.clients) && Holds(s, id, k)
    ensures forall x :: x in s.reg.byId && s.reg.ClientOf(x).Has(k) ==> x == id
    ensures forall i :: 0 <= i < |s.srv.feeds| && s.srv.feeds[i].open && s.reg.clients[s.srv.feeds[i].client].Has(k) ==>
              s.srv.feeds[i].client == s.reg.byId[id]
  {
    var h := s.reg.byId[id];
    assert Agrees(s.reg, s.srv, id);
    forall x | x in s.reg.byId && s.reg.ClientOf(x).Has(k)
      ensures x == id
    {
      OneOwner(owner, s.reg.clients, h, s.reg.byId[x], k);
    }
    forall i | 0 <= i < |s.srv.feeds| && s.srv.feeds[i].open && s.reg.clients[s.srv.feeds[i].client].Has(k)
      ensures s.srv.feeds[i].client == h
    {
      OneOwner(owner, s.reg.clients, h, s.srv.feeds[i].client, k);
    }
  }

  lemma {:induction false} DropOrphans(owner: Key -> Id, s: System, id: Id, sdk: SdkModel, k: Key)
    requires s.Ok() && Consistent(s) && Complete(s) && Owned(owner, s.reg.clients)
    requires Enabled(s.reg.Table(), Touch(id, sdk)) && Holds(s, id, k) && !sdk.Has(k)
    ensures Orphaned(Act(s, Update(Touch(id, sdk))), k)
  {
    var t := Act(s, Update(Touch(id, sdk)));
    assert Agrees(s.reg, s.srv, id) && StreamClient(s, id).Has(k);
    assert s.reg.Table()[id].key1 == sdk.key1;
    TouchedKeys(s.reg, id, sdk);
    OnlyHolder(owner, s, id, k);
    forall x | x in t.reg.byId
      ensures !t.reg.ClientOf(x).Has(k)
    {
      if x != id && t.reg.ClientOf(x).Has(k) {
        RegisteredBefore(s.reg, Touch(id, sdk), x, k);
      }
    }
    forall i | 0 <= i < |t.srv.feeds| && t.srv.feeds[i].open
      ensures !t.reg.clients[t.srv.feeds[i].client].Has(k)
    {
      if t.reg.clients[t.srv.feeds[i].client].Has(k) {
        NoNewKey(s.reg, Touch(id, sdk), t.srv.feeds[i].client, k);
      }
    }
  }

  lemma TouchedKeys(r: State, id: Id, sdk: SdkModel)
    requires r.InRange() && id in r.byId && r.ClientOf(id).conf.key == sdk.key1
    ensures TouchOne(r, id, sdk).ClientOf(id).Sdk() == sdk
  {
  }

  lemma StepHolds(s: System, a: Action, id: Id, k: Key)
    requires s.Ok() && Allowed(s, a) && Holds(s, id, k)
    requires a.Update? ==> a.op.SetOptions? || a.op.id != id
    ensures Holds(Act(s, a), id, k)
  {
    match a
    case Update(op) =>
      NoEffect(s.reg, op, id);
      if Act(s, a).Pending(id) {
        UpdatePendsOnly(s, op, id);
      }
    case Deliver => DeliverPends(s, id);
    case Handle =>
      if Act(s, a).Pending(id) {
        HandlePendsOnly(s, id);
      }
    case Join(_) => OthersPend(s, a, id);
    case Leave(_) => OthersPend(s, a, id);
  }

  lemma {:induction false} OpsPrefix(actions: seq<Action>, id: Id)
    requires actions != []
    ensures var init, a := actions[..|actions| - 1], actions[|actions| - 1];
            About(OpsOf(actions), id) == About(OpsOf(init), id)
              + if a.Update? && !a.op.SetOptions? && a.op.id == id then [a.op] else []
  {
    var init, a := actions[..|actions| - 1], actions[|actions| - 1];
    if a.Update? {
      assert (OpsOf(init) + [a.op])[..|OpsOf(init)|] == OpsOf(init);
    } else {
      assert OpsOf(actions) == OpsOf(init);
    }
  }

  /** A run whose only update of `id` drops the indexed key `k` leaves `k` orphaned. */
  lemma {:induction false} RunDrops(owner: Key -> Id, s: System, actions: seq<Action>, id: Id, sdk: SdkModel, k: Key)
    requires s.Ok() && Consistent(s) && Complete(s) && Owned(owner, s.reg.clients) && Ledger(s.reg)
    requires EnabledAll(s.reg.Table(), OpsOf(actions)) && OwnedOps(owner, OpsOf(actions))
    requires Holds(s, id, k) && !sdk.Has(k) && owner(k) == id
    requires About(OpsOf(actions), id) == [] || About(OpsOf(actions), id) == [Touch(id, sdk)]
    ensures if About(OpsOf(actions), id) == [] then Holds(Run(s, actions), id, k) else Orphaned(Run(s, actions), k)
  {
    if actions != [] {
      var init, a := actions[..|actions| - 1], actions[|actions| - 1];
      OpsPrefix(actions, id);
      EnabledPrefix(s, actions);
      OwnedPrefix(owner, actions);
      RunDrops(owner, s, init, id, sdk, k);
      RunComplete(owner, s, init);
      var m := Run(s, init);
      if a.Update? && !a.op.SetOptions? && a.op.id == id {
        assert a.op == About(OpsOf(actions), id)[|About(OpsOf(init), id)|];
        DropOrphans(owner, m, id, sdk, k);
      } else if About(OpsOf(init), id) == [] {
        StepHolds(m, a, id, k);
      } else {
        StepOrphaned(m, a, k);
      }
    }
  }

  // ----- One refresh -----

  /** The refresh replaces or removes a nonempty secondary key of `id` in place. */
  ghost predicate DropsInPlace(from: Profile, to: Profile, id: Id) {
    && id in from.sdks && id in to.sdks && from.options == to.options
    && from.sdks[id].key1 == to.sdks[id].key1
    && from.sdks[id].key2 != "" && from.sdks[id].key2 != to.sdks[id].key2
  }

  lemma {:induction false} AboutBefore(ops: seq<Op>, n: nat, x: Id)
    requires n < |ops| && !ops[n].SetOptions? && ops[n].id == x && |About(ops, x)| <= 1
    ensures About(ops[..n], x) == [] && About(ops, x) == [ops[n]]
  {
    if n == |ops| - 1 {
    } else {
      var init := ops[..|ops| - 1];
      assert init[..n] == ops[..n];
      AboutBefore(init, n, x);
    }
  }

  lemma {:induction false} UntouchedRow(t: map<Id, SdkModel>, ops: seq<Op>, x: Id)
    requires About(ops, x) == []
    ensures x in TableAll(t, ops) <==> x in t
    ensures x in t ==> TableAll(t, ops)[x] == t[x]
  {
    if ops != [] {
      UntouchedRow(t, ops[..|ops| - 1], x);
    }
  }

  lemma {:induction false} PlanOpKeeps(s: State, p: Profile, existing: seq<Id>, remote: seq<Id>, n: nat)
    requires s.InRange() && Enumerates(existing, s.byId.Keys) && Enumerates(remote, p.sdks.Keys)
    requires n < |Plan(s, p, existing, remote)| && forall id :: !DropsInPlace(Served(s), p, id)
    ensures var ops := Plan(s, p, existing, remote);
            KeepsSecondary(TableAll(s.Table(), ops[..n]), ops[n])
  {
    var ops := Plan(s, p, existing, remote);
    var op := ops[n];
    if op.Touch? {
      PlanAbout(s, p, existing, remote, op.id);
      AboutBefore(ops, n, op.id);
      UntouchedRow(s.Table(), ops[..n], op.id);
      assert !DropsInPlace(Served(s), p, op.id);
    }
  }

  lemma {:induction false} PlanKeeps(s: State, p: Profile, existing: seq<Id>, remote: seq<Id>, n: nat)
    requires s.InRange() && Enumerates(existing, s.byId.Keys) && Enumerates(remote, p.sdks.Keys)
    requires n <= |Plan(s, p, existing, remote)| && forall id :: !DropsInPlace(Served(s), p, id)
    ensures KeepsSecondaries(s.Table(), Plan(s, p, existing, remote)[..n])
  {
    hide Plan, KeepsSecondary;
    if n > 0 {
      var ops := Plan(s, p, existing, remote);
      PlanKeeps(s, p, existing, remote, n - 1);
      PlanOpKeeps(s, p, existing, remote, n - 1);
      assert ops[..n][..n - 1] == ops[..n - 1];
    }
  }

  ghost predicate OwnedProfile(owner: Key -> Id, p: Profile) {
    forall id, k :: id in p.sdks && p.sdks[id].Has(k) ==> owner(k) == id
  }

  lemma PlanOwned(owner: Key -> Id, s: State, p: Profile, existing: seq<Id>, remote: seq<Id>)
    requires s.InRange() && Enumerates(existing, s.byId.Keys) && Enumerates(remote, p.sdks.Keys)
    requires OwnedProfile(owner, p)
    ensures OwnedOps(owner, Plan(s, p, existing, remote))
  {
    var ops := Plan(s, p, existing, remote);
    forall i | 0 <= i < |ops|
      ensures OwnedOp(owner, ops[i])
    {
      if !ops[i].SetOptions? {
        PlanAbout(s, p, existing, remote, ops[i].id);
        AboutBefore(ops, i, ops[i].id);
      }
    }
  }

  /** Starting from an exact index with nothing on its way, one refresh interleaved with any
      deliveries and server turns keeps the index free of stale keys if and only if it drops
      no secondary key in place. */
  lemma {:induction false} RefreshKeepsIndexIff(
      owner: Key -> Id, s: System, p: Profile, existing: seq<Id>, remote: seq<Id>, actions: seq<Action>)
    requires s.Ok() && Consistent(s) && Complete(s) && NoStaleKey(s.reg.clients, s.srv) && s.Quiet()
    requires Owned(owner, s.reg.clients) && OwnedProfile(owner, p) && Ledger(s.reg)
    requires DistinctKeys(s.reg.Table()) && DistinctKeys(p.sdks)
    requires Enumerates(existing, s.reg.byId.Keys) && Enumerates(remote, p.sdks.Keys)
    requires OpsOf(actions) == Plan(s.reg, p, existing, remote)
    ensures var t := Run(s, actions);
            NoStaleKey(t.reg.clients, t.srv) <==> forall id :: !DropsInPlace(Served(s.reg), p, id)
  {
    hide Plan, EnabledAll, TableAll, OwnedOps, KeepsSecondaries, Run;
    PlanTable(s.reg, p, existing, remote);
    PlanOwned(owner, s.reg, p, existing, remote);
    if id :| DropsInPlace(Served(s.reg), p, id) {
      var k := s.reg.ClientOf(id).Secondary();
      assert s.reg.Table()[id].key2 == k;
      PlanAbout(s.reg, p, existing, remote, id);
      assert s.reg.ClientOf(id).Has(k);
      RunDrops(owner, s, actions, id, p.sdks[id], k);
      OrphanIsStale(Run(s, actions), k);
    } else {
      PlanKeeps(s.reg, p, existing, remote, |OpsOf(actions)|);
      TakeAll(OpsOf(actions));
      RunNoStale(owner, s, actions);
    }
  }

  // ----- The shortest such run -----

  /** A registrar with one SDK, as constructed from a profile with just that SDK. */
  function Single(conf: ProxyConf, options: Options, id: Id, sdk: SdkModel): (r: State)
    requires sdk.key1 != sdk.key2 && sdk.key1 != "" && sdk.key2 != ""
    ensures r.InRange()
  {
    var c := BuildSdkConfig(conf, options, id, sdk.key1);
    State(conf, options, [Client(id, c, Some(sdk.key2), 0)], map[id := 0],
          map[sdk.key1 := 0, sdk.key2 := 0], [], [RegisterSdk(id, c)])
  }

  lemma SingleIsConstructed(conf: ProxyConf, options: Options, id: Id, sdk: SdkModel)
    requires sdk.key1 != sdk.key2 && sdk.key1 != "" && sdk.key2 != ""
    ensures Enumerates([id], map[id := sdk].Keys) && Enumerates([id], Single(conf, options, id, sdk).byId.Keys)
    ensures Construct(conf, Profile(map[id := sdk], options), [id]) == Single(conf, options, id, sdk)
  {
    var sdks := map[id := sdk];
    assert Elems([id]) == {id} && sdks.Keys == {id} && Single(conf, options, id, sdk).byId.Keys == {id};
    var adds := Adds([id], sdks);
    assert adds == [Add(id, sdk)] && adds[..|adds| - 1] == [];
    var e := Empty(conf, options);
    var r := AddOne(e, id, sdk);
    assert ApplyAll(e, []) == e && ApplyAll(e, adds) == r;
    assert r.byKey == map[sdk.key1 := 0, sdk.key2 := 0] && r.byId == map[id := 0];
    assert r.clients == Single(conf, options, id, sdk).clients && r.calls == Single(conf, options, id, sdk).calls;
  }

  lemma {:induction false} RunThree(s: System, a: Action, b: Action, c: Action)
    requires s.Ok()
    ensures Run(s, [a, b, c]) == Act(Act(Act(s, a), b), c)
  {
    assert [a][..|[a]| - 1] == [] && [a, b][..|[a, b]| - 1] == [a] && [a, b, c][..|[a, b, c]| - 1] == [a, b];
    assert Run(s, [a]) == Act(s, a);
    assert Run(s, [a, b]) == Act(Act(s, a), b);
  }

  lemma {:induction false} OpsOfThree(a: Action, b: Action, c: Action)
    requires a.Update? && !a.op.SetOptions? && !b.Update? && !c.Update?
    ensures OpsOf([a, b, c]) == [a.op] && About([a.op], a.op.id) == [a.op]
  {
    assert [a][..|[a]| - 1] == [] && [a, b][..|[a, b]| - 1] == [a] && [a, b, c][..|[a, b, c]| - 1] == [a, b];
    assert OpsOf([]) == [];
    assert OpsOf([a]) == OpsOf([]) + [a.op];
    assert OpsOf([a, b]) == OpsOf([a]) + [];
    assert OpsOf([a, b, c]) == OpsOf([a, b]) + [];
    assert [a.op][..|[a.op]| - 1] == [];
  }

  /** The secondary key of the only SDK is replaced. After everything was handled, the old key
      still finds the stream although no client has it. */
  lemma {:induction false} ReplacedSecondaryStays(conf: ProxyConf, options: Options, id: Id, sdk: SdkModel, key: Key)
    requires sdk.key1 != sdk.key2 && sdk.key1 != "" && sdk.key2 != "" && key != sdk.key2
    ensures Enumerates([id], Single(conf, options, id, sdk).byId.Keys)
    ensures var t := Run(Start(Single(conf, options, id, sdk), PubSub.Fresh(map[]), [id]),
                         [Update(Touch(id, SdkModel(sdk.key1, key))), Deliver, Handle]);
            t.Quiet() && Orphaned(t, sdk.key2) && !NoStaleKey(t.reg.clients, t.srv)
  {
    hide Consistent, Complete, Orphaned, NoStaleKey;
    SingleIsConstructed(conf, options, id, sdk);
    var r := Single(conf, options, id, sdk);
    var s := Start(r, PubSub.Fresh(map[]), [id]);
    var owner: Key -> Id := k => id;
    StartConsistent(r, PubSub.Fresh(map[]), [id]);
    StartKeys(owner, r, PubSub.Fresh(map[]), [id]);
    var touch := Touch(id, SdkModel(sdk.key1, key));
    OpsOfThree(Update(touch), Deliver, Handle);
    EnabledOnce(r.Table(), touch);
    RunDrops(owner, s, [Update(touch), Deliver, Handle], id, touch.sdk, sdk.key2);
    OrphanIsStale(Run(s, [Update(touch), Deliver, Handle]), sdk.key2);
    RunThree(s, Update(touch), Deliver, Handle);
    TouchIsHandled(s, touch);
  }

  lemma EnabledOnce(t: map<Id, SdkModel>, op: Op)
    requires Enabled(t, op)
    ensures EnabledAll(t, [op])
  {
  }

  lemma TouchIsHandled(s: System, touch: Op)
    requires s.Ok() && s.Quiet() && touch.Touch? && touch.id in s.reg.byId
    requires s.reg.ClientOf(touch.id).key2.Some? && s.reg.ClientOf(touch.id).key2.value != touch.sdk.key2
    ensures Act(Act(Act(s, Update(touch)), Deliver), Handle).Quiet()
  {
    var s1 := Act(s, Update(touch));
    assert s1.pub.queue == [touch.id];
    var s2 := Act(s1, Deliver);
    assert s2.pub.queue == [] && |s2.Inbox()| == s2.handled + 1;
  }
}
