/** The stream server's index of SDK keys, in runs where each key belongs to one SDK for good. */
module ServerKeys {
  import opened Common
  import opened ProfileModel
  import opened Registrar
  import opened RegistrarRuns
  import opened RegistrarEffects
  import opened StreamServer
  import opened ServerAgreement
  import PubSub

  ghost predicate Owned(owner: Key -> Id, clients: seq<Client>) {
    forall h, k :: 0 <= h < |clients| && clients[h].Has(k) ==> owner(k) == clients[h].sdkId
  }

  ghost predicate OwnedOp(owner: Key -> Id, op: Op) {
    op.Delete? || op.SetOptions? || forall k :: op.sdk.Has(k) ==> owner(k) == op.id
  }

  ghost predicate OwnedOps(owner: Key -> Id, ops: seq<Op>) {
    forall i :: 0 <= i < |ops| ==> OwnedOp(owner, ops[i])
  }

  /** The client that the stream of `id` holds. */
  function StreamClient(s: System, id: Id): Client
    requires s.Ok() && id in s.srv.streams
  {
    s.reg.clients[s.srv.feeds[s.srv.streams[id]].client]
  }

  predicate Resolves(s: System, k: Key, id: Id) {
    k in s.srv.byKey && id in s.srv.streams && s.srv.byKey[k] == s.srv.streams[id]
  }

  /** Unless a notification is on its way, every key of a stream's client finds the stream. */
  ghost predicate Complete(s: System)
    requires s.Ok()
  {
    forall id, k :: id in s.srv.streams && !s.Pending(id) && StreamClient(s, id).Has(k) ==> Resolves(s, k, id)
  }

  /** No key is stale: each resolves to an open stream whose client has that key. */
  ghost predicate NoStaleKey(clients: seq<Client>, s: ServerState)
    requires Placed(clients, s)
  {
    forall k :: k in s.byKey ==> Backed(clients, s, k)
  }

  ghost predicate Backed(clients: seq<Client>, s: ServerState, k: Key)
    requires Placed(clients, s) && k in s.byKey
  {
    && s.byKey[k] < |s.feeds| && s.feeds[s.byKey[k]].open
    && clients[s.feeds[s.byKey[k]].client].Has(k)
  }

  // ----- Keys and updates -----

  lemma {:induction false} OpOwned(owner: Key -> Id, r: State, op: Op)
    requires r.InRange() && Owned(owner, r.clients) && OwnedOp(owner, op)
    ensures Owned(owner, Apply(r, op).clients)
  {
    var t := Apply(r, op);
    forall h, k | 0 <= h < |t.clients| && t.clients[h].Has(k)
      ensures owner(k) == t.clients[h].sdkId
    {
      if h < |r.clients| && t.clients[h].Sdk() == r.clients[h].Sdk() {
        assert r.clients[h].Has(k);
      } else {
        assert op.sdk.Has(k) || (h < |r.clients| && r.clients[h].Has(k));
      }
    }
  }

  lemma UntouchedKey(owner: Key -> Id, r: State, s: ServerState, x: Id, k: Key)
    requires r.InRange() && Placed(r.clients, s) && Tracked(r.clients, s) && Owned(owner, r.clients) && owner(k) != x
    ensures var t := HandleSdkId(r, s, x);
            (k in t.byKey <==> k in s.byKey) && (k in s.byKey ==> t.byKey[k] == s.byKey[k])
  {
    if x in s.streams {
      assert !r.clients[s.feeds[s.streams[x]].client].Has(k);
    }
    if x in r.byId {
      assert !r.clients[r.byId[x]].Has(k);
    }
  }

  lemma OwnKeys(r: State, s: ServerState, x: Id, k: Key)
    requires r.InRange() && Placed(r.clients, s) && x in r.byId && r.ClientOf(x).Has(k)
    ensures var t := HandleSdkId(r, s, x);
            k in t.byKey && t.byKey[k] == t.streams[x]
  {
  }

  lemma CompleteAt(owner: Key -> Id, s: System, a: Action, id: Id, k: Key)
    requires s.Ok() && Consistent(s) && Complete(s) && Owned(owner, s.reg.clients) && Allowed(s, a)
    requires var t := Act(s, a);
             id in t.srv.streams && !t.Pending(id) && StreamClient(t, id).Has(k)
    ensures Resolves(Act(s, a), k, id)
  {
    match a
    case Update(op) =>
      UpdatePends(s, op, id);
      OpAnnounces(s.reg, op);
      if op.SetOptions? || op.id != id {
        NoEffect(s.reg, op, id);
      }
      assert Agrees(s.reg, s.srv, id);
      assert StreamClient(s, id).Has(k);
    case Deliver =>
      DeliverPends(s, id);
      assert StreamClient(s, id).Has(k);
    case Handle =>
      if s.handled < |s.Inbox()| {
        var x := s.Inbox()[s.handled];
        if x == id {
          HandleAgrees(s.reg, s.srv, x, x);
          OwnKeys(s.reg, s.srv, x, k);
        } else {
          OtherComplete(owner, s, x, id, k);
        }
      } else {
        assert StreamClient(s, id).Has(k);
      }
    case Join(_) =>
      OthersPend(s, a, id);
      assert StreamClient(s, id).Has(k);
    case Leave(_) =>
      OthersPend(s, a, id);
      assert StreamClient(s, id).Has(k);
  }

  lemma OtherComplete(owner: Key -> Id, s: System, x: Id, id: Id, k: Key)
    requires s.Ok() && Consistent(s) && Complete(s) && Owned(owner, s.reg.clients)
    requires s.handled < |s.Inbox()| && s.Inbox()[s.handled] == x != id
    requires var t := Act(s, Handle);
             id in t.srv.streams && !t.Pending(id) && StreamClient(t, id).Has(k)
    ensures Resolves(Act(s, Handle), k, id)
  {
    if s.Pending(id) {
      HandlePends(s, id);
    }
    assert s.srv.feeds[s.srv.streams[id]].sdkId == id;
    assert StreamClient(s, id).Has(k);
    UntouchedKey(owner, s.reg, s.srv, x, k);
  }

  lemma StepComplete(owner: Key -> Id, s: System, a: Action)
    requires s.Ok() && Consistent(s) && Complete(s) && Owned(owner, s.reg.clients) && Allowed(s, a)
    requires a.Update? ==> OwnedOp(owner, a.op)
    ensures Complete(Act(s, a)) && Owned(owner, Act(s, a).reg.clients)
  {
    if a.Update? {
      OpOwned(owner, s.reg, a.op);
    }
    var t := Act(s, a);
    forall id, k | id in t.srv.streams && !t.Pending(id) && StreamClient(t, id).Has(k)
      ensures Resolves(t, k, id)
    {
      CompleteAt(owner, s, a, id, k);
    }
  }

  // ----- No stale key -----

  /** The update neither replaces nor removes a secondary key in place. */
  predicate KeepsSecondary(t: map<Id, SdkModel>, op: Op) {
    op.Touch? && op.id in t ==> t[op.id].key2 == "" || t[op.id].key2 == op.sdk.key2
  }

  ghost predicate KeepsSecondaries(t: map<Id, SdkModel>, ops: seq<Op>) {
    ops == [] ||
    (KeepsSecondaries(t, ops[..|ops| - 1]) && KeepsSecondary(TableAll(t, ops[..|ops| - 1]), ops[|ops| - 1]))
  }

  lemma KeysGrow(r: State, op: Op, h: nat, k: Key)
    requires r.InRange() && Enabled(r.Table(), op) && KeepsSecondary(r.Table(), op)
    requires h < |r.clients| && r.clients[h].Has(k)
    ensures h < |Apply(r, op).clients| && Apply(r, op).clients[h].Has(k)
  {
    if op.Touch? {
      assert r.Table()[op.id] == r.ClientOf(op.id).Sdk();
    }
  }

  lemma {:induction false} HandleNoStale(owner: Key -> Id, r: State, s: ServerState, x: Id, k: Key)
    requires r.InRange() && Placed(r.clients, s) && Tracked(r.clients, s) && Owned(owner, r.clients)
    requires k in s.byKey ==> Backed(r.clients, s, k)
    requires k in HandleSdkId(r, s, x).byKey
    ensures Backed(r.clients, HandleSdkId(r, s, x), k)
  {
    if owner(k) == x {
      OwnNoStale(owner, r, s, x, k);
    } else {
      UntouchedKey(owner, r, s, x, k);
      OtherStream(r, s, x, s.byKey[k]);
    }
  }

  lemma OtherStream(r: State, s: ServerState, x: Id, i: nat)
    requires r.InRange() && Placed(r.clients, s) && Tracked(r.clients, s) && i < |s.feeds| && s.feeds[i].sdkId != x
    ensures i < |HandleSdkId(r, s, x).feeds| && HandleSdkId(r, s, x).feeds[i] == s.feeds[i]
  {
  }

  lemma {:induction false} OwnNoStale(owner: Key -> Id, r: State, s: ServerState, x: Id, k: Key)
    requires r.InRange() && Placed(r.clients, s) && Tracked(r.clients, s) && Owned(owner, r.clients) && owner(k) == x
    requires k in s.byKey ==> Backed(r.clients, s, k)
    requires k in HandleSdkId(r, s, x).byKey
    ensures Backed(r.clients, HandleSdkId(r, s, x), k)
  {
    if k in s.byKey {
      assert s.streams[x] == s.byKey[k];
    }
    if x in r.byId {
      HandledKeys(r, s, x, k);
    }
  }

  /** The index after handling a live id. */
  lemma HandledKeys(r: State, s: ServerState, x: Id, k: Key)
    requires r.InRange() && Placed(r.clients, s) && x in r.byId
    ensures var t, before := HandleSdkId(r, s, x),
                if x in s.streams then DropKeys(s.byKey, r.clients[s.feeds[s.streams[x]].client]) else s.byKey;
            && (k in t.byKey <==> r.ClientOf(x).Has(k) || k in before)
            && (r.ClientOf(x).Has(k) ==> t.byKey[k] == t.streams[x])
            && (k in t.byKey && !r.ClientOf(x).Has(k) ==> t.byKey[k] == before[k])
  {
  }

  lemma {:induction false} StepNoStale(owner: Key -> Id, s: System, a: Action)
    requires s.Ok() && Consistent(s) && NoStaleKey(s.reg.clients, s.srv) && Owned(owner, s.reg.clients) && Allowed(s, a)
    requires a.Update? ==> KeepsSecondary(s.reg.Table(), a.op)
    ensures NoStaleKey(Act(s, a).reg.clients, Act(s, a).srv)
  {
    var t := Act(s, a);
    forall k | k in t.srv.byKey
      ensures Backed(t.reg.clients, t.srv, k)
    {
      if a.Update? {
        KeysGrow(s.reg, a.op, s.srv.feeds[s.srv.byKey[k]].client, k);
      } else if a.Handle? && s.handled < |s.Inbox()| {
        HandleNoStale(owner, s.reg, s.srv, s.Inbox()[s.handled], k);
      }
    }
  }

  // ----- Runs -----

  lemma {:induction false} OwnedPrefix(owner: Key -> Id, actions: seq<Action>)
    requires actions != [] && OwnedOps(owner, OpsOf(actions))
    ensures var init, a := actions[..|actions| - 1], actions[|actions| - 1];
            OwnedOps(owner, OpsOf(init)) && (a.Update? ==> OwnedOp(owner, a.op))
  {
    var init, a := actions[..|actions| - 1], actions[|actions| - 1];
    assert forall i :: 0 <= i < |OpsOf(init)| ==> OpsOf(actions)[i] == OpsOf(init)[i];
    if a.Update? {
      assert OpsOf(actions)[|OpsOf(init)|] == a.op;
    }
  }

  lemma {:induction false} RunComplete(owner: Key -> Id, s: System, actions: seq<Action>)
    requires s.Ok() && Consistent(s) && Complete(s) && Owned(owner, s.reg.clients) && Ledger(s.reg)
    requires EnabledAll(s.reg.Table(), OpsOf(actions)) && OwnedOps(owner, OpsOf(actions))
    ensures var t := Run(s, actions);
            Consistent(t) && Complete(t) && Owned(owner, t.reg.clients)
  {
    if actions != [] {
      var init := actions[..|actions| - 1];
      EnabledPrefix(s, actions);
      OwnedPrefix(owner, actions);
      RunComplete(owner, s, init);
      StepConsistent(Run(s, init), actions[|actions| - 1]);
      StepComplete(owner, Run(s, init), actions[|actions| - 1]);
    }
  }

  lemma {:induction false} KeepsPrefix(s: System, actions: seq<Action>)
    requires s.Ok() && Ledger(s.reg) && actions != [] && EnabledAll(s.reg.Table(), OpsOf(actions))
    requires KeepsSecondaries(s.reg.Table(), OpsOf(actions))
    ensures var init, a := actions[..|actions| - 1], actions[|actions| - 1];
            && KeepsSecondaries(s.reg.Table(), OpsOf(init))
            && (a.Update? ==> KeepsSecondary(Run(s, init).reg.Table(), a.op))
  {
    var init, a := actions[..|actions| - 1], actions[|actions| - 1];
    EnabledPrefix(s, actions);
    RunIsApply(s, init);
    if a.Update? {
      assert (OpsOf(init) + [a.op])[..|OpsOf(init)|] == OpsOf(init);
      RunTable(s.reg, OpsOf(init));
    } else {
      assert OpsOf(actions) == OpsOf(init);
    }
  }

  lemma {:induction false} RunNoStale(owner: Key -> Id, s: System, actions: seq<Action>)
    requires s.Ok() && Consistent(s) && Complete(s) && NoStaleKey(s.reg.clients, s.srv)
    requires Owned(owner, s.reg.clients) && Ledger(s.reg)
    requires EnabledAll(s.reg.Table(), OpsOf(actions)) && OwnedOps(owner, OpsOf(actions))
    requires KeepsSecondaries(s.reg.Table(), OpsOf(actions))
    ensures NoStaleKey(Run(s, actions).reg.clients, Run(s, actions).srv)
  {
    if actions != [] {
      var init := actions[..|actions| - 1];
      EnabledPrefix(s, actions);
      OwnedPrefix(owner, actions);
      KeepsPrefix(s, actions);
      RunNoStale(owner, s, init);
      RunComplete(owner, s, init);
      StepNoStale(owner, Run(s, init), actions[|actions| - 1]);
    }
  }

  // ----- From the start -----

  ghost predicate KeysFind(r: State, s: ServerState, id: Id)
    requires r.InRange() && id in r.byId
  {
    forall k :: r.ClientOf(id).Has(k) ==> id in s.streams && k in s.byKey && s.byKey[k] == s.streams[id]
  }

  lemma HandleKeepsFound(owner: Key -> Id, r: State, s: ServerState, last: Id, id: Id)
    requires r.InRange() && Placed(r.clients, s) && Tracked(r.clients, s) && Owned(owner, r.clients)
    requires last in r.byId && id in r.byId && (id == last || KeysFind(r, s, id))
    ensures KeysFind(r, HandleSdkId(r, s, last), id)
  {
    var t := HandleSdkId(r, s, last);
    forall k | r.ClientOf(id).Has(k)
      ensures id in t.streams && k in t.byKey && t.byKey[k] == t.streams[id]
    {
      if id == last {
        OwnKeys(r, s, last, k);
      } else {
        UntouchedKey(owner, r, s, last, k);
      }
    }
  }

  lemma {:induction false} OpenedKeys(owner: Key -> Id, r: State, order: seq<Id>)
    requires r.InRange() && Elems(order) <= r.byId.Keys && Owned(owner, r.clients)
    ensures NoStaleKey(r.clients, Opened(r, order))
    ensures forall id :: id in order ==> id in r.byId && KeysFind(r, Opened(r, order), id)
  {
    hide HandleSdkId, KeysFind, Tracked, SubsExact, Backed;
    if order != [] {
      var init, last := order[..|order| - 1], order[|order| - 1];
      assert order == init + [last];
      assert last in Elems(order) && Elems(init) <= Elems(order);
      OpenedConsistent(r, init);
      OpenedKeys(owner, r, init);
      var s := Opened(r, init);
      forall k | k in HandleSdkId(r, s, last).byKey
        ensures Backed(r.clients, HandleSdkId(r, s, last), k)
      {
        HandleNoStale(owner, r, s, last, k);
      }
      forall id | id in order
        ensures id in r.byId && KeysFind(r, HandleSdkId(r, s, last), id)
      {
        assert id in Elems(order);
        HandleKeepsFound(owner, r, s, last, id);
      }
    }
  }

  lemma {:induction false} StartKeys(owner: Key -> Id, r: State, pub: PubSub.State<Id, nat>, order: seq<Id>)
    requires r.InRange() && Enumerates(order, r.byId.Keys) && !pub.closed && pub.running && Owned(owner, r.clients)
    ensures var s := Start(r, pub, order);
            Complete(s) && NoStaleKey(s.reg.clients, s.srv)
  {
    hide Opened, NoStaleKey, Tracked, SubsExact;
    OpenedKeys(owner, r, order);
    OpenedConsistent(r, order);
    var s := Start(r, pub, order);
    forall id, k | id in s.srv.streams && !s.Pending(id) && StreamClient(s, id).Has(k)
      ensures Resolves(s, k, id)
    {
      assert id in order;
      assert Agrees(r, s.srv, id) && KeysFind(r, s.srv, id);
    }
  }

  /** From any start and in every interleaving: every nonempty key of an id finds the stream
      of that id, unless a notification about the id is on its way. */
  lemma {:induction false} KeyIndexComplete(
      owner: Key -> Id, r: State, pub: PubSub.State<Id, nat>, order: seq<Id>, actions: seq<Action>)
    requires r.InRange() && Ledger(r) && Enumerates(order, r.byId.Keys) && !pub.closed && pub.running
    requires Owned(owner, r.clients) && OwnedOps(owner, OpsOf(actions)) && EnabledAll(r.Table(), OpsOf(actions))
    ensures var t := Run(Start(r, pub, order), actions);
            forall id, k :: id in t.reg.byId && !t.Pending(id) && t.reg.ClientOf(id).Has(k) ==> Resolves(t, k, id)
  {
    var s := Start(r, pub, order);
    StartConsistent(r, pub, order);
    StartKeys(owner, r, pub, order);
    RunComplete(owner, s, actions);
    var t := Run(s, actions);
    forall id, k | id in t.reg.byId && !t.Pending(id) && t.reg.ClientOf(id).Has(k)
      ensures Resolves(t, k, id)
    {
      assert Agrees(t.reg, t.srv, id);
      assert StreamClient(t, id).Has(k);
    }
  }

  /** When no secondary key was replaced or removed in place, the index is also exact. */
  lemma {:induction false} KeyIndexExact(
      owner: Key -> Id, r: State, pub: PubSub.State<Id, nat>, order: seq<Id>, actions: seq<Action>)
    requires r.InRange() && Ledger(r) && Enumerates(order, r.byId.Keys) && !pub.closed && pub.running
    requires Owned(owner, r.clients) && OwnedOps(owner, OpsOf(actions)) && EnabledAll(r.Table(), OpsOf(actions))
    requires KeepsSecondaries(r.Table(), OpsOf(actions))
    ensures var t := Run(Start(r, pub, order), actions);
            && NoStaleKey(t.reg.clients, t.srv)
            && forall id, k :: !t.Pending(id) ==>
                 (Resolves(t, k, id) <==> id in t.reg.byId && t.reg.ClientOf(id).Has(k))
  {
    var s := Start(r, pub, order);
    StartConsistent(r, pub, order);
    StartKeys(owner, r, pub, order);
    RunComplete(owner, s, actions);
    RunNoStale(owner, s, actions);
    KeyIndexComplete(owner, r, pub, order, actions);
    var t := Run(s, actions);
    forall id, k | !t.Pending(id) && Resolves(t, k, id)
      ensures id in t.reg.byId && t.reg.ClientOf(id).Has(k)
    {
      assert Agrees(t.reg, t.srv, id);
      assert Backed(t.reg.clients, t.srv, k);
    }
  }
}
