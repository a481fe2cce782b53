/** The stream server and the registrar: where they disagree, a notification is on its way. */
module ServerAgreement {
  import opened Common
  import opened ProfileModel
  import opened Registrar
  import opened RegistrarRuns
  import opened RegistrarEffects
  import opened StreamServer
  import PubSub

  /** Every listed stream is open and of its id, every open stream is the listed one of its
      id, and each stream's client was built for that id. */
  ghost predicate Tracked(clients: seq<Client>, s: ServerState)
    requires Placed(clients, s)
  {
    && (forall id :: id in s.streams ==> s.feeds[s.streams[id]].open && s.feeds[s.streams[id]].sdkId == id)
    && (forall i :: 0 <= i < |s.feeds| && s.feeds[i].open ==>
          s.feeds[i].sdkId in s.streams && s.streams[s.feeds[i].sdkId] == i)
    && (forall i :: 0 <= i < |s.feeds| ==> clients[s.feeds[i].client].sdkId == s.feeds[i].sdkId)
  }

  /** At every open publisher exactly the open streams of its client are subscribed. */
  ghost predicate SubsExact(clients: seq<Client>, s: ServerState)
    requires Placed(clients, s)
  {
    && (forall h, i :: (h, i) in s.subs ==> h < |clients| && i < |s.feeds|)
    && (forall h, i :: 0 <= h < |clients| && 0 <= i < |s.feeds| && clients[h].closes == 0 ==>
          ((h, i) in s.subs <==> s.feeds[i].open && s.feeds[i].client == h))
  }

  /** Both have `id`, with the same client, or neither has it. */
  ghost predicate Agrees(r: State, s: ServerState, id: Id)
    requires r.InRange() && Placed(r.clients, s)
  {
    && (id in r.byId <==> id in s.streams)
    && (id in r.byId ==> s.feeds[s.streams[id]].client == r.byId[id])
  }

  ghost predicate Consistent(s: System)
    requires s.Ok()
  {
    && Tracked(s.reg.clients, s.srv) && SubsExact(s.reg.clients, s.srv)
    && forall id :: s.Pending(id) || Agrees(s.reg, s.srv, id)
  }

  // ----- What an update of the registrar changes -----

  /** The ledger only grows, and its clients only get closed. */
  ghost predicate Later(a: seq<Client>, b: seq<Client>) {
    |a| <= |b| && forall h :: 0 <= h < |a| ==>
      b[h].sdkId == a[h].sdkId && b[h].conf == a[h].conf && b[h].closes >= a[h].closes
  }

  lemma {:induction false} OpLater(r: State, op: Op)
    requires r.InRange()
    ensures Later(r.clients, Apply(r, op).clients)
  {
    hide DropKeys;
  }

  /** An update either announces its id, or leaves every client and registration as it is. */
  lemma OpAnnounces(r: State, op: Op)
    requires r.InRange() && Enabled(r.Table(), op)
    ensures var t := Apply(r, op);
            || (t.published == r.published && t.byId == r.byId && t.clients == r.clients)
            || (!op.SetOptions? && t.published == r.published + [op.id])
  {
  }

  lemma LaterTracked(a: seq<Client>, b: seq<Client>, s: ServerState)
    requires Placed(a, s) && Later(a, b) && Tracked(a, s)
    ensures Placed(b, s) && Tracked(b, s)
  {
  }

  lemma LaterSubs(a: seq<Client>, b: seq<Client>, s: ServerState)
    requires Placed(a, s) && Later(a, b) && SubsExact(a, s)
    ensures Placed(b, s) && SubsExact(b, s)
  {
  }

  // ----- Handling one notification -----

  lemma HandleAgrees(r: State, s: ServerState, id: Id, x: Id)
    requires r.InRange() && Placed(r.clients, s) && Tracked(r.clients, s)
    ensures var t := HandleSdkId(r, s, id);
            if x == id then Agrees(r, t, x) else Agrees(r, t, x) <==> Agrees(r, s, x)
  {
    if id in s.streams && x != id && x in s.streams {
      assert s.feeds[s.streams[x]].sdkId == x;
    }
  }

  lemma {:induction false} HandleTracked(r: State, s: ServerState, id: Id)
    requires r.InRange() && Placed(r.clients, s) && Tracked(r.clients, s)
    ensures Tracked(r.clients, HandleSdkId(r, s, id))
  {
    hide DropKeys, StoreKeys;
    var t := HandleSdkId(r, s, id);
    forall x | x in t.streams
      ensures t.feeds[t.streams[x]].open && t.feeds[t.streams[x]].sdkId == x
    {
      if x in s.streams {
        assert s.feeds[s.streams[x]].sdkId == x;
      }
    }
  }

  /** Resetting a stream, also to the client it has, leaves it subscribed where it belongs. */
  lemma ResetSubs(clients: seq<Client>, s: ServerState, i: nat, h: nat)
    requires Placed(clients, s) && SubsExact(clients, s) && i < |s.feeds| && h < |clients|
    ensures SubsExact(clients, ResetSdk(clients, s, i, h))
  {
  }

  lemma OpenSubs(clients: seq<Client>, s: ServerState, id: Id, h: nat)
    requires Placed(clients, s) && SubsExact(clients, s) && h < |clients|
    ensures SubsExact(clients, NewStream(clients, s, id, h))
  {
  }

  lemma CloseSubs(clients: seq<Client>, s: ServerState, i: nat)
    requires Placed(clients, s) && SubsExact(clients, s) && i < |s.feeds| && s.feeds[i].open
    ensures SubsExact(clients, CloseStream(clients, s, i))
  {
  }

  lemma HandleSubs(r: State, s: ServerState, id: Id)
    requires r.InRange() && Placed(r.clients, s) && Tracked(r.clients, s) && SubsExact(r.clients, s)
    ensures SubsExact(r.clients, HandleSdkId(r, s, id))
  {
    if id in s.streams {
      var i := s.streams[id];
      var t := s.(byKey := DropKeys(s.byKey, r.clients[s.feeds[i].client]));
      assert SubsExact(r.clients, t);
      if id in r.byId {
        ResetSubs(r.clients, t, i, r.byId[id]);
      } else {
        CloseSubs(r.clients, t, i);
      }
    } else if id in r.byId {
      OpenSubs(r.clients, s, id, r.byId[id]);
    }
  }

  // ----- What is on its way -----

  lemma UpdatePends(s: System, op: Op, x: Id)
    requires s.Ok() && Enabled(s.reg.Table(), op)
    ensures s.Pending(x) ==> Act(s, Update(op)).Pending(x)
    ensures Apply(s.reg, op).published != s.reg.published && x == op.id ==> Act(s, Update(op)).Pending(x)
  {
    OpAnnounces(s.reg, op);
  }

  lemma DeliverPends(s: System, x: Id)
    requires s.Ok()
    ensures Act(s, Deliver).Pending(x) <==> s.Pending(x)
  {
    if s.pub.queue != [] {
      var t := Act(s, Deliver);
      assert t.Inbox() == s.Inbox() + [s.pub.queue[0]];
      assert s.pub.queue == [s.pub.queue[0]] + t.pub.queue;
      assert t.Inbox()[|s.Inbox()|] == s.pub.queue[0];
      if n :| s.handled <= n < |s.Inbox()| && s.Inbox()[n] == x {
        assert t.Inbox()[n] == x;
      }
    }
  }

  lemma HandlePends(s: System, x: Id)
    requires s.Ok() && s.Pending(x) && s.handled < |s.Inbox()| && s.Inbox()[s.handled] != x
    ensures Act(s, Handle).Pending(x)
  {
  }

  lemma OthersPend(s: System, a: Action, x: Id)
    requires s.Ok() && (a.Join? || a.Leave?)
    ensures Act(s, a).Pending(x) <==> s.Pending(x)
  {
  }

  // ----- Every step -----

  ghost predicate Allowed(s: System, a: Action)
    requires s.Ok()
  {
    a.Update? ==> Enabled(s.reg.Table(), a.op)
  }

  lemma StepAgrees(s: System, a: Action, x: Id)
    requires s.Ok() && Consistent(s) && Allowed(s, a)
    ensures Act(s, a).Pending(x) || Agrees(Act(s, a).reg, Act(s, a).srv, x)
  {
    assert s.Pending(x) || Agrees(s.reg, s.srv, x);
    match a
    case Update(op) =>
      UpdatePends(s, op, x);
      OpAnnounces(s.reg, op);
      if op.SetOptions? || op.id != x {
        NoEffect(s.reg, op, x);
      }
    case Deliver => DeliverPends(s, x);
    case Handle =>
      if s.handled < |s.Inbox()| {
        var id := s.Inbox()[s.handled];
        HandleAgrees(s.reg, s.srv, id, x);
        if x != id && s.Pending(x) {
          HandlePends(s, x);
        }
      }
    case Join(_) => OthersPend(s, a, x);
    case Leave(_) => OthersPend(s, a, x);
  }

  lemma StepConsistent(s: System, a: Action)
    requires s.Ok() && Consistent(s) && Allowed(s, a)
    ensures Consistent(Act(s, a))
  {
    match a {
      case Update(op) =>
        OpLater(s.reg, op);
        LaterTracked(s.reg.clients, Apply(s.reg, op).clients, s.srv);
        LaterSubs(s.reg.clients, Apply(s.reg, op).clients, s.srv);
      case Handle =>
        if s.handled < |s.Inbox()| {
          HandleTracked(s.reg, s.srv, s.Inbox()[s.handled]);
          HandleSubs(s.reg, s.srv, s.Inbox()[s.handled]);
        }
      case _ =>
    }
    forall x
      ensures Act(s, a).Pending(x) || Agrees(Act(s, a).reg, Act(s, a).srv, x)
    {
      StepAgrees(s, a, x);
    }
  }

  lemma {:induction false} RunIsApply(s: System, actions: seq<Action>)
    requires s.Ok()
    ensures Run(s, actions).reg == ApplyAll(s.reg, OpsOf(actions))
  {
    if actions != [] {
      var init, a := actions[..|actions| - 1], actions[|actions| - 1];
      RunIsApply(s, init);
      if a.Update? {
        assert (OpsOf(init) + [a.op])[..|OpsOf(init)|] == OpsOf(init);
      } else {
        assert OpsOf(actions) == OpsOf(init);
      }
    }
  }

  lemma {:induction false} EnabledPrefix(s: System, actions: seq<Action>)
    requires s.Ok() && Ledger(s.reg) && actions != [] && EnabledAll(s.reg.Table(), OpsOf(actions))
    ensures var init := actions[..|actions| - 1];
            && EnabledAll(s.reg.Table(), OpsOf(init))
            && Allowed(Run(s, init), actions[|actions| - 1])
  {
    var init, a := actions[..|actions| - 1], actions[|actions| - 1];
    RunIsApply(s, init);
    if a.Update? {
      assert (OpsOf(init) + [a.op])[..|OpsOf(init)|] == OpsOf(init);
      RunTable(s.reg, OpsOf(init));
    } else {
      assert OpsOf(actions) == OpsOf(init);
    }
  }

  lemma {:induction false} RunConsistent(s: System, actions: seq<Action>)
    requires s.Ok() && Consistent(s) && Ledger(s.reg) && EnabledAll(s.reg.Table(), OpsOf(actions))
    ensures Consistent(Run(s, actions))
  {
    if actions != [] {
      EnabledPrefix(s, actions);
      RunConsistent(s, actions[..|actions| - 1]);
      StepConsistent(Run(s, actions[..|actions| - 1]), actions[|actions| - 1]);
    }
  }

  // ----- Closed publishers -----

  lemma HandleAtClosed(r: State, s: ServerState, id: Id, h: nat)
    requires r.InRange() && Placed(r.clients, s) && h < |r.clients| && r.clients[h].closes > 0
    ensures forall i :: (h, i) in HandleSdkId(r, s, id).subs <==> (h, i) in s.subs
  {
    hide DropKeys, StoreKeys;
  }

  /** The subscriptions at a client stay as they were when the client was closed. */
  lemma {:induction false} ClosedSubsStay(s: System, actions: seq<Action>, h: nat)
    requires s.Ok() && h < |s.reg.clients| && s.reg.clients[h].closes > 0
    ensures var t := Run(s, actions);
            && h < |t.reg.clients| && t.reg.clients[h].closes > 0
            && forall i :: (h, i) in t.srv.subs <==> (h, i) in s.srv.subs
  {
    if actions != [] {
      var init, a := actions[..|actions| - 1], actions[|actions| - 1];
      ClosedSubsStay(s, init, h);
      var m := Run(s, init);
      if a.Update? {
        OpLater(m.reg, a.op);
      } else if a.Handle? && m.handled < |m.Inbox()| {
        HandleAtClosed(m.reg, m.srv, m.Inbox()[m.handled], h);
      }
    }
  }

  // ----- From the start -----

  lemma {:induction false} OpenedConsistent(r: State, order: seq<Id>)
    requires r.InRange() && Elems(order) <= r.byId.Keys
    ensures var s := Opened(r, order);
            Tracked(r.clients, s) && SubsExact(r.clients, s) && forall id :: id in order ==> Agrees(r, s, id)
    ensures Opened(r, order).streams.Keys == Elems(order)
  {
    if order != [] {
      var init, last := order[..|order| - 1], order[|order| - 1];
      assert order == init + [last];
      assert last in Elems(order) && Elems(init) <= Elems(order);
      OpenedConsistent(r, init);
      var s := Opened(r, init);
      HandleTracked(r, s, last);
      HandleSubs(r, s, last);
      forall id | id in order
        ensures Agrees(r, Opened(r, order), id)
      {
        HandleAgrees(r, s, last, id);
      }
      assert Elems(order) == Elems(init) + {last};
    }
  }

  lemma StartConsistent(r: State, pub: PubSub.State<Id, nat>, order: seq<Id>)
    requires r.InRange() && Enumerates(order, r.byId.Keys) && !pub.closed && pub.running
    ensures Consistent(Start(r, pub, order))
  {
    OpenedConsistent(r, order);
    forall id
      ensures Agrees(r, Opened(r, order), id)
    {
      assert id in order <==> id in Elems(order);
    }
  }

  /** From any start, in every interleaving of registrar updates, publisher deliveries and
      server turns: each id is either on its way to the server, or server and registrar agree
      on it; each open stream is subscribed at its client's publisher and at no other open
      one, and a closed stream at none. So once nothing is on its way they agree on all ids. */
  lemma DisagreementIsPending(r: State, pub: PubSub.State<Id, nat>, order: seq<Id>, actions: seq<Action>)
    requires r.InRange() && Ledger(r) && Enumerates(order, r.byId.Keys) && !pub.closed && pub.running
    requires EnabledAll(r.Table(), OpsOf(actions))
    ensures var t := Run(Start(r, pub, order), actions);
            && t.reg == ApplyAll(r, OpsOf(actions))
            && (forall id :: t.Pending(id) || Agrees(t.reg, t.srv, id))
            && (t.Quiet() ==> forall id :: Agrees(t.reg, t.srv, id))
            && SubsExact(t.reg.clients, t.srv)
  {
    StartConsistent(r, pub, order);
    RunConsistent(Start(r, pub, order), actions);
    RunIsApply(Start(r, pub, order), actions);
  }
}
