/** The stream server on values: it keeps one stream per SDK, follows the registrar's
    notifications, and indexes its streams by SDK key. */
module StreamServer {
  import opened Common
  import opened ProfileModel
  import opened Registrar
  import PubSub

  /** A stream as the server sees it; `client` is a place in the registrar's ledger. */
  datatype Feed = Feed(sdkId: Id, client: nat, open: bool)

  /** `subs` pairs each client's publisher with the streams subscribed to it. */
  datatype ServerState = ServerState(
    feeds: seq<Feed>, streams: map<Id, nat>, byKey: map<Key, nat>, subs: set<(nat, nat)>)

  ghost predicate Placed(clients: seq<Client>, s: ServerState) {
    && (forall id :: id in s.streams ==> s.streams[id] < |s.feeds|)
    && (forall i :: 0 <= i < |s.feeds| ==> s.feeds[i].client < |clients|)
  }

  /** A closed publisher ignores both commands. */
  function Subscribe(clients: seq<Client>, subs: set<(nat, nat)>, h: nat, i: nat): set<(nat, nat)>
    requires h < |clients|
  {
    if clients[h].closes > 0 then subs else subs + {(h, i)}
  }

  function Unsubscribe(clients: seq<Client>, subs: set<(nat, nat)>, h: nat, i: nat): set<(nat, nat)>
    requires h < |clients|
  {
    if clients[h].closes > 0 then subs else subs - {(h, i)}
  }

  /** Swaps the client of a stream, unless the stream is closed. */
  function ResetSdk(clients: seq<Client>, s: ServerState, i: nat, h: nat): ServerState
    requires Placed(clients, s) && i < |s.feeds| && h < |clients|
  {
    if !s.feeds[i].open then s
    else
      s.(feeds := s.feeds[i := s.feeds[i].(client := h)],
         subs := Subscribe(clients, Unsubscribe(clients, s.subs, s.feeds[i].client, i), h, i))
  }

  function NewStream(clients: seq<Client>, s: ServerState, id: Id, h: nat): ServerState
    requires h < |clients|
  {
    var i := |s.feeds|;
    s.(feeds := s.feeds + [Feed(id, h, true)], streams := s.streams[id := i], subs := Subscribe(clients, s.subs, h, i))
  }

  function CloseStream(clients: seq<Client>, s: ServerState, i: nat): ServerState
    requires Placed(clients, s) && i < |s.feeds|
  {
    s.(feeds := s.feeds[i := s.feeds[i].(open := false)],
       subs := Unsubscribe(clients, s.subs, s.feeds[i].client, i))
  }

  /** The reaction to a changed id looks only at what the registrar has now. The keys removed
      from the index are the current ones of the client that the stream holds. */
  function HandleSdkId(r: State, s: ServerState, id: Id): (t: ServerState)
    requires r.InRange() && Placed(r.clients, s)
    ensures Placed(r.clients, t)
  {
    if id in r.byId then
      var h := r.byId[id];
      if id in s.streams then
        var i := s.streams[id];
        var t := s.(byKey := DropKeys(s.byKey, r.clients[s.feeds[i].client]));
        ResetSdk(r.clients, t, i, h).(byKey := StoreKeys(t.byKey, r.clients[h].Sdk(), i))
      else
        NewStream(r.clients, s, id, h).(byKey := StoreKeys(s.byKey, r.clients[h].Sdk(), |s.feeds|))
    else if id in s.streams then
      var i := s.streams[id];
      var t := s.(byKey := DropKeys(s.byKey, r.clients[s.feeds[i].client]));
      CloseStream(r.clients, t, i).(streams := s.streams - {id})
    else s
  }

  // ----- The server, the registrar and the publisher between them -----

  /** The server's own channel at the registrar's publisher. */
  const SERVER: nat := 0

  /** `handled` counts the ids the server has taken from its channel. */
  datatype System = System(reg: State, pub: PubSub.State<Id, nat>, srv: ServerState, handled: nat) {
    function Inbox(): seq<Id> {
      PubSub.Received(pub.inbox, SERVER)
    }

    /** A notification about `id` is on its way to the server. */
    ghost predicate Pending(id: Id) {
      id in pub.queue || exists n :: handled <= n < |Inbox()| && Inbox()[n] == id
    }

    ghost predicate Quiet() {
      pub.queue == [] && handled == |Inbox()|
    }

    ghost predicate Ok() {
      && reg.InRange() && Placed(reg.clients, srv) && handled <= |Inbox()|
      && SERVER in pub.subs && !pub.closed && pub.running
    }
  }

  /** One atomic step: an update of the registrar with its notification, a turn of the
      publisher's loop, a turn of the server's loop, or another subscriber coming or going. */
  datatype Action =
    | Update(op: Op)
    | Deliver
    | Handle
    | Join(ch: nat)
    | Leave(ch: nat)

  function Announce(pub: PubSub.State<Id, nat>, before: seq<Id>, after: seq<Id>): PubSub.State<Id, nat> {
    if |after| > |before| then PubSub.Step(pub, PubSub.Publish(after[|after| - 1])) else pub
  }

  function Act(s: System, a: Action): (t: System)
    requires s.Ok()
    ensures t.Ok()
  {
    match a
    case Update(op) =>
      var r := Apply(s.reg, op);
      s.(reg := r, pub := Announce(s.pub, s.reg.published, r.published))
    case Deliver => s.(pub := PubSub.Step(s.pub, PubSub.Dequeue))
    case Handle =>
      if s.handled < |s.Inbox()| then
        s.(srv := HandleSdkId(s.reg, s.srv, s.Inbox()[s.handled]), handled := s.handled + 1)
      else s
    case Join(ch) => if ch != SERVER then s.(pub := PubSub.Step(s.pub, PubSub.Subscribe(ch))) else s
    case Leave(ch) => if ch != SERVER then s.(pub := PubSub.Step(s.pub, PubSub.Unsubscribe(ch))) else s
  }

  function Run(s: System, actions: seq<Action>): (t: System)
    requires s.Ok()
    ensures t.Ok()
  {
    if actions == [] then s else Act(Run(s, actions[..|actions| - 1]), actions[|actions| - 1])
  }

  /** The registrar's share of a run. */
  function OpsOf(actions: seq<Action>): seq<Op> {
    if actions == [] then []
    else
      var a := actions[|actions| - 1];
      OpsOf(actions[..|actions| - 1]) + if a.Update? then [a.op] else []
  }

  /** The server at its start opens a stream for each id, in any order. */
  function Opened(r: State, order: seq<Id>): (s: ServerState)
    requires r.InRange() && Elems(order) <= r.byId.Keys
    ensures Placed(r.clients, s)
  {
    if order == [] then ServerState([], map[], map[], {})
    else
      var id := order[|order| - 1];
      assert id in Elems(order);
      assert Elems(order[..|order| - 1]) <= Elems(order);
      HandleSdkId(r, Opened(r, order[..|order| - 1]), id)
  }

  function Start(r: State, pub: PubSub.State<Id, nat>, order: seq<Id>): (s: System)
    requires r.InRange() && Enumerates(order, r.byId.Keys) && !pub.closed && pub.running
    ensures s.Ok()
  {
    System(r, PubSub.Step(pub, PubSub.Subscribe(SERVER)), Opened(r, order), |PubSub.Received(pub.inbox, SERVER)|)
  }
}
