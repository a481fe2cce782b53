/** The automatic SDK registrar on values. Clients are named by their position in `clients`,
    the ledger of every client ever built, so object identity is equality of positions. */
module Registrar {
  import opened Common
  import opened ProfileModel

  datatype Client = Client(sdkId: Id, conf: SdkConfig, key2: Option<Key>, closes: nat) {
    /** The secondary key; a missing one and an empty one are the same to every reader. */
    function Secondary(): Key {
      key2.GetOr("")
    }

    function Sdk(): SdkModel {
      SdkModel(conf.key, Secondary())
    }

    predicate Has(k: Key) {
      Sdk().Has(k)
    }
  }

  datatype State = State(
    conf: ProxyConf,
    options: Options,
    clients: seq<Client>,
    byId: map<Id, nat>,
    byKey: map<Key, nat>,
    published: seq<Id>,
    calls: seq<ReporterCall>)
  {
    /** Every registered id points into the ledger, at a client of that id. */
    ghost predicate InRange() {
      forall id :: id in byId ==> byId[id] < |clients| && clients[byId[id]].sdkId == id
    }

    function ClientOf(id: Id): Client
      requires InRange() && id in byId
    {
      clients[byId[id]]
    }

    /** What the registrar currently serves: the keys of each registered id. */
    function Table(): map<Id, SdkModel>
      requires InRange()
    {
      map id | id in byId :: ClientOf(id).Sdk()
    }
  }

  /** One update of one SDK, or the change of the global options. */
  datatype Op =
    | Delete(id: Id)
    | Touch(id: Id, sdk: SdkModel)
    | Reset(id: Id, sdk: SdkModel)
    | Add(id: Id, sdk: SdkModel)
    | SetOptions(options: Options)

  function Build(s: State, id: Id, sdk: SdkModel): Client {
    Client(id, BuildSdkConfig(s.conf, s.options, id, sdk.key1),
           if |sdk.key2| > 0 then Some(sdk.key2) else None, 0)
  }

  function StoreKeys(index: map<Key, nat>, sdk: SdkModel, h: nat): map<Key, nat> {
    var m := if sdk.key1 != "" then index[sdk.key1 := h] else index;
    if sdk.key2 != "" then m[sdk.key2 := h] else m
  }

  /** Drops the nonempty keys of `c`; an entry of the empty key stays. */
  function DropKeys(index: map<Key, nat>, c: Client): map<Key, nat> {
    index - ({c.conf.key, c.Secondary()} - {""})
  }

  function Closed(c: Client): Client {
    c.(closes := c.closes + 1)
  }

  function DeleteOne(s: State, id: Id): (r: State)
    requires s.InRange()
    ensures r.InRange()
  {
    if id !in s.byId then s
    else
      var h := s.byId[id];
      s.(byId := s.byId - {id},
         byKey := DropKeys(s.byKey, s.clients[h]),
         clients := s.clients[h := Closed(s.clients[h])],
         calls := s.calls + [RemoveSdk(id)],
         published := s.published + [id])
  }

  /** The secondary key of a client whose primary key did not change. */
  function TouchOne(s: State, id: Id, sdk: SdkModel): (r: State)
    requires s.InRange()
    ensures r.InRange()
  {
    if id !in s.byId then s
    else
      var h := s.byId[id];
      var c := s.clients[h];
      if c.key2.None? && sdk.key2 != "" then
        s.(clients := s.clients[h := c.(key2 := Some(sdk.key2))],
           byKey := s.byKey[sdk.key2 := h],
           published := s.published + [id])
      else if c.key2.Some? && c.key2.value != sdk.key2 then
        s.(clients := s.clients[h := c.(key2 := Some(sdk.key2))],
           byKey := (s.byKey - {c.key2.value})[sdk.key2 := h],
           published := s.published + [id])
      else s
  }

  function ResetOne(s: State, id: Id, sdk: SdkModel): (r: State)
    requires s.InRange()
    ensures r.InRange()
  {
    var n := |s.clients|;
    var c := Build(s, id, sdk);
    if id in s.byId then
      var h := s.byId[id];
      s.(byId := s.byId[id := n],
         byKey := StoreKeys(DropKeys(s.byKey, s.clients[h]), sdk, n),
         clients := s.clients[h := Closed(s.clients[h])] + [c],
         calls := s.calls + [UpdateSdk(id, c.conf)],
         published := s.published + [id])
    else
      s.(byId := s.byId[id := n], byKey := StoreKeys(s.byKey, sdk, n), clients := s.clients + [c])
  }

  function AddOne(s: State, id: Id, sdk: SdkModel): (r: State)
    requires s.InRange()
    ensures r.InRange()
  {
    if id in s.byId then s
    else
      var n := |s.clients|;
      var c := Build(s, id, sdk);
      s.(byId := s.byId[id := n],
         byKey := StoreKeys(s.byKey, sdk, n),
         clients := s.clients + [c],
         calls := s.calls + [RegisterSdk(id, c.conf)],
         published := s.published + [id])
  }

  function Apply(s: State, op: Op): (r: State)
    requires s.InRange()
    ensures r.InRange()
  {
    match op
    case Delete(id) => DeleteOne(s, id)
    case Touch(id, sdk) => TouchOne(s, id, sdk)
    case Reset(id, sdk) => ResetOne(s, id, sdk)
    case Add(id, sdk) => AddOne(s, id, sdk)
    case SetOptions(options) => s.(options := options)
  }

  function ApplyAll(s: State, ops: seq<Op>): (r: State)
    requires s.InRange()
    ensures r.InRange()
  {
    if ops == [] then s else Apply(ApplyAll(s, ops[..|ops| - 1]), ops[|ops| - 1])
  }

  // ----- The plan of one refresh -----

  function Deletes(ids: seq<Id>): seq<Op> {
    seq(|ids|, i requires 0 <= i < |ids| => Delete(ids[i]))
  }

  function Touches(ids: seq<Id>, sdks: map<Id, SdkModel>): seq<Op>
    requires Elems(ids) <= sdks.Keys
  {
    seq(|ids|, i requires 0 <= i < |ids| => assert ids[i] in Elems(ids); Touch(ids[i], sdks[ids[i]]))
  }

  function Resets(ids: seq<Id>, sdks: map<Id, SdkModel>): seq<Op>
    requires Elems(ids) <= sdks.Keys
  {
    seq(|ids|, i requires 0 <= i < |ids| => assert ids[i] in Elems(ids); Reset(ids[i], sdks[ids[i]]))
  }

  function Adds(ids: seq<Id>, sdks: map<Id, SdkModel>): seq<Op>
    requires Elems(ids) <= sdks.Keys
  {
    seq(|ids|, i requires 0 <= i < |ids| => assert ids[i] in Elems(ids); Add(ids[i], sdks[ids[i]]))
  }

  /** The ids of `ids` whose primary key differs (`changed`) or agrees between the two tables. */
  function ByPrimary(ids: seq<Id>, served: map<Id, SdkModel>, sdks: map<Id, SdkModel>, changed: bool): seq<Id> {
    if ids == [] then []
    else
      var init, id := ids[..|ids| - 1], ids[|ids| - 1];
      var r := ByPrimary(init, served, sdks, changed);
      if id in served && id in sdks && (served[id].key1 != sdks[id].key1) == changed then r + [id] else r
  }

  lemma {:induction false} ByPrimaryElems(
      ids: seq<Id>, served: map<Id, SdkModel>, sdks: map<Id, SdkModel>, changed: bool)
    ensures var r := ByPrimary(ids, served, sdks, changed);
            && (forall id :: id in r <==>
                  id in ids && id in served && id in sdks && (served[id].key1 != sdks[id].key1) == changed)
            && (NoDup(ids) ==> NoDup(r))
  {
    if ids != [] {
      var init, last := ids[..|ids| - 1], ids[|ids| - 1];
      ByPrimaryElems(init, served, sdks, changed);
      assert ids == init + [last];
      if NoDup(ids) {
        assert last !in init;
      }
    }
  }

  /** The order in which the surviving ids are updated. */
  function UpdateOrder(s: State, p: Profile, remaining: seq<Id>): seq<Id>
    requires s.InRange()
  {
    if s.options != p.options then remaining
    else ByPrimary(remaining, s.Table(), p.sdks, false) + ByPrimary(remaining, s.Table(), p.sdks, true)
  }

  /** The updates of the surviving ids: changed options rebuild all of them; otherwise those
      with an unchanged primary key are updated in place and the others are rebuilt after. */
  function Updates(s: State, p: Profile, remaining: seq<Id>): seq<Op>
    requires s.InRange() && Elems(remaining) <= p.sdks.Keys
  {
    if s.options != p.options then Resets(remaining, p.sdks)
    else
      ByPrimaryElems(remaining, s.Table(), p.sdks, false);
      ByPrimaryElems(remaining, s.Table(), p.sdks, true);
      Touches(ByPrimary(remaining, s.Table(), p.sdks, false), p.sdks)
      + Resets(ByPrimary(remaining, s.Table(), p.sdks, true), p.sdks)
  }

  function NewOptions(s: State, p: Profile): seq<Op> {
    if s.options != p.options then [SetOptions(p.options)] else []
  }

  /** The ids that stay, in the order of the profile's listing. */
  function Remaining(existing: seq<Id>, remote: seq<Id>): seq<Id> {
    Except(remote, Except(remote, existing))
  }

  /** All updates of one refresh, when the live ids were listed as `existing` and the
      profile's ids as `remote`. */
  function Plan(s: State, p: Profile, existing: seq<Id>, remote: seq<Id>): seq<Op>
    requires s.InRange()
    requires Enumerates(existing, s.byId.Keys) && Enumerates(remote, p.sdks.Keys)
  {
    ExceptElems(remote, existing);
    ExceptElems(remote, Except(remote, existing));
    Deletes(Except(existing, remote))
    + NewOptions(s, p)
    + Updates(s, p, Remaining(existing, remote))
    + Adds(Except(remote, existing), p.sdks)
  }

  function Refresh(s: State, p: Profile, existing: seq<Id>, remote: seq<Id>): (r: State)
    requires s.InRange()
    requires Enumerates(existing, s.byId.Keys) && Enumerates(remote, p.sdks.Keys)
    ensures r.InRange()
  {
    ApplyAll(s, Plan(s, p, existing, remote))
  }

  // ----- Construction from a profile alone -----

  function Empty(conf: ProxyConf, options: Options): State {
    State(conf, options, [], map[], map[], [], [])
  }

  /** The constructor's loop adds every SDK of the profile and publishes nothing. */
  function Construct(conf: ProxyConf, p: Profile, order: seq<Id>): (r: State)
    requires Enumerates(order, p.sdks.Keys)
    ensures r.InRange()
  {
    ApplyAll(Empty(conf, p.options), Adds(order, p.sdks)).(published := [])
  }
}
