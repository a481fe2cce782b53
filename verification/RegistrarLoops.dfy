/** The refresh in the steps of the loops that carry it out. */
module RegistrarLoops {
  import opened Common
  import opened ProfileModel
  import opened Registrar
  import opened RegistrarRuns
  import opened Reconcile

  // ----- One update, spelled out -----

  lemma DeleteOneIs(s: State, id: Id, h: nat, c: Client)
    requires s.InRange() && id in s.byId && s.byId[id] == h && s.clients[h] == c
    ensures DeleteOne(s, id) ==
            State(s.conf, s.options, s.clients[h := Closed(c)], s.byId - {id}, DropKeys(s.byKey, c),
                  s.published + [id], s.calls + [RemoveSdk(id)])
  {
  }

  lemma TouchOneIs(s: State, id: Id, sdk: SdkModel, h: nat, c: Client)
    requires s.InRange() && id in s.byId && s.byId[id] == h && s.clients[h] == c
    ensures TouchOne(s, id, sdk) ==
            if c.key2.None? && sdk.key2 != "" then
              State(s.conf, s.options, s.clients[h := c.(key2 := Some(sdk.key2))], s.byId, s.byKey[sdk.key2 := h],
                    s.published + [id], s.calls)
            else if c.key2.Some? && c.key2.value != sdk.key2 then
              State(s.conf, s.options, s.clients[h := c.(key2 := Some(sdk.key2))], s.byId,
                    (s.byKey - {c.key2.value})[sdk.key2 := h], s.published + [id], s.calls)
            else s
  {
  }

  lemma AddOneIs(s: State, id: Id, sdk: SdkModel)
    requires s.InRange() && id !in s.byId
    ensures var n, c := |s.clients|, Build(s, id, sdk);
            AddOne(s, id, sdk) ==
            State(s.conf, s.options, s.clients + [c], s.byId[id := n], StoreKeys(s.byKey, sdk, n),
                  s.published + [id], s.calls + [RegisterSdk(id, c.conf)])
  {
  }

  lemma ResetOneIs(s: State, id: Id, sdk: SdkModel)
    requires s.InRange()
    ensures var n, c := |s.clients|, Build(s, id, sdk);
            ResetOne(s, id, sdk) ==
            if id in s.byId then
              State(s.conf, s.options, s.clients[s.byId[id] := Closed(s.ClientOf(id))] + [c], s.byId[id := n],
                    StoreKeys(DropKeys(s.byKey, s.ClientOf(id)), sdk, n),
                    s.published + [id], s.calls + [UpdateSdk(id, c.conf)])
            else
              State(s.conf, s.options, s.clients + [c], s.byId[id := n], StoreKeys(s.byKey, sdk, n),
                    s.published, s.calls)
  {
  }

  // ----- One more round of a loop -----

  lemma {:induction false} DeletesSnoc(s: State, ids: seq<Id>, i: nat)
    requires s.InRange() && i < |ids|
    ensures ApplyAll(s, Deletes(ids[..i + 1])) == DeleteOne(ApplyAll(s, Deletes(ids[..i])), ids[i])
  {
    assert Deletes(ids[..i + 1])[..i] == Deletes(ids[..i]);
  }

  /** The ids that the profile has. */
  function Present(ids: seq<Id>, sdks: map<Id, SdkModel>): (r: seq<Id>)
    ensures Elems(r) <= sdks.Keys
    ensures Elems(ids) <= sdks.Keys ==> r == ids
  {
    if ids == [] then []
    else
      var init, last := ids[..|ids| - 1], ids[|ids| - 1];
      Snoc(ids);
      var r := Present(init, sdks);
      assert Elems(r + [last]) == Elems(r) + {last};
      if last in sdks then r + [last] else r
  }

  lemma PresentSnoc(ids: seq<Id>, sdks: map<Id, SdkModel>, i: nat)
    requires i < |ids|
    ensures Present(ids[..i + 1], sdks) ==
            if ids[i] in sdks then Present(ids[..i], sdks) + [ids[i]] else Present(ids[..i], sdks)
  {
    assert ids[..i + 1][..i] == ids[..i];
  }

  lemma AddsOfMore(ids: seq<Id>, sdks: map<Id, SdkModel>, i: nat)
    requires i < |ids|
    ensures Adds(Present(ids[..i + 1], sdks), sdks) ==
            Adds(Present(ids[..i], sdks), sdks) + if ids[i] in sdks then [Add(ids[i], sdks[ids[i]])] else []
  {
    PresentSnoc(ids, sdks, i);
  }

  lemma {:induction false} AddsSnoc(s: State, ids: seq<Id>, sdks: map<Id, SdkModel>, i: nat)
    requires s.InRange() && i < |ids|
    ensures var before := ApplyAll(s, Adds(Present(ids[..i], sdks), sdks));
            ApplyAll(s, Adds(Present(ids[..i + 1], sdks), sdks)) ==
            if ids[i] in sdks then AddOne(before, ids[i], sdks[ids[i]]) else before
  {
    AddsOfMore(ids, sdks, i);
    var ops := Adds(Present(ids[..i], sdks), sdks);
    assert ops + [] == ops;
    if ids[i] in sdks {
      ApplySnoc(s, ops, Add(ids[i], sdks[ids[i]]));
    }
  }

  lemma ApplySnoc(s: State, ops: seq<Op>, op: Op)
    requires s.InRange()
    ensures ApplyAll(s, ops + [op]) == Apply(ApplyAll(s, ops), op)
  {
  }

  /** The first clients are added without announcements. */
  ghost function Initial(s: State, ids: seq<Id>, sdks: map<Id, SdkModel>): (r: State)
    requires s.InRange() && Elems(ids) <= sdks.Keys
    ensures r.InRange()
  {
    ApplyAll(s, Adds(ids, sdks)).(published := [])
  }

  lemma InitialSnoc(s: State, ids: seq<Id>, sdks: map<Id, SdkModel>, i: nat)
    requires s.InRange() && i < |ids| && Elems(ids) <= sdks.Keys
    ensures Elems(ids[..i]) <= sdks.Keys && Elems(ids[..i + 1]) <= sdks.Keys && ids[i] in sdks
    ensures Initial(s, ids[..i + 1], sdks) == AddOne(Initial(s, ids[..i], sdks), ids[i], sdks[ids[i]]).(published := [])
  {
    assert ids[i] in Elems(ids);
    var ops, before := Adds(ids[..i + 1], sdks), ApplyAll(s, Adds(ids[..i], sdks));
    assert ops[..|ops| - 1] == Adds(ids[..i], sdks);
    if ids[i] !in before.byId {
      AddOneIs(before, ids[i], sdks[ids[i]]);
      AddOneIs(before.(published := []), ids[i], sdks[ids[i]]);
    }
  }

  lemma {:induction false} ResetsSnoc(s: State, ids: seq<Id>, sdks: map<Id, SdkModel>, i: nat)
    requires s.InRange() && i < |ids|
    ensures var before := ApplyAll(s, Resets(Present(ids[..i], sdks), sdks));
            ApplyAll(s, Resets(Present(ids[..i + 1], sdks), sdks)) ==
            if ids[i] in sdks then ResetOne(before, ids[i], sdks[ids[i]]) else before
  {
    PresentSnoc(ids, sdks, i);
    var r := Present(ids[..i], sdks);
    if ids[i] in sdks {
      var ops := Resets(Present(ids[..i + 1], sdks), sdks);
      assert ops[..|ops| - 1] == Resets(r, sdks);
    }
  }

  ghost function TouchesOf(ids: seq<Id>, served: map<Id, SdkModel>, sdks: map<Id, SdkModel>): seq<Op> {
    ByPrimaryElems(ids, served, sdks, false);
    Touches(ByPrimary(ids, served, sdks, false), sdks)
  }

  lemma {:induction false} TouchesSnoc(
      s: State, ids: seq<Id>, served: map<Id, SdkModel>, sdks: map<Id, SdkModel>, i: nat)
    requires s.InRange() && i < |ids|
    ensures var before := ApplyAll(s, TouchesOf(ids[..i], served, sdks));
            ApplyAll(s, TouchesOf(ids[..i + 1], served, sdks)) ==
            if ids[i] in served && ids[i] in sdks && served[ids[i]].key1 == sdks[ids[i]].key1
            then TouchOne(before, ids[i], sdks[ids[i]]) else before
  {
    assert ids[..i + 1][..i] == ids[..i];
    if ids[i] in served && ids[i] in sdks && served[ids[i]].key1 == sdks[ids[i]].key1 {
      var ops := TouchesOf(ids[..i + 1], served, sdks);
      assert ops[..|ops| - 1] == TouchesOf(ids[..i], served, sdks);
    }
  }

  // ----- The whole refresh -----


  /** The in-place loop looks at the clients after the deletions; their rows have not moved. */
  lemma {:induction false} ByPrimaryAgrees(
      ids: seq<Id>, t: map<Id, SdkModel>, u: map<Id, SdkModel>, sdks: map<Id, SdkModel>, changed: bool)
    requires forall id :: id in ids ==> (id in t <==> id in u) && (id in t ==> t[id] == u[id])
    ensures ByPrimary(ids, t, sdks, changed) == ByPrimary(ids, u, sdks, changed)
  {
    if ids != [] {
      assert forall id :: id in ids[..|ids| - 1] ==> id in ids;
      ByPrimaryAgrees(ids[..|ids| - 1], t, u, sdks, changed);
    }
  }

  lemma UpdatesFromSurvivors(s: State, p: Profile, existing: seq<Id>, remote: seq<Id>)
    requires s.InRange() && s.options == p.options
    requires Enumerates(existing, s.byId.Keys) && Enumerates(remote, p.sdks.Keys)
    ensures var remaining, t := Remaining(existing, remote), BeforeUpdates(s, p, existing, remote).Table();
            && Elems(remaining) <= p.sdks.Keys
            && Elems(ByPrimary(remaining, t, p.sdks, true)) <= p.sdks.Keys
            && Updates(s, p, remaining)
               == TouchesOf(remaining, t, p.sdks) + Resets(ByPrimary(remaining, t, p.sdks, true), p.sdks)
  {
    var remaining, t := Remaining(existing, remote), BeforeUpdates(s, p, existing, remote).Table();
    SurvivorIds(s, p, existing, remote);
    BeforeUpdatesTable(s, p, existing, remote);
    forall id | id in remaining
      ensures id in t && id in s.Table() && t[id] == s.Table()[id]
    {
      assert id in Elems(remaining);
    }
    ByPrimaryAgrees(remaining, s.Table(), t, p.sdks, false);
    ByPrimaryAgrees(remaining, s.Table(), t, p.sdks, true);
    ByPrimaryElems(remaining, t, p.sdks, true);
  }

  /** Where the update of the survivors leaves the registrar. */
  ghost function Updated(s: State, p: Profile, remaining: seq<Id>): (r: State)
    requires s.InRange() && Elems(remaining) <= p.sdks.Keys
    ensures r.InRange()
  {
    if s.options != p.options then ApplyAll(s.(options := p.options), Resets(remaining, p.sdks))
    else
      ByPrimaryElems(remaining, s.Table(), p.sdks, true);
      ApplyAll(ApplyAll(s, TouchesOf(remaining, s.Table(), p.sdks)),
               Resets(ByPrimary(remaining, s.Table(), p.sdks, true), p.sdks))
  }

  lemma {:induction false} UpdatedIs(s: State, p: Profile, existing: seq<Id>, remote: seq<Id>)
    requires s.InRange()
    requires Enumerates(existing, s.byId.Keys) && Enumerates(remote, p.sdks.Keys)
    requires Elems(Remaining(existing, remote)) <= p.sdks.Keys
    ensures Updated(ApplyAll(s, Deletes(Except(existing, remote))), p, Remaining(existing, remote))
         == ApplyAll(BeforeUpdates(s, p, existing, remote), Updates(s, p, Remaining(existing, remote)))
  {
    var toDelete, remaining := Except(existing, remote), Remaining(existing, remote);
    var d := ApplyAll(s, Deletes(toDelete));
    KeepsOptions(s, Deletes(toDelete));
    if s.options == p.options {
      assert Deletes(toDelete) + NewOptions(s, p) == Deletes(toDelete);
      UpdatesFromSurvivors(s, p, existing, remote);
      var rekeyed := ByPrimary(remaining, d.Table(), p.sdks, true);
      ApplyConcat(d, TouchesOf(remaining, d.Table(), p.sdks), Resets(rekeyed, p.sdks));
    } else {
      var ops := Deletes(toDelete) + NewOptions(s, p);
      assert ops[..|ops| - 1] == Deletes(toDelete) && ops[|ops| - 1] == SetOptions(p.options);
    }
  }

  /** The refresh, in the steps that the method takes. */
  lemma {:induction false} RefreshSteps(s: State, p: Profile, existing: seq<Id>, remote: seq<Id>)
    requires s.InRange()
    requires Enumerates(existing, s.byId.Keys) && Enumerates(remote, p.sdks.Keys)
    ensures Elems(Remaining(existing, remote)) <= p.sdks.Keys && Elems(Except(remote, existing)) <= p.sdks.Keys
    ensures Refresh(s, p, existing, remote)
         == ApplyAll(Updated(ApplyAll(s, Deletes(Except(existing, remote))), p, Remaining(existing, remote)),
                     Adds(Except(remote, existing), p.sdks))
  {
    SurvivorIds(s, p, existing, remote);
    RefreshFromUpdates(s, p, existing, remote);
    UpdatedIs(s, p, existing, remote);
  }
}
