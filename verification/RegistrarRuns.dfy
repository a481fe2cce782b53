/** Invariants of the registrar over arbitrary sequences of updates. */
module RegistrarRuns {
  import opened Common
  import opened ProfileModel
  import opened Registrar

  // ----- What a sound registrar looks like -----

  /** The client at ledger position `h` is the one its id resolves to. */
  ghost predicate Live(s: State, h: nat)
    requires h < |s.clients|
  {
    var id := s.clients[h].sdkId;
    id in s.byId && s.byId[id] == h
  }

  /** Every client ever built is either live and never closed, or closed exactly once. */
  ghost predicate Ledger(s: State) {
    forall h :: 0 <= h < |s.clients| ==> s.clients[h].closes == if Live(s, h) then 0 else 1
  }

  /** The nonempty keys of the key index are exactly the keys of the live clients. */
  ghost predicate IndexExact(s: State)
    requires s.InRange()
  {
    && (forall id, k {:trigger s.ClientOf(id).Has(k)} :: id in s.byId && s.ClientOf(id).Has(k) ==>
          k in s.byKey && s.byKey[k] == s.byId[id])
    && (forall k {:trigger s.byKey[k]} :: k in s.byKey && k != "" ==>
          s.byKey[k] < |s.clients| && Live(s, s.byKey[k]) && s.clients[s.byKey[k]].Has(k))
  }

  ghost predicate Sound(s: State) {
    s.InRange() && Ledger(s) && IndexExact(s) && DistinctKeys(s.Table())
  }

  /** The clients of `ids` carry the configuration the current options prescribe. */
  ghost predicate Configured(s: State, ids: set<Id>)
    requires s.InRange()
  {
    forall id :: id in ids && id in s.byId ==> RunsAs(s.conf, s.options, id, s.ClientOf(id).conf)
  }

  // ----- The same updates on the table of served keys -----

  function TableAfter(t: map<Id, SdkModel>, op: Op): map<Id, SdkModel> {
    match op
    case Delete(id) => t - {id}
    case SetOptions(_) => t
    case _ => t[op.id := op.sdk]
  }

  function TableAll(t: map<Id, SdkModel>, ops: seq<Op>): map<Id, SdkModel> {
    if ops == [] then t else TableAfter(TableAll(t, ops[..|ops| - 1]), ops[|ops| - 1])
  }

  /** `op` is one the registrar issues while it serves `t`. */
  ghost predicate Enabled(t: map<Id, SdkModel>, op: Op) {
    match op
    case Delete(id) => id in t
    case Touch(id, sdk) => id in t && t[id].key1 == sdk.key1
    case Reset(id, _) => id in t
    case Add(id, _) => id !in t
    case SetOptions(_) => true
  }

  /** The keys that `op` gives to its id are in use at no other id. */
  ghost predicate Fits(t: map<Id, SdkModel>, op: Op) {
    op.Delete? || op.SetOptions? ||
    (&& (op.sdk.key1 != "" ==> op.sdk.key1 != op.sdk.key2)
     && forall a :: a in t && a != op.id ==> !t[a].SharesKeyWith(op.sdk))
  }

  ghost predicate EnabledAll(t: map<Id, SdkModel>, ops: seq<Op>) {
    ops == [] || (EnabledAll(t, ops[..|ops| - 1]) && Enabled(TableAll(t, ops[..|ops| - 1]), ops[|ops| - 1]))
  }

  ghost predicate FitsAll(t: map<Id, SdkModel>, ops: seq<Op>) {
    ops == [] || (FitsAll(t, ops[..|ops| - 1]) && Fits(TableAll(t, ops[..|ops| - 1]), ops[|ops| - 1]))
  }

  // ----- One step -----

  lemma {:induction false} StepTable(s: State, op: Op)
    requires s.InRange() && Enabled(s.Table(), op)
    ensures Apply(s, op).Table() == TableAfter(s.Table(), op)
  {
    var r := Apply(s, op);
    forall id
      ensures id in r.Table() <==> id in TableAfter(s.Table(), op)
      ensures id in r.Table() ==> r.Table()[id] == TableAfter(s.Table(), op)[id]
    {
      StepTableAt(s, op, id);
    }
  }

  lemma DeleteTableAt(s: State, id: Id, x: Id)
    requires s.InRange() && id in s.byId
    ensures var r := DeleteOne(s, id);
            (x in r.byId <==> x in s.byId && x != id) && (x in r.byId ==> r.ClientOf(x).Sdk() == s.ClientOf(x).Sdk())
  {
  }

  lemma TouchTableAt(s: State, id: Id, sdk: SdkModel, x: Id)
    requires s.InRange() && id in s.byId && s.ClientOf(id).conf.key == sdk.key1
    ensures var r := TouchOne(s, id, sdk);
            r.byId == s.byId && (x in r.byId ==> r.ClientOf(x).Sdk() == if x == id then sdk else s.ClientOf(x).Sdk())
  {
  }

  lemma ResetTableAt(s: State, id: Id, sdk: SdkModel, x: Id)
    requires s.InRange() && id in s.byId
    ensures var r := ResetOne(s, id, sdk);
            && r.byId.Keys == s.byId.Keys
            && (x in r.byId ==> r.ClientOf(x).Sdk() == if x == id then sdk else s.ClientOf(x).Sdk())
  {
  }

  lemma AddTableAt(s: State, id: Id, sdk: SdkModel, x: Id)
    requires s.InRange() && id !in s.byId
    ensures var r := AddOne(s, id, sdk);
            && (x in r.byId <==> x in s.byId || x == id)
            && (x in r.byId ==> r.ClientOf(x).Sdk() == if x == id then sdk else s.ClientOf(x).Sdk())
  {
  }

  lemma StepTableAt(s: State, op: Op, id: Id)
    requires s.InRange() && Enabled(s.Table(), op)
    ensures id in Apply(s, op).byId <==> id in TableAfter(s.Table(), op)
    ensures id in Apply(s, op).byId ==> Apply(s, op).ClientOf(id).Sdk() == TableAfter(s.Table(), op)[id]
  {
    hide DeleteOne, TouchOne, ResetOne, AddOne;
    match op
    case Delete(x) => DeleteTableAt(s, x, id);
    case Touch(x, sdk) => TouchTableAt(s, x, sdk, id);
    case Reset(x, sdk) => ResetTableAt(s, x, sdk, id);
    case Add(x, sdk) => AddTableAt(s, x, sdk, id);
    case SetOptions(_) =>
  }

  lemma {:induction false} StepLedger(s: State, op: Op)
    requires s.InRange() && Ledger(s) && Enabled(s.Table(), op)
    ensures Ledger(Apply(s, op))
  {
    var r := Apply(s, op);
    forall h | 0 <= h < |r.clients|
      ensures r.clients[h].closes == if Live(r, h) then 0 else 1
    {
      if h < |s.clients| {
        assert Live(s, h) || !Live(s, h);
      }
    }
  }

  /** `id` got the client `n`, and no other id changed its keys or has one of the new ones. */
  ghost predicate RowRekeyed(s: State, r: State, id: Id, n: nat)
    requires s.InRange() && r.InRange()
  {
    && r.byId == s.byId[id := n]
    && forall a :: a in s.byId && a != id ==>
         && r.ClientOf(a).Sdk() == s.ClientOf(a).Sdk()
         && !s.ClientOf(a).Sdk().SharesKeyWith(r.ClientOf(id).Sdk())
  }

  /** The index lost the old keys of `id` and gained the new ones. */
  ghost predicate KeysRekeyed(s: State, r: State, id: Id, n: nat)
    requires s.InRange() && r.InRange() && id in r.byId
  {
    forall k :: k != "" ==>
      && (k in r.byKey <==> r.ClientOf(id).Has(k) || (k in s.byKey && !(id in s.byId && s.ClientOf(id).Has(k))))
      && (k in r.byKey ==>
            if r.ClientOf(id).Has(k) then r.byKey[k] == n else k in s.byKey && r.byKey[k] == s.byKey[k])
  }

  lemma RekeyedKey(s: State, r: State, id: Id, n: nat, a: Id, k: Key)
    requires s.InRange() && IndexExact(s) && r.InRange() && RowRekeyed(s, r, id, n) && KeysRekeyed(s, r, id, n)
    requires a in r.byId && r.ClientOf(a).Has(k)
    ensures k in r.byKey && r.byKey[k] == r.byId[a]
  {
    if a != id {
      assert s.ClientOf(a).Has(k) && s.byKey[k] == s.byId[a];
      assert !r.ClientOf(id).Has(k) by {
        assert !s.ClientOf(a).Sdk().SharesKeyWith(r.ClientOf(id).Sdk());
      }
      assert id in s.byId ==> !s.ClientOf(id).Has(k);
    }
  }

  lemma RekeyedHolder(s: State, r: State, id: Id, n: nat, k: Key)
    requires s.InRange() && IndexExact(s) && r.InRange() && RowRekeyed(s, r, id, n) && KeysRekeyed(s, r, id, n)
    requires k in r.byKey && k != ""
    ensures r.byKey[k] < |r.clients| && Live(r, r.byKey[k]) && r.clients[r.byKey[k]].Has(k)
  {
    if !r.ClientOf(id).Has(k) {
      var a := s.clients[s.byKey[k]].sdkId;
      assert Live(s, s.byKey[k]) && a != id;
      assert r.byId[a] == s.byKey[k];
    }
  }

  lemma RekeyIndex(s: State, r: State, id: Id, n: nat)
    requires s.InRange() && IndexExact(s) && r.InRange() && RowRekeyed(s, r, id, n) && KeysRekeyed(s, r, id, n)
    ensures IndexExact(r)
  {
    hide RowRekeyed, KeysRekeyed;
    forall a, k | a in r.byId && r.ClientOf(a).Has(k)
      ensures k in r.byKey && r.byKey[k] == r.byId[a]
    {
      RekeyedKey(s, r, id, n, a, k);
    }
    forall k | k in r.byKey && k != ""
      ensures r.byKey[k] < |r.clients| && Live(r, r.byKey[k]) && r.clients[r.byKey[k]].Has(k)
    {
      RekeyedHolder(s, r, id, n, k);
    }
  }

  lemma DeleteIndex(s: State, id: Id)
    requires s.InRange() && IndexExact(s) && id in s.byId
    ensures IndexExact(DeleteOne(s, id))
  {
    var r := DeleteOne(s, id);
    var c := s.ClientOf(id);
    assert forall k :: k in r.byKey <==> k in s.byKey && !c.Has(k);
    assert forall a :: a in r.byId ==> a in s.byId && a != id && r.ClientOf(a) == s.ClientOf(a);
    forall a, k | a in r.byId && r.ClientOf(a).Has(k)
      ensures k in r.byKey && r.byKey[k] == r.byId[a]
    {
      assert s.ClientOf(a).Has(k) && s.byKey[k] == s.byId[a];
    }
    forall k | k in r.byKey && k != ""
      ensures r.byKey[k] < |r.clients| && Live(r, r.byKey[k]) && r.clients[r.byKey[k]].Has(k)
    {
      assert Live(s, s.byKey[k]) && s.clients[s.byKey[k]].Has(k);
    }
  }

  /** No id other than `id` uses a key of `sdk`. */
  ghost predicate Unshared(s: State, id: Id, sdk: SdkModel)
    requires s.InRange()
  {
    forall a :: a in s.byId && a != id ==> !s.ClientOf(a).Sdk().SharesKeyWith(sdk)
  }

  lemma TouchRow(s: State, id: Id, sdk: SdkModel)
    requires s.InRange() && id in s.byId && Unshared(s, id, sdk) && s.ClientOf(id).conf.key == sdk.key1
    ensures TouchOne(s, id, sdk) != s ==> RowRekeyed(s, TouchOne(s, id, sdk), id, s.byId[id])
    ensures TouchOne(s, id, sdk).ClientOf(id).Sdk() == sdk
  {
    assert s.byId == s.byId[id := s.byId[id]];
  }

  lemma {:induction false} TouchIndex(s: State, id: Id, sdk: SdkModel)
    requires s.InRange() && IndexExact(s) && id in s.byId && Unshared(s, id, sdk)
    requires s.ClientOf(id).conf.key == sdk.key1 && (sdk.key1 != "" ==> sdk.key1 != s.ClientOf(id).Secondary())
    ensures IndexExact(TouchOne(s, id, sdk))
  {
    hide RowRekeyed, Unshared;
    var r := TouchOne(s, id, sdk);
    TouchRow(s, id, sdk);
    if r != s {
      assert sdk.key1 != "" ==> s.ClientOf(id).Has(sdk.key1);
      assert s.ClientOf(id).Secondary() != "" ==> s.ClientOf(id).Has(s.ClientOf(id).Secondary());
      RekeyIndex(s, r, id, s.byId[id]);
    }
  }

  lemma StoredKeys(index: map<Key, nat>, sdk: SdkModel, h: nat)
    ensures forall k :: k in StoreKeys(index, sdk, h) <==> sdk.Has(k) || k in index
    ensures forall k :: k in StoreKeys(index, sdk, h) ==>
              StoreKeys(index, sdk, h)[k] == if sdk.Has(k) then h else index[k]
  {
  }

  lemma ResetRow(s: State, id: Id, sdk: SdkModel)
    requires s.InRange() && id in s.byId && Unshared(s, id, sdk)
    ensures RowRekeyed(s, ResetOne(s, id, sdk), id, |s.clients|)
    ensures ResetOne(s, id, sdk).ClientOf(id).Sdk() == sdk
  {
  }

  lemma {:induction false} ResetIndex(s: State, id: Id, sdk: SdkModel)
    requires s.InRange() && IndexExact(s) && id in s.byId && Unshared(s, id, sdk)
    ensures IndexExact(ResetOne(s, id, sdk))
  {
    hide RowRekeyed, Unshared, IndexExact;
    var r := ResetOne(s, id, sdk);
    ResetRow(s, id, sdk);
    var dropped := DropKeys(s.byKey, s.ClientOf(id));
    assert forall k :: k in dropped <==> k in s.byKey && !s.ClientOf(id).Has(k);
    StoredKeys(dropped, sdk, |s.clients|);
    RekeyIndex(s, r, id, |s.clients|);
  }

  lemma {:induction false} AddIndex(s: State, id: Id, sdk: SdkModel)
    requires s.InRange() && IndexExact(s) && id !in s.byId && Unshared(s, id, sdk)
    ensures IndexExact(AddOne(s, id, sdk))
  {
    var r := AddOne(s, id, sdk);
    assert r.ClientOf(id).Sdk() == sdk;
    StoredKeys(s.byKey, sdk, |s.clients|);
    RekeyIndex(s, r, id, |s.clients|);
  }

  lemma {:induction false} StepIndex(s: State, op: Op)
    requires Sound(s) && Enabled(s.Table(), op) && Fits(s.Table(), op)
    ensures IndexExact(Apply(s, op))
  {
    if !op.Delete? && !op.SetOptions? {
      forall a | a in s.byId && a != op.id
        ensures !s.ClientOf(a).Sdk().SharesKeyWith(op.sdk)
      {
        assert !s.Table()[a].SharesKeyWith(op.sdk);
      }
    }
    match op
    case Delete(id) => DeleteIndex(s, id);
    case Touch(id, sdk) =>
      assert s.Table()[id].key1 == sdk.key1;
      TouchIndex(s, id, sdk);
    case Reset(id, sdk) => ResetIndex(s, id, sdk);
    case Add(id, sdk) => AddIndex(s, id, sdk);
    case SetOptions(_) => assert forall h: nat :: h < |s.clients| ==> Live(s, h) == Live(Apply(s, op), h);
  }

  lemma DistinctAfter(t: map<Id, SdkModel>, op: Op)
    requires DistinctKeys(t) && Fits(t, op)
    ensures DistinctKeys(TableAfter(t, op))
  {
  }

  lemma {:induction false} StepSound(s: State, op: Op)
    requires Sound(s) && Enabled(s.Table(), op) && Fits(s.Table(), op)
    ensures Sound(Apply(s, op)) && Apply(s, op).Table() == TableAfter(s.Table(), op)
  {
    StepTable(s, op);
    StepLedger(s, op);
    StepIndex(s, op);
    DistinctAfter(s.Table(), op);
  }

  // ----- Sequences of updates -----

  lemma {:induction false} RunTable(s: State, ops: seq<Op>)
    requires s.InRange() && EnabledAll(s.Table(), ops)
    ensures ApplyAll(s, ops).Table() == TableAll(s.Table(), ops)
    ensures Ledger(s) ==> Ledger(ApplyAll(s, ops))
  {
    if ops != [] {
      var init := ops[..|ops| - 1];
      RunTable(s, init);
      StepTable(ApplyAll(s, init), ops[|ops| - 1]);
      if Ledger(s) {
        StepLedger(ApplyAll(s, init), ops[|ops| - 1]);
      }
    }
  }

  /** Any run of fitting updates keeps the registrar sound. */
  lemma {:induction false} RunSound(s: State, ops: seq<Op>)
    requires Sound(s) && EnabledAll(s.Table(), ops) && FitsAll(s.Table(), ops)
    ensures Sound(ApplyAll(s, ops)) && ApplyAll(s, ops).Table() == TableAll(s.Table(), ops)
  {
    if ops != [] {
      var init := ops[..|ops| - 1];
      RunSound(s, init);
      StepSound(ApplyAll(s, init), ops[|ops| - 1]);
    }
  }

  lemma {:induction false} ApplyConcat(s: State, a: seq<Op>, b: seq<Op>)
    requires s.InRange()
    ensures ApplyAll(s, a + b) == ApplyAll(ApplyAll(s, a), b)
  {
    if b == [] {
      assert a + b == a;
    } else {
      assert (a + b)[..|a + b| - 1] == a + b[..|b| - 1];
      ApplyConcat(s, a, b[..|b| - 1]);
    }
  }

  lemma {:induction false} TableConcat(t: map<Id, SdkModel>, a: seq<Op>, b: seq<Op>)
    ensures TableAll(t, a + b) == TableAll(TableAll(t, a), b)
    ensures EnabledAll(t, a + b) <==> EnabledAll(t, a) && EnabledAll(TableAll(t, a), b)
    ensures FitsAll(t, a + b) <==> FitsAll(t, a) && FitsAll(TableAll(t, a), b)
  {
    if b == [] {
      assert a + b == a;
    } else {
      assert (a + b)[..|a + b| - 1] == a + b[..|b| - 1];
      TableConcat(t, a, b[..|b| - 1]);
    }
  }

  // ----- The segments of a refresh -----

  lemma {:induction false} DeletesRun(t: map<Id, SdkModel>, ids: seq<Id>)
    requires NoDup(ids) && Elems(ids) <= t.Keys
    ensures TableAll(t, Deletes(ids)) == t - Elems(ids)
    ensures EnabledAll(t, Deletes(ids)) && FitsAll(t, Deletes(ids))
  {
    if ids != [] {
      var init, last := ids[..|ids| - 1], ids[|ids| - 1];
      Snoc(ids);
      DeletesRun(t, init);
      assert Deletes(ids)[..|ids| - 1] == Deletes(init);
      assert (t - Elems(init)) - {last} == t - Elems(ids);
    }
  }

  ghost function Rows(sdks: map<Id, SdkModel>, ids: set<Id>): map<Id, SdkModel> {
    map id | id in ids && id in sdks :: sdks[id]
  }

  lemma RowsSnoc(t: map<Id, SdkModel>, sdks: map<Id, SdkModel>, ids: set<Id>, last: Id)
    requires last in sdks
    ensures (t + Rows(sdks, ids))[last := sdks[last]] == t + Rows(sdks, ids + {last})
  {
  }

  /** The row that `op` puts. */
  ghost predicate PutsRow(op: Op, id: Id, sdks: map<Id, SdkModel>) {
    (op.Touch? || op.Reset? || op.Add?) && op.id == id && id in sdks && op.sdk == sdks[id]
  }

  /** `ops` gives each id of `ids`, in this order, its row of `sdks`. */
  ghost predicate Puts(ops: seq<Op>, ids: seq<Id>, sdks: map<Id, SdkModel>) {
    |ops| == |ids| && forall i :: 0 <= i < |ids| ==> PutsRow(ops[i], ids[i], sdks)
  }

  lemma PutsKnown(ops: seq<Op>, ids: seq<Id>, sdks: map<Id, SdkModel>)
    requires Puts(ops, ids, sdks)
    ensures Elems(ids) <= sdks.Keys
  {
  }

  lemma {:induction false} PutsTable(t: map<Id, SdkModel>, ops: seq<Op>, ids: seq<Id>, sdks: map<Id, SdkModel>)
    requires Puts(ops, ids, sdks)
    ensures TableAll(t, ops) == t + Rows(sdks, Elems(ids))
  {
    hide EnabledAll, FitsAll, DistinctKeys;
    if ids != [] {
      var init, last := ids[..|ids| - 1], ids[|ids| - 1];
      Snoc(ids);
      PutsTable(t, ops[..|ids| - 1], init, sdks);
      assert PutsRow(ops[|ids| - 1], last, sdks);
      RowsSnoc(t, sdks, Elems(init), last);
    }
  }

  /** One row fits when its keys clash with no row that is still to be replaced. */
  lemma PutFits(t: map<Id, SdkModel>, done: set<Id>, op: Op, id: Id, sdks: map<Id, SdkModel>)
    requires PutsRow(op, id, sdks) && DistinctKeys(sdks) && id !in done && done <= sdks.Keys
    requires forall a :: a in t && a != id && a !in done ==> !sdks[id].SharesKeyWith(t[a])
    ensures Fits(t + Rows(sdks, done), op)
  {
  }

  /** Updating survivors is enabled: the id is served, and a touched one keeps its primary key. */
  lemma {:induction false} UpdatesEnabled(t: map<Id, SdkModel>, ops: seq<Op>, ids: seq<Id>, sdks: map<Id, SdkModel>)
    requires Puts(ops, ids, sdks) && NoDup(ids)
    requires forall i :: 0 <= i < |ids| ==> !ops[i].Add? && Enabled(t, ops[i])
    ensures EnabledAll(t, ops)
  {
    if ids != [] {
      var init, last := ids[..|ids| - 1], ids[|ids| - 1];
      Snoc(ids);
      UpdatesEnabled(t, ops[..|ids| - 1], init, sdks);
      PutsTable(t, ops[..|ids| - 1], init, sdks);
      assert PutsRow(ops[|ids| - 1], last, sdks) && Enabled(t, ops[|ids| - 1]);
    }
  }

  /** No id takes over a key before the id that held it so far has been updated. */
  ghost predicate ClashFree(t: map<Id, SdkModel>, sdks: map<Id, SdkModel>, order: seq<Id>) {
    forall i, j :: 0 <= i < j < |order| && order[i] in sdks && order[j] in t ==>
      !sdks[order[i]].SharesKeyWith(t[order[j]])
  }

  lemma LaterRowsUnshared(t: map<Id, SdkModel>, ids: seq<Id>, sdks: map<Id, SdkModel>, n: nat)
    requires Enumerates(ids, t.Keys) && ClashFree(t, sdks, ids) && n < |ids| && ids[n] in sdks
    ensures ids[n] !in Elems(ids[..n])
    ensures forall a :: a in t && a != ids[n] && a !in Elems(ids[..n]) ==> !sdks[ids[n]].SharesKeyWith(t[a])
  {
  }

  lemma {:induction false} UpdatesFit(t: map<Id, SdkModel>, ops: seq<Op>, ids: seq<Id>, sdks: map<Id, SdkModel>, n: nat)
    requires Puts(ops, ids, sdks) && Enumerates(ids, t.Keys) && DistinctKeys(sdks)
    requires ClashFree(t, sdks, ids) && n <= |ids|
    ensures FitsAll(t, ops[..n])
  {
    hide DistinctKeys, ClashFree, Fits, NoDup;
    if n != 0 {
      UpdatesFit(t, ops, ids, sdks, n - 1);
      assert ops[..n][..n - 1] == ops[..n - 1];
      var done, id := ids[..n - 1], ids[n - 1];
      PutsTable(t, ops[..n - 1], done, sdks);
      PutsKnown(ops, ids, sdks);
      assert PutsRow(ops[n - 1], id, sdks);
      LaterRowsUnshared(t, ids, sdks, n - 1);
      PutFits(t, Elems(done), ops[n - 1], id, sdks);
    }
  }

  /** The row of an id that is not served yet fits beside the rows of the same profile. */
  lemma AddFits(t: map<Id, SdkModel>, done: set<Id>, op: Op, id: Id, sdks: map<Id, SdkModel>)
    requires PutsRow(op, id, sdks) && DistinctKeys(sdks) && id !in done && id !in t && done <= sdks.Keys
    requires t.Keys <= sdks.Keys && t == Rows(sdks, t.Keys)
    ensures Fits(t + Rows(sdks, done), op)
  {
    forall a | a in t && a !in done
      ensures !sdks[id].SharesKeyWith(t[a])
    {
      assert t[a] == sdks[a];
    }
    PutFits(t, done, op, id, sdks);
  }

  lemma {:induction false} AddsRun(t: map<Id, SdkModel>, ids: seq<Id>, sdks: map<Id, SdkModel>)
    requires NoDup(ids) && Elems(ids) !! t.Keys && Elems(ids) <= sdks.Keys
    requires t.Keys <= sdks.Keys && t == Rows(sdks, t.Keys) && DistinctKeys(sdks)
    ensures TableAll(t, Adds(ids, sdks)) == t + Rows(sdks, Elems(ids))
    ensures EnabledAll(t, Adds(ids, sdks)) && FitsAll(t, Adds(ids, sdks))
  {
    hide DistinctKeys, Fits;
    if ids != [] {
      var init, last := ids[..|ids| - 1], ids[|ids| - 1];
      Snoc(ids);
      AddsRun(t, init, sdks);
      assert Adds(ids, sdks)[..|ids| - 1] == Adds(init, sdks);
      var op := Adds(ids, sdks)[|ids| - 1];
      assert PutsRow(op, last, sdks);
      AddFits(t, Elems(init), op, last, sdks);
      RowsSnoc(t, sdks, Elems(init), last);
    }
  }
}
