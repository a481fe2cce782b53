/** What holds of the client ledger and the key index even when keys are taken over. */
module RegistrarLedger {
  import opened Common
  import opened ProfileModel
  import opened Registrar
  import opened RegistrarRuns
  import opened Reconcile
  import opened ReconcileRuns

  /** Every nonempty key of the index resolves to a live client that has it: one half of
      `IndexExact`, on its own. */
  ghost predicate NoDeadKey(s: State) {
    forall k :: k in s.byKey && k != "" ==>
      s.byKey[k] < |s.clients| && Live(s, s.byKey[k]) && s.clients[s.byKey[k]].Has(k)
  }

  lemma DeleteNoDeadKey(s: State, id: Id)
    requires s.InRange() && NoDeadKey(s)
    ensures NoDeadKey(DeleteOne(s, id))
  {
  }

  lemma TouchNoDeadKey(s: State, id: Id, sdk: SdkModel)
    requires s.InRange() && NoDeadKey(s)
    ensures NoDeadKey(TouchOne(s, id, sdk))
  {
  }

  lemma StoredNoDeadKey(s: State, r: State, sdk: SdkModel, index: map<Key, nat>, n: nat)
    requires r.byKey == StoreKeys(index, sdk, n) && n < |r.clients| && Live(r, n) && r.clients[n].Sdk() == sdk
    requires forall k :: k in index && k != "" ==>
               index[k] < |r.clients| && Live(r, index[k]) && r.clients[index[k]].Has(k)
    ensures NoDeadKey(r)
  {
    StoredKeys(index, sdk, n);
  }

  lemma ResetNoDeadKey(s: State, id: Id, sdk: SdkModel)
    requires s.InRange() && NoDeadKey(s) && id in s.byId
    ensures NoDeadKey(ResetOne(s, id, sdk))
  {
    var r, index := ResetOne(s, id, sdk), DropKeys(s.byKey, s.ClientOf(id));
    forall k | k in index && k != ""
      ensures index[k] < |r.clients| && Live(r, index[k]) && r.clients[index[k]].Has(k)
    {
      assert s.byKey[k] != s.byId[id];
    }
    StoredNoDeadKey(s, r, sdk, index, |s.clients|);
  }

  lemma AddNoDeadKey(s: State, id: Id, sdk: SdkModel)
    requires s.InRange() && NoDeadKey(s) && id !in s.byId
    ensures NoDeadKey(AddOne(s, id, sdk))
  {
    StoredNoDeadKey(s, AddOne(s, id, sdk), sdk, s.byKey, |s.clients|);
  }

  lemma StepNoDeadKey(s: State, op: Op)
    requires s.InRange() && Enabled(s.Table(), op) && NoDeadKey(s)
    ensures NoDeadKey(Apply(s, op))
  {
    match op
    case Delete(id) => DeleteNoDeadKey(s, id);
    case Touch(id, sdk) => TouchNoDeadKey(s, id, sdk);
    case Reset(id, sdk) => ResetNoDeadKey(s, id, sdk);
    case Add(id, sdk) => AddNoDeadKey(s, id, sdk);
    case SetOptions(_) =>
  }

  lemma {:induction false} RunNoDeadKey(s: State, ops: seq<Op>)
    requires s.InRange() && EnabledAll(s.Table(), ops) && NoDeadKey(s)
    ensures NoDeadKey(ApplyAll(s, ops))
  {
    if ops != [] {
      RunNoDeadKey(s, ops[..|ops| - 1]);
      RunTable(s, ops[..|ops| - 1]);
      StepNoDeadKey(ApplyAll(s, ops[..|ops| - 1]), ops[|ops| - 1]);
    }
  }

  lemma {:induction false} RoundsKeepLedger(s: State, rounds: seq<Round>)
    requires s.InRange() && Ledger(s) && NoDeadKey(s) && Listed(s, rounds)
    requires forall i :: 0 <= i < |rounds| ==> DistinctKeys(rounds[i].profile.sdks)
    ensures Ledger(RunRounds(s, rounds)) && NoDeadKey(RunRounds(s, rounds))
    decreases |rounds|
  {
    if rounds != [] {
      var r := rounds[0];
      PlanTable(s, r.profile, r.existing, r.remote);
      RunTable(s, Plan(s, r.profile, r.existing, r.remote));
      RunNoDeadKey(s, Plan(s, r.profile, r.existing, r.remote));
      RoundsKeepLedger(Refresh(s, r.profile, r.existing, r.remote), rounds[1..]);
    }
  }

  /** Across all refreshes, key takeovers included: every client ever built is either the one
      its id resolves to and was never closed, or it was closed exactly once; and no nonempty
      key resolves to a closed client, or to one that does not have the key. */
  lemma {:induction false} ClientLedger(conf: ProxyConf, first: Profile, order: seq<Id>, rounds: seq<Round>)
    requires DistinctKeys(first.sdks) && Enumerates(order, first.sdks.Keys)
    requires Listed(Construct(conf, first, order), rounds)
    requires forall i :: 0 <= i < |rounds| ==> DistinctKeys(rounds[i].profile.sdks)
    ensures var r := RunRounds(Construct(conf, first, order), rounds);
            && (forall h :: 0 <= h < |r.clients| ==> r.clients[h].closes == if Live(r, h) then 0 else 1)
            && (forall k :: k in r.byKey && k != "" ==>
                  r.byKey[k] < |r.clients| && r.clients[r.byKey[k]].closes == 0 && r.clients[r.byKey[k]].Has(k))
  {
    ConstructMirrors(conf, first, order);
    RoundsKeepLedger(Construct(conf, first, order), rounds);
  }

  // ----- The entry of the empty key -----

  ghost function EmptyKey(s: State): Option<nat> {
    if "" in s.byKey then Some(s.byKey[""]) else None
  }

  /** `op` takes the secondary key of a client away in place. */
  ghost predicate TakesSecondary(s: State, op: Op)
    requires s.InRange()
  {
    op.Touch? && op.id in s.byId && s.ClientOf(op.id).Secondary() != "" && op.sdk.key2 == ""
  }

  /** `op` gives a secondary key to a client that had lost its own in place. */
  ghost predicate GivesBack(s: State, op: Op)
    requires s.InRange()
  {
    op.Touch? && op.id in s.byId && s.ClientOf(op.id).key2 == Some("") && op.sdk.key2 != ""
  }

  /** The first writes an entry for the empty key, the second removes it, whoever wrote it. */
  ghost function EmptyKeyAfter(s: State, op: Op): Option<nat>
    requires s.InRange()
  {
    if TakesSecondary(s, op) then Some(s.byId[op.id])
    else if GivesBack(s, op) then None
    else EmptyKey(s)
  }

  lemma StoredEmptyKey(index: map<Key, nat>, sdk: SdkModel, h: nat)
    ensures "" in StoreKeys(index, sdk, h) <==> "" in index
    ensures "" in index ==> StoreKeys(index, sdk, h)[""] == index[""]
  {
  }

  lemma EmptyKeyStep(s: State, op: Op)
    requires s.InRange()
    ensures EmptyKey(Apply(s, op)) == EmptyKeyAfter(s, op)
  {
    hide StoreKeys;
    if op.Reset? || op.Add? {
      var index := if op.id in s.byId then DropKeys(s.byKey, s.ClientOf(op.id)) else s.byKey;
      StoredEmptyKey(index, op.sdk, |s.clients|);
    }
  }

  /** `op` closes the client at ledger position `h`. */
  ghost predicate Ends(s: State, op: Op, h: nat)
    requires s.InRange()
  {
    (op.Delete? || op.Reset?) && op.id in s.byId && s.byId[op.id] == h
  }

  /** Which client a run leaves under the empty key, and whether it was closed since. */
  ghost function EmptyKeyHolder(s: State, ops: seq<Op>): Option<(nat, bool)>
    requires s.InRange()
  {
    if ops == [] then None
    else
      var m, op := ApplyAll(s, ops[..|ops| - 1]), ops[|ops| - 1];
      var before := EmptyKeyHolder(s, ops[..|ops| - 1]);
      if TakesSecondary(m, op) then Some((m.byId[op.id], false))
      else if GivesBack(m, op) || before.None? then None
      else Some((before.value.0, before.value.1 || Ends(m, op, before.value.0)))
  }

  lemma LiveAfter(s: State, op: Op, h: nat)
    requires s.InRange() && h < |s.clients|
    ensures h < |Apply(s, op).clients|
    ensures Live(Apply(s, op), h) <==> Live(s, h) && !Ends(s, op, h)
  {
    hide DropKeys, StoreKeys;
  }

  /** After any run of applicable updates the empty key leads to a closed client if and only if the
      client that last had its secondary key taken away in place, and none was given back in
      place since, has been rebuilt or removed. */
  lemma {:induction false} EmptyKeyRun(s: State, ops: seq<Op>)
    requires s.InRange() && Ledger(s) && EnabledAll(s.Table(), ops) && EmptyKey(s) == None
    ensures var r, holder := ApplyAll(s, ops), EmptyKeyHolder(s, ops);
            && (EmptyKey(r).Some? <==> holder.Some?)
            && (holder.Some? ==>
                  && EmptyKey(r).value == holder.value.0 < |r.clients|
                  && r.clients[holder.value.0].closes == if holder.value.1 then 1 else 0)
  {
    RunTable(s, ops);
    if ops != [] {
      hide EmptyKey, Ledger;
      var init, op := ops[..|ops| - 1], ops[|ops| - 1];
      var m := ApplyAll(s, init);
      EmptyKeyRun(s, init);
      RunTable(s, init);
      EmptyKeyStep(m, op);
      HolderCloses(m, op, EmptyKeyHolder(s, init));
    }
  }

  lemma HolderCloses(m: State, op: Op, before: Option<(nat, bool)>)
    requires m.InRange() && Ledger(m) && Ledger(Apply(m, op))
    requires before.Some? ==> before.value.0 < |m.clients|
    requires before.Some? ==> m.clients[before.value.0].closes == if before.value.1 then 1 else 0
    ensures TakesSecondary(m, op) ==> Apply(m, op).clients[m.byId[op.id]].closes == 0
    ensures before.Some? ==>
              && before.value.0 < |Apply(m, op).clients|
              && Apply(m, op).clients[before.value.0].closes ==
                   if before.value.1 || Ends(m, op, before.value.0) then 1 else 0
  {
    hide Apply;
    if before.Some? {
      LiveAfter(m, op, before.value.0);
    }
    if TakesSecondary(m, op) {
      LiveAfter(m, op, m.byId[op.id]);
    }
  }

  /** A client whose secondary key was taken away in place is found under the empty key, also
      after it was closed and its id removed. */
  lemma EmptyKeyOutlives(s: State, id: Id)
    requires s.InRange() && Ledger(s) && id in s.byId && s.ClientOf(id).Secondary() != ""
    ensures var r := Apply(Apply(s, Touch(id, SdkModel(s.ClientOf(id).conf.key, ""))), Delete(id));
            && id !in r.byId && EmptyKey(r) == Some(s.byId[id])
            && r.clients[s.byId[id]].closes == 1 && r.clients[s.byId[id]].sdkId == id
  {
    var t := Apply(s, Touch(id, SdkModel(s.ClientOf(id).conf.key, "")));
    EmptyKeyStep(s, Touch(id, SdkModel(s.ClientOf(id).conf.key, "")));
    EmptyKeyStep(t, Delete(id));
    assert Live(s, s.byId[id]);
  }
}
