/** What one refresh does to one id: which client it is left with and how often it is announced. */
module RegistrarEffects {
  import opened Common
  import opened ProfileModel
  import opened Registrar
  import opened RegistrarRuns
  import opened Reconcile
  import opened ReconcileRuns

  /** The updates among `ops` that concern `x`. */
  ghost function About(ops: seq<Op>, x: Id): seq<Op> {
    if ops == [] then []
    else
      var op := ops[|ops| - 1];
      About(ops[..|ops| - 1], x) + if !op.SetOptions? && op.id == x then [op] else []
  }

  lemma {:induction false} AboutConcat(a: seq<Op>, b: seq<Op>, x: Id)
    ensures About(a + b, x) == About(a, x) + About(b, x)
  {
    if b == [] {
      assert a + b == a;
    } else {
      assert (a + b)[..|a + b| - 1] == a + b[..|b| - 1];
      AboutConcat(a, b[..|b| - 1], x);
    }
  }

  ghost function Announced(s: State, x: Id): nat {
    multiset(s.published)[x]
  }

  /** What the reporter was told about `x`, in order. */
  ghost function Told(calls: seq<ReporterCall>, x: Id): seq<ReporterCall> {
    if calls == [] then []
    else
      var c := calls[|calls| - 1];
      Told(calls[..|calls| - 1], x) + if c.id == x then [c] else []
  }

  lemma ToldSnoc(calls: seq<ReporterCall>, c: ReporterCall, x: Id)
    ensures Told(calls + [c], x) == if c.id == x then Told(calls, x) + [c] else Told(calls, x)
  {
    assert Told(calls, x) + [] == Told(calls, x);
  }

  /** Nothing about `x` differs between `s` and `r`. */
  ghost predicate SameAt(s: State, r: State, x: Id)
    requires s.InRange() && r.InRange()
  {
    && (x in s.byId <==> x in r.byId)
    && (x in s.byId ==> s.byId[x] == r.byId[x] && s.ClientOf(x) == r.ClientOf(x))
    && Announced(s, x) == Announced(r, x)
    && Told(s.calls, x) == Told(r.calls, x)
  }

  /** `x` got a new client with the keys of `sdk`, and is announced once more. */
  ghost predicate Renewed(s: State, r: State, x: Id, sdk: SdkModel)
    requires s.InRange() && r.InRange()
  {
    && x in r.byId && r.byId[x] >= |s.clients|
    && r.ClientOf(x).Sdk() == sdk
    && r.ClientOf(x).key2 == (if sdk.key2 == "" then None else Some(sdk.key2))
    && Announced(r, x) == Announced(s, x) + 1
  }

  /** `x` kept its client, whose secondary key may have changed. */
  ghost predicate Touched(s: State, r: State, x: Id, sdk: SdkModel)
    requires s.InRange() && r.InRange() && x in s.byId
  {
    && x in r.byId && r.byId[x] == s.byId[x]
    && r.ClientOf(x).Sdk() == sdk
    && Told(r.calls, x) == Told(s.calls, x)
    && if s.ClientOf(x).Secondary() == sdk.key2
       then r.ClientOf(x) == s.ClientOf(x) && Announced(r, x) == Announced(s, x)
       else r.ClientOf(x) == s.ClientOf(x).(key2 := Some(sdk.key2)) && Announced(r, x) == Announced(s, x) + 1
  }

  /** The effect of `op` on its own id, seen from before to after. */
  ghost predicate Effect(s: State, op: Op, r: State)
    requires s.InRange() && r.InRange() && Enabled(s.Table(), op)
  {
    match op
    case Delete(x) =>
      && x !in r.byId && Announced(r, x) == Announced(s, x) + 1
      && Told(r.calls, x) == Told(s.calls, x) + [RemoveSdk(x)]
    case Touch(x, sdk) => Touched(s, r, x, sdk)
    case Reset(x, sdk) =>
      Renewed(s, r, x, sdk) && Told(r.calls, x) == Told(s.calls, x) + [UpdateSdk(x, r.ClientOf(x).conf)]
    case Add(x, sdk) =>
      Renewed(s, r, x, sdk) && Told(r.calls, x) == Told(s.calls, x) + [RegisterSdk(x, r.ClientOf(x).conf)]
    case SetOptions(_) => true
  }

  lemma DeleteEffect(s: State, id: Id)
    requires s.InRange() && id in s.byId
    ensures Effect(s, Delete(id), DeleteOne(s, id))
  {
    hide DropKeys;
    ToldSnoc(s.calls, RemoveSdk(id), id);
  }

  lemma TouchEffect(s: State, id: Id, sdk: SdkModel)
    requires s.InRange() && id in s.byId && s.ClientOf(id).conf.key == sdk.key1
    ensures Touched(s, TouchOne(s, id, sdk), id, sdk)
  {
  }

  lemma ResetEffect(s: State, id: Id, sdk: SdkModel)
    requires s.InRange() && id in s.byId
    ensures Effect(s, Reset(id, sdk), ResetOne(s, id, sdk))
  {
    hide DropKeys, StoreKeys;
    ToldSnoc(s.calls, UpdateSdk(id, Build(s, id, sdk).conf), id);
  }

  lemma AddEffect(s: State, id: Id, sdk: SdkModel)
    requires s.InRange() && id !in s.byId
    ensures Effect(s, Add(id, sdk), AddOne(s, id, sdk))
  {
    hide StoreKeys;
    ToldSnoc(s.calls, RegisterSdk(id, Build(s, id, sdk).conf), id);
  }

  lemma {:induction false} OwnEffect(s: State, op: Op)
    requires s.InRange() && !op.SetOptions? && Enabled(s.Table(), op)
    ensures Effect(s, op, Apply(s, op))
  {
    hide DeleteOne, TouchOne, ResetOne, AddOne, Renewed, Touched;
    match op
    case Delete(id) => DeleteEffect(s, id);
    case Touch(id, sdk) =>
      assert s.Table()[id].key1 == sdk.key1;
      TouchEffect(s, id, sdk);
    case Reset(id, sdk) => ResetEffect(s, id, sdk);
    case Add(id, sdk) => AddEffect(s, id, sdk);
  }

  lemma DeleteElsewhere(s: State, id: Id, x: Id)
    requires s.InRange() && id != x
    ensures SameAt(s, DeleteOne(s, id), x)
  {
    ToldSnoc(s.calls, RemoveSdk(id), x);
  }

  lemma TouchElsewhere(s: State, id: Id, sdk: SdkModel, x: Id)
    requires s.InRange() && id != x
    ensures SameAt(s, TouchOne(s, id, sdk), x)
  {
  }

  lemma ResetElsewhere(s: State, id: Id, sdk: SdkModel, x: Id)
    requires s.InRange() && id != x
    ensures SameAt(s, ResetOne(s, id, sdk), x)
  {
    ToldSnoc(s.calls, UpdateSdk(id, Build(s, id, sdk).conf), x);
  }

  lemma AddElsewhere(s: State, id: Id, sdk: SdkModel, x: Id)
    requires s.InRange() && id != x
    ensures SameAt(s, AddOne(s, id, sdk), x)
  {
    ToldSnoc(s.calls, RegisterSdk(id, Build(s, id, sdk).conf), x);
  }

  lemma NoEffect(s: State, op: Op, x: Id)
    requires s.InRange() && (op.SetOptions? || op.id != x)
    ensures SameAt(s, Apply(s, op), x)
  {
    hide DeleteOne, TouchOne, ResetOne, AddOne;
    match op
    case Delete(id) => DeleteElsewhere(s, id, x);
    case Touch(id, sdk) => TouchElsewhere(s, id, sdk, x);
    case Reset(id, sdk) => ResetElsewhere(s, id, sdk, x);
    case Add(id, sdk) => AddElsewhere(s, id, sdk, x);
    case SetOptions(_) =>
  }

  lemma Grows(s: State, op: Op)
    requires s.InRange()
    ensures s.published <= Apply(s, op).published && |s.clients| <= |Apply(s, op).clients|
  {
  }

  lemma {:induction false} GrowsAll(s: State, ops: seq<Op>)
    requires s.InRange()
    ensures s.published <= ApplyAll(s, ops).published && |s.clients| <= |ApplyAll(s, ops).clients|
  {
    if ops != [] {
      GrowsAll(s, ops[..|ops| - 1]);
      Grows(ApplyAll(s, ops[..|ops| - 1]), ops[|ops| - 1]);
    }
  }

  lemma EffectAfterSame(s: State, m: State, op: Op, r: State)
    requires s.InRange() && m.InRange() && r.InRange() && !op.SetOptions?
    requires SameAt(s, m, op.id) && |s.clients| <= |m.clients|
    requires Enabled(m.Table(), op) && Effect(m, op, r)
    ensures Enabled(s.Table(), op) && Effect(s, op, r)
  {
  }

  lemma EffectThenSame(s: State, op: Op, m: State, r: State)
    requires s.InRange() && m.InRange() && r.InRange() && !op.SetOptions?
    requires Enabled(s.Table(), op) && Effect(s, op, m) && SameAt(m, r, op.id)
    ensures Effect(s, op, r)
  {
  }

  /** An id with no update stays as it is; an id with one update shows exactly its effect. */
  lemma {:induction false} EffectOfRun(s: State, ops: seq<Op>, x: Id)
    requires s.InRange() && Ledger(s) && EnabledAll(s.Table(), ops) && |About(ops, x)| <= 1
    ensures var r := ApplyAll(s, ops);
            if About(ops, x) == [] then SameAt(s, r, x)
            else var op := About(ops, x)[0];
                 !op.SetOptions? && op.id == x && Enabled(s.Table(), op) && Effect(s, op, r)
  {
    if ops != [] {
      var init, last := ops[..|ops| - 1], ops[|ops| - 1];
      var m := ApplyAll(s, init);
      EffectOfRun(s, init, x);
      RunTable(s, init);
      GrowsAll(s, init);
      if !last.SetOptions? && last.id == x {
        OwnEffect(m, last);
        EffectAfterSame(s, m, last, Apply(m, last));
      } else {
        NoEffect(m, last, x);
        if About(init, x) != [] {
          EffectThenSame(s, About(init, x)[0], m, Apply(m, last));
        }
      }
    }
  }

  // ----- The update of each id in a refresh -----

  ghost function Wanted(from: Profile, to: Profile, x: Id): seq<Op> {
    if x !in to.sdks then if x in from.sdks then [Delete(x)] else []
    else if x !in from.sdks then [Add(x, to.sdks[x])]
    else if from.options != to.options || from.sdks[x].key1 != to.sdks[x].key1 then [Reset(x, to.sdks[x])]
    else [Touch(x, to.sdks[x])]
  }

  lemma {:induction false} AboutNone(ops: seq<Op>, x: Id)
    requires forall i :: 0 <= i < |ops| ==> ops[i].SetOptions? || ops[i].id != x
    ensures About(ops, x) == []
  {
    if ops != [] {
      AboutNone(ops[..|ops| - 1], x);
    }
  }

  /** With each id at most once, the only update about `x` is the one at its place. */
  lemma {:induction false} AboutOne(ops: seq<Op>, n: nat, x: Id)
    requires n < |ops| && !ops[n].SetOptions? && ops[n].id == x
    requires forall i :: 0 <= i < |ops| && i != n ==> ops[i].SetOptions? || ops[i].id != x
    ensures About(ops, x) == [ops[n]]
  {
    if n == |ops| - 1 {
      AboutNone(ops[..n], x);
    } else {
      AboutOne(ops[..|ops| - 1], n, x);
    }
  }

  lemma AboutUpdates(ops: seq<Op>, ids: seq<Id>, x: Id)
    requires |ops| == |ids| && NoDup(ids)
    requires forall i :: 0 <= i < |ids| ==> !ops[i].SetOptions? && ops[i].id == ids[i]
    ensures x !in Elems(ids) ==> About(ops, x) == []
    ensures forall i :: 0 <= i < |ids| && ids[i] == x ==> About(ops, x) == [ops[i]]
  {
    if x in Elems(ids) {
      var i :| 0 <= i < |ids| && ids[i] == x;
      AboutOne(ops, i, x);
    } else {
      forall i | 0 <= i < |ids|
        ensures ops[i].id != x
      {
        assert ids[i] in Elems(ids);
      }
      AboutNone(ops, x);
    }
  }

  lemma OptionsAbout(s: State, p: Profile, x: Id)
    ensures About(NewOptions(s, p), x) == []
  {
  }

  lemma AboutDeletes(ids: seq<Id>, x: Id)
    requires NoDup(ids)
    ensures About(Deletes(ids), x) == if x in Elems(ids) then [Delete(x)] else []
  {
    AboutUpdates(Deletes(ids), ids, x);
    if x in Elems(ids) {
      var i :| 0 <= i < |ids| && ids[i] == x;
    }
  }

  lemma AboutAdds(ids: seq<Id>, sdks: map<Id, SdkModel>, x: Id)
    requires NoDup(ids) && Elems(ids) <= sdks.Keys
    ensures About(Adds(ids, sdks), x) == if x in Elems(ids) then [Add(x, sdks[x])] else []
  {
    AboutUpdates(Adds(ids, sdks), ids, x);
    if x in Elems(ids) {
      var i :| 0 <= i < |ids| && ids[i] == x;
    }
  }

  lemma AboutFour(a: seq<Op>, b: seq<Op>, c: seq<Op>, d: seq<Op>, x: Id)
    ensures About(a + b + c + d, x) == About(a, x) + About(b, x) + About(c, x) + About(d, x)
  {
    AboutConcat(a + b + c, d, x);
    AboutConcat(a + b, c, x);
    AboutConcat(a, b, x);
  }

  lemma PlanAbout(s: State, p: Profile, existing: seq<Id>, remote: seq<Id>, x: Id)
    requires s.InRange()
    requires Enumerates(existing, s.byId.Keys) && Enumerates(remote, p.sdks.Keys)
    ensures About(Plan(s, p, existing, remote), x) == Wanted(Served(s), p, x)
  {
    SurvivorIds(s, p, existing, remote);
    var remaining, toAdd, toDelete := Remaining(existing, remote), Except(remote, existing), Except(existing, remote);
    var dels, opts, ups, adds := Deletes(toDelete), NewOptions(s, p), Updates(s, p, remaining), Adds(toAdd, p.sdks);
    AboutFour(dels, opts, ups, adds, x);
    OptionsAbout(s, p, x);
    AboutDeletes(toDelete, x);
    AboutAdds(toAdd, p.sdks, x);
    UpdatesAbout(s, p, existing, remote, x);
    JoinEmpty(About(dels, x), About(ups, x), About(adds, x));
  }

  lemma {:induction false} UpdatesAbout(s: State, p: Profile, existing: seq<Id>, remote: seq<Id>, x: Id)
    requires s.InRange()
    requires Enumerates(existing, s.byId.Keys) && Enumerates(remote, p.sdks.Keys)
    requires Elems(Remaining(existing, remote)) <= p.sdks.Keys
    ensures About(Updates(s, p, Remaining(existing, remote)), x)
         == if x in s.byId && x in p.sdks then Wanted(Served(s), p, x) else []
  {
    var remaining := Remaining(existing, remote);
    var order, ups := UpdateOrder(s, p, remaining), Updates(s, p, remaining);
    SurvivorIds(s, p, existing, remote);
    OrderEnumerates(s, p, existing, remote);
    UpdatesPut(s, p, remaining);
    assert forall i :: 0 <= i < |order| ==> PutsRow(ups[i], order[i], p.sdks);
    AboutUpdates(ups, order, x);
    assert Elems(order) == s.byId.Keys * p.sdks.Keys;
    if x in Elems(order) {
      var i :| 0 <= i < |order| && order[i] == x;
      UpdateWanted(s, p, remaining, i);
    }
  }

  lemma UpdateWanted(s: State, p: Profile, remaining: seq<Id>, i: nat)
    requires s.InRange() && Elems(remaining) <= p.sdks.Keys && i < |Updates(s, p, remaining)|
    requires i < |UpdateOrder(s, p, remaining)| && UpdateOrder(s, p, remaining)[i] in s.byId
    ensures [Updates(s, p, remaining)[i]] == Wanted(Served(s), p, UpdateOrder(s, p, remaining)[i])
  {
    UpdatesPut(s, p, remaining);
    UpdateKind(s, p, remaining, i);
    assert PutsRow(Updates(s, p, remaining)[i], UpdateOrder(s, p, remaining)[i], p.sdks);
  }

  lemma UpdateKind(s: State, p: Profile, remaining: seq<Id>, i: nat)
    requires s.InRange() && Elems(remaining) <= p.sdks.Keys && i < |Updates(s, p, remaining)|
    ensures var op := Updates(s, p, remaining)[i];
            op.Touch? <==> s.options == p.options && op.id in s.Table() && s.Table()[op.id].key1 == op.sdk.key1
  {
    UpdatesPut(s, p, remaining);
    var same, rekeyed := ByPrimary(remaining, s.Table(), p.sdks, false), ByPrimary(remaining, s.Table(), p.sdks, true);
    ByPrimaryElems(remaining, s.Table(), p.sdks, false);
    ByPrimaryElems(remaining, s.Table(), p.sdks, true);
    if s.options == p.options && i >= |same| {
      assert rekeyed[i - |same|] in rekeyed;
    }
  }

  /** `x` was added, removed, rebuilt, or got another secondary key. */
  ghost predicate Changed(from: Profile, to: Profile, x: Id) {
    || ((x in from.sdks) != (x in to.sdks))
    || (x in from.sdks && (from.options != to.options || from.sdks[x] != to.sdks[x]))
  }

  ghost predicate Rebuilt(from: Profile, to: Profile, x: Id) {
    x in from.sdks && x in to.sdks && (from.options != to.options || from.sdks[x].key1 != to.sdks[x].key1)
  }

  /** One refresh announces each changed id exactly once and no other; an id that is not
      rebuilt keeps its client object, and an unchanged one keeps it unmodified. The reporter is
      told of each removed, added and rebuilt id once, and with the new client's configuration. */
  lemma RefreshEffect(s: State, p: Profile, existing: seq<Id>, remote: seq<Id>, x: Id)
    requires s.InRange() && Ledger(s) && DistinctKeys(p.sdks)
    requires Enumerates(existing, s.byId.Keys) && Enumerates(remote, p.sdks.Keys)
    ensures var r, from := Refresh(s, p, existing, remote), Served(s);
            && s.published <= r.published
            && Announced(r, x) == Announced(s, x) + (if Changed(from, p, x) then 1 else 0)
            && (!Changed(from, p, x) && x in s.byId ==>
                  x in r.byId && r.byId[x] == s.byId[x] && r.ClientOf(x) == s.ClientOf(x))
            && (x in s.byId && x in p.sdks && !Rebuilt(from, p, x) ==> x in r.byId && r.byId[x] == s.byId[x])
            && (Rebuilt(from, p, x) ==> x in r.byId && r.byId[x] >= |s.clients|)
            && Told(r.calls, x) == Told(s.calls, x) + (
                 if x in s.byId && x !in p.sdks then [RemoveSdk(x)]
                 else if x in r.byId && x !in s.byId then [RegisterSdk(x, r.ClientOf(x).conf)]
                 else if x in r.byId && Rebuilt(from, p, x) then [UpdateSdk(x, r.ClientOf(x).conf)]
                 else [])
  {
    var ops := Plan(s, p, existing, remote);
    PlanTable(s, p, existing, remote);
    PlanAbout(s, p, existing, remote, x);
    EffectOfRun(s, ops, x);
    GrowsAll(s, ops);
    assert x in s.byId ==> Served(s).sdks[x] == s.ClientOf(x).Sdk();
  }

  // ----- What the status reporter is told -----

  /** The configuration last told for each registered id, replaying the reporter calls; updating
      an id that is not registered would crash the reporter. */
  function Shown(calls: seq<ReporterCall>): Option<map<Id, SdkConfig>> {
    if calls == [] then Some(map[])
    else
      var before := Shown(calls[..|calls| - 1]);
      if before.None? then None
      else
        match calls[|calls| - 1]
        case RegisterSdk(id, conf) => Some(before.value[id := conf])
        case UpdateSdk(id, conf) => if id in before.value then Some(before.value[id := conf]) else None
        case RemoveSdk(id) => Some(before.value - {id})
  }

  ghost function Confs(s: State): map<Id, SdkConfig>
    requires s.InRange()
  {
    map id | id in s.byId :: s.ClientOf(id).conf
  }

  /** Whenever the reporter is told a configuration, it is online or offline as the proxy says. */
  ghost predicate CallsFollow(conf: ProxyConf, calls: seq<ReporterCall>) {
    forall i :: 0 <= i < |calls| && !calls[i].RemoveSdk? ==> OfflineAs(conf, calls[i].id, calls[i].conf.offline)
  }

  ghost predicate ReporterInStep(s: State)
    requires s.InRange()
  {
    Shown(s.calls) == Some(Confs(s)) && CallsFollow(s.conf, s.calls)
  }

  lemma ShownSnoc(calls: seq<ReporterCall>, c: ReporterCall)
    requires Shown(calls).Some?
    ensures var m := Shown(calls).value;
            Shown(calls + [c]) ==
              match c
              case RegisterSdk(id, conf) => Some(m[id := conf])
              case UpdateSdk(id, conf) => if id in m then Some(m[id := conf]) else None
              case RemoveSdk(id) => Some(m - {id})
  {
  }

  ghost function ConfsAfter(s: State, op: Op): map<Id, SdkConfig>
    requires s.InRange()
  {
    match op
    case Delete(id) => Confs(s) - {id}
    case Touch(_, _) => Confs(s)
    case SetOptions(_) => Confs(s)
    case _ => Confs(s)[op.id := Build(s, op.id, op.sdk).conf]
  }

  lemma StepConfAt(s: State, op: Op, id: Id)
    requires s.InRange() && Enabled(s.Table(), op)
    ensures id in Apply(s, op).byId <==> id in ConfsAfter(s, op)
    ensures id in Apply(s, op).byId ==>
              Apply(s, op).ClientOf(id).conf == ConfsAfter(s, op)[id]
  {
    if op.SetOptions? || id != op.id {
      NoEffect(s, op, id);
    } else {
      OwnEffect(s, op);
    }
  }

  lemma {:induction false} StepConfs(s: State, op: Op)
    requires s.InRange() && Enabled(s.Table(), op)
    ensures Confs(Apply(s, op)) == ConfsAfter(s, op)
  {
    var a, b := Confs(Apply(s, op)), ConfsAfter(s, op);
    forall id
      ensures id in a <==> id in b
      ensures id in a ==> a[id] == b[id]
    {
      StepConfAt(s, op, id);
    }
  }

  lemma StepCalls(s: State, op: Op)
    requires s.InRange() && CallsFollow(s.conf, s.calls)
    ensures CallsFollow(s.conf, Apply(s, op).calls)
  {
    hide BuildSdkConfig, OfflineAs;
    if op.Reset? || op.Add? {
      BuiltRunsAs(s.conf, s.options, op.id, op.sdk.key1);
    }
  }

  lemma StepReporter(s: State, op: Op)
    requires s.InRange() && ReporterInStep(s) && Enabled(s.Table(), op)
    ensures ReporterInStep(Apply(s, op))
  {
    hide CallsFollow;
    StepConfs(s, op);
    StepCalls(s, op);
    assert op.Delete? || op.Touch? || op.Reset? ==> op.id in s.Table();
    match op
    case Delete(id) => ShownSnoc(s.calls, RemoveSdk(id));
    case Reset(id, sdk) => ShownSnoc(s.calls, UpdateSdk(id, Build(s, id, sdk).conf));
    case Add(id, sdk) => ShownSnoc(s.calls, RegisterSdk(id, Build(s, id, sdk).conf));
    case _ =>
  }

  lemma {:induction false} RunReporter(s: State, ops: seq<Op>)
    requires s.InRange() && Ledger(s) && ReporterInStep(s) && EnabledAll(s.Table(), ops)
    ensures ReporterInStep(ApplyAll(s, ops))
  {
    if ops != [] {
      RunReporter(s, ops[..|ops| - 1]);
      RunTable(s, ops[..|ops| - 1]);
      StepReporter(ApplyAll(s, ops[..|ops| - 1]), ops[|ops| - 1]);
    }
  }

  lemma {:induction false} RoundsKeepReporter(s: State, rounds: seq<Round>)
    requires s.InRange() && Ledger(s) && ReporterInStep(s) && Listed(s, rounds)
    requires forall i :: 0 <= i < |rounds| ==> DistinctKeys(rounds[i].profile.sdks)
    ensures ReporterInStep(RunRounds(s, rounds)) && Ledger(RunRounds(s, rounds))
    ensures RunRounds(s, rounds).conf == s.conf
    decreases |rounds|
  {
    if rounds != [] {
      var r := rounds[0];
      PlanTable(s, r.profile, r.existing, r.remote);
      RunTable(s, Plan(s, r.profile, r.existing, r.remote));
      RunReporter(s, Plan(s, r.profile, r.existing, r.remote));
      KeepsConf(s, Plan(s, r.profile, r.existing, r.remote));
      RoundsKeepReporter(Refresh(s, r.profile, r.existing, r.remote), rounds[1..]);
    }
  }

  lemma UnannouncedReporter(s: State, published: seq<Id>)
    requires s.InRange() && ReporterInStep(s)
    ensures ReporterInStep(s.(published := published))
  {
    assert Confs(s.(published := published)) == Confs(s);
  }

  lemma ConstructReporter(conf: ProxyConf, first: Profile, order: seq<Id>)
    requires DistinctKeys(first.sdks) && Enumerates(order, first.sdks.Keys)
    ensures ReporterInStep(Construct(conf, first, order)) && Ledger(Construct(conf, first, order))
  {
    var e, adds := Empty(conf, first.options), Adds(order, first.sdks);
    assert e.Table() == map[] && Confs(e) == map[];
    AddsSound(conf, first, order);
    RunReporter(e, adds);
    UnannouncedReporter(ApplyAll(e, adds), []);
    ConstructMirrors(conf, first, order);
  }

  /** Through construction and any run of refreshes the reporter is never asked to update an
      id it does not know, and what it was last told of exactly the live ids is the whole
      configuration of their current clients. */
  lemma {:induction false} ReporterMirrorsRegistrar(conf: ProxyConf, first: Profile, order: seq<Id>, rounds: seq<Round>)
    requires DistinctKeys(first.sdks) && Enumerates(order, first.sdks.Keys)
    requires Listed(Construct(conf, first, order), rounds)
    requires forall i :: 0 <= i < |rounds| ==> DistinctKeys(rounds[i].profile.sdks)
    ensures ReporterInStep(RunRounds(Construct(conf, first, order), rounds))
    ensures Ledger(RunRounds(Construct(conf, first, order), rounds))
    ensures RunRounds(Construct(conf, first, order), rounds).conf == conf
  {
    ConstructReporter(conf, first, order);
    ConstructMirrors(conf, first, order);
    RoundsKeepReporter(Construct(conf, first, order), rounds);
  }
}
