/** One refresh brings the registrar exactly to the profile, and every run of refreshes ends
    where construction from the latest profile alone would start. */
module Reconcile {
  import opened Common
  import opened ProfileModel
  import opened Registrar
  import opened RegistrarRuns

  /** The registrar serves exactly `p`, with exact index and ledger. */
  ghost predicate Mirrors(s: State, p: Profile) {
    Sound(s) && s.Table() == p.sdks && s.options == p.options && Configured(s, s.byId.Keys)
  }

  // ----- The table along a refresh -----

  ghost function Survivors(s: State, existing: seq<Id>, remote: seq<Id>): map<Id, SdkModel>
    requires s.InRange()
  {
    s.Table() - Elems(Except(existing, remote))
  }

  lemma {:induction false} SurvivorIds(s: State, p: Profile, existing: seq<Id>, remote: seq<Id>)
    requires s.InRange() && Enumerates(existing, s.byId.Keys) && Enumerates(remote, p.sdks.Keys)
    ensures Enumerates(Remaining(existing, remote), s.byId.Keys * p.sdks.Keys)
    ensures Survivors(s, existing, remote).Keys == s.byId.Keys * p.sdks.Keys
    ensures NoDup(Except(remote, existing)) && Elems(Except(remote, existing)) == p.sdks.Keys - s.byId.Keys
    ensures NoDup(Except(existing, remote)) && Elems(Except(existing, remote)) == s.byId.Keys - p.sdks.Keys
  {
    ExceptElems(remote, existing);
    ExceptElems(existing, remote);
    ExceptElems(remote, Except(remote, existing));
  }

  lemma OrderEnumerates(s: State, p: Profile, existing: seq<Id>, remote: seq<Id>)
    requires s.InRange() && Enumerates(existing, s.byId.Keys) && Enumerates(remote, p.sdks.Keys)
    ensures Enumerates(UpdateOrder(s, p, Remaining(existing, remote)), Survivors(s, existing, remote).Keys)
  {
    SurvivorIds(s, p, existing, remote);
    var remaining := Remaining(existing, remote);
    ByPrimaryElems(remaining, s.Table(), p.sdks, false);
    ByPrimaryElems(remaining, s.Table(), p.sdks, true);
    var same := ByPrimary(remaining, s.Table(), p.sdks, false);
    var rekeyed := ByPrimary(remaining, s.Table(), p.sdks, true);
    if s.options == p.options {
      assert Elems(same + rekeyed) == Elems(same) + Elems(rekeyed) == Elems(remaining);
      forall i, j | 0 <= i < j < |same + rekeyed|
        ensures (same + rekeyed)[i] != (same + rekeyed)[j]
      {
        if i < |same| <= j {
          assert same[i] in same && rekeyed[j - |same|] in rekeyed;
        }
      }
    }
  }

  lemma UpdatesPut(s: State, p: Profile, remaining: seq<Id>)
    requires s.InRange() && Elems(remaining) <= p.sdks.Keys
    ensures Puts(Updates(s, p, remaining), UpdateOrder(s, p, remaining), p.sdks)
    ensures forall i :: 0 <= i < |Updates(s, p, remaining)| ==>
              var op := Updates(s, p, remaining)[i];
              op.Reset? || (op.Touch? && op.id in s.Table() && s.Table()[op.id].key1 == op.sdk.key1)
  {
    ByPrimaryElems(remaining, s.Table(), p.sdks, false);
    ByPrimaryElems(remaining, s.Table(), p.sdks, true);
    var ops, order := Updates(s, p, remaining), UpdateOrder(s, p, remaining);
    forall i | 0 <= i < |order|
      ensures PutsRow(ops[i], order[i], p.sdks)
    {
      assert order[i] in Elems(order);
      assert order[i] in remaining;
    }
  }

  lemma {:induction false} UpdatesRun(s: State, p: Profile, existing: seq<Id>, remote: seq<Id>)
    requires s.InRange() && DistinctKeys(p.sdks)
    requires Enumerates(existing, s.byId.Keys) && Enumerates(remote, p.sdks.Keys)
    requires Elems(Remaining(existing, remote)) <= p.sdks.Keys
    ensures var t1, ups := Survivors(s, existing, remote), Updates(s, p, Remaining(existing, remote));
            && EnabledAll(t1, ups)
            && TableAll(t1, ups) == Rows(p.sdks, t1.Keys)
            && (ClashFree(s.Table(), p.sdks, UpdateOrder(s, p, Remaining(existing, remote))) ==> FitsAll(t1, ups))
  {
    var t1, remaining := Survivors(s, existing, remote), Remaining(existing, remote);
    var ups, order := Updates(s, p, remaining), UpdateOrder(s, p, remaining);
    SurvivorIds(s, p, existing, remote);
    OrderEnumerates(s, p, existing, remote);
    UpdatesPut(s, p, remaining);
    PutsTable(t1, ups, order, p.sdks);
    assert t1 + Rows(p.sdks, Elems(order)) == Rows(p.sdks, t1.Keys);
    forall i | 0 <= i < |order|
      ensures !ups[i].Add? && Enabled(t1, ups[i])
    {
      assert PutsRow(ups[i], order[i], p.sdks) && order[i] in Elems(order);
    }
    UpdatesEnabled(t1, ups, order, p.sdks);
    if ClashFree(s.Table(), p.sdks, order) {
      assert ClashFree(t1, p.sdks, order);
      UpdatesFit(t1, ups, order, p.sdks, |order|);
      TakeAll(ups);
    }
  }

  lemma FourSegments(t: map<Id, SdkModel>, t1: map<Id, SdkModel>, t2: map<Id, SdkModel>, t3: map<Id, SdkModel>,
                     a: seq<Op>, b: seq<Op>, c: seq<Op>, d: seq<Op>)
    requires TableAll(t, a) == t1 && TableAll(t1, b) == t1 && TableAll(t1, c) == t2 && TableAll(t2, d) == t3
    requires EnabledAll(t, a) && EnabledAll(t1, b) && EnabledAll(t1, c) && EnabledAll(t2, d)
    ensures TableAll(t, a + b + c + d) == t3 && EnabledAll(t, a + b + c + d)
    ensures FitsAll(t, a) && FitsAll(t1, b) && FitsAll(t1, c) && FitsAll(t2, d) ==> FitsAll(t, a + b + c + d)
  {
    TableConcat(t, a, b);
    TableConcat(t, a + b, c);
    TableConcat(t, a + b + c, d);
  }

  lemma RowsSplit(sdks: map<Id, SdkModel>, ids: set<Id>)
    ensures Rows(sdks, ids * sdks.Keys) + Rows(sdks, sdks.Keys - ids) == sdks
  {
  }

  lemma NoTableChange(t: map<Id, SdkModel>, s: State, p: Profile)
    ensures TableAll(t, NewOptions(s, p)) == t && EnabledAll(t, NewOptions(s, p)) && FitsAll(t, NewOptions(s, p))
  {
    if s.options != p.options {
      var ops := NewOptions(s, p);
      assert ops[..|ops| - 1] == [] && ops[|ops| - 1].SetOptions?;
      assert TableAll(t, []) == t && EnabledAll(t, []) && FitsAll(t, []);
    }
  }

  /** Every update of a refresh is one the registrar can carry out, and together they turn
      the served table into the profile, whatever the listing orders. */
  lemma {:induction false} PlanTable(s: State, p: Profile, existing: seq<Id>, remote: seq<Id>)
    requires s.InRange() && DistinctKeys(p.sdks)
    requires Enumerates(existing, s.byId.Keys) && Enumerates(remote, p.sdks.Keys)
    ensures EnabledAll(s.Table(), Plan(s, p, existing, remote))
    ensures TableAll(s.Table(), Plan(s, p, existing, remote)) == p.sdks
    ensures ClashFree(s.Table(), p.sdks, UpdateOrder(s, p, Remaining(existing, remote))) ==>
              FitsAll(s.Table(), Plan(s, p, existing, remote))
  {
    hide TableAll, EnabledAll, FitsAll, ClashFree, DistinctKeys, Except;
    var t, t1 := s.Table(), Survivors(s, existing, remote);
    var t2 := Rows(p.sdks, t1.Keys);
    var toAdd, toDelete := Except(remote, existing), Except(existing, remote);
    SurvivorIds(s, p, existing, remote);
    var dels, opts := Deletes(toDelete), NewOptions(s, p);
    var ups, adds := Updates(s, p, Remaining(existing, remote)), Adds(toAdd, p.sdks);
    assert Plan(s, p, existing, remote) == dels + opts + ups + adds;
    assert TableAll(t, dels) == t1 && EnabledAll(t, dels) && FitsAll(t, dels) by {
      DeletesRun(t, toDelete);
    }
    NoTableChange(t1, s, p);
    UpdatesRun(s, p, existing, remote);
    assert TableAll(t2, adds) == p.sdks && EnabledAll(t2, adds) && FitsAll(t2, adds) by {
      AddsRun(t2, toAdd, p.sdks);
      RowsSplit(p.sdks, s.byId.Keys);
    }
    FourSegments(t, t1, t2, p.sdks, dels, opts, ups, adds);
  }

  // ----- Options -----

  /** The ids whose client certainly carries the current options after `op`. */
  ghost function ConfiguredAfter(ids: set<Id>, op: Op): set<Id> {
    match op
    case SetOptions(_) => {}
    case Reset(id, _) => ids + {id}
    case Add(id, _) => ids + {id}
    case _ => ids
  }

  ghost function ConfiguredAll(ids: set<Id>, ops: seq<Op>): set<Id> {
    if ops == [] then ids else ConfiguredAfter(ConfiguredAll(ids, ops[..|ops| - 1]), ops[|ops| - 1])
  }

  lemma {:induction false} ConfiguredStep(s: State, op: Op, ids: set<Id>)
    requires s.InRange() && Configured(s, ids) && Enabled(s.Table(), op)
    ensures Configured(Apply(s, op), ConfiguredAfter(ids, op))
  {
    hide DropKeys, StoreKeys, RunsAs, BuildSdkConfig;
    var r := Apply(s, op);
    if !op.SetOptions? {
      forall id | id in ConfiguredAfter(ids, op) && id in r.byId
        ensures RunsAs(r.conf, r.options, id, r.ClientOf(id).conf)
      {
        if id != op.id {
          assert id in ids && id in s.byId && r.ClientOf(id) == s.ClientOf(id);
        } else if op.Reset? || op.Add? {
          BuiltRunsAs(s.conf, s.options, id, op.sdk.key1);
        }
      }
    }
  }

  lemma {:induction false} RunConfigured(s: State, ops: seq<Op>, ids: set<Id>)
    requires s.InRange() && Ledger(s) && Configured(s, ids) && EnabledAll(s.Table(), ops)
    ensures Configured(ApplyAll(s, ops), ConfiguredAll(ids, ops))
  {
    if ops != [] {
      RunConfigured(s, ops[..|ops| - 1], ids);
      RunTable(s, ops[..|ops| - 1]);
      ConfiguredStep(ApplyAll(s, ops[..|ops| - 1]), ops[|ops| - 1], ConfiguredAll(ids, ops[..|ops| - 1]));
    }
  }

  lemma {:induction false} ConfiguredConcat(ids: set<Id>, a: seq<Op>, b: seq<Op>)
    ensures ConfiguredAll(ids, a + b) == ConfiguredAll(ConfiguredAll(ids, a), b)
  {
    if b == [] {
      assert a + b == a;
    } else {
      assert (a + b)[..|a + b| - 1] == a + b[..|b| - 1];
      ConfiguredConcat(ids, a, b[..|b| - 1]);
    }
  }

  /** Without an options change, ids only join. */
  lemma {:induction false} ConfiguredGrows(ids: set<Id>, ops: seq<Op>)
    requires forall i :: 0 <= i < |ops| ==> !ops[i].SetOptions?
    ensures ids <= ConfiguredAll(ids, ops)
    ensures forall i :: 0 <= i < |ops| && (ops[i].Reset? || ops[i].Add?) ==> ops[i].id in ConfiguredAll(ids, ops)
  {
    if ops != [] {
      ConfiguredGrows(ids, ops[..|ops| - 1]);
    }
  }

  lemma ConfiguredFour(ids: set<Id>, a: seq<Op>, b: seq<Op>, c: seq<Op>, d: seq<Op>)
    ensures ConfiguredAll(ids, a + b + c + d) ==
            ConfiguredAll(ConfiguredAll(ConfiguredAll(ConfiguredAll(ids, a), b), c), d)
  {
    ConfiguredConcat(ids, a + b + c, d);
    ConfiguredConcat(ids, a + b, c);
    ConfiguredConcat(ids, a, b);
  }

  /** What resets and additions configure, and what deletions and other updates leave configured. */
  lemma SegmentConfigures(ids: set<Id>, ops: seq<Op>, names: seq<Id>, id: Id)
    requires |ops| == |names| && id in names
    requires forall i :: 0 <= i < |ops| ==> (ops[i].Reset? || ops[i].Add?) && ops[i].id == names[i]
    ensures id in ConfiguredAll(ids, ops)
  {
    var i :| 0 <= i < |names| && names[i] == id;
    ConfiguredGrows(ids, ops);
    assert ops[i].id in ConfiguredAll(ids, ops);
  }

  lemma {:induction false} SegmentsConfigure(s: State, p: Profile, existing: seq<Id>, remote: seq<Id>)
    requires s.InRange()
    requires Enumerates(existing, s.byId.Keys) && Enumerates(remote, p.sdks.Keys)
    ensures p.sdks.Keys <= ConfiguredAll(s.byId.Keys, Plan(s, p, existing, remote))
  {
    SurvivorIds(s, p, existing, remote);
    var remaining, toAdd := Remaining(existing, remote), Except(remote, existing);
    var dels, opts := Deletes(Except(existing, remote)), NewOptions(s, p);
    var ups, adds := Updates(s, p, remaining), Adds(toAdd, p.sdks);
    ConfiguredFour(s.byId.Keys, dels, opts, ups, adds);
    var c1 := ConfiguredAll(s.byId.Keys, dels);
    var c2 := ConfiguredAll(c1, opts);
    var c3 := ConfiguredAll(c2, ups);
    ConfiguredGrows(s.byId.Keys, dels);
    UpdatesPut(s, p, remaining);
    ConfiguredGrows(c2, ups);
    ConfiguredGrows(c3, adds);
    forall id | id in p.sdks
      ensures id in ConfiguredAll(c3, adds)
    {
      if id in s.byId && s.options != p.options {
        assert id in Elems(remaining);
        SegmentConfigures(c2, ups, remaining, id);
      } else if id !in s.byId {
        assert id in Elems(toAdd);
        SegmentConfigures(c3, adds, toAdd, id);
      }
    }
  }

  lemma {:induction false} KeepsConf(s: State, ops: seq<Op>)
    requires s.InRange()
    ensures ApplyAll(s, ops).conf == s.conf
  {
    if ops != [] {
      KeepsConf(s, ops[..|ops| - 1]);
    }
  }

  lemma {:induction false} KeepsOptions(s: State, ops: seq<Op>)
    requires s.InRange() && forall i :: 0 <= i < |ops| ==> !ops[i].SetOptions?
    ensures ApplyAll(s, ops).options == s.options && ApplyAll(s, ops).conf == s.conf
  {
    KeepsConf(s, ops);
    if ops != [] {
      KeepsOptions(s, ops[..|ops| - 1]);
    }
  }

  lemma OptionsArrive(s: State, p: Profile, dels: seq<Op>)
    requires s.InRange() && forall i :: 0 <= i < |dels| ==> !dels[i].SetOptions?
    ensures ApplyAll(s, dels + NewOptions(s, p)).options == p.options
  {
    KeepsOptions(s, dels);
    if s.options != p.options {
      assert (dels + NewOptions(s, p))[..|dels| + 1 - 1] == dels;
    } else {
      assert dels + NewOptions(s, p) == dels;
    }
  }

  lemma RefreshOptions(s: State, p: Profile, existing: seq<Id>, remote: seq<Id>)
    requires s.InRange()
    requires Enumerates(existing, s.byId.Keys) && Enumerates(remote, p.sdks.Keys)
    ensures Refresh(s, p, existing, remote).options == p.options && Refresh(s, p, existing, remote).conf == s.conf
  {
    hide Apply;
    SurvivorIds(s, p, existing, remote);
    var remaining, toAdd := Remaining(existing, remote), Except(remote, existing);
    var dels, opts := Deletes(Except(existing, remote)), NewOptions(s, p);
    var ups, adds := Updates(s, p, remaining), Adds(toAdd, p.sdks);
    UpdatesPut(s, p, remaining);
    OptionsArrive(s, p, dels);
    KeepsConf(s, Plan(s, p, existing, remote));
    var m := ApplyAll(s, dels + opts);
    KeepsOptions(m, ups);
    ApplyConcat(s, dels + opts, ups);
    KeepsOptions(ApplyAll(m, ups), adds);
    ApplyConcat(s, dels + opts + ups, adds);
  }

  /** Also when keys are taken over: every client runs as its profile and the proxy's own
      configuration say. */
  lemma RefreshConfigured(s: State, p: Profile, existing: seq<Id>, remote: seq<Id>)
    requires s.InRange() && Ledger(s) && DistinctKeys(p.sdks) && Configured(s, s.byId.Keys)
    requires Enumerates(existing, s.byId.Keys) && Enumerates(remote, p.sdks.Keys)
    ensures var r := Refresh(s, p, existing, remote);
            && r.byId.Keys == p.sdks.Keys
            && forall id :: id in p.sdks ==> RunsAs(s.conf, p.options, id, r.ClientOf(id).conf)
  {
    PlanTable(s, p, existing, remote);
    SegmentsConfigure(s, p, existing, remote);
    RunTable(s, Plan(s, p, existing, remote));
    RunConfigured(s, Plan(s, p, existing, remote), s.byId.Keys);
    RefreshOptions(s, p, existing, remote);
    var r := Refresh(s, p, existing, remote);
    assert r.byId.Keys == r.Table().Keys;
  }

  // ----- Reconciliation -----

  /** A refresh whose key takeovers are ordered well ends exactly at the profile. */
  lemma RefreshMirrors(s: State, p: Profile, existing: seq<Id>, remote: seq<Id>)
    requires Sound(s) && Configured(s, s.byId.Keys) && DistinctKeys(p.sdks)
    requires Enumerates(existing, s.byId.Keys) && Enumerates(remote, p.sdks.Keys)
    requires ClashFree(s.Table(), p.sdks, UpdateOrder(s, p, Remaining(existing, remote)))
    ensures Mirrors(Refresh(s, p, existing, remote), p)
  {
    PlanTable(s, p, existing, remote);
    RunSound(s, Plan(s, p, existing, remote));
    RefreshConfigured(s, p, existing, remote);
    RefreshOptions(s, p, existing, remote);
    var r := Refresh(s, p, existing, remote);
    assert r.byId.Keys == r.Table().Keys;
  }

  // ----- What goes wrong otherwise -----

  /** Updating an id takes away its old keys that it does not keep, whoever holds them. */
  lemma UpdateDropsKey(s: State, op: Op, k: Key)
    requires s.InRange() && (op.Touch? || op.Reset?) && Enabled(s.Table(), op)
    requires s.ClientOf(op.id).Has(k) && !op.sdk.Has(k)
    ensures k !in Apply(s, op).byKey
  {
    assert s.Table()[op.id] == s.ClientOf(op.id).Sdk();
  }

  lemma AbsentKeyStays(s: State, op: Op, k: Key)
    requires s.InRange() && k != "" && k !in s.byKey && (op.Delete? || op.SetOptions? || !op.sdk.Has(k))
    ensures k !in Apply(s, op).byKey
  {
  }

  lemma {:induction false} AbsentKeyStaysAll(s: State, ops: seq<Op>, k: Key)
    requires s.InRange() && k != "" && k !in s.byKey
    requires forall op :: op in ops ==> op.Delete? || op.SetOptions? || !op.sdk.Has(k)
    ensures k !in ApplyAll(s, ops).byKey
  {
    if ops != [] {
      assert ops == ops[..|ops| - 1] + [ops[|ops| - 1]];
      AbsentKeyStaysAll(s, ops[..|ops| - 1], k);
      AbsentKeyStays(ApplyAll(s, ops[..|ops| - 1]), ops[|ops| - 1], k);
    }
  }

  /** `ops` are updates of served ids, each once, that `m` can carry out. */
  ghost predicate Ready(m: State, ops: seq<Op>, ids: seq<Id>, sdks: map<Id, SdkModel>) {
    && m.InRange() && Ledger(m) && Puts(ops, ids, sdks) && NoDup(ids)
    && forall i :: 0 <= i < |ids| ==> !ops[i].Add? && Enabled(m.Table(), ops[i])
  }

  lemma {:induction false} PrefixTable(m: State, ops: seq<Op>, ids: seq<Id>, sdks: map<Id, SdkModel>, j: nat)
    requires Ready(m, ops, ids, sdks) && j < |ids|
    ensures ApplyAll(m, ops[..j]).Table() == m.Table() + Rows(sdks, Elems(ids[..j])) && ids[j] !in Elems(ids[..j])
  {
    hide TableAll, EnabledAll, ApplyAll;
    PutsTable(m.Table(), ops[..j], ids[..j], sdks);
    UpdatesEnabled(m.Table(), ops[..j], ids[..j], sdks);
    RunTable(m, ops[..j]);
  }

  lemma {:induction false} HolderLosesKey(m: State, ops: seq<Op>, ids: seq<Id>, sdks: map<Id, SdkModel>, j: nat, k: Key)
    requires Ready(m, ops, ids, sdks) && j < |ids|
    requires ids[j] in m.byId && m.ClientOf(ids[j]).Has(k) && ids[j] in sdks && !sdks[ids[j]].Has(k)
    ensures k !in ApplyAll(m, ops[..j + 1]).byKey
  {
    hide TableAll, EnabledAll, ClashFree, Apply;
    PrefixTable(m, ops, ids, sdks, j);
    var n := ApplyAll(m, ops[..j]);
    assert ids[j] in n.Table() && n.Table()[ids[j]] == m.Table()[ids[j]];
    assert PutsRow(ops[j], ids[j], sdks) && Enabled(m.Table(), ops[j]);
    assert ops[..j + 1][..j] == ops[..j];
    UpdateDropsKey(n, ops[j], k);
  }

  lemma {:induction false} UpdatesLoseKey(
      m: State, ops: seq<Op>, ids: seq<Id>, sdks: map<Id, SdkModel>, j: nat, k: Key, n: nat)
    requires Ready(m, ops, ids, sdks) && j < n <= |ids|
    requires ids[j] in m.byId && m.ClientOf(ids[j]).Has(k)
    requires forall i :: j <= i < |ids| && ids[i] in sdks ==> !sdks[ids[i]].Has(k)
    ensures k !in ApplyAll(m, ops[..n]).byKey
  {
    hide Enabled, ClashFree, TableAll, EnabledAll, Apply;
    assert PutsRow(ops[n - 1], ids[n - 1], sdks);
    if n == j + 1 {
      HolderLosesKey(m, ops, ids, sdks, j, k);
    } else {
      UpdatesLoseKey(m, ops, ids, sdks, j, k, n - 1);
      assert ops[..n][..n - 1] == ops[..n - 1];
      AbsentKeyStays(ApplyAll(m, ops[..n - 1]), ops[n - 1], k);
    }
  }

  /** Where the registrar stands before the surviving ids are updated. */
  ghost function BeforeUpdates(s: State, p: Profile, existing: seq<Id>, remote: seq<Id>): (m: State)
    requires s.InRange()
    ensures m.InRange()
  {
    ApplyAll(s, Deletes(Except(existing, remote)) + NewOptions(s, p))
  }

  lemma BeforeUpdatesTable(s: State, p: Profile, existing: seq<Id>, remote: seq<Id>)
    requires s.InRange()
    requires Enumerates(existing, s.byId.Keys) && Enumerates(remote, p.sdks.Keys)
    ensures BeforeUpdates(s, p, existing, remote).Table() == Survivors(s, existing, remote)
    ensures Ledger(s) ==> Ledger(BeforeUpdates(s, p, existing, remote))
  {
    SurvivorIds(s, p, existing, remote);
    DeletesRun(s.Table(), Except(existing, remote));
    NoTableChange(Survivors(s, existing, remote), s, p);
    TableConcat(s.Table(), Deletes(Except(existing, remote)), NewOptions(s, p));
    RunTable(s, Deletes(Except(existing, remote)) + NewOptions(s, p));
  }

  lemma {:induction false} RefreshFromUpdates(s: State, p: Profile, existing: seq<Id>, remote: seq<Id>)
    requires s.InRange()
    requires Enumerates(existing, s.byId.Keys) && Enumerates(remote, p.sdks.Keys)
    requires Elems(Remaining(existing, remote)) <= p.sdks.Keys && Elems(Except(remote, existing)) <= p.sdks.Keys
    ensures Refresh(s, p, existing, remote)
         == ApplyAll(ApplyAll(BeforeUpdates(s, p, existing, remote), Updates(s, p, Remaining(existing, remote))),
                     Adds(Except(remote, existing), p.sdks))
  {
    var pre := Deletes(Except(existing, remote)) + NewOptions(s, p);
    var ups := Updates(s, p, Remaining(existing, remote));
    ApplyConcat(s, pre, ups);
    ApplyConcat(s, pre + ups, Adds(Except(remote, existing), p.sdks));
  }

  /** A key taken over before its holder is updated ends up in no index entry. */
  lemma ClashLosesKey(s: State, p: Profile, existing: seq<Id>, remote: seq<Id>, i: nat, j: nat, k: Key)
    requires s.InRange() && Ledger(s) && DistinctKeys(p.sdks)
    requires Enumerates(existing, s.byId.Keys) && Enumerates(remote, p.sdks.Keys)
    requires var order := UpdateOrder(s, p, Remaining(existing, remote));
             && i < j < |order| && order[i] in p.sdks && order[j] in s.byId
             && p.sdks[order[i]].Has(k) && s.Table()[order[j]].Has(k)
    ensures k !in Refresh(s, p, existing, remote).byKey
  {
    UpdatesReady(s, p, existing, remote);
    var order, ups := UpdateOrder(s, p, Remaining(existing, remote)), Updates(s, p, Remaining(existing, remote));
    var m := BeforeUpdates(s, p, existing, remote);
    assert order[j] in Elems(order) && order[i] in Elems(order);
    RefreshFromUpdates(s, p, existing, remote);
    UpdatesLoseTakenKey(m, ups, order, p.sdks, i, j, k);
    AddsLeaveAbsent(ApplyAll(m, ups), Except(remote, existing), p.sdks, order[i], k);
  }

  lemma {:induction false} UpdatesReady(s: State, p: Profile, existing: seq<Id>, remote: seq<Id>)
    requires s.InRange() && Ledger(s) && DistinctKeys(p.sdks)
    requires Enumerates(existing, s.byId.Keys) && Enumerates(remote, p.sdks.Keys)
    ensures Elems(Remaining(existing, remote)) <= p.sdks.Keys && Elems(Except(remote, existing)) <= p.sdks.Keys
    ensures Elems(Except(remote, existing)) !! s.byId.Keys
    ensures var m, order := BeforeUpdates(s, p, existing, remote), UpdateOrder(s, p, Remaining(existing, remote));
            var ups := Updates(s, p, Remaining(existing, remote));
            && Ready(m, ups, order, p.sdks) && Elems(order) == m.byId.Keys == s.byId.Keys * p.sdks.Keys
            && (forall id :: id in m.byId ==> m.ClientOf(id).Sdk() == s.ClientOf(id).Sdk())
  {
    hide TableAll, EnabledAll, Puts, NoDup, Closed, DropKeys, StoreKeys, Ledger, DistinctKeys, Apply, ClashFree;
    var t1, m := Survivors(s, existing, remote), BeforeUpdates(s, p, existing, remote);
    SurvivorIds(s, p, existing, remote);
    OrderEnumerates(s, p, existing, remote);
    UpdatesPut(s, p, Remaining(existing, remote));
    BeforeUpdatesTable(s, p, existing, remote);
    assert m.Table().Keys == m.byId.Keys;
    forall id | id in m.byId
      ensures m.ClientOf(id).Sdk() == s.ClientOf(id).Sdk()
    {
      assert m.Table()[id] == t1[id] == s.Table()[id];
    }
    var order, ups := UpdateOrder(s, p, Remaining(existing, remote)), Updates(s, p, Remaining(existing, remote));
    forall n | 0 <= n < |order|
      ensures !ups[n].Add? && Enabled(t1, ups[n])
    {
      assert PutsRow(ups[n], order[n], p.sdks) && order[n] in Elems(order);
    }
  }

  lemma UpdatesLoseTakenKey(m: State, ops: seq<Op>, ids: seq<Id>, sdks: map<Id, SdkModel>, i: nat, j: nat, k: Key)
    requires Ready(m, ops, ids, sdks) && DistinctKeys(sdks) && i < j < |ids|
    requires ids[i] in sdks && sdks[ids[i]].Has(k) && ids[j] in m.byId && m.ClientOf(ids[j]).Has(k)
    ensures k !in ApplyAll(m, ops).byKey
  {
    OthersLackKey(sdks, ids[i], k);
    UpdatesLoseKey(m, ops, ids, sdks, j, k, |ids|);
    TakeAll(ops);
  }

  lemma OthersLackKey(sdks: map<Id, SdkModel>, id: Id, k: Key)
    requires DistinctKeys(sdks) && id in sdks && sdks[id].Has(k)
    ensures forall a :: a in sdks && a != id ==> !sdks[a].Has(k)
  {
  }

  lemma AddsLeaveAbsent(s: State, ids: seq<Id>, sdks: map<Id, SdkModel>, holder: Id, k: Key)
    requires s.InRange() && k !in s.byKey && Elems(ids) <= sdks.Keys && holder !in Elems(ids)
    requires DistinctKeys(sdks) && holder in sdks && sdks[holder].Has(k)
    ensures k !in ApplyAll(s, Adds(ids, sdks)).byKey
  {
    OthersLackKey(sdks, holder, k);
    forall op | op in Adds(ids, sdks)
      ensures !op.sdk.Has(k)
    {
      assert op.id in Elems(ids);
    }
    AbsentKeyStaysAll(s, Adds(ids, sdks), k);
  }

  /** For given listing orders, a refresh ends at the profile exactly when no survivor takes
      over a key of a survivor that is updated after it. */
  lemma {:induction false} MirrorsIffClashFree(s: State, p: Profile, existing: seq<Id>, remote: seq<Id>)
    requires Sound(s) && Configured(s, s.byId.Keys) && DistinctKeys(p.sdks)
    requires Enumerates(existing, s.byId.Keys) && Enumerates(remote, p.sdks.Keys)
    ensures Mirrors(Refresh(s, p, existing, remote), p)
            <==> ClashFree(s.Table(), p.sdks, UpdateOrder(s, p, Remaining(existing, remote)))
  {
    var order := UpdateOrder(s, p, Remaining(existing, remote));
    if ClashFree(s.Table(), p.sdks, order) {
      RefreshMirrors(s, p, existing, remote);
    } else {
      var i, j :| 0 <= i < j < |order| && order[i] in p.sdks && order[j] in s.Table()
        && p.sdks[order[i]].SharesKeyWith(s.Table()[order[j]]);
      var k :| p.sdks[order[i]].Has(k) && s.Table()[order[j]].Has(k);
      ClashLosesKey(s, p, existing, remote, i, j, k);
      var r := Refresh(s, p, existing, remote);
      if Mirrors(r, p) {
        assert order[i] in r.Table() && r.ClientOf(order[i]).Has(k);
      }
    }
  }
}
