/** Stale keys over many refreshes: which keys of the stream server's index are stale at the end. */
module StaleRuns {
  import opened Common
  import opened ProfileModel
  import opened Registrar
  import opened RegistrarRuns
  import opened Reconcile
  import opened ReconcileRuns
  import opened RegistrarEffects
  import opened StreamServer
  import opened ServerAgreement
  import opened ServerKeys
  import opened StaleKeys

  /** `k` finds a stream although the stream is closed or its client does not have the key. */
  ghost predicate Stale(s: System, k: Key)
    requires s.Ok()
  {
    k in s.srv.byKey && !Backed(s.reg.clients, s.srv, k)
  }

  /** Everything that holds between two refreshes, once nothing is on its way. */
  ghost predicate Rested(owner: Key -> Id, s: System) {
    s.Ok() && Consistent(s) && Complete(s) && Owned(owner, s.reg.clients) && Ledger(s.reg) && s.Quiet()
  }

  predicate Offers(p: Profile, id: Id, k: Key) {
    id in p.sdks && p.sdks[id].Has(k)
  }

  lemma RestedHolder(owner: Key -> Id, s: System, id: Id, k: Key)
    requires Rested(owner, s) && Offers(Served(s.reg), id, k)
    ensures Resolves(s, k, id) && Backed(s.reg.clients, s.srv, k)
  {
    assert Agrees(s.reg, s.srv, id);
    assert StreamClient(s, id).Has(k);
  }

  /** At rest a stale key belongs to nobody. */
  lemma RestedStaleIsOrphaned(owner: Key -> Id, s: System, k: Key)
    requires Rested(owner, s)
    ensures Stale(s, k) <==> Orphaned(s, k)
  {
    if Stale(s, k) {
      forall id | id in s.reg.byId
        ensures !s.reg.ClientOf(id).Has(k)
      {
        if s.reg.ClientOf(id).Has(k) {
          assert Served(s.reg).sdks[id] == s.reg.ClientOf(id).Sdk();
          RestedHolder(owner, s, id, k);
        }
      }
      forall i | 0 <= i < |s.srv.feeds| && s.srv.feeds[i].open
        ensures !s.reg.clients[s.srv.feeds[i].client].Has(k)
      {
        assert Agrees(s.reg, s.srv, s.srv.feeds[i].sdkId);
      }
    }
  }

  // ----- Runs that never drop the key in place -----

  /** The update does not take `k` from a client in place. */
  predicate KeepsKey(t: map<Id, SdkModel>, op: Op, k: Key) {
    op.Touch? && op.id in t && t[op.id].Has(k) ==> op.sdk.Has(k)
  }

  ghost predicate KeepsKeyAll(t: map<Id, SdkModel>, ops: seq<Op>, k: Key) {
    ops == [] ||
    (KeepsKeyAll(t, ops[..|ops| - 1], k) && KeepsKey(TableAll(t, ops[..|ops| - 1]), ops[|ops| - 1], k))
  }

  lemma KeyStays(r: State, op: Op, h: nat, k: Key)
    requires r.InRange() && Enabled(r.Table(), op) && KeepsKey(r.Table(), op, k)
    requires h < |r.clients| && r.clients[h].Has(k)
    ensures h < |Apply(r, op).clients| && Apply(r, op).clients[h].Has(k)
  {
    if op.Touch? {
      assert r.Table()[op.id] == r.ClientOf(op.id).Sdk();
    }
  }

  lemma StepKeepsFresh(owner: Key -> Id, s: System, a: Action, k: Key)
    requires s.Ok() && Consistent(s) && Owned(owner, s.reg.clients) && Allowed(s, a) && !Stale(s, k)
    requires a.Update? ==> KeepsKey(s.reg.Table(), a.op, k)
    ensures !Stale(Act(s, a), k)
  {
    var t := Act(s, a);
    if k in t.srv.byKey {
      if a.Update? {
        KeyStays(s.reg, a.op, s.srv.feeds[s.srv.byKey[k]].client, k);
      } else if a.Handle? && s.handled < |s.Inbox()| {
        HandleNoStale(owner, s.reg, s.srv, s.Inbox()[s.handled], k);
      }
    }
  }

  lemma {:induction false} KeepsKeyPrefix(s: System, actions: seq<Action>, k: Key)
    requires s.Ok() && Ledger(s.reg) && actions != [] && EnabledAll(s.reg.Table(), OpsOf(actions))
    requires KeepsKeyAll(s.reg.Table(), OpsOf(actions), k)
    ensures var init, a := actions[..|actions| - 1], actions[|actions| - 1];
            && KeepsKeyAll(s.reg.Table(), OpsOf(init), k)
            && (a.Update? ==> KeepsKey(Run(s, init).reg.Table(), a.op, k))
  {
    var init, a := actions[..|actions| - 1], actions[|actions| - 1];
    EnabledPrefix(s, actions);
    RunIsApply(s, init);
    if a.Update? {
      assert (OpsOf(init) + [a.op])[..|OpsOf(init)|] == OpsOf(init);
      RunTable(s.reg, OpsOf(init));
    } else {
      assert OpsOf(actions) == OpsOf(init);
    }
  }

  lemma {:induction false} RunKeepsFresh(owner: Key -> Id, s: System, actions: seq<Action>, k: Key)
    requires s.Ok() && Consistent(s) && Complete(s) && Owned(owner, s.reg.clients) && Ledger(s.reg) && !Stale(s, k)
    requires EnabledAll(s.reg.Table(), OpsOf(actions)) && OwnedOps(owner, OpsOf(actions))
    requires KeepsKeyAll(s.reg.Table(), OpsOf(actions), k)
    ensures !Stale(Run(s, actions), k)
  {
    if actions != [] {
      var init := actions[..|actions| - 1];
      EnabledPrefix(s, actions);
      OwnedPrefix(owner, actions);
      KeepsKeyPrefix(s, actions, k);
      RunKeepsFresh(owner, s, init, k);
      RunComplete(owner, s, init);
      StepKeepsFresh(owner, Run(s, init), actions[|actions| - 1], k);
    }
  }

  // ----- Runs that never give the key -----

  lemma {:induction false} RunKeepsOrphan(s: System, actions: seq<Action>, k: Key)
    requires s.Ok() && Consistent(s) && Ledger(s.reg) && Orphaned(s, k)
    requires EnabledAll(s.reg.Table(), OpsOf(actions))
    requires forall i :: 0 <= i < |OpsOf(actions)| ==> !Gives(OpsOf(actions)[i], k)
    ensures Orphaned(Run(s, actions), k)
  {
    if actions != [] {
      var init, a := actions[..|actions| - 1], actions[|actions| - 1];
      EnabledPrefix(s, actions);
      assert forall i :: 0 <= i < |OpsOf(init)| ==> OpsOf(actions)[i] == OpsOf(init)[i];
      if a.Update? {
        assert OpsOf(actions)[|OpsOf(init)|] == a.op;
      }
      RunKeepsOrphan(s, init, k);
      RunConsistent(s, init);
      StepOrphaned(Run(s, init), a, k);
    }
  }

  // ----- One refresh, from rest to rest -----

  lemma PlanOffers(owner: Key -> Id, s: State, p: Profile, existing: seq<Id>, remote: seq<Id>, k: Key)
    requires s.InRange() && Enumerates(existing, s.byId.Keys) && Enumerates(remote, p.sdks.Keys)
    requires OwnedProfile(owner, p) && !Offers(p, owner(k), k)
    ensures var ops := Plan(s, p, existing, remote);
            forall i :: 0 <= i < |ops| ==> !Gives(ops[i], k)
  {
    var ops := Plan(s, p, existing, remote);
    forall i | 0 <= i < |ops|
      ensures !Gives(ops[i], k)
    {
      if !ops[i].SetOptions? {
        PlanAbout(s, p, existing, remote, ops[i].id);
        AboutBefore(ops, i, ops[i].id);
      }
    }
  }

  lemma {:induction false} PlanOpKeepsKey(
      owner: Key -> Id, s: State, p: Profile, existing: seq<Id>, remote: seq<Id>, k: Key, n: nat)
    requires s.InRange() && Enumerates(existing, s.byId.Keys) && Enumerates(remote, p.sdks.Keys)
    requires Owned(owner, s.clients) && n < |Plan(s, p, existing, remote)|
    requires Offers(p, owner(k), k) || !DropsInPlace(Served(s), p, owner(k)) || !Offers(Served(s), owner(k), k)
    ensures var ops := Plan(s, p, existing, remote);
            KeepsKey(TableAll(s.Table(), ops[..n]), ops[n], k)
  {
    var ops := Plan(s, p, existing, remote);
    var op := ops[n];
    if op.Touch? {
      PlanAbout(s, p, existing, remote, op.id);
      AboutBefore(ops, n, op.id);
      UntouchedRow(s.Table(), ops[..n], op.id);
      TouchKeepsKey(owner, s, p, op, k);
    }
  }

  lemma {:induction false} PlanKeepsKey(
      owner: Key -> Id, s: State, p: Profile, existing: seq<Id>, remote: seq<Id>, k: Key, n: nat)
    requires s.InRange() && Enumerates(existing, s.byId.Keys) && Enumerates(remote, p.sdks.Keys)
    requires Owned(owner, s.clients) && n <= |Plan(s, p, existing, remote)|
    requires Offers(p, owner(k), k) || !DropsInPlace(Served(s), p, owner(k)) || !Offers(Served(s), owner(k), k)
    ensures KeepsKeyAll(s.Table(), Plan(s, p, existing, remote)[..n], k)
  {
    hide Plan, KeepsKey, DropsInPlace;
    if n > 0 {
      var ops := Plan(s, p, existing, remote);
      PlanKeepsKey(owner, s, p, existing, remote, k, n - 1);
      PlanOpKeepsKey(owner, s, p, existing, remote, k, n - 1);
      assert ops[..n][..n - 1] == ops[..n - 1];
    }
  }

  lemma TouchKeepsKey(owner: Key -> Id, s: State, p: Profile, op: Op, k: Key)
    requires s.InRange() && Owned(owner, s.clients) && op.Touch? && [op] == Wanted(Served(s), p, op.id)
    requires Offers(p, owner(k), k) || !DropsInPlace(Served(s), p, owner(k)) || !Offers(Served(s), owner(k), k)
    ensures op.id in s.byId && op.id in s.Table() && KeepsKey(s.Table(), op, k)
  {
    assert s.Table()[op.id] == s.ClientOf(op.id).Sdk();
    if s.Table()[op.id].Has(k) {
      assert s.ClientOf(op.id).Has(k);
    }
  }

  /** Whether `k` is stale after a refresh, from whether it was before. */
  ghost predicate StaleAfter(stale: bool, from: Profile, to: Profile, id: Id, k: Key) {
    if Offers(to, id, k) then false
    else if Offers(from, id, k) then DropsInPlace(from, to, id)
    else stale
  }

  ghost predicate Refreshes(s: System, p: Profile, existing: seq<Id>, remote: seq<Id>, actions: seq<Action>) {
    && s.Ok() && Enumerates(existing, s.reg.byId.Keys) && Enumerates(remote, p.sdks.Keys)
    && OpsOf(actions) == Plan(s.reg, p, existing, remote)
    && Run(s, actions).Quiet()
  }

  lemma RefreshRests(
      owner: Key -> Id, s: System, p: Profile, existing: seq<Id>, remote: seq<Id>, actions: seq<Action>)
    requires Rested(owner, s) && DistinctKeys(p.sdks) && OwnedProfile(owner, p)
    requires Refreshes(s, p, existing, remote, actions)
    ensures EnabledAll(s.reg.Table(), OpsOf(actions)) && OwnedOps(owner, OpsOf(actions))
    ensures Rested(owner, Run(s, actions)) && Served(Run(s, actions).reg) == p
  {
    PlanTable(s.reg, p, existing, remote);
    PlanOwned(owner, s.reg, p, existing, remote);
    RunComplete(owner, s, actions);
    RunIsApply(s, actions);
    RunTable(s.reg, OpsOf(actions));
    RefreshOptions(s.reg, p, existing, remote);
  }

  lemma {:induction false} RefreshOrphans(
      owner: Key -> Id, s: System, p: Profile, existing: seq<Id>, remote: seq<Id>, actions: seq<Action>, k: Key)
    requires Rested(owner, s) && DistinctKeys(p.sdks) && OwnedProfile(owner, p) && DistinctKeys(s.reg.Table())
    requires Refreshes(s, p, existing, remote, actions)
    requires !Offers(p, owner(k), k) && Offers(Served(s.reg), owner(k), k) && DropsInPlace(Served(s.reg), p, owner(k))
    ensures Orphaned(Run(s, actions), k)
  {
    hide Plan, EnabledAll, OwnedOps, Complete, Ledger;
    var id := owner(k);
    RefreshRests(owner, s, p, existing, remote, actions);
    PlanAbout(s.reg, p, existing, remote, id);
    assert s.reg.Table()[id] == s.reg.ClientOf(id).Sdk();
    RunDrops(owner, s, actions, id, p.sdks[id], k);
  }

  lemma RefreshStale(
      owner: Key -> Id, s: System, p: Profile, existing: seq<Id>, remote: seq<Id>, actions: seq<Action>, k: Key)
    requires Rested(owner, s) && DistinctKeys(p.sdks) && OwnedProfile(owner, p) && DistinctKeys(s.reg.Table())
    requires Refreshes(s, p, existing, remote, actions)
    ensures Stale(Run(s, actions), k) <==> StaleAfter(Stale(s, k), Served(s.reg), p, owner(k), k)
  {
    var t, id := Run(s, actions), owner(k);
    RefreshRests(owner, s, p, existing, remote, actions);
    if Offers(p, id, k) {
      RestedHolder(owner, t, id, k);
    } else if Offers(Served(s.reg), id, k) && DropsInPlace(Served(s.reg), p, id) {
      RefreshOrphans(owner, s, p, existing, remote, actions, k);
      RestedStaleIsOrphaned(owner, t, k);
    } else if Stale(s, k) {
      RestedStaleIsOrphaned(owner, s, k);
      RestedStaleIsOrphaned(owner, t, k);
      if Offers(Served(s.reg), id, k) {
        RestedHolder(owner, s, id, k);
      }
      PlanOffers(owner, s.reg, p, existing, remote, k);
      RunKeepsOrphan(s, actions, k);
    } else {
      PlanKeepsKey(owner, s.reg, p, existing, remote, k, |OpsOf(actions)|);
      TakeAll(OpsOf(actions));
      RunKeepsFresh(owner, s, actions, k);
    }
  }

  // ----- Many refreshes, with rest between them -----

  /** A refresh with everything that happens until nothing is on its way. */
  datatype Phase = Phase(profile: Profile, existing: seq<Id>, remote: seq<Id>, actions: seq<Action>)

  ghost predicate Phases(s: System, phases: seq<Phase>)
    requires s.Ok()
    decreases |phases|
  {
    phases == [] ||
    (&& Refreshes(s, phases[0].profile, phases[0].existing, phases[0].remote, phases[0].actions)
     && Phases(Run(s, phases[0].actions), phases[1..]))
  }

  ghost function RunPhases(s: System, phases: seq<Phase>): (t: System)
    requires s.Ok()
    ensures t.Ok()
    decreases |phases|
  {
    if phases == [] then s else RunPhases(Run(s, phases[0].actions), phases[1..])
  }

  ghost predicate LeftStale(stale: bool, from: Profile, phases: seq<Phase>, id: Id, k: Key)
    decreases |phases|
  {
    if phases == [] then stale
    else LeftStale(StaleAfter(stale, from, phases[0].profile, id, k), phases[0].profile, phases[1..], id, k)
  }

  lemma {:induction false} RunStale(owner: Key -> Id, s: System, phases: seq<Phase>, k: Key)
    requires Rested(owner, s) && DistinctKeys(s.reg.Table()) && Phases(s, phases)
    requires forall i :: 0 <= i < |phases| ==> DistinctKeys(phases[i].profile.sdks)
    requires forall i :: 0 <= i < |phases| ==> OwnedProfile(owner, phases[i].profile)
    ensures Stale(RunPhases(s, phases), k) <==> LeftStale(Stale(s, k), Served(s.reg), phases, owner(k), k)
    decreases |phases|
  {
    hide Stale, StaleAfter, Act, Refresh;
    if phases != [] {
      var p := phases[0];
      RefreshRests(owner, s, p.profile, p.existing, p.remote, p.actions);
      RefreshStale(owner, s, p.profile, p.existing, p.remote, p.actions, k);
      RunStale(owner, Run(s, p.actions), phases[1..], k);
    }
  }

  function ProfileBefore(first: Profile, phases: seq<Phase>, i: nat): Profile
    requires i < |phases|
  {
    if i == 0 then first else phases[i - 1].profile
  }

  ghost predicate NeverOffered(phases: seq<Phase>, i: nat, id: Id, k: Key) {
    forall j :: i <= j < |phases| ==> !Offers(phases[j].profile, id, k)
  }

  /** Refresh `i` took `k` from `id` in place, and it was not given back since. */
  ghost predicate TakenInPlace(first: Profile, phases: seq<Phase>, i: nat, id: Id, k: Key)
    requires i < |phases|
  {
    && Offers(ProfileBefore(first, phases, i), id, k)
    && DropsInPlace(ProfileBefore(first, phases, i), phases[i].profile, id)
    && NeverOffered(phases, i, id, k)
  }

  lemma OneLater(first: Profile, phases: seq<Phase>, i: nat, id: Id, k: Key)
    requires i + 1 < |phases|
    ensures TakenInPlace(first, phases, i + 1, id, k) <==> TakenInPlace(phases[0].profile, phases[1..], i, id, k)
  {
    var rest := phases[1..];
    assert rest[i] == phases[i + 1];
    assert NeverOffered(phases, i + 1, id, k) <==> NeverOffered(rest, i, id, k) by {
      assert forall j :: i <= j < |rest| ==> rest[j] == phases[j + 1];
      assert forall j :: i + 1 <= j < |phases| ==> phases[j] == rest[j - 1];
    }
  }

  lemma {:induction false} LeftStaleIs(stale: bool, first: Profile, phases: seq<Phase>, id: Id, k: Key)
    requires stale ==> !Offers(first, id, k)
    ensures LeftStale(stale, first, phases, id, k)
            <==> || (stale && NeverOffered(phases, 0, id, k))
                 || exists i :: 0 <= i < |phases| && TakenInPlace(first, phases, i, id, k)
    decreases |phases|
  {
    if phases != [] {
      var next, rest := phases[0].profile, phases[1..];
      var now := StaleAfter(stale, first, next, id, k);
      LeftStaleIs(now, next, rest, id, k);
      assert NeverOffered(phases, 0, id, k) <==> !Offers(next, id, k) && NeverOffered(rest, 0, id, k) by {
        assert forall j :: 0 <= j < |rest| ==> rest[j] == phases[j + 1];
        assert forall j :: 1 <= j < |phases| ==> phases[j] == rest[j - 1];
      }
      if i :| 0 <= i < |rest| && TakenInPlace(next, rest, i, id, k) {
        OneLater(first, phases, i, id, k);
      }
      if i :| 0 < i < |phases| && TakenInPlace(first, phases, i, id, k) {
        OneLater(first, phases, i - 1, id, k);
      }
      if now && NeverOffered(rest, 0, id, k) && !stale {
        assert TakenInPlace(first, phases, 0, id, k);
      }
    }
  }

  /** Over any number of refreshes, each settled before the next, a key is stale at the end if
      and only if some refresh took it from its owner in place, or it was stale before, and it
      was not given back since. */
  lemma {:induction false} StaleIff(owner: Key -> Id, s: System, phases: seq<Phase>, k: Key)
    requires Rested(owner, s) && DistinctKeys(s.reg.Table()) && Phases(s, phases)
    requires forall i :: 0 <= i < |phases| ==> DistinctKeys(phases[i].profile.sdks)
    requires forall i :: 0 <= i < |phases| ==> OwnedProfile(owner, phases[i].profile)
    ensures Stale(RunPhases(s, phases), k)
            <==> || (Stale(s, k) && NeverOffered(phases, 0, owner(k), k))
                 || exists i :: 0 <= i < |phases| && TakenInPlace(Served(s.reg), phases, i, owner(k), k)
  {
    RunStale(owner, s, phases, k);
    if Offers(Served(s.reg), owner(k), k) {
      RestedHolder(owner, s, owner(k), k);
    }
    LeftStaleIs(Stale(s, k), Served(s.reg), phases, owner(k), k);
  }
}
