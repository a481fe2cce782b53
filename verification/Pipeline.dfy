/** From profile to streams: refreshes of the registrar, the publisher and a stream server
    running side by side. */
module Pipeline {
  import opened Common
  import opened ProfileModel
  import opened Registrar
  import opened RegistrarRuns
  import opened Reconcile
  import opened ReconcileRuns
  import opened StreamServer
  import opened ServerAgreement
  import opened ServerKeys
  import opened StaleKeys
  import PubSub

  /** All updates of a run of refreshes. */
  ghost function Plans(s: State, rounds: seq<Round>): seq<Op>
    requires s.InRange() && Listed(s, rounds)
    decreases |rounds|
  {
    if rounds == [] then []
    else
      var r := rounds[0];
      Plan(s, r.profile, r.existing, r.remote) + Plans(Refresh(s, r.profile, r.existing, r.remote), rounds[1..])
  }

  lemma FirstPlan(owner: Key -> Id, s: State, r: Round)
    requires s.InRange() && Ledger(s) && DistinctKeys(r.profile.sdks) && OwnedProfile(owner, r.profile)
    requires Enumerates(r.existing, s.byId.Keys) && Enumerates(r.remote, r.profile.sdks.Keys)
    ensures var plan := Plan(s, r.profile, r.existing, r.remote);
            EnabledAll(s.Table(), plan) && OwnedOps(owner, plan)
    ensures var next := Refresh(s, r.profile, r.existing, r.remote);
            Ledger(next) && next.Table() == r.profile.sdks
  {
    hide Plan;
    PlanTable(s, r.profile, r.existing, r.remote);
    PlanOwned(owner, s, r.profile, r.existing, r.remote);
    RunTable(s, Plan(s, r.profile, r.existing, r.remote));
  }

  lemma NoRounds(owner: Key -> Id, s: State)
    requires s.InRange()
    ensures EnabledAll(s.Table(), []) && OwnedOps(owner, []) && ApplyAll(s, []) == s
  {
  }

  lemma {:induction false} PlansRun(owner: Key -> Id, s: State, first: Profile, rounds: seq<Round>)
    requires s.InRange() && Ledger(s) && Listed(s, rounds) && s.Table() == first.sdks
    requires forall i :: 0 <= i < |rounds| ==> DistinctKeys(rounds[i].profile.sdks)
    requires forall i :: 0 <= i < |rounds| ==> OwnedProfile(owner, rounds[i].profile)
    ensures EnabledAll(s.Table(), Plans(s, rounds)) && OwnedOps(owner, Plans(s, rounds))
    ensures ApplyAll(s, Plans(s, rounds)) == RunRounds(s, rounds)
    ensures RunRounds(s, rounds).Table() == Last(first, rounds).sdks
    decreases |rounds|
  {
    hide Plan, DistinctKeys, OwnedProfile, Ledger, EnabledAll, OwnedOps, ApplyAll;
    if rounds == [] {
      NoRounds(owner, s);
    } else {
      var r := rounds[0];
      var plan, next := Plan(s, r.profile, r.existing, r.remote), Refresh(s, r.profile, r.existing, r.remote);
      FirstPlan(owner, s, r);
      PlansRun(owner, next, r.profile, rounds[1..]);
      RunsConcat(owner, s, plan, Plans(next, rounds[1..]));
    }
  }

  lemma {:induction false} RunsConcat(owner: Key -> Id, s: State, a: seq<Op>, b: seq<Op>)
    requires s.InRange() && EnabledAll(s.Table(), a) && EnabledAll(ApplyAll(s, a).Table(), b)
    requires OwnedOps(owner, a) && OwnedOps(owner, b)
    ensures EnabledAll(s.Table(), a + b) && OwnedOps(owner, a + b)
    ensures ApplyAll(s, a + b) == ApplyAll(ApplyAll(s, a), b)
  {
    RunTable(s, a);
    TableConcat(s.Table(), a, b);
    ApplyConcat(s, a, b);
  }

  lemma ConstructOwned(owner: Key -> Id, conf: ProxyConf, first: Profile, order: seq<Id>)
    requires DistinctKeys(first.sdks) && Enumerates(order, first.sdks.Keys) && OwnedProfile(owner, first)
    ensures var r := Construct(conf, first, order);
            Owned(owner, r.clients) && Ledger(r) && r.Table() == first.sdks
  {
    ConstructMirrors(conf, first, order);
    AddsOwned(owner, Empty(conf, first.options), first.sdks, order);
  }

  lemma {:induction false} AddsOwned(owner: Key -> Id, s: State, sdks: map<Id, SdkModel>, order: seq<Id>)
    requires s.InRange() && Owned(owner, s.clients) && Elems(order) <= sdks.Keys
    requires forall id, k :: id in sdks && sdks[id].Has(k) ==> owner(k) == id
    ensures Owned(owner, ApplyAll(s, Adds(order, sdks)).clients)
  {
    if order != [] {
      var init, last := order[..|order| - 1], order[|order| - 1];
      assert last in Elems(order) && Elems(init) <= Elems(order);
      AddsOwned(owner, s, sdks, init);
      assert Adds(order, sdks)[..|order| - 1] == Adds(init, sdks);
      OpOwned(owner, ApplyAll(s, Adds(init, sdks)), Add(last, sdks[last]));
    }
  }

  /** The proxy is constructed from one profile, a stream server starts on it, and refreshes,
      deliveries and server turns interleave in any way. Once nothing is on its way, there is
      exactly one stream for each id of the latest profile, it holds the registrar's client
      with the profile's keys, and each nonempty key of the profile finds it. */
  lemma {:induction false} StreamsFollowProfiles(
      owner: Key -> Id, conf: ProxyConf, first: Profile, listing: seq<Id>, rounds: seq<Round>,
      pub: PubSub.State<Id, nat>, order: seq<Id>, actions: seq<Action>)
    requires DistinctKeys(first.sdks) && Enumerates(listing, first.sdks.Keys) && OwnedProfile(owner, first)
    requires forall i :: 0 <= i < |rounds| ==> DistinctKeys(rounds[i].profile.sdks)
    requires forall i :: 0 <= i < |rounds| ==> OwnedProfile(owner, rounds[i].profile)
    requires Listed(Construct(conf, first, listing), rounds)
    requires Enumerates(order, Construct(conf, first, listing).byId.Keys) && !pub.closed && pub.running
    requires OpsOf(actions) == Plans(Construct(conf, first, listing), rounds)
    ensures var t, p := Run(Start(Construct(conf, first, listing), pub, order), actions), Last(first, rounds);
            && t.reg == RunRounds(Construct(conf, first, listing), rounds)
            && (t.Quiet() ==> Follows(t, p))
  {
    var r := Construct(conf, first, listing);
    ConstructOwned(owner, conf, first, listing);
    PlansRun(owner, r, first, rounds);
    DisagreementIsPending(r, pub, order, actions);
    KeyIndexComplete(owner, r, pub, order, actions);
    var t := Run(Start(r, pub, order), actions);
    if t.Quiet() {
      AgreementFollows(t, Last(first, rounds));
    }
  }

  ghost predicate Follows(t: System, p: Profile)
    requires t.Ok()
  {
    && t.srv.streams.Keys == p.sdks.Keys
    && (forall id :: id in p.sdks ==>
          && id in t.reg.byId && t.srv.feeds[t.srv.streams[id]].client == t.reg.byId[id]
          && StreamClient(t, id).Sdk() == p.sdks[id])
    && (forall id, k :: id in p.sdks && p.sdks[id].Has(k) ==> Resolves(t, k, id))
  }

  lemma AgreesOn(t: System, p: Profile, id: Id)
    requires t.Ok() && t.reg.Table() == p.sdks && Agrees(t.reg, t.srv, id)
    ensures id in t.srv.streams <==> id in p.sdks
    ensures id in t.reg.byId <==> id in p.sdks
    ensures id in p.sdks ==>
              && t.srv.feeds[t.srv.streams[id]].client == t.reg.byId[id]
              && StreamClient(t, id).Sdk() == p.sdks[id] == t.reg.ClientOf(id).Sdk()
  {
    assert id in t.reg.byId <==> id in t.reg.Table();
  }

  lemma AgreementFollows(t: System, p: Profile)
    requires t.Ok() && t.Quiet() && t.reg.Table() == p.sdks
    requires forall id :: Agrees(t.reg, t.srv, id)
    requires forall id, k :: id in t.reg.byId && !t.Pending(id) && t.reg.ClientOf(id).Has(k) ==> Resolves(t, k, id)
    ensures Follows(t, p)
  {
    forall id
      ensures id in t.srv.streams <==> id in p.sdks
      ensures id in t.reg.byId <==> id in p.sdks
      ensures id in p.sdks ==>
                && t.srv.feeds[t.srv.streams[id]].client == t.reg.byId[id]
                && StreamClient(t, id).Sdk() == p.sdks[id] == t.reg.ClientOf(id).Sdk()
    {
      AgreesOn(t, p, id);
    }
    forall id, k | id in p.sdks && p.sdks[id].Has(k)
      ensures Resolves(t, k, id)
    {
      assert t.reg.ClientOf(id).Has(k) && !t.Pending(id);
    }
  }
}
