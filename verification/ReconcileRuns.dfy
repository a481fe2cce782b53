/** Refreshes in every listing order, and runs of refreshes. */
module ReconcileRuns {
  import opened Common
  import opened ProfileModel
  import opened Registrar
  import opened RegistrarRuns
  import opened Reconcile

  // ----- Every listing order -----

  ghost function Served(s: State): Profile
    requires s.InRange()
  {
    Profile(s.Table(), s.options)
  }

  /** Between two ids that stay, a key moves only from one that is updated in place to one
      that is rebuilt because its primary key changed. */
  ghost predicate NoTakeover(from: Profile, to: Profile) {
    forall a, b :: a in from.sdks && a in to.sdks && b in from.sdks && b in to.sdks && a != b
                   && to.sdks[b].SharesKeyWith(from.sdks[a]) ==>
      && from.options == to.options
      && from.sdks[a].key1 == to.sdks[a].key1
      && from.sdks[b].key1 != to.sdks[b].key1
  }

  /** Ids updated in place come before ids that are rebuilt. */
  lemma InPlaceFirst(s: State, p: Profile, remaining: seq<Id>, i: nat, j: nat)
    requires s.InRange() && s.options == p.options && i < j < |UpdateOrder(s, p, remaining)|
    requires var order, t := UpdateOrder(s, p, remaining), s.Table();
             order[j] in t && order[j] in p.sdks && t[order[j]].key1 == p.sdks[order[j]].key1
    ensures var order, t := UpdateOrder(s, p, remaining), s.Table();
            order[i] in t && order[i] in p.sdks && t[order[i]].key1 == p.sdks[order[i]].key1
  {
    var t := s.Table();
    var same, rekeyed := ByPrimary(remaining, t, p.sdks, false), ByPrimary(remaining, t, p.sdks, true);
    ByPrimaryElems(remaining, t, p.sdks, false);
    ByPrimaryElems(remaining, t, p.sdks, true);
    assert forall n :: 0 <= n < |rekeyed| ==> rekeyed[n] in rekeyed;
    assert j < |same|;
    assert same[i] in same;
  }

  lemma NoTakeoverIsClashFree(s: State, p: Profile, existing: seq<Id>, remote: seq<Id>)
    requires s.InRange() && NoTakeover(Served(s), p)
    requires Enumerates(existing, s.byId.Keys) && Enumerates(remote, p.sdks.Keys)
    ensures ClashFree(s.Table(), p.sdks, UpdateOrder(s, p, Remaining(existing, remote)))
  {
    var t, from := s.Table(), Served(s);
    var order := UpdateOrder(s, p, Remaining(existing, remote));
    OrderEnumerates(s, p, existing, remote);
    SurvivorIds(s, p, existing, remote);
    forall i, j | 0 <= i < j < |order| && order[i] in p.sdks && order[j] in t
      ensures !p.sdks[order[i]].SharesKeyWith(t[order[j]])
    {
      var b, a := order[i], order[j];
      assert b in Elems(order) && a in Elems(order);
      assert a != b && a in from.sdks && b in from.sdks && a in p.sdks;
      if s.options == p.options && t[a].key1 == p.sdks[a].key1 {
        InPlaceFirst(s, p, Remaining(existing, remote), i, j);
      }
    }
  }

  lemma {:induction false} ByPrimaryConcat(
      a: seq<Id>, b: seq<Id>, served: map<Id, SdkModel>, sdks: map<Id, SdkModel>, changed: bool)
    ensures ByPrimary(a + b, served, sdks, changed)
         == ByPrimary(a, served, sdks, changed) + ByPrimary(b, served, sdks, changed)
  {
    if b == [] {
      assert a + b == a;
    } else {
      assert (a + b)[..|a + b| - 1] == a + b[..|b| - 1];
      ByPrimaryConcat(a, b[..|b| - 1], served, sdks, changed);
    }
  }

  lemma ByPrimaryPair(a: Id, b: Id, served: map<Id, SdkModel>, sdks: map<Id, SdkModel>, changed: bool)
    ensures ByPrimary([b, a], served, sdks, changed)
         == (if b in served && b in sdks && (served[b].key1 != sdks[b].key1) == changed then [b] else [])
            + (if a in served && a in sdks && (served[a].key1 != sdks[a].key1) == changed then [a] else [])
  {
    assert [b, a][..1] == [b] && [b][..0] == [];
    assert ByPrimary([b], served, sdks, changed)
        == if b in served && b in sdks && (served[b].key1 != sdks[b].key1) == changed then [b] else [];
  }

  lemma PairFirst(s: State, p: Profile, a: Id, b: Id, rest: seq<Id>, existing: seq<Id>)
    requires s.InRange() && a != b && a in s.byId && b in s.byId && a in p.sdks && b in p.sdks
    requires Enumerates(existing, s.byId.Keys) && Enumerates([b, a] + rest, p.sdks.Keys)
    ensures exists tail :: Remaining(existing, [b, a] + rest) == [b, a] + tail
  {
    var toAdd := Except([b, a] + rest, existing);
    ExceptElems([b, a] + rest, existing);
    assert a !in Elems(toAdd) && b !in Elems(toAdd);
    ExceptConcat([b, a], rest, toAdd);
    ExceptConcat([b], [a], toAdd);
    assert [b][..0] == [] && [a][..0] == [];
    assert [b] + [a] == [b, a] && Except([b], toAdd) == [b] && Except([a], toAdd) == [a];
    assert Remaining(existing, [b, a] + rest) == [b, a] + Except(rest, toAdd);
  }

  /** When the listing starts with `b, a`, the first is updated before the second unless only
      the second one is updated in place. */
  lemma PairOrdered(s: State, p: Profile, a: Id, b: Id, remaining: seq<Id>, tail: seq<Id>) returns (i: nat, j: nat)
    requires s.InRange() && a != b && a in s.byId && b in s.byId && a in p.sdks && b in p.sdks
    requires remaining == [b, a] + tail
    requires s.options == p.options ==> s.Table()[a].key1 != p.sdks[a].key1 || s.Table()[b].key1 == p.sdks[b].key1
    ensures i < j < |UpdateOrder(s, p, remaining)|
    ensures UpdateOrder(s, p, remaining)[i] == b && UpdateOrder(s, p, remaining)[j] == a
  {
    var t, order := s.Table(), UpdateOrder(s, p, remaining);
    if s.options != p.options {
      return 0, 1;
    }
    var same, rekeyed := ByPrimary(remaining, t, p.sdks, false), ByPrimary(remaining, t, p.sdks, true);
    ByPrimaryConcat([b, a], tail, t, p.sdks, false);
    ByPrimaryConcat([b, a], tail, t, p.sdks, true);
    ByPrimaryPair(a, b, t, p.sdks, false);
    ByPrimaryPair(a, b, t, p.sdks, true);
    if t[b].key1 == p.sdks[b].key1 && t[a].key1 == p.sdks[a].key1 {
      i, j := 0, 1;
    } else if t[b].key1 == p.sdks[b].key1 {
      i, j := 0, |same|;
    } else {
      i, j := |same|, |same| + 1;
    }
  }

  lemma PairListing(keys: set<Id>, a: Id, b: Id) returns (rest: seq<Id>)
    requires a in keys && b in keys && a != b
    ensures Enumerates([b, a] + rest, keys)
  {
    rest := EnumerationExists(keys - {a, b});
    assert a !in Elems(rest) && b !in Elems(rest);
    assert Elems([b, a] + rest) == Elems(rest) + {a, b};
  }

  lemma {:induction false} TakeoverBreaks(s: State, p: Profile) returns (existing: seq<Id>, remote: seq<Id>)
    requires Sound(s) && Configured(s, s.byId.Keys) && DistinctKeys(p.sdks) && !NoTakeover(Served(s), p)
    ensures Enumerates(existing, s.byId.Keys) && Enumerates(remote, p.sdks.Keys)
    ensures !Mirrors(Refresh(s, p, existing, remote), p)
  {
    var q := Served(s);
    var a, b :| && a in q.sdks && a in p.sdks && b in q.sdks && b in p.sdks && a != b
                && p.sdks[b].SharesKeyWith(q.sdks[a])
                && !(&& q.options == p.options && q.sdks[a].key1 == p.sdks[a].key1 && q.sdks[b].key1 != p.sdks[b].key1);
    existing := EnumerationExists(s.byId.Keys);
    var rest := PairListing(p.sdks.Keys, a, b);
    remote := [b, a] + rest;
    PairBreaks(s, p, a, b, rest, existing);
  }

  lemma {:induction false} PairBreaks(s: State, p: Profile, a: Id, b: Id, rest: seq<Id>, existing: seq<Id>)
    requires Sound(s) && Configured(s, s.byId.Keys) && DistinctKeys(p.sdks)
    requires a != b && a in s.byId && b in s.byId && a in p.sdks && b in p.sdks
    requires Enumerates(existing, s.byId.Keys) && Enumerates([b, a] + rest, p.sdks.Keys)
    requires p.sdks[b].SharesKeyWith(s.Table()[a])
    requires s.options == p.options ==> s.Table()[a].key1 != p.sdks[a].key1 || s.Table()[b].key1 == p.sdks[b].key1
    ensures !Mirrors(Refresh(s, p, existing, [b, a] + rest), p)
  {
    var remote := [b, a] + rest;
    PairFirst(s, p, a, b, rest, existing);
    var tail :| Remaining(existing, remote) == [b, a] + tail;
    var i, j := PairOrdered(s, p, a, b, Remaining(existing, remote), tail);
    MirrorsIffClashFree(s, p, existing, remote);
  }

  /** A refresh ends at the profile for every listing order exactly when no key is taken over. */
  lemma {:induction false} MirrorsIffNoTakeover(s: State, p: Profile)
    requires Sound(s) && Configured(s, s.byId.Keys) && DistinctKeys(p.sdks)
    ensures NoTakeover(Served(s), p) <==>
            forall existing, remote :: Enumerates(existing, s.byId.Keys) && Enumerates(remote, p.sdks.Keys) ==>
              Mirrors(Refresh(s, p, existing, remote), p)
  {
    if NoTakeover(Served(s), p) {
      forall existing, remote | Enumerates(existing, s.byId.Keys) && Enumerates(remote, p.sdks.Keys)
        ensures Mirrors(Refresh(s, p, existing, remote), p)
      {
        NoTakeoverIsClashFree(s, p, existing, remote);
        RefreshMirrors(s, p, existing, remote);
      }
    } else {
      var existing, remote := TakeoverBreaks(s, p);
    }
  }

  // ----- Runs -----

  /** What a reader of the registrar sees. */
  datatype View = View(sdks: map<Id, (SdkConfig, Key)>, index: map<Key, Id>)

  ghost function Observe(s: State): View
    requires s.InRange() && IndexExact(s)
  {
    View(map id | id in s.byId :: (s.ClientOf(id).conf, s.ClientOf(id).Secondary()),
         map k | k in s.byKey && k != "" :: s.clients[s.byKey[k]].sdkId)
  }

  lemma MirrorsDetermines(s: State, t: State, p: Profile)
    requires Mirrors(s, p) && Mirrors(t, p) && s.conf == t.conf
    ensures Observe(s) == Observe(t)
  {
    SameClients(s, t, p);
    SameIndex(s, t);
    SameIndex(t, s);
    assert Observe(s).index == Observe(t).index;
  }

  lemma SameClient(s: State, t: State, p: Profile, id: Id)
    requires Mirrors(s, p) && Mirrors(t, p) && s.conf == t.conf && id in s.byId && id in t.byId
    ensures s.ClientOf(id).conf == t.ClientOf(id).conf && s.ClientOf(id).Secondary() == t.ClientOf(id).Secondary()
  {
    hide Ledger, IndexExact, DistinctKeys, RunsAs;
    assert s.Table()[id] == t.Table()[id];
    RunsAsDetermines(s.conf, p.options, id, s.ClientOf(id).conf, t.ClientOf(id).conf);
  }

  lemma {:induction false} SameClients(s: State, t: State, p: Profile)
    requires Mirrors(s, p) && Mirrors(t, p) && s.conf == t.conf
    ensures Observe(s).sdks == Observe(t).sdks
  {
    hide Ledger, IndexExact, DistinctKeys;
    assert s.byId.Keys == s.Table().Keys && t.byId.Keys == t.Table().Keys;
    forall id | id in s.byId
      ensures s.ClientOf(id).conf == t.ClientOf(id).conf && s.ClientOf(id).Secondary() == t.ClientOf(id).Secondary()
    {
      SameClient(s, t, p, id);
    }
  }

  lemma SameIndex(s: State, t: State)
    requires Sound(s) && Sound(t) && s.Table() == t.Table()
    ensures forall k :: k in s.byKey && k != "" ==>
              k in t.byKey && s.clients[s.byKey[k]].sdkId == t.clients[t.byKey[k]].sdkId
  {
    forall k | k in s.byKey && k != ""
      ensures k in t.byKey && s.clients[s.byKey[k]].sdkId == t.clients[t.byKey[k]].sdkId
    {
      var id := s.clients[s.byKey[k]].sdkId;
      assert Live(s, s.byKey[k]) && id in s.Table();
      assert s.Table()[id] == t.Table()[id];
      assert t.ClientOf(id).Has(k);
    }
  }

  lemma AddsTable(p: Profile, order: seq<Id>)
    requires DistinctKeys(p.sdks) && Enumerates(order, p.sdks.Keys)
    ensures EnabledAll(map[], Adds(order, p.sdks)) && FitsAll(map[], Adds(order, p.sdks))
    ensures TableAll(map[], Adds(order, p.sdks)) == p.sdks
  {
    AddsRun(map[], order, p.sdks);
    assert map[] + Rows(p.sdks, Elems(order)) == p.sdks;
  }

  lemma AddsSound(conf: ProxyConf, p: Profile, order: seq<Id>)
    requires DistinctKeys(p.sdks) && Enumerates(order, p.sdks.Keys)
    ensures EnabledAll(map[], Adds(order, p.sdks))
    ensures var r := ApplyAll(Empty(conf, p.options), Adds(order, p.sdks));
            Sound(r) && r.Table() == p.sdks
  {
    AddsTable(p, order);
    assert Empty(conf, p.options).Table() == map[];
    RunSound(Empty(conf, p.options), Adds(order, p.sdks));
  }

  lemma AddsConfigure(ids: seq<Id>, sdks: map<Id, SdkModel>)
    requires Elems(ids) <= sdks.Keys
    ensures Elems(ids) <= ConfiguredAll({}, Adds(ids, sdks))
  {
    var adds := Adds(ids, sdks);
    ConfiguredGrows({}, adds);
    forall i | 0 <= i < |ids|
      ensures ids[i] in ConfiguredAll({}, adds)
    {
      assert adds[i].id == ids[i];
    }
  }

  lemma AddsMirror(conf: ProxyConf, p: Profile, order: seq<Id>)
    requires DistinctKeys(p.sdks) && Enumerates(order, p.sdks.Keys)
    ensures var r := ApplyAll(Empty(conf, p.options), Adds(order, p.sdks)); Mirrors(r, p) && r.conf == conf
  {
    var e, adds := Empty(conf, p.options), Adds(order, p.sdks);
    AddsSound(conf, p, order);
    assert e.Table() == map[];
    RunConfigured(e, adds, {});
    AddsConfigure(order, p.sdks);
    KeepsOptions(e, adds);
    assert ApplyAll(e, adds).byId.Keys == ApplyAll(e, adds).Table().Keys;
  }

  lemma PublishedIrrelevant(s: State, p: Profile, published: seq<Id>)
    requires Mirrors(s, p)
    ensures Mirrors(s.(published := published), p)
  {
    var c := s.(published := published);
    assert forall h: nat :: h < |s.clients| ==> Live(s, h) == Live(c, h);
    assert forall id :: id in s.byId ==> c.ClientOf(id) == s.ClientOf(id);
    assert c.Table() == s.Table();
    assert IndexExact(c);
  }

  lemma ConstructMirrors(conf: ProxyConf, p: Profile, order: seq<Id>)
    requires DistinctKeys(p.sdks) && Enumerates(order, p.sdks.Keys)
    ensures Mirrors(Construct(conf, p, order), p) && Construct(conf, p, order).conf == conf
    ensures forall id :: id in p.sdks ==>
              RunsAs(conf, p.options, id, Construct(conf, p, order).ClientOf(id).conf)
    ensures Construct(conf, p, order).published == []
  {
    AddsMirror(conf, p, order);
    PublishedIrrelevant(ApplyAll(Empty(conf, p.options), Adds(order, p.sdks)), p, []);
  }

  datatype Round = Round(profile: Profile, existing: seq<Id>, remote: seq<Id>)

  /** Each round lists the ids that are live when it starts, and its profile is well formed. */
  ghost predicate Listed(s: State, rounds: seq<Round>)
    requires s.InRange()
    decreases |rounds|
  {
    rounds == [] ||
    (&& Enumerates(rounds[0].existing, s.byId.Keys)
     && Enumerates(rounds[0].remote, rounds[0].profile.sdks.Keys)
     && Listed(Refresh(s, rounds[0].profile, rounds[0].existing, rounds[0].remote), rounds[1..]))
  }

  ghost function RunRounds(s: State, rounds: seq<Round>): (r: State)
    requires s.InRange() && Listed(s, rounds)
    ensures r.InRange()
    decreases |rounds|
  {
    if rounds == [] then s
    else RunRounds(Refresh(s, rounds[0].profile, rounds[0].existing, rounds[0].remote), rounds[1..])
  }

  ghost function Last(first: Profile, rounds: seq<Round>): Profile {
    if rounds == [] then first else rounds[|rounds| - 1].profile
  }

  /** Every profile has distinct keys, and no step from one profile to the next takes over a key. */
  ghost predicate WellBehaved(first: Profile, rounds: seq<Round>)
    decreases |rounds|
  {
    rounds == [] ||
    (&& DistinctKeys(rounds[0].profile.sdks)
     && NoTakeover(first, rounds[0].profile)
     && WellBehaved(rounds[0].profile, rounds[1..]))
  }

  lemma {:induction false} RunMirrors(s: State, first: Profile, rounds: seq<Round>)
    requires Mirrors(s, first) && WellBehaved(first, rounds) && Listed(s, rounds)
    ensures Mirrors(RunRounds(s, rounds), Last(first, rounds)) && RunRounds(s, rounds).conf == s.conf
    decreases |rounds|
  {
    if rounds != [] {
      var r := rounds[0];
      assert Served(s) == first;
      NoTakeoverIsClashFree(s, r.profile, r.existing, r.remote);
      RefreshMirrors(s, r.profile, r.existing, r.remote);
      RefreshOptions(s, r.profile, r.existing, r.remote);
      RunMirrors(Refresh(s, r.profile, r.existing, r.remote), r.profile, rounds[1..]);
    }
  }

  /** Reconciling equals rebuilding: after any run of refreshes every reader sees what a
      registrar constructed from the latest profile alone would show. */
  lemma {:induction false} ReconcileEqualsRebuild(
      conf: ProxyConf, first: Profile, order: seq<Id>, rounds: seq<Round>, rebuilt: seq<Id>)
    requires DistinctKeys(first.sdks) && Enumerates(order, first.sdks.Keys)
    requires WellBehaved(first, rounds) && Listed(Construct(conf, first, order), rounds)
    requires Enumerates(rebuilt, Last(first, rounds).sdks.Keys)
    ensures var r := RunRounds(Construct(conf, first, order), rounds);
            var anew := Construct(conf, Last(first, rounds), rebuilt);
            Sound(r) && Sound(anew) && Observe(r) == Observe(anew)
  {
    ConstructMirrors(conf, first, order);
    RunMirrors(Construct(conf, first, order), first, rounds);
    assert DistinctKeys(Last(first, rounds).sdks);
    ConstructMirrors(conf, Last(first, rounds), rebuilt);
    MirrorsDetermines(RunRounds(Construct(conf, first, order), rounds), Construct(conf, Last(first, rounds), rebuilt),
                      Last(first, rounds));
  }

  // ----- The shortest takeover -----

  lemma TwoSdks(a: Id, b: Id, k: Key, l: Key)
    requires a != b && k != "" && l != "" && k != l
    ensures DistinctKeys(map[a := SdkModel(k, ""), b := SdkModel(l, "")])
    ensures Enumerates([a, b], map[a := SdkModel(k, ""), b := SdkModel(l, "")].Keys)
  {
    assert Elems([a, b]) == {a, b};
  }

  lemma Takes(options: Options, a: Id, b: Id, k1: Key, k2: Key, k3: Key)
    requires a != b && k2 != "" && k2 != k3
    ensures !NoTakeover(Profile(map[a := SdkModel(k1, ""), b := SdkModel(k2, "")], options),
                        Profile(map[a := SdkModel(k2, ""), b := SdkModel(k3, "")], options))
  {
    var from := Profile(map[a := SdkModel(k1, ""), b := SdkModel(k2, "")], options);
    var to := Profile(map[a := SdkModel(k2, ""), b := SdkModel(k3, "")], options);
    assert to.sdks[a].Has(k2) && from.sdks[b].Has(k2);
    assert to.sdks[a].SharesKeyWith(from.sdks[b]);
  }

  /** From a freshly constructed registrar: one SDK takes the primary key of another, which gets
      a new one. Under some listing order the refresh does not end at the profile. */
  lemma TakeoverOccurs(conf: ProxyConf, options: Options, a: Id, b: Id, k1: Key, k2: Key, k3: Key)
    returns (existing: seq<Id>, remote: seq<Id>)
    requires a != b && k1 != "" && k2 != "" && k3 != "" && k1 != k2 && k2 != k3
    ensures var from := Profile(map[a := SdkModel(k1, ""), b := SdkModel(k2, "")], options);
            var to := Profile(map[a := SdkModel(k2, ""), b := SdkModel(k3, "")], options);
            && Enumerates([a, b], from.sdks.Keys) && DistinctKeys(from.sdks) && DistinctKeys(to.sdks)
            && var s := Construct(conf, from, [a, b]);
               && Enumerates(existing, s.byId.Keys) && Enumerates(remote, to.sdks.Keys)
               && !Mirrors(Refresh(s, to, existing, remote), to)
  {
    var from := Profile(map[a := SdkModel(k1, ""), b := SdkModel(k2, "")], options);
    var to := Profile(map[a := SdkModel(k2, ""), b := SdkModel(k3, "")], options);
    TwoSdks(a, b, k1, k2);
    TwoSdks(a, b, k2, k3);
    Takes(options, a, b, k1, k2, k3);
    ConstructMirrors(conf, from, [a, b]);
    existing, remote := TakeoverBreaks(Construct(conf, from, [a, b]), to);
  }
}
