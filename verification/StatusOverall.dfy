/** When the overall health is exact: it is recalculated at some events only. */
module StatusOverall {
  import opened Common
  import opened ProfileModel
  import opened Status
  import opened StatusRuns

  /** Event `e` after `init` recalculates the overall health: a report on a registered SDK, the
      error that a registration itself logs, or a removal. */
  predicate Recalculates(cacheConfigured: bool, init: seq<Event>, e: Event) {
    match e
    case Report(component, _, _, _) => component != CACHE && HistoryOf(cacheConfigured, init, component).registered
    case Call(RegisterSdk(id, conf), _) => id != CACHE && NeedsCache(conf) && !cacheConfigured
    case Call(RemoveSdk(_), _) => true
    case Call(UpdateSdk(_, _), _) => false
  }

  /** The overall health was recalculated since the last registration, or by it. */
  predicate Settled(cacheConfigured: bool, events: seq<Event>) {
    events != [] &&
    var init, e := events[..|events| - 1], events[|events| - 1];
    Recalculates(cacheConfigured, init, e) || (!(e.Call? && e.call.RegisterSdk?) && Settled(cacheConfigured, init))
  }

  /** The longest part of the run that ends with a recalculation; empty if there was none. */
  function Recalculated(cacheConfigured: bool, events: seq<Event>): (r: seq<Event>)
    ensures r <= events
  {
    if events == [] then []
    else
      var init := events[..|events| - 1];
      if Recalculates(cacheConfigured, init, events[|events| - 1]) then events else Recalculated(cacheConfigured, init)
  }

  /** The health that the events give to a registered SDK; the one that shares its id with the
      cache never leaves its first state. */
  ghost function ListedHealth(cacheConfigured: bool, events: seq<Event>, id: Id): Health {
    if id == CACHE then Initializing else HealthOf(HistoryOf(cacheConfigured, events, id))
  }

  /** Every registered SDK has the health `h`. */
  ghost predicate AllAre(cacheConfigured: bool, events: seq<Event>, h: Health) {
    forall id :: HistoryOf(cacheConfigured, events, id).registered ==> ListedHealth(cacheConfigured, events, id) == h
  }

  /** What the events add up to: the proxy is down when every registered SDK is or there is none,
      healthy when every one is, and degraded otherwise. */
  ghost function OverallOf(cacheConfigured: bool, events: seq<Event>): Health {
    if AllAre(cacheConfigured, events, Down) then Down
    else if AllAre(cacheConfigured, events, Healthy) then Healthy
    else Degraded
  }

  // ----- What the events say about each listed SDK -----

  lemma StepOfCacheSdk(s: Status.State, e: Event)
    requires Step(s, e).Some? && (CACHE in s.sdks ==> s.sdks[CACHE].health == Initializing)
    ensures var t := Step(s, e).value;
            && (CACHE in t.sdks ==> t.sdks[CACHE].health == Initializing)
            && (CACHE in t.sdks <==>
                  if e.Call? && e.call.id == CACHE && !e.call.UpdateSdk? then e.call.RegisterSdk? else CACHE in s.sdks)
  {
  }

  lemma {:induction false} CacheSdk(cacheConfigured: bool, events: seq<Event>)
    requires Replay(cacheConfigured, events).Some?
    ensures var s := Replay(cacheConfigured, events).value;
            && (CACHE in s.sdks <==> HistoryOf(cacheConfigured, events, CACHE).registered)
            && (CACHE in s.sdks ==> s.sdks[CACHE].health == Initializing)
  {
    if events != [] {
      CacheSdk(cacheConfigured, events[..|events| - 1]);
      StepOfCacheSdk(Replay(cacheConfigured, events[..|events| - 1]).value, events[|events| - 1]);
    }
  }

  lemma Listed(cacheConfigured: bool, events: seq<Event>, id: Id)
    requires Replay(cacheConfigured, events).Some?
    ensures var s := Replay(cacheConfigured, events).value;
            && (id in s.sdks <==> HistoryOf(cacheConfigured, events, id).registered)
            && (id in s.sdks ==> s.sdks[id].health == ListedHealth(cacheConfigured, events, id))
  {
    if id == CACHE {
      CacheSdk(cacheConfigured, events);
    } else {
      HealthClosedForm(cacheConfigured, events, id);
    }
  }

  /** The recalculation computes from the listed SDKs what the events add up to. */
  lemma OverallReads(cacheConfigured: bool, events: seq<Event>)
    requires Replay(cacheConfigured, events).Some?
    ensures Overall(Replay(cacheConfigured, events).value.sdks) == OverallOf(cacheConfigured, events)
  {
    forall id
      ensures var s := Replay(cacheConfigured, events).value;
              && (id in s.sdks <==> HistoryOf(cacheConfigured, events, id).registered)
              && (id in s.sdks ==> s.sdks[id].health == ListedHealth(cacheConfigured, events, id))
    {
      Listed(cacheConfigured, events, id);
    }
  }

  // ----- One event -----

  lemma RecalculatingStep(s: Status.State, e: Event)
    requires Step(s, e).Some?
    requires match e
             case Report(component, _, _, _) => component != CACHE && component in s.sdks
             case Call(RegisterSdk(id, conf), _) => id != CACHE && NeedsCache(conf) && !s.cacheConfigured
             case Call(RemoveSdk(_), _) => true
             case Call(UpdateSdk(_, _), _) => false
    ensures Step(s, e).value.overall == Overall(Step(s, e).value.sdks)
  {
  }

  lemma OtherStepKeepsOverall(s: Status.State, e: Event)
    requires Step(s, e).Some?
    requires match e
             case Report(component, _, _, _) => component == CACHE || component !in s.sdks
             case Call(RegisterSdk(id, conf), _) => id == CACHE || !NeedsCache(conf) || s.cacheConfigured
             case Call(RemoveSdk(_), _) => false
             case Call(UpdateSdk(_, _), _) => true
    ensures var t := Step(s, e).value;
            && t.overall == s.overall
            && (!(e.Call? && e.call.RegisterSdk?) ==>
                  t.sdks.Keys == s.sdks.Keys && forall id :: id in s.sdks ==> t.sdks[id].health == s.sdks[id].health)
            && (e.Call? && e.call.RegisterSdk? ==> t.sdks[e.call.id].health == Initializing && e.call.id in t.sdks)
  {
  }

  lemma SameHealths(a: map<Id, SdkStatus>, b: map<Id, SdkStatus>)
    requires a.Keys == b.Keys && forall id :: id in a ==> a[id].health == b[id].health
    ensures Overall(a) == Overall(b)
  {
    assert forall id :: id in a <==> id in b;
  }

  // ----- Runs -----

  /** Only a recalculation changes the overall health, to what the SDKs then add up to. */
  lemma {:induction false} OverallIs(cacheConfigured: bool, events: seq<Event>)
    requires Replay(cacheConfigured, events).Some?
    ensures var p := Recalculated(cacheConfigured, events);
            && Replay(cacheConfigured, p).Some?
            && Replay(cacheConfigured, events).value.overall ==
                 if p == [] then Initializing else OverallOf(cacheConfigured, p)
  {
    if events != [] {
      var init, e := events[..|events| - 1], events[|events| - 1];
      OverallIs(cacheConfigured, init);
      Configured(cacheConfigured, init);
      if e.Report? {
        Listed(cacheConfigured, init, e.component);
      }
      if Recalculates(cacheConfigured, init, e) {
        RecalculatingStep(Replay(cacheConfigured, init).value, e);
        OverallReads(cacheConfigured, events);
      } else {
        OtherStepKeepsOverall(Replay(cacheConfigured, init).value, e);
      }
    }
  }

  lemma Configured(cacheConfigured: bool, events: seq<Event>)
    requires Replay(cacheConfigured, events).Some?
    ensures Replay(cacheConfigured, events).value.cacheConfigured == cacheConfigured
  {
    HealthClosedForm(cacheConfigured, events, "");
  }

  /** A registration that was not followed by a recalculation, or no registration at all. */
  ghost predicate Waiting(s: Status.State) {
    s.sdks == map[] || exists id :: id in s.sdks && s.sdks[id].health == Initializing
  }

  lemma {:induction false} SettledIsExact(cacheConfigured: bool, events: seq<Event>)
    requires Replay(cacheConfigured, events).Some?
    ensures var s := Replay(cacheConfigured, events).value;
            if Settled(cacheConfigured, events) then s.overall == Overall(s.sdks) else Waiting(s)
    ensures !Settled(cacheConfigured, events) && Replay(cacheConfigured, events).value.sdks == map[] ==>
              Recalculated(cacheConfigured, events) == []
  {
    if events != [] {
      var init, e := events[..|events| - 1], events[|events| - 1];
      var s := Replay(cacheConfigured, init).value;
      SettledIsExact(cacheConfigured, init);
      Configured(cacheConfigured, init);
      if e.Report? {
        Listed(cacheConfigured, init, e.component);
      }
      if Recalculates(cacheConfigured, init, e) {
        RecalculatingStep(s, e);
      } else {
        OtherStepKeepsOverall(s, e);
        if e.Call? && e.call.RegisterSdk? {
          assert e.call.id in Step(s, e).value.sdks;
        } else {
          SameHealths(s.sdks, Step(s, e).value.sdks);
          StillWaiting(s, Step(s, e).value);
        }
      }
    }
  }

  lemma StillWaiting(s: Status.State, t: Status.State)
    requires s.sdks.Keys == t.sdks.Keys && forall id :: id in s.sdks ==> t.sdks[id].health == s.sdks[id].health
    ensures Waiting(s) ==> Waiting(t)
    ensures t.sdks == map[] <==> s.sdks == map[]
  {
    if id :| id in s.sdks && s.sdks[id].health == Initializing {
      assert id in t.sdks && t.sdks[id].health == Initializing;
    }
    assert s.sdks == map[] <==> s.sdks.Keys == {};
    assert t.sdks == map[] <==> t.sdks.Keys == {};
  }

  /** After any run the overall health is what the events add up to if and only if it was
      recalculated since the last registration, or the registered SDKs were neither all down nor
      all healthy when it last was. */
  lemma {:induction false} OverallExactIff(cacheConfigured: bool, events: seq<Event>)
    requires Replay(cacheConfigured, events).Some?
    ensures var p := Recalculated(cacheConfigured, events);
            Replay(cacheConfigured, events).value.overall == OverallOf(cacheConfigured, events)
            <==> || Settled(cacheConfigured, events)
                 || (p != [] && !AllAre(cacheConfigured, p, Down) && !AllAre(cacheConfigured, p, Healthy))
  {
    var s, p := Replay(cacheConfigured, events).value, Recalculated(cacheConfigured, events);
    SettledIsExact(cacheConfigured, events);
    OverallIs(cacheConfigured, events);
    OverallReads(cacheConfigured, events);
    if !Settled(cacheConfigured, events) && s.sdks != map[] {
      var id :| id in s.sdks && s.sdks[id].health == Initializing;
      assert Overall(s.sdks) == Degraded;
    }
  }

  /** The shortest run with an inexact overall health: an SDK reports success, then another one
      is registered. */
  lemma NewSdkIsOverlooked(a: Id, b: Id, first: SdkConfig, second: SdkConfig, message: string)
    requires a != b && a != CACHE && b != CACHE
    ensures var events :=
              [Call(RegisterSdk(a, first), 0), Report(a, false, message, 1), Call(RegisterSdk(b, second), 2)];
            && Replay(true, events).Some?
            && Replay(true, events).value.overall == Healthy && OverallOf(true, events) == Degraded
  {
    var e1, e2, e3 := Call(RegisterSdk(a, first), 0), Report(a, false, message, 1), Call(RegisterSdk(b, second), 2);
    ReplayThree(true, e1, e2, e3);
    var s := Register(Initial(true), a, first, 0);
    assert s.sdks == map[a := FreshStatus(first)] && s.records == map[];
    OneOk(s, a, message, 1);
    NewcomerIsOverlooked(AppendRecord(s, a, false, message, 1), b, second, 2);
    OverallReads(true, [e1, e2, e3]);
  }

  lemma ReplayThree(cacheConfigured: bool, a: Event, b: Event, c: Event)
    requires Step(Initial(cacheConfigured), a).Some?
    requires Step(Step(Initial(cacheConfigured), a).value, b).Some?
    ensures Replay(cacheConfigured, [a, b, c]) ==
              Step(Step(Step(Initial(cacheConfigured), a).value, b).value, c)
  {
    assert [a][..|[a]| - 1] == [] && [a, b][..|[a, b]| - 1] == [a] && [a, b, c][..|[a, b, c]| - 1] == [a, b];
    assert Replay(cacheConfigured, []) == Some(Initial(cacheConfigured));
    assert Replay(cacheConfigured, [a]) == Step(Initial(cacheConfigured), a);
    assert Replay(cacheConfigured, [a, b]) == Step(Step(Initial(cacheConfigured), a).value, b);
  }

  lemma OneOk(s: Status.State, id: Id, message: string, now: int)
    requires id != CACHE && s.sdks.Keys == {id} && id !in s.records
    ensures var t := AppendRecord(s, id, false, message, now);
            t.sdks.Keys == {id} && t.sdks[id].health == Healthy && t.overall == Healthy
  {
  }

  lemma NewcomerIsOverlooked(s: Status.State, id: Id, conf: SdkConfig, now: int)
    requires s.cacheConfigured && s.overall == Healthy && id !in s.sdks
    requires exists other :: other in s.sdks && s.sdks[other].health == Healthy
    ensures Register(s, id, conf, now).overall == Healthy
    ensures Overall(Register(s, id, conf, now).sdks) == Degraded
  {
    var other :| other in s.sdks && s.sdks[other].health == Healthy;
    var t := Register(s, id, conf, now);
    assert t.sdks[id].health == Initializing && t.sdks[other].health == Healthy;
  }
}
