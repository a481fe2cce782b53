/** Runs of the status reporter: any interleaving of the registrar's calls with reports. */
module StatusRuns {
  import opened Common
  import opened ProfileModel
  import opened Status
  import opened Registrar
  import opened ReconcileRuns
  import opened RegistrarEffects

  datatype Event =
    | Call(call: ReporterCall, now: int)
    | Report(component: string, isError: bool, message: string, now: int)

  /** One event; `None` is the crash of updating an unknown SDK. */
  ghost function Step(s: Status.State, e: Event): Option<Status.State> {
    match e
    case Report(component, isError, message, now) => Some(AppendRecord(s, component, isError, message, now))
    case Call(RegisterSdk(id, conf), now) => Some(Register(s, id, conf, now))
    case Call(UpdateSdk(id, conf), _) => if id in s.sdks then Some(Update(s, id, conf)) else None
    case Call(RemoveSdk(id), _) => Some(Remove(s, id))
  }

  ghost function Replay(cacheConfigured: bool, events: seq<Event>): Option<Status.State> {
    if events == [] then Some(Initial(cacheConfigured))
    else
      var before := Replay(cacheConfigured, events[..|events| - 1]);
      if before.None? then None else Step(before.value, events[|events| - 1])
  }

  // ----- What a run says about one SDK, read off the events alone -----

  /** One report as it was made. */
  datatype Said = Said(isError: bool, message: string, time: int)

  /** Everything that was said about `id` since it was last removed, without any bound. `since`
      is the length that log had when the SDK was last registered. */
  datatype History = History(log: seq<Said>, registered: bool, since: nat)

  /** The SDK is to read its configuration from the cache. */
  predicate NeedsCache(conf: SdkConfig) {
    conf.offline.enabled && conf.offline.filePath == ""
  }

  /** What registering an SDK itself logs. */
  function RegistrationError(cacheConfigured: bool, conf: SdkConfig, now: int): seq<Said> {
    if NeedsCache(conf) && !cacheConfigured
    then [Said(true, "cache offline source enabled without a configured cache", now)]
    else []
  }

  function Extend(cacheConfigured: bool, h: History, e: Event, id: Id): History {
    match e
    case Report(component, isError, message, now) =>
      if component == id then h.(log := h.log + [Said(isError, message, now)]) else h
    case Call(RegisterSdk(i, conf), now) =>
      if i != id then h else History(h.log + RegistrationError(cacheConfigured, conf, now), true, |h.log|)
    case Call(RemoveSdk(i), _) => if i == id then History([], false, 0) else h
    case Call(UpdateSdk(_, _), _) => h
  }

  function HistoryOf(cacheConfigured: bool, events: seq<Event>, id: Id): (h: History)
    ensures h.since <= |h.log|
  {
    if events == [] then History([], false, 0)
    else Extend(cacheConfigured, HistoryOf(cacheConfigured, events[..|events| - 1], id), events[|events| - 1], id)
  }

  /** The verdict over a log: its last two reports, or its only one, are errors. */
  predicate Fails(log: seq<Said>) {
    log != [] && forall i :: |log| - 2 <= i < |log| && 0 <= i ==> log[i].isError
  }

  /** Some verdict since the registration was good. */
  ghost predicate WorkedSince(log: seq<Said>, since: nat) {
    exists n :: since < n <= |log| && !Fails(log[..n])
  }

  /** The health of a registered SDK as a function of everything said about it. */
  ghost function HealthOf(h: History): Health {
    if |h.log| == h.since then Initializing
    else if !Fails(h.log) then Healthy
    else if WorkedSince(h.log, h.since) then Degraded
    else Down
  }

  function LastFive<T>(s: seq<T>): seq<T> {
    if |s| <= 5 then s else s[|s| - 5..]
  }

  /** `r` is the record of what was said. */
  predicate Records(r: Record, said: Said) {
    && r.time == said.time
    && r.isError == said.isError
    && r.message == if said.isError then "[error] " + said.message else "[ok] " + said.message
  }

  /** The records are those of the last five reports, oldest first. */
  predicate Keeps(records: seq<Record>, log: seq<Said>) {
    && |records| == |LastFive(log)|
    && forall i :: 0 <= i < |records| ==> Records(records[i], LastFive(log)[i])
  }

  function RecordsOf(s: Status.State, id: Id): seq<Record> {
    if id in s.records then s.records[id] else []
  }

  ghost predicate Agrees(s: Status.State, h: History, id: Id) {
    && (id in s.sdks <==> h.registered)
    && Keeps(RecordsOf(s, id), h.log)
    && (h.registered ==> s.sdks[id].health == HealthOf(h))
    && (h.registered ==> s.sdks[id].records == if |h.log| == h.since then [] else RecordsOf(s, id))
  }

  /** The bounded window decides like the full log. */
  lemma WindowFails(records: seq<Record>, log: seq<Said>)
    requires Keeps(records, log)
    ensures Failing(records) <==> Fails(log)
  {
    var n := |log|;
    if n != 0 {
      assert Records(records[|records| - 1], log[n - 1]);
      assert n >= 2 ==> Records(records[|records| - 2], log[n - 2]);
    }
  }

  lemma NewRecordRecords(isError: bool, message: string, now: int)
    ensures Records(NewRecord(isError, message, now), Said(isError, message, now))
  {
  }

  /** One more report: it is recorded last, and the sixth record back is dropped. */
  lemma AppendedKeeps(s: Status.State, log: seq<Said>, id: Id, isError: bool, message: string, now: int)
    requires Keeps(RecordsOf(s, id), log)
    ensures Keeps(Appended(s, id, NewRecord(isError, message, now)), log + [Said(isError, message, now)])
  {
    hide Records, NewRecord;
    NewRecordRecords(isError, message, now);
    var longer, recs := log + [Said(isError, message, now)], Appended(s, id, NewRecord(isError, message, now));
    forall i | 0 <= i < |recs|
      ensures Records(recs[i], LastFive(longer)[i])
    {
      if |log| < 5 {
        assert i < |log| ==> Records(RecordsOf(s, id)[i], LastFive(log)[i]);
      } else {
        assert i < 4 ==> Records(RecordsOf(s, id)[i + 1], LastFive(log)[i + 1]);
      }
    }
  }

  lemma WorkedMore(log: seq<Said>, since: nat, said: Said)
    requires since <= |log|
    ensures WorkedSince(log + [said], since) <==> WorkedSince(log, since) || !Fails(log + [said])
  {
    var longer := log + [said];
    assert longer[..|longer|] == longer;
    forall n | 0 <= n <= |log|
      ensures longer[..n] == log[..n]
    {
    }
    if !Fails(longer) {
      assert since < |longer| && !Fails(longer[..|longer|]);
    }
    if WorkedSince(log, since) {
      var n :| since < n <= |log| && !Fails(log[..n]);
      assert !Fails(longer[..n]);
    }
    if WorkedSince(longer, since) {
      var n :| since < n <= |longer| && !Fails(longer[..n]);
      assert n <= |log| ==> !Fails(log[..n]);
    }
  }

  lemma HealthAfter(h: History, said: Said)
    requires h.since <= |h.log|
    ensures HealthOf(h.(log := h.log + [said])) == NextHealth(HealthOf(h), Fails(h.log + [said]))
  {
    hide Fails;
    WorkedMore(h.log, h.since, said);
    assert h.log[..|h.log|] == h.log;
    if |h.log| != h.since && !Fails(h.log) {
      assert h.since < |h.log| && !Fails(h.log[..|h.log|]);
    }
    assert |h.log| == h.since ==> !WorkedSince(h.log, h.since);
  }

  lemma ReportAgrees(s: Status.State, h: History, id: Id, isError: bool, message: string, now: int)
    requires id != CACHE && Agrees(s, h, id) && h.since <= |h.log|
    ensures Agrees(AppendRecord(s, id, isError, message, now),
                   h.(log := h.log + [Said(isError, message, now)]), id)
  {
    hide Keeps, Fails, Failing, HealthOf;
    AppendedKeeps(s, h.log, id, isError, message, now);
    WindowFails(Appended(s, id, NewRecord(isError, message, now)), h.log + [Said(isError, message, now)]);
    HealthAfter(h, Said(isError, message, now));
  }

  lemma RegisterAgrees(s: Status.State, h: History, id: Id, conf: SdkConfig, now: int)
    requires id != CACHE && Agrees(s, h, id)
    ensures Agrees(Register(s, id, conf, now),
                   History(h.log + RegistrationError(s.cacheConfigured, conf, now), true, |h.log|), id)
  {
    var plain := s.(sdks := s.sdks[id := FreshStatus(conf)], cacheHealth := Register(s, id, conf, now).cacheHealth);
    var g := History(h.log, true, |h.log|);
    assert Agrees(plain, g, id);
    assert h.log + [] == h.log;
    if MissesCache(s.cacheConfigured, conf) {
      ReportAgrees(plain, g, id, true, NO_CACHE_MESSAGE, now);
    }
  }

  ghost predicate Concerns(e: Event, id: Id) {
    if e.Report? then e.component == id else e.call.id == id
  }

  lemma OtherStep(s: Status.State, e: Event, id: Id)
    requires Step(s, e).Some? && !Concerns(e, id)
    ensures var t := Step(s, e).value;
            && (id in t.sdks <==> id in s.sdks) && (id in s.sdks ==> t.sdks[id] == s.sdks[id])
            && RecordsOf(t, id) == RecordsOf(s, id)
  {
  }

  lemma {:induction false} StepAgrees(s: Status.State, h: History, e: Event, id: Id)
    requires id != CACHE && Agrees(s, h, id) && h.since <= |h.log| && Step(s, e).Some?
    ensures Agrees(Step(s, e).value, Extend(s.cacheConfigured, h, e, id), id)
  {
    if !Concerns(e, id) {
      OtherStep(s, e, id);
    } else {
      match e
      case Report(_, isError, message, now) => ReportAgrees(s, h, id, isError, message, now);
      case Call(RegisterSdk(_, conf), now) => RegisterAgrees(s, h, id, conf, now);
      case Call(UpdateSdk(_, _), _) =>
      case Call(RemoveSdk(_), _) =>
    }
  }

  lemma StepCache(s: Status.State, e: Event)
    requires Step(s, e).Some?
    ensures Step(s, e).value.cacheConfigured == s.cacheConfigured
  {
  }

  /** After any run: an SDK is listed exactly while registered, its records are the last five of
      its unbounded log, shown once there was a report since the registration, and its health
      is the closed form over that log. */
  lemma {:induction false} HealthClosedForm(cacheConfigured: bool, events: seq<Event>, id: Id)
    requires id != CACHE && Replay(cacheConfigured, events).Some?
    ensures Replay(cacheConfigured, events).value.cacheConfigured == cacheConfigured
    ensures Agrees(Replay(cacheConfigured, events).value, HistoryOf(cacheConfigured, events, id), id)
  {
    if events != [] {
      var init := events[..|events| - 1];
      HealthClosedForm(cacheConfigured, init, id);
      StepCache(Replay(cacheConfigured, init).value, events[|events| - 1]);
      StepAgrees(Replay(cacheConfigured, init).value, HistoryOf(cacheConfigured, init, id), events[|events| - 1], id);
    }
  }

  ghost predicate Relists(e: Event, id: Id) {
    e.Call? && !e.call.UpdateSdk? && e.call.id == id
  }

  lemma {:induction false} HistoryGrows(cacheConfigured: bool, events: seq<Event>, more: seq<Event>, id: Id)
    requires forall i :: 0 <= i < |more| ==> !Relists(more[i], id)
    ensures var h, g := HistoryOf(cacheConfigured, events, id), HistoryOf(cacheConfigured, events + more, id);
            h.log <= g.log && h.since == g.since && h.registered == g.registered
  {
    if more == [] {
      assert events + more == events;
    } else {
      assert (events + more)[..|events + more| - 1] == events + more[..|more| - 1];
      HistoryGrows(cacheConfigured, events, more[..|more| - 1], id);
    }
  }

  /** An SDK that was healthy once is never down again before it is registered anew. */
  lemma OnceHealthyNeverDown(cacheConfigured: bool, events: seq<Event>, more: seq<Event>, id: Id)
    requires id != CACHE && forall i :: 0 <= i < |more| ==> !Relists(more[i], id)
    requires Replay(cacheConfigured, events).Some? && Replay(cacheConfigured, events + more).Some?
    requires id in Replay(cacheConfigured, events).value.sdks
    requires Replay(cacheConfigured, events).value.sdks[id].health == Healthy
    ensures var t := Replay(cacheConfigured, events + more).value;
            id in t.sdks && (t.sdks[id].health == Healthy || t.sdks[id].health == Degraded)
  {
    HealthClosedForm(cacheConfigured, events, id);
    HealthClosedForm(cacheConfigured, events + more, id);
    HistoryGrows(cacheConfigured, events, more, id);
    var h, g := HistoryOf(cacheConfigured, events, id), HistoryOf(cacheConfigured, events + more, id);
    assert g.log[..|h.log|] == h.log;
    assert WorkedSince(g.log, g.since);
  }

  // ----- The cache -----

  /** No SDK has the id that stands for the cache. */
  ghost predicate CacheIsNoSdk(events: seq<Event>) {
    forall i :: 0 <= i < |events| && events[i].Call? ==> events[i].call.id != CACHE
  }

  predicate HidesCache(cacheConfigured: bool, conf: SdkConfig) {
    !cacheConfigured || (conf.offline.enabled && conf.offline.filePath != "")
  }

  /** The health of the cache as its latest verdict over the unbounded log of its reports, unless
      a later registration found no cache, or an SDK that reads from a file. */
  function CacheVerdict(cacheConfigured: bool, events: seq<Event>): Health {
    if events == [] then Initializing
    else
      var init := events[..|events| - 1];
      match events[|events| - 1]
      case Report(component, _, _, _) =>
        if component != CACHE then CacheVerdict(cacheConfigured, init)
        else if Fails(HistoryOf(cacheConfigured, events, CACHE).log) then Degraded else Healthy
      case Call(RegisterSdk(_, conf), _) =>
        if HidesCache(cacheConfigured, conf) then NA else CacheVerdict(cacheConfigured, init)
      case _ => CacheVerdict(cacheConfigured, init)
  }

  ghost predicate CacheAgrees(s: Status.State, log: seq<Said>, verdict: Health) {
    && Keeps(RecordsOf(s, CACHE), log)
    && s.cacheRecords == RecordsOf(s, CACHE)
    && s.cacheHealth == verdict
  }

  lemma CacheReport(s: Status.State, log: seq<Said>, isError: bool, message: string, now: int)
    requires Keeps(RecordsOf(s, CACHE), log)
    ensures var longer := log + [Said(isError, message, now)];
            CacheAgrees(AppendRecord(s, CACHE, isError, message, now), longer,
                        if Fails(longer) then Degraded else Healthy)
  {
    hide Keeps, Fails, Failing;
    AppendedKeeps(s, log, CACHE, isError, message, now);
    WindowFails(Appended(s, CACHE, NewRecord(isError, message, now)), log + [Said(isError, message, now)]);
  }

  lemma CacheUntouched(s: Status.State, e: Event)
    requires Step(s, e).Some? && (if e.Report? then e.component != CACHE else e.call.id != CACHE)
    ensures var t := Step(s, e).value;
            && RecordsOf(t, CACHE) == RecordsOf(s, CACHE) && t.cacheRecords == s.cacheRecords
            && t.cacheHealth == if e.Call? && e.call.RegisterSdk? && HidesCache(s.cacheConfigured, e.call.conf)
                                then NA else s.cacheHealth
  {
  }

  /** After any run the shown cache records are the last five reports on the cache, and its
      health is the closed form over all of them. */
  lemma {:induction false} CacheClosedForm(cacheConfigured: bool, events: seq<Event>)
    requires CacheIsNoSdk(events) && Replay(cacheConfigured, events).Some?
    ensures Replay(cacheConfigured, events).value.cacheConfigured == cacheConfigured
    ensures CacheAgrees(Replay(cacheConfigured, events).value, HistoryOf(cacheConfigured, events, CACHE).log,
                        CacheVerdict(cacheConfigured, events))
  {
    if events != [] {
      var init, e := events[..|events| - 1], events[|events| - 1];
      CacheClosedForm(cacheConfigured, init);
      var s := Replay(cacheConfigured, init).value;
      StepCache(s, e);
      if e.Report? && e.component == CACHE {
        CacheReport(s, HistoryOf(cacheConfigured, init, CACHE).log, e.isError, e.message, e.now);
      } else {
        CacheUntouched(s, e);
      }
    }
  }

  // ----- The reporter shows the registrar's SDKs -----

  function Calls(events: seq<Event>): seq<ReporterCall> {
    if events == [] then []
    else
      var e := events[|events| - 1];
      Calls(events[..|events| - 1]) + if e.Call? then [e.call] else []
  }

  /** `id` is offline because the whole proxy is, or because its local entry says so. */
  predicate OfflineId(proxy: ProxyConf, id: Id) {
    proxy.globalOffline || (id in proxy.localOffline && proxy.localOffline[id].enabled)
  }

  function SourceOf(proxy: ProxyConf, id: Id): Source {
    if !OfflineId(proxy, id) then RemoteSrc
    else if id in proxy.localOffline && proxy.localOffline[id].filePath != "" then FileSrc
    else CacheSrc
  }

  /** The reporter lists the SDKs of `confs`, each with all but the last five characters of its
      key hidden, and with the mode and the source that the proxy's own configuration gives it. */
  ghost predicate Shows(s: Status.State, proxy: ProxyConf, confs: map<Id, SdkConfig>) {
    && s.sdks.Keys == confs.Keys
    && forall id :: id in s.sdks ==>
         && s.sdks[id].key == Obfuscate(confs[id].key, 5)
         && s.sdks[id].offline == OfflineId(proxy, id)
         && s.sdks[id].source == SourceOf(proxy, id)
  }

  lemma FreshShows(proxy: ProxyConf, id: Id, conf: SdkConfig)
    requires OfflineAs(proxy, id, conf.offline)
    ensures FreshStatus(conf).key == Obfuscate(conf.key, 5)
    ensures FreshStatus(conf).offline == OfflineId(proxy, id) && FreshStatus(conf).source == SourceOf(proxy, id)
  {
  }

  lemma AppendedShows(
      s: Status.State, component: string, isError: bool, message: string, now: int, proxy: ProxyConf,
      confs: map<Id, SdkConfig>)
    requires Shows(s, proxy, confs)
    ensures Shows(AppendRecord(s, component, isError, message, now), proxy, confs)
  {
    hide OfflineId, SourceOf, Obfuscate, Overall, NewRecord, Appended, Failing;
    var t := AppendRecord(s, component, isError, message, now);
    assert t.sdks.Keys == s.sdks.Keys;
    assert forall id :: id in s.sdks ==> t.sdks[id].key == s.sdks[id].key;
    assert forall id :: id in s.sdks ==> t.sdks[id].offline == s.sdks[id].offline;
    assert forall id :: id in s.sdks ==> t.sdks[id].source == s.sdks[id].source;
  }

  lemma ReportShows(s: Status.State, e: Event, proxy: ProxyConf, confs: map<Id, SdkConfig>)
    requires e.Report? && Shows(s, proxy, confs)
    ensures Step(s, e).Some? && Shows(Step(s, e).value, proxy, confs)
  {
    hide Shows, AppendRecord;
    AppendedShows(s, e.component, e.isError, e.message, e.now, proxy, confs);
  }

  lemma RegisterShows(s: Status.State, id: Id, conf: SdkConfig, now: int, proxy: ProxyConf, confs: map<Id, SdkConfig>)
    requires Shows(s, proxy, confs) && OfflineAs(proxy, id, conf.offline)
    ensures Shows(Register(s, id, conf, now), proxy, confs[id := conf])
  {
    hide OfflineAs, OfflineId, SourceOf, FreshStatus, Obfuscate, AppendRecord;
    FreshShows(proxy, id, conf);
    var plain := s.(sdks := s.sdks[id := FreshStatus(conf)],
                    cacheHealth := if !s.cacheConfigured || (conf.offline.enabled && conf.offline.filePath != "")
                                   then NA else s.cacheHealth);
    assert Shows(plain, proxy, confs[id := conf]);
    AppendedShows(plain, id, true, NO_CACHE_MESSAGE, now, proxy, confs[id := conf]);
  }

  lemma CallShows(
      s: Status.State, e: Event, proxy: ProxyConf, confs: map<Id, SdkConfig>, after: map<Id, SdkConfig>)
    requires e.Call? && Shows(s, proxy, confs)
    requires e.call.RegisterSdk? ==> OfflineAs(proxy, e.call.id, e.call.conf.offline)
    requires match e.call
             case RegisterSdk(id, conf) => after == confs[id := conf]
             case UpdateSdk(id, conf) => id in confs && after == confs[id := conf]
             case RemoveSdk(id) => after == confs - {id}
    ensures Step(s, e).Some? && Shows(Step(s, e).value, proxy, after)
  {
    hide OfflineAs, OfflineId, SourceOf, FreshStatus, Obfuscate;
    assert forall id :: id in s.sdks <==> id in confs;
    match e.call
    case RegisterSdk(id, conf) => RegisterShows(s, id, conf, e.now, proxy, confs);
    case UpdateSdk(_, _) =>
    case RemoveSdk(_) =>
  }

  /** Calls that replay without an unknown id never crash the reporter, whatever is reported in between. */
  lemma {:induction false} CallsShow(cacheConfigured: bool, events: seq<Event>, proxy: ProxyConf)
    requires Shown(Calls(events)).Some? && CallsFollow(proxy, Calls(events))
    ensures Replay(cacheConfigured, events).Some?
    ensures Shows(Replay(cacheConfigured, events).value, proxy, Shown(Calls(events)).value)
  {
    hide Shows, OfflineAs;
    if events != [] {
      var init, e := events[..|events| - 1], events[|events| - 1];
      var calls := Calls(init);
      if e.Call? {
        assert (calls + [e.call])[..|calls|] == calls;
        assert (calls + [e.call])[|calls|] == e.call;
        CallsShow(cacheConfigured, init, proxy);
        ShownSnoc(calls, e.call);
        CallShows(Replay(cacheConfigured, init).value, e, proxy, Shown(calls).value, Shown(Calls(events)).value);
      } else {
        assert Calls(events) == calls;
        CallsShow(cacheConfigured, init, proxy);
        ReportShows(Replay(cacheConfigured, init).value, e, proxy, Shown(calls).value);
      }
    } else {
      NothingShown(cacheConfigured, proxy);
    }
  }

  lemma NothingShown(cacheConfigured: bool, proxy: ProxyConf)
    ensures Shows(Initial(cacheConfigured), proxy, map[])
  {
  }

  /** Through construction and any run of refreshes, interleaved with any reports, updating an
      SDK never meets an unknown id, and the reporter lists exactly the registrar's ids, each
      with its obfuscated current primary key and with the mode and source it is configured for. */
  lemma {:induction false} ReporterListsRegistrar(
      conf: ProxyConf, first: Profile, order: seq<Id>, rounds: seq<Round>, cacheConfigured: bool, events: seq<Event>)
    requires DistinctKeys(first.sdks) && Enumerates(order, first.sdks.Keys)
    requires Listed(Construct(conf, first, order), rounds)
    requires forall i :: 0 <= i < |rounds| ==> DistinctKeys(rounds[i].profile.sdks)
    requires Calls(events) == RunRounds(Construct(conf, first, order), rounds).calls
    ensures Replay(cacheConfigured, events).Some?
    ensures Shows(Replay(cacheConfigured, events).value, conf, Confs(RunRounds(Construct(conf, first, order), rounds)))
  {
    ReporterMirrorsRegistrar(conf, first, order, rounds);
    CallsShow(cacheConfigured, events, conf);
  }
}
