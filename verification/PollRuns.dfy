/** The registrar over whole runs of polls: it always serves the profile of its ETag. */
module PollRuns {
  import opened Common
  import opened ProfileModel
  import opened CacheCodec
  import opened ProfilePoll
  import opened Registrar
  import opened RegistrarRuns
  import opened Reconcile
  import opened ReconcileRuns

  /** One poll and the order in which it lists the live ids and the profile's ids. */
  datatype PollRound = PollRound(poll: Poll, existing: seq<Id>, remote: seq<Id>)

  datatype Proxy = Proxy(reg: State, etag: Bytes)

  /** Fixed for a run: how bodies decode, and the body each ETag stands for. */
  datatype World = World(decode: Bytes -> Option<Profile>, bodyOf: Bytes -> Bytes, offline: bool) {
    function ProfileOf(etag: Bytes): Option<Profile> {
      decode(bodyOf(etag))
    }

    /** Profiles have distinct keys. */
    ghost predicate WellFormed() {
      forall e :: ProfileOf(e).Some? ==> DistinctKeys(ProfileOf(e).value.sdks)
    }

    /** ETags are faithful: the cache and the origin pair an ETag only with its own body. */
    ghost predicate Faithful(poll: Poll) {
      && (poll.cache.Read? && SegmentsFromBytes(poll.cache.bytes).Ok? ==>
            var e := SegmentsFromBytes(poll.cache.bytes).entry; bodyOf(e.etag) == e.body)
      && (poll.answer.Fetched? ==> bodyOf(StripWeak(poll.answer.etagHeader)) == poll.answer.body)
    }

    function Get(etag: Bytes, poll: Poll): PollResult {
      GetConfig(decode, offline, etag, poll)
    }
  }

  /** A poll with faithful ETags that, if it loads a profile, lists the live ids and the profile's
      ids, and takes over no key from what is served at that moment. */
  ghost predicate CanStep(w: World, x: Proxy, r: PollRound) {
    && x.reg.InRange() && w.Faithful(r.poll)
    && (w.Get(x.etag, r.poll).outcome.Loaded? ==>
          && NoTakeover(Served(x.reg), w.Get(x.etag, r.poll).outcome.profile)
          && Enumerates(r.existing, x.reg.byId.Keys)
          && Enumerates(r.remote, w.Get(x.etag, r.poll).outcome.profile.sdks.Keys))
  }

  ghost function Step(w: World, x: Proxy, r: PollRound): (y: Proxy)
    requires CanStep(w, x, r)
    ensures y.reg.InRange()
  {
    var got := w.Get(x.etag, r.poll);
    Proxy(if got.outcome.Loaded? then Refresh(x.reg, got.outcome.profile, r.existing, r.remote) else x.reg, got.etag)
  }

  ghost predicate CanRun(w: World, x: Proxy, rounds: seq<PollRound>)
    decreases |rounds|
  {
    rounds == [] || (CanStep(w, x, rounds[0]) && CanRun(w, Step(w, x, rounds[0]), rounds[1..]))
  }

  ghost function Run(w: World, x: Proxy, rounds: seq<PollRound>): Proxy
    requires CanRun(w, x, rounds)
    decreases |rounds|
  {
    if rounds == [] then x else Run(w, Step(w, x, rounds[0]), rounds[1..])
  }

  /** The registrar serves exactly the profile that its ETag stands for. */
  ghost predicate ServesETag(w: World, x: Proxy) {
    w.ProfileOf(x.etag).Some? && Mirrors(x.reg, w.ProfileOf(x.etag).value)
  }

  /** What is loaded is the profile of the new ETag; otherwise the ETag does not move. */
  lemma LoadedMatchesETag(w: World, etag: Bytes, poll: Poll)
    requires w.Faithful(poll)
    ensures var got := w.Get(etag, poll);
            if got.outcome.Loaded? then w.ProfileOf(got.etag) == Some(got.outcome.profile) else got.etag == etag
  {
  }

  lemma StepServesETag(w: World, x: Proxy, r: PollRound)
    requires w.WellFormed() && ServesETag(w, x) && CanStep(w, x, r)
    ensures ServesETag(w, Step(w, x, r)) && Step(w, x, r).reg.conf == x.reg.conf
  {
    var got := w.Get(x.etag, r.poll);
    LoadedMatchesETag(w, x.etag, r.poll);
    if got.outcome.Loaded? {
      var p := got.outcome.profile;
      assert Served(x.reg) == w.ProfileOf(x.etag).value;
      NoTakeoverIsClashFree(x.reg, p, r.existing, r.remote);
      RefreshMirrors(x.reg, p, r.existing, r.remote);
      RefreshOptions(x.reg, p, r.existing, r.remote);
    }
  }

  lemma {:induction false} RunServesETag(w: World, x: Proxy, rounds: seq<PollRound>)
    requires w.WellFormed() && ServesETag(w, x) && CanRun(w, x, rounds)
    ensures ServesETag(w, Run(w, x, rounds)) && Run(w, x, rounds).reg.conf == x.reg.conf
    decreases |rounds|
  {
    if rounds != [] {
      StepServesETag(w, x, rounds[0]);
      RunServesETag(w, Step(w, x, rounds[0]), rounds[1..]);
    }
  }

  // ----- From the start -----

  datatype Start = Refused | Crashed | Started(proxy: Proxy)

  /** The constructor: a failed poll refuses to start; an unchanged one leaves no profile and
      the dereference of the missing options crashes. */
  function Boot(w: World, conf: ProxyConf, poll: Poll, order: seq<Id>): Start
    requires w.Get(INITIAL_ETAG, poll).outcome.Loaded? ==>
               Enumerates(order, w.Get(INITIAL_ETAG, poll).outcome.profile.sdks.Keys)
  {
    match w.Get(INITIAL_ETAG, poll).outcome
    case Failed(_) => Refused
    case Unchanged => Crashed
    case Loaded(p) => Started(Proxy(Construct(conf, p, order), w.Get(INITIAL_ETAG, poll).etag))
  }

  /** The constructor crashes exactly when the source it uses carries the placeholder ETag. */
  lemma BootCrashesIff(w: World, conf: ProxyConf, poll: Poll, order: seq<Id>)
    requires w.Get(INITIAL_ETAG, poll).outcome.Loaded? ==>
               Enumerates(order, w.Get(INITIAL_ETAG, poll).outcome.profile.sdks.Keys)
    ensures Boot(w, conf, poll, order).Crashed? <==>
            if w.offline || poll.answer.FetchFailed? then
              && poll.cache.Read? && SegmentsFromBytes(poll.cache.bytes).Ok?
              && SegmentsFromBytes(poll.cache.bytes).entry.etag == INITIAL_ETAG
            else if poll.answer.NotModified? then IfNoneMatch(INITIAL_ETAG, poll.cache) == Some(INITIAL_ETAG)
            else StripWeak(poll.answer.etagHeader) == INITIAL_ETAG
  {
  }

  /** Over any mix of fresh, unchanged, failed and malformed answers and cache states, readers
      see what construction from the profile of the current ETag alone would show. */
  lemma PollingEqualsRebuild(
      w: World, conf: ProxyConf, first: Poll, order: seq<Id>, rounds: seq<PollRound>, rebuilt: seq<Id>)
    requires w.WellFormed() && w.Faithful(first)
    requires w.Get(INITIAL_ETAG, first).outcome.Loaded?
    requires Enumerates(order, w.Get(INITIAL_ETAG, first).outcome.profile.sdks.Keys)
    requires CanRun(w, Boot(w, conf, first, order).proxy, rounds)
    requires var p := w.ProfileOf(Run(w, Boot(w, conf, first, order).proxy, rounds).etag);
             p.Some? ==> Enumerates(rebuilt, p.value.sdks.Keys)
    ensures var y := Run(w, Boot(w, conf, first, order).proxy, rounds);
            && ServesETag(w, y)
            && var anew := Construct(conf, w.ProfileOf(y.etag).value, rebuilt);
               Sound(anew) && Observe(y.reg) == Observe(anew)
  {
    var x := Boot(w, conf, first, order).proxy;
    LoadedMatchesETag(w, INITIAL_ETAG, first);
    ConstructMirrors(conf, w.ProfileOf(x.etag).value, order);
    RunServesETag(w, x, rounds);
    var y := Run(w, x, rounds);
    ConstructMirrors(conf, w.ProfileOf(y.etag).value, rebuilt);
    MirrorsDetermines(y.reg, Construct(conf, w.ProfileOf(y.etag).value, rebuilt), w.ProfileOf(y.etag).value);
  }

  /** An online poll that a conforming origin answers, and whose body parses, leaves the
      registrar serving the origin's own current profile. */
  lemma AnsweredPollServesOrigin(w: World, x: Proxy, r: PollRound, current: Bytes)
    requires w.WellFormed() && ServesETag(w, x) && CanStep(w, x, r) && !w.offline
    requires Conforms(x.etag, r.poll, current) && !r.poll.answer.FetchFailed?
    requires w.Get(x.etag, r.poll).outcome != Failed(MalformedBody)
    ensures Step(w, x, r).etag == current
    ensures w.ProfileOf(current).Some? && Mirrors(Step(w, x, r).reg, w.ProfileOf(current).value)
  {
    OnlinePollIsCurrent(w.decode, x.etag, r.poll, current);
    StepServesETag(w, x, r);
  }

  // ----- Serving from the cache -----

  /** A proxy that starts offline, or without reaching the origin, serves the profile of the
      cache entry. */
  lemma CachedStart(
      w: World, conf: ProxyConf, poll: Poll, order: seq<Id>, e: Bytes, body: Bytes)
    requires w.offline || poll.answer.FetchFailed?
    requires poll.cache.Read? && IsEntry(poll.cache.bytes, e, body) && e != INITIAL_ETAG
    requires w.decode(body).Some? && DistinctKeys(w.decode(body).value.sdks)
    requires Enumerates(order, w.decode(body).value.sdks.Keys)
    ensures w.Get(INITIAL_ETAG, poll).outcome == Loaded(w.decode(body).value)
    ensures var start := Boot(w, conf, poll, order);
            start.Started? && start.proxy.etag == e && Mirrors(start.proxy.reg, w.decode(body).value)
  {
    EntryDecides(w.decode, w.offline, INITIAL_ETAG, poll, e, body);
    ConstructMirrors(conf, w.decode(body).value, order);
  }

  /** It refuses to start exactly when the body it would use is missing or does not parse. */
  lemma CachedStartRefusedIff(w: World, conf: ProxyConf, poll: Poll, order: seq<Id>)
    requires w.offline || poll.answer.FetchFailed?
    requires w.Get(INITIAL_ETAG, poll).outcome.Loaded? ==>
               Enumerates(order, w.Get(INITIAL_ETAG, poll).outcome.profile.sdks.Keys)
    ensures Boot(w, conf, poll, order).Refused? <==>
            !HoldsEntry(poll.cache) || exists e, body ::
              IsEntry(poll.cache.bytes, e, body) && e != INITIAL_ETAG && w.decode(body).None?
  {
    CacheUnavailableIff(w.decode, w.offline, INITIAL_ETAG, poll);
    if HoldsEntry(poll.cache) {
      var e, body :| IsEntry(poll.cache.bytes, e, body);
      EntryDecides(w.decode, w.offline, INITIAL_ETAG, poll, e, body);
      forall f, other | IsEntry(poll.cache.bytes, f, other)
        ensures f == e && other == body
      {
        EntryReads(e, poll.cache.bytes, e, body);
        EntryReads(e, poll.cache.bytes, f, other);
      }
    }
  }

  /** What one proxy fetched and wrote, a proxy that later starts offline serves. */
  lemma RestartFromCache(
      w: World, conf: ProxyConf, etag: Bytes, fetch: Poll, e: Bytes, later: Poll, order: seq<Id>)
    requires !w.offline && fetch.answer.Fetched? && fetch.answer.body != []
    requires fetch.answer.etagHeader == [87, 47] + e || (fetch.answer.etagHeader == e && !([87, 47] <= e))
    requires e != [] && NEW_LINE !in e && e != INITIAL_ETAG
    requires w.Get(etag, fetch).written.Some? && later.cache == Read(w.Get(etag, fetch).written.value)
    requires w.Get(etag, fetch).outcome.Loaded? && DistinctKeys(w.Get(etag, fetch).outcome.profile.sdks)
    requires Enumerates(order, w.Get(etag, fetch).outcome.profile.sdks.Keys)
    ensures w.(offline := true).Get(INITIAL_ETAG, later).outcome == w.Get(etag, fetch).outcome
    ensures var start := Boot(w.(offline := true), conf, later, order);
            start.Started? && start.proxy.etag == e && Mirrors(start.proxy.reg, w.Get(etag, fetch).outcome.profile)
  {
    FetchedDecides(w.decode, etag, fetch, e);
    CachedStart(w.(offline := true), conf, later, order, e, fetch.answer.body);
  }

  /** During a run, a proxy that goes by the cache serves the profile of a new entry from then on. */
  lemma CachedStep(w: World, x: Proxy, r: PollRound, e: Bytes, body: Bytes)
    requires w.WellFormed() && ServesETag(w, x) && CanStep(w, x, r) && w.decode(body).Some?
    requires w.offline || !r.poll.answer.Fetched?
    requires r.poll.cache.Read? && IsEntry(r.poll.cache.bytes, e, body)
    ensures Step(w, x, r).etag == e && Mirrors(Step(w, x, r).reg, w.decode(body).value)
  {
    EntryReads(x.etag, r.poll.cache.bytes, e, body);
    EntryDecides(w.decode, w.offline, x.etag, r.poll, e, body);
    StepServesETag(w, x, r);
  }
}
