/** Getting the profile: the ETag state machine over the cache and the origin. */
module ProfilePoll {
  import opened Common
  import opened ProfileModel
  import opened CacheCodec

  datatype CacheRead = NotConfigured | ReadFailed | Read(bytes: Bytes)

  /** The origin's answer; a body that could not be read and an unexpected status are failures. */
  datatype Answer = FetchFailed | NotModified | Fetched(body: Bytes, etagHeader: Bytes)

  /** Everything one poll gets from outside. */
  datatype Poll = Poll(cache: CacheRead, answer: Answer, cacheWritable: bool)

  datatype Reason = CacheUnavailable | MalformedBody | AbsentBody

  datatype Outcome = Unchanged | Loaded(profile: Profile) | Failed(reason: Reason)

  /** `body` is absent exactly when the cache gave nothing usable. */
  datatype Cached = Cached(body: Option<Bytes>, etag: Bytes)

  datatype PollResult = PollResult(outcome: Outcome, etag: Bytes, written: Option<Bytes>)

  const INITIAL_ETAG: Bytes := [105, 110, 105, 116, 105, 97, 108]  // "initial"

  const WEAK_PREFIX: Bytes := [87, 47]  // "W/"

  function StripWeak(etag: Bytes): Bytes {
    if WEAK_PREFIX <= etag then etag[2..] else etag
  }

  function ReadCache(etag: Bytes, cache: CacheRead): Cached {
    match cache
    case NotConfigured => Cached(None, etag)
    case ReadFailed => Cached(None, etag)
    case Read(bytes) =>
      if |bytes| == 0 then Cached(None, [])
      else
        match SegmentsFromBytes(bytes)
        case Ok(entry) => Cached(Some(entry.body), entry.etag)
        case Err(_) => Cached(None, [])
  }

  /** The If-None-Match header of the request, section 13.1.2 of RFC 9110. */
  function IfNoneMatch(etag: Bytes, cache: CacheRead): Option<Bytes> {
    var sent := ReadCache(etag, cache).etag;
    if sent != [] then Some(sent) else None
  }

  function ParseConfig(decode: Bytes -> Option<Profile>, current: Bytes, body: Option<Bytes>, etag: Bytes): PollResult {
    if etag == current then PollResult(Unchanged, current, None)
    else if body.None? then PollResult(Failed(AbsentBody), current, None)
    else
      match decode(body.value)
      case None => PollResult(Failed(MalformedBody), current, None)
      case Some(p) => PollResult(Loaded(p), etag, None)
  }

  function GetConfig(decode: Bytes -> Option<Profile>, offline: bool, etag: Bytes, poll: Poll): PollResult {
    var cached := ReadCache(etag, poll.cache);
    if offline || poll.answer.FetchFailed? then
      if cached.body.None? then PollResult(Failed(CacheUnavailable), etag, None)
      else ParseConfig(decode, etag, cached.body, cached.etag)
    else if poll.answer.NotModified? then ParseConfig(decode, etag, cached.body, cached.etag)
    else
      var received := StripWeak(poll.answer.etagHeader);
      var written := if poll.cacheWritable && !poll.cache.NotConfigured?
                     then Some(SegmentsToBytes(received, poll.answer.body)) else None;
      ParseConfig(decode, etag, Some(poll.answer.body), received).(written := written)
  }

  // ----- What every poll ends in -----

  /** `bytes` is the cache entry of `body` under `etag`. */
  ghost predicate IsEntry(bytes: Bytes, etag: Bytes, body: Bytes) {
    etag != [] && NEW_LINE !in etag && body != [] && bytes == etag + [NEW_LINE] + body
  }

  ghost predicate HoldsEntry(cache: CacheRead) {
    cache.Read? && exists etag, body :: IsEntry(cache.bytes, etag, body)
  }

  /** The outcome of having `body` under `etag` while `current` is held: the same ETag means
      nothing new, and only a body that parses moves the ETag. */
  ghost predicate EndsWith(decode: Bytes -> Option<Profile>, current: Bytes, etag: Bytes, body: Bytes, r: PollResult) {
    if etag == current then r.outcome == Unchanged && r.etag == current
    else if decode(body).None? then r.outcome == Failed(MalformedBody) && r.etag == current
    else r.outcome == Loaded(decode(body).value) && r.etag == etag
  }

  lemma EntryReads(etag: Bytes, bytes: Bytes, e: Bytes, body: Bytes)
    requires IsEntry(bytes, e, body)
    ensures ReadCache(etag, Read(bytes)) == Cached(Some(body), e)
  {
    DecodeEncode(e, body);
  }

  lemma NoEntryReads(etag: Bytes, cache: CacheRead)
    requires !HoldsEntry(cache)
    ensures ReadCache(etag, cache) == Cached(None, if cache.Read? then [] else etag)
  {
    if cache.Read? && SegmentsFromBytes(cache.bytes).Ok? {
      var e := SegmentsFromBytes(cache.bytes).entry;
      EncodeDecode(cache.bytes);
      assert IsEntry(cache.bytes, e.etag, e.body);
    }
  }

  /** A proxy that is offline, that fails to reach the origin, or that is told that nothing is
      new, goes by the entry of the cache if there is one. */
  lemma EntryDecides(decode: Bytes -> Option<Profile>, offline: bool, etag: Bytes, poll: Poll, e: Bytes, body: Bytes)
    requires offline || !poll.answer.Fetched?
    requires poll.cache.Read? && IsEntry(poll.cache.bytes, e, body)
    ensures EndsWith(decode, etag, e, body, GetConfig(decode, offline, etag, poll))
    ensures GetConfig(decode, offline, etag, poll).written == None
    ensures IfNoneMatch(etag, poll.cache) == Some(e)
  {
    EntryReads(etag, poll.cache.bytes, e, body);
  }

  /** The cache is called unavailable exactly when it is needed and holds no entry. */
  lemma CacheUnavailableIff(decode: Bytes -> Option<Profile>, offline: bool, etag: Bytes, poll: Poll)
    ensures GetConfig(decode, offline, etag, poll).outcome == Failed(CacheUnavailable)
            <==> (offline || poll.answer.FetchFailed?) && !HoldsEntry(poll.cache)
    ensures GetConfig(decode, offline, etag, poll).outcome == Failed(CacheUnavailable) ==>
              GetConfig(decode, offline, etag, poll) == PollResult(Failed(CacheUnavailable), etag, None)
  {
    hide ReadCache, IsEntry;
    if HoldsEntry(poll.cache) {
      var e, body :| IsEntry(poll.cache.bytes, e, body);
      EntryReads(etag, poll.cache.bytes, e, body);
    } else {
      NoEntryReads(etag, poll.cache);
    }
  }

  /** Without an entry the request names the held ETag if the cache could not be asked, and none
      if the cache is empty or corrupt; "nothing new" is then an answer only to the former. */
  lemma NotModifiedWithoutEntry(decode: Bytes -> Option<Profile>, etag: Bytes, poll: Poll)
    requires poll.answer.NotModified? && !HoldsEntry(poll.cache)
    ensures IfNoneMatch(etag, poll.cache) == if poll.cache.Read? || etag == [] then None else Some(etag)
    ensures GetConfig(decode, false, etag, poll) ==
              PollResult(if poll.cache.Read? && etag != [] then Failed(AbsentBody) else Unchanged, etag, None)
  {
    NoEntryReads(etag, poll.cache);
  }

  /** What the origin sends is parsed under its ETag, weak or not, and written to a writable
      cache, whose next read gives back the same body under the same ETag. */
  lemma FetchedDecides(decode: Bytes -> Option<Profile>, etag: Bytes, poll: Poll, e: Bytes)
    requires poll.answer.Fetched?
    requires poll.answer.etagHeader == [87, 47] + e || (poll.answer.etagHeader == e && !([87, 47] <= e))
    ensures var r, body := GetConfig(decode, false, etag, poll), poll.answer.body;
            && EndsWith(decode, etag, e, body, r)
            && (r.written.Some? <==> poll.cacheWritable && !poll.cache.NotConfigured?)
            && (r.written.Some? && e != [] && NEW_LINE !in e && body != [] ==> IsEntry(r.written.value, e, body))
  {
    assert StripWeak(poll.answer.etagHeader) == e;
  }

  // ----- Absent bodies -----

  /** The origin answers 304 only to a matching If-None-Match; `current` is its own ETag. */
  ghost predicate Conforms(etag: Bytes, poll: Poll, current: Bytes) {
    match poll.answer
    case FetchFailed => true
    case NotModified => IfNoneMatch(etag, poll.cache) == Some(current)
    case Fetched(_, header) => StripWeak(header) == current
  }

  /** A body that was never received is parsed exactly when the origin answers 304 to an
      unconditional request although a profile is loaded. */
  lemma AbsentBodyIff(decode: Bytes -> Option<Profile>, offline: bool, etag: Bytes, poll: Poll)
    ensures GetConfig(decode, offline, etag, poll).outcome == Failed(AbsentBody)
            <==> !offline && poll.answer.NotModified? && IfNoneMatch(etag, poll.cache) == None && etag != []
  {
  }

  /** An online poll of a conforming origin that neither fails nor falls back to the cache
      leaves the origin's own ETag in place. */
  lemma OnlinePollIsCurrent(decode: Bytes -> Option<Profile>, etag: Bytes, poll: Poll, current: Bytes)
    requires Conforms(etag, poll, current) && !poll.answer.FetchFailed?
    ensures var r := GetConfig(decode, false, etag, poll);
            && (r.outcome.Failed? ==> r.outcome == Failed(MalformedBody) && r.etag == etag)
            && (!r.outcome.Failed? ==> r.etag == current)
  {
  }
}
