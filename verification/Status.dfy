/** The status reporter on values: bounded record logs, the health of each SDK and of the proxy. */
module Status {
  import opened ProfileModel

  datatype Health = Healthy | Degraded | Initializing | Down | NA

  datatype Source = FileSrc | RemoteSrc | CacheSrc

  datatype Record = Record(time: int, isError: bool, message: string)

  datatype SdkStatus = SdkStatus(key: string, offline: bool, source: Source, health: Health, records: seq<Record>)

  datatype State = State(
    cacheConfigured: bool,
    records: map<string, seq<Record>>,
    sdks: map<Id, SdkStatus>,
    cacheHealth: Health,
    cacheRecords: seq<Record>,
    overall: Health)

  const CACHE := "cache"

  const MAX_RECORD_COUNT := 5

  const MAX_LAST_ERRORS_MEANING_DEGRADED := 2

  const NO_CACHE_MESSAGE := "cache offline source enabled without a configured cache"

  /** The last (at most two) entries are all errors. */
  predicate Failing(log: seq<Record>) {
    log != [] && log[|log| - 1].isError && (|log| >= 2 ==> log[|log| - 2].isError)
  }

  /** The proxy is down when every SDK is (or there is none), healthy when every SDK is. */
  ghost function Overall(sdks: map<Id, SdkStatus>): Health {
    if forall id :: id in sdks ==> sdks[id].health == Down then Down
    else if forall id :: id in sdks ==> sdks[id].health == Healthy then Healthy
    else Degraded
  }

  function NewRecord(isError: bool, message: string, now: int): Record {
    Record(now, isError, (if isError then "[error] " else "[ok] ") + message)
  }

  /** What a verdict means to an SDK that so far was `before`: one that never worked is down. */
  function NextHealth(before: Health, failing: bool): Health {
    if !failing then Healthy
    else if before == Initializing || before == Down then Down
    else Degraded
  }

  /** The log after one more record; a log grown past the limit loses its oldest entry. */
  function Appended(s: State, component: string, r: Record): seq<Record> {
    var recs := (if component in s.records then s.records[component] else []) + [r];
    if |recs| > MAX_RECORD_COUNT then recs[1..] else recs
  }

  ghost function AppendRecord(s: State, component: string, isError: bool, message: string, now: int): State {
    var recs := Appended(s, component, NewRecord(isError, message, now));
    var failing := Failing(recs);
    var logged := s.(records := s.records[component := recs]);
    if component == CACHE then
      logged.(cacheRecords := recs, cacheHealth := if failing then Degraded else Healthy)
    else if component in s.sdks then
      var sdk := s.sdks[component].(records := recs, health := NextHealth(s.sdks[component].health, failing));
      logged.(sdks := s.sdks[component := sdk], overall := Overall(s.sdks[component := sdk]))
    else logged
  }

  function Stars(n: nat): (r: string)
    ensures |r| == n && forall i :: 0 <= i < n ==> r[i] == '*'
  {
    seq(n, _ => '*')
  }

  /** Hides all but the last `clearLen` characters, or all of a shorter text. */
  function Obfuscate(text: string, clearLen: nat): (r: string)
    ensures |r| == |text|
    ensures forall i :: 0 <= i < |r| ==>
              r[i] == if |text| >= clearLen && i >= |text| - clearLen then text[i] else '*'
  {
    if |text| < clearLen then Stars(|text|)
    else Stars(|text| - clearLen) + text[|text| - clearLen..]
  }

  const CLEAR_LEN := 5

  /** Registering an SDK that reads its configuration from a cache that is not there logs an error. */
  predicate MissesCache(cacheConfigured: bool, conf: SdkConfig) {
    !cacheConfigured && conf.offline.enabled && conf.offline.filePath == ""
  }

  function FreshStatus(conf: SdkConfig): SdkStatus {
    SdkStatus(Obfuscate(conf.key, CLEAR_LEN), conf.offline.enabled,
              if !conf.offline.enabled then RemoteSrc else if conf.offline.filePath != "" then FileSrc else CacheSrc,
              Initializing, [])
  }

  ghost function Register(s: State, id: Id, conf: SdkConfig, now: int): State {
    var r := s.(sdks := s.sdks[id := FreshStatus(conf)],
                cacheHealth := if !s.cacheConfigured || (conf.offline.enabled && conf.offline.filePath != "")
                               then NA else s.cacheHealth);
    if MissesCache(s.cacheConfigured, conf) then AppendRecord(r, id, true, NO_CACHE_MESSAGE, now) else r
  }

  /** The lookup is unchecked: updating an unknown id crashes. */
  function Update(s: State, id: Id, conf: SdkConfig): State
    requires id in s.sdks
  {
    s.(sdks := s.sdks[id := s.sdks[id].(key := Obfuscate(conf.key, CLEAR_LEN))])
  }

  ghost function Remove(s: State, id: Id): State {
    s.(sdks := s.sdks - {id}, records := s.records - {id}, overall := Overall(s.sdks - {id}))
  }

  function Initial(cacheConfigured: bool): State {
    State(cacheConfigured, map[], map[], Initializing, [], Initializing)
  }
}
