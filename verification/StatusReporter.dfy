/** The status reporter as the proxy runs it: an object whose methods update its record log
    and its status in place. */
module StatusReporter {
  import opened ProfileModel
  import opened Status

  class Reporter {
    const cacheConfigured: bool
    var records: map<string, seq<Record>>
    var sdks: map<Id, SdkStatus>
    var cacheHealth: Health
    var cacheRecords: seq<Record>
    var overall: Health

    ghost function View(): State
      reads this
    {
      State(cacheConfigured, records, sdks, cacheHealth, cacheRecords, overall)
    }

    constructor (cacheConfigured: bool)
      ensures View() == Initial(cacheConfigured)
    {
      this.cacheConfigured := cacheConfigured;
      records, sdks := map[], map[];
      cacheHealth, cacheRecords, overall := Initializing, [], Initializing;
    }

    /** Counts errors up and successes down over the last two records. */
    method CheckStatus(recs: seq<Record>) returns (health: Health)
      ensures health == if Failing(recs) then Degraded else Healthy
    {
      var errorCount := 0;
      for i := 0 to |recs|
        invariant i <= |recs| - 2 ==> errorCount == 0
        invariant i == |recs| - 1 && |recs| >= 2 ==> errorCount == if recs[i - 1].isError then 1 else -1
        invariant i == |recs| == 1 ==> errorCount == if recs[0].isError then 1 else -1
        invariant i == |recs| - 1 && |recs| == 1 ==> errorCount == 0
        invariant i == |recs| == 0 ==> errorCount == 0
        invariant i == |recs| >= 2 ==>
                    errorCount == (if recs[i - 1].isError then 1 else -1) + (if recs[i - 2].isError then 1 else -1)
      {
        if i >= |recs| - MAX_LAST_ERRORS_MEANING_DEGRADED {
          errorCount := if recs[i].isError then errorCount + 1 else errorCount - 1;
        }
      }
      var least := if |recs| < MAX_LAST_ERRORS_MEANING_DEGRADED then |recs| else MAX_LAST_ERRORS_MEANING_DEGRADED;
      if errorCount > 0 && errorCount >= least {
        return Degraded;
      }
      return Healthy;
    }

    method ReCalcStatus()
      modifies `overall
      ensures overall == Overall(sdks)
    {
      var allSdksDown, hasDegradedSdk := true, false;
      var rest := sdks.Keys;
      while rest != {}
        invariant rest <= sdks.Keys
        invariant allSdksDown <==> forall id :: id in sdks && id !in rest ==> sdks[id].health == Down
        invariant hasDegradedSdk <==> exists id :: id in sdks && id !in rest && sdks[id].health != Healthy
        decreases |rest|
      {
        var id :| id in rest;
        ghost var before := rest;
        rest := rest - {id};
        assert forall a :: a in sdks && a !in rest <==> (a in sdks && a !in before) || a == id;
        if sdks[id].health != Down {
          allSdksDown := false;
        }
        if sdks[id].health != Healthy {
          hasDegradedSdk := true;
        }
      }
      if !hasDegradedSdk && !allSdksDown {
        overall := Healthy;
      } else {
        if hasDegradedSdk {
          overall := Degraded;
        }
        if allSdksDown {
          overall := Down;
        }
      }
    }

    method AppendRecord(component: string, isError: bool, message: string, now: int)
      modifies this
      ensures View() == Status.AppendRecord(old(View()), component, isError, message, now)
    {
      var recs := if component in records then records[component] else [];
      recs := recs + [NewRecord(isError, message, now)];
      if |recs| > MAX_RECORD_COUNT {
        recs := recs[1..];
      }
      records := records[component := recs];
      var health := CheckStatus(recs);
      if component == CACHE {
        cacheRecords, cacheHealth := recs, health;
      } else if component in sdks {
        var sdk := sdks[component];
        if health == Degraded && (sdk.health == Initializing || sdk.health == Down) {
          health := Down;
        }
        sdks := sdks[component := sdk.(records := recs, health := health)];
        ReCalcStatus();
      }
    }

    method RegisterSdk(id: Id, conf: SdkConfig, now: int)
      modifies this
      ensures View() == Register(old(View()), id, conf, now)
    {
      var source := RemoteSrc;
      if conf.offline.enabled {
        if conf.offline.filePath != "" {
          source := FileSrc;
          cacheHealth := NA;
        } else {
          source := CacheSrc;
        }
      }
      sdks := sdks[id := SdkStatus(Obfuscate(conf.key, CLEAR_LEN), conf.offline.enabled, source, Initializing, [])];
      if !cacheConfigured {
        cacheHealth := NA;
        if source == CacheSrc {
          AppendRecord(id, true, NO_CACHE_MESSAGE, now);
        }
      }
    }

    method UpdateSdk(id: Id, conf: SdkConfig)
      requires id in sdks
      modifies `sdks
      ensures View() == Update(old(View()), id, conf)
    {
      sdks := sdks[id := sdks[id].(key := Obfuscate(conf.key, CLEAR_LEN))];
    }

    method RemoveSdk(id: Id)
      modifies this
      ensures View() == Remove(old(View()), id)
    {
      sdks := sdks - {id};
      records := records - {id};
      ReCalcStatus();
    }

    method ReportOk(component: string, message: string, now: int)
      modifies this
      ensures View() == Status.AppendRecord(old(View()), component, false, message, now)
    {
      AppendRecord(component, false, message, now);
    }

    method ReportError(component: string, message: string, now: int)
      modifies this
      ensures View() == Status.AppendRecord(old(View()), component, true, message, now)
    {
      AppendRecord(component, true, message, now);
    }
  }
}
