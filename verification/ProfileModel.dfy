/** The downloaded proxy profile and the SDK configuration that is built from it. */
module ProfileModel {
  type Id = string
  type Key = string

  datatype SdkModel = SdkModel(key1: Key, key2: Key) {
    /** The SDK can be looked up under `k`; the empty string stands for "no key". */
    predicate Has(k: Key) {
      k != "" && (k == key1 || k == key2)
    }

    ghost predicate SharesKeyWith(other: SdkModel) {
      exists k :: Has(k) && other.Has(k)
    }
  }

  datatype Options = Options(pollInterval: int, dataGovernance: string)

  datatype Profile = Profile(sdks: map<Id, SdkModel>, options: Options)

  /** The nonempty keys of a profile are pairwise distinct, also within one SDK. */
  ghost predicate DistinctKeys(sdks: map<Id, SdkModel>) {
    && (forall id :: id in sdks && sdks[id].key1 != "" ==> sdks[id].key1 != sdks[id].key2)
    && (forall a, b :: a in sdks && b in sdks && a != b ==> !sdks[a].SharesKeyWith(sdks[b]))
  }

  datatype OfflineConfig = OfflineConfig(enabled: bool, filePath: string, useCache: bool)

  /** The part of the proxy's own configuration that shapes a client of the profile. */
  datatype ProxyConf = ProxyConf(localOffline: map<Id, OfflineConfig>, globalOffline: bool)

  datatype SdkConfig = SdkConfig(key: Key, pollInterval: int, dataGovernance: string, offline: OfflineConfig)

  function BuildSdkConfig(conf: ProxyConf, options: Options, id: Id, key1: Key): SdkConfig {
    var local := if id in conf.localOffline then conf.localOffline[id] else OfflineConfig(false, "", false);
    var offline :=
      if conf.globalOffline && !local.enabled then local.(enabled := true, useCache := true) else local;
    SdkConfig(key1, options.pollInterval, options.dataGovernance, offline)
  }

  /** The offline settings of a client of `id`: those of its local entry, except that a proxy that
      is offline as a whole takes an otherwise online client offline and lets it use the cache. */
  ghost predicate OfflineAs(conf: ProxyConf, id: Id, offline: OfflineConfig) {
    var listed := id in conf.localOffline;
    && (listed && (conf.localOffline[id].enabled || !conf.globalOffline) ==> offline == conf.localOffline[id])
    && (!listed && !conf.globalOffline ==> !offline.enabled && !offline.useCache && offline.filePath == "")
    && (conf.globalOffline && !(listed && conf.localOffline[id].enabled) ==>
          && offline.enabled && offline.useCache
          && offline.filePath == if listed then conf.localOffline[id].filePath else "")
  }

  /** `c` is what the options of a profile and the proxy's own configuration prescribe for `id`. */
  ghost predicate RunsAs(conf: ProxyConf, options: Options, id: Id, c: SdkConfig) {
    && c.pollInterval == options.pollInterval
    && c.dataGovernance == options.dataGovernance
    && OfflineAs(conf, id, c.offline)
  }

  lemma BuiltRunsAs(conf: ProxyConf, options: Options, id: Id, key1: Key)
    ensures BuildSdkConfig(conf, options, id, key1).key == key1
    ensures RunsAs(conf, options, id, BuildSdkConfig(conf, options, id, key1))
  {
  }

  /** Only the key is left open. */
  lemma RunsAsDetermines(conf: ProxyConf, options: Options, id: Id, a: SdkConfig, b: SdkConfig)
    requires RunsAs(conf, options, id, a) && RunsAs(conf, options, id, b) && a.key == b.key
    ensures a == b
  {
  }

  /** What the registrar tells the status reporter. */
  datatype ReporterCall =
    | RegisterSdk(id: Id, conf: SdkConfig)
    | UpdateSdk(id: Id, conf: SdkConfig)
    | RemoveSdk(id: Id)
}
