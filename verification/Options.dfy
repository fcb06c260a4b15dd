/** Storage class and access modes: chosen once for the cloned claim and once more, from other inputs, for its
    ReplicationSource. */
module Options {
  import opened Prelude
  import opened Api

  /** Config maps by namespace and name. */
  type ConfigMaps = map<Id, map<string, string>>

  /** The claim that a backup copies. */
  datatype SourcePvc = SourcePvc(name: string, request: nat, storageClass: string, accessModes: seq<string>)

  /** The storage class and access modes of a volume. */
  datatype VolumeOptions = VolumeOptions(storageClass: string, accessModes: seq<string>)

  /** The data mover's config map for a storage class, if there is one. */
  function ConfigFor(configs: ConfigMaps, ns: string, storageClass: string): Option<map<string, string>> {
    Find(configs, Id(ns, storageClass + "-config"))
  }

  /** The larger of the source's request and the size the snapshot restores to. */
  function CloneSize(request: nat, restoreSize: nat): nat {
    if restoreSize > request then restoreSize else request
  }

  predicate Sets(config: Option<map<string, string>>, key: string) {
    config.Some? && key in config.value
  }

  /** A configured value wins over the default. */
  function Chosen(config: Option<map<string, string>>, default: VolumeOptions): VolumeOptions {
    VolumeOptions(
      if Sets(config, "SourceStorageClassName") then config.value["SourceStorageClassName"] else default.storageClass,
      if Sets(config, "SourceAccessMode") then [config.value["SourceAccessMode"]] else default.accessModes)
  }

  /** The options of a claim cloned from `source`: the config map is the one for the claim's own class. */
  function ClaimOptions(source: SourcePvc, ns: string, configs: ConfigMaps): VolumeOptions {
    Chosen(ConfigFor(configs, ns, source.storageClass), VolumeOptions(source.storageClass, source.accessModes))
  }

  /** The options of a ReplicationSource: the config map is the one for the class recorded on the backup, and
      the access modes to start from are those of the claim clone. */
  function MoverOptions(recordedClass: string, cloneModes: seq<string>, ns: string, configs: ConfigMaps): VolumeOptions {
    Chosen(ConfigFor(configs, ns, recordedClass), VolumeOptions(recordedClass, cloneModes))
  }

  /** The options of a new clone of the source claim, for any order of the config map's keys: fields that no
      key has set are filled in from the source claim at the end. */
  method BuildPVCClone(source: SourcePvc, restoreSize: nat, ns: string, configs: ConfigMaps)
      returns (options: VolumeOptions, size: nat)
    ensures options == ClaimOptions(source, ns, configs)
    ensures SourceSide(options, source.storageClass, source.accessModes, ns, configs)
    ensures size == CloneSize(source.request, restoreSize)
    ensures size >= source.request && size >= restoreSize && size in {source.request, restoreSize}
  {
    var config := ConfigFor(configs, ns, source.storageClass);
    size := source.request;
    if restoreSize > source.request { size := restoreSize; }
    var storageClass: Option<string> := None;
    var accessModes: Option<seq<string>> := None;
    if config.Some? {
      var keys := config.value.Keys;
      while keys != {}
        invariant keys <= config.value.Keys
        invariant storageClass == if Sets(config, "SourceStorageClassName") && "SourceStorageClassName" !in keys
                                  then Some(config.value["SourceStorageClassName"]) else None
        invariant accessModes == if Sets(config, "SourceAccessMode") && "SourceAccessMode" !in keys
                                 then Some([config.value["SourceAccessMode"]]) else None
        decreases |keys|
      {
        var key :| key in keys;
        keys := keys - {key};
        if key == "SourceStorageClassName" { storageClass := Some(config.value["SourceStorageClassName"]); }
        if key == "SourceAccessMode" { accessModes := Some([config.value["SourceAccessMode"]]); }
      }
    }
    if accessModes.None? { accessModes := Some(source.accessModes); }
    if storageClass.None? { storageClass := Some(source.storageClass); }
    options := VolumeOptions(storageClass.value, accessModes.value);
  }

  /** The options of a new ReplicationSource: the defaults are the storage class recorded on the backup and
      the access modes of the clone, and keys overwrite them as they come. */
  method ConfigureRepSourceVolOptions(recordedClass: string, cloneModes: seq<string>, ns: string, configs: ConfigMaps)
      returns (options: VolumeOptions)
    ensures options == MoverOptions(recordedClass, cloneModes, ns, configs)
    ensures SourceSide(options, recordedClass, cloneModes, ns, configs)
  {
    var config := ConfigFor(configs, ns, recordedClass);
    options := VolumeOptions(recordedClass, cloneModes);
    if config.Some? {
      var keys := config.value.Keys;
      while keys != {}
        invariant keys <= config.value.Keys
        invariant options.storageClass == if Sets(config, "SourceStorageClassName") && "SourceStorageClassName" !in keys
                                          then config.value["SourceStorageClassName"] else recordedClass
        invariant options.accessModes == if Sets(config, "SourceAccessMode") && "SourceAccessMode" !in keys
                                         then [config.value["SourceAccessMode"]] else cloneModes
        decreases |keys|
      {
        var key :| key in keys;
        keys := keys - {key};
        if key == "SourceStorageClassName" { options := options.(storageClass := config.value["SourceStorageClassName"]); }
        if key == "SourceAccessMode" { options := options.(accessModes := [config.value["SourceAccessMode"]]); }
      }
    }
  }

  /******* Restores, and the cache of the mover *******/

  /** The options of a ReplicationDestination: the defaults are the storage class that the backup recorded and
      a single writer. */
  function DestinationOptions(recordedClass: string, ns: string, configs: ConfigMaps): VolumeOptions {
    var config := ConfigFor(configs, ns, recordedClass);
    VolumeOptions(
      if Sets(config, "DestinationStorageClassName") then config.value["DestinationStorageClassName"] else recordedClass,
      if Sets(config, "DestinationAccessMode") then [config.value["DestinationAccessMode"]] else ["ReadWriteOnce"])
  }

  /** The options of a new ReplicationDestination, for any order of the config map's keys. */
  method ConfigureRepDestVolOptions(recordedClass: string, ns: string, configs: ConfigMaps) returns (options: VolumeOptions)
    ensures options == DestinationOptions(recordedClass, ns, configs)
    ensures DestinationSide(options, recordedClass, ns, configs)
  {
    var config := ConfigFor(configs, ns, recordedClass);
    options := VolumeOptions(recordedClass, ["ReadWriteOnce"]);
    if config.Some? {
      var keys := config.value.Keys;
      while keys != {}
        invariant keys <= config.value.Keys
        invariant options.storageClass == if Sets(config, "DestinationStorageClassName") && "DestinationStorageClassName" !in keys
                                          then config.value["DestinationStorageClassName"] else recordedClass
        invariant options.accessModes == if Sets(config, "DestinationAccessMode") && "DestinationAccessMode" !in keys
                                         then [config.value["DestinationAccessMode"]] else ["ReadWriteOnce"]
        decreases |keys|
      {
        var key :| key in keys;
        keys := keys - {key};
        if key == "DestinationStorageClassName" { options := options.(storageClass := config.value["DestinationStorageClassName"]); }
        if key == "DestinationAccessMode" { options := options.(accessModes := [config.value["DestinationAccessMode"]]); }
      }
    }
  }

  /** The volume in which the mover caches, as far as it is configured. */
  datatype CacheOptions = CacheOptions(storageClass: Option<string>, accessMode: Option<string>, capacity: Option<string>)

  function Setting(config: Option<map<string, string>>, key: string): Option<string> {
    if Sets(config, key) then Some(config.value[key]) else None
  }

  /** `side` is "Source" or "Destination". */
  function CacheFor(config: Option<map<string, string>>, side: string): CacheOptions {
    CacheOptions(Setting(config, side + "CacheStorageClassName"), Setting(config, side + "CacheAccessMode"),
                 Setting(config, side + "CacheCapacity"))
  }

  /** The cache of a ReplicationSource or ReplicationDestination, for any order of the config map's keys. */
  method ConfigureCache(config: Option<map<string, string>>, side: string) returns (cache: CacheOptions)
    ensures cache == CacheFor(config, side)
    ensures cache.storageClass == (if config.Some? && side + "CacheStorageClassName" in config.value
                                   then Some(config.value[side + "CacheStorageClassName"]) else None)
    ensures cache.accessMode == (if config.Some? && side + "CacheAccessMode" in config.value
                                 then Some(config.value[side + "CacheAccessMode"]) else None)
    ensures cache.capacity == (if config.Some? && side + "CacheCapacity" in config.value
                               then Some(config.value[side + "CacheCapacity"]) else None)
  {
    cache := CacheOptions(None, None, None);
    if config.Some? {
      var data, keys := config.value, config.value.Keys;
      while keys != {}
        invariant keys <= data.Keys
        invariant cache == CacheOptions(SoFar(data, keys, side + "CacheStorageClassName"),
                                        SoFar(data, keys, side + "CacheAccessMode"), SoFar(data, keys, side + "CacheCapacity"))
        decreases |keys|
      {
        var key :| key in keys;
        keys := keys - {key};
        if key == side + "CacheStorageClassName" { cache := cache.(storageClass := Some(data[key])); }
        if key == side + "CacheAccessMode" { cache := cache.(accessMode := Some(data[key])); }
        if key == side + "CacheCapacity" { cache := cache.(capacity := Some(data[key])); }
      }
    }
  }

  /** The setting as a loop has found it, with `keys` still to come. */
  function SoFar(data: map<string, string>, keys: set<string>, key: string): Option<string> {
    if key in data && key !in keys then Some(data[key]) else None
  }

  /******* In terms of the config maps themselves *******/

  /** The config map for a storage class has the key. */
  predicate Configured(configs: ConfigMaps, ns: string, storageClass: string, key: string) {
    Id(ns, storageClass + "-config") in configs && key in configs[Id(ns, storageClass + "-config")]
  }

  function Configuration(configs: ConfigMaps, ns: string, storageClass: string, key: string): string
    requires Configured(configs, ns, storageClass, key)
  {
    configs[Id(ns, storageClass + "-config")][key]
  }

  /** Each option is the configured one where there is one, and else the default. */
  predicate SourceSide(o: VolumeOptions, storageClass: string, accessModes: seq<string>, ns: string, configs: ConfigMaps) {
    && o.storageClass == (if Configured(configs, ns, storageClass, "SourceStorageClassName")
                          then Configuration(configs, ns, storageClass, "SourceStorageClassName") else storageClass)
    && o.accessModes == (if Configured(configs, ns, storageClass, "SourceAccessMode")
                         then [Configuration(configs, ns, storageClass, "SourceAccessMode")] else accessModes)
  }

  predicate DestinationSide(o: VolumeOptions, storageClass: string, ns: string, configs: ConfigMaps) {
    && o.storageClass == (if Configured(configs, ns, storageClass, "DestinationStorageClassName")
                          then Configuration(configs, ns, storageClass, "DestinationStorageClassName") else storageClass)
    && o.accessModes == [if Configured(configs, ns, storageClass, "DestinationAccessMode")
                         then Configuration(configs, ns, storageClass, "DestinationAccessMode") else "ReadWriteOnce"]
  }

  predicate SetFrom(setting: Option<string>, configs: ConfigMaps, ns: string, storageClass: string, key: string) {
    setting == if Configured(configs, ns, storageClass, key) then Some(Configuration(configs, ns, storageClass, key)) else None
  }

  lemma ClaimOptionsMean(source: SourcePvc, ns: string, configs: ConfigMaps)
    ensures SourceSide(ClaimOptions(source, ns, configs), source.storageClass, source.accessModes, ns, configs)
  {
  }

  lemma MoverOptionsMean(recordedClass: string, cloneModes: seq<string>, ns: string, configs: ConfigMaps)
    ensures SourceSide(MoverOptions(recordedClass, cloneModes, ns, configs), recordedClass, cloneModes, ns, configs)
  {
  }

  lemma DestinationOptionsMean(recordedClass: string, ns: string, configs: ConfigMaps)
    ensures DestinationSide(DestinationOptions(recordedClass, ns, configs), recordedClass, ns, configs)
  {
  }

  lemma SourceCacheMeans(storageClass: string, ns: string, configs: ConfigMaps)
    ensures var c := CacheFor(ConfigFor(configs, ns, storageClass), "Source");
            && SetFrom(c.storageClass, configs, ns, storageClass, "SourceCacheStorageClassName")
            && SetFrom(c.accessMode, configs, ns, storageClass, "SourceCacheAccessMode")
            && SetFrom(c.capacity, configs, ns, storageClass, "SourceCacheCapacity")
  {
    assert "Source" + "CacheStorageClassName" == "SourceCacheStorageClassName";
    assert "Source" + "CacheAccessMode" == "SourceCacheAccessMode";
    assert "Source" + "CacheCapacity" == "SourceCacheCapacity";
  }

  lemma DestinationCacheMeans(storageClass: string, ns: string, configs: ConfigMaps)
    ensures var c := CacheFor(ConfigFor(configs, ns, storageClass), "Destination");
            && SetFrom(c.storageClass, configs, ns, storageClass, "DestinationCacheStorageClassName")
            && SetFrom(c.accessMode, configs, ns, storageClass, "DestinationCacheAccessMode")
            && SetFrom(c.capacity, configs, ns, storageClass, "DestinationCacheCapacity")
  {
    assert "Destination" + "CacheStorageClassName" == "DestinationCacheStorageClassName";
    assert "Destination" + "CacheAccessMode" == "DestinationCacheAccessMode";
    assert "Destination" + "CacheCapacity" == "DestinationCacheCapacity";
  }
}
