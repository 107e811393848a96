/** The per-subsystem assemblers of the gateway configuration builder. Each starts
    from fixed defaults and overrides what the gateway or network supplies. Where
    the Go code builds a record and then overwrites fields (or loops), a method
    does the same and is proved equal to a specification function; the builder's
    specification and the lemmas use those functions. */
module MconfigAssemblers {
  import opened Wrappers
  import opened GoTypes
  import opened OrchestratorModels
  import opened MconfigProtos

  // ---- Package version and images (getPackageVersionAndImages) ----

  /** The version reported when the gateway is not tied to an upgrade tier. */
  const DefaultPackageVersion: string := "0.0.0-0"

  /** One tier image as an image spec; a nil name or order reads as "" or 0. */
  function ImageSpecOf(image: TierImage): ImageSpec {
    ImageSpec(image.name.GetOr(""), image.order.GetOr(0))
  }

  /** The images of a tier, in the tier's order. */
  function ImageSpecs(images: seq<TierImage>): seq<ImageSpec> {
    seq(|images|, i requires 0 <= i < |images| => ImageSpecOf(images[i]))
  }

  /** The package version and images of a gateway's nearest upgrade tier. */
  function PackageVersionAndImages(graph: EntityGraph, gateway: GatewayEntity): Result<(string, seq<ImageSpec>), BuildError> {
    match graph.firstUpgradeTierAncestor(gateway)
    case NotFound => Success((DefaultPackageVersion, []))
    case LookupError(e) => Failure(UpgradeTierLoadFailed(e))
    case Found(tier) => Success((tier.version, ImageSpecs(tier.images)))
  }

  method GetPackageVersionAndImages(gateway: GatewayEntity, graph: EntityGraph)
    returns (r: Result<(string, seq<ImageSpec>), BuildError>)
    ensures r == PackageVersionAndImages(graph, gateway)
  {
    var tier := graph.firstUpgradeTierAncestor(gateway);
    if tier.NotFound? {
      return Success((DefaultPackageVersion, []));
    }
    if tier.LookupError? {
      return Failure(UpgradeTierLoadFailed(tier.err));
    }
    var images := tier.entity.images;
    var retImages: seq<ImageSpec> := [];
    for i := 0 to |images|
      invariant |retImages| == i
      invariant forall j :: 0 <= j < i ==> retImages[j] == ImageSpecOf(images[j])
    {
      retImages := retImages + [ImageSpecOf(images[i])];
    }
    assert retImages == ImageSpecs(images);
    return Success((tier.entity.version, retImages));
  }

  /** No upgrade tier is a soft default; any other lookup error is fatal. */
  lemma PackageVersionFallback(graph: EntityGraph, gateway: GatewayEntity)
    ensures graph.firstUpgradeTierAncestor(gateway).NotFound? ==>
      PackageVersionAndImages(graph, gateway) == Success(("0.0.0-0", []))
    ensures graph.firstUpgradeTierAncestor(gateway).LookupError? ==>
      PackageVersionAndImages(graph, gateway) ==
        Failure(UpgradeTierLoadFailed(graph.firstUpgradeTierAncestor(gateway).err))
  {
  }

  /** With a tier, the version is the tier's and the images copy the tier's images
      one for one, in order. */
  lemma TierImagesCopied(graph: EntityGraph, gateway: GatewayEntity, tier: Tier)
    requires graph.firstUpgradeTierAncestor(gateway) == Found(tier)
    ensures PackageVersionAndImages(graph, gateway).Success?
    ensures PackageVersionAndImages(graph, gateway).value.0 == tier.version
    ensures |PackageVersionAndImages(graph, gateway).value.1| == |tier.images|
    ensures forall i :: 0 <= i < |tier.images| ==>
      PackageVersionAndImages(graph, gateway).value.1[i] ==
        ImageSpec(tier.images[i].name.GetOr(""), tier.images[i].order.GetOr(0))
  {
  }

  // ---- Magmad (getMagmadMconfig) ----

  /** The device-agent config for a gateway bundle and a resolved version and image list. */
  function MagmadOf(gatewayConfig: MagmadGatewayConfigs, version: string, images: seq<ImageSpec>,
                    orc8rVersion: string): MagmaD {
    MagmaD(
      logLevel := INFO,
      checkinInterval := ToInt32(gatewayConfig.checkinInterval),
      checkinTimeout := ToInt32(gatewayConfig.checkinTimeout),
      autoupgradeEnabled := gatewayConfig.autoupgradeEnabled.GetOr(false),
      autoupgradePollInterval := gatewayConfig.autoupgradePollInterval,
      packageVersion := version,
      images := images,
      dynamicServices := gatewayConfig.dynamicServices,
      featureFlags := gatewayConfig.featureFlags,
      orc8rVersion := orc8rVersion)
  }

  /** The device-agent config: checkin, autoupgrade, dynamic services and feature
      flags from the gateway, version and images from its upgrade tier. */
  function MagmadMconfig(gateway: GatewayEntity, graph: EntityGraph, gatewayConfig: MagmadGatewayConfigs,
                         orc8rVersion: string): Result<MagmaD, BuildError> {
    match PackageVersionAndImages(graph, gateway)
    case Failure(e) => Failure(e)
    case Success((version, images)) => Success(MagmadOf(gatewayConfig, version, images, orc8rVersion))
  }

  method GetMagmadMconfig(gateway: GatewayEntity, graph: EntityGraph, gatewayConfig: MagmadGatewayConfigs,
                          orc8rVersion: string) returns (r: Result<MagmaD, BuildError>)
    ensures r == MagmadMconfig(gateway, graph, gatewayConfig, orc8rVersion)
  {
    var versionAndImages := GetPackageVersionAndImages(gateway, graph);
    if versionAndImages.Failure? {
      return Failure(versionAndImages.error);
    }
    var (version, images) := versionAndImages.value;
    return Success(MagmadOf(gatewayConfig, version, images, orc8rVersion));
  }

  /** The device-agent config fails exactly when the tier lookup fails with an
      error other than NotFound; otherwise it carries the gateway's values. */
  lemma MagmadMconfigContents(gateway: GatewayEntity, graph: EntityGraph, cfg: MagmadGatewayConfigs, orc8rVersion: string)
    ensures MagmadMconfig(gateway, graph, cfg, orc8rVersion).Failure? <==>
      graph.firstUpgradeTierAncestor(gateway).LookupError?
    ensures graph.firstUpgradeTierAncestor(gateway).LookupError? ==>
      MagmadMconfig(gateway, graph, cfg, orc8rVersion).error ==
        UpgradeTierLoadFailed(graph.firstUpgradeTierAncestor(gateway).err)
    ensures MagmadMconfig(gateway, graph, cfg, orc8rVersion).Success? ==>
      var m := MagmadMconfig(gateway, graph, cfg, orc8rVersion).value;
      && m.logLevel == INFO
      && m.checkinInterval == ToInt32(cfg.checkinInterval)
      && m.checkinTimeout == ToInt32(cfg.checkinTimeout)
      && m.autoupgradeEnabled == (cfg.autoupgradeEnabled == Some(true))
      && m.autoupgradePollInterval == cfg.autoupgradePollInterval
      && m.dynamicServices == cfg.dynamicServices
      && m.featureFlags == cfg.featureFlags
      && m.orc8rVersion == orc8rVersion
      && (graph.firstUpgradeTierAncestor(gateway).NotFound? ==> m.packageVersion == "0.0.0-0" && m.images == [])
      && (graph.firstUpgradeTierAncestor(gateway).Found? ==>
            && m.packageVersion == graph.firstUpgradeTierAncestor(gateway).entity.version
            && m.images == ImageSpecs(graph.firstUpgradeTierAncestor(gateway).entity.images))
  {
  }

  // ---- td-agent-bit (getFluentBitMconfig) ----

  const DefaultThrottleRate: uint32 := 1000
  const DefaultThrottleWindow: uint32 := 5
  const DefaultThrottleInterval: string := "1m"

  /** The fluent-bit config before any gateway override. */
  function DefaultFluentBit(networkId: string, gatewayId: string): FluentBit {
    FluentBit(
      extraTags := map["network_id" := networkId, "gateway_id" := gatewayId],
      throttleRate := DefaultThrottleRate,
      throttleWindow := DefaultThrottleWindow,
      throttleInterval := DefaultThrottleInterval,
      filesByTag := map[])
  }

  /** The gateway's logging aggregation overrides, if both levels are present. */
  function AggregationOf(gatewayConfig: MagmadGatewayConfigs): Option<AggregationLoggingConfigs> {
    match gatewayConfig.logging
    case Some(logging) => logging.aggregation
    case None => None
  }

  /** The fluent-bit config: defaults, with each present override taking its field's place. */
  function FluentBitMconfig(networkId: string, gatewayId: string, gatewayConfig: MagmadGatewayConfigs): FluentBit {
    var defaults := DefaultFluentBit(networkId, gatewayId);
    match AggregationOf(gatewayConfig)
    case None => defaults
    case Some(agg) =>
      defaults.(
        filesByTag := agg.targetFilesByTag,
        throttleRate := agg.throttleRate.GetOr(DefaultThrottleRate),
        throttleWindow := agg.throttleWindow.GetOr(DefaultThrottleWindow),
        throttleInterval := agg.throttleInterval.GetOr(DefaultThrottleInterval))
  }

  method GetFluentBitMconfig(networkId: string, gatewayId: string, mdGw: MagmadGatewayConfigs) returns (ret: FluentBit)
    ensures ret == FluentBitMconfig(networkId, gatewayId, mdGw)
  {
    ret := DefaultFluentBit(networkId, gatewayId);
    if mdGw.logging.Some? && mdGw.logging.value.aggregation.Some? {
      var agg := mdGw.logging.value.aggregation.value;
      ret := ret.(filesByTag := agg.targetFilesByTag);
      if agg.throttleRate.Some? {
        ret := ret.(throttleRate := agg.throttleRate.value);
      }
      if agg.throttleWindow.Some? {
        ret := ret.(throttleWindow := agg.throttleWindow.value);
      }
      if agg.throttleInterval.Some? {
        ret := ret.(throttleInterval := agg.throttleInterval.value);
      }
    }
  }

  /** The identifying tags are always exactly network_id and gateway_id. */
  lemma FluentBitExtraTags(networkId: string, gatewayId: string, cfg: MagmadGatewayConfigs)
    ensures FluentBitMconfig(networkId, gatewayId, cfg).extraTags.Keys == {"network_id", "gateway_id"}
    ensures FluentBitMconfig(networkId, gatewayId, cfg).extraTags["network_id"] == networkId
    ensures FluentBitMconfig(networkId, gatewayId, cfg).extraTags["gateway_id"] == gatewayId
  {
  }

  /** Without logging aggregation the config is rate 1000, window 5, interval "1m"
      and no files by tag. */
  lemma FluentBitDefaults(networkId: string, gatewayId: string, cfg: MagmadGatewayConfigs)
    requires cfg.logging.None? || cfg.logging.value.aggregation.None?
    ensures FluentBitMconfig(networkId, gatewayId, cfg).throttleRate == 1000
    ensures FluentBitMconfig(networkId, gatewayId, cfg).throttleWindow == 5
    ensures FluentBitMconfig(networkId, gatewayId, cfg).throttleInterval == "1m"
    ensures FluentBitMconfig(networkId, gatewayId, cfg).filesByTag == map[]
  {
  }

  /** With logging aggregation, FilesByTag is the target map, and each throttle
      field is its own override when that one is set and its default otherwise. */
  lemma FluentBitOverrides(networkId: string, gatewayId: string, cfg: MagmadGatewayConfigs, agg: AggregationLoggingConfigs)
    requires cfg.logging.Some? && cfg.logging.value.aggregation == Some(agg)
    ensures FluentBitMconfig(networkId, gatewayId, cfg).filesByTag == agg.targetFilesByTag
    ensures FluentBitMconfig(networkId, gatewayId, cfg).throttleRate ==
      (if agg.throttleRate.Some? then agg.throttleRate.value else 1000)
    ensures FluentBitMconfig(networkId, gatewayId, cfg).throttleWindow ==
      (if agg.throttleWindow.Some? then agg.throttleWindow.value else 5)
    ensures FluentBitMconfig(networkId, gatewayId, cfg).throttleInterval ==
      (if agg.throttleInterval.Some? then agg.throttleInterval.value else "1m")
  {
  }

  // ---- eventd (getEventdMconfig) ----

  const DefaultEventVerbosity: int32 := -1

  function EventdMconfig(gatewayConfig: MagmadGatewayConfigs): EventD {
    var verbosity :=
      match gatewayConfig.logging
      case Some(logging) => logging.eventVerbosity.GetOr(DefaultEventVerbosity)
      case None => DefaultEventVerbosity;
    EventD(INFO, verbosity)
  }

  method GetEventdMconfig(gatewayConfig: MagmadGatewayConfigs) returns (ret: EventD)
    ensures ret == EventdMconfig(gatewayConfig)
  {
    ret := EventD(logLevel := INFO, eventVerbosity := DefaultEventVerbosity);
    if gatewayConfig.logging.Some? && gatewayConfig.logging.value.eventVerbosity.Some? {
      ret := ret.(eventVerbosity := gatewayConfig.logging.value.eventVerbosity.value);
    }
  }

  /** Event verbosity is -1 unless the gateway's logging config sets it; the level is INFO. */
  lemma EventdVerbosity(cfg: MagmadGatewayConfigs)
    ensures EventdMconfig(cfg).logLevel == INFO
    ensures EventdMconfig(cfg).eventVerbosity ==
      (if cfg.logging.Some? && cfg.logging.value.eventVerbosity.Some?
       then cfg.logging.value.eventVerbosity.value else -1)
  {
  }

  // ---- ovpn (getVpnMconfig) ----

  function VpnMconfig(gatewayConfig: MagmadGatewayConfigs): OpenVPN {
    OpenVPN(match gatewayConfig.vpn case Some(vpn) => vpn.enableShell case None => false)
  }

  method GetVpnMconfig(gatewayConfig: MagmadGatewayConfigs) returns (ret: OpenVPN)
    ensures ret == VpnMconfig(gatewayConfig)
  {
    ret := OpenVPN(enableShellAccess := false);
    if gatewayConfig.vpn.Some? {
      ret := ret.(enableShellAccess := gatewayConfig.vpn.value.enableShell);
    }
  }

  /** Shell access is off unless a VPN sub-config is present, and then it is its flag. */
  lemma VpnShellAccess(cfg: MagmadGatewayConfigs)
    ensures VpnMconfig(cfg).enableShellAccess <==> cfg.vpn.Some? && cfg.vpn.value.enableShell
  {
  }

  // ---- state (getStateMconfig) ----

  const DefaultSyncInterval: uint32 := 60

  /** math.JitterUint32(n, gatewayKey, 0.25): a deterministic perturbation of n
      keyed by the gateway; its definition is not part of this model. */
  type Jitter = (uint32, string) -> uint32

  /** The sync interval before jitter: the network's state config when it has one, else 60. */
  function BaseSyncInterval(network: Network): uint32 {
    if StateConfigKey in network.configs && network.configs[StateConfigKey].StateConfigValue?
    then network.configs[StateConfigKey].state.syncInterval
    else DefaultSyncInterval
  }

  function StateMconfig(network: Network, gatewayKey: string, jitter: Jitter): State {
    State(INFO, jitter(BaseSyncInterval(network), gatewayKey))
  }

  method GetStateMconfig(network: Network, gatewayKey: string, jitter: Jitter) returns (ret: State)
    requires StateConfigWellTyped(network)
    ensures ret == StateMconfig(network, gatewayKey, jitter)
  {
    ret := State(syncInterval := DefaultSyncInterval, logLevel := INFO);
    if StateConfigKey in network.configs {
      var netConfig := network.configs[StateConfigKey];
      if !netConfig.NilConfig? {
        ret := ret.(syncInterval := netConfig.state.syncInterval);
      }
    }
    ret := ret.(syncInterval := jitter(ret.syncInterval, gatewayKey));
  }

  /** The state interval is the jittered network override, or the jittered 60 when
      the network has no state config (absent or nil). */
  lemma StateSyncInterval(network: Network, gatewayKey: string, jitter: Jitter)
    ensures StateMconfig(network, gatewayKey, jitter).logLevel == INFO
    ensures StateConfigKey in network.configs && network.configs[StateConfigKey].StateConfigValue? ==>
      StateMconfig(network, gatewayKey, jitter).syncInterval ==
        jitter(network.configs[StateConfigKey].state.syncInterval, gatewayKey)
    ensures StateConfigKey !in network.configs || network.configs[StateConfigKey].NilConfig? ==>
      StateMconfig(network, gatewayKey, jitter).syncInterval == jitter(60, gatewayKey)
  {
  }

  // ---- shared_mconfig sentry sub-config (getNetworkSentryConfig) ----

  function NetworkSentryMconfig(network: Network): Option<SharedSentryConfig> {
    if NetworkSentryConfigKey !in network.configs then None
    else
      match network.configs[NetworkSentryConfigKey]
      case SentryConfigValue(c) =>
        Some(SharedSentryConfig(
          sampleRate := c.sampleRate.GetOr(Float32Zero),
          uploadMmeLog := c.uploadMmeLog,
          dsnNative := c.urlNative,
          dsnPython := c.urlPython,
          exclusionPatterns := c.exclusionPatterns))
      case _ => None
  }

  /** The sentry sub-config is absent when the network has no sentry entry, the
      entry is nil, or it holds another kind of config; otherwise every field is
      copied. */
  lemma SentryConfigAbsentOrCopied(network: Network)
    ensures NetworkSentryMconfig(network).None? <==>
      NetworkSentryConfigKey !in network.configs || !network.configs[NetworkSentryConfigKey].SentryConfigValue?
    ensures NetworkSentryMconfig(network).Some? ==>
      var c := network.configs[NetworkSentryConfigKey].sentry;
      var s := NetworkSentryMconfig(network).value;
      && s.sampleRate == c.sampleRate.GetOr(Float32(0))
      && s.uploadMmeLog == c.uploadMmeLog
      && s.dsnNative == c.urlNative
      && s.dsnPython == c.urlPython
      && s.exclusionPatterns == c.exclusionPatterns
  {
  }
}
