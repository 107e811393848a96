/** The inputs of the gateway configuration builder: the gateway's config bundle,
    upgrade tiers, the network and its per-kind configs, the entity graph seen
    through its two lookups, and the builder's error taxonomy. Entity and network
    configs are closed datatypes, so the Go type assertions cannot fail here. */
module OrchestratorModels {
  import opened Wrappers
  import opened GoTypes

  // ---- Gateway config bundle (models.MagmadGatewayConfigs) ----

  /** Logging aggregation overrides; each throttle field is independently optional. */
  datatype AggregationLoggingConfigs = AggregationLoggingConfigs(
    targetFilesByTag: map<string, string>,
    throttleRate: Option<uint32>,
    throttleWindow: Option<uint32>,
    throttleInterval: Option<string>)

  datatype GatewayLoggingConfigs = GatewayLoggingConfigs(
    aggregation: Option<AggregationLoggingConfigs>,
    eventVerbosity: Option<int32>)

  /** The VPN sub-config; its shell flag is always set (Go would panic on nil). */
  datatype GatewayVpnConfigs = GatewayVpnConfigs(enableShell: bool)

  /** The checkin fields are kept at full width: the builder converts them with int32(). */
  datatype MagmadGatewayConfigs = MagmadGatewayConfigs(
    checkinInterval: int,
    checkinTimeout: int,
    autoupgradeEnabled: Option<bool>,
    autoupgradePollInterval: int32,
    dynamicServices: seq<string>,
    featureFlags: map<string, bool>,
    logging: Option<GatewayLoggingConfigs>,
    vpn: Option<GatewayVpnConfigs>)

  /** A magmad gateway entity: its key and its optional config bundle. */
  datatype GatewayEntity = GatewayEntity(key: string, config: Option<MagmadGatewayConfigs>)

  // ---- Upgrade tier (models.Tier) ----

  datatype TierImage = TierImage(name: Option<string>, order: Option<int64>)

  datatype Tier = Tier(version: string, images: seq<TierImage>)

  // ---- Entity graph ----

  /** A traversal or consistency failure inside the graph, other than NotFound. */
  datatype GraphError = GraphError(code: nat)

  /** The three-way result of a graph lookup. */
  datatype Lookup<+T> = Found(entity: T) | NotFound | LookupError(err: GraphError)

  /** The entity graph, seen through the two lookups the builder makes:
      GetEntity(MagmadGatewayType, key) and
      GetFirstAncestorOfType(gateway, UpgradeTierEntityType). */
  datatype EntityGraph = EntityGraph(
    getGateway: string -> Lookup<GatewayEntity>,
    firstUpgradeTierAncestor: GatewayEntity -> Lookup<Tier>)

  // ---- Network and its configs ----

  datatype StateConfig = StateConfig(syncInterval: uint32)

  datatype NetworkSentryConfig = NetworkSentryConfig(
    sampleRate: Option<Float32>,
    uploadMmeLog: bool,
    urlNative: string,
    urlPython: string,
    exclusionPatterns: seq<string>)

  /** A value in a network's config map: a nil interface, one of the two kinds the
      builder reads, or a config of some other kind. */
  datatype NetworkConfig =
    | NilConfig
    | StateConfigValue(state: StateConfig)
    | SentryConfigValue(sentry: NetworkSentryConfig)
    | OtherConfig(kind: string)

  datatype Network = Network(id: string, configs: map<string, NetworkConfig>)

  /** The key of the state-sync config in a network's config map. */
  const StateConfigKey: string := "state_config"

  /** orc8r.NetworkSentryConfig, the key of the sentry config in a network's config map. */
  const NetworkSentryConfigKey: string := "sentry_config"

  /** The builder asserts that the value under "state_config", when non-nil, is a
      state config; any other kind makes the Go code panic. */
  predicate StateConfigWellTyped(network: Network) {
    StateConfigKey in network.configs ==>
      network.configs[StateConfigKey].NilConfig? || network.configs[StateConfigKey].StateConfigValue?
  }

  // ---- Errors ----

  datatype BuildError =
    | GatewayNotFound(gatewayId: string)
    | GraphLookupFailed(err: GraphError)
    | UpgradeTierLoadFailed(err: GraphError)
    | BuilderFailed(cause: BuildError)
    | DuplicateConfigKey(key: string)
}
