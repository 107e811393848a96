/** The base orchestrator builder: looks the gateway up in the entity graph, runs
    the assemblers and fills the map from subsystem name to config. Decoding the
    wire forms of the network and graph and encoding the output configs are not
    part of this model: the builder here takes and returns typed values. */
module OrchestratorBuilder {
  import opened Wrappers
  import opened OrchestratorModels
  import opened MconfigProtos
  import opened MconfigAssemblers

  const MagmadKey: string := "magmad"
  const FluentBitKey: string := "td-agent-bit"
  const EventdKey: string := "eventd"
  const OvpnKey: string := "ovpn"
  const ControlProxyKey: string := "control_proxy"
  const MetricsdKey: string := "metricsd"
  const StateKey: string := "state"
  const SharedMconfigKey: string := "shared_mconfig"

  /** The outputs emitted only for a gateway with a config bundle. */
  const GatewayConfigKeys: set<string> := {MagmadKey, FluentBitKey, EventdKey, OvpnKey}

  /** The outputs emitted for every gateway. */
  const AlwaysKeys: set<string> := {ControlProxyKey, MetricsdKey, StateKey, SharedMconfigKey}

  /** The four outputs that do not depend on the gateway's config bundle. */
  function AlwaysConfigs(network: Network, gatewayId: string, jitter: Jitter): map<string, Mconfig> {
    map[
      ControlProxyKey := ControlProxyMconfigValue(INFO),
      MetricsdKey := MetricsdMconfigValue(INFO),
      StateKey := StateMconfigValue(StateMconfig(network, gatewayId, jitter)),
      SharedMconfigKey := SharedMconfigValue(SharedMconfig(NetworkSentryMconfig(network)))]
  }

  /** The four outputs computed from a gateway's config bundle, or the error of
      its upgrade-tier lookup. */
  function GatewayConfigs(networkId: string, gatewayId: string, gateway: GatewayEntity, graph: EntityGraph,
                          gatewayConfig: MagmadGatewayConfigs, orc8rVersion: string): Result<map<string, Mconfig>, BuildError> {
    match MagmadMconfig(gateway, graph, gatewayConfig, orc8rVersion)
    case Failure(e) => Failure(e)
    case Success(magmad) =>
      Success(map[
        MagmadKey := MagmadMconfigValue(magmad),
        FluentBitKey := FluentBitMconfigValue(FluentBitMconfig(networkId, gatewayId, gatewayConfig)),
        EventdKey := EventdMconfigValue(EventdMconfig(gatewayConfig)),
        OvpnKey := OpenVpnMconfigValue(VpnMconfig(gatewayConfig))])
  }

  /** The result of building the configs of gateway `gatewayId`. */
  function BuiltConfigs(network: Network, graph: EntityGraph, gatewayId: string, orc8rVersion: string,
                        jitter: Jitter): Result<map<string, Mconfig>, BuildError> {
    match graph.getGateway(gatewayId)
    case NotFound => Failure(GatewayNotFound(gatewayId))
    case LookupError(e) => Failure(GraphLookupFailed(e))
    case Found(gateway) =>
      var always := AlwaysConfigs(network, gatewayId, jitter);
      match gateway.config
      case None => Success(always)
      case Some(cfg) =>
        match GatewayConfigs(network.id, gatewayId, gateway, graph, cfg, orc8rVersion)
        case Failure(e) => Failure(e)
        case Success(perGateway) => Success(perGateway + always)
  }

  method Build(network: Network, graph: EntityGraph, gatewayId: string, orc8rVersion: string, jitter: Jitter)
    returns (r: Result<map<string, Mconfig>, BuildError>)
    requires StateConfigWellTyped(network)
    ensures r == BuiltConfigs(network, graph, gatewayId, orc8rVersion, jitter)
  {
    var networkId := network.id;

    // The gateway must be present in the graph.
    var lookup := graph.getGateway(gatewayId);
    if lookup.NotFound? {
      return Failure(GatewayNotFound(gatewayId));
    }
    if lookup.LookupError? {
      return Failure(GraphLookupFailed(lookup.err));
    }
    var gateway := lookup.entity;

    var vals: map<string, Mconfig> := map[];
    if gateway.config.Some? {
      var gatewayConfig := gateway.config.value;
      var magmad := GetMagmadMconfig(gateway, graph, gatewayConfig, orc8rVersion);
      if magmad.Failure? {
        return Failure(magmad.error);
      }
      vals := vals[MagmadKey := MagmadMconfigValue(magmad.value)];
      var fluentBit := GetFluentBitMconfig(networkId, gatewayId, gatewayConfig);
      vals := vals[FluentBitKey := FluentBitMconfigValue(fluentBit)];
      var eventd := GetEventdMconfig(gatewayConfig);
      vals := vals[EventdKey := EventdMconfigValue(eventd)];
      var ovpn := GetVpnMconfig(gatewayConfig);
      vals := vals[OvpnKey := OpenVpnMconfigValue(ovpn)];
    }
    vals := vals[ControlProxyKey := ControlProxyMconfigValue(INFO)];
    vals := vals[MetricsdKey := MetricsdMconfigValue(INFO)];
    var state := GetStateMconfig(network, gatewayId, jitter);
    vals := vals[StateKey := StateMconfigValue(state)];
    vals := vals[SharedMconfigKey := SharedMconfigValue(SharedMconfig(NetworkSentryMconfig(network)))];
    assert gateway.config.None? ==> vals == AlwaysConfigs(network, gatewayId, jitter);
    assert gateway.config.Some? ==>
      vals == GatewayConfigs(networkId, gatewayId, gateway, graph, gateway.config.value, orc8rVersion).value
              + AlwaysConfigs(network, gatewayId, jitter);
    return Success(vals);
  }

  /** A gateway missing from the graph aborts the build with no output; any other
      lookup error is returned unchanged. */
  lemma BuildGatewayLookup(network: Network, graph: EntityGraph, gatewayId: string, orc8rVersion: string, jitter: Jitter)
    requires StateConfigWellTyped(network)
    ensures graph.getGateway(gatewayId).NotFound? ==>
      BuiltConfigs(network, graph, gatewayId, orc8rVersion, jitter) == Failure(GatewayNotFound(gatewayId))
    ensures graph.getGateway(gatewayId).LookupError? ==>
      BuiltConfigs(network, graph, gatewayId, orc8rVersion, jitter) ==
        Failure(GraphLookupFailed(graph.getGateway(gatewayId).err))
  {
  }

  /** The build fails exactly when the gateway lookup does not find it, or the
      gateway has a config bundle and its upgrade-tier lookup fails with an error
      other than NotFound (which is then the build's error). */
  lemma BuildFailsIff(network: Network, graph: EntityGraph, gatewayId: string, orc8rVersion: string, jitter: Jitter)
    requires StateConfigWellTyped(network)
    ensures BuiltConfigs(network, graph, gatewayId, orc8rVersion, jitter).Failure? <==>
      || !graph.getGateway(gatewayId).Found?
      || (&& graph.getGateway(gatewayId).entity.config.Some?
          && graph.firstUpgradeTierAncestor(graph.getGateway(gatewayId).entity).LookupError?)
    ensures
      && graph.getGateway(gatewayId).Found?
      && graph.getGateway(gatewayId).entity.config.Some?
      && graph.firstUpgradeTierAncestor(graph.getGateway(gatewayId).entity).LookupError?
      ==>
      BuiltConfigs(network, graph, gatewayId, orc8rVersion, jitter) ==
        Failure(UpgradeTierLoadFailed(graph.firstUpgradeTierAncestor(graph.getGateway(gatewayId).entity).err))
  {
  }

  /** On success the output keys are control_proxy, metricsd, state and
      shared_mconfig, plus magmad, td-agent-bit, eventd and ovpn exactly when the
      gateway has a config bundle. */
  lemma BuildOutputKeys(network: Network, graph: EntityGraph, gatewayId: string, orc8rVersion: string, jitter: Jitter)
    requires StateConfigWellTyped(network)
    requires BuiltConfigs(network, graph, gatewayId, orc8rVersion, jitter).Success?
    ensures graph.getGateway(gatewayId).Found?
    ensures BuiltConfigs(network, graph, gatewayId, orc8rVersion, jitter).value.Keys ==
      AlwaysKeys + (if graph.getGateway(gatewayId).entity.config.Some? then GatewayConfigKeys else {})
    ensures GatewayConfigKeys !! AlwaysKeys
  {
  }

  /** On success every output holds its assembler's config for this gateway. */
  lemma BuildOutputValues(network: Network, graph: EntityGraph, gatewayId: string, orc8rVersion: string, jitter: Jitter)
    requires StateConfigWellTyped(network)
    requires BuiltConfigs(network, graph, gatewayId, orc8rVersion, jitter).Success?
    ensures graph.getGateway(gatewayId).Found?
    ensures
      var out := BuiltConfigs(network, graph, gatewayId, orc8rVersion, jitter).value;
      var gateway := graph.getGateway(gatewayId).entity;
      && out[ControlProxyKey] == ControlProxyMconfigValue(INFO)
      && out[MetricsdKey] == MetricsdMconfigValue(INFO)
      && out[StateKey] == StateMconfigValue(StateMconfig(network, gatewayId, jitter))
      && out[SharedMconfigKey] == SharedMconfigValue(SharedMconfig(NetworkSentryMconfig(network)))
      && (gateway.config.Some? ==>
            && out[MagmadKey] == MagmadMconfigValue(MagmadMconfig(gateway, graph, gateway.config.value, orc8rVersion).value)
            && out[FluentBitKey] == FluentBitMconfigValue(FluentBitMconfig(network.id, gatewayId, gateway.config.value))
            && out[EventdKey] == EventdMconfigValue(EventdMconfig(gateway.config.value))
            && out[OvpnKey] == OpenVpnMconfigValue(VpnMconfig(gateway.config.value)))
  {
  }
}
