/** The build service facade: runs the base orchestrator builder and copies its
    output into the response map, refusing to overwrite a key. */
module BuilderServicer {
  import opened Wrappers
  import opened OrchestratorModels
  import opened MconfigProtos
  import opened MconfigAssemblers
  import OrchestratorBuilder

  datatype BuildRequest = BuildRequest(network: Network, graph: EntityGraph, gatewayId: string)

  datatype BuildResponse = BuildResponse(configsByKey: map<string, Mconfig>)

  /** Inserts one config into the response map; a key already present is a
      duplicate-key error and nothing is overwritten. */
  function InsertConfig(configs: map<string, Mconfig>, key: string, config: Mconfig): (r: Result<map<string, Mconfig>, BuildError>)
    ensures r.Failure? <==> key in configs
    ensures r.Failure? ==> r.error == DuplicateConfigKey(key)
    ensures r.Success? ==>
      && r.value.Keys == configs.Keys + {key}
      && r.value[key] == config
      && forall k :: k in configs ==> r.value[k] == configs[k]
  {
    if key in configs then Failure(DuplicateConfigKey(key)) else Success(configs[key := config])
  }

  /** The response for a request: the builder's map, key for key, or the
      builder's error wrapped as a builder failure. */
  function Response(orc8rVersion: string, request: BuildRequest, jitter: Jitter): Result<BuildResponse, BuildError> {
    match OrchestratorBuilder.BuiltConfigs(request.network, request.graph, request.gatewayId, orc8rVersion, jitter)
    case Failure(e) => Failure(BuilderFailed(e))
    case Success(configs) => Success(BuildResponse(configs))
  }

  method Build(orc8rVersion: string, request: BuildRequest, jitter: Jitter) returns (r: Result<BuildResponse, BuildError>)
    requires StateConfigWellTyped(request.network)
    ensures r == Response(orc8rVersion, request, jitter)
  {
    var built := OrchestratorBuilder.Build(request.network, request.graph, request.gatewayId, orc8rVersion, jitter);
    if built.Failure? {
      return Failure(BuilderFailed(built.error));
    }
    var config := built.value;
    var ret: map<string, Mconfig> := map[];
    var remaining := config.Keys;
    while remaining != {}
      invariant remaining <= config.Keys
      invariant ret.Keys == config.Keys - remaining
      invariant forall k :: k in ret ==> ret[k] == config[k]
      decreases remaining
    {
      var key :| key in remaining;
      var inserted := InsertConfig(ret, key, config[key]);
      if inserted.Failure? {
        return Failure(DuplicateConfigKey(key));
      }
      ret := inserted.value;
      remaining := remaining - {key};
    }
    assert ret == config;
    return Success(BuildResponse(ret));
  }

  /** The response map equals the builder's output key for key, a builder error is
      propagated wrapped, and a duplicate key never arises from a builder map. */
  lemma ResponseMatchesBuilder(orc8rVersion: string, request: BuildRequest, jitter: Jitter)
    ensures Response(orc8rVersion, request, jitter).Failure? <==>
      OrchestratorBuilder.BuiltConfigs(request.network, request.graph, request.gatewayId, orc8rVersion, jitter).Failure?
    ensures Response(orc8rVersion, request, jitter).Failure? ==>
      Response(orc8rVersion, request, jitter).error ==
        BuilderFailed(OrchestratorBuilder.BuiltConfigs(request.network, request.graph, request.gatewayId, orc8rVersion, jitter).error)
    ensures Response(orc8rVersion, request, jitter).Success? ==>
      var out := OrchestratorBuilder.BuiltConfigs(request.network, request.graph, request.gatewayId, orc8rVersion, jitter).value;
      var resp := Response(orc8rVersion, request, jitter).value.configsByKey;
      resp.Keys == out.Keys && forall k :: k in out ==> resp[k] == out[k]
  {
  }
}
