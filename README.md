# Gateway configuration builder and DNS configuration validator

This project models two pieces of the Magma orchestrator and proves properties
of them in Dafny.

**The gateway configuration builder** (`builder_servicer.go`). Given a network,
its entity graph and a gateway ID, the builder looks the magmad gateway up in
the graph. It then runs one assembler per managed subsystem and returns a map
from subsystem name to config.
- A missing gateway aborts the build. Any other lookup error is returned unchanged.
- `magmad`, `td-agent-bit`, `eventd` and `ovpn` are emitted only when the gateway has a config bundle.
- `control_proxy`, `metricsd`, `state` and `shared_mconfig` are always emitted.
- The device-agent config takes its package version and images from the gateway's
  nearest upgrade-tier ancestor. When there is no such ancestor, it falls back to
  `"0.0.0-0"` with no images. Any other ancestor-lookup error is fatal.
- Fluent-bit throttling starts from rate 1000, window 5 and interval `"1m"`.
  Each throttle field is replaced only by its own override.
- Event verbosity defaults to -1. VPN shell access defaults to off.
- The state sync interval defaults to 60 and is then jittered per gateway.
- The sentry sub-config is absent unless the network holds one.
- The build service copies the builder's map into its response and refuses a
  duplicate key.

**The DNS configuration validator** (`network_dns_config_swaggergen.go`, generated
by go-swagger).
- `enable_caching` and `local_ttl` are required.
- `records` is optional, and nil records are skipped.
- Each record needs a non-empty `domain`.
- Every entry of a record's `a_record`, `aaaa_record` and `cname_record` lists must be non-empty.
- Every sub-check runs, and the failures are gathered, in order, into one composite error.

Files and modules:
- `wrappers.dfy` (`Wrappers`): Option, Result and Outcome (a Go `error`: nil or set).
- `go_types.dfy` (`GoTypes`): Go's `int32`, `uint32` and `int64`, the `int32()` conversion, and float32 as opaque bits.
- `orchestrator_models.dfy` (`OrchestratorModels`): the gateway config bundle, upgrade tiers, the network and its configs, the entity graph and the build errors.
- `mconfig_protos.dfy` (`MconfigProtos`): the per-subsystem output configs.
- `mconfig_assemblers.dfy` (`MconfigAssemblers`): the `get*Mconfig` assemblers and `getPackageVersionAndImages`.
- `orchestrator_builder.dfy` (`OrchestratorBuilder`): `baseOrchestratorBuilder.Build`.
- `builder_servicer.dfy` (`BuilderServicer`): `builderServicer.Build`.
- `dns_config.dfy` (`DnsConfig`): the DNS validator.

Where the Go code mutates as it goes, the model is a method that does the same:
- filling the output map;
- overwriting fields of a freshly built record;
- index loops with early return;
- appending errors to a list.

Each such method is proved equal to a specification function. The lemmas state
the properties of those functions.

Entity and network configs are closed datatypes, not Go `interface{}` values
with type assertions. The graph is a value holding its two lookups as
functions. Each lookup returns `Found`, `NotFound` or `LookupError`. The jitter
function is a parameter.

The sentry config is also absent when the network's entry holds another kind of
config (builder_servicer.go:233-236).

## Model

| member | source | states |
|---|---|---|
| `GoTypes.ToInt32` | orc8r/cloud/go/services/orchestrator/servicers/builder_servicer.go:131-132 | The `int32()` conversion is congruent to its input modulo 2^32, and is the identity on values already in int32 range |
| `MconfigAssemblers.GetPackageVersionAndImages` | orc8r/cloud/go/services/orchestrator/servicers/builder_servicer.go:145-160 | The ancestor lookup and the image-copying loop give exactly the tier's version and images, the "0.0.0-0" fallback, or the wrapped tier error |
| `MconfigAssemblers.PackageVersionFallback` | orc8r/cloud/go/services/orchestrator/servicers/builder_servicer.go:145-152 | No upgrade-tier ancestor gives version "0.0.0-0", no images and no error; any other lookup error is an `UpgradeTierLoadFailed` carrying that error |
| `MconfigAssemblers.TierImagesCopied` | orc8r/cloud/go/services/orchestrator/servicers/builder_servicer.go:154-159 | With a tier, the version is the tier's, and the image list has the tier's length and order, with each name and order copied (nil reads as "" or 0) |
| `MconfigAssemblers.GetMagmadMconfig` | orc8r/cloud/go/services/orchestrator/servicers/builder_servicer.go:121-143 | Resolving the version and images by the looping lookup, then building the record, gives the device-agent specification or the tier error |
| `MconfigAssemblers.MagmadMconfigContents` | orc8r/cloud/go/services/orchestrator/servicers/builder_servicer.go:121-143 | The device-agent config fails exactly when the tier lookup errors (not NotFound). Otherwise: level INFO, checkin values converted by int32() wrap-around, autoupgrade flag defaulting to false, poll interval, services, flags and orc8r version copied, and the tier's version and image specs, or the "0.0.0-0" fallback with no images |
| `MconfigAssemblers.GetFluentBitMconfig` | orc8r/cloud/go/services/orchestrator/servicers/builder_servicer.go:162-187 | Building the default record and overwriting it field by field gives the fluent-bit specification |
| `MconfigAssemblers.FluentBitExtraTags` | orc8r/cloud/go/services/orchestrator/servicers/builder_servicer.go:163-167 | ExtraTags is always exactly {network_id: network ID, gateway_id: gateway ID} |
| `MconfigAssemblers.FluentBitDefaults` | orc8r/cloud/go/services/orchestrator/servicers/builder_servicer.go:163-173 | Without logging aggregation: rate 1000, window 5, interval "1m", no files by tag |
| `MconfigAssemblers.FluentBitOverrides` | orc8r/cloud/go/services/orchestrator/servicers/builder_servicer.go:173-184 | With aggregation, FilesByTag is the target map. Each throttle field takes its own override when set and keeps its default otherwise |
| `MconfigAssemblers.GetEventdMconfig` | orc8r/cloud/go/services/orchestrator/servicers/builder_servicer.go:189-198 | Building the record and overwriting the verbosity gives the eventd specification |
| `MconfigAssemblers.EventdVerbosity` | orc8r/cloud/go/services/orchestrator/servicers/builder_servicer.go:190-196 | Level INFO; verbosity is the logging config's event verbosity when set, else -1 |
| `MconfigAssemblers.GetVpnMconfig` | orc8r/cloud/go/services/orchestrator/servicers/builder_servicer.go:200-209 | Building the record and overwriting the flag gives the VPN specification |
| `MconfigAssemblers.VpnShellAccess` | orc8r/cloud/go/services/orchestrator/servicers/builder_servicer.go:201-206 | Shell access holds exactly when a VPN sub-config is present and its enable-shell flag is true |
| `MconfigAssemblers.GetStateMconfig` | orc8r/cloud/go/services/orchestrator/servicers/builder_servicer.go:211-226 | The default, override and jitter steps give the state specification (requires a well-typed state_config entry) |
| `MconfigAssemblers.StateSyncInterval` | orc8r/cloud/go/services/orchestrator/servicers/builder_servicer.go:212-224 | Level INFO. The interval is the jittered network override, or the jittered 60 when state_config is absent or nil |
| `MconfigAssemblers.SentryConfigAbsentOrCopied` | orc8r/cloud/go/services/orchestrator/servicers/builder_servicer.go:228-244 | The sentry sub-config is absent if and only if the entry is missing, nil or of another kind. When present, all five fields are copied (a nil sample rate reads as 0) |
| `OrchestratorBuilder.Build` | orc8r/cloud/go/services/orchestrator/servicers/builder_servicer.go:76-119 | Filling the map step by step gives exactly the builder specification |
| `OrchestratorBuilder.BuildGatewayLookup` | orc8r/cloud/go/services/orchestrator/servicers/builder_servicer.go:88-95 | A gateway not in the graph gives `GatewayNotFound` and no map; any other lookup error is returned unchanged |
| `OrchestratorBuilder.BuildFailsIff` | orc8r/cloud/go/services/orchestrator/servicers/builder_servicer.go:88-103 | The build fails exactly when the gateway is not found, or it has a config bundle and its tier lookup errors; that tier error is then the build's error |
| `OrchestratorBuilder.BuildOutputKeys` | orc8r/cloud/go/services/orchestrator/servicers/builder_servicer.go:97-111 | On success the keys are control_proxy, metricsd, state and shared_mconfig, plus magmad, td-agent-bit, eventd and ovpn exactly when the gateway has a config bundle |
| `OrchestratorBuilder.BuildOutputValues` | orc8r/cloud/go/services/orchestrator/servicers/builder_servicer.go:97-111 | On success each key holds its assembler's config, and control_proxy and metricsd hold level INFO |
| `BuilderServicer.InsertConfig` | orc8r/cloud/go/services/orchestrator/servicers/builder_servicer.go:62-66 | Inserting fails with `DuplicateConfigKey` exactly when the key is present. Otherwise it adds that one key and keeps every other entry |
| `BuilderServicer.Build` | orc8r/cloud/go/services/orchestrator/servicers/builder_servicer.go:54-70 | The copy loop over the builder's map gives the builder's map as the response, or the builder's error wrapped |
| `BuilderServicer.ResponseMatchesBuilder` | orc8r/cloud/go/services/orchestrator/servicers/builder_servicer.go:57-67 | The response fails exactly when the builder does, with its error wrapped. On success the response map equals the builder's map key for key |
| `DnsConfig.GatheredFailsIff` | lte/cloud/go/plugin/models/network_dns_config_swaggergen.go:50-53 | Gathered sub-checks fail exactly when some sub-check failed; the error is then the composite of the failures |
| `DnsConfig.FailuresAreFailedChecks` | lte/cloud/go/plugin/models/network_dns_config_swaggergen.go:36-48 | The gathered errors are exactly the errors of the failed sub-checks |
| `DnsConfig.StringListCheckIff` | lte/cloud/go/plugin/models/network_dns_config_swaggergen.go:162-211 | A record list passes exactly when no entry is empty. Otherwise the error is a MinLength-1 error at `<list>.<i>`, with i the first empty entry |
| `DnsConfig.ValidateStringList` | lte/cloud/go/plugin/models/network_dns_config_swaggergen.go:162-211 | The index loop with early return fails exactly when some entry is empty, and reports the first such index; nil or empty lists pass |
| `DnsConfig.ItemOutcomeIff` | lte/cloud/go/plugin/models/network_dns_config_swaggergen.go:137-160 | A record passes exactly when its domain is non-empty and none of its three lists has an empty entry |
| `DnsConfig.ValidateItem` | lte/cloud/go/plugin/models/network_dns_config_swaggergen.go:137-160 | Running the four sub-checks and appending failures gives the gathered outcome, which passes exactly when the record is valid |
| `DnsConfig.EmptyDomainFails` | lte/cloud/go/plugin/models/network_dns_config_swaggergen.go:213-224 | A record with an empty domain fails, with a Required error for `domain` in its composite |
| `DnsConfig.RecordsCheckAsWritten` | lte/cloud/go/plugin/models/network_dns_config_swaggergen.go:74-97 | As written, the record list fails exactly when some non-nil record is invalid, and its error is then the first invalid record's own error, unchanged |
| `DnsConfig.RecordsCheck` | lte/cloud/go/plugin/models/network_dns_config_swaggergen.go:80-96 | As intended, the record list fails exactly when some non-nil record is invalid; the error is named under `records.<i>` |
| `DnsConfig.ValidateRecords` | lte/cloud/go/plugin/models/network_dns_config_swaggergen.go:74-97 | The loop skips nil records and stops at the first invalid record. It fails exactly when some non-nil record is invalid |
| `DnsConfig.NilRecordsPass` | lte/cloud/go/plugin/models/network_dns_config_swaggergen.go:76-83 | An empty record list, or one of nil records only, passes |
| `DnsConfig.RecordsCheckReportsFirstInvalid` | lte/cloud/go/plugin/models/network_dns_config_swaggergen.go:80-96 | A failing record list reports the first invalid non-nil record, with that record's error named under `records.<i>` |
| `DnsConfig.AsWrittenLosesRecordIndex` | lte/cloud/go/plugin/models/network_dns_config_swaggergen.go:85-91 | For one record with an empty domain, the code as written reports `domain`; the intended check reports `records.0.domain` |
| `DnsConfig.AsWrittenDiffersOnlyInName` | lte/cloud/go/plugin/models/network_dns_config_swaggergen.go:85-91 | As written and as intended agree on pass or fail. The intended error is the as-written one with the `records.<i>` prefix |
| `DnsConfig.MissingEnableCachingFails` | lte/cloud/go/plugin/models/network_dns_config_swaggergen.go:56-63 | A config without enable_caching fails, with a Required error for `enable_caching` in its composite |
| `DnsConfig.MissingLocalTtlFails` | lte/cloud/go/plugin/models/network_dns_config_swaggergen.go:65-72 | A config without local_ttl fails, with a Required error for `local_ttl` in its composite |
| `DnsConfig.ConfigOutcomeIff` | lte/cloud/go/plugin/models/network_dns_config_swaggergen.go:35-54 | A config passes exactly when enable_caching and local_ttl are set and every non-nil record is valid |
| `DnsConfig.Validate` | lte/cloud/go/plugin/models/network_dns_config_swaggergen.go:35-54 | Running the three sub-checks and appending failures gives the gathered outcome, which passes exactly when the config is valid |

## Left out

- Decoding the network and graph from their wire forms (`FromProto`, builder_servicer.go:78-86) is left out, and so are its errors. These are foreign codecs; the builder here takes typed values.
- Encoding the outputs (`mconfig.MarshalConfigs`, builder_servicer.go:113-116) is left out, and so are its errors. The output and response maps hold typed configs, not bytes.
- `GetEntity` and `GetFirstAncestorOfType` are not modelled inside. They are functions held by `EntityGraph`, so any lookup result, including cycles detected as errors, is covered.
- `math.JitterUint32`: its body is not part of this model. Jitter is a function parameter, so the ±25% bound and the per-gateway spread are not proved.
- `NewBuilderServicer` (builder_servicer.go:43-52) is left out: it reads the `VERSION_TAG` environment variable and logs. The orc8r version is a parameter. The request `context` is unused plumbing.
- The float32 sample rate is an opaque bit pattern that is only copied. A nil rate reads as the zero bits (+0.0).
- `MarshalBinary` and `UnmarshalBinary` of both DNS types are JSON encoding and are left out. So is the unused `formats` registry.
- Validation errors are modelled as kinds with structured property paths. Message texts and the `in: "body"` location are left out.
- Type assertions that would panic in Go are ruled out by types:
  - the gateway config is a `MagmadGatewayConfigs` (line 99);
  - the upgrade tier always carries a `Tier` config (line 154);
  - tier images are never nil pointers (line 157);
  - the VPN shell flag is always set (line 205).
- A non-nil `state_config` entry of another kind (line 218) is excluded by the `StateConfigWellTyped` precondition. The methods and the `Build*` lemmas require it. The specification functions `BaseSyncInterval` and `BuiltConfigs` are total, so they read such an entry as the 60-second default where the code panics.
- A non-nil interface holding a nil sentry-config pointer, which would panic at line 238, has no value in the model.
- Go's nil and empty slices and maps are the same value here (`[]`, `map[]`). Neither the validator nor the builder treats them differently.
- The value of `orc8r.NetworkSentryConfig` is defined in the orc8r package, which is not part of this model. The model uses `"sentry_config"`, and no proof depends on that value.
- The widths of the gateway's checkin fields are defined in the gateway model, which is not part of this model. They are kept as unbounded integers and go through the explicit `int32()` wrap-around.
- Go's map iteration order in `builderServicer.Build` is unspecified. The model picks keys in an arbitrary order, and the proof holds for every order.

## Findings

| source | as written | input that shows it | evidently intended | confidence | as-written member | corrected member |
|---|---|---|---|---|---|---|
| lte/cloud/go/plugin/models/network_dns_config_swaggergen.go:85-91 | A failing record's `Validate` returns a composite error, never a `*errors.Validation`. The type assertion therefore never holds, and the error is returned without its `records.<i>` name | `records` = one record with `domain` "" (lemma `DnsConfig.AsWrittenLosesRecordIndex`): the reported path is `domain` | The failing record's errors are named under `records.<i>`, e.g. `records.0.domain` (lemma `DnsConfig.RecordsCheckReportsFirstInvalid`) | high (not executed) | `DnsConfig.RecordsCheckAsWritten` | `DnsConfig.RecordsCheck` |

The rest of the model, `DnsConfig.ValidateRecords` included, uses the corrected
check. The pass/fail verdict is the same either way (`DnsConfig.AsWrittenDiffersOnlyInName`).
