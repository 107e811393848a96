/** The per-subsystem configs the builder emits (the mconfig protos), as typed values. */
module MconfigProtos {
  import opened Wrappers
  import opened GoTypes

  datatype LogLevel = DEBUG | INFO | WARNING | ERROR | FATAL

  datatype ImageSpec = ImageSpec(name: string, order: int64)

  datatype MagmaD = MagmaD(
    logLevel: LogLevel,
    checkinInterval: int32,
    checkinTimeout: int32,
    autoupgradeEnabled: bool,
    autoupgradePollInterval: int32,
    packageVersion: string,
    images: seq<ImageSpec>,
    dynamicServices: seq<string>,
    featureFlags: map<string, bool>,
    orc8rVersion: string)

  /** The td-agent-bit config; an unset FilesByTag is the empty map. */
  datatype FluentBit = FluentBit(
    extraTags: map<string, string>,
    throttleRate: uint32,
    throttleWindow: uint32,
    throttleInterval: string,
    filesByTag: map<string, string>)

  datatype EventD = EventD(logLevel: LogLevel, eventVerbosity: int32)

  datatype OpenVPN = OpenVPN(enableShellAccess: bool)

  datatype State = State(logLevel: LogLevel, syncInterval: uint32)

  datatype SharedSentryConfig = SharedSentryConfig(
    sampleRate: Float32,
    uploadMmeLog: bool,
    dsnNative: string,
    dsnPython: string,
    exclusionPatterns: seq<string>)

  /** The shared mconfig; `None` means the sentry sub-message is absent. */
  datatype SharedMconfig = SharedMconfig(sentryConfig: Option<SharedSentryConfig>)

  /** One value of the builder's output map. */
  datatype Mconfig =
    | MagmadMconfigValue(magmad: MagmaD)
    | FluentBitMconfigValue(fluentBit: FluentBit)
    | EventdMconfigValue(eventd: EventD)
    | OpenVpnMconfigValue(ovpn: OpenVPN)
    | ControlProxyMconfigValue(controlProxyLogLevel: LogLevel)
    | MetricsdMconfigValue(metricsdLogLevel: LogLevel)
    | StateMconfigValue(state: State)
    | SharedMconfigValue(shared: SharedMconfig)
}
