/** The data model of the second revision (types.go). Go pointers that the
    program always sets are plain values here. */
module Types {

  /** A reverse-proxied route: the path prefix and the target. */
  datatype RouteMapping = RouteMapping(path: string, scheme: string, host: string, stripPath: bool, prefixPath: string)

  /** The document a configuration origin serves. */
  datatype RemoteConfig = RemoteConfig(tags: seq<string>, proxies: map<string, RouteMapping>)

  const EmptyRemoteConfig := RemoteConfig([], map[])

  datatype ConfigOrigin = ConfigOrigin(enabled: bool, serviceName: string, path: string, isFatal: bool)

  datatype ConsulConf = ConsulConf(register: bool, host: string, port: int)

  datatype EntryPoint = EntryPoint(address: string, port: int)

  datatype PreInitCmd = PreInitCmd(command: string)

  datatype GlobalConfiguration = GlobalConfiguration(
    debug: bool,
    angularMode: bool,
    logLevel: string,
    entryPoint: EntryPoint,
    rootFolder: string,
    serviceName: string,
    consul: ConsulConf,
    configOrigin: ConfigOrigin,
    preInitCmds: map<string, PreInitCmd>,
    consulTags: seq<string>,
    routeMappings: map<string, RouteMapping>)

  datatype WebServerConfiguration = WebServerConfiguration(global: GlobalConfiguration, configFile: string)
}
