# httpd edge server — a Dafny model

This project models the decision logic of the `httpd` edge server, a small Go
program. At startup it may fetch a remote configuration from a service found
through the Consul catalog. It then runs pre-init commands, binds a port,
optionally registers itself with Consul, and serves a folder over HTTP.

The repository's files come from two revisions that redeclare the same names.
Each revision is modelled in its own modules:

- **Revision 1** is `configuration.go` and `tags_fetcher.go`.
  - `Configuration` holds the colon- and comma-delimited flag parsers (`EntryPoint.Set`, `TagsOrigin.Set`, `ConsulConf.Set`, `ConsulTags.Set`) and the two default constructors.
  - `TagsFetcher` fetches the tags list.
- **Revision 2** is `types.go`, `config_fetcher.go`, `server.go` and `httpd.go`.
  - `Types` holds the data model.
  - `ConfigFetcher` fetches the remote configuration.
  - `Server` is the web server lifecycle: construct, bind, register, deregister, close.
  - `Httpd` is the startup sequence `run`: overlay the remote configuration, run pre-init commands fail-fast, build and initialise the server, and recover panics.
    `run` builds its server with `NewWebServer` as written. The startup stage also accepts the corrected constructor, so that the two can be compared.
- **Shared modules.**
  - `Failover` is the catalog-lookup and per-instance failover algorithm. `TagsFetcher.Tags` and `ConfigFetcher.Config` both run it; it is written once over the document type.
  - `GoStrings` gives Go-faithful `strings.Split`/`Join`/`Count`, `strconv.ParseBool`, `strconv.ParseInt(s, 10, 32)` (including its clamped result on overflow) and `%d` rendering.
  - `Optional` is the option type.

The outside world enters as explicit inputs:
- whether a Consul client could be built;
- the catalog answer (its instances, and whether the lookup erred);
- a per-instance fetch oracle giving a fetch error, a parse error or a document;
- a command runner returning success or failure;
- a bind oracle giving the port bound, or failure;
- whether registration succeeded.

A Go panic becomes an outcome value carrying the panic's message. An
out-of-range slice index is an `IndexPanic` outcome. Go's unordered map
iteration over the pre-init commands becomes an explicit visiting order. The
command runner is an oracle on the argument vector alone. Under that
assumption, whether every command succeeds does not depend on the order.
Which commands run before the first failure does depend on it. Real commands
that affect one another could succeed in one Go map order and fail in another;
the oracle cannot express that.

`server.go` builds the registration from `Config.Consul.Tags`. The revision 2
`ConsulConf` in `types.go` has no `Tags` field. Revision 2 keeps its tags in
the top-level `ConsulTags`, which `run` extends with the remote tags. The model
registers with that list.

## Model

| member | source | states |
|---|---|---|
| `GoStrings.Split` | configuration.go:38 | the pieces number one more than the separator occurrences, and no piece contains the separator (so the empty string gives one empty piece) |
| `GoStrings.JoinSplit` | configuration.go:38 | joining the split pieces with the separator gives back the original string |
| `GoStrings.SplitJoin` | configuration.go:83 | splitting a join of separator-free pieces gives back exactly those pieces |
| `GoStrings.ParseBool` | configuration.go:39 | success exactly for the twelve Go boolean literals; otherwise false with a syntax error; the value is true exactly for the six true literals |
| `GoStrings.ParseFormatBool` | configuration.go:45 | ParseBool reads back both canonical boolean spellings |
| `GoStrings.ParseUint32` | configuration.go:79 | a range error (value MaxUint32) exactly when the leading digit run overflows, even if a non-digit follows. Otherwise a syntax error (value 0) exactly when the string is empty or holds a non-digit. Otherwise the value the digits denote |
| `GoStrings.ParseInt32` | configuration.go:134 | a syntax error (value 0) exactly when the text is not an optionally signed digit string and its leading digits do not overflow. Success exactly when it is one and denotes an int32, and the value is then the signed number it denotes. A range error carries the int32 bound on the side of its sign |
| `GoStrings.ParseInt32Itoa` | configuration.go:79 | every int32 rendered in decimal parses back to itself without error |
| `GoStrings.ParseInt32Overflow` | configuration.go:134 | a digit string above MaxInt32 is a range error with value MaxInt32, even past the unsigned 32-bit range |
| `GoStrings.DecimalValueOfRendering` | config_fetcher.go:47 | the decimal rendering of a number denotes that number |
| `Failover.UrlParts` | config_fetcher.go:47 | the fetched URL is "http://", the address, ":", a port that reads back as the instance port, "/", and the path |
| `Failover.CatalogUrls` | config_fetcher.go:44-47 | one URL per catalog instance, in catalog order |
| `Failover.Walk` | config_fetcher.go:44-64 | the URLs contacted are a consecutive run of the catalog's from the starting instance, in catalog order |
| `Failover.WalkFindsNothing` | config_fetcher.go:44-64 | the walk finds nothing exactly when no remaining instance parses, and then it has contacted every one of them |
| `Failover.WalkStopsAt` | config_fetcher.go:57-63 | if instance k is the first remaining one that parses, the walk returns its document after contacting exactly the instances up to k |
| `Failover.Resolve` | config_fetcher.go:19-69 | a client failure is fatal before any contact. A lookup error is fatal with IsFatal and contacts nothing. An empty catalog is fatal exactly when IsFatal, and otherwise gives the empty document. With IsFatal clear, the only fatal outcome is a client failure. The contacted URLs are a prefix of the catalog's |
| `Failover.FirstSuccessWins` | config_fetcher.go:44-64 | if instance k is the first that parses, its document is returned and exactly instances 0..k were contacted |
| `Failover.AllFailed` | config_fetcher.go:65-69 | if every instance fails, all were contacted in order, and the result is fatal under IsFatal and the empty document otherwise |
| `Failover.PolicyIrrelevantOnceFound` | config_fetcher.go:48-62 | per-instance failures are skipped whatever IsFatal says: once some instance answers, the flag makes no difference |
| `Failover.TryInstances` | config_fetcher.go:44-64 | the range loop over the catalog's URLs, with `continue` and early `return`, computes exactly the instance walk |
| `Failover.ResolveLoop` | config_fetcher.go:11-71 | the statement-by-statement procedure agrees with Resolve on every input |
| `TagsFetcher.Tags` | tags_fetcher.go:18-78 | a client failure panics before any contact, whatever IsFatal says. A lookup error or empty catalog is fatal exactly when IsFatal. With IsFatal clear, only a client failure is fatal, and an empty catalog gives the empty list. The contacted URLs are a catalog prefix |
| `TagsFetcher.TagsFromFirstAnswer` | tags_fetcher.go:51-71 | the tags of the first instance that parses are returned, and no later instance is contacted |
| `TagsFetcher.TagsWhenAllFail` | tags_fetcher.go:72-76 | when every instance fails, the result is a panic under IsFatal and the empty list otherwise |
| `ConfigFetcher.Config` | config_fetcher.go:11-71 | a client failure panics before any contact, whatever IsFatal says. A lookup error or empty catalog is fatal exactly when IsFatal. With IsFatal clear, only a client failure is fatal, and an empty catalog gives the empty RemoteConfig. The contacted URLs are a catalog prefix |
| `ConfigFetcher.ConfigFromFirstAnswer` | config_fetcher.go:57-63 | the configuration of the first instance that parses is returned, and no later instance is contacted |
| `ConfigFetcher.ConfigWhenAllFail` | config_fetcher.go:65-69 | when every instance fails, the result is a panic under IsFatal and the empty RemoteConfig otherwise |
| `Configuration.SetEntryPoint` | configuration.go:131-139 | it panics exactly when the value has no colon. Otherwise the address is field 0 and nil is returned. The port is assigned only when the guard says so: as written, only when field 1 fails to parse |
| `Configuration.EntryPointSetIgnoresValidPort` | configuration.go:134-137 | as written, a valid port leaves Port unchanged |
| `Configuration.EntryPointSetZeroesBadPort` | configuration.go:134-137 | as written, a port field with a syntax error sets Port to 0 |
| `Configuration.EntryPointSetClampsHugePort` | configuration.go:134-137 | as written, an all-digit port field above MaxInt32 is a range error, and Port is set to the clamped value MaxInt32 |
| `Configuration.EntryPointRoundTrip` | configuration.go:131-139 | with the intended guard, setting from "address:port" yields that entry point |
| `Configuration.DefaultEntryPointParses` | configuration.go:159-162 | the default entry point is what the intended parser reads from "0.0.0.0:0" |
| `Configuration.SetTagsOrigin` | configuration.go:37-50 | it panics exactly when there are fewer than four fields, at index count+1. Service name and path come from fields 1 and 2. Each flag becomes the parsed value of its field when the guard assigns, and is otherwise unchanged. As written, a flag can only be cleared, never set |
| `Configuration.TagsOriginSetClearsBadFlags` | configuration.go:39-48 | as written, for any four colon-free fields, a flag field that is not a boolean literal clears its flag and a literal leaves it unchanged |
| `Configuration.TagsOriginSetIgnoresValidFlags` | configuration.go:39-48 | as written, well-formed boolean fields never reach Enabled or IsFatal |
| `Configuration.TagsOriginRoundTrip` | configuration.go:37-50 | with the intended guard, setting from the formatted text yields that tags origin |
| `Configuration.SetConsulConf` | configuration.go:72-85 | it panics exactly when there are fewer than four fields. Host is field 1. Tags are the comma-split of field 3, one more than its commas. Register and port become the parsed values of fields 0 and 2 when the guard assigns, and are otherwise unchanged |
| `Configuration.ConsulConfSetIgnoresValidFields` | configuration.go:74-82 | as written, a valid register flag and port never reach the configuration |
| `Configuration.ConsulConfSetOverwritesBadFields` | configuration.go:74-82 | as written, for any four colon-free fields, a register field that is not a boolean literal clears Register. A port field ParseInt rejects sets Port to ParseInt's error value (0, or the int32 bound). Valid fields leave both unchanged |
| `Configuration.ConsulConfRoundTrip` | configuration.go:72-85 | with the intended guard, setting from the formatted text yields that Consul configuration |
| `Configuration.ConsulTagsSet` | configuration.go:98-107 | it always returns nil. The old tags are a prefix, followed by the comma-split pieces in order; the length grows by the comma count plus one |
| `Configuration.ConsulTagsSetRoundTrip` | configuration.go:98-107 | setting from a comma-joined list appends exactly that list |
| `Configuration.NewWebServerConfiguration` | configuration.go:154-180 | debug is on and the log level is DEBUG |
| `Configuration.NewWebServerDefaultPointers` | configuration.go:182-213 | Debug and LogLevel keep Go's zero values |
| `Configuration.DefaultsAgree` | configuration.go:154-213 | both constructors give the same entry point, Consul configuration, tags origin, root folder and service name, and differ only in Debug and LogLevel |
| `Server.NewWebServer` | server.go:27-37 | address, port and the registration flag come from the configuration, and the configuration itself is stored; no client, agent, registration or listener; the root folder stays empty |
| `Server.NewWebServerDropsRootFolder` | server.go:27-37 | a configured root folder never reaches the constructed server |
| `Server.NewWebServerServingRoot` | server.go:27-37 | the corrected constructor copies the root folder and differs from the as-written one in nothing else |
| `Server.RegisterConsul` | server.go:66-87 | it succeeds exactly when the client and the registration both succeed. Each failure panics with its own message. Success stores the descriptor |
| `Server.Init` | server.go:52-64 | a bind failure always panics. Success records the bound port and an open listener, and keeps address and configuration. Registration happens exactly when enabled, and then succeeds exactly when client and registration succeed |
| `Server.InitIgnoresRootFolder` | server.go:52-64 | Init never reads the root folder: changing it changes only the root folder of a successful result |
| `Server.RegistrationDescribesServer` | server.go:73-80 | the registration carries ID "support-4242", the service name, the tags, the bound port and the configured address, with no override and no checks |
| `Server.InitIgnoresConsulWhenDisabled` | server.go:59-61 | with registration off, the Consul outcomes cannot affect Init |
| `Server.UnregisterFromConsul` | server.go:95-99 | it does nothing without a registration, and otherwise deregisters exactly the stored ID |
| `Server.DeInit` | server.go:101-104 | it deregisters before closing the listener. A nil listener panics. Otherwise the server ends closed with its registration kept |
| `Server.Lifecycle` | server.go:27-104 | with every effect succeeding, the server ends Registered or Bound as configured. It then shuts down by deregistering "support-4242" (when registered) before the close |
| `Httpd.Overlay` | httpd.go:75-77 | the keys are the union of both maps; remote proxies win by name; other names keep their static mapping |
| `Httpd.OverlayByRange` | httpd.go:75-77 | assigning the remote proxies one by one, in any order, yields the overlay |
| `Httpd.Assemble` | httpd.go:73-81 | route mappings become the overlay. The old tags are a prefix, followed by the remote tags in order. Nothing else changes |
| `Httpd.Argv` | httpd.go:85-87 | the argument vector has one more element than the spaces, and joining it with spaces gives the command |
| `Httpd.RunPreInit` | httpd.go:83-93 | it succeeds exactly when every argument vector runs successfully. What it runs is a prefix of them, in order: all of them on success, otherwise ending with the first failure |
| `Httpd.PreInitOrderIrrelevant` | httpd.go:83 | with a command runner that depends only on the argument vector, whether the pre-init commands all succeed does not depend on the map's iteration order |
| `Httpd.Startup` | httpd.go:63-96 | with the constructor as a parameter: a fatal fetch is recovered before any command runs. Every recovered panic carries error code 42. A pre-init failure exits with status 1. Unless a panic was recovered, the process exits exactly when no server is built. The contacted URLs are the fetch's |
| `Httpd.Run` | httpd.go:62-97 | built with NewWebServer as written: a recovered panic carries error code 42; the process exits only with status 1 and only before a server is built; a disabled origin contacts nothing; a server that comes up has an empty root folder |
| `Httpd.Launch` | httpd.go:94-95 | the server is constructed and initialised. It comes up serving the assembled configuration, or Init's panic is recovered with error code 42 |
| `Httpd.LaunchWithRoot` | httpd.go:94-95 | with the corrected constructor the outcome is the same, except that a server that comes up carries the root folder |
| `Httpd.StartupWithoutOrigin` | httpd.go:73-81 | with the origin disabled nothing is contacted, and a server that comes up serves the configuration unchanged |
| `Httpd.StartupServes` | httpd.go:73-96 | a server that comes up has run every pre-init command successfully. Its configuration differs from the static one only in mappings and in tags extended at the end. Its root folder is empty as written, and the configured one with the corrected constructor |
| `Httpd.FatalFetchRecovered` | httpd.go:63-74 | a fatal fetch is recovered with the fetch's panic message, before any pre-init command runs or any server is built |
| `Httpd.RemoteConfigApplied` | httpd.go:73-81 | with an enabled origin that answers, the served configuration holds the overlaid mappings, then the static tags followed by the remote ones |
| `Httpd.CorrectedConstructorOnlyAddsRoot` | httpd.go:94 | correcting the constructor changes nothing about run but the root folder of a server that comes up: same contacts, same commands, same outcome |
| `Httpd.PreInitFailureExits` | httpd.go:88-92 | when the fetch is not fatal and some command fails, the process exits with status 1 and builds no server. It has run exactly what the fail-fast loop ran |

## Left out

- `main` in httpd.go and main.go: command-line and TOML loading through flaeg and staert, and log formatting. These are library wrappers with no logic of their own.
- Consul client construction, the catalog call, the HTTP GET and the YAML unmarshal: these are oracle inputs. YAML parsing is not modelled.
- The `ContentLength`-sized single body read (config_fetcher.go:55-56, tags_fetcher.go:62-63) is Go runtime I/O, folded into the per-instance outcome. The panic `make` raises when the length is unknown (-1) is not modelled.
- The fetchers' `ConsulConf` only appears in a log line, so it is not an input.
- `AddExitHook` (server.go:39-50) is a signal goroutine plus `os.Exit`, which is concurrency.
- `Run` (server.go:89-93) only calls `http.Serve` with a file server. Reaching it is the `Serving` outcome.
- Running pre-init commands (`exec.Command`) is a success/failure oracle on the argument vector.
- The `Get`, `String` and `SetValue` helpers in configuration.go are `fmt` calls and type assertions.
- Nil pointers and nil maps are not modelled: nil `EntryPoint`/`Consul`/`ConfigOrigin` pointers, a nil `*PreInitCmd` or `*RouteMapping`, and writing into a nil `RouteMappings` map. Revision 2's default constructor is not part of this model, so whether that map starts nil cannot be told.
- Logging, and the printing of the bound port and root folder, have no effect on state.
- `Server.Init`: it does not state that a successful Init reaches exactly the Bound state, because a registration already present on entry is kept. The Lifecycle lemma states the states reached from a freshly constructed server.
- `Configuration.NewWebServerConfiguration`: its contract names only Debug and LogLevel. The other defaults are stated once, in `DefaultsAgree`.

## Findings

| source | as written | input that shows it | evidently intended | confidence | as-written member | corrected member |
|---|---|---|---|---|---|---|
| configuration.go:134-137 | `if err != nil { ep.Port = int(port) }` assigns the port only when parsing failed | `"0.0.0.0:8080"` leaves Port as it was; `"0.0.0.0:x"` sets it to 0 | assign when `err == nil` | high, not executed | `Configuration.EntryPointSetIgnoresValidPort` | `Configuration.EntryPointRoundTrip` |
| configuration.go:39-48 | both `if err != nil` guards assign Enabled and IsFatal only when ParseBool failed, and then always with false | `"true:config:/c.yml:true"` leaves both flags unchanged | assign when `err == nil` | high, not executed | `Configuration.TagsOriginSetIgnoresValidFlags` | `Configuration.TagsOriginRoundTrip` |
| configuration.go:74-82 | the Register and Port guards are inverted in the same way | `"false:127.0.0.1:8600:a,b"` keeps the old Register and Port | assign when `err == nil` | high, not executed | `Configuration.ConsulConfSetIgnoresValidFields` | `Configuration.ConsulConfRoundTrip` |
| server.go:27-37 | NewWebServer never copies RootFolder, so Run (server.go:89-92) serves `http.Dir("")`, the working directory | any configuration with RootFolder `"/var/www/html"` | `p.RootFolder = s.RootFolder` | medium, not executed | `Server.NewWebServerDropsRootFolder` | `Server.NewWebServerServingRoot` |
