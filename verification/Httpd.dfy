/** Startup assembly of the second revision: `run` in httpd.go.

    In order, run
    1. fetches the remote configuration when ConfigOrigin is enabled, and
       overlays its proxies onto RouteMappings and appends its tags to
       ConsulTags;
    2. runs every pre-init command, split on spaces, stopping the process
       with status 1 at the first failure;
    3. constructs and initialises the web server. As written, run calls
       NewWebServer, which leaves the root folder empty; Startup takes the
       constructor as a parameter so that the corrected one can be compared
       with it, and Run uses the one as written.
    A panic anywhere in run (a fatal fetch, a failed bind or registration)
    is recovered by its deferred handler, logged with error_code 42, and run
    returns normally. Exiting with os.Exit bypasses that handler.

    The outside world is the Environment: the fetch oracles, the command
    runner, and the bind and registration oracles. */
module Httpd {
  import opened Types
  import opened GoStrings
  import Failover
  import ConfigFetcher
  import Server

  /** Every outside effect run depends on. */
  datatype Environment = Environment(
    fetchClientOk: bool,
    lookup: Failover.Lookup,
    fetch: (nat, string) -> Failover.Attempt<RemoteConfig>,
    exec: seq<string> -> bool,
    bind: string -> Server.BindResult,
    registerClientOk: bool,
    registerOk: bool)

  /** How run ends: serving with the assembled configuration, the process
      exiting with a status, or a recovered panic logged with its code. */
  datatype RunOutcome =
    | Serving(config: GlobalConfiguration, server: Server.WebServer)
    | Exited(status: int)
    | Recovered(errorCode: int, message: string)

  /** The outcome, the URLs contacted for the remote configuration, the
      argument vectors of the pre-init commands run (in order), and whether
      the web server was ever constructed. */
  datatype RunResult = RunResult(outcome: RunOutcome, contacted: seq<string>, executed: seq<seq<string>>, serverBuilt: bool)

  /** What the pre-init loop ran, and whether every command succeeded. */
  datatype PreInit = PreInit(executed: seq<seq<string>>, ok: bool)

  const RecoveredErrorCode := 42

  // ---------------------------------------------------------------------------
  // Remote configuration overlay
  // ---------------------------------------------------------------------------

  /** The static route mappings with the remote proxies written over them
      by name. */
  function Overlay(mappings: map<string, RouteMapping>, proxies: map<string, RouteMapping>): (m: map<string, RouteMapping>)
    ensures m.Keys == mappings.Keys + proxies.Keys
    ensures forall name :: name in proxies ==> m[name] == proxies[name]
    ensures forall name :: name in mappings && name !in proxies ==> m[name] == mappings[name]
  {
    mappings + proxies
  }

  /** The overlay as the source writes it: one assignment per remote
      proxy, in whatever order the Go map is ranged over. Every order gives
      the same map. */
  method OverlayByRange(mappings: map<string, RouteMapping>, proxies: map<string, RouteMapping>)
    returns (m: map<string, RouteMapping>)
    ensures m == Overlay(mappings, proxies)
  {
    m := mappings;
    var remaining := proxies.Keys;
    while remaining != {}
      invariant remaining <= proxies.Keys
      invariant m.Keys == mappings.Keys + (proxies.Keys - remaining)
      invariant forall name :: name in m && name in proxies && name !in remaining ==> m[name] == proxies[name]
      invariant forall name :: name in m && (name !in proxies || name in remaining) ==> m[name] == mappings[name]
      decreases remaining
    {
      var name :| name in remaining;
      m := m[name := proxies[name]];
      remaining := remaining - {name};
    }
  }

  /** The configuration after the remote one is merged in: the proxies
      overlaid on RouteMappings, the tags appended to ConsulTags in their
      order. Nothing else changes. */
  function Assemble(cfg: GlobalConfiguration, remote: RemoteConfig): (c: GlobalConfiguration)
    ensures c.routeMappings == Overlay(cfg.routeMappings, remote.proxies)
    ensures |c.consulTags| == |cfg.consulTags| + |remote.tags|
    ensures c.consulTags[..|cfg.consulTags|] == cfg.consulTags
    ensures c.consulTags[|cfg.consulTags|..] == remote.tags
    ensures c.(routeMappings := cfg.routeMappings, consulTags := cfg.consulTags) == cfg
  {
    cfg.(routeMappings := Overlay(cfg.routeMappings, remote.proxies), consulTags := cfg.consulTags + remote.tags)
  }

  // ---------------------------------------------------------------------------
  // Pre-init commands
  // ---------------------------------------------------------------------------

  /** The argument vector of a pre-init command: the command split on single
      spaces. Element 0, the program, always exists. */
  function Argv(command: string): (argv: seq<string>)
    ensures |argv| == Count(command, ' ') + 1
    ensures Join(argv, ' ') == command
  {
    JoinSplit(command, ' ');
    Split(command, ' ')
  }

  /** The pre-init loop over the argument vectors: run each in turn and
      stop at the first that fails. */
  function RunPreInit(argvs: seq<seq<string>>, exec: seq<string> -> bool): (r: PreInit)
    ensures r.ok <==> forall i :: 0 <= i < |argvs| ==> exec(argvs[i])
    ensures |r.executed| <= |argvs| && r.executed == argvs[..|r.executed|]
    ensures r.ok ==> |r.executed| == |argvs|
    ensures !r.ok ==> |r.executed| > 0 && !exec(r.executed[|r.executed| - 1])
    ensures forall i :: 0 <= i < |r.executed| - 1 ==> exec(r.executed[i])
  {
    if |argvs| == 0 then PreInit([], true)
    else if !exec(argvs[0]) then PreInit([argvs[0]], false)
    else
      var rest := RunPreInit(argvs[1..], exec);
      assert argvs[..1 + |rest.executed|] == [argvs[0]] + argvs[1..][..|rest.executed|];
      PreInit([argvs[0]] + rest.executed, rest.ok)
  }

  /** The order in which a Go range loop visits the map: every key once. */
  predicate Enumerates(order: seq<string>, cmds: map<string, PreInitCmd>)
  {
    && (forall i :: 0 <= i < |order| ==> order[i] in cmds)
    && (forall name :: name in cmds ==> name in order)
    && (forall i, j :: 0 <= i < j < |order| ==> order[i] != order[j])
  }

  /** The argument vectors of the commands, in visiting order. */
  function PreInitArgvs(cmds: map<string, PreInitCmd>, order: seq<string>): (argvs: seq<seq<string>>)
    requires forall i :: 0 <= i < |order| ==> order[i] in cmds
    ensures |argvs| == |order|
    ensures forall i :: 0 <= i < |order| ==> argvs[i] == Argv(cmds[order[i]].command)
  {
    seq(|order|, i requires 0 <= i < |order| => Argv(cmds[order[i]].command))
  }

  /** Whether startup gets past the pre-init commands does not depend on
      the order the map is ranged over. */
  lemma PreInitOrderIrrelevant(cmds: map<string, PreInitCmd>, order1: seq<string>, order2: seq<string>,
                               exec: seq<string> -> bool)
    requires Enumerates(order1, cmds) && Enumerates(order2, cmds)
    ensures RunPreInit(PreInitArgvs(cmds, order1), exec).ok == RunPreInit(PreInitArgvs(cmds, order2), exec).ok
  {
  }

  // ---------------------------------------------------------------------------
  // run
  // ---------------------------------------------------------------------------

  /** The remote fetch of run: ConfigFetcher.Config when ConfigOrigin is
      enabled; otherwise nothing is contacted and nothing is merged. */
  function FetchRemote(cfg: GlobalConfiguration, env: Environment): Failover.Resolution<RemoteConfig>
  {
    if cfg.configOrigin.enabled
    then ConfigFetcher.Config(cfg.configOrigin, env.fetchClientOk, env.lookup, env.fetch)
    else Failover.Resolution(Failover.Doc(EmptyRemoteConfig), [])
  }

  /** run after the fetch has produced `fetched`: recover a fatal fetch,
      merge the remote configuration, run the pre-init commands, then build
      and initialise the server. Every panic is recovered with error code
      42; the process exits only through a failed pre-init command, and
      then before any server exists. */
  function Startup(k: Server.Constructor, cfg: GlobalConfiguration, fetched: Failover.Resolution<RemoteConfig>, order: seq<string>,
                   env: Environment): (r: RunResult)
    requires Enumerates(order, cfg.preInitCmds)
    ensures r.contacted == fetched.contacted
    ensures r.outcome.Recovered? ==> r.outcome.errorCode == RecoveredErrorCode
    ensures r.outcome.Exited? ==> r.outcome.status == 1
    ensures r.outcome.Exited? <==> !r.serverBuilt && !r.outcome.Recovered?
    ensures fetched.outcome.Fatal? ==> r.outcome.Recovered? && r.executed == []
  {
    if fetched.outcome.Fatal? then
      RunResult(Recovered(RecoveredErrorCode, fetched.outcome.message), fetched.contacted, [], false)
    else
      var assembled := if cfg.configOrigin.enabled then Assemble(cfg, fetched.outcome.doc) else cfg;
      var pre := RunPreInit(PreInitArgvs(assembled.preInitCmds, order), env.exec);
      if !pre.ok then RunResult(Exited(1), fetched.contacted, pre.executed, false)
      else
        RunResult(Launch(k, assembled, env), fetched.contacted, pre.executed, true)
  }

  /** The last step of run: construct the server and initialise it. A
      panic in Init is recovered with error code 42. */
  function Launch(k: Server.Constructor, assembled: GlobalConfiguration, env: Environment): (o: RunOutcome)
    ensures o.Serving? || o.Recovered?
    ensures o.Recovered? ==> o.errorCode == RecoveredErrorCode
    ensures o.Serving? ==> o.config == assembled && o.server.config == assembled
  {
    match Server.Init(Server.Construct(k, assembled), env.bind, env.registerClientOk, env.registerOk)
    case Panicked(m) => Recovered(RecoveredErrorCode, m)
    case Ok(s) => Serving(assembled, s)
  }

  /** With the corrected constructor, Launch reaches the same outcome,
      except that a server that comes up carries the root folder. */
  lemma LaunchWithRoot(assembled: GlobalConfiguration, env: Environment)
    ensures var o := Launch(Server.AsWrittenConstructor, assembled, env);
            Launch(Server.RootCopyingConstructor, assembled, env)
            == if o.Serving? then Serving(o.config, o.server.(rootFolder := assembled.rootFolder)) else o
  {
  }

  /** run, with the pre-init commands visited in `order`. */
  function Run(cfg: GlobalConfiguration, order: seq<string>, env: Environment): (r: RunResult)
    requires Enumerates(order, cfg.preInitCmds)
    ensures r.outcome.Recovered? ==> r.outcome.errorCode == RecoveredErrorCode
    ensures r.outcome.Exited? ==> r.outcome.status == 1
    ensures r.outcome.Exited? <==> !r.serverBuilt && !r.outcome.Recovered?
    ensures !cfg.configOrigin.enabled ==> r.contacted == []
    ensures r.outcome.Serving? ==> r.outcome.server.rootFolder == ""
  {
    Startup(Server.AsWrittenConstructor, cfg, FetchRemote(cfg, env), order, env)
  }

  /** With ConfigOrigin disabled nothing is fetched, and a server that
      comes up serves the configuration unchanged. */
  lemma StartupWithoutOrigin(k: Server.Constructor, cfg: GlobalConfiguration, order: seq<string>, env: Environment)
    requires Enumerates(order, cfg.preInitCmds) && !cfg.configOrigin.enabled
    ensures var r := Startup(k, cfg, Failover.Resolution(Failover.Doc(EmptyRemoteConfig), []), order, env);
            && r.contacted == []
            && (r.outcome.Serving? ==> r.outcome.config == cfg)
  {
  }

  /** A server that comes up has run every pre-init command successfully,
      serves a configuration that differs from the static one only in its
      mappings and its extended tags, and carries the root folder the
      constructor gives it: none as written, the configured one when
      corrected. */
  lemma StartupServes(k: Server.Constructor, cfg: GlobalConfiguration, fetched: Failover.Resolution<RemoteConfig>, order: seq<string>,
                      env: Environment)
    requires Enumerates(order, cfg.preInitCmds)
    requires Startup(k, cfg, fetched, order, env).outcome.Serving?
    ensures var r := Startup(k, cfg, fetched, order, env);
            && r.outcome.config.(routeMappings := cfg.routeMappings, consulTags := cfg.consulTags) == cfg
            && |cfg.consulTags| <= |r.outcome.config.consulTags|
            && cfg.consulTags == r.outcome.config.consulTags[..|cfg.consulTags|]
            && r.executed == PreInitArgvs(cfg.preInitCmds, order)
            && (forall i :: 0 <= i < |order| ==> env.exec(Argv(cfg.preInitCmds[order[i]].command)))
            && r.outcome.server.config == r.outcome.config
            && r.outcome.server.rootFolder == (if k == Server.AsWrittenConstructor then "" else cfg.rootFolder)
  {
    var assembled := if cfg.configOrigin.enabled then Assemble(cfg, fetched.outcome.doc) else cfg;
    assert assembled.preInitCmds == cfg.preInitCmds;
    var argvs := PreInitArgvs(cfg.preInitCmds, order);
    var pre := RunPreInit(argvs, env.exec);
    assert pre.ok && pre.executed == argvs;
  }

  /** A fatal remote fetch is recovered with the fetch's panic message,
      before any pre-init command runs or any server is built. */
  lemma FatalFetchRecovered(k: Server.Constructor, cfg: GlobalConfiguration, fetched: Failover.Resolution<RemoteConfig>, order: seq<string>,
                            env: Environment)
    requires Enumerates(order, cfg.preInitCmds) && fetched.outcome.Fatal?
    ensures Startup(k, cfg, fetched, order, env)
            == RunResult(Recovered(RecoveredErrorCode, fetched.outcome.message), fetched.contacted, [], false)
  {
  }

  /** With an enabled origin that answers, the server serves the static
      mappings overlaid by the remote proxies and the static tags followed
      by the remote ones. */
  lemma RemoteConfigApplied(k: Server.Constructor, cfg: GlobalConfiguration, remote: RemoteConfig, contacted: seq<string>,
                            order: seq<string>, env: Environment)
    requires Enumerates(order, cfg.preInitCmds) && cfg.configOrigin.enabled
    requires Startup(k, cfg, Failover.Resolution(Failover.Doc(remote), contacted), order, env).outcome.Serving?
    ensures var c := Startup(k, cfg, Failover.Resolution(Failover.Doc(remote), contacted), order, env).outcome.config;
            && c.routeMappings == Overlay(cfg.routeMappings, remote.proxies)
            && c.consulTags == cfg.consulTags + remote.tags
  {
  }

  /** When the fetch is not fatal, a failing pre-init command ends the
      process with status 1 before any server is built, after running what
      the fail-fast loop ran: the commands up to and including the first
      failure. */
  lemma PreInitFailureExits(k: Server.Constructor, cfg: GlobalConfiguration, fetched: Failover.Resolution<RemoteConfig>, order: seq<string>,
                            env: Environment)
    requires Enumerates(order, cfg.preInitCmds) && !fetched.outcome.Fatal?
    requires exists i :: 0 <= i < |order| && !env.exec(Argv(cfg.preInitCmds[order[i]].command))
    ensures Startup(k, cfg, fetched, order, env)
            == RunResult(Exited(1), fetched.contacted, RunPreInit(PreInitArgvs(cfg.preInitCmds, order), env.exec).executed, false)
  {
    var argvs := PreInitArgvs(cfg.preInitCmds, order);
    assert !RunPreInit(argvs, env.exec).ok by {
      var i :| 0 <= i < |order| && !env.exec(Argv(cfg.preInitCmds[order[i]].command));
      assert !env.exec(argvs[i]);
    }
    var assembled := if cfg.configOrigin.enabled then Assemble(cfg, fetched.outcome.doc) else cfg;
    assert assembled.preInitCmds == cfg.preInitCmds;
  }

  /** Correcting the constructor changes nothing about startup except the
      root folder of a server that comes up: the same URLs are contacted,
      the same commands run, and the same outcome is reached. */
  lemma CorrectedConstructorOnlyAddsRoot(cfg: GlobalConfiguration, fetched: Failover.Resolution<RemoteConfig>,
                                         order: seq<string>, env: Environment)
    requires Enumerates(order, cfg.preInitCmds)
    ensures var a := Startup(Server.AsWrittenConstructor, cfg, fetched, order, env);
            Startup(Server.RootCopyingConstructor, cfg, fetched, order, env)
            == if a.outcome.Serving?
               then a.(outcome := Serving(a.outcome.config, a.outcome.server.(rootFolder := cfg.rootFolder)))
               else a
  {
    if !fetched.outcome.Fatal? {
      var assembled := if cfg.configOrigin.enabled then Assemble(cfg, fetched.outcome.doc) else cfg;
      var pre := RunPreInit(PreInitArgvs(assembled.preInitCmds, order), env.exec);
      if pre.ok {
        assert assembled.rootFolder == cfg.rootFolder;
        LaunchWithRoot(assembled, env);
      }
    }
  }
}
