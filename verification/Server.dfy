/** The web server's lifecycle (server.go) as a state machine over plain
    values. Binding the listener, building the Consul client and submitting
    the registration are outside effects: they enter as oracle inputs.
    A Go panic is the Panicked outcome with the panic's message. */
module Server {
  import opened Optional
  import opened Types
  import GoStrings

  /** A health check attached to a registration (api.AgentServiceCheck).
      The registration never carries one, so its fields are not modelled. */
  datatype ServiceCheck = ServiceCheck

  /** The descriptor submitted to the Consul agent (api.AgentServiceRegistration). */
  datatype Registration = Registration(
    id: string,
    name: string,
    tags: seq<string>,
    port: int,
    address: string,
    enableTagOverride: bool,
    checks: seq<ServiceCheck>)

  /** A bound TCP listener: the address it was asked for, the port it got,
      and whether it is still open. */
  datatype Listener = Listener(address: string, port: int, open: bool)

  /** What net.Listen did: bound to a port, or failed. */
  datatype BindResult = BoundTo(port: int) | BindFailed

  /** The WebServer struct. consulClient and consulAgent record whether the
      API client and agent handles have been set. */
  datatype WebServer = WebServer(
    address: string,
    port: int,
    registerToConsul: bool,
    consulClient: bool,
    consulAgent: bool,
    registration: Option<Registration>,
    listener: Option<Listener>,
    config: GlobalConfiguration,
    rootFolder: string)

  /** A step that either panicked or produced the next server state. */
  datatype Step = Panicked(message: string) | Ok(server: WebServer)

  /** An outside effect of shutting down, in the order performed. */
  datatype Action = Deregister(id: string) | CloseListener

  /** The result of DeInit: the actions performed, and the final state
      unless closing a nil listener panicked. */
  datatype Shutdown = Shutdown(actions: seq<Action>, final: Step)

  /** The lifecycle states the fields encode. */
  datatype LifecycleState = Unbound | Bound | Registered | Closed

  const RegistrationId := "support-4242"
  const BindFailure := "bind failed"
  const ConnectFailure := "unable to connect to consul"
  const RegisterFailure := "Unable to register to Consul"

  function State(s: WebServer): LifecycleState
  {
    if s.listener.None? then Unbound
    else if !s.listener.value.open then Closed
    else if s.registration.Some? then Registered
    else Bound
  }

  /** NewWebServer as written: address, port and the registration flag come
      from the configuration; no client, agent, registration or listener.
      The root folder is never copied and stays empty. */
  function NewWebServer(cfg: GlobalConfiguration): (s: WebServer)
    ensures State(s) == Unbound && !s.consulClient && !s.consulAgent && s.registration.None?
    ensures s.address == cfg.entryPoint.address && s.port == cfg.entryPoint.port
    ensures s.registerToConsul == cfg.consul.register
    ensures s.config == cfg
    ensures s.rootFolder == ""
  {
    WebServer(cfg.entryPoint.address, cfg.entryPoint.port, cfg.consul.register,
              false, false, None, None, cfg, "")
  }

  /** As written, the configured root folder never reaches the server that
      Run hands to the file server. */
  lemma NewWebServerDropsRootFolder(cfg: GlobalConfiguration)
    requires cfg.rootFolder != ""
    ensures NewWebServer(cfg).rootFolder != cfg.rootFolder
  {
  }

  /** NewWebServer copying the root folder as well, as evidently intended;
      every other field is as written. */
  function NewWebServerServingRoot(cfg: GlobalConfiguration): (s: WebServer)
    ensures s.rootFolder == cfg.rootFolder
    ensures s.(rootFolder := "") == NewWebServer(cfg)
  {
    NewWebServer(cfg).(rootFolder := cfg.rootFolder)
  }

  /** Which constructor builds the server: NewWebServer as written, or the
      corrected one that copies the root folder. */
  datatype Constructor = AsWrittenConstructor | RootCopyingConstructor

  function Construct(k: Constructor, cfg: GlobalConfiguration): (s: WebServer)
    ensures s.(rootFolder := "") == NewWebServer(cfg)
    ensures s.rootFolder == (if k == AsWrittenConstructor then "" else cfg.rootFolder)
  {
    if k == AsWrittenConstructor then NewWebServer(cfg) else NewWebServerServingRoot(cfg)
  }

  /** The address net.Listen is given: every interface, the configured port.
      The configured Address plays no part in binding. */
  function ListenAddress(port: int): string
  {
    ":" + GoStrings.Itoa(port)
  }

  /** The descriptor RegisterConsul submits: a fixed ID, the service name
      and tags from the configuration, the bound port and the configured
      address, no tag override and no checks. */
  function Descriptor(s: WebServer): Registration
  {
    Registration(RegistrationId, s.config.serviceName, s.config.consulTags, s.port, s.address, false, [])
  }

  /** RegisterConsul: build the client (fatal on failure), record the
      descriptor, submit it (fatal on failure). */
  function RegisterConsul(s: WebServer, clientOk: bool, registerOk: bool): (r: Step)
    ensures r.Ok? <==> clientOk && registerOk
    ensures r.Panicked? ==> r.message == (if clientOk then RegisterFailure else ConnectFailure)
    ensures r.Ok? ==> r.server == s.(consulClient := true, consulAgent := true, registration := Some(Descriptor(s)))
  {
    if !clientOk then Panicked(ConnectFailure)
    else
      var s1 := s.(consulClient := true, consulAgent := true, registration := Some(Descriptor(s)));
      if !registerOk then Panicked(RegisterFailure) else Ok(s1)
  }

  /** Init: bind (always fatal on failure), record the port actually bound,
      and register when the configuration asks for it. */
  function Init(s: WebServer, bind: string -> BindResult, clientOk: bool, registerOk: bool): (r: Step)
    ensures bind(ListenAddress(s.port)).BindFailed? ==> r == Panicked(BindFailure)
    ensures r.Ok? ==> bind(ListenAddress(s.port)) == BoundTo(r.server.port)
    ensures r.Ok? ==> r.server.listener == Some(Listener(ListenAddress(s.port), r.server.port, true))
    ensures r.Ok? ==> r.server.address == s.address && r.server.config == s.config && r.server.rootFolder == s.rootFolder
    ensures r.Ok? && s.registerToConsul ==> r.server.registration.Some? && r.server.registration.value.id == RegistrationId
    ensures r.Ok? && !s.registerToConsul ==> r.server.registration == s.registration
    ensures bind(ListenAddress(s.port)).BoundTo? && !s.registerToConsul ==> r.Ok?
    ensures bind(ListenAddress(s.port)).BoundTo? && s.registerToConsul ==>
              (r.Ok? <==> clientOk && registerOk)
  {
    var address := ListenAddress(s.port);
    match bind(address)
    case BindFailed => Panicked(BindFailure)
    case BoundTo(port) =>
      var s1 := s.(listener := Some(Listener(address, port, true)), port := port);
      if s1.registerToConsul then RegisterConsul(s1, clientOk, registerOk) else Ok(s1)
  }

  /** The registration Init submits carries the fixed ID, the configured
      name, tags and address, and the port actually bound. */
  lemma RegistrationDescribesServer(s: WebServer, bind: string -> BindResult, clientOk: bool, registerOk: bool)
    requires s.registerToConsul && bind(ListenAddress(s.port)).BoundTo?
    requires Init(s, bind, clientOk, registerOk).Ok?
    ensures var r := Init(s, bind, clientOk, registerOk).server;
            && State(r) == Registered
            && r.registration == Some(Registration(RegistrationId, s.config.serviceName, s.config.consulTags,
                                                   bind(ListenAddress(s.port)).port, s.address, false, []))
  {
  }

  /** When registration is off, the Consul oracles are never consulted:
      Init's result does not depend on them. */
  lemma InitIgnoresConsulWhenDisabled(s: WebServer, bind: string -> BindResult,
                                      clientOk: bool, registerOk: bool, clientOk': bool, registerOk': bool)
    requires !s.registerToConsul
    ensures Init(s, bind, clientOk, registerOk) == Init(s, bind, clientOk', registerOk')
  {
  }

  /** Init never reads the root folder: it carries it through, and the
      rest of its result does not depend on it. */
  lemma InitIgnoresRootFolder(s: WebServer, root: string, bind: string -> BindResult, clientOk: bool, registerOk: bool)
    ensures Init(s.(rootFolder := root), bind, clientOk, registerOk)
            == match Init(s, bind, clientOk, registerOk)
               case Panicked(m) => Panicked(m)
               case Ok(t) => Ok(t.(rootFolder := root))
  {
  }

  /** UnregisterFromConsul: deregister the stored registration's ID, or do
      nothing when there is none. */
  function UnregisterFromConsul(s: WebServer): (actions: seq<Action>)
    ensures s.registration.None? <==> actions == []
    ensures s.registration.Some? ==> actions == [Deregister(s.registration.value.id)]
  {
    match s.registration
    case None => []
    case Some(reg) => [Deregister(reg.id)]
  }

  /** DeInit: deregister, then close the listener. Closing a nil listener
      is a nil-interface call and panics. */
  function DeInit(s: WebServer): (r: Shutdown)
    ensures r.actions == UnregisterFromConsul(s) + (if s.listener.Some? then [CloseListener] else [])
    ensures r.final.Ok? <==> s.listener.Some?
    ensures r.final.Ok? ==> State(r.final.server) == Closed
    ensures r.final.Ok? ==> r.final.server.registration == s.registration
  {
    var deregistered := UnregisterFromConsul(s);
    match s.listener
    case None => Shutdown(deregistered, Panicked("invalid memory address or nil pointer dereference"))
    case Some(l) => Shutdown(deregistered + [CloseListener], Ok(s.(listener := Some(l.(open := false)))))
  }

  /** A whole lifecycle with every outside effect succeeding: construct,
      initialise, shut down. The server ends closed after deregistering
      exactly the registration it made, and the deregistration precedes
      the close. */
  lemma Lifecycle(cfg: GlobalConfiguration, bind: string -> BindResult, port: int)
    requires bind(ListenAddress(cfg.entryPoint.port)) == BoundTo(port)
    ensures var init := Init(NewWebServer(cfg), bind, true, true);
            && init.Ok?
            && init.server.port == port
            && State(init.server) == (if cfg.consul.register then Registered else Bound)
            && var down := DeInit(init.server);
               && down.final.Ok? && State(down.final.server) == Closed
               && down.actions == (if cfg.consul.register then [Deregister(RegistrationId)] else []) + [CloseListener]
  {
  }
}
