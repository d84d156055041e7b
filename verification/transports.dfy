/** Bringing up the listeners: which transports are enabled, on which
    addresses and ports, and the per-address steps of each listener loop. */
module Transports {
  import opened Config
  import opened Effects
  import opened Sockets

  /** The configured addresses, IPv4 first then IPv6, each in configured order;
      when none is configured, `0.0.0.0` then `::`. */
  function ListenAddrs(v4: seq<Ipv4Addr>, v6: seq<Ipv6Addr>): (addrs: seq<IpAddr>)
    ensures |addrs| > 0
    ensures |v4| + |v6| > 0 ==>
      && |addrs| == |v4| + |v6|
      && (forall i | 0 <= i < |v4| :: addrs[i] == V4(v4[i]))
      && (forall j | 0 <= j < |v6| :: addrs[|v4| + j] == V6(v6[j]))
    ensures |v4| + |v6| == 0 ==> addrs == [UnspecifiedV4, UnspecifiedV6]
  {
    var configured := seq(|v4|, i requires 0 <= i < |v4| => V4(v4[i]))
                    + seq(|v6|, j requires 0 <= j < |v6| => V6(v6[j]));
    if |configured| == 0 then [UnspecifiedV4, UnspecifiedV6] else configured
  }

  /** TLS, HTTPS and QUIC need the certificate. */
  predicate Encrypted(t: Transport) {
    t == Tls || t == Https || t == Quic
  }

  /** UDP and QUIC run over datagram sockets, the others over TCP listeners. */
  function SocketTypeOf(t: Transport): SocketType {
    if t == Udp || t == Quic then Dgram else Stream
  }

  /** What every listener of one transport shares. `announce` says whether
      the INFO event naming each bound socket is enabled: the socket's local
      address is an argument of that event, so it is only looked up (and its
      failure only aborts startup) when the event is logged. */
  datatype Setup = Setup(transport: Transport, port: u16, timeout: nat, cert: Option<TlsCertConfig>, httpEndpoint: string,
                         announce: bool)

  /** A transport's port is the command-line override if given, else the
      configured one (UDP and TCP share `listen_port`); the certificate is the
      configured one for the encrypted transports only. */
  function SetupOf(cli: Cli, config: ServerConfig, t: Transport): (s: Setup)
    ensures s.transport == t && s.timeout == config.tcpRequestTimeout
    ensures s.port == match t
      case Udp => (if cli.port.Some? then cli.port.value else config.listenPort)
      case Tcp => (if cli.port.Some? then cli.port.value else config.listenPort)
      case Tls => (if cli.tlsPort.Some? then cli.tlsPort.value else config.tlsListenPort)
      case Https => (if cli.httpsPort.Some? then cli.httpsPort.value else config.httpsListenPort)
      case Quic => (if cli.quicPort.Some? then cli.quicPort.value else config.quicListenPort)
    ensures s.cert.Some? ==> Encrypted(t) && s.cert == config.tlsCert
    ensures Encrypted(t) ==> s.cert == config.tlsCert
    ensures s.announce <==> !cli.quiet
  {
    var port := match t
      case Udp => cli.port.GetOr(config.listenPort)
      case Tcp => cli.port.GetOr(config.listenPort)
      case Tls => cli.tlsPort.GetOr(config.tlsListenPort)
      case Https => cli.httpsPort.GetOr(config.httpsListenPort)
      case Quic => cli.quicPort.GetOr(config.quicListenPort);
    Setup(t, port, config.tcpRequestTimeout, if Encrypted(t) then config.tlsCert else None, config.httpEndpoint, !cli.quiet)
  }

  /** The listener registered for `addr`: a UDP socket carries no request
      timeout; the encrypted ones carry the certificate; HTTPS and QUIC carry
      the certificate's endpoint name; HTTPS carries the HTTP endpoint path. */
  function ListenerAt(s: Setup, addr: IpAddr): (l: Listener)
    ensures l.transport == s.transport && l.addr == addr && l.port == s.port
    ensures l.timeout.Some? <==> s.transport != Udp
    ensures l.timeout.Some? ==> l.timeout.value == s.timeout
    ensures l.cert == s.cert
    ensures l.httpEndpoint.Some? <==> s.transport == Https
    ensures l.httpEndpoint.Some? ==> l.httpEndpoint.value == s.httpEndpoint
    ensures l.endpointName.Some? ==>
      (s.transport == Https || s.transport == Quic) && s.cert.Some? && l.endpointName == s.cert.value.endpointName
    ensures (s.transport == Https || s.transport == Quic) && s.cert.Some? ==> l.endpointName == s.cert.value.endpointName
  {
    Listener(
      s.transport, addr, s.port,
      if s.transport == Udp then None else Some(s.timeout),
      s.cert,
      if (s.transport == Https || s.transport == Quic) && s.cert.Some? then s.cert.value.endpointName else None,
      if s.transport == Https then Some(s.httpEndpoint) else None)
  }

  function ListenersAt(s: Setup, addrs: seq<IpAddr>): seq<Listener> {
    seq(|addrs|, i requires 0 <= i < |addrs| => ListenerAt(s, addrs[i]))
  }

  /** One iteration of a listener loop, when every step succeeds: load the
      certificate (encrypted transports, once per address), build the socket,
      look up its local address when that is logged, register it. */
  function AddrPlan(zoneDir: string, s: Setup, addr: IpAddr): seq<Op> {
    CertPlan(zoneDir, s)
    + SocketPlan(SocketTypeOf(s.transport), addr, s.port)
    + AnnouncePlan(s, addr)
  }

  /** The local-address lookup inside the INFO event, if it is enabled, then
      the registration. */
  function AnnouncePlan(s: Setup, addr: IpAddr): seq<Op> {
    (if s.announce then [LocalAddr(SocketTypeOf(s.transport), addr, s.port)] else [])
    + [Register(ListenerAt(s, addr))]
  }

  function CertPlan(zoneDir: string, s: Setup): seq<Op> {
    match s.cert
    case Some(c) => [LoadCert(zoneDir, c)]
    case None => []
  }

  function LoadCertFor(env: Env, zoneDir: string, s: Setup): (r: Run<()>)
    ensures Executes(env, r, CertPlan(zoneDir, s))
  {
    match s.cert
    case Some(c) => CallExecutes(env, LoadCert(zoneDir, c)); Call(env, LoadCert(zoneDir, c))
    case None => DoneExecutes(env); Done
  }

  function TransportPlan(zoneDir: string, s: Setup, addrs: seq<IpAddr>): seq<Op>
    decreases |addrs|
  {
    if |addrs| == 0 then [] else AddrPlan(zoneDir, s, addrs[0]) + TransportPlan(zoneDir, s, addrs[1..])
  }

  function BuildSocket(env: Env, t: SocketType, addr: IpAddr, port: u16): (r: Run<()>)
    ensures Executes(env, r, SocketPlan(t, addr, port))
    ensures r.result.Err? ==> r.result.error.OpFailed? && r.result.error.op.Socket?
  {
    if t == Stream then BuildTcpListener(env, addr, port) else BuildUdpSocket(env, addr, port)
  }

  /** The errors a listener loop reports. */
  predicate ListenerError(e: Error, t: Transport) {
    || (e.BindFailed? && e.transport == t && e.cause.OpFailed? && e.cause.op.Socket?)
    || (e.OpFailed? && (e.op.LoadCert? || e.op.LocalAddr? || e.op.Register?))
  }

  /** The body of a listener loop for one address. A socket error is reported
      as a bind failure of that transport and address; a certificate, local
      address or registration error as the failed call itself. */
  function BringUpAt(env: Env, zoneDir: string, s: Setup, addr: IpAddr): (r: Run<()>)
    ensures Executes(env, r, AddrPlan(zoneDir, s, addr))
    ensures r.result.Err? ==> ListenerError(r.result.error, s.transport)
    ensures r.result.Err? && r.result.error.BindFailed? ==> r.result.error.addr == addr
  {
    var st := SocketTypeOf(s.transport);
    var socket := BuildSocket(env, st, addr, s.port);
    var bound := MapErr(socket, e => BindFailed(s.transport, addr, e));
    var tail := Announce(env, s, addr);
    MapErrExecutes(env, socket, e => BindFailed(s.transport, addr, e), SocketPlan(st, addr, s.port));
    Seq3Executes(env, LoadCertFor(env, zoneDir, s), CertPlan(zoneDir, s), bound, SocketPlan(st, addr, s.port),
                 tail, AnnouncePlan(s, addr));
    Seq(LoadCertFor(env, zoneDir, s), Seq(bound, tail))
  }

  /** Logging the bound socket's local address (looked up only when the
      event is enabled), then registering it. */
  function Announce(env: Env, s: Setup, addr: IpAddr): (r: Run<()>)
    ensures Executes(env, r, AnnouncePlan(s, addr))
    ensures r.result.Err? ==> r.result.error.OpFailed? && (r.result.error.op.LocalAddr? || r.result.error.op.Register?)
    ensures !s.announce ==> forall i | 0 <= i < |r.trace| :: !r.trace[i].LocalAddr?
  {
    var st := SocketTypeOf(s.transport);
    var register := Call(env, Register(ListenerAt(s, addr)));
    CallExecutes(env, Register(ListenerAt(s, addr)));
    if s.announce then
      CallThen(env, LocalAddr(st, addr, s.port), register, [Register(ListenerAt(s, addr))]);
      Seq(Call(env, LocalAddr(st, addr, s.port)), register)
    else
      assert AnnouncePlan(s, addr) == [Register(ListenerAt(s, addr))];
      register
  }

  /** A listener loop: every address in turn, stopping at the first error. */
  function BringUpAll(env: Env, zoneDir: string, s: Setup, addrs: seq<IpAddr>): (r: Run<()>)
    ensures Executes(env, r, TransportPlan(zoneDir, s, addrs))
    ensures r.result.Err? ==> ListenerError(r.result.error, s.transport)
    decreases |addrs|
  {
    if |addrs| == 0 then Done
    else
      var first := BringUpAt(env, zoneDir, s, addrs[0]);
      var rest := BringUpAll(env, zoneDir, s, addrs[1..]);
      SeqExecutes(env, first, AddrPlan(zoneDir, s, addrs[0]), rest, TransportPlan(zoneDir, s, addrs[1..]));
      Seq(first, rest)
  }

  /** What an enabled transport carries out: its listener loop, or, for an
      encrypted transport with no address, one warning. */
  function TransportOps(zoneDir: string, s: Setup, addrs: seq<IpAddr>): seq<Op> {
    if Encrypted(s.transport) && |addrs| == 0 then [Warn(NoListenAddresses(s.transport))]
    else TransportPlan(zoneDir, s, addrs)
  }

  /** `config_tls`, `config_https` and `config_quic`: a certificate with no
      address to listen on is only warned about. */
  function ConfigEncrypted(env: Env, zoneDir: string, s: Setup, addrs: seq<IpAddr>): (r: Run<()>)
    requires Encrypted(s.transport)
    ensures Executes(env, r, TransportOps(zoneDir, s, addrs))
    ensures |addrs| == 0 ==> r == Run([Warn(NoListenAddresses(s.transport))], Ok(()))
    ensures r.result.Err? ==> ListenerError(r.result.error, s.transport)
  {
    if |addrs| == 0 then
      assert AllSucceed(env, [Warn(NoListenAddresses(s.transport))]);
      Run([Warn(NoListenAddresses(s.transport))], Ok(()))
    else BringUpAll(env, zoneDir, s, addrs)
  }

  /** The `--disable-*` switch of a transport. */
  function DisabledOnCommandLine(cli: Cli, t: Transport): bool {
    match t
    case Udp => cli.disableUdp
    case Tcp => cli.disableTcp
    case Tls => cli.disableTls
    case Https => cli.disableHttps
    case Quic => cli.disableQuic
  }

  /** The `disable_*` setting of a transport. */
  function DisabledInConfig(config: ServerConfig, t: Transport): bool {
    match t
    case Udp => config.disableUdp
    case Tcp => config.disableTcp
    case Tls => config.disableTls
    case Https => config.disableHttps
    case Quic => config.disableQuic
  }

  /** Whether the build includes a transport: UDP and TCP always do. */
  function Compiled(f: Features, t: Transport): bool {
    match t
    case Udp => true
    case Tcp => true
    case Tls => f.tls
    case Https => f.https
    case Quic => f.quic
  }

  /** Whether startup brings up a transport: not disabled on the command line
      or in the configuration, and for the encrypted ones, compiled in and
      given a certificate. */
  function Enabled(f: Features, cli: Cli, config: ServerConfig, t: Transport): (b: bool)
    ensures b ==> !DisabledOnCommandLine(cli, t) && !DisabledInConfig(config, t)
    ensures b && Encrypted(t) ==> Compiled(f, t) && SetupOf(cli, config, t).cert.Some?
    ensures !DisabledOnCommandLine(cli, t) && !DisabledInConfig(config, t) && !Encrypted(t) ==> b
    ensures !DisabledOnCommandLine(cli, t) && !DisabledInConfig(config, t) && Compiled(f, t) && config.tlsCert.Some? ==> b
  {
    match t
    case Udp => !cli.disableUdp && !config.disableUdp
    case Tcp => !cli.disableTcp && !config.disableTcp
    case Tls => f.tls && config.tlsCert.Some? && !cli.disableTls && !config.disableTls
    case Https => f.https && config.tlsCert.Some? && !cli.disableHttps && !config.disableHttps
    case Quic => f.quic && config.tlsCert.Some? && !cli.disableQuic && !config.disableQuic
  }

  function PlanFor(f: Features, cli: Cli, config: ServerConfig, zoneDir: string, addrs: seq<IpAddr>, t: Transport): seq<Op> {
    if Enabled(f, cli, config, t) then TransportOps(zoneDir, SetupOf(cli, config, t), addrs) else []
  }

  /** Reference order: UDP, TCP, then the encrypted transports TLS, HTTPS,
      QUIC; each enabled one over all addresses before the next starts. */
  function ListenerPlan(f: Features, cli: Cli, config: ServerConfig, zoneDir: string, addrs: seq<IpAddr>): seq<Op> {
    PlanFor(f, cli, config, zoneDir, addrs, Udp)
    + PlanFor(f, cli, config, zoneDir, addrs, Tcp)
    + EncryptedPlan(f, cli, config, zoneDir, addrs)
  }

  /** One `if enabled { ... }` block of the listener section. */
  function Block(env: Env, zoneDir: string, s: Setup, addrs: seq<IpAddr>, on: bool): (r: Run<()>)
    ensures Executes(env, r, if on then TransportOps(zoneDir, s, addrs) else [])
    ensures r.result.Err? ==> on && ListenerError(r.result.error, s.transport)
  {
    if !on then DoneExecutes(env); Done
    else if Encrypted(s.transport) then ConfigEncrypted(env, zoneDir, s, addrs)
    else BringUpAll(env, zoneDir, s, addrs)
  }

  /** The listener section of `run`. */
  function BringUpTransports(f: Features, env: Env, cli: Cli, config: ServerConfig, zoneDir: string, addrs: seq<IpAddr>): (r: Run<()>)
    ensures Executes(env, r, ListenerPlan(f, cli, config, zoneDir, addrs))
  {
    var udp := Block(env, zoneDir, SetupOf(cli, config, Udp), addrs, !cli.disableUdp && !config.disableUdp);
    var tcp := Block(env, zoneDir, SetupOf(cli, config, Tcp), addrs, !cli.disableTcp && !config.disableTcp);
    var encrypted := EncryptedTransports(f, env, cli, config, zoneDir, addrs);
    Seq3Executes(env, udp, PlanFor(f, cli, config, zoneDir, addrs, Udp), tcp, PlanFor(f, cli, config, zoneDir, addrs, Tcp),
                 encrypted, EncryptedPlan(f, cli, config, zoneDir, addrs));
    Seq(udp, Seq(tcp, encrypted))
  }

  function EncryptedPlan(f: Features, cli: Cli, config: ServerConfig, zoneDir: string, addrs: seq<IpAddr>): seq<Op> {
    PlanFor(f, cli, config, zoneDir, addrs, Tls)
    + PlanFor(f, cli, config, zoneDir, addrs, Https)
    + PlanFor(f, cli, config, zoneDir, addrs, Quic)
  }

  /** The TLS-family block, entered only with a certificate configured. */
  function EncryptedTransports(f: Features, env: Env, cli: Cli, config: ServerConfig, zoneDir: string, addrs: seq<IpAddr>): (r: Run<()>)
    ensures Executes(env, r, EncryptedPlan(f, cli, config, zoneDir, addrs))
  {
    match config.tlsCert
    case None => DoneExecutes(env); Done
    case Some(_) =>
      var tls := Block(env, zoneDir, SetupOf(cli, config, Tls), addrs, f.tls && !cli.disableTls && !config.disableTls);
      var https := Block(env, zoneDir, SetupOf(cli, config, Https), addrs, f.https && !cli.disableHttps && !config.disableHttps);
      var quic := Block(env, zoneDir, SetupOf(cli, config, Quic), addrs, f.quic && !cli.disableQuic && !config.disableQuic);
      Seq3Executes(env, tls, PlanFor(f, cli, config, zoneDir, addrs, Tls), https, PlanFor(f, cli, config, zoneDir, addrs, Https),
                   quic, PlanFor(f, cli, config, zoneDir, addrs, Quic));
      Seq(tls, Seq(https, quic))
  }

  /** The listeners the bring-up registers when nothing fails. */
  function PlannedListeners(f: Features, cli: Cli, config: ServerConfig, addrs: seq<IpAddr>): seq<Listener> {
    ListenersFor(f, cli, config, addrs, Udp)
    + ListenersFor(f, cli, config, addrs, Tcp)
    + ListenersFor(f, cli, config, addrs, Tls)
    + ListenersFor(f, cli, config, addrs, Https)
    + ListenersFor(f, cli, config, addrs, Quic)
  }

  function ListenersFor(f: Features, cli: Cli, config: ServerConfig, addrs: seq<IpAddr>, t: Transport): seq<Listener> {
    if Enabled(f, cli, config, t) then ListenersAt(SetupOf(cli, config, t), addrs) else []
  }

  function Rank(t: Transport): nat {
    match t
    case Udp => 0
    case Tcp => 1
    case Tls => 2
    case Https => 3
    case Quic => 4
  }

  function CertLoads(trace: seq<Op>): nat
    decreases |trace|
  {
    if |trace| == 0 then 0 else (if trace[0].LoadCert? then 1 else 0) + CertLoads(trace[1..])
  }

  /** How many local-address lookups `trace` makes. */
  function AddressLookups(trace: seq<Op>): nat
    decreases |trace|
  {
    if |trace| == 0 then 0 else (if trace[0].LocalAddr? then 1 else 0) + AddressLookups(trace[1..])
  }
}

/** What the listener section promises. */
module TransportProperties {
  import opened Config
  import opened Effects
  import opened Sockets
  import opened Transports

  lemma {:induction false} RegisteredPrefix(a: seq<Op>, b: seq<Op>)
    requires a <= b
    ensures Registered(a) <= Registered(b)
    decreases |a|
  {
    if |a| > 0 {
      assert a[1..] <= b[1..];
      RegisteredPrefix(a[1..], b[1..]);
    }
  }

  lemma SocketPlanRegistersNothing(t: SocketType, ip: IpAddr, port: u16)
    ensures Registered(SocketPlan(t, ip, port)) == []
    ensures CertLoads(SocketPlan(t, ip, port)) == 0
    ensures AddressLookups(SocketPlan(t, ip, port)) == 0
  {
    var plan := SocketPlan(t, ip, port);
    RegisteredNone(plan);
    CertLoadsNone(plan);
    LookupsNone(plan);
  }

  lemma LookupsNone(trace: seq<Op>)
    requires forall i | 0 <= i < |trace| :: !trace[i].LocalAddr?
    ensures AddressLookups(trace) == 0
    decreases |trace|
  {
    if |trace| > 0 { LookupsNone(trace[1..]); }
  }

  lemma {:induction false} LookupsAppend(a: seq<Op>, b: seq<Op>)
    ensures AddressLookups(a + b) == AddressLookups(a) + AddressLookups(b)
    decreases |a|
  {
    if |a| == 0 {
      assert a + b == b;
    } else {
      assert (a + b)[0] == a[0];
      assert (a + b)[1..] == a[1..] + b;
      LookupsAppend(a[1..], b);
    }
  }

  lemma {:induction false} LookupsPrefix(a: seq<Op>, b: seq<Op>)
    requires a <= b
    ensures AddressLookups(a) <= AddressLookups(b)
    decreases |a|
  {
    if |a| > 0 {
      assert a[1..] <= b[1..];
      LookupsPrefix(a[1..], b[1..]);
    }
  }

  lemma CertLoadsNone(trace: seq<Op>)
    requires forall i | 0 <= i < |trace| :: !trace[i].LoadCert?
    ensures CertLoads(trace) == 0
    decreases |trace|
  {
    if |trace| > 0 { CertLoadsNone(trace[1..]); }
  }

  lemma {:induction false} CertLoadsAppend(a: seq<Op>, b: seq<Op>)
    ensures CertLoads(a + b) == CertLoads(a) + CertLoads(b)
    decreases |a|
  {
    if |a| == 0 {
      assert a + b == b;
    } else {
      assert (a + b)[0] == a[0];
      assert (a + b)[1..] == a[1..] + b;
      CertLoadsAppend(a[1..], b);
    }
  }

  /** The announcement registers exactly its listener and loads no
      certificate. */
  lemma AnnouncePlanEffects(s: Setup, addr: IpAddr)
    ensures Registered(AnnouncePlan(s, addr)) == [ListenerAt(s, addr)]
    ensures CertLoads(AnnouncePlan(s, addr)) == 0
    ensures AddressLookups(AnnouncePlan(s, addr)) == (if s.announce then 1 else 0)
    ensures InPhase(AnnouncePlan(s, addr), ListenPhase)
  {
    var tail := AnnouncePlan(s, addr);
    if s.announce {
      assert tail[1..][1..] == [];
      assert AddressLookups(tail[1..]) == 0;
    } else {
      assert tail[1..] == [];
    }
  }

  /** One address registers exactly its own listener, and loads the
      certificate once when the transport has one. */
  lemma AddrPlanEffects(zoneDir: string, s: Setup, addr: IpAddr)
    ensures Registered(AddrPlan(zoneDir, s, addr)) == [ListenerAt(s, addr)]
    ensures CertLoads(AddrPlan(zoneDir, s, addr)) == (if s.cert.Some? then 1 else 0)
    ensures AddressLookups(AddrPlan(zoneDir, s, addr)) == (if s.announce then 1 else 0)
  {
    var st := SocketTypeOf(s.transport);
    var tail := AnnouncePlan(s, addr);
    SocketPlanRegistersNothing(st, addr, s.port);
    RegisteredAppend(CertPlan(zoneDir, s), SocketPlan(st, addr, s.port));
    RegisteredAppend(CertPlan(zoneDir, s) + SocketPlan(st, addr, s.port), tail);
    CertLoadsAppend(CertPlan(zoneDir, s), SocketPlan(st, addr, s.port));
    CertLoadsAppend(CertPlan(zoneDir, s) + SocketPlan(st, addr, s.port), tail);
    LookupsAppend(CertPlan(zoneDir, s), SocketPlan(st, addr, s.port));
    LookupsAppend(CertPlan(zoneDir, s) + SocketPlan(st, addr, s.port), tail);
    AnnouncePlanEffects(s, addr);
    if s.cert.Some? {
      assert CertPlan(zoneDir, s)[1..] == [];
    }
  }

  /** A listener loop registers one listener per address, in address order,
      and loads the certificate once per address. */
  lemma {:induction false} TransportPlanEffects(zoneDir: string, s: Setup, addrs: seq<IpAddr>)
    ensures Registered(TransportPlan(zoneDir, s, addrs)) == ListenersAt(s, addrs)
    ensures CertLoads(TransportPlan(zoneDir, s, addrs)) == (if s.cert.Some? then |addrs| else 0)
    ensures AddressLookups(TransportPlan(zoneDir, s, addrs)) == (if s.announce then |addrs| else 0)
    decreases |addrs|
  {
    if |addrs| > 0 {
      AddrPlanEffects(zoneDir, s, addrs[0]);
      TransportPlanEffects(zoneDir, s, addrs[1..]);
      RegisteredAppend(AddrPlan(zoneDir, s, addrs[0]), TransportPlan(zoneDir, s, addrs[1..]));
      CertLoadsAppend(AddrPlan(zoneDir, s, addrs[0]), TransportPlan(zoneDir, s, addrs[1..]));
      LookupsAppend(AddrPlan(zoneDir, s, addrs[0]), TransportPlan(zoneDir, s, addrs[1..]));
      assert ListenersAt(s, addrs) == [ListenerAt(s, addrs[0])] + ListenersAt(s, addrs[1..]);
    }
  }

  /** A listener loop that succeeds loaded the certificate once per address
      (it is not shared between addresses). */
  lemma CertLoadedPerAddress(env: Env, zoneDir: string, s: Setup, addrs: seq<IpAddr>)
    requires BringUpAll(env, zoneDir, s, addrs).result.Ok?
    ensures CertLoads(BringUpAll(env, zoneDir, s, addrs).trace) == (if s.cert.Some? then |addrs| else 0)
  {
    AttemptAll(env, TransportPlan(zoneDir, s, addrs));
    TransportPlanEffects(zoneDir, s, addrs);
  }

  /** The local address of a bound socket is looked up only for the INFO
      event that prints it: a quiet run never looks one up, whatever fails,
      and a successful loop that logs looks each one up once. */
  lemma AddressLookedUpOnlyWhenLogged(env: Env, zoneDir: string, s: Setup, addrs: seq<IpAddr>)
    ensures !s.announce ==> AddressLookups(BringUpAll(env, zoneDir, s, addrs).trace) == 0
    ensures BringUpAll(env, zoneDir, s, addrs).result.Ok? ==>
      AddressLookups(BringUpAll(env, zoneDir, s, addrs).trace) == (if s.announce then |addrs| else 0)
  {
    var plan := TransportPlan(zoneDir, s, addrs);
    TransportPlanEffects(zoneDir, s, addrs);
    AttemptPrefix(env, plan);
    LookupsPrefix(Attempt(env, plan), plan);
    if BringUpAll(env, zoneDir, s, addrs).result.Ok? {
      AttemptAll(env, plan);
    }
  }

  lemma PlanForRegisters(f: Features, cli: Cli, config: ServerConfig, zoneDir: string, addrs: seq<IpAddr>, t: Transport)
    ensures Registered(PlanFor(f, cli, config, zoneDir, addrs, t)) == ListenersFor(f, cli, config, addrs, t)
  {
    if Enabled(f, cli, config, t) {
      TransportPlanEffects(zoneDir, SetupOf(cli, config, t), addrs);
      if Encrypted(t) && |addrs| == 0 {
        assert [Warn(NoListenAddresses(t))][1..] == [];
      }
    }
  }

  lemma RegisteredConcat3(a: seq<Op>, b: seq<Op>, c: seq<Op>)
    ensures Registered(a + b + c) == Registered(a) + Registered(b) + Registered(c)
  {
    RegisteredAppend(a, b);
    RegisteredAppend(a + b, c);
  }

  lemma EncryptedPlanRegisters(f: Features, cli: Cli, config: ServerConfig, zoneDir: string, addrs: seq<IpAddr>)
    ensures Registered(EncryptedPlan(f, cli, config, zoneDir, addrs))
         == ListenersFor(f, cli, config, addrs, Tls) + ListenersFor(f, cli, config, addrs, Https) + ListenersFor(f, cli, config, addrs, Quic)
  {
    var c := PlanFor(f, cli, config, zoneDir, addrs, Tls);
    var d := PlanFor(f, cli, config, zoneDir, addrs, Https);
    var e := PlanFor(f, cli, config, zoneDir, addrs, Quic);
    PlanForRegisters(f, cli, config, zoneDir, addrs, Tls);
    PlanForRegisters(f, cli, config, zoneDir, addrs, Https);
    PlanForRegisters(f, cli, config, zoneDir, addrs, Quic);
    RegisteredConcat3(c, d, e);
  }

  lemma Associate(a: seq<Listener>, b: seq<Listener>, c: seq<Listener>, d: seq<Listener>, e: seq<Listener>)
    ensures a + b + (c + d + e) == a + b + c + d + e
  {
  }

  /** The listener plan registers exactly the planned listeners. */
  lemma ListenerPlanRegisters(f: Features, cli: Cli, config: ServerConfig, zoneDir: string, addrs: seq<IpAddr>)
    ensures Registered(ListenerPlan(f, cli, config, zoneDir, addrs)) == PlannedListeners(f, cli, config, addrs)
  {
    var a := PlanFor(f, cli, config, zoneDir, addrs, Udp);
    var b := PlanFor(f, cli, config, zoneDir, addrs, Tcp);
    var rest := EncryptedPlan(f, cli, config, zoneDir, addrs);
    PlanForRegisters(f, cli, config, zoneDir, addrs, Udp);
    PlanForRegisters(f, cli, config, zoneDir, addrs, Tcp);
    EncryptedPlanRegisters(f, cli, config, zoneDir, addrs);
    RegisteredConcat3(a, b, rest);
    var la := ListenersFor(f, cli, config, addrs, Udp);
    var lb := ListenersFor(f, cli, config, addrs, Tcp);
    var lc := ListenersFor(f, cli, config, addrs, Tls);
    var ld := ListenersFor(f, cli, config, addrs, Https);
    var le := ListenersFor(f, cli, config, addrs, Quic);
    Associate(la, lb, lc, ld, le);
  }

  /** Bringing up the transports registers a prefix of the planned listeners
      (UDP, TCP, TLS, HTTPS, QUIC, each over every address in order), and all
      of them exactly when it succeeds. */
  lemma ListenersFollowPlan(f: Features, env: Env, cli: Cli, config: ServerConfig, zoneDir: string, addrs: seq<IpAddr>)
    ensures var r := BringUpTransports(f, env, cli, config, zoneDir, addrs);
      && Registered(r.trace) <= PlannedListeners(f, cli, config, addrs)
      && (r.result.Ok? ==> Registered(r.trace) == PlannedListeners(f, cli, config, addrs))
  {
    var plan := ListenerPlan(f, cli, config, zoneDir, addrs);
    ListenerPlanRegisters(f, cli, config, zoneDir, addrs);
    AttemptPrefix(env, plan);
    RegisteredPrefix(Attempt(env, plan), plan);
    if AllSucceed(env, plan) { AttemptAll(env, plan); }
  }

  lemma ListenersAtMembers(s: Setup, addrs: seq<IpAddr>, l: Listener)
    ensures l in ListenersAt(s, addrs) <==> exists i | 0 <= i < |addrs| :: l == ListenerAt(s, addrs[i])
  {
    if l in ListenersAt(s, addrs) {
      var k :| 0 <= k < |ListenersAt(s, addrs)| && ListenersAt(s, addrs)[k] == l;
      assert l == ListenerAt(s, addrs[k]);
    }
    if exists i | 0 <= i < |addrs| :: l == ListenerAt(s, addrs[i]) {
      var i :| 0 <= i < |addrs| && l == ListenerAt(s, addrs[i]);
      assert ListenersAt(s, addrs)[i] == l;
    }
  }

  /** A planned listener is one of an enabled transport on a listen address,
      with that transport's port; and every such pair is planned. */
  lemma PlannedListenersExactly(f: Features, cli: Cli, config: ServerConfig, addrs: seq<IpAddr>, l: Listener)
    ensures l in PlannedListeners(f, cli, config, addrs) <==>
      exists t: Transport, i | 0 <= i < |addrs| :: Enabled(f, cli, config, t) && l == ListenerAt(SetupOf(cli, config, t), addrs[i])
  {
    forall t: Transport ensures l in ListenersFor(f, cli, config, addrs, t) <==>
      Enabled(f, cli, config, t) && exists i | 0 <= i < |addrs| :: l == ListenerAt(SetupOf(cli, config, t), addrs[i])
    {
      ListenersAtMembers(SetupOf(cli, config, t), addrs, l);
    }
    if l in PlannedListeners(f, cli, config, addrs) {
      var t: Transport :|l in ListenersFor(f, cli, config, addrs, t);
    } else {
      forall t: Transport, i | 0 <= i < |addrs| && Enabled(f, cli, config, t)
        ensures l != ListenerAt(SetupOf(cli, config, t), addrs[i])
      {
        assert l !in ListenersFor(f, cli, config, addrs, t);
      }
    }
  }

  predicate Ordered(ls: seq<Listener>) {
    forall i, j | 0 <= i < j < |ls| :: Rank(ls[i].transport) <= Rank(ls[j].transport)
  }

  predicate RanksBetween(ls: seq<Listener>, lo: nat, hi: nat) {
    forall i | 0 <= i < |ls| :: lo <= Rank(ls[i].transport) <= hi
  }

  lemma OrderedAppend(a: seq<Listener>, b: seq<Listener>, lo: nat, mid: nat, hi: nat)
    requires lo <= mid <= hi
    requires Ordered(a) && Ordered(b) && RanksBetween(a, lo, mid) && RanksBetween(b, mid, hi)
    ensures Ordered(a + b) && RanksBetween(a + b, lo, hi)
  {
    forall i | 0 <= i < |a + b| ensures lo <= Rank((a + b)[i].transport) <= hi {
      if i >= |a| { assert (a + b)[i] == b[i - |a|]; }
    }
    forall i, j | 0 <= i < j < |a + b| ensures Rank((a + b)[i].transport) <= Rank((a + b)[j].transport) {
      if j < |a| {
      } else if i >= |a| {
        assert (a + b)[i] == b[i - |a|] && (a + b)[j] == b[j - |a|];
      } else {
        assert (a + b)[j] == b[j - |a|];
      }
    }
  }

  lemma ListenersForRank(f: Features, cli: Cli, config: ServerConfig, addrs: seq<IpAddr>, t: Transport)
    ensures Ordered(ListenersFor(f, cli, config, addrs, t))
    ensures RanksBetween(ListenersFor(f, cli, config, addrs, t), Rank(t), Rank(t))
  {
  }

  /** Planned listeners come grouped by transport, in the order UDP, TCP, TLS,
      HTTPS, QUIC. */
  lemma PlannedListenersOrdered(f: Features, cli: Cli, config: ServerConfig, addrs: seq<IpAddr>)
    ensures Ordered(PlannedListeners(f, cli, config, addrs))
  {
    var a := ListenersFor(f, cli, config, addrs, Udp);
    var b := ListenersFor(f, cli, config, addrs, Tcp);
    var c := ListenersFor(f, cli, config, addrs, Tls);
    var d := ListenersFor(f, cli, config, addrs, Https);
    var e := ListenersFor(f, cli, config, addrs, Quic);
    ListenersForRank(f, cli, config, addrs, Udp);
    ListenersForRank(f, cli, config, addrs, Tcp);
    ListenersForRank(f, cli, config, addrs, Tls);
    ListenersForRank(f, cli, config, addrs, Https);
    ListenersForRank(f, cli, config, addrs, Quic);
    OrderedAppend(a, b, 0, 1, 1);
    OrderedAppend(a + b, c, 0, 2, 2);
    OrderedAppend(a + b + c, d, 0, 3, 3);
    OrderedAppend(a + b + c + d, e, 0, 4, 4);
  }

  /** The listener section stops at its first failing call, and what it
      reports is the error of a transport that was enabled. */
  lemma TransportsStopAtFirstFailure(f: Features, env: Env, cli: Cli, config: ServerConfig, zoneDir: string, addrs: seq<IpAddr>)
    ensures var r := BringUpTransports(f, env, cli, config, zoneDir, addrs);
      && StopsAtFirstFailure(env, r)
      && (r.result.Err? ==> exists t: Transport :: Enabled(f, cli, config, t) && ListenerError(r.result.error, t))
  {
    var r := BringUpTransports(f, env, cli, config, zoneDir, addrs);
    ExecutesStops(env, r, ListenerPlan(f, cli, config, zoneDir, addrs));
    var udp := Block(env, zoneDir, SetupOf(cli, config, Udp), addrs, !cli.disableUdp && !config.disableUdp);
    var tcp := Block(env, zoneDir, SetupOf(cli, config, Tcp), addrs, !cli.disableTcp && !config.disableTcp);
    if udp.result.Err? {
      assert Enabled(f, cli, config, Udp) && ListenerError(r.result.error, Udp);
    } else if tcp.result.Err? {
      assert Enabled(f, cli, config, Tcp) && ListenerError(r.result.error, Tcp);
    } else if r.result.Err? {
      var e := EncryptedTransports(f, env, cli, config, zoneDir, addrs);
      assert r.result == e.result;
      EncryptedFailure(f, env, cli, config, zoneDir, addrs);
    }
  }

  lemma EncryptedFailure(f: Features, env: Env, cli: Cli, config: ServerConfig, zoneDir: string, addrs: seq<IpAddr>)
    ensures var r := EncryptedTransports(f, env, cli, config, zoneDir, addrs);
      r.result.Err? ==> exists t: Transport :: Enabled(f, cli, config, t) && ListenerError(r.result.error, t)
  {
    var r := EncryptedTransports(f, env, cli, config, zoneDir, addrs);
    if config.tlsCert.Some? && r.result.Err? {
      var tls := Block(env, zoneDir, SetupOf(cli, config, Tls), addrs, f.tls && !cli.disableTls && !config.disableTls);
      var https := Block(env, zoneDir, SetupOf(cli, config, Https), addrs, f.https && !cli.disableHttps && !config.disableHttps);
      var quic := Block(env, zoneDir, SetupOf(cli, config, Quic), addrs, f.quic && !cli.disableQuic && !config.disableQuic);
      assert r == Seq(tls, Seq(https, quic));
      if tls.result.Err? {
        assert Enabled(f, cli, config, Tls) && ListenerError(r.result.error, Tls);
      } else if https.result.Err? {
        assert Enabled(f, cli, config, Https) && ListenerError(r.result.error, Https);
      } else {
        assert Enabled(f, cli, config, Quic) && ListenerError(r.result.error, Quic);
      }
    }
  }

  lemma {:induction false} TransportPlanPhase(zoneDir: string, s: Setup, addrs: seq<IpAddr>)
    ensures InPhase(TransportPlan(zoneDir, s, addrs), ListenPhase)
    decreases |addrs|
  {
    if |addrs| > 0 {
      var st := SocketTypeOf(s.transport);
      assert InPhase(SocketPlan(st, addrs[0], s.port), ListenPhase);
      InPhaseAppend(CertPlan(zoneDir, s), SocketPlan(st, addrs[0], s.port), ListenPhase);
      AnnouncePlanEffects(s, addrs[0]);
      InPhaseAppend(CertPlan(zoneDir, s) + SocketPlan(st, addrs[0], s.port), AnnouncePlan(s, addrs[0]), ListenPhase);
      TransportPlanPhase(zoneDir, s, addrs[1..]);
      InPhaseAppend(AddrPlan(zoneDir, s, addrs[0]), TransportPlan(zoneDir, s, addrs[1..]), ListenPhase);
    }
  }

  /** Bringing up the transports only binds sockets, loads certificates and
      registers listeners (or warns about a missing address list). */
  lemma TransportsInListenPhase(f: Features, env: Env, cli: Cli, config: ServerConfig, zoneDir: string, addrs: seq<IpAddr>)
    ensures InPhase(BringUpTransports(f, env, cli, config, zoneDir, addrs).trace, ListenPhase)
  {
    forall t: Transport ensures InPhase(PlanFor(f, cli, config, zoneDir, addrs, t), ListenPhase) {
      TransportPlanPhase(zoneDir, SetupOf(cli, config, t), addrs);
    }
    var a := PlanFor(f, cli, config, zoneDir, addrs, Udp);
    var b := PlanFor(f, cli, config, zoneDir, addrs, Tcp);
    var c := PlanFor(f, cli, config, zoneDir, addrs, Tls);
    var d := PlanFor(f, cli, config, zoneDir, addrs, Https);
    var e := PlanFor(f, cli, config, zoneDir, addrs, Quic);
    InPhaseAppend(c, d, ListenPhase);
    InPhaseAppend(c + d, e, ListenPhase);
    InPhaseAppend(a, b, ListenPhase);
    InPhaseAppend(a + b, c + d + e, ListenPhase);
    ExecutesInPhase(env, BringUpTransports(f, env, cli, config, zoneDir, addrs), ListenerPlan(f, cli, config, zoneDir, addrs), ListenPhase);
  }
}
