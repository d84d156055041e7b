/** Raw socket construction for one (address, port): IPv6 sockets are made
    IPv6-only so that `0.0.0.0` and `::` on the same port are two independent
    listeners; every socket is non-blocking before it is bound; stream sockets
    listen with a backlog of 128. */
module Sockets {
  import opened Config
  import opened Effects

  const ListenBacklog: nat := 128

  function StepsOf(trace: seq<Op>): seq<SocketStep>
    requires forall i | 0 <= i < |trace| :: trace[i].Socket?
  {
    seq(|trace|, i requires 0 <= i < |trace| => trace[i].step)
  }

  /** The socket calls of `build_tcp_listener` / `build_udp_socket` when all
      of them succeed. */
  function SocketPlan(t: SocketType, ip: IpAddr, port: u16): seq<Op> {
    [Socket(t, ip, port, Create)]
    + (if ip.V6? then [Socket(t, ip, port, SetOnlyV6)] else [])
    + [Socket(t, ip, port, SetNonblocking), Socket(t, ip, port, Bind)]
    + (if t == Stream then [Socket(t, ip, port, Listen(ListenBacklog))] else [])
    + [Socket(t, ip, port, Adopt)]
  }

  /** `build_tcp_listener`: each socket call is `?`-propagated. */
  function BuildTcpListener(env: Env, ip: IpAddr, port: u16): (r: Run<()>)
    ensures Executes(env, r, SocketPlan(Stream, ip, port))
    ensures r.result.Err? ==> r.result.error.OpFailed? && r.result.error.op.Socket?
  {
    SocketFailure(env, Stream, ip, port);
    CallAll(env, SocketPlan(Stream, ip, port))
  }

  /** `build_udp_socket` */
  function BuildUdpSocket(env: Env, ip: IpAddr, port: u16): (r: Run<()>)
    ensures Executes(env, r, SocketPlan(Dgram, ip, port))
    ensures r.result.Err? ==> r.result.error.OpFailed? && r.result.error.op.Socket?
  {
    SocketFailure(env, Dgram, ip, port);
    CallAll(env, SocketPlan(Dgram, ip, port))
  }

  /** A failing socket call chain reports one of its socket calls. */
  lemma SocketFailure(env: Env, t: SocketType, ip: IpAddr, port: u16)
    ensures var r := CallAll(env, SocketPlan(t, ip, port));
      r.result.Err? ==> r.result.error.OpFailed? && r.result.error.op.Socket?
  {
    var plan := SocketPlan(t, ip, port);
    var r := CallAll(env, plan);
    if r.result.Err? {
      AttemptPrefix(env, plan);
      PlanDiscipline(t, ip, port);
      assert r.trace[|r.trace| - 1] == plan[|r.trace| - 1];
    }
  }

  /** The dual-stack discipline of a socket's calls, in order:
      created first; an IPv6 socket made IPv6-only before any other call, an
      IPv4 socket never; every bind preceded by setting non-blocking, and no
      non-blocking call after a bind; `listen(128)` only on a
      stream socket and only right after bind. */
  predicate SocketDiscipline(trace: seq<Op>, t: SocketType, ip: IpAddr, port: u16) {
    && (forall i | 0 <= i < |trace| :: trace[i].Socket? && trace[i].socketType == t && trace[i].addr == ip && trace[i].port == port)
    && (|trace| > 0 ==> trace[0].step == Create)
    && (ip.V4? ==> forall i | 0 <= i < |trace| :: trace[i].step != SetOnlyV6)
    && (ip.V6? && |trace| > 1 ==> trace[1].step == SetOnlyV6)
    && (forall i | 0 <= i < |trace| && trace[i].step == Bind :: exists j | 0 <= j < i :: trace[j].step == SetNonblocking)
    && (forall i, j | 0 <= i < |trace| && 0 <= j < |trace| && trace[i].step == Bind && trace[j].step == SetNonblocking :: j < i)
    && (forall i | 0 <= i < |trace| && trace[i].step.Listen? ::
          t == Stream && trace[i].step.backlog == ListenBacklog && 0 < i && trace[i - 1].step == Bind)
  }

  lemma PlanDiscipline(t: SocketType, ip: IpAddr, port: u16)
    ensures SocketDiscipline(SocketPlan(t, ip, port), t, ip, port)
  {
    if ip.V4? && t == Dgram {
      V4DatagramDiscipline(ip, port);
    } else if ip.V4? {
      V4StreamDiscipline(ip, port);
    } else if t == Dgram {
      V6DatagramDiscipline(ip, port);
    } else {
      V6StreamDiscipline(ip, port);
    }
  }

  lemma V4DatagramDiscipline(ip: IpAddr, port: u16)
    requires ip.V4?
    ensures SocketDiscipline(SocketPlan(Dgram, ip, port), Dgram, ip, port)
  {
    var plan := SocketPlan(Dgram, ip, port);
    assert plan == [Socket(Dgram, ip, port, Create), Socket(Dgram, ip, port, SetNonblocking),
                    Socket(Dgram, ip, port, Bind), Socket(Dgram, ip, port, Adopt)];
    forall i | 0 <= i < |plan| && plan[i].step == Bind ensures exists j | 0 <= j < i :: plan[j].step == SetNonblocking {
      assert i == 2 && plan[1].step == SetNonblocking;
    }
  }

  lemma V4StreamDiscipline(ip: IpAddr, port: u16)
    requires ip.V4?
    ensures SocketDiscipline(SocketPlan(Stream, ip, port), Stream, ip, port)
  {
    var plan := SocketPlan(Stream, ip, port);
    assert plan == [Socket(Stream, ip, port, Create), Socket(Stream, ip, port, SetNonblocking),
                    Socket(Stream, ip, port, Bind), Socket(Stream, ip, port, Listen(ListenBacklog)),
                    Socket(Stream, ip, port, Adopt)];
    forall i | 0 <= i < |plan| && plan[i].step == Bind ensures exists j | 0 <= j < i :: plan[j].step == SetNonblocking {
      assert i == 2 && plan[1].step == SetNonblocking;
    }
  }

  lemma V6DatagramDiscipline(ip: IpAddr, port: u16)
    requires ip.V6?
    ensures SocketDiscipline(SocketPlan(Dgram, ip, port), Dgram, ip, port)
  {
    var plan := SocketPlan(Dgram, ip, port);
    assert plan == [Socket(Dgram, ip, port, Create), Socket(Dgram, ip, port, SetOnlyV6),
                    Socket(Dgram, ip, port, SetNonblocking), Socket(Dgram, ip, port, Bind),
                    Socket(Dgram, ip, port, Adopt)];
    forall i | 0 <= i < |plan| && plan[i].step == Bind ensures exists j | 0 <= j < i :: plan[j].step == SetNonblocking {
      assert i == 3 && plan[2].step == SetNonblocking;
    }
  }

  lemma V6StreamDiscipline(ip: IpAddr, port: u16)
    requires ip.V6?
    ensures SocketDiscipline(SocketPlan(Stream, ip, port), Stream, ip, port)
  {
    var plan := SocketPlan(Stream, ip, port);
    assert plan == [Socket(Stream, ip, port, Create), Socket(Stream, ip, port, SetOnlyV6),
                    Socket(Stream, ip, port, SetNonblocking), Socket(Stream, ip, port, Bind),
                    Socket(Stream, ip, port, Listen(ListenBacklog)), Socket(Stream, ip, port, Adopt)];
    forall i | 0 <= i < |plan| && plan[i].step == Bind ensures exists j | 0 <= j < i :: plan[j].step == SetNonblocking {
      assert i == 3 && plan[2].step == SetNonblocking;
    }
  }

  lemma DisciplinePrefix(a: seq<Op>, b: seq<Op>, t: SocketType, ip: IpAddr, port: u16)
    requires a <= b && SocketDiscipline(b, t, ip, port)
    ensures SocketDiscipline(a, t, ip, port)
  {
    forall i | 0 <= i < |a| ensures a[i] == b[i] { }
    forall i | 0 <= i < |a| && a[i].step == Bind ensures exists j | 0 <= j < i :: a[j].step == SetNonblocking {
      var j :| 0 <= j < i && b[j].step == SetNonblocking;
      assert a[j] == b[j];
    }
  }

  /** Whatever the outcome of each call, a TCP listener's calls keep the
      discipline, and it is complete (bound and listening) when it succeeds. */
  lemma TcpListenerSteps(env: Env, ip: IpAddr, port: u16)
    ensures var r := BuildTcpListener(env, ip, port);
      && SocketDiscipline(r.trace, Stream, ip, port)
      && (r.result.Ok? ==> r.trace == SocketPlan(Stream, ip, port))
      && (r.result.Ok? ==> Socket(Stream, ip, port, Listen(ListenBacklog)) in r.trace)
      && (ip.V6? && |r.trace| > 1 ==> r.trace[1] == Socket(Stream, ip, port, SetOnlyV6))
  {
    var plan := SocketPlan(Stream, ip, port);
    AttemptPrefix(env, plan);
    PlanDiscipline(Stream, ip, port);
    DisciplinePrefix(BuildTcpListener(env, ip, port).trace, plan, Stream, ip, port);
    if BuildTcpListener(env, ip, port).result.Ok? { AttemptAll(env, plan); }
  }

  /** Likewise for a UDP socket, which never listens. */
  lemma UdpSocketSteps(env: Env, ip: IpAddr, port: u16)
    ensures var r := BuildUdpSocket(env, ip, port);
      && SocketDiscipline(r.trace, Dgram, ip, port)
      && (forall i | 0 <= i < |r.trace| :: !r.trace[i].step.Listen?)
      && (r.result.Ok? ==> r.trace == SocketPlan(Dgram, ip, port))
      && (ip.V6? && |r.trace| > 1 ==> r.trace[1] == Socket(Dgram, ip, port, SetOnlyV6))
  {
    var plan := SocketPlan(Dgram, ip, port);
    AttemptPrefix(env, plan);
    PlanDiscipline(Dgram, ip, port);
    DisciplinePrefix(BuildUdpSocket(env, ip, port).trace, plan, Dgram, ip, port);
    if BuildUdpSocket(env, ip, port).result.Ok? { AttemptAll(env, plan); }
  }
}
