/** The external operations the startup logic asks for, the environment that
    decides their outcomes, and the run datatype every step returns: a result
    together with the trace of operations issued, in order. */
module Effects {
  import opened Config

  /** What an authority constructor is given, per backend kind. */
  datatype Backend =
    | FileBackend(file: FileConfig, axfrAllowed: bool, zoneDir: string)
    | SqliteBackend(sqlite: SqliteConfig, axfrAllowed: bool, dnssecEnabled: bool, zoneDir: string)
    | ForwardBackend(forward: ForwardConfig)
    | RecursorBackend(recursor: RecursiveConfig, zoneDir: string)
    | BlocklistBackend(blocklist: BlocklistConfig, zoneDir: string)

  datatype AuthorityRequest = AuthorityRequest(zone: Name, zoneType: ZoneType, backend: Backend)

  /** A constructed authority. Constructors are uninterpreted, so a handle is
      identified by the request that built it. */
  datatype Authority = Authority(request: AuthorityRequest)

  datatype Transport = Udp | Tcp | Tls | Https | Quic

  datatype SocketType = Stream | Dgram

  /** The calls made on a raw socket; `Adopt` hands it to the async runtime. */
  datatype SocketStep = Create | SetOnlyV6 | SetNonblocking | Bind | Listen(backlog: nat) | Adopt

  /** A listener as registered with the server engine. */
  datatype Listener = Listener(
    transport: Transport,
    addr: IpAddr,
    port: u16,
    timeout: Option<nat>,
    cert: Option<TlsCertConfig>,
    endpointName: Option<string>,
    httpEndpoint: Option<string>)

  datatype Warning =
    | AllowUpdateDeprecated
    | IgnoringZoneFile
    | SqliteFormDeprecated
    | NoListenAddresses(transport: Transport)

  datatype Op =
    | Warn(warning: Warning)
    | NewAuthority(request: AuthorityRequest)
    | LoadSigner(key: KeyConfig, zone: Name)
    | AddZoneSigningKey(authority: Authority, key: KeyConfig)
    | DerivePublicKey(key: KeyConfig, zone: Name)
    | AddUpdateAuthKey(authority: Authority, zone: Name, key: KeyConfig)
    | SecureZone(authority: Authority)
    | Socket(socketType: SocketType, addr: IpAddr, port: u16, step: SocketStep)
    | LocalAddr(socketType: SocketType, addr: IpAddr, port: u16)
    | LoadCert(zoneDir: string, cert: TlsCertConfig)
    | Register(listener: Listener)
    | LookupUser(user: string)
    | LookupGroup(group: string)
    | SetGid(gid: u32)
    | SetUid(uid: u32)

  /** Logging, user/group lookups (whose "not found" is a result, not a
      failure) and registering a plain UDP socket or TCP listener cannot fail. */
  predicate Fallible(op: Op) {
    match op
    case Warn(_) => false
    case LookupUser(_) => false
    case LookupGroup(_) => false
    case Register(l) => l.transport != Udp && l.transport != Tcp
    case _ => true
  }

  /** The outside world: the set of operations that report failure. */
  datatype Env = Env(failing: set<Op>)

  predicate Succeeds(env: Env, op: Op) {
    !Fallible(op) || op !in env.failing
  }

  predicate AllSucceed(env: Env, trace: seq<Op>) {
    forall i | 0 <= i < |trace| :: Succeeds(env, trace[i])
  }

  datatype Error =
    | ZoneNameUnreadable
    | MissingZoneFile
    | OpFailed(op: Op)
    | BindFailed(transport: Transport, addr: IpAddr, cause: Error)
    | ZoneLoadFailed(zone: Name, cause: Error)
    | Ipv4AddrsUnreadable
    | Ipv6AddrsUnreadable
    | UserNameHasNul(user: string)
    | GroupNameHasNul(group: string)
    | UnknownUser(user: string)
    | UnknownGroup(group: string)
    | SetGidFailed
    | SetUidFailed

  datatype Result<T> = Ok(value: T) | Err(error: Error)

  datatype Run<T> = Run(trace: seq<Op>, result: Result<T>)

  /** Every operation succeeded, or the run failed and only its last operation
      may have failed: nothing is issued after a failure, and no failure is
      ignored. */
  predicate StopsAtFirstFailure<T>(env: Env, r: Run<T>) {
    || AllSucceed(env, r.trace)
    || (r.result.Err? && |r.trace| > 0 && AllSucceed(env, r.trace[..|r.trace| - 1]))
  }

  const Done: Run<()> := Run([], Ok(()))

  /** Issue one operation. */
  function Call(env: Env, op: Op): (r: Run<()>)
    ensures r.trace == [op]
    ensures r.result.Ok? <==> Succeeds(env, op)
    ensures r.result.Err? ==> r.result.error == OpFailed(op)
  {
    if Succeeds(env, op) then Run([op], Ok(())) else Run([op], Err(OpFailed(op)))
  }

  /** Run `first`, then `next` only if `first` succeeded (Rust's `?`). */
  function Seq<T>(first: Run<()>, next: Run<T>): (r: Run<T>)
    ensures first.result.Err? ==> r.trace == first.trace && r.result == Err(first.result.error)
    ensures first.result.Ok? ==> r.trace == first.trace + next.trace && r.result == next.result
  {
    if first.result.Err? then Run(first.trace, Err(first.result.error))
    else Run(first.trace + next.trace, next.result)
  }

  /** Infallible operations (warnings) issued before a run. */
  function Prefix<T>(ops: seq<Op>, r: Run<T>): Run<T> {
    Run(ops + r.trace, r.result)
  }

  /** The same run, with its error (if any) wrapped by `wrap`. */
  function MapErr<T>(r: Run<T>, wrap: Error -> Error): (r': Run<T>)
    ensures r'.trace == r.trace && r'.result.Ok? == r.result.Ok?
  {
    match r.result
    case Ok(_) => r
    case Err(e) => Run(r.trace, Err(wrap(e)))
  }

  lemma AllSucceedAppend(env: Env, a: seq<Op>, b: seq<Op>)
    ensures AllSucceed(env, a + b) <==> AllSucceed(env, a) && AllSucceed(env, b)
  {
    if AllSucceed(env, a) && AllSucceed(env, b) {
      forall i | 0 <= i < |a + b| ensures Succeeds(env, (a + b)[i]) {
        if i >= |a| { assert (a + b)[i] == b[i - |a|]; }
      }
    }
    if AllSucceed(env, a + b) {
      forall i | 0 <= i < |a| ensures Succeeds(env, a[i]) {
        assert (a + b)[i] == a[i];
      }
      forall i | 0 <= i < |b| ensures Succeeds(env, b[i]) {
        assert (a + b)[|a| + i] == b[i];
      }
    }
  }

  /** Sequencing keeps the stop-at-first-failure discipline. */
  lemma SeqStops<T>(env: Env, first: Run<()>, next: Run<T>)
    requires StopsAtFirstFailure(env, first)
    requires first.result.Ok? ==> StopsAtFirstFailure(env, next)
    ensures StopsAtFirstFailure(env, Seq(first, next))
  {
    if first.result.Ok? {
      var t := first.trace + next.trace;
      AllSucceedAppend(env, first.trace, next.trace);
      if !AllSucceed(env, next.trace) {
        assert t[..|t| - 1] == first.trace + next.trace[..|next.trace| - 1];
        AllSucceedAppend(env, first.trace, next.trace[..|next.trace| - 1]);
      }
    }
  }

  /** Warnings never fail, so prefixing them keeps the discipline. */
  lemma PrefixStops<T>(env: Env, ops: seq<Op>, r: Run<T>)
    requires forall i | 0 <= i < |ops| :: ops[i].Warn?
    requires StopsAtFirstFailure(env, r)
    ensures StopsAtFirstFailure(env, Prefix(ops, r))
  {
    assert AllSucceed(env, ops);
    AllSucceedAppend(env, ops, r.trace);
    if !AllSucceed(env, r.trace) {
      assert (ops + r.trace)[..|ops + r.trace| - 1] == ops + r.trace[..|r.trace| - 1];
      AllSucceedAppend(env, ops, r.trace[..|r.trace| - 1]);
    }
  }

  /** The operations issued when `plan` is carried out in order and abandoned
      at its first failing operation (that operation included). */
  function Attempt(env: Env, plan: seq<Op>): (t: seq<Op>)
    ensures |t| <= |plan|
  {
    if |plan| == 0 then []
    else if Succeeds(env, plan[0]) then [plan[0]] + Attempt(env, plan[1..])
    else [plan[0]]
  }

  /** `r` carries out `plan` with stop-at-first-failure semantics, and
      succeeds exactly when every operation of the plan succeeds. */
  predicate Executes<T>(env: Env, r: Run<T>, plan: seq<Op>) {
    r.trace == Attempt(env, plan) && (r.result.Ok? <==> AllSucceed(env, plan))
  }

  lemma {:induction false} AttemptAll(env: Env, plan: seq<Op>)
    requires AllSucceed(env, plan)
    ensures Attempt(env, plan) == plan
    decreases |plan|
  {
    if |plan| > 0 {
      assert Succeeds(env, plan[0]);
      AttemptAll(env, plan[1..]);
    }
  }

  lemma {:induction false} AttemptPrefix(env: Env, plan: seq<Op>)
    ensures Attempt(env, plan) <= plan
    ensures !AllSucceed(env, plan) ==> |Attempt(env, plan)| > 0
    decreases |plan|
  {
    if |plan| > 0 && Succeeds(env, plan[0]) {
      AttemptPrefix(env, plan[1..]);
      if !AllSucceed(env, plan) {
        var i :| 0 <= i < |plan| && !Succeeds(env, plan[i]);
        assert plan[1..][i - 1] == plan[i];
      }
    }
  }

  /** Carrying out `a + b` is carrying out `a`, then `b` only if all of `a`
      succeeded. */
  lemma {:induction false} AttemptAppend(env: Env, a: seq<Op>, b: seq<Op>)
    ensures Attempt(env, a + b) == if AllSucceed(env, a) then a + Attempt(env, b) else Attempt(env, a)
    decreases |a|
  {
    if |a| == 0 {
      assert a + b == b;
    } else {
      assert (a + b)[0] == a[0];
      assert (a + b)[1..] == a[1..] + b;
      if Succeeds(env, a[0]) {
        AttemptAppend(env, a[1..], b);
        AllSucceedTail(env, a);
      } else {
        assert !AllSucceed(env, a);
      }
    }
  }

  lemma AllSucceedTail(env: Env, a: seq<Op>)
    requires |a| > 0
    ensures AllSucceed(env, a) <==> Succeeds(env, a[0]) && AllSucceed(env, a[1..])
  {
    assert a == [a[0]] + a[1..];
    AllSucceedAppend(env, [a[0]], a[1..]);
  }

  /** A run that carries out a plan stops at its first failure. */
  lemma {:induction false} ExecutesStops<T>(env: Env, r: Run<T>, plan: seq<Op>)
    requires Executes(env, r, plan)
    ensures StopsAtFirstFailure(env, r)
    decreases |plan|
  {
    if |plan| > 0 {
      AllSucceedTail(env, plan);
      if Succeeds(env, plan[0]) {
        var tail := Run(Attempt(env, plan[1..]), r.result);
        ExecutesStops(env, tail, plan[1..]);
        AllSucceedAppend(env, [plan[0]], tail.trace);
        if !AllSucceed(env, tail.trace) {
          assert r.trace[..|r.trace| - 1] == [plan[0]] + tail.trace[..|tail.trace| - 1];
          AllSucceedAppend(env, [plan[0]], tail.trace[..|tail.trace| - 1]);
        }
      } else {
        assert r.trace[..|r.trace| - 1] == [];
      }
    }
  }

  lemma CallExecutes(env: Env, op: Op)
    ensures Executes(env, Call(env, op), [op])
  {
    assert [op][1..] == [];
  }

  /** Sequencing two runs carries out the concatenation of their plans. */
  lemma SeqExecutes<T>(env: Env, first: Run<()>, p: seq<Op>, next: Run<T>, q: seq<Op>)
    requires Executes(env, first, p) && Executes(env, next, q)
    ensures Executes(env, Seq(first, next), p + q)
  {
    AttemptAppend(env, p, q);
    AllSucceedAppend(env, p, q);
    if AllSucceed(env, p) { AttemptAll(env, p); }
  }

  /** Issuing `op` and then, if it succeeded, `r`. */
  lemma CallThen<T>(env: Env, op: Op, r: Run<T>, plan: seq<Op>)
    requires Executes(env, r, plan)
    ensures Executes(env, Seq(Call(env, op), r), [op] + plan)
  {
    CallExecutes(env, op);
    SeqExecutes(env, Call(env, op), [op], r, plan);
  }

  /** Three runs in sequence carry out the concatenation of their plans. */
  lemma Seq3Executes<T>(env: Env, a: Run<()>, p: seq<Op>, b: Run<()>, q: seq<Op>, c: Run<T>, s: seq<Op>)
    requires Executes(env, a, p) && Executes(env, b, q) && Executes(env, c, s)
    ensures Executes(env, Seq(a, Seq(b, c)), p + q + s)
  {
    SeqExecutes(env, b, q, c, s);
    SeqExecutes(env, a, p, Seq(b, c), q + s);
    assert p + (q + s) == p + q + s;
  }

  /** Wrapping the error does not change what was carried out. */
  lemma MapErrExecutes<T>(env: Env, r: Run<T>, wrap: Error -> Error, plan: seq<Op>)
    requires Executes(env, r, plan)
    ensures Executes(env, MapErr(r, wrap), plan)
  {
  }

  lemma DoneExecutes(env: Env)
    ensures Executes(env, Done, [])
  {
  }

  /** Issuing `ops` one after the other, each only if all before it
      succeeded (a chain of `?`-propagated calls). */
  function CallAll(env: Env, ops: seq<Op>): (r: Run<()>)
    ensures Executes(env, r, ops)
    ensures r.result.Err? ==> |r.trace| > 0 && r.result.error == OpFailed(r.trace[|r.trace| - 1])
    decreases |ops|
  {
    if |ops| == 0 then Done
    else
      var rest := CallAll(env, ops[1..]);
      CallThen(env, ops[0], rest, ops[1..]);
      assert [ops[0]] + ops[1..] == ops;
      Seq(Call(env, ops[0]), rest)
  }

  /** Warnings issued before a run are carried out first and never fail. */
  lemma PrefixExecutes<T>(env: Env, ws: seq<Op>, r: Run<T>, plan: seq<Op>)
    requires forall i | 0 <= i < |ws| :: ws[i].Warn?
    requires Executes(env, r, plan)
    ensures Executes(env, Prefix(ws, r), ws + plan)
  {
    assert AllSucceed(env, ws);
    AttemptAppend(env, ws, plan);
    AllSucceedAppend(env, ws, plan);
    AttemptAll(env, ws);
  }

  /** The three phases of startup, in the order they run: loading zones,
      bringing up listeners, dropping privileges. */
  const ZonePhase: nat := 0
  const ListenPhase: nat := 1
  const PrivilegePhase: nat := 2

  function Phase(op: Op): nat {
    match op
    case Warn(w) => if w.NoListenAddresses? then ListenPhase else ZonePhase
    case NewAuthority(_) => ZonePhase
    case LoadSigner(_, _) => ZonePhase
    case AddZoneSigningKey(_, _) => ZonePhase
    case DerivePublicKey(_, _) => ZonePhase
    case AddUpdateAuthKey(_, _, _) => ZonePhase
    case SecureZone(_) => ZonePhase
    case Socket(_, _, _, _) => ListenPhase
    case LocalAddr(_, _, _) => ListenPhase
    case LoadCert(_, _) => ListenPhase
    case Register(_) => ListenPhase
    case LookupUser(_) => PrivilegePhase
    case LookupGroup(_) => PrivilegePhase
    case SetGid(_) => PrivilegePhase
    case SetUid(_) => PrivilegePhase
  }

  predicate InPhase(trace: seq<Op>, phase: nat) {
    forall i | 0 <= i < |trace| :: Phase(trace[i]) == phase
  }

  lemma InPhaseAppend(a: seq<Op>, b: seq<Op>, phase: nat)
    requires InPhase(a, phase) && InPhase(b, phase)
    ensures InPhase(a + b, phase)
  {
    forall i | 0 <= i < |a + b| ensures Phase((a + b)[i]) == phase {
      if i >= |a| { assert (a + b)[i] == b[i - |a|]; }
    }
  }

  /** A run carries out a prefix of its plan, so it stays in the plan's phase. */
  lemma ExecutesInPhase<T>(env: Env, r: Run<T>, plan: seq<Op>, phase: nat)
    requires Executes(env, r, plan) && InPhase(plan, phase)
    ensures InPhase(r.trace, phase)
  {
    AttemptPrefix(env, plan);
  }

  /** The listeners registered with the engine, in registration order. */
  function Registered(trace: seq<Op>): (ls: seq<Listener>)
    ensures |ls| <= |trace|
  {
    if |trace| == 0 then []
    else (if trace[0].Register? then [trace[0].listener] else []) + Registered(trace[1..])
  }

  lemma {:induction false} RegisteredAppend(a: seq<Op>, b: seq<Op>)
    ensures Registered(a + b) == Registered(a) + Registered(b)
    decreases |a|
  {
    if |a| == 0 {
      assert a + b == b;
    } else {
      var head := if a[0].Register? then [a[0].listener] else [];
      assert (a + b)[0] == a[0];
      assert (a + b)[1..] == a[1..] + b;
      assert Registered(a + b) == head + Registered(a[1..] + b);
      RegisteredAppend(a[1..], b);
      assert Registered(a) == head + Registered(a[1..]);
    }
  }

  lemma RegisteredNone(trace: seq<Op>)
    requires forall i | 0 <= i < |trace| :: !trace[i].Register?
    ensures Registered(trace) == []
    decreases |trace|
  {
    if |trace| > 0 { RegisteredNone(trace[1..]); }
  }
}
