/** The startup sequence of `run`: load every zone into the catalog, compute
    the listen addresses, stop there when only validating, otherwise bring up
    the listeners and then drop privileges. */
module Startup {
  import opened Config
  import opened Effects
  import opened Zones
  import opened Transports
  import opened Privileges

  function LowerChar(c: char): char {
    if 'A' <= c <= 'Z' then (c as int + 32) as char else c
  }

  /** The catalog key of a zone name: the name with ASCII letters lower-cased. */
  function LowerName(n: Name): Name {
    seq(|n|, i requires 0 <= i < |n| => LowerChar(n[i]))
  }

  /** Zone authorities by lower-cased zone name. */
  type Catalog = map<Name, seq<Authority>>

  /** A zone entry loads when its name parses and `load_zone` succeeds. */
  predicate Loads(f: Features, env: Env, zoneDir: string, zc: ZoneConfig) {
    zc.zone.Some? && LoadZone(f, env, zoneDir, zc).result.Ok?
  }

  /** The error `run` reports for a zone entry that does not load. */
  function ZoneError(f: Features, env: Env, zoneDir: string, zc: ZoneConfig): Error
    requires !Loads(f, env, zoneDir, zc)
  {
    match zc.zone
    case None => ZoneNameUnreadable
    case Some(name) => ZoneLoadFailed(name, LoadZone(f, env, zoneDir, zc).result.error)
  }

  predicate AllLoad(f: Features, env: Env, zoneDir: string, zones: seq<ZoneConfig>) {
    forall i | 0 <= i < |zones| :: Loads(f, env, zoneDir, zones[i])
  }

  /** Zone `k` is the first that does not load, and `e` is what is reported. */
  predicate FirstFailure(f: Features, env: Env, zoneDir: string, zones: seq<ZoneConfig>, k: nat, e: Error) {
    && k < |zones|
    && (forall j | 0 <= j < k :: Loads(f, env, zoneDir, zones[j]))
    && !Loads(f, env, zoneDir, zones[k])
    && e == ZoneError(f, env, zoneDir, zones[k])
  }

  /** The catalog key of a zone entry whose name parses. */
  function KeyOf(zc: ZoneConfig): Name
    requires zc.zone.Some?
  {
    LowerName(zc.zone.value)
  }

  function ZoneKeys(zones: seq<ZoneConfig>): set<Name> {
    set i | 0 <= i < |zones| && zones[i].zone.Some? :: KeyOf(zones[i])
  }

  /** Whether no entry after `i` has the same catalog key. */
  predicate LastWithKey(zones: seq<ZoneConfig>, i: nat)
    requires i < |zones| && zones[i].zone.Some?
  {
    forall j | i < j < |zones| && zones[j].zone.Some? :: KeyOf(zones[j]) != KeyOf(zones[i])
  }

  /** The zone loop of `run`: each zone in turn is loaded and upserted under
      its name, replacing an earlier entry of the same name; the first zone
      whose name does not parse or that fails to load stops startup. */
  function LoadCatalog(f: Features, env: Env, zoneDir: string, zones: seq<ZoneConfig>, cat: Catalog): (r: Run<Catalog>)
    ensures StopsAtFirstFailure(env, r)
    ensures InPhase(r.trace, ZonePhase)
    ensures r.result.Ok? <==> AllLoad(f, env, zoneDir, zones)
    ensures r.result.Err? ==> exists k: nat :: FirstFailure(f, env, zoneDir, zones, k, r.result.error)
    decreases |zones|
  {
    if |zones| == 0 then Run([], Ok(cat))
    else match zones[0].zone
      case None =>
        assert FirstFailure(f, env, zoneDir, zones, 0, ZoneNameUnreadable);
        Run([], Err(ZoneNameUnreadable))
      case Some(name) =>
        var z := LoadZone(f, env, zoneDir, zones[0]);
        match z.result
        case Err(e) =>
          assert FirstFailure(f, env, zoneDir, zones, 0, ZoneLoadFailed(name, e));
          Run(z.trace, Err(ZoneLoadFailed(name, e)))
        case Ok(auths) =>
          var rest := LoadCatalog(f, env, zoneDir, zones[1..], cat[LowerName(name) := auths]);
          CatalogCons(f, env, zoneDir, zones, z.trace, rest);
          Run(z.trace + rest.trace, rest.result)
  }

  /** A turn of the zone loop after the first zone loaded: what the loop
      promises of the remaining zones it promises of all of them. */
  lemma CatalogCons(f: Features, env: Env, zoneDir: string, zones: seq<ZoneConfig>, first: seq<Op>, rest: Run<Catalog>)
    requires |zones| > 0 && Loads(f, env, zoneDir, zones[0])
    requires first == LoadZone(f, env, zoneDir, zones[0]).trace
    requires StopsAtFirstFailure(env, rest)
    requires InPhase(rest.trace, ZonePhase)
    requires rest.result.Ok? <==> AllLoad(f, env, zoneDir, zones[1..])
    requires rest.result.Err? ==> exists k: nat :: FirstFailure(f, env, zoneDir, zones[1..], k, rest.result.error)
    ensures var r := Run(first + rest.trace, rest.result);
      && StopsAtFirstFailure(env, r)
      && InPhase(r.trace, ZonePhase)
      && (r.result.Ok? <==> AllLoad(f, env, zoneDir, zones))
      && (r.result.Err? ==> exists k: nat :: FirstFailure(f, env, zoneDir, zones, k, r.result.error))
  {
    var z := LoadZone(f, env, zoneDir, zones[0]);
    assert z.result.Ok? && StopsAtFirstFailure(env, z) && InPhase(first, ZonePhase);
    SeqStops(env, Run(first, Ok(())), rest);
    InPhaseAppend(first, rest.trace, ZonePhase);
    AllLoadCons(f, env, zoneDir, zones);
    if rest.result.Err? {
      var k: nat :| FirstFailure(f, env, zoneDir, zones[1..], k, rest.result.error);
      FirstFailureShift(f, env, zoneDir, zones, k, rest.result.error);
    }
  }

  lemma AllLoadCons(f: Features, env: Env, zoneDir: string, zones: seq<ZoneConfig>)
    requires |zones| > 0
    ensures AllLoad(f, env, zoneDir, zones) <==> Loads(f, env, zoneDir, zones[0]) && AllLoad(f, env, zoneDir, zones[1..])
  {
    if Loads(f, env, zoneDir, zones[0]) && AllLoad(f, env, zoneDir, zones[1..]) {
      forall i | 0 <= i < |zones| ensures Loads(f, env, zoneDir, zones[i]) {
        if i > 0 { assert zones[i] == zones[1..][i - 1]; }
      }
    }
  }

  lemma FirstFailureShift(f: Features, env: Env, zoneDir: string, zones: seq<ZoneConfig>, k: nat, e: Error)
    requires |zones| > 0 && Loads(f, env, zoneDir, zones[0])
    requires FirstFailure(f, env, zoneDir, zones[1..], k, e)
    ensures FirstFailure(f, env, zoneDir, zones, k + 1, e)
  {
    forall j | 0 <= j < k + 1 ensures Loads(f, env, zoneDir, zones[j]) {
      if j > 0 { assert zones[j] == zones[1..][j - 1]; }
    }
  }

  lemma ZoneKeysCons(zones: seq<ZoneConfig>)
    requires |zones| > 0 && zones[0].zone.Some?
    ensures ZoneKeys(zones) == {KeyOf(zones[0])} + ZoneKeys(zones[1..])
  {
    forall key | key in ZoneKeys(zones) ensures key in {KeyOf(zones[0])} + ZoneKeys(zones[1..]) {
      var i :| 0 <= i < |zones| && zones[i].zone.Some? && KeyOf(zones[i]) == key;
      if i > 0 { assert zones[1..][i - 1] == zones[i]; }
    }
    forall key | key in ZoneKeys(zones[1..]) ensures key in ZoneKeys(zones) {
      var i :| 0 <= i < |zones[1..]| && zones[1..][i].zone.Some? && KeyOf(zones[1..][i]) == key;
      assert zones[i + 1] == zones[1..][i];
    }
  }

  /** One turn of the zone loop when every zone loads: the first zone is
      upserted, and the loop goes on with the others. */
  lemma CatalogStep(f: Features, env: Env, zoneDir: string, zones: seq<ZoneConfig>, cat: Catalog)
    requires |zones| > 0 && AllLoad(f, env, zoneDir, zones)
    ensures zones[0].zone.Some? && AllLoad(f, env, zoneDir, zones[1..])
    ensures LoadCatalog(f, env, zoneDir, zones, cat).result
         == LoadCatalog(f, env, zoneDir, zones[1..],
                        cat[KeyOf(zones[0]) := LoadZone(f, env, zoneDir, zones[0]).result.value]).result
  {
    AllLoadCons(f, env, zoneDir, zones);
  }

  /** The catalog holds the keys it started with and the key of every zone. */
  lemma {:induction false} CatalogKeys(f: Features, env: Env, zoneDir: string, zones: seq<ZoneConfig>, cat: Catalog)
    requires AllLoad(f, env, zoneDir, zones)
    ensures LoadCatalog(f, env, zoneDir, zones, cat).result.value.Keys == cat.Keys + ZoneKeys(zones)
    decreases |zones|
  {
    if |zones| > 0 {
      CatalogStep(f, env, zoneDir, zones, cat);
      ZoneKeysCons(zones);
      var cat' := cat[KeyOf(zones[0]) := LoadZone(f, env, zoneDir, zones[0]).result.value];
      CatalogKeys(f, env, zoneDir, zones[1..], cat');
    }
  }

  /** A key no zone has keeps its value. */
  lemma {:induction false} CatalogKeepsOthers(f: Features, env: Env, zoneDir: string, zones: seq<ZoneConfig>, cat: Catalog, key: Name)
    requires AllLoad(f, env, zoneDir, zones)
    requires key in cat && key !in ZoneKeys(zones)
    ensures var m := LoadCatalog(f, env, zoneDir, zones, cat).result.value;
      key in m && m[key] == cat[key]
    decreases |zones|
  {
    if |zones| > 0 {
      CatalogStep(f, env, zoneDir, zones, cat);
      ZoneKeysCons(zones);
      var cat' := cat[KeyOf(zones[0]) := LoadZone(f, env, zoneDir, zones[0]).result.value];
      CatalogKeepsOthers(f, env, zoneDir, zones[1..], cat', key);
    }
  }

  /** A zone's key maps to that zone's authorities unless a later zone has the
      same key: the last upsert wins. */
  lemma {:induction false} CatalogLastWins(f: Features, env: Env, zoneDir: string, zones: seq<ZoneConfig>, cat: Catalog, i: nat)
    requires AllLoad(f, env, zoneDir, zones)
    requires i < |zones| && LastWithKey(zones, i)
    ensures var m := LoadCatalog(f, env, zoneDir, zones, cat).result.value;
      KeyOf(zones[i]) in m && LoadZone(f, env, zoneDir, zones[i]).result == Ok(m[KeyOf(zones[i])])
    decreases |zones|
  {
    CatalogStep(f, env, zoneDir, zones, cat);
    var tail := zones[1..];
    var cat' := cat[KeyOf(zones[0]) := LoadZone(f, env, zoneDir, zones[0]).result.value];
    if i == 0 {
      forall j | 0 <= j < |tail| && tail[j].zone.Some? ensures KeyOf(tail[j]) != KeyOf(zones[0]) {
        assert tail[j] == zones[j + 1];
      }
      CatalogKeepsOthers(f, env, zoneDir, tail, cat', KeyOf(zones[0]));
    } else {
      assert tail[i - 1] == zones[i];
      forall j | i - 1 < j < |tail| && tail[j].zone.Some? ensures KeyOf(tail[j]) != KeyOf(tail[i - 1]) {
        assert tail[j] == zones[j + 1];
      }
      CatalogLastWins(f, env, zoneDir, tail, cat', i - 1);
    }
  }

  /** What loading one zone entry issues: nothing when its name does not
      parse, otherwise the operations of `load_zone`. */
  function ZoneTrace(f: Features, env: Env, zoneDir: string, zc: ZoneConfig): seq<Op> {
    if zc.zone.Some? then LoadZone(f, env, zoneDir, zc).trace else []
  }

  /** The zone entries' operations, one entry after the other. */
  function ZonesTrace(f: Features, env: Env, zoneDir: string, zones: seq<ZoneConfig>): seq<Op>
    decreases |zones|
  {
    if |zones| == 0 then [] else ZoneTrace(f, env, zoneDir, zones[0]) + ZonesTrace(f, env, zoneDir, zones[1..])
  }

  /** When every zone loads, the loop issues each zone's operations in turn. */
  lemma {:induction false} CatalogTraceAllLoad(f: Features, env: Env, zoneDir: string, zones: seq<ZoneConfig>, cat: Catalog)
    requires AllLoad(f, env, zoneDir, zones)
    ensures LoadCatalog(f, env, zoneDir, zones, cat).trace == ZonesTrace(f, env, zoneDir, zones)
    decreases |zones|
  {
    if |zones| > 0 {
      CatalogStep(f, env, zoneDir, zones, cat);
      var cat' := cat[KeyOf(zones[0]) := LoadZone(f, env, zoneDir, zones[0]).result.value];
      CatalogTraceAllLoad(f, env, zoneDir, zones[1..], cat');
    }
  }

  /** When zone `k` is the first that does not load, the loop reports its
      error, and what it issued is exactly the operations of zones `0..k`:
      nothing of any later zone. */
  lemma {:induction false} CatalogStopsAtFailingZone(f: Features, env: Env, zoneDir: string, zones: seq<ZoneConfig>, cat: Catalog, k: nat)
    requires k < |zones|
    requires forall j | 0 <= j < k :: Loads(f, env, zoneDir, zones[j])
    requires !Loads(f, env, zoneDir, zones[k])
    ensures var r := LoadCatalog(f, env, zoneDir, zones, cat);
      && r.result == Err(ZoneError(f, env, zoneDir, zones[k]))
      && r.trace == ZonesTrace(f, env, zoneDir, zones[..k + 1])
    decreases k
  {
    ZonesTraceHead(f, env, zoneDir, zones, k);
    if k == 0 {
      CatalogHeadFails(f, env, zoneDir, zones, cat);
      assert zones[1..][..0] == [];
    } else {
      assert Loads(f, env, zoneDir, zones[0]);
      var cat' := cat[KeyOf(zones[0]) := LoadZone(f, env, zoneDir, zones[0]).result.value];
      CatalogHeadLoads(f, env, zoneDir, zones, cat);
      forall j | 0 <= j < k - 1 ensures Loads(f, env, zoneDir, zones[1..][j]) {
        assert zones[1..][j] == zones[j + 1];
      }
      assert zones[1..][k - 1] == zones[k];
      CatalogStopsAtFailingZone(f, env, zoneDir, zones[1..], cat', k - 1);
    }
  }

  /** The first `m + 1` zones issue the first zone's operations, then what
      the next `m` issue. */
  lemma ZonesTraceHead(f: Features, env: Env, zoneDir: string, zones: seq<ZoneConfig>, m: nat)
    requires m < |zones|
    ensures ZonesTrace(f, env, zoneDir, zones[..m + 1])
         == ZoneTrace(f, env, zoneDir, zones[0]) + ZonesTrace(f, env, zoneDir, zones[1..][..m])
  {
    var head := zones[..m + 1];
    assert head[0] == zones[0] && head[1..] == zones[1..][..m];
  }

  /** The zone loop when its first zone does not load. */
  lemma CatalogHeadFails(f: Features, env: Env, zoneDir: string, zones: seq<ZoneConfig>, cat: Catalog)
    requires 0 < |zones| && !Loads(f, env, zoneDir, zones[0])
    ensures var r := LoadCatalog(f, env, zoneDir, zones, cat);
      r.result == Err(ZoneError(f, env, zoneDir, zones[0])) && r.trace == ZoneTrace(f, env, zoneDir, zones[0])
  {
  }

  /** The zone loop when its first zone loads: that zone's operations, then
      the loop over the others with the zone upserted. */
  lemma CatalogHeadLoads(f: Features, env: Env, zoneDir: string, zones: seq<ZoneConfig>, cat: Catalog)
    requires 0 < |zones| && Loads(f, env, zoneDir, zones[0])
    ensures var r := LoadCatalog(f, env, zoneDir, zones, cat);
      var rest := LoadCatalog(f, env, zoneDir, zones[1..], cat[KeyOf(zones[0]) := LoadZone(f, env, zoneDir, zones[0]).result.value]);
      r.result == rest.result && r.trace == ZoneTrace(f, env, zoneDir, zones[0]) + rest.trace
  {
  }

  /** How startup ends when nothing fails: after validation, or with the
      server about to serve. */
  datatype Outcome = Validated(catalog: Catalog) | Serving(catalog: Catalog)

  /** The zone directory: the command-line one if given, else the configured one. */
  function ZoneDir(cli: Cli, config: ServerConfig): (d: string)
    ensures cli.zonedir.Some? ==> d == cli.zonedir.value
    ensures cli.zonedir.None? ==> d == config.directory
  {
    cli.zonedir.GetOr(config.directory)
  }

  /** `run` up to the point where the server starts serving: the zone
      loop, then the rest only when every zone loaded. */
  function Start(f: Features, env: Env, h: Host, cli: Cli, config: ServerConfig): (r: Run<Outcome>)
    ensures var catalog := LoadCatalog(f, env, ZoneDir(cli, config), config.zones, map[]);
      && catalog.trace <= r.trace
      && (!AllLoad(f, env, ZoneDir(cli, config), config.zones) ==>
            r.trace == catalog.trace && r.result.Err? && r.result.error == catalog.result.error)
      && (r.result.Ok? ==>
            && AllLoad(f, env, ZoneDir(cli, config), config.zones)
            && config.listenAddrsIpv4.Some? && config.listenAddrsIpv6.Some?
            && r.result.value.catalog == catalog.result.value
            && (r.result.value.Validated? <==> cli.validate))
  {
    var catalog := LoadCatalog(f, env, ZoneDir(cli, config), config.zones, map[]);
    match catalog.result
    case Err(e) => Run(catalog.trace, Err(e))
    case Ok(cat) => Prefix(catalog.trace, AfterCatalog(f, env, h, cli, config, cat))
  }

  /** Parse both address lists, return when only validating, else serve. */
  function AfterCatalog(f: Features, env: Env, h: Host, cli: Cli, config: ServerConfig, cat: Catalog): (r: Run<Outcome>)
    ensures config.listenAddrsIpv4.None? ==> r.result == Err(Ipv4AddrsUnreadable)
    ensures config.listenAddrsIpv4.Some? && config.listenAddrsIpv6.None? ==> r.result == Err(Ipv6AddrsUnreadable)
    ensures config.listenAddrsIpv4.None? || config.listenAddrsIpv6.None? || cli.validate ==> r.trace == []
    ensures r.result.Ok? ==>
      && config.listenAddrsIpv4.Some? && config.listenAddrsIpv6.Some?
      && r.result.value.catalog == cat
      && (r.result.value.Validated? <==> cli.validate)
  {
    if config.listenAddrsIpv4.None? then Run([], Err(Ipv4AddrsUnreadable))
    else if config.listenAddrsIpv6.None? then Run([], Err(Ipv6AddrsUnreadable))
    else if cli.validate then Run([], Ok(Validated(cat)))
    else Serve(f, env, h, cli, config, cat, ListenAddrs(config.listenAddrsIpv4.value, config.listenAddrsIpv6.value))
  }

  /** Bring up the listeners, then drop privileges. */
  function Serve(f: Features, env: Env, h: Host, cli: Cli, config: ServerConfig, cat: Catalog, addrs: seq<IpAddr>): (r: Run<Outcome>)
    ensures var up := BringUpTransports(f, env, cli, config, ZoneDir(cli, config), addrs);
      var drop := CheckDropPrivs(f, env, h, config.user, config.group);
      && up.trace <= r.trace
      && (r.result.Ok? <==> up.result.Ok? && drop.result.Ok?)
      && (r.result.Ok? ==> r.result.value == Serving(cat))
  {
    Seq(BringUpTransports(f, env, cli, config, ZoneDir(cli, config), addrs),
        Seq(CheckDropPrivs(f, env, h, config.user, config.group), Run([], Ok(Serving(cat)))))
  }
}

/** What the startup sequence promises as a whole. */
module StartupProperties {
  import opened Config
  import opened Effects
  import opened Transports
  import opened TransportProperties
  import opened Privileges
  import opened Startup

  predicate PhasesOrdered(trace: seq<Op>) {
    forall i, j | 0 <= i < j < |trace| :: Phase(trace[i]) <= Phase(trace[j])
  }

  lemma PhasedConcat(t: seq<Op>, a: seq<Op>, b: seq<Op>, c: seq<Op>)
    requires InPhase(a, ZonePhase) && InPhase(b, ListenPhase) && InPhase(c, PrivilegePhase)
    requires t == a + b + c
    ensures PhasesOrdered(t)
  {
    forall i | 0 <= i < |t|
      ensures Phase(t[i]) == if i < |a| then ZonePhase else if i < |a| + |b| then ListenPhase else PrivilegePhase
    {
      if i < |a| { assert t[i] == a[i]; }
      else if i < |a| + |b| { assert t[i] == b[i - |a|]; }
      else { assert t[i] == c[i - |a| - |b|]; }
    }
  }

  /** The listen addresses of a configuration whose address lists parse. */
  function AddrsOf(config: ServerConfig): seq<IpAddr>
    requires config.listenAddrsIpv4.Some? && config.listenAddrsIpv6.Some?
  {
    ListenAddrs(config.listenAddrsIpv4.value, config.listenAddrsIpv6.value)
  }

  /** What the serving path issues: the listener section, then, only if it
      succeeded, the privilege drop. */
  lemma ServePath(f: Features, env: Env, h: Host, cli: Cli, config: ServerConfig, cat: Catalog, addrs: seq<IpAddr>)
    ensures var r := Serve(f, env, h, cli, config, cat, addrs);
      var up := BringUpTransports(f, env, cli, config, ZoneDir(cli, config), addrs);
      var drop := CheckDropPrivs(f, env, h, config.user, config.group);
      && (up.result.Err? ==> r.trace == up.trace && r.result.Err?)
      && (up.result.Ok? ==> r.trace == up.trace + drop.trace && r.result.Ok? == drop.result.Ok?)
      && (r.result.Ok? ==> r.result.value == Serving(cat))
  {
    var drop := CheckDropPrivs(f, env, h, config.user, config.group);
    assert drop.trace + [] == drop.trace;
  }

  /** Past the catalog, Start issues only what serving issues. */
  lemma StartPath(f: Features, env: Env, h: Host, cli: Cli, config: ServerConfig)
    ensures var r := Start(f, env, h, cli, config);
      var catalog := LoadCatalog(f, env, ZoneDir(cli, config), config.zones, map[]);
      && (!Serves(f, env, cli, config) ==> r.trace == catalog.trace)
      && (Serves(f, env, cli, config) ==>
            r == Prefix(catalog.trace, Serve(f, env, h, cli, config, catalog.result.value, AddrsOf(config))))
  {
  }

  /** Startup goes on past validation: every zone loaded, both address lists
      parse, and this is not a validation run. */
  predicate Serves(f: Features, env: Env, cli: Cli, config: ServerConfig) {
    && LoadCatalog(f, env, ZoneDir(cli, config), config.zones, map[]).result.Ok?
    && config.listenAddrsIpv4.Some? && config.listenAddrsIpv6.Some? && !cli.validate
  }

  lemma StopShape(f: Features, env: Env, h: Host, cli: Cli, config: ServerConfig)
    requires !Serves(f, env, cli, config)
    ensures var r := Start(f, env, h, cli, config);
      var catalog := LoadCatalog(f, env, ZoneDir(cli, config), config.zones, map[]);
      && r.trace == catalog.trace
      && (r.result.Ok? <==>
            catalog.result.Ok? && config.listenAddrsIpv4.Some? && config.listenAddrsIpv6.Some? && cli.validate)
      && (r.result.Ok? ==> r.result.value.Validated?)
  {
    StartPath(f, env, h, cli, config);
  }

  lemma ServeUp(f: Features, env: Env, h: Host, cli: Cli, config: ServerConfig)
    requires Serves(f, env, cli, config)
    requires BringUpTransports(f, env, cli, config, ZoneDir(cli, config), AddrsOf(config)).result.Ok?
    ensures var r := Start(f, env, h, cli, config);
      var catalog := LoadCatalog(f, env, ZoneDir(cli, config), config.zones, map[]);
      var up := BringUpTransports(f, env, cli, config, ZoneDir(cli, config), AddrsOf(config));
      var drop := CheckDropPrivs(f, env, h, config.user, config.group);
      && r.trace == catalog.trace + up.trace + drop.trace
      && r.result.Ok? == drop.result.Ok?
  {
    var catalog := LoadCatalog(f, env, ZoneDir(cli, config), config.zones, map[]);
    var up := BringUpTransports(f, env, cli, config, ZoneDir(cli, config), AddrsOf(config));
    var drop := CheckDropPrivs(f, env, h, config.user, config.group);
    StartPath(f, env, h, cli, config);
    ServePath(f, env, h, cli, config, catalog.result.value, AddrsOf(config));
    Associate3(catalog.trace, up.trace, drop.trace);
  }

  lemma Associate3(a: seq<Op>, b: seq<Op>, c: seq<Op>)
    ensures a + (b + c) == a + b + c
  {
  }

  lemma ServeDown(f: Features, env: Env, h: Host, cli: Cli, config: ServerConfig)
    requires Serves(f, env, cli, config)
    requires BringUpTransports(f, env, cli, config, ZoneDir(cli, config), AddrsOf(config)).result.Err?
    ensures var r := Start(f, env, h, cli, config);
      var catalog := LoadCatalog(f, env, ZoneDir(cli, config), config.zones, map[]);
      var up := BringUpTransports(f, env, cli, config, ZoneDir(cli, config), AddrsOf(config));
      && r.trace == catalog.trace + up.trace
      && r.result.Err?
  {
    var catalog := LoadCatalog(f, env, ZoneDir(cli, config), config.zones, map[]);
    StartPath(f, env, h, cli, config);
    ServePath(f, env, h, cli, config, catalog.result.value, AddrsOf(config));
  }

  lemma ServeOk(f: Features, env: Env, h: Host, cli: Cli, config: ServerConfig)
    requires Serves(f, env, cli, config) && Start(f, env, h, cli, config).result.Ok?
    ensures Start(f, env, h, cli, config).result.value
         == Serving(LoadCatalog(f, env, ZoneDir(cli, config), config.zones, map[]).result.value)
  {
    var catalog := LoadCatalog(f, env, ZoneDir(cli, config), config.zones, map[]);
    StartPath(f, env, h, cli, config);
    ServePath(f, env, h, cli, config, catalog.result.value, AddrsOf(config));
  }

  /** Validation stops after the catalog and the listen addresses: no socket
      is built, nothing is registered, no identity is changed. */
  lemma ValidateBuildsNothing(f: Features, env: Env, h: Host, cli: Cli, config: ServerConfig)
    requires cli.validate
    ensures var r := Start(f, env, h, cli, config);
      && InPhase(r.trace, ZonePhase)
      && Registered(r.trace) == []
      && (r.result.Ok? <==>
            AllLoad(f, env, ZoneDir(cli, config), config.zones)
            && config.listenAddrsIpv4.Some? && config.listenAddrsIpv6.Some?)
      && (r.result.Ok? ==> r.result.value.Validated?)
  {
    var r := Start(f, env, h, cli, config);
    StopShape(f, env, h, cli, config);
    RegisteredNone(r.trace);
  }

  /** The first zone that does not load stops startup before any listener. */
  lemma ZoneFailureStopsStartup(f: Features, env: Env, h: Host, cli: Cli, config: ServerConfig)
    requires !AllLoad(f, env, ZoneDir(cli, config), config.zones)
    ensures var r := Start(f, env, h, cli, config);
      && InPhase(r.trace, ZonePhase)
      && r.result.Err?
      && exists k: nat :: FirstFailure(f, env, ZoneDir(cli, config), config.zones, k, r.result.error)
  {
  }

  /** Zones are loaded before any listener is brought up, and listeners
      before any privilege call. */
  lemma PhasesInOrder(f: Features, env: Env, h: Host, cli: Cli, config: ServerConfig)
    ensures PhasesOrdered(Start(f, env, h, cli, config).trace)
  {
    var r := Start(f, env, h, cli, config);
    if Serves(f, env, cli, config) {
      ServingPhasesInOrder(f, env, h, cli, config);
    } else {
      StopShape(f, env, h, cli, config);
      assert r.trace + [] + [] == r.trace;
      PhasedConcat(r.trace, r.trace, [], []);
    }
  }

  lemma ServingPhasesInOrder(f: Features, env: Env, h: Host, cli: Cli, config: ServerConfig)
    requires Serves(f, env, cli, config)
    ensures PhasesOrdered(Start(f, env, h, cli, config).trace)
  {
    if BringUpTransports(f, env, cli, config, ZoneDir(cli, config), AddrsOf(config)).result.Ok? {
      UpPhasesInOrder(f, env, h, cli, config);
    } else {
      DownPhasesInOrder(f, env, h, cli, config);
    }
  }

  lemma UpPhasesInOrder(f: Features, env: Env, h: Host, cli: Cli, config: ServerConfig)
    requires Serves(f, env, cli, config)
    requires BringUpTransports(f, env, cli, config, ZoneDir(cli, config), AddrsOf(config)).result.Ok?
    ensures PhasesOrdered(Start(f, env, h, cli, config).trace)
  {
    var zoneDir := ZoneDir(cli, config);
    var catalog := LoadCatalog(f, env, zoneDir, config.zones, map[]);
    var up := BringUpTransports(f, env, cli, config, zoneDir, AddrsOf(config));
    var drop := CheckDropPrivs(f, env, h, config.user, config.group);
    TransportsInListenPhase(f, env, cli, config, zoneDir, AddrsOf(config));
    ServeUp(f, env, h, cli, config);
    PhasedConcat(Start(f, env, h, cli, config).trace, catalog.trace, up.trace, drop.trace);
  }

  lemma DownPhasesInOrder(f: Features, env: Env, h: Host, cli: Cli, config: ServerConfig)
    requires Serves(f, env, cli, config)
    requires BringUpTransports(f, env, cli, config, ZoneDir(cli, config), AddrsOf(config)).result.Err?
    ensures PhasesOrdered(Start(f, env, h, cli, config).trace)
  {
    var zoneDir := ZoneDir(cli, config);
    var catalog := LoadCatalog(f, env, zoneDir, config.zones, map[]);
    var up := BringUpTransports(f, env, cli, config, zoneDir, AddrsOf(config));
    var t := Start(f, env, h, cli, config).trace;
    ServeDown(f, env, h, cli, config);
    TransportsInListenPhase(f, env, cli, config, zoneDir, AddrsOf(config));
    TwoPhases(t, catalog.trace, up.trace);
  }

  lemma TwoPhases(t: seq<Op>, a: seq<Op>, b: seq<Op>)
    requires InPhase(a, ZonePhase) && InPhase(b, ListenPhase)
    requires t == a + b
    ensures PhasesOrdered(t)
  {
    assert t == a + b + [];
    PhasedConcat(t, a, b, []);
  }

  /** A privilege call happens only on the serving path, once every listener
      came up. */
  lemma PrivilegeNeedsListeners(f: Features, env: Env, h: Host, cli: Cli, config: ServerConfig)
    ensures var r := Start(f, env, h, cli, config);
      (exists i | 0 <= i < |r.trace| :: Phase(r.trace[i]) == PrivilegePhase) ==>
        && Serves(f, env, cli, config)
        && BringUpTransports(f, env, cli, config, ZoneDir(cli, config), AddrsOf(config)).result.Ok?
  {
    var r := Start(f, env, h, cli, config);
    var zoneDir := ZoneDir(cli, config);
    var catalog := LoadCatalog(f, env, zoneDir, config.zones, map[]);
    if !Serves(f, env, cli, config) {
      StopShape(f, env, h, cli, config);
      NothingPrivileged(catalog.trace, []);
      assert catalog.trace + [] == r.trace;
    } else {
      var up := BringUpTransports(f, env, cli, config, zoneDir, AddrsOf(config));
      if up.result.Err? {
        TransportsInListenPhase(f, env, cli, config, zoneDir, AddrsOf(config));
        ServeDown(f, env, h, cli, config);
        NothingPrivileged(catalog.trace, up.trace);
      }
    }
  }

  lemma NothingPrivileged(zones: seq<Op>, listeners: seq<Op>)
    requires InPhase(zones, ZonePhase) && InPhase(listeners, ListenPhase)
    ensures forall i | 0 <= i < |zones + listeners| :: Phase((zones + listeners)[i]) != PrivilegePhase
  {
    forall i | 0 <= i < |zones + listeners| ensures Phase((zones + listeners)[i]) != PrivilegePhase {
      if i < |zones| { assert (zones + listeners)[i] == zones[i]; }
      else { assert (zones + listeners)[i] == listeners[i - |zones|]; }
    }
  }

  /** Privileges are dropped only once every planned listener is registered. */
  lemma PrivilegesAfterAllListeners(f: Features, env: Env, h: Host, cli: Cli, config: ServerConfig)
    ensures var r := Start(f, env, h, cli, config);
      (exists i | 0 <= i < |r.trace| :: Phase(r.trace[i]) == PrivilegePhase) ==>
        && !cli.validate
        && AllLoad(f, env, ZoneDir(cli, config), config.zones)
        && config.listenAddrsIpv4.Some? && config.listenAddrsIpv6.Some?
        && BringUpTransports(f, env, cli, config, ZoneDir(cli, config), AddrsOf(config)).result.Ok?
        && Registered(r.trace) == PlannedListeners(f, cli, config, AddrsOf(config))
  {
    var r := Start(f, env, h, cli, config);
    PrivilegeNeedsListeners(f, env, h, cli, config);
    if Serves(f, env, cli, config)
       && BringUpTransports(f, env, cli, config, ZoneDir(cli, config), AddrsOf(config)).result.Ok?
    {
      var zoneDir := ZoneDir(cli, config);
      var catalog := LoadCatalog(f, env, zoneDir, config.zones, map[]);
      var up := BringUpTransports(f, env, cli, config, zoneDir, AddrsOf(config));
      var drop := CheckDropPrivs(f, env, h, config.user, config.group);
      ServeUp(f, env, h, cli, config);
      RegisteredTrace(catalog.trace, up, drop.trace, ListenerPlan(f, cli, config, zoneDir, AddrsOf(config)), env);
      ListenerPlanRegisters(f, cli, config, zoneDir, AddrsOf(config));
    }
  }

  /** The listeners of a serving trace are those of its listener section. */
  lemma RegisteredTrace(zones: seq<Op>, up: Run<()>, drop: seq<Op>, plan: seq<Op>, env: Env)
    requires InPhase(zones, ZonePhase) && InPhase(drop, PrivilegePhase)
    requires Executes(env, up, plan) && up.result.Ok?
    ensures up.trace == plan
    ensures Registered(zones + up.trace + drop) == Registered(plan)
  {
    AttemptAll(env, plan);
    RegisteredNone(zones);
    RegisteredNone(drop);
    RegisteredConcat3(zones, up.trace, drop);
  }

  /** A successful start that is not a validation registered every planned
      listener, then dropped privileges (when running as root on Unix), and
      nothing else: its trace is the zones, the full listener plan and the
      privilege calls. */
  lemma ServingStart(f: Features, env: Env, h: Host, cli: Cli, config: ServerConfig)
    requires Start(f, env, h, cli, config).result.Ok? && !cli.validate
    ensures var r := Start(f, env, h, cli, config);
      && r.result.value.Serving?
      && config.listenAddrsIpv4.Some? && config.listenAddrsIpv6.Some?
      && r.trace == LoadCatalog(f, env, ZoneDir(cli, config), config.zones, map[]).trace
                    + ListenerPlan(f, cli, config, ZoneDir(cli, config), AddrsOf(config))
                    + CheckDropPrivs(f, env, h, config.user, config.group).trace
      && Registered(r.trace) == PlannedListeners(f, cli, config, AddrsOf(config))
      && CheckDropPrivs(f, env, h, config.user, config.group).result.Ok?
  {
    var zoneDir := ZoneDir(cli, config);
    var catalog := LoadCatalog(f, env, zoneDir, config.zones, map[]);
    if !Serves(f, env, cli, config) {
      StopShape(f, env, h, cli, config);
      assert false;
    }
    var up := BringUpTransports(f, env, cli, config, zoneDir, AddrsOf(config));
    var drop := CheckDropPrivs(f, env, h, config.user, config.group);
    if up.result.Err? {
      ServeDown(f, env, h, cli, config);
      assert false;
    }
    ServeUp(f, env, h, cli, config);
    ServeOk(f, env, h, cli, config);
    RegisteredTrace(catalog.trace, up, drop.trace, ListenerPlan(f, cli, config, zoneDir, AddrsOf(config)), env);
    ListenerPlanRegisters(f, cli, config, zoneDir, AddrsOf(config));
  }
}
