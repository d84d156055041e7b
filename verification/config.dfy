/** The inputs of the server binary's startup: the parsed configuration file,
    the parsed command line, and the cargo features the binary was built
    with. Parsing itself is not modelled; each record holds exactly the fields
    the startup code reads. */
module Config {

  datatype Option<T> = None | Some(value: T) {
    /** The value, or `default` when there is none (Rust's `unwrap_or`). */
    function GetOr(default: T): T {
      match this
      case Some(v) => v
      case None => default
    }
  }

  newtype u16 = x: int | 0 <= x < 0x1_0000
  newtype u32 = x: int | 0 <= x < 0x1_0000_0000

  newtype Ipv4Addr = x: int | 0 <= x < 0x1_0000_0000
  newtype Ipv6Addr = x: int | 0 <= x < 0x1_0000_0000_0000_0000_0000_0000_0000_0000

  datatype IpAddr = V4(v4: Ipv4Addr) | V6(v6: Ipv6Addr)

  /** `0.0.0.0` and `::` */
  const UnspecifiedV4: IpAddr := V4(0)
  const UnspecifiedV6: IpAddr := V6(0)

  /** A parsed, fully qualified zone name. */
  type Name = string

  datatype ZoneType = Primary | Secondary | External

  /** Backend descriptors of the `[[zones.stores]]` entries. The forwarder,
      recursor and blocklist descriptors are only passed through to their
      authority constructors, so they are kept opaque. */
  datatype FileConfig = FileConfig(zoneFilePath: string)
  datatype SqliteConfig = SqliteConfig(zoneFilePath: string, journalFilePath: string, allowUpdate: bool)
  datatype ForwardConfig = ForwardConfig(descriptor: string)
  datatype RecursiveConfig = RecursiveConfig(descriptor: string)
  datatype BlocklistConfig = BlocklistConfig(descriptor: string)

  /** One store entry of a zone. `Legacy` is any entry that names none of the
      concrete backends: the configuration's stand-in for the deprecated
      zone-level `file` / `allow_update` form, which the dispatch handles in
      its fallback arms. */
  datatype StoreConfig =
    | File(file: FileConfig)
    | Sqlite(sqlite: SqliteConfig)
    | Forward(forward: ForwardConfig)
    | Recursor(recursor: RecursiveConfig)
    | Blocklist(blocklist: BlocklistConfig)
    | Legacy

  /** A DNSSEC key entry of a zone: it may be a zone-signing key, an
      update-authorisation (SIG(0)) key, both or neither. */
  datatype KeyConfig = KeyConfig(keyPath: string, isZoneSigningKey: bool, isZoneUpdateAuth: bool)

  /** A `[[zones]]` entry. `zone` is `None` when the configured name does not
      parse; the other flags are the already-defaulted `is_*` accessors. */
  datatype ZoneConfig = ZoneConfig(
    zone: Option<Name>,
    zoneType: ZoneType,
    file: Option<string>,
    allowUpdate: bool,
    allowAxfr: bool,
    enableDnssec: bool,
    keys: seq<KeyConfig>,
    stores: seq<StoreConfig>)

  /** Where the TLS certificate comes from, and the optional endpoint name used
      for protocol negotiation by HTTPS and QUIC. */
  datatype TlsCertConfig = TlsCertConfig(path: string, endpointName: Option<string>)

  /** The configuration file, through its accessors. An address list is `None`
      when it does not parse. */
  datatype ServerConfig = ServerConfig(
    directory: string,
    zones: seq<ZoneConfig>,
    listenAddrsIpv4: Option<seq<Ipv4Addr>>,
    listenAddrsIpv6: Option<seq<Ipv6Addr>>,
    listenPort: u16,
    tlsListenPort: u16,
    httpsListenPort: u16,
    quicListenPort: u16,
    disableUdp: bool,
    disableTcp: bool,
    disableTls: bool,
    disableHttps: bool,
    disableQuic: bool,
    tlsCert: Option<TlsCertConfig>,
    httpEndpoint: string,
    tcpRequestTimeout: nat,
    user: string,
    group: string)

  /** The command-line options that take part in startup decisions. `quiet`
      is `-q`, which disables INFO events; `--debug` and the default both
      leave them enabled, so it is the only log option that matters here. */
  datatype Cli = Cli(
    validate: bool,
    zonedir: Option<string>,
    port: Option<u16>,
    tlsPort: Option<u16>,
    httpsPort: Option<u16>,
    quicPort: Option<u16>,
    disableTcp: bool,
    disableUdp: bool,
    disableTls: bool,
    disableHttps: bool,
    disableQuic: bool,
    quiet: bool)

  /** Compile-time variants of the binary: `sqlite`, `dnssec`,
      `dns-over-tls`, `dns-over-https-rustls`, `dns-over-quic`, and whether the
      target is a Unix family system. */
  datatype Features = Features(sqlite: bool, dnssec: bool, tls: bool, https: bool, quic: bool, unix: bool)
}
