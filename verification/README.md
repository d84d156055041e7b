# Hickory DNS server startup, modelled in Dafny

This project models the startup decision logic of the `hickory-dns` server
binary (`bin/src/hickory-dns.rs`). It covers five pieces:

- **Zone loading.** Every `[[zones]]` entry has its store entries dispatched to
  authority constructors: file, SQLite, forwarder, recursor, blocklist, or the
  deprecated zone-level form. The keys of signable authorities are then
  provisioned (`load_keys`). Finally every zone is upserted into the catalog
  under its lower-cased name.
- **Listen plan.** The listen addresses (IPv4 list, then IPv6 list, or
  `0.0.0.0` then `::` when both are empty) and each transport's port (the
  command-line override, else the configured value).
- **Transport bring-up.** UDP, TCP, then TLS, HTTPS and QUIC. The encrypted
  transports are gated on the build, on a configured certificate and on both
  disable flags.
- **Socket construction.** `build_tcp_listener` and `build_udp_socket`.
- **Privilege drop.** `check_drop_privs`, in its Unix and non-Unix variants.

Every external effect is an abstract operation (`Effects.Op`): constructing
an authority, converting a key to a signer, a socket call, loading a
certificate, registering a listener, a user or group lookup, `setgid`, and
`setuid`. An environment (`Effects.Env`) says which operations fail. Each
modelled step returns a `Run`, which holds the result together with the trace
of the operations it issued, in order.

Most steps are stated against a reference plan. The predicate
`Executes(env, r, plan)` says that `r` issued the plan up to and including its
first failing operation, and that `r` succeeded exactly when every planned
operation succeeds. This is the `?`-propagation of the Rust code.

Warnings are traced as operations that never fail, so "only a warning"
properties can be stated. Informational logging is not traced, with one
exception. The local address of each bound socket is an argument of an INFO
event, so it is looked up only when that event is enabled, and `--quiet`
disables it. That lookup can fail, so it is traced.

Modules follow the structure of the binary:

- `Config`: the configuration, command line and build features.
- `Effects`: operations, runs and sequencing.
- `Zones` and `ZoneProperties`: `load_zone` and `load_keys`.
- `Sockets`: the socket builders.
- `Transports` and `TransportProperties`: the listen plan, `config_tls`,
  `config_https` and `config_quic`.
- `Privileges` and `PrivilegeProperties`: `check_drop_privs`.
- `Startup` and `StartupProperties`: `run`, up to the point where the server
  starts serving.

In these cases the program behaves as follows, and so does the model:

- A zone with no store entries loads as an empty list of authorities. The
  deprecated zone-level arms sit inside the store loop
  (`bin/src/hickory-dns.rs:183`), so no fallback store is synthesised.
- `setgid` and `setuid` are both called before either return code is checked
  (`bin/src/hickory-dns.rs:1002-1003`). So `setuid` is attempted even after
  `setgid` failed. The error reported is then the `setgid` one.
- A validation run also fails when an address list does not parse
  (`bin/src/hickory-dns.rs:470-475`). A successful zone load alone is not
  enough.
- The TLS certificate is not shared between listeners. Each encrypted
  transport loads it again for every address.

## Model

| member | source | states |
|---|---|---|
| Zones.LoadKeys | bin/src/hickory-dns.rs:83-152 | Without the `dnssec` build or with DNSSEC disabled for the zone, nothing is issued and the result is Ok. Otherwise every key step runs in configuration order, then `secure_zone`, stopping at the first failure. Errors are a failed call or an unreadable zone name. |
| Zones.AddKeys | bin/src/hickory-dns.rs:95-129 | The keys are visited in order. A zone-signing key converts to a signer and is added. An update-auth key converts again, derives its public key, and is added under the zone name. A key may do both. The first failure stops the loop. |
| Zones.SecureZoneOnceAndLast | bin/src/hickory-dns.rs:94-138 | `secure_zone` appears at most once in the trace, only as its last operation, and only after every earlier operation succeeded. A successful provisioning with DNSSEC on always ends with it. |
| Zones.KeyPlanNeverSecures | bin/src/hickory-dns.rs:95-129 | No step of the key loop secures the zone. |
| Zones.Construct | bin/src/hickory-dns.rs:195-205 | An arm's first operation is the authority constructor for the zone's name, type and backend. For a zone whose name parses, the arm carries out the constructor call and then, when it signs, the provisioning plan (with DNSSEC on, every key step and then `secure_zone`), up to the first failure. It succeeds exactly when every one of those calls does. Errors are a failed call or an unreadable zone name. |
| Zones.LoadStore | bin/src/hickory-dns.rs:184-311 | One arm of the store match. The returned authority has the zone's name and type, and the arm stops at its first failing call. |
| Zones.Fallback | bin/src/hickory-dns.rs:255-310 | The two arms for an entry naming no backend stop at the first failure. What they return has the zone's name and type. |
| Zones.LoadStores | bin/src/hickory-dns.rs:182-313 | On success there is exactly one authority per store, in store order, each the result of that store's arm, and the loop issued every store's arm in turn. On failure the stores before some index `k` loaded, store `k`'s error is the result, and the loop issued exactly the arms of stores `0` to `k`, even when store `k` failed without issuing anything. |
| Zones.LoadZone | bin/src/hickory-dns.rs:156-318 | An unreadable name fails before anything is issued. Zero stores give `Ok([])`. On success each store's arm yields the authority at its index. What is issued is the deprecated `allow_update` warning when that flag is set, then the stores' arms in turn, up to and including the first failing store. Only zone-phase operations are issued. |
| Zones.JournalPath | bin/src/hickory-dns.rs:262-266 | A path without a file name is left as it is. Otherwise the result ends in `.jrnl`, and what comes before is the path up to where its extension starts. |
| Zones.JournalPathReplacesExtension | bin/src/hickory-dns.rs:262-266 | The journal path is the zone file path with its extension replaced: it ends in `.jrnl`, keeps the directory and a non-empty stem, and only an extension (a dot and no further dot or `/`) is dropped. |
| Zones.JournalPathIdempotent | bin/src/hickory-dns.rs:262-266 | Deriving the journal path from a journal path changes nothing. |
| ZoneProperties.SigningStoreIgnoresZoneFile | bin/src/hickory-dns.rs:186-225 | A file or SQLite store gives the same result whether or not the zone-level `file` is set. That value only adds one leading warning. A loaded authority's backend is the store's own descriptor. |
| ZoneProperties.NonSigningStoreIgnoresZoneFile | bin/src/hickory-dns.rs:227-253 | A forwarder, recursor or blocklist store behaves identically with or without a zone-level `file`. A loaded authority's backend is the store's own descriptor. |
| ZoneProperties.NonSigningArmsSkipKeys | bin/src/hickory-dns.rs:227-253 | The forwarder, recursor and blocklist arms issue exactly one operation, the constructor, and never touch keys. |
| ZoneProperties.SigningArmsProvisionKeys | bin/src/hickory-dns.rs:186-225 | A handle returned by the file or SQLite arm, or by the fallback arms, was made by the constructor call and then put through the whole provisioning plan: with DNSSEC on, every configured key step in order and `secure_zone` last. Only warnings come before. |
| ZoneProperties.FallbackArms | bin/src/hickory-dns.rs:255-310 | A missing zone-level `file` fails with `MissingZoneFile`, after at most warnings. The deprecation warning comes first exactly when SQLite is built and updates are allowed. In that case the backend is SQLite with the derived journal path and updates on; otherwise it is a plain file backend from that path. |
| ZoneProperties.ZoneAuthoritiesFollowStores | bin/src/hickory-dns.rs:182-317 | A loaded zone holds one authority per store, in store order, each with the zone's name and type. For an explicit store, each is built from that store's own descriptor. |
| ZoneProperties.ZoneAbortsOnFirstStoreError | bin/src/hickory-dns.rs:183-313 | A failed zone is the first failing store's error, with every earlier store loaded. Nothing is issued after that store's arm. |
| Startup.LoadCatalog | bin/src/hickory-dns.rs:458-468 | The zone loop succeeds exactly when every zone's name parses and the zone loads. Otherwise it reports the error of the first zone that does not. No call is made after a failing one, and only zone-loading operations are issued. |
| Startup.CatalogTraceAllLoad | bin/src/hickory-dns.rs:458-468 | When every zone loads, the loop issues each zone's operations in turn, in configuration order. |
| Startup.CatalogStopsAtFailingZone | bin/src/hickory-dns.rs:458-468 | When zone `k` is the first that does not load, the loop reports its error. What it issued is exactly the operations of zones `0` to `k`, where a zone whose name does not parse issues nothing. No later zone is touched. |
| Startup.CatalogKeys | bin/src/hickory-dns.rs:458-468 | The catalog's keys are the keys it started with plus the lower-cased name of every zone, and no others. |
| Startup.CatalogLastWins | bin/src/hickory-dns.rs:465 | A name maps to the authorities of the last zone entry with that name, because an upsert replaces earlier entries. |
| Startup.CatalogKeepsOthers | bin/src/hickory-dns.rs:465 | Upserting never touches a key no zone has. |
| Transports.ListenAddrs | bin/src/hickory-dns.rs:470-487 | The addresses are the IPv4 list then the IPv6 list, each in order, or `[0.0.0.0, ::]` exactly when both are empty. |
| Transports.SetupOf | bin/src/hickory-dns.rs:482 | Each transport's port is the command-line override when given, else its configured port; UDP and TCP share `listen_port`. Exactly the encrypted transports carry the certificate, which is the configured one. Listeners announce their local address exactly when `--quiet` is not given. |
| Transports.BringUpAt | bin/src/hickory-dns.rs:646-669 | One address: certificate (encrypted transports), then socket. Next comes the local-address lookup, only when INFO events are logged (not `--quiet`). Registration is last. A socket error is reported as a bind failure of that transport and address. |
| Transports.Announce | bin/src/hickory-dns.rs:512-519 | The local address is looked up, and can fail, only when the INFO event that prints it is enabled; the listener is registered after it. Errors are local-address or registration failures. |
| Transports.BringUpAll | bin/src/hickory-dns.rs:506-520 | A listener loop covers every address in order and stops at the first error. Its errors are bind, certificate, local-address or registration failures. The local-address lookup is part of each address's steps only when INFO events are logged. |
| Transports.ConfigEncrypted | bin/src/hickory-dns.rs:632-781 | A certificate with no address to listen on gives exactly one warning and Ok. Otherwise the listener loop runs. From `run` the address list is never empty (`bin/src/hickory-dns.rs:484-487`), so the warning branch is reachable only when the function is called on its own. |
| Transports.Enabled | bin/src/hickory-dns.rs:504-599 | A transport disabled on the command line or in the configuration is never brought up. UDP and TCP are brought up otherwise. TLS, HTTPS and QUIC are brought up exactly when they are also compiled in and a certificate is configured, which their setup then carries. |
| Transports.ListenerAt | bin/src/hickory-dns.rs:519-776 | The registered listener has the transport's address and port. Only UDP has no request timeout. Each listener carries the transport's certificate. Only HTTPS has the HTTP endpoint. Only HTTPS and QUIC have the certificate's endpoint name, and they always do when a certificate is present. Registration sites: lines 519, 540, 666-668, 712-719 and 766-773. |
| Transports.BringUpTransports | bin/src/hickory-dns.rs:504-599 | The listener section carries out the reference plan (UDP, TCP, TLS, HTTPS, QUIC, each enabled one over every address) up to its first failure. It succeeds exactly when every planned call does. The plan includes each listener's local-address lookup only when `--quiet` is not given. |
| TransportProperties.TransportsStopAtFirstFailure | bin/src/hickory-dns.rs:504-599 | Nothing is issued after the first failing call, and the error reported belongs to an enabled transport. |
| TransportProperties.ListenersFollowPlan | bin/src/hickory-dns.rs:504-599 | The registered listeners are always a prefix of the planned ones, and all of them exactly on success. |
| TransportProperties.PlannedListenersExactly | bin/src/hickory-dns.rs:504-599 | A listener is planned if and only if it belongs to an enabled transport on a listen address. A transport is enabled when neither disable flag is set; for TLS, HTTPS and QUIC the build and a certificate are also required. |
| TransportProperties.PlannedListenersOrdered | bin/src/hickory-dns.rs:504-599 | Planned listeners come grouped in the order UDP, TCP, TLS, HTTPS, QUIC. |
| TransportProperties.CertLoadedPerAddress | bin/src/hickory-dns.rs:646-652 | A successful encrypted listener loop loads the certificate once per address. A plain one never loads it. |
| TransportProperties.AddressLookedUpOnlyWhenLogged | bin/src/hickory-dns.rs:504-599 | A quiet run (`bin/src/hickory-dns.rs:422-423`) never looks up a local address, whatever fails. A successful listener loop that logs INFO looks one up once per address (the `info!` events at 512-517, 533-538, 660-665, 710-715 and 764-769). |
| TransportProperties.TransportsInListenPhase | bin/src/hickory-dns.rs:504-599 | The listener section only issues socket, certificate, local-address, registration and missing-address warning operations. |
| Sockets.BuildTcpListener | bin/src/hickory-dns.rs:898-916 | The socket calls are carried out in order up to the first failure, and any error is a socket call's. |
| Sockets.BuildUdpSocket | bin/src/hickory-dns.rs:919-934 | The same for a datagram socket. |
| Sockets.TcpListenerSteps | bin/src/hickory-dns.rs:898-916 | Whatever fails, the calls are made in this order: create first; an IPv6 socket set IPv6-only right after, an IPv4 socket never; non-blocking before bind; `listen(128)` right after bind. On success the listener is listening. |
| Sockets.UdpSocketSteps | bin/src/hickory-dns.rs:919-934 | The same order for a datagram socket, which never listens. |
| Privileges.CheckDropPrivs | bin/src/hickory-dns.rs:939-1024 | Without root or off Unix, nothing is issued and the result is Ok. With root, errors are reported in the order NUL in the user name, NUL in the group name, unknown user, unknown group, each exactly when the earlier checks passed. A NUL in either name is reported before any lookup is made. For an unknown user or group, both names have been looked up and nothing else is issued. |
| Privileges.SetIds | bin/src/hickory-dns.rs:1002-1011 | Both calls are always issued, `setgid` first. The result is Ok exactly when both succeed, and a `setgid` failure is reported in preference. |
| PrivilegeProperties.SetCallsOnlyWhenElevated | bin/src/hickory-dns.rs:954-1011 | `setgid` or `setuid` is issued only on Unix, as root, and with both names resolved. |
| PrivilegeProperties.GidBeforeUid | bin/src/hickory-dns.rs:975-1011 | With root and both names resolved, the calls are: look up user, look up group, `setgid`, `setuid`. The failures are reported `setgid` first, and the result is Ok exactly when both identity calls succeed. |
| PrivilegeProperties.DropReachesTarget | bin/src/hickory-dns.rs:939-1024 | After a successful drop the real and effective ids are the configured user's and group's, so the process is still root only if that user is root. Without root the identity is untouched. |
| Startup.ZoneDir | bin/src/hickory-dns.rs:441-446 | The zone directory is the command-line one when given, else the configured directory. |
| Startup.Start | bin/src/hickory-dns.rs:419-602 | The zone loop's operations come first. If some zone does not load, startup ends there with the loop's error. A successful start means every zone loaded and both address lists parsed. Its outcome holds the loaded catalog, and it is a validation outcome exactly on a validation run. |
| Startup.AfterCatalog | bin/src/hickory-dns.rs:470-492 | An unreadable IPv4 list is reported before an unreadable IPv6 list. Either one, or a validation run, ends startup with nothing further issued. A successful outcome holds the catalog and is a validation outcome exactly on a validation run. |
| Startup.Serve | bin/src/hickory-dns.rs:504-602 | The listener section's operations come first. Serving succeeds exactly when the listener section and the privilege drop both succeed, and then the server serves the catalog. |
| StartupProperties.ValidateBuildsNothing | bin/src/hickory-dns.rs:458-492 | A validation run issues only zone-loading operations: no socket, no registration, no privilege call. It succeeds exactly when every zone loads and both address lists parse. |
| StartupProperties.ZoneFailureStopsStartup | bin/src/hickory-dns.rs:458-468 | A zone that does not load stops startup before any listener, with the first failing zone's error. |
| StartupProperties.PhasesInOrder | bin/src/hickory-dns.rs:458-602 | In every startup trace, zone operations come before listener operations, and those before privilege operations. |
| StartupProperties.PrivilegesAfterAllListeners | bin/src/hickory-dns.rs:602 | A privilege operation is issued only when this is not a validation run, every zone loaded, both address lists parsed, and the whole listener section succeeded. At that point every planned listener is registered. |
| StartupProperties.ServingStart | bin/src/hickory-dns.rs:419-602 | A successful non-validation start consists of the zone loads, the complete listener plan, then the privilege drop, and nothing else. It registered exactly the planned listeners, and the drop succeeded. |
| Effects.CallAll | bin/src/hickory-dns.rs:898-934 | A chain of `?`-propagated calls carries out its plan up to the first failure, and reports the failing call. |

## Left out

- Logging output is not modelled: the formatter, the banner and the text of the messages. The log level matters in one place. The local address of each bound socket is an argument of an INFO event, so it is looked up only when that event is enabled. The model takes INFO as enabled exactly when `--quiet` is not given (`bin/src/hickory-dns.rs:422-427`, levels at 864-877). A `RUST_LOG` directive that changes the level of the server's own targets is appended to the filter and can override this. That override is not modelled.
- Logger setup can fail. If the `RUST_LOG` value does not parse, `logger` returns "failed to configure tracing/logging" (`bin/src/hickory-dns.rs:879-885`), and `run` ends with that error before anything else happens (`bin/src/hickory-dns.rs:422-428`). This startup error is not modelled: startup here begins with the logger in place.
- Privileges.Apply: a successful `setgid` or `setuid` is taken to set both the real and the effective id. That is the POSIX behaviour for a process whose effective user is root. `Elevated` also holds when only the real uid is 0, and then POSIX `setuid` changes only the effective id. The model does not make that distinction. So PrivilegeProperties.DropReachesTarget's identity conclusions assume the process runs as effective root.
- Command-line and configuration-file parsing (`Cli::parse`, `Config::read_config`) are not modelled. The parsed command line and configuration are plain records of the fields startup reads. A failure to parse the zone name or an address list is represented by an absent value. A failure to read the configuration file (`bin/src/hickory-dns.rs:439-440`) is not modelled: startup begins from a configuration that was read.
- The Tokio runtime is not modelled. It is built before the zone loop (`bin/src/hickory-dns.rs:448-455`), and a failure to build it ends `run` with an error; that startup error is left out, so startup here begins with the zone loop. `block_on`, `block_until_done` with its panic, and the `--workers` option are runtime plumbing and are left out too.
- The network access lists and the TCP request timeout are passed to the server engine unchanged and are not interpreted.
- Real socket, libc and TLS behaviour is reduced to one outcome per operation: `socket2` calls, bind semantics, `load_cert`, `getpwnam`, `getgrnam`, `setgid` and `setuid`. The outcome is a function of the operation and its arguments (`Effects.Env`). Two identical calls therefore always have the same outcome. In particular, a listen address or port that appears twice can never fail its second bind because the first one holds it.
- Authority internals are uninterpreted constructors. This covers the file, SQLite, forwarder, recursor and blocklist authorities, the conversion of a key to a signer, SIG(0) KEY encoding and the NSEC/NSEC3 proof kind. An authority handle is identified by the request that built it.
- Error messages are structured errors (`Effects.Error`), not the formatted strings.
- Zones.Fallback: the "non-unicode characters in file name" error of the journal path is not modelled, because strings here are always valid Unicode.
- Zones.JournalPath: models `with_extension` on the text after the last `/`. It does not normalise trailing `/` or `.` components the way Rust's path type does.
- The identities logged before and after the privilege drop are not modelled. The gid and egid only appear in those messages.
- Startup.LowerName: lower-cases ASCII letters only, which is what the catalog's lower-cased name does for the ASCII zone names modelled here.
- The `resolver`, `recursor` and `blocklist` build features are implied by the store entry existing. A build without them cannot configure such a store. The `sqlite` and `dnssec` features are modelled as flags. A SQLite store entry is loaded whatever the `sqlite` flag says: in the program that store variant exists only in SQLite builds, so a build without it cannot be given one.
- The re-read of the zone name after all stores have loaded is not modelled. It reads the same accessor that already succeeded at the start of `load_zone`.
