/** Zone loading: key provisioning for signing-capable authorities, and the
    dispatch of each store entry of a zone to an authority constructor. */
module Zones {
  import opened Config
  import opened Effects

  // ---------------------------------------------------------------------------
  // Journal path of the deprecated SQLite form: `with_extension("jrnl")`
  // ---------------------------------------------------------------------------

  /** The position of the last `c` in `s[..k]`, or -1 when there is none. */
  function LastBefore(s: string, c: char, k: nat): (r: int)
    requires k <= |s|
    ensures -1 <= r < k
    ensures 0 <= r ==> s[r] == c
    ensures forall i | r < i < k :: s[i] != c
  {
    if k == 0 then -1 else if s[k - 1] == c then k - 1 else LastBefore(s, c, k - 1)
  }

  /** Where the last path component starts: just past the last '/'. */
  function FileNameStart(p: string): (k: nat)
    ensures k <= |p|
    ensures forall i | k <= i < |p| :: p[i] != '/'
    ensures 0 < k ==> p[k - 1] == '/'
  {
    LastBefore(p, '/', |p|) + 1
  }

  /** Length of the stem of a file name: everything before its last '.',
      unless that '.' is the first character (a dot file has no extension). */
  function StemLength(name: string): (n: nat)
    ensures n <= |name|
    ensures n < |name| ==> 0 < n && name[n] == '.' && forall i | n < i < |name| :: name[i] != '.'
    ensures n == |name| ==> forall i | 0 < i < |name| :: name[i] != '.'
  {
    var d := LastBefore(name, '.', |name|);
    if d <= 0 then |name| else d
  }

  /** A path has a file name unless its last component is empty, `.` or `..`. */
  predicate HasFileName(p: string) {
    var name := p[FileNameStart(p)..];
    name != "" && name != "." && name != ".."
  }

  /** Where the extension of the file name (with its dot) starts; `|p|` when
      there is none. */
  function ExtensionStart(p: string): nat
    requires HasFileName(p)
  {
    FileNameStart(p) + StemLength(p[FileNameStart(p)..])
  }

  /** The journal file path derived from a zone file path. A path without a
      file name is returned unchanged. */
  function JournalPath(p: string): (j: string)
    ensures !HasFileName(p) ==> j == p
    ensures HasFileName(p) ==> |j| >= 5 && j[|j| - 5..] == ".jrnl" && j[..|j| - 5] == p[..ExtensionStart(p)]
  {
    if HasFileName(p) then p[..ExtensionStart(p)] + ".jrnl" else p
  }

  /** A (possibly empty) file extension: a dot followed by neither '.' nor '/'. */
  predicate IsExtension(e: string) {
    e == "" || (e[0] == '.' && forall i | 0 < i < |e| :: e[i] != '.' && e[i] != '/')
  }

  /** The contract of `LastBefore` determines its result. */
  lemma LastBeforeUnique(s: string, c: char, k: nat, r: int)
    requires -1 <= r < k <= |s|
    requires 0 <= r ==> s[r] == c
    requires forall i | r < i < k :: s[i] != c
    ensures r == LastBefore(s, c, k)
  {
  }

  lemma FileNameStartUnique(p: string, k: nat)
    requires k <= |p|
    requires forall i | k <= i < |p| :: p[i] != '/'
    requires 0 < k ==> p[k - 1] == '/'
    ensures k == FileNameStart(p)
  {
    LastBeforeUnique(p, '/', |p|, k - 1);
  }

  lemma StemLengthUnique(name: string, n: nat)
    requires n <= |name|
    requires n < |name| ==> 0 < n && name[n] == '.' && forall i | n < i < |name| :: name[i] != '.'
    requires n == |name| ==> forall i | 0 < i < |name| :: name[i] != '.'
    ensures n == StemLength(name)
  {
    if n < |name| {
      LastBeforeUnique(name, '.', |name|, n);
    }
  }

  /** The journal path is the zone file path with its extension, if any,
      replaced by `.jrnl`: same directory, same non-empty stem, and what is
      dropped is the last extension of the file name (a leading dot does not
      start one). */
  lemma JournalPathReplacesExtension(p: string)
    requires HasFileName(p)
    ensures var j := JournalPath(p);
      && |j| >= 5 && j[|j| - 5..] == ".jrnl"
      && FileNameStart(p) < |j| - 5
      && j[..|j| - 5] == p[..|j| - 5]
      && IsExtension(p[|j| - 5..])
      && (|j| - 5 == |p| ==> forall i | FileNameStart(p) < i < |p| :: p[i] != '.')
      && (|j| - 5 < |p| ==> FileNameStart(p) < |j| - 5 && p[|j| - 5] == '.' && forall i | |j| - 5 < i < |p| :: p[i] != '.')
  {
    JournalPathShape(p);
    var s := FileNameStart(p);
    StemDots(p, s, StemLength(p[s..]));
  }

  lemma JournalPathShape(p: string)
    requires HasFileName(p)
    ensures var j := JournalPath(p);
      && |j| >= 5 && |j| - 5 == ExtensionStart(p)
      && j[|j| - 5..] == ".jrnl"
      && FileNameStart(p) < |j| - 5
      && j[..|j| - 5] == p[..|j| - 5]
      && IsExtension(p[|j| - 5..])
  {
    var k := ExtensionStart(p);
    assert JournalPath(p) == p[..k] + ".jrnl";
    StemNotEmpty(p);
    ExtensionOfPath(p);
  }

  /** A file name's stem is never empty. */
  lemma StemNotEmpty(p: string)
    requires HasFileName(p)
    ensures FileNameStart(p) < ExtensionStart(p)
  {
    var name := p[FileNameStart(p)..];
    if StemLength(name) == |name| { assert name != ""; }
  }

  /** What follows the stem of a path's file name is an extension. */
  lemma ExtensionOfPath(p: string)
    requires HasFileName(p)
    ensures IsExtension(p[ExtensionStart(p)..])
  {
    var s := FileNameStart(p);
    var name := p[s..];
    forall i | 0 <= i < |name| ensures name[i] != '/' {
      assert name[i] == p[s + i];
    }
    ExtensionOfName(name, StemLength(name));
    assert p[ExtensionStart(p)..] == name[StemLength(name)..];
  }

  /** The stem of the file name starting at `s` ends at its last dot, or
      covers the whole name when no dot follows its first character. */
  lemma StemDots(p: string, s: nat, n: nat)
    requires s <= |p| && n == StemLength(p[s..])
    ensures s + n == |p| ==> forall i | s < i < |p| :: p[i] != '.'
    ensures s + n < |p| ==> s < s + n && p[s + n] == '.' && forall i | s + n < i < |p| :: p[i] != '.'
  {
    var name := p[s..];
    if s + n < |p| {
      assert p[s + n] == name[n];
    }
    forall i | s < i < |p| ensures p[i] == name[i - s] { }
  }

  lemma ExtensionOfName(name: string, n: nat)
    requires n == StemLength(name)
    requires forall i | 0 <= i < |name| :: name[i] != '/'
    ensures IsExtension(name[n..])
  {
    var e := name[n..];
    if n < |name| {
      assert e[0] == name[n] == '.';
      forall i | 0 < i < |e| ensures e[i] != '.' && e[i] != '/' {
        assert e[i] == name[n + i] && n < n + i < |name|;
      }
    } else {
      assert e == "";
    }
  }

  lemma SuffixOfConcat(a: string, b: string, s: nat)
    requires s <= |a|
    ensures (a + b)[s..] == a[s..] + b
  {
    forall i | 0 <= i < |a| + |b| - s ensures (a + b)[s..][i] == (a[s..] + b)[i] {
      if i < |a| - s { assert (a + b)[s + i] == a[s + i]; } else { assert (a + b)[s + i] == b[i - (|a| - s)]; }
    }
  }

  /** Appending `.jrnl` to a non-empty stem makes `.jrnl` its extension. */
  lemma AppendJrnlKeepsStem(stem: string)
    requires 0 < |stem|
    ensures StemLength(stem + ".jrnl") == |stem|
  {
    var name := stem + ".jrnl";
    var n := |stem|;
    assert name[n] == ".jrnl"[0];
    forall i | n < i < |name| ensures name[i] != '.' {
      assert name[i] == ".jrnl"[i - n];
    }
    StemLengthUnique(name, n);
  }

  /** The journal path lies in the directory of the zone file. */
  lemma JournalKeepsDirectory(p: string)
    requires HasFileName(p)
    ensures FileNameStart(JournalPath(p)) == FileNameStart(p)
  {
    var s := FileNameStart(p);
    var k := ExtensionStart(p);
    var j := p[..k] + ".jrnl";
    assert JournalPath(p) == j;
    forall i | s <= i < |j| ensures j[i] != '/' {
      if i < k { assert j[i] == p[i]; } else { assert j[i] == ".jrnl"[i - k]; }
    }
    if 0 < s { assert j[s - 1] == p[s - 1]; }
    FileNameStartUnique(j, s);
  }

  /** The file name of the journal path keeps the zone file's stem. */
  lemma JournalKeepsStem(p: string)
    requires HasFileName(p)
    ensures var s := FileNameStart(p);
      && s < ExtensionStart(p) <= |JournalPath(p)|
      && StemLength(JournalPath(p)[s..]) == ExtensionStart(p) - s
  {
    var s := FileNameStart(p);
    var k := ExtensionStart(p);
    var q := p[..k];
    var j := q + ".jrnl";
    assert 0 < k - s by {
      if k - s == |p[s..]| { assert p[s..] != ""; }
    }
    SuffixOfConcat(q, ".jrnl", s);
    AppendJrnlKeepsStem(q[s..]);
  }

  /** Deriving the journal path twice changes nothing more. */
  lemma JournalPathIdempotent(p: string)
    ensures JournalPath(JournalPath(p)) == JournalPath(p)
  {
    if HasFileName(p) {
      var j := JournalPath(p);
      var k := ExtensionStart(p);
      JournalKeepsDirectory(p);
      JournalKeepsStem(p);
      assert HasFileName(j) by { assert |j[FileNameStart(p)..]| > 2; }
      assert ExtensionStart(j) == k;
      assert j[..k] == p[..k];
    }
  }

  // ---------------------------------------------------------------------------
  // Key provisioning (`load_keys`)
  // ---------------------------------------------------------------------------

  /** The operations one key entry asks for when all of them succeed: as a
      zone-signing key it is converted to a signer and added to the authority;
      as an update-authorisation key it is converted to a signer again, its
      public key is derived and added as a host-usage KEY under the zone name. */
  function KeySteps(auth: Authority, zone: Name, key: KeyConfig): seq<Op> {
    (if key.isZoneSigningKey then [LoadSigner(key, zone), AddZoneSigningKey(auth, key)] else [])
    + (if key.isZoneUpdateAuth
       then [LoadSigner(key, zone), DerivePublicKey(key, zone), AddUpdateAuthKey(auth, zone, key)]
       else [])
  }

  /** The key steps of every key entry, in configuration order. */
  function KeyPlan(auth: Authority, zone: Name, keys: seq<KeyConfig>): seq<Op> {
    if |keys| == 0 then [] else KeySteps(auth, zone, keys[0]) + KeyPlan(auth, zone, keys[1..])
  }

  lemma KeyStepsInPhase(auth: Authority, zone: Name, key: KeyConfig)
    ensures InPhase(KeySteps(auth, zone, key), ZonePhase)
  {
  }

  /** One key entry, each of its two roles a chain of `?`-propagated calls. */
  function AddKey(env: Env, auth: Authority, zone: Name, key: KeyConfig): (r: Run<()>)
    ensures Executes(env, r, KeySteps(auth, zone, key))
    ensures r.result.Err? ==> r.result.error.OpFailed?
    ensures InPhase(r.trace, ZonePhase)
  {
    var p: seq<Op> := if key.isZoneSigningKey then [LoadSigner(key, zone), AddZoneSigningKey(auth, key)] else [];
    var q: seq<Op> :=
      if key.isZoneUpdateAuth
      then [LoadSigner(key, zone), DerivePublicKey(key, zone), AddUpdateAuthKey(auth, zone, key)]
      else [];
    var signing := CallAll(env, p);
    var updateAuth := CallAll(env, q);
    SeqExecutes(env, signing, p, updateAuth, q);
    KeyStepsInPhase(auth, zone, key);
    ExecutesInPhase(env, Seq(signing, updateAuth), KeySteps(auth, zone, key), ZonePhase);
    Seq(signing, updateAuth)
  }

  /** Visit the key entries in order, stopping at the first failure. */
  function AddKeys(env: Env, auth: Authority, zone: Name, keys: seq<KeyConfig>): (r: Run<()>)
    ensures Executes(env, r, KeyPlan(auth, zone, keys))
    ensures r.result.Err? ==> r.result.error.OpFailed?
    ensures InPhase(r.trace, ZonePhase)
  {
    if |keys| == 0 then Done
    else
      var first := AddKey(env, auth, zone, keys[0]);
      var rest := AddKeys(env, auth, zone, keys[1..]);
      SeqExecutes(env, first, KeySteps(auth, zone, keys[0]), rest, KeyPlan(auth, zone, keys[1..]));
      InPhaseAppend(first.trace, rest.trace, ZonePhase);
      Seq(first, rest)
  }

  /** No key step secures the zone. */
  lemma {:induction false} KeyPlanNeverSecures(auth: Authority, zone: Name, keys: seq<KeyConfig>)
    ensures forall i | 0 <= i < |KeyPlan(auth, zone, keys)| :: !KeyPlan(auth, zone, keys)[i].SecureZone?
    decreases |keys|
  {
    if |keys| > 0 {
      KeyPlanNeverSecures(auth, zone, keys[1..]);
      var a: seq<Op> := KeySteps(auth, zone, keys[0]);
      var b: seq<Op> := KeyPlan(auth, zone, keys[1..]);
      forall i | 0 <= i < |a + b| ensures !(a + b)[i].SecureZone? {
        if i >= |a| { assert (a + b)[i] == b[i - |a|]; }
      }
    }
  }

  /** What `load_keys` carries out for `auth` when every call succeeds: with
      DNSSEC compiled in and enabled for the zone, the key plan and then
      securing the zone; otherwise nothing. */
  function ProvisionPlan(f: Features, zc: ZoneConfig, auth: Authority, zoneName: Name): seq<Op> {
    if f.dnssec && zc.enableDnssec then KeyPlan(auth, zoneName, zc.keys) + [SecureZone(auth)] else []
  }

  /** `load_keys`: with DNSSEC compiled in and enabled for the zone, add every
      key in order and then secure the zone once; otherwise do nothing. The
      zone name is read again just before securing. */
  function LoadKeys(f: Features, env: Env, auth: Authority, zoneName: Name, zc: ZoneConfig): (r: Run<()>)
    ensures !f.dnssec || !zc.enableDnssec ==> r == Done
    ensures f.dnssec && zc.enableDnssec && zc.zone.Some? ==>
      Executes(env, r, KeyPlan(auth, zoneName, zc.keys) + [SecureZone(auth)])
    ensures StopsAtFirstFailure(env, r)
    ensures r.result.Err? ==> r.result.error.OpFailed? || r.result.error == ZoneNameUnreadable
    ensures InPhase(r.trace, ZonePhase)
  {
    if !f.dnssec || !zc.enableDnssec then Done
    else
      var keys := AddKeys(env, auth, zoneName, zc.keys);
      var secure :=
        match zc.zone
        case None => Run([], Err(ZoneNameUnreadable))
        case Some(_) => Call(env, SecureZone(auth));
      CallExecutes(env, SecureZone(auth));
      ExecutesStops(env, keys, KeyPlan(auth, zoneName, zc.keys));
      ExecutesStops(env, Call(env, SecureZone(auth)), [SecureZone(auth)]);
      SeqExecutes(env, keys, KeyPlan(auth, zoneName, zc.keys), Call(env, SecureZone(auth)), [SecureZone(auth)]);
      assert StopsAtFirstFailure(env, secure);
      SeqStops(env, keys, secure);
      InPhaseAppend(keys.trace, secure.trace, ZonePhase);
      Seq(keys, secure)
  }

  /** `secure_zone` is issued at most once, as the last operation, and only
      after every key step succeeded; a successful provisioning (with DNSSEC
      on) always ends by securing the zone. */
  lemma SecureZoneOnceAndLast(f: Features, env: Env, auth: Authority, zoneName: Name, zc: ZoneConfig)
    ensures var r := LoadKeys(f, env, auth, zoneName, zc);
      && (forall i | 0 <= i < |r.trace| && r.trace[i].SecureZone? ::
            i == |r.trace| - 1 && r.trace[i] == SecureZone(auth) && AllSucceed(env, r.trace[..i]))
      && (f.dnssec && zc.enableDnssec && r.result.Ok? ==>
            |r.trace| > 0 && r.trace[|r.trace| - 1] == SecureZone(auth))
  {
    if f.dnssec && zc.enableDnssec {
      KeyPlanNeverSecures(auth, zoneName, zc.keys);
      if zc.zone.None? {
        UnreadableZoneNeverSecured(f, env, auth, zoneName, zc);
      } else {
        ExecutedSecureLast(env, LoadKeys(f, env, auth, zoneName, zc), KeyPlan(auth, zoneName, zc.keys), auth);
      }
    }
  }

  /** When the zone name cannot be re-read, only key steps are issued. */
  lemma UnreadableZoneNeverSecured(f: Features, env: Env, auth: Authority, zoneName: Name, zc: ZoneConfig)
    requires f.dnssec && zc.enableDnssec && zc.zone.None?
    requires forall i | 0 <= i < |KeyPlan(auth, zoneName, zc.keys)| :: !KeyPlan(auth, zoneName, zc.keys)[i].SecureZone?
    ensures var r := LoadKeys(f, env, auth, zoneName, zc);
      && r.result.Err?
      && forall i | 0 <= i < |r.trace| && r.trace[i].SecureZone? ::
           i == |r.trace| - 1 && r.trace[i] == SecureZone(auth) && AllSucceed(env, r.trace[..i])
  {
    var plan := KeyPlan(auth, zoneName, zc.keys);
    var keys := AddKeys(env, auth, zoneName, zc.keys);
    assert LoadKeys(f, env, auth, zoneName, zc) == Seq(keys, Run([], Err(ZoneNameUnreadable)));
    AttemptPrefix(env, plan);
    assert keys.trace + [] == keys.trace;
    NoSecureInPrefix(keys.trace, plan, env, auth);
  }

  /** Carrying out a plan free of `secure_zone` followed by `secure_zone`:
      it is issued at most once, last, and only after the plan succeeded. */
  lemma ExecutedSecureLast(env: Env, r: Run<()>, plan: seq<Op>, auth: Authority)
    requires Executes(env, r, plan + [SecureZone(auth)])
    requires forall i | 0 <= i < |plan| :: !plan[i].SecureZone?
    ensures forall i | 0 <= i < |r.trace| && r.trace[i].SecureZone? ::
      i == |r.trace| - 1 && r.trace[i] == SecureZone(auth) && AllSucceed(env, r.trace[..i])
    ensures r.result.Ok? ==> |r.trace| > 0 && r.trace[|r.trace| - 1] == SecureZone(auth)
  {
    AttemptAppend(env, plan, [SecureZone(auth)]);
    AllSucceedAppend(env, plan, [SecureZone(auth)]);
    if AllSucceed(env, plan) {
      assert Attempt(env, [SecureZone(auth)]) == [SecureZone(auth)];
      SecuredOnlyAtEnd(r.trace, plan, env, auth);
    } else {
      AttemptPrefix(env, plan);
      NoSecureInPrefix(r.trace, plan, env, auth);
    }
  }

  lemma NoSecureInPrefix(t: seq<Op>, plan: seq<Op>, env: Env, auth: Authority)
    requires t <= plan
    requires forall i | 0 <= i < |plan| :: !plan[i].SecureZone?
    ensures forall i | 0 <= i < |t| && t[i].SecureZone? ::
      i == |t| - 1 && t[i] == SecureZone(auth) && AllSucceed(env, t[..i])
  {
    forall i | 0 <= i < |t| ensures !t[i].SecureZone? {
      assert t[i] == plan[i];
    }
  }

  lemma SecuredOnlyAtEnd(t: seq<Op>, plan: seq<Op>, env: Env, auth: Authority)
    requires t == plan + [SecureZone(auth)]
    requires forall i | 0 <= i < |plan| :: !plan[i].SecureZone?
    requires AllSucceed(env, plan)
    ensures |t| > 0 && t[|t| - 1] == SecureZone(auth)
    ensures forall i | 0 <= i < |t| && t[i].SecureZone? ::
      i == |t| - 1 && t[i] == SecureZone(auth) && AllSucceed(env, t[..i])
  {
    assert t[..|plan|] == plan;
    forall i | 0 <= i < |plan| ensures t[i] == plan[i] {
    }
  }

  // ---------------------------------------------------------------------------
  // Store dispatch (`load_zone`)
  // ---------------------------------------------------------------------------

  /** Construct the authority for `backend`, then, for the backends that can
      be signed, provision its keys; the handle is final only once both
      succeeded. */
  function Construct(f: Features, env: Env, zc: ZoneConfig, zoneName: Name, backend: Backend, withKeys: bool)
    : (r: Run<Authority>)
    ensures StopsAtFirstFailure(env, r)
    ensures r.result.Ok? ==> r.result.value == Authority(AuthorityRequest(zoneName, zc.zoneType, backend))
    ensures |r.trace| > 0 && r.trace[0] == NewAuthority(AuthorityRequest(zoneName, zc.zoneType, backend))
    ensures r.result.Err? ==> r.result.error.OpFailed? || r.result.error == ZoneNameUnreadable
    ensures InPhase(r.trace, ZonePhase)
    ensures zc.zone.Some? ==>
      var auth := Authority(AuthorityRequest(zoneName, zc.zoneType, backend));
      Executes(env, r, [NewAuthority(auth.request)] + (if withKeys then ProvisionPlan(f, zc, auth, zoneName) else []))
  {
    var auth := Authority(AuthorityRequest(zoneName, zc.zoneType, backend));
    ConstructExecutes(f, env, zc, zoneName, auth, withKeys);
    var keys := if withKeys then LoadKeys(f, env, auth, zoneName, zc) else Done;
    var made := Call(env, NewAuthority(auth.request));
    CallExecutes(env, NewAuthority(auth.request));
    ExecutesStops(env, made, [NewAuthority(auth.request)]);
    assert StopsAtFirstFailure(env, Run([], Ok(auth)));
    SeqStops(env, keys, Run([], Ok(auth)));
    SeqStops(env, made, Seq(keys, Run([], Ok(auth))));
    InPhaseAppend(keys.trace, [], ZonePhase);
    InPhaseAppend(made.trace, Seq(keys, Run([], Ok(auth))).trace, ZonePhase);
    Seq(made, Seq(keys, Run([], Ok(auth))))
  }

  /** Constructing, then provisioning keys, carries out the constructor call
      followed by the provisioning plan. */
  lemma ConstructExecutes(f: Features, env: Env, zc: ZoneConfig, zoneName: Name, auth: Authority, withKeys: bool)
    ensures var keys := if withKeys then LoadKeys(f, env, auth, zoneName, zc) else Done;
      zc.zone.Some? ==>
        Executes(env, Seq(Call(env, NewAuthority(auth.request)), Seq(keys, Run([], Ok(auth)))),
                 [NewAuthority(auth.request)] + (if withKeys then ProvisionPlan(f, zc, auth, zoneName) else []))
  {
    if zc.zone.Some? {
      var keys := if withKeys then LoadKeys(f, env, auth, zoneName, zc) else Done;
      var plan := if withKeys then ProvisionPlan(f, zc, auth, zoneName) else [];
      if withKeys && f.dnssec && zc.enableDnssec {
        assert Executes(env, keys, plan);
      } else {
        assert keys == Done && plan == [];
        DoneExecutes(env);
      }
      var done: Run<Authority> := Run([], Ok(auth));
      assert Executes(env, done, []);
      SeqExecutes(env, keys, plan, done, []);
      assert plan + [] == plan;
      CallThen(env, NewAuthority(auth.request), Seq(keys, done), plan);
    }
  }

  /** One arm of the store match in `load_zone`. Explicit backends are built
      from their own descriptor (a zone-level `file` only draws a warning in
      the file and SQLite arms); an entry naming no backend falls through to
      the deprecated SQLite form when updates are allowed and SQLite is
      compiled in, and to a plain file backend otherwise, both built from the
      zone-level `file`. */
  function LoadStore(f: Features, env: Env, zoneDir: string, zc: ZoneConfig, zoneName: Name, store: StoreConfig)
    : (r: Run<Authority>)
    ensures StopsAtFirstFailure(env, r)
    ensures r.result.Ok? ==>
      r.result.value.request.zone == zoneName && r.result.value.request.zoneType == zc.zoneType
    ensures InPhase(r.trace, ZonePhase)
  {
    var ignoring := if zc.file.Some? then [Warn(IgnoringZoneFile)] else [];
    match store
    case Sqlite(config) =>
      var r := Construct(f, env, zc, zoneName, SqliteBackend(config, zc.allowAxfr, zc.enableDnssec, zoneDir), true);
      PrefixStops(env, ignoring, r);
      Prefix(ignoring, r)
    case File(config) =>
      var r := Construct(f, env, zc, zoneName, FileBackend(config, zc.allowAxfr, zoneDir), true);
      PrefixStops(env, ignoring, r);
      Prefix(ignoring, r)
    case Forward(config) =>
      Construct(f, env, zc, zoneName, ForwardBackend(config), false)
    case Recursor(config) =>
      Construct(f, env, zc, zoneName, RecursorBackend(config, zoneDir), false)
    case Blocklist(config) =>
      Construct(f, env, zc, zoneName, BlocklistBackend(config, zoneDir), false)
    case Legacy =>
      Fallback(f, env, zoneDir, zc, zoneName)
  }

  /** The two fallback arms of the store match, for an entry naming no
      backend: both need the zone-level `file`. */
  function Fallback(f: Features, env: Env, zoneDir: string, zc: ZoneConfig, zoneName: Name): (r: Run<Authority>)
    ensures StopsAtFirstFailure(env, r)
    ensures r.result.Ok? ==>
      r.result.value.request.zone == zoneName && r.result.value.request.zoneType == zc.zoneType
    ensures InPhase(r.trace, ZonePhase)
  {
    if f.sqlite && zc.allowUpdate then
      var r :=
        match zc.file
        case None => Run([], Err(MissingZoneFile))
        case Some(path) =>
          var config := SqliteConfig(path, JournalPath(path), zc.allowUpdate);
          Construct(f, env, zc, zoneName, SqliteBackend(config, zc.allowAxfr, zc.enableDnssec, zoneDir), true);
      PrefixStops(env, [Warn(SqliteFormDeprecated)], r);
      Prefix([Warn(SqliteFormDeprecated)], r)
    else
      match zc.file
      case None => Run([], Err(MissingZoneFile))
      case Some(path) => Construct(f, env, zc, zoneName, FileBackend(FileConfig(path), zc.allowAxfr, zoneDir), true)
  }

  /** The stores' operations, one store's arm after the other. */
  function StoresTrace(f: Features, env: Env, zoneDir: string, zc: ZoneConfig, zoneName: Name, stores: seq<StoreConfig>)
    : seq<Op>
    decreases |stores|
  {
    if |stores| == 0 then []
    else LoadStore(f, env, zoneDir, zc, zoneName, stores[0]).trace + StoresTrace(f, env, zoneDir, zc, zoneName, stores[1..])
  }

  /** Store `k` is the first whose arm fails, and `e` is its error. */
  predicate FirstStoreFailure(f: Features, env: Env, zoneDir: string, zc: ZoneConfig, zoneName: Name,
                              stores: seq<StoreConfig>, k: nat, e: Error) {
    && k < |stores|
    && (forall j | 0 <= j < k :: LoadStore(f, env, zoneDir, zc, zoneName, stores[j]).result.Ok?)
    && LoadStore(f, env, zoneDir, zc, zoneName, stores[k]).result == Err(e)
  }

  /** The `for store in &zone_config.stores` loop: one authority per store,
      pushed in store order, the first error abandoning the whole zone. What
      it issues is every store's arm in turn, up to and including the first
      failing one. */
  function LoadStores(f: Features, env: Env, zoneDir: string, zc: ZoneConfig, zoneName: Name, stores: seq<StoreConfig>)
    : (r: Run<seq<Authority>>)
    ensures StopsAtFirstFailure(env, r)
    ensures InPhase(r.trace, ZonePhase)
    ensures r.result.Ok? ==>
      && |r.result.value| == |stores|
      && (forall i | 0 <= i < |stores| ::
           LoadStore(f, env, zoneDir, zc, zoneName, stores[i]).result == Ok(r.result.value[i]))
      && r.trace == StoresTrace(f, env, zoneDir, zc, zoneName, stores)
    ensures r.result.Err? ==>
      exists k: nat ::
        && FirstStoreFailure(f, env, zoneDir, zc, zoneName, stores, k, r.result.error)
        && r.trace == StoresTrace(f, env, zoneDir, zc, zoneName, stores[..k + 1])
    decreases |stores|
  {
    if |stores| == 0 then Run([], Ok([]))
    else
      var first := LoadStore(f, env, zoneDir, zc, zoneName, stores[0]);
      match first.result
      case Err(e) =>
        FirstStoreFails(f, env, zoneDir, zc, zoneName, stores);
        Run(first.trace, Err(e))
      case Ok(a) =>
        var rest := LoadStores(f, env, zoneDir, zc, zoneName, stores[1..]);
        StoresCons(f, env, zoneDir, zc, zoneName, stores, rest);
        Run(first.trace + rest.trace, match rest.result case Ok(more) => Ok([a] + more) case Err(e) => Err(e))
  }

  /** The loop when the first store fails: that store is the failing one, and
      only its arm was issued. */
  lemma FirstStoreFails(f: Features, env: Env, zoneDir: string, zc: ZoneConfig, zoneName: Name, stores: seq<StoreConfig>)
    requires 0 < |stores|
    requires LoadStore(f, env, zoneDir, zc, zoneName, stores[0]).result.Err?
    ensures var first := LoadStore(f, env, zoneDir, zc, zoneName, stores[0]);
      && FirstStoreFailure(f, env, zoneDir, zc, zoneName, stores, 0, first.result.error)
      && first.trace == StoresTrace(f, env, zoneDir, zc, zoneName, stores[..1])
  {
    var head := stores[..1];
    assert head[0] == stores[0] && |head[1..]| == 0;
    assert StoresTrace(f, env, zoneDir, zc, zoneName, head)
        == LoadStore(f, env, zoneDir, zc, zoneName, stores[0]).trace + [];
  }

  /** A turn of the store loop after the first store loaded: what the loop
      promises of the remaining stores it promises of all of them. */
  lemma StoresCons(f: Features, env: Env, zoneDir: string, zc: ZoneConfig, zoneName: Name,
                   stores: seq<StoreConfig>, rest: Run<seq<Authority>>)
    requires 0 < |stores|
    requires LoadStore(f, env, zoneDir, zc, zoneName, stores[0]).result.Ok?
    requires StopsAtFirstFailure(env, rest)
    requires InPhase(rest.trace, ZonePhase)
    requires rest.result.Ok? ==>
      && |rest.result.value| == |stores[1..]|
      && (forall i | 0 <= i < |stores[1..]| ::
           LoadStore(f, env, zoneDir, zc, zoneName, stores[1..][i]).result == Ok(rest.result.value[i]))
      && rest.trace == StoresTrace(f, env, zoneDir, zc, zoneName, stores[1..])
    requires rest.result.Err? ==>
      exists k: nat ::
        && FirstStoreFailure(f, env, zoneDir, zc, zoneName, stores[1..], k, rest.result.error)
        && rest.trace == StoresTrace(f, env, zoneDir, zc, zoneName, stores[1..][..k + 1])
    ensures var first := LoadStore(f, env, zoneDir, zc, zoneName, stores[0]);
      var r := Run(first.trace + rest.trace,
                   match rest.result case Ok(more) => Ok([first.result.value] + more) case Err(e) => Err(e));
      && StopsAtFirstFailure(env, r)
      && InPhase(r.trace, ZonePhase)
      && (r.result.Ok? ==>
            && |r.result.value| == |stores|
            && (forall i | 0 <= i < |stores| ::
                 LoadStore(f, env, zoneDir, zc, zoneName, stores[i]).result == Ok(r.result.value[i]))
            && r.trace == StoresTrace(f, env, zoneDir, zc, zoneName, stores))
      && (r.result.Err? ==>
            exists k: nat ::
              && FirstStoreFailure(f, env, zoneDir, zc, zoneName, stores, k, r.result.error)
              && r.trace == StoresTrace(f, env, zoneDir, zc, zoneName, stores[..k + 1]))
  {
    var first := LoadStore(f, env, zoneDir, zc, zoneName, stores[0]);
    SeqStops(env, Run(first.trace, Ok(())), rest);
    InPhaseAppend(first.trace, rest.trace, ZonePhase);
    if rest.result.Ok? {
      var all := [first.result.value] + rest.result.value;
      forall i | 0 <= i < |stores|
        ensures LoadStore(f, env, zoneDir, zc, zoneName, stores[i]).result == Ok(all[i])
      {
        if 0 < i { assert stores[i] == stores[1..][i - 1]; }
      }
    } else {
      var k: nat :| && FirstStoreFailure(f, env, zoneDir, zc, zoneName, stores[1..], k, rest.result.error)
                    && rest.trace == StoresTrace(f, env, zoneDir, zc, zoneName, stores[1..][..k + 1]);
      StoreFailureShift(f, env, zoneDir, zc, zoneName, stores, k, rest.result.error);
    }
  }

  /** A store failing after the first store loaded is, counted from the
      whole list, one index further on, and the first store's arm comes
      before what the others issued. */
  lemma StoreFailureShift(f: Features, env: Env, zoneDir: string, zc: ZoneConfig, zoneName: Name,
                          stores: seq<StoreConfig>, k: nat, e: Error)
    requires 0 < |stores|
    requires LoadStore(f, env, zoneDir, zc, zoneName, stores[0]).result.Ok?
    requires FirstStoreFailure(f, env, zoneDir, zc, zoneName, stores[1..], k, e)
    ensures FirstStoreFailure(f, env, zoneDir, zc, zoneName, stores, k + 1, e)
    ensures StoresTrace(f, env, zoneDir, zc, zoneName, stores[..k + 2])
         == LoadStore(f, env, zoneDir, zc, zoneName, stores[0]).trace
            + StoresTrace(f, env, zoneDir, zc, zoneName, stores[1..][..k + 1])
  {
    forall j | 0 <= j < k + 1 ensures LoadStore(f, env, zoneDir, zc, zoneName, stores[j]).result.Ok? {
      if 0 < j { assert stores[j] == stores[1..][j - 1]; }
    }
    assert stores[k + 1] == stores[1..][k];
    StoresTraceHead(f, env, zoneDir, zc, zoneName, stores, k + 1);
  }

  /** The first `m + 1` stores issue the first store's arm, then what the
      next `m` issue. */
  lemma StoresTraceHead(f: Features, env: Env, zoneDir: string, zc: ZoneConfig, zoneName: Name,
                        stores: seq<StoreConfig>, m: nat)
    requires m < |stores|
    ensures StoresTrace(f, env, zoneDir, zc, zoneName, stores[..m + 1])
         == LoadStore(f, env, zoneDir, zc, zoneName, stores[0]).trace
            + StoresTrace(f, env, zoneDir, zc, zoneName, stores[1..][..m])
  {
    var head := stores[..m + 1];
    assert head[0] == stores[0] && head[1..] == stores[1..][..m];
  }

  /** The warning `load_zone` gives for a zone-level `allow_update`. */
  function UpdateWarning(zc: ZoneConfig): seq<Op> {
    if zc.allowUpdate then [Warn(AllowUpdateDeprecated)] else []
  }

  /** `load_zone`: read the zone name, warn about a zone-level
      `allow_update`, then load every store. */
  function LoadZone(f: Features, env: Env, zoneDir: string, zc: ZoneConfig): (r: Run<seq<Authority>>)
    ensures zc.zone.None? ==> r == Run([], Err(ZoneNameUnreadable))
    ensures zc.zone.Some? && |zc.stores| == 0 ==> r.result == Ok([])
    ensures StopsAtFirstFailure(env, r)
    ensures InPhase(r.trace, ZonePhase)
    ensures r.result.Ok? ==>
      && |r.result.value| == |zc.stores|
      && (forall i | 0 <= i < |zc.stores| ::
           LoadStore(f, env, zoneDir, zc, zc.zone.value, zc.stores[i]).result == Ok(r.result.value[i]))
      && r.trace == UpdateWarning(zc) + StoresTrace(f, env, zoneDir, zc, zc.zone.value, zc.stores)
    ensures zc.zone.Some? && r.result.Err? ==>
      exists k: nat ::
        && FirstStoreFailure(f, env, zoneDir, zc, zc.zone.value, zc.stores, k, r.result.error)
        && r.trace == UpdateWarning(zc) + StoresTrace(f, env, zoneDir, zc, zc.zone.value, zc.stores[..k + 1])
  {
    match zc.zone
    case None => Run([], Err(ZoneNameUnreadable))
    case Some(name) =>
      var warn := UpdateWarning(zc);
      var r := LoadStores(f, env, zoneDir, zc, name, zc.stores);
      PrefixStops(env, warn, r);
      InPhaseAppend(warn, r.trace, ZonePhase);
      Prefix(warn, r)
  }
}

/** Properties of the store dispatch and of zone loading. */
module ZoneProperties {
  import opened Config
  import opened Effects
  import opened Zones

  /** Operations that provision or use DNSSEC keys. */
  predicate IsKeyOp(op: Op) {
    op.LoadSigner? || op.AddZoneSigningKey? || op.DerivePublicKey? || op.AddUpdateAuthKey? || op.SecureZone?
  }

  /** The backend is of the store's kind and built from the store's own
      descriptor. */
  predicate Carries(store: StoreConfig, b: Backend) {
    match store
    case File(c) => b.FileBackend? && b.file == c
    case Sqlite(c) => b.SqliteBackend? && b.sqlite == c
    case Forward(c) => b.ForwardBackend? && b.forward == c
    case Recursor(c) => b.RecursorBackend? && b.recursor == c
    case Blocklist(c) => b.BlocklistBackend? && b.blocklist == c
    case Legacy => false
  }

  lemma KeyPlanOnlyKeyOps(auth: Authority, zone: Name, keys: seq<KeyConfig>)
    ensures forall i | 0 <= i < |KeyPlan(auth, zone, keys)| :: IsKeyOp(KeyPlan(auth, zone, keys)[i])
    decreases |keys|
  {
    if |keys| > 0 {
      KeyPlanOnlyKeyOps(auth, zone, keys[1..]);
      var a: seq<Op> := KeySteps(auth, zone, keys[0]);
      var b: seq<Op> := KeyPlan(auth, zone, keys[1..]);
      forall i | 0 <= i < |a + b| ensures IsKeyOp((a + b)[i]) {
        if i >= |a| { assert (a + b)[i] == b[i - |a|]; }
      }
    }
  }

  /** A file or SQLite store is built from its own descriptor, whatever the
      zone-level `file` says: that value only adds a leading warning. */
  lemma SigningStoreIgnoresZoneFile(f: Features, env: Env, zoneDir: string, zc: ZoneConfig, zoneName: Name, store: StoreConfig)
    requires store.File? || store.Sqlite?
    ensures var r := LoadStore(f, env, zoneDir, zc, zoneName, store);
      var bare := LoadStore(f, env, zoneDir, zc.(file := None), zoneName, store);
      && r.result == bare.result
      && r.trace == (if zc.file.Some? then [Warn(IgnoringZoneFile)] else []) + bare.trace
      && (r.result.Ok? ==> Carries(store, r.result.value.request.backend))
  {
    var zc' := zc.(file := None);
    var ignoring := if zc.file.Some? then [Warn(IgnoringZoneFile)] else [];
    var b :=
      if store.File? then FileBackend(store.file, zc.allowAxfr, zoneDir)
      else SqliteBackend(store.sqlite, zc.allowAxfr, zc.enableDnssec, zoneDir);
    ConstructIgnoresZoneFile(f, env, zc, zoneName, b, true);
    var con := Construct(f, env, zc, zoneName, b, true);
    assert LoadStore(f, env, zoneDir, zc, zoneName, store) == Prefix(ignoring, con);
    assert LoadStore(f, env, zoneDir, zc', zoneName, store) == Prefix([], con);
    assert [] + con.trace == con.trace;
    assert Carries(store, b);
  }

  /** A forwarder, recursor or blocklist store does not depend on the
      zone-level `file` at all, and is built from its own descriptor. */
  lemma NonSigningStoreIgnoresZoneFile(f: Features, env: Env, zoneDir: string, zc: ZoneConfig, zoneName: Name, store: StoreConfig)
    requires store.Forward? || store.Recursor? || store.Blocklist?
    ensures var r := LoadStore(f, env, zoneDir, zc, zoneName, store);
      && r == LoadStore(f, env, zoneDir, zc.(file := None), zoneName, store)
      && (r.result.Ok? ==> Carries(store, r.result.value.request.backend))
  {
    match store {
      case Forward(c) => ConstructIgnoresZoneFile(f, env, zc, zoneName, ForwardBackend(c), false);
      case Recursor(c) => ConstructIgnoresZoneFile(f, env, zc, zoneName, RecursorBackend(c, zoneDir), false);
      case Blocklist(c) => ConstructIgnoresZoneFile(f, env, zc, zoneName, BlocklistBackend(c, zoneDir), false);
    }
  }

  /** Construction and key provisioning never read the zone-level `file`. */
  lemma ConstructIgnoresZoneFile(f: Features, env: Env, zc: ZoneConfig, zoneName: Name, backend: Backend, withKeys: bool)
    ensures var r := Construct(f, env, zc, zoneName, backend, withKeys);
      && r == Construct(f, env, zc.(file := None), zoneName, backend, withKeys)
      && (r.result.Ok? ==> r.result.value.request.backend == backend)
  {
    var a := Authority(AuthorityRequest(zoneName, zc.zoneType, backend));
    assert LoadKeys(f, env, a, zoneName, zc) == LoadKeys(f, env, a, zoneName, zc.(file := None));
  }

  /** The forwarder, recursor and blocklist arms never touch keys. */
  lemma NonSigningArmsSkipKeys(f: Features, env: Env, zoneDir: string, zc: ZoneConfig, zoneName: Name, store: StoreConfig)
    requires store.Forward? || store.Recursor? || store.Blocklist?
    ensures var r := LoadStore(f, env, zoneDir, zc, zoneName, store);
      |r.trace| == 1 && r.trace[0].NewAuthority? && !IsKeyOp(r.trace[0])
  {
  }

  /** A successful arm's trace: warnings, then the constructor call for the
      handle it returns, then that handle's whole provisioning plan. */
  predicate ProvisionedAfterWarnings(f: Features, zc: ZoneConfig, zoneName: Name, r: Run<Authority>) {
    r.result.Ok? ==>
      var k := [NewAuthority(r.result.value.request)] + ProvisionPlan(f, zc, r.result.value, zoneName);
      && |k| <= |r.trace|
      && r.trace[|r.trace| - |k|..] == k
      && forall i | 0 <= i < |r.trace| - |k| :: r.trace[i].Warn?
  }

  /** The file, SQLite and fallback arms provision keys after construction:
      a handle they return was made by the constructor call and then put
      through the zone's whole provisioning plan (with DNSSEC on, every key
      step and securing the zone, last), with nothing but warnings before. */
  lemma SigningArmsProvisionKeys(f: Features, env: Env, zoneDir: string, zc: ZoneConfig, zoneName: Name, store: StoreConfig)
    requires store.File? || store.Sqlite? || store.Legacy?
    requires zc.zone.Some?
    ensures ProvisionedAfterWarnings(f, zc, zoneName, LoadStore(f, env, zoneDir, zc, zoneName, store))
  {
    if store.Legacy? {
      assert LoadStore(f, env, zoneDir, zc, zoneName, store) == Fallback(f, env, zoneDir, zc, zoneName);
      FallbackProvisions(f, env, zoneDir, zc, zoneName);
    } else {
      ExplicitArmProvisions(f, env, zoneDir, zc, zoneName, store);
    }
  }

  lemma ExplicitArmProvisions(f: Features, env: Env, zoneDir: string, zc: ZoneConfig, zoneName: Name, store: StoreConfig)
    requires store.File? || store.Sqlite?
    requires zc.zone.Some?
    ensures ProvisionedAfterWarnings(f, zc, zoneName, LoadStore(f, env, zoneDir, zc, zoneName, store))
  {
    var ws := if zc.file.Some? then [Warn(IgnoringZoneFile)] else [];
    var backend :=
      if store.File? then FileBackend(store.file, zc.allowAxfr, zoneDir)
      else SqliteBackend(store.sqlite, zc.allowAxfr, zc.enableDnssec, zoneDir);
    assert LoadStore(f, env, zoneDir, zc, zoneName, store) == Prefix(ws, Construct(f, env, zc, zoneName, backend, true));
    WarnedArmProvisions(f, env, zc, zoneName, backend, ws);
  }

  lemma FallbackProvisions(f: Features, env: Env, zoneDir: string, zc: ZoneConfig, zoneName: Name)
    requires zc.zone.Some?
    ensures ProvisionedAfterWarnings(f, zc, zoneName, Fallback(f, env, zoneDir, zc, zoneName))
  {
    if zc.file.Some? {
      var path := zc.file.value;
      if f.sqlite && zc.allowUpdate {
        var backend := SqliteBackend(SqliteConfig(path, JournalPath(path), zc.allowUpdate),
                                     zc.allowAxfr, zc.enableDnssec, zoneDir);
        WarnedArmProvisions(f, env, zc, zoneName, backend, [Warn(SqliteFormDeprecated)]);
      } else {
        var backend := FileBackend(FileConfig(path), zc.allowAxfr, zoneDir);
        assert Fallback(f, env, zoneDir, zc, zoneName) == Prefix([], Construct(f, env, zc, zoneName, backend, true));
        WarnedArmProvisions(f, env, zc, zoneName, backend, []);
      }
    }
  }

  /** A signing construction after some warnings. */
  lemma WarnedArmProvisions(f: Features, env: Env, zc: ZoneConfig, zoneName: Name, backend: Backend, ws: seq<Op>)
    requires zc.zone.Some?
    requires forall i | 0 <= i < |ws| :: ws[i].Warn?
    ensures ProvisionedAfterWarnings(f, zc, zoneName, Prefix(ws, Construct(f, env, zc, zoneName, backend, true)))
  {
    var con := Construct(f, env, zc, zoneName, backend, true);
    ConstructedTrace(f, env, zc, zoneName, backend);
    WarningsThen(ws, con.trace);
  }

  /** A successful construction with key loading carried out exactly the
      constructor call and the provisioning plan. */
  lemma ConstructedTrace(f: Features, env: Env, zc: ZoneConfig, zoneName: Name, backend: Backend)
    requires zc.zone.Some?
    ensures var r := Construct(f, env, zc, zoneName, backend, true);
      r.result.Ok? ==> r.trace == [NewAuthority(r.result.value.request)] + ProvisionPlan(f, zc, r.result.value, zoneName)
  {
    var r := Construct(f, env, zc, zoneName, backend, true);
    if r.result.Ok? {
      var auth := Authority(AuthorityRequest(zoneName, zc.zoneType, backend));
      AttemptAll(env, [NewAuthority(auth.request)] + ProvisionPlan(f, zc, auth, zoneName));
    }
  }

  /** Warnings followed by a plan: the plan is the trailing part and
      everything before it is a warning. */
  lemma WarningsThen(ws: seq<Op>, k: seq<Op>)
    requires forall i | 0 <= i < |ws| :: ws[i].Warn?
    ensures var t := ws + k;
      && |k| <= |t|
      && t[|t| - |k|..] == k
      && forall i | 0 <= i < |t| - |k| :: t[i].Warn?
  {
    var t := ws + k;
    assert t[|t| - |k|..] == k;
    forall i | 0 <= i < |t| - |k| ensures t[i].Warn? {
      assert t[i] == ws[i];
    }
  }

  /** The fallback arms, for an entry naming no backend: the zone-level
      `file` is required; with SQLite compiled in and updates allowed the
      deprecated SQLite form is used with the derived journal path and
      updates on, otherwise a plain file backend. */
  lemma FallbackArms(f: Features, env: Env, zoneDir: string, zc: ZoneConfig, zoneName: Name)
    ensures var r := LoadStore(f, env, zoneDir, zc, zoneName, Legacy);
      && (zc.file.None? <==> r.result == Err(MissingZoneFile))
      && (zc.file.None? ==> forall i | 0 <= i < |r.trace| :: r.trace[i].Warn?)
      && (f.sqlite && zc.allowUpdate <==> |r.trace| > 0 && r.trace[0] == Warn(SqliteFormDeprecated))
      && (r.result.Ok? && f.sqlite && zc.allowUpdate ==>
            r.result.value.request.backend ==
              SqliteBackend(SqliteConfig(zc.file.value, JournalPath(zc.file.value), true),
                            zc.allowAxfr, zc.enableDnssec, zoneDir))
      && (r.result.Ok? && !(f.sqlite && zc.allowUpdate) ==>
            r.result.value.request.backend == FileBackend(FileConfig(zc.file.value), zc.allowAxfr, zoneDir))
  {
  }

  /** A loaded zone holds one authority per store, in store order, each keyed
      to the zone's name and type and, for an explicit store, built from that
      store's own descriptor. */
  lemma ZoneAuthoritiesFollowStores(f: Features, env: Env, zoneDir: string, zc: ZoneConfig)
    ensures var r := LoadZone(f, env, zoneDir, zc);
      r.result.Ok? ==>
        && |r.result.value| == |zc.stores|
        && forall i | 0 <= i < |zc.stores| ::
             && r.result.value[i].request.zone == zc.zone.value
             && r.result.value[i].request.zoneType == zc.zoneType
             && (!zc.stores[i].Legacy? ==> Carries(zc.stores[i], r.result.value[i].request.backend))
  {
    var r := LoadZone(f, env, zoneDir, zc);
    if r.result.Ok? {
      forall i | 0 <= i < |zc.stores|
        ensures && r.result.value[i].request.zone == zc.zone.value
                && r.result.value[i].request.zoneType == zc.zoneType
                && (!zc.stores[i].Legacy? ==> Carries(zc.stores[i], r.result.value[i].request.backend))
      {
        var store := zc.stores[i];
        if store.File? || store.Sqlite? {
          SigningStoreIgnoresZoneFile(f, env, zoneDir, zc, zc.zone.value, store);
        } else if !store.Legacy? {
          NonSigningStoreIgnoresZoneFile(f, env, zoneDir, zc, zc.zone.value, store);
        }
      }
    }
  }

  /** The first failing store abandons the zone: the stores before it loaded,
      its error is the zone's error, and no handle is returned. */
  lemma ZoneAbortsOnFirstStoreError(f: Features, env: Env, zoneDir: string, zc: ZoneConfig)
    requires zc.zone.Some?
    ensures var r := LoadZone(f, env, zoneDir, zc);
      r.result.Err? ==>
        exists k | 0 <= k < |zc.stores| ::
          && (forall j | 0 <= j < k :: LoadStore(f, env, zoneDir, zc, zc.zone.value, zc.stores[j]).result.Ok?)
          && LoadStore(f, env, zoneDir, zc, zc.zone.value, zc.stores[k]).result == Err(r.result.error)
          && r.trace == UpdateWarning(zc) + StoresTrace(f, env, zoneDir, zc, zc.zone.value, zc.stores[..k + 1])
  {
  }
}
