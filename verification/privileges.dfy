/** `check_drop_privs`: a process started as root switches to the configured
    user and group once every listener is bound. */
module Privileges {
  import opened Config
  import opened Effects

  /** The process identity and the user and group databases, as `getuid`,
      `geteuid`, `getgid`, `getegid`, `getpwnam` and `getgrnam` see them. An
      identity the C library reports as -1 is `0xFFFF_FFFF` here, as in the
      unsigned `uid_t` / `gid_t`. */
  datatype Host = Host(uid: u32, euid: u32, gid: u32, egid: u32, users: map<string, u32>, groups: map<string, u32>)

  predicate Elevated(h: Host) {
    h.uid == 0 || h.euid == 0
  }

  /** A name with an interior NUL cannot be passed to the C library. */
  predicate HasNul(name: string) {
    '\0' in name
  }

  /** Only a Unix build running as root does anything. */
  predicate Acts(f: Features, h: Host) {
    f.unix && Elevated(h)
  }

  /** The identity calls, made only once both names are known. The two calls
      are evaluated together and only then are their return codes looked at,
      so `setuid` is attempted even when `setgid` failed. */
  function SetIds(env: Env, gid: u32, uid: u32): (r: Run<()>)
    ensures r.trace == [SetGid(gid), SetUid(uid)]
    ensures r.result.Ok? <==> Succeeds(env, SetGid(gid)) && Succeeds(env, SetUid(uid))
    ensures r.result.Err? ==> r.result.error == (if Succeeds(env, SetGid(gid)) then SetUidFailed else SetGidFailed)
  {
    var gidOk := Succeeds(env, SetGid(gid));
    var uidOk := Succeeds(env, SetUid(uid));
    var trace := [SetGid(gid), SetUid(uid)];
    if !gidOk then Run(trace, Err(SetGidFailed))
    else if !uidOk then Run(trace, Err(SetUidFailed))
    else Run(trace, Ok(()))
  }

  /** `check_drop_privs`, both the Unix and the non-Unix variant. Failures are
      reported in the order: NUL in the user name, NUL in the group name,
      unknown user, unknown group, failed `setgid`, failed `setuid`. Both names
      are looked up before either result is checked. */
  function CheckDropPrivs(f: Features, env: Env, h: Host, user: string, group: string): (r: Run<()>)
    ensures !Acts(f, h) ==> r == Run([], Ok(()))
    ensures Acts(f, h) ==>
      && (r.result == Err(UserNameHasNul(user)) <==> HasNul(user))
      && (r.result == Err(GroupNameHasNul(group)) <==> !HasNul(user) && HasNul(group))
      && (r.result == Err(UnknownUser(user)) <==> !HasNul(user) && !HasNul(group) && user !in h.users)
      && (r.result == Err(UnknownGroup(group)) <==>
            !HasNul(user) && !HasNul(group) && user in h.users && group !in h.groups)
    ensures Acts(f, h) && (HasNul(user) || HasNul(group)) ==> r.trace == []
    ensures Acts(f, h) && !HasNul(user) && !HasNul(group) && (user !in h.users || group !in h.groups) ==>
      r.trace == [LookupUser(user), LookupGroup(group)]
    ensures InPhase(r.trace, PrivilegePhase)
  {
    if !Acts(f, h) then Run([], Ok(()))
    else if HasNul(user) then Run([], Err(UserNameHasNul(user)))
    else if HasNul(group) then Run([], Err(GroupNameHasNul(group)))
    else
      var lookups := [LookupUser(user), LookupGroup(group)];
      if user !in h.users then Run(lookups, Err(UnknownUser(user)))
      else if group !in h.groups then Run(lookups, Err(UnknownGroup(group)))
      else
        var ids := SetIds(env, h.groups[group], h.users[user]);
        Run(lookups + ids.trace, ids.result)
  }

  /** The identity after the calls of `trace` that succeed: a successful
      `setgid` by root sets the real and effective group, a successful
      `setuid` by root the real and effective user. */
  function Apply(env: Env, h: Host, trace: seq<Op>): Host
    decreases |trace|
  {
    if |trace| == 0 then h
    else
      var op := trace[0];
      var h' :=
        if !Succeeds(env, op) then h
        else match op
          case SetGid(g) => h.(gid := g, egid := g)
          case SetUid(u) => h.(uid := u, euid := u)
          case _ => h;
      Apply(env, h', trace[1..])
  }
}

/** What the privilege drop promises. */
module PrivilegeProperties {
  import opened Config
  import opened Effects
  import opened Privileges

  /** Identity calls are made only by a Unix build running as root, and only
      once both names are known. */
  lemma SetCallsOnlyWhenElevated(f: Features, env: Env, h: Host, user: string, group: string)
    ensures var r := CheckDropPrivs(f, env, h, user, group);
      forall i | 0 <= i < |r.trace| && (r.trace[i].SetGid? || r.trace[i].SetUid?) ::
        Acts(f, h) && user in h.users && group in h.groups
  {
  }

  /** When identity calls are made, `setgid` comes before `setuid` and both
      are made, whatever `setgid` returned; a `setgid` failure is the one
      reported even when `setuid` failed too. */
  lemma GidBeforeUid(f: Features, env: Env, h: Host, user: string, group: string)
    requires Acts(f, h) && !HasNul(user) && !HasNul(group) && user in h.users && group in h.groups
    ensures var r := CheckDropPrivs(f, env, h, user, group);
      && r.trace == [LookupUser(user), LookupGroup(group), SetGid(h.groups[group]), SetUid(h.users[user])]
      && (!Succeeds(env, SetGid(h.groups[group])) ==> r.result == Err(SetGidFailed))
      && (Succeeds(env, SetGid(h.groups[group])) && !Succeeds(env, SetUid(h.users[user])) ==> r.result == Err(SetUidFailed))
      && (r.result.Ok? <==> Succeeds(env, SetGid(h.groups[group])) && Succeeds(env, SetUid(h.users[user])))
  {
  }

  /** A successful drop leaves the process running as the configured user and
      group, so it is no longer root unless that user is root. Without root it
      leaves the identity alone. */
  lemma DropReachesTarget(f: Features, env: Env, h: Host, user: string, group: string)
    ensures var r := CheckDropPrivs(f, env, h, user, group);
      var after := Apply(env, h, r.trace);
      && (!Acts(f, h) ==> after == h)
      && (Acts(f, h) && r.result.Ok? ==>
            && user in h.users && group in h.groups
            && after.uid == h.users[user] && after.euid == h.users[user]
            && after.gid == h.groups[group] && after.egid == h.groups[group]
            && (Elevated(after) <==> h.users[user] == 0))
  {
    var r := CheckDropPrivs(f, env, h, user, group);
    if Acts(f, h) && r.result.Ok? {
      var gid := h.groups[group];
      var uid := h.users[user];
      var t := r.trace;
      assert t == [LookupUser(user), LookupGroup(group), SetGid(gid), SetUid(uid)];
      assert t[1..] == [LookupGroup(group), SetGid(gid), SetUid(uid)];
      assert t[1..][1..] == [SetGid(gid), SetUid(uid)];
      assert t[1..][1..][1..] == [SetUid(uid)];
      assert t[1..][1..][1..][1..] == [];
      var h2 := h.(gid := gid, egid := gid);
      assert Succeeds(env, SetGid(gid)) && Succeeds(env, SetUid(uid));
      assert Apply(env, h, t) == Apply(env, h, t[1..]);
      assert Apply(env, h, t[1..]) == Apply(env, h, t[1..][1..]);
      assert Apply(env, h, t[1..][1..]) == Apply(env, h2, [SetUid(uid)]);
      assert Apply(env, h2, [SetUid(uid)]) == h2.(uid := uid, euid := uid);
    }
  }
}
