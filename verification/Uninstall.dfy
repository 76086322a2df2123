/** The uninstall transaction (scripts/uninstall.py, lines 86-290 and 398-448): a journal that carries the
    manifest, removal of targets and identity, and a recovery that finishes what was begun. */
module Uninstall {
  import opened Json
  import opened Faults
  import opened Lifecycle

  const MANIFEST_FILES: set<(Target, string)> := {
    (BIN, ""), (ETC, "detector_catalogue.json"), (ETC, "policy.json"), (LIB, "lumi-eggcracker.pyz"),
    (TMPFILES, ""), (UNIT, ""), (WATCHDOG_UNIT, "")}

  /** What `validate_manifest_structure` demands. */
  predicate ManifestOk(m: Manifest) { m.files.Keys == MANIFEST_FILES }

  /** The content of a manifest file, None when it is missing. */
  function Found(ts: Targets, f: (Target, string)): Option<string> {
    if f.0 !in ts then None
    else
      match ts[f.0]
      case Dir(_, entries) => if f.1 in entries then Some(entries[f.1]) else None
      case Reg(_, content) => if f.1 == "" then Some(content) else None
      case Alias => None
  }

  /** What is left is as the manifest says. */
  ghost predicate Remaining(ts: Targets, m: Manifest) {
    && AllSafe(ts)
    && forall f :: f in m.files ==> Found(ts, f).None? || Found(ts, f) == Some(m.files[f])
  }

  lemma ShrunkRemains(ts: Targets, us: Targets, m: Manifest)
    requires Shrunk(ts, us) && Remaining(ts, m)
    ensures Remaining(us, m)
  {
    ShrunkSafe(ts, us);
    forall f | f in m.files ensures Found(us, f).None? || Found(us, f) == Some(m.files[f]) {
      if f.0 in us { assert Remnant(us[f.0], ts[f.0]); }
    }
  }

  lemma SettledRemains(ts: Targets, us: Targets, m: Manifest)
    requires Settled(ts, us) && Remaining(ts, m) && ManifestOk(m)
    ensures Remaining(us, m)
  {
    SettledSafe(ts, us);
    forall f | f in m.files ensures Found(us, f).None? || Found(us, f) == Some(m.files[f]) {
      InProduct(f);
      assert SettledAt(f.0, ts, us);
    }
  }

  lemma InProduct(f: (Target, string))
    requires f in MANIFEST_FILES
    ensures !IsVolatile(f.0) && f.0 != STATE
  {
  }

  // ---------- the identity ----------

  /** The accounts are those the manifest describes, or what removing them has left. */
  predicate Fits(a: Accounts, m: Manifest, gid: int) {
    && (m.createdGroup ==> m.createdUser)
    && (m.createdUser && a.user.Some? ==> a.user.value.uid == m.uid && a.user.value.isolated)
    && (m.createdGroup && a.group.Some? ==> a.group.value.gid == gid && a.group.value.empty)
  }

  /** Only what the manifest says was created may be gone. */
  predicate Spared(a: Accounts, was: Accounts, m: Manifest) {
    && a.user in {was.user, None} && (!m.createdUser ==> a.user == was.user)
    && a.group in {was.group, None} && (!m.createdUser && !m.createdGroup ==> a.group == was.group)
  }

  predicate IdentityGone(a: Accounts, m: Manifest) {
    (m.createdUser ==> a.user.None?) && (m.createdGroup ==> a.group.None?)
  }

  /** The account of that name is not the one that was made: another id, or no longer without shell, home and
      further groups. */
  predicate UserChanged(a: Accounts, m: Manifest) {
    m.createdUser && a.user.Some? && (a.user.value.uid != m.uid || !a.user.value.isolated)
  }

  /** The group of that name is not the one that was made, or is in use. */
  predicate GroupChanged(a: Accounts, m: Manifest, gid: int) {
    m.createdGroup && a.group.Some? && (a.group.value.gid != gid || !a.group.value.empty)
  }

  /** `groupdel` is not called. */
  ghost predicate NoGroupdel(before: set<Step>, after: set<Step>) {
    forall end :: Step(DeletingGroup, end) in after ==> Step(DeletingGroup, end) in before
  }

  /** `remove_manifest_identity`: it refuses an account or a group that was changed.  A changed group can go only
      with its user, when it is his alone. */
  method RemoveManifestIdentity(s: System, m: Manifest, gid: int) returns (o: Outcome)
    modifies s`accounts, s`seen, s.env
    ensures Spared(s.accounts, old(s.accounts), m)
    ensures o == Returned ==> IdentityGone(s.accounts, m)
    ensures Fits(old(s.accounts), m, gid) ==> Fits(s.accounts, m, gid)
    ensures Fits(old(s.accounts), m, gid) && AllGood(old(s.env.script)) ==> AllGood(s.env.script) && o != Raised
    ensures UserChanged(old(s.accounts), m) ==> o == Raised && s.accounts == old(s.accounts) && s.seen == old(s.seen)
    ensures GroupChanged(old(s.accounts), m, gid) ==>
              && NoGroupdel(old(s.seen), s.seen)
              && (s.accounts.group.Some? ==> o != Returned)
              && (!old(s.accounts).group.value.empty ==> s.accounts.group == old(s.accounts).group)
    ensures old(s.accounts).user.Some? && old(s.accounts).group.Some? && m.createdGroup && !m.createdUser
            && old(s.accounts).user.value.gid == old(s.accounts).group.value.gid
            ==> o == Raised && s.accounts == old(s.accounts)
    ensures o == Died ==> s.env.script == []
  {
    hide AllGood;
    if m.createdUser && s.accounts.user.Some? {
      if s.accounts.user.value.uid != m.uid || !s.accounts.user.value.isolated { return Raised; }
      o := s.DeleteUser();
      if o != Returned { return; }
    }
    if m.createdGroup && s.accounts.group.Some? {
      var group := s.accounts.group.value;
      if group.gid != gid || !group.empty { return Raised; }
      if s.accounts.user.Some? && s.accounts.user.value.gid == group.gid { return Raised; }
      o := s.DeleteGroup();
      if o != Returned { return; }
    }
    return Returned;
  }

  // ---------- the journal ----------

  /** `write_uninstall_journal`: it records the account's group as it is now. */
  method WriteUninstallJournal(s: System, m: Manifest) returns (o: Outcome, gid: int)
    modifies s`removing, s`seen, s.env
    ensures old(s.removing) != Missing ==> o != Returned && s.removing == old(s.removing)
    ensures old(s.removing) == Missing ==>
              s.removing in {Missing, Torn, Whole(RemovalJournal(m, gid))}
    ensures o == Returned ==> s.removing == Whole(RemovalJournal(m, gid))
    ensures s.removing.Whole? && !old(s.removing).Whole? ==> s.accounts.user.Some? && gid == s.accounts.user.value.gid
    ensures if s.accounts.user.Some? then gid == s.accounts.user.value.gid
            else o == Raised && s.removing == old(s.removing)
    ensures o == Died ==> s.env.script == []
    ensures AllGood(old(s.env.script)) ==>
              AllGood(s.env.script) && (s.accounts.user.Some? && old(s.removing) == Missing ==> o != Raised)
  {
    if s.accounts.user.None? { return Raised, 0; }
    gid := s.accounts.user.value.gid;
    o := s.Call(OtherCall);
    if o != Returned { return; }
    if s.removing != Missing { return Raised, gid; }
    s.removing := Torn;
    o := s.Call(OtherCall);
    if o == Died { return; }
    if o == Raised {
      o := s.Call(OtherCall);
      if o == Returned { s.removing := Missing; }
      return if o == Died then Died else Raised, gid;
    }
    s.removing := Whole(RemovalJournal(m, gid));
    o := s.Call(OtherCall);
  }

  /** `remove_uninstall_journal`. */
  method RemoveUninstallJournal(s: System) returns (o: Outcome)
    modifies s`removing, s`seen, s.env
    ensures s.removing in {old(s.removing), Missing}
    ensures o == Returned ==> s.removing == Missing
    ensures AllGood(old(s.env.script)) ==> AllGood(s.env.script) && o != Raised
    ensures o == Died ==> s.env.script == []
  {
    o := s.Call(OtherCall);
    if o != Returned { return; }
    s.removing := Missing;
    o := s.Call(OtherCall);
  }

  // ---------- validation ----------

  /** `validate_remaining_targets`. */
  method ValidateRemaining(s: System, m: Manifest, allowMissing: bool) returns (valid: bool)
    requires ManifestOk(m)
    ensures valid <==> && Remaining(s.targets, m)
                       && (!allowMissing ==> forall f :: f in m.files ==> Found(s.targets, f).Some?)
  {
    hide MANIFEST_FILES, UNINSTALL_TARGETS, Safe, Found;
    var rest := m.files.Keys;
    while rest != {}
      invariant rest <= m.files.Keys
      invariant forall f :: f in m.files && f !in rest ==>
                  (Found(s.targets, f).None? && allowMissing) || Found(s.targets, f) == Some(m.files[f])
      decreases rest
    {
      var f :| f in rest;
      var found := Found(s.targets, f);
      if found.None? && !allowMissing { return false; }
      if found.Some? && found.value != m.files[f] { return false; }
      rest := rest - {f};
    }
    for i := 0 to |UNINSTALL_TARGETS|
      invariant forall j :: 0 <= j < i ==>
                  UNINSTALL_TARGETS[j] in s.targets ==> Safe(UNINSTALL_TARGETS[j], s.targets[UNINSTALL_TARGETS[j]])
    {
      var t := UNINSTALL_TARGETS[i];
      if t in s.targets && !Safe(t, s.targets[t]) { return false; }
    }
    forall t | t in s.targets ensures Safe(t, s.targets[t]) { EveryTarget(t); }
    return true;
  }

  // ---------- recovery ----------

  /** The journal carries the manifest, what stands matches it, and so do the accounts. */
  ghost predicate Armed(s: System, was: Accounts)
    reads s
  {
    && s.removing.Whole? && ManifestOk(s.removing.value.manifest)
    && Remaining(s.targets, s.removing.value.manifest)
    && Spared(s.accounts, was, s.removing.value.manifest)
  }

  /** Everything the manifest claims is gone, and nothing else. */
  ghost predicate Gone(s: System, was: Accounts, m: Manifest)
    reads s
  {
    s.removing == Missing && s.targets == map[] && IdentityGone(s.accounts, m) && Spared(s.accounts, was, m)
  }

  /** Stop and disable both services and make sure their control groups are empty. */
  method StopServices(s: System) returns (o: Outcome)
    modifies s`targets, s`seen, s.env
    ensures Settled(old(s.targets), s.targets)
    ensures AllGood(old(s.env.script)) ==> AllGood(s.env.script) && o != Raised
    ensures o == Died ==> s.env.script == []
  {
    o := s.Call(OtherCall);
    s.Settle();
  }

  /** A changed account still stands as it was, and a group with members does; neither lets the removal return. */
  ghost predicate Kept(s: System, was: Accounts, m: Manifest, gid: int, o: Outcome)
    reads s`accounts
  {
    && (UserChanged(was, m) ==> o != Returned && s.accounts == was)
    && (GroupChanged(was, m, gid) ==>
          && (s.accounts.group.Some? ==> o != Returned)
          && (!was.group.value.empty ==> s.accounts.group == was.group))
  }

  /** What both paths do once the services are stopped: targets, identity, then the manager. */
  method RemoveProduct(s: System, m: Manifest, gid: int) returns (o: Outcome)
    requires Remaining(s.targets, m)
    modifies s`targets, s`accounts, s`seen, s.env
    ensures Remaining(s.targets, m) && Spared(s.accounts, old(s.accounts), m)
    ensures o == Returned ==> s.targets == map[] && IdentityGone(s.accounts, m)
    ensures Fits(old(s.accounts), m, gid) ==> Fits(s.accounts, m, gid)
    ensures Fits(old(s.accounts), m, gid) && AllGood(old(s.env.script)) ==> AllGood(s.env.script) && o != Raised
    ensures Kept(s, old(s.accounts), m, gid, o)
    ensures o == Died ==> s.env.script == []
  {
    hide AllGood, Remaining, Fits, UNINSTALL_TARGETS, UserChanged, GroupChanged;
    ghost var before := s.targets;
    o := s.RemoveAll(UNINSTALL_TARGETS);
    ShrunkRemains(before, s.targets, m);
    if o != Returned { return; }
    RemainingSafe(s.targets, m);
    forall t: Target ensures t in UNINSTALL_TARGETS { EveryTarget(t); }
    NothingLeft(s.targets, UNINSTALL_TARGETS);
    o := RemoveManifestIdentity(s, m, gid);
    if o != Returned { return; }
    o := s.Call(OtherCall);
    if o != Returned { return; }
    o := s.Call(OtherCall);
  }

  lemma RemainingSafe(ts: Targets, m: Manifest)
    requires Remaining(ts, m)
    ensures AllSafe(ts)
  {
  }

  /** `recover_uninstall`: cut short it leaves the journal and can be repeated; once it returns, no target,
      no journal and no created account is left.  It is refused only by the operating system, by populated
      control groups, by another version of the script, or over accounts that were changed since. */
  method RecoverUninstall(s: System, sameScript: bool, quiet: bool, ghost was: Accounts) returns (o: Outcome)
    modifies s, s.env
    ensures !old(s.removing).Whole? ==> o == Raised && unchanged(s)
    ensures old(Armed(s, was)) && s.removing.Whole? ==> Armed(s, was) && s.removing == old(s.removing)
    ensures old(Armed(s, was)) && !s.removing.Whole? ==> Gone(s, was, old(s.removing).value.manifest)
    ensures o == Returned ==> s.removing == Missing
    ensures old(Armed(s, was)) && sameScript && quiet && AllGood(old(s.env.script)) ==>
              Fits(old(s.accounts), old(s.removing).value.manifest, old(s.removing).value.gid) ==> o != Raised
    ensures old(s.removing).Whole?
            && (!sameScript || !ManifestOk(old(s.removing).value.manifest)
                || !Remaining(old(s.targets), old(s.removing).value.manifest))
            ==> o == Raised && unchanged(s)
    ensures old(s.removing).Whole? ==>
              && Kept(s, old(s.accounts), old(s.removing).value.manifest, old(s.removing).value.gid, o)
              && (UserChanged(old(s.accounts), old(s.removing).value.manifest) ==> s.removing == old(s.removing))
              && (s.accounts.group.Some?
                  && GroupChanged(old(s.accounts), old(s.removing).value.manifest, old(s.removing).value.gid)
                  ==> s.removing == old(s.removing))
    ensures !quiet ==>
              && o != Returned && Settled(old(s.targets), s.targets)
              && s.accounts == old(s.accounts) && s.removing == old(s.removing)
    ensures o == Died ==> s.env.script == []
  {
    hide AllGood, Remaining, Fits, Spared, IdentityGone, ManifestOk, UserChanged, GroupChanged, Settled;
    NothingMoves(s.targets);
    if !s.removing.Whole? || !sameScript { return Raised; }
    var m, gid := s.removing.value.manifest, s.removing.value.gid;
    if !ManifestOk(m) { return Raised; }
    var valid := ValidateRemaining(s, m, true);
    if !valid { return Raised; }
    ghost var before := s.targets;
    o := StopServices(s);
    SettledRemains(before, s.targets, m);
    if o != Returned { return; }
    if !quiet { return Raised; }
    ghost var accounts := s.accounts;
    o := RemoveProduct(s, m, gid);
    SparedTwice(s.accounts, accounts, was, m);
    if o != Returned { return; }
    if s.targets != map[] { return Raised; }
    o := RemoveUninstallJournal(s);
  }

  lemma NothingMoves(ts: Targets)
    ensures Settled(ts, ts)
  {
  }

  lemma SparedTwice(a: Accounts, b: Accounts, was: Accounts, m: Manifest)
    requires Spared(a, b, m)
    ensures Spared(b, was, m) ==> Spared(a, was, m)
  {
  }

  lemma SparedSelf(a: Accounts, m: Manifest)
    ensures Spared(a, a, m)
  {
  }

  /** The statements under `try` in `uninstall`; `stopped` once a service has been stopped. */
  method Dismantle(s: System, m: Manifest, gid: int, quiet: bool, ghost was: Accounts)
    returns (o: Outcome, stopped: bool)
    requires s.removing == Whole(RemovalJournal(m, gid)) && Armed(s, was)
    modifies s, s.env
    ensures s.removing.Whole? ==> Armed(s, was) && s.removing == old(s.removing)
    ensures !s.removing.Whole? ==> Gone(s, was, m)
    ensures o == Returned ==> s.removing == Missing
    ensures Kept(s, old(s.accounts), m, gid, o)
    ensures AllGood(old(s.env.script)) && quiet && Fits(old(s.accounts), m, gid) ==> o != Raised
    ensures o == Died ==> s.env.script == []
  {
    hide AllGood, Remaining, Fits, Spared, IdentityGone, ManifestOk, UserChanged, GroupChanged;
    stopped := false;
    o := s.Call(OtherCall);
    if o != Returned { return; }
    stopped := true;
    ghost var before := s.targets;
    o := StopServices(s);
    SettledRemains(before, s.targets, m);
    if o != Returned { return; }
    if !quiet { return Raised, stopped; }
    o := s.Call(OtherCall);
    if o != Returned { return; }
    ghost var accounts := s.accounts;
    o := RemoveProduct(s, m, gid);
    SparedTwice(s.accounts, accounts, was, m);
    if o != Returned { return; }
    o := RemoveUninstallJournal(s);
  }

  /** The manifest is complete, and every file of it stands unchanged. */
  ghost predicate Removable(installed: Option<Manifest>, ts: Targets) {
    && installed.Some? && ManifestOk(installed.value) && Remaining(ts, installed.value)
    && forall f :: f in installed.value.files ==> Found(ts, f).Some?
  }

  /** `uninstall`: before the journal is whole nothing has changed; while it is, a recovery can finish; after
      it, everything the manifest claims is gone. */
  method Uninstall(s: System, installed: Option<Manifest>, sameScript: bool, quiet: bool, ghost was: Accounts)
    returns (o: Outcome)
    modifies s, s.env
    ensures old(s.removing) == Missing ==>
              && (s.removing.Whole? ==> Armed(s, old(s.accounts)))
              && (!s.removing.Whole? ==>
                    || (s.targets == old(s.targets) && s.accounts == old(s.accounts))
                    || (installed.Some? && Gone(s, old(s.accounts), installed.value)))
              && (o == Returned ==> installed.Some? && Gone(s, old(s.accounts), installed.value))
    ensures old(s.removing) == Torn ==> o == Raised && unchanged(s)
    ensures old(s.removing) == Missing && !Removable(installed, old(s.targets)) ==> o == Raised && unchanged(s)
    ensures !quiet ==>
              && o != Returned && Settled(old(s.targets), s.targets)
              && s.accounts == old(s.accounts) && s.removing == old(s.removing)
    ensures old(s.removing) == Missing && installed.Some? && old(s.accounts).user.Some? ==>
              Kept(s, old(s.accounts), installed.value, old(s.accounts).user.value.gid, o)
    ensures old(s.removing).Whole? ==>
              Kept(s, old(s.accounts), old(s.removing).value.manifest, old(s.removing).value.gid, o)
    ensures old(s.removing) == Missing && Removable(installed, old(s.targets)) && quiet && old(s.accounts).user.Some?
            && Fits(old(s.accounts), installed.value, old(s.accounts).user.value.gid) && AllGood(old(s.env.script))
            ==> o != Raised
    ensures o == Died ==> s.env.script == []
    ensures old(Armed(s, was)) ==>
              && (s.removing.Whole? ==> Armed(s, was))
              && (!s.removing.Whole? ==> Gone(s, was, old(s.removing).value.manifest))
  {
    hide AllGood, Remaining, Fits, Spared, IdentityGone, ManifestOk, UserChanged, GroupChanged, Settled;
    NothingMoves(s.targets);
    if s.removing != Missing {
      o := RecoverUninstall(s, sameScript, quiet, was);
      return;
    }
    if installed.None? || !ManifestOk(installed.value) { return Raised; }
    var m := installed.value;
    var valid := ValidateRemaining(s, m, false);
    if !valid || !quiet { return Raised; }
    ghost var accounts := s.accounts;
    SparedSelf(accounts, m);
    var gid;
    o, gid := WriteUninstallJournal(s, m);
    if o != Returned { return; }
    var stopped;
    o, stopped := Dismantle(s, m, gid, quiet, accounts);
    if o == Raised && stopped {
      ghost var before := s.targets;
      s.Settle();
      if s.removing.Whole? { SettledRemains(before, s.targets, m); } else { NothingSettles(before, s.targets); }
    }
  }
}
