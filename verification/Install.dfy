/** The install transaction (scripts/install.py, lines 164-299 and 552-703): a journal before the first
    change, cleanup after a failure, recovery after a crash. */
module Install {
  import opened Json
  import opened Faults
  import opened Lifecycle

  /** The targets `install` itself makes; systemd makes the other two. */
  const PRODUCT := {LIB, BIN, ETC, UNIT, WATCHDOG_UNIT, TMPFILES, STATE}

  ghost predicate Complete(s: System)
    reads s`installing, s`targets
  {
    s.installing.Missing? && AllSafe(s.targets) && forall t :: t in PRODUCT ==> t in s.targets
  }

  /** The journal says whether the account was there, and nothing stands that a recovery may not remove. */
  ghost predicate Guarded(s: System, was: Accounts)
    reads s`installing, s`targets, s`accounts
  {
    && s.installing.Whole? && s.installing.value.preexisting == was.user.Some?
    && AllSafe(s.targets) && (was.user.Some? ==> s.accounts == was)
  }

  /** The account made by `useradd` meets its contract, and no member was added to its group. */
  predicate Disposable(a: Accounts) {
    (a.user.Some? ==> a.user.value.isolated) && (a.group.Some? ==> a.group.value.empty)
  }

  /** Only what was there before the install; a bare group of the product's name counts as its own. */
  predicate OnlyPreexisting(a: Accounts, was: Accounts) {
    if was.user.Some? then a == was else a == Accounts(None, None)
  }

  function Reversed(ts: seq<Target>): seq<Target> {
    seq(|ts|, i requires 0 <= i < |ts| => ts[|ts| - 1 - i])
  }

  lemma ReversedLists()
    ensures forall t: Target :: t in Reversed(INSTALL_TARGETS)
  {
    hide INSTALL_TARGETS;
    forall t: Target ensures t in Reversed(INSTALL_TARGETS) {
      EveryTarget(t);
      var i :| 0 <= i < |INSTALL_TARGETS| && INSTALL_TARGETS[i] == t;
      assert Reversed(INSTALL_TARGETS)[|INSTALL_TARGETS| - 1 - i] == t;
    }
  }

  // ---------- the journal ----------

  /** `write_install_journal`. */
  method WriteInstallJournal(s: System, value: InstallJournal) returns (o: Outcome)
    modifies s`installing, s`seen, s.env
    ensures s.installing in {old(s.installing), Torn, Missing, Whole(value)}
    ensures old(s.installing) != Missing ==> o != Returned && s.installing == old(s.installing)
    ensures o == Returned ==> s.installing == Whole(value)
    ensures Noted(old(s.seen), s.seen, {Journalling})
    ensures old(s.installing) == Missing && Goods(old(s.env.script), 3) ==>
              o == Returned && s.env.script == old(s.env.script)[3..]
  {
    o := s.Call(Journalling);
    if o != Returned { return; }
    if s.installing != Missing { return Raised; }
    s.installing := Torn;
    o := s.Call(Journalling);
    if o == Died { return; }
    if o == Raised {
      o := s.Call(Journalling);
      if o == Returned { s.installing := Missing; }
      return if o == Died then Died else Raised;
    }
    s.installing := Whole(value);
    o := s.Call(Journalling);
  }

  /** `k` calls work, and the next one fails. */
  predicate FailsAfter(script: seq<Io>, k: nat) { Goods(script, k) && |script| > k && script[k].Bad? }

  /** `remove_install_journal`: an unlink, then a sync of the directory.  Where it raises the journal is gone
      exactly when the unlink worked and the sync did not. */
  method RemoveInstallJournal(s: System, place: Place) returns (o: Outcome)
    modifies s`installing, s`seen, s.env
    ensures s.installing in {old(s.installing), Missing}
    ensures o == Returned ==> s.installing == Missing
    ensures o == Died ==> s.env.script == []
    ensures Noted(old(s.seen), s.seen, {Unlink(place), SyncUnlink(place)})
    ensures Untried(old(s.seen), place) && old(s.installing) != Missing ==>
              (o == Raised && s.installing == Missing <==> SyncFailed(s.seen, place))
    ensures Goods(old(s.env.script), 1) ==> s.installing == Missing
    ensures Goods(old(s.env.script), 2) ==> o == Returned
    ensures FailsAfter(old(s.env.script), 1) ==> o == Raised && s.env.script == old(s.env.script)[2..]
    ensures AllGood(old(s.env.script)) ==> AllGood(s.env.script) && o != Raised
  {
    o := s.Call(Unlink(place));
    if o != Returned { return; }
    s.installing := Missing;
    o := s.Call(SyncUnlink(place));
  }

  /** The journal was unlinked at this place and the sync after it failed. */
  predicate SyncFailed(seen: set<Step>, place: Place) {
    Step(Unlink(place), Returned) in seen && Step(SyncUnlink(place), Raised) in seen
  }

  predicate Untried(seen: set<Step>, place: Place) {
    forall end :: Step(Unlink(place), end) !in seen && Step(SyncUnlink(place), end) !in seen
  }

  // ---------- recovery ----------

  /** An account that is no longer as `useradd` made it stands, and so does a group with members; neither lets the
      recovery return. */
  ghost predicate Refused(s: System, was: Accounts, o: Outcome)
    reads s`accounts
  {
    && (was.user.Some? && !was.user.value.isolated ==> o != Returned && s.accounts == was)
    && (was.group.Some? && !was.group.value.empty ==> o != Returned && s.accounts.group == was.group)
  }

  predicate Unremovable(a: Accounts) {
    (a.user.Some? && !a.user.value.isolated) || (a.group.Some? && !a.group.value.empty)
  }

  /** `recover_workload_identity`. */
  method RecoverWorkloadIdentity(s: System, preexisting: bool) returns (o: Outcome)
    modifies s`accounts, s`seen, s.env
    ensures preexisting ==> o == Returned && s.accounts == old(s.accounts)
    ensures o == Returned ==> preexisting || s.accounts == Accounts(None, None)
    ensures Disposable(old(s.accounts)) ==> Disposable(s.accounts)
    ensures Disposable(old(s.accounts)) && AllGood(old(s.env.script)) ==> AllGood(s.env.script) && o != Raised
    ensures AllGood(old(s.env.script)) ==> AllGood(s.env.script)
    ensures Disposable(old(s.accounts)) && Goods(old(s.env.script), 4) ==> o == Returned && Goods(s.env.script, 2)
    ensures Noted(old(s.seen), s.seen, {DeletingUser, DeletingGroup})
    ensures !preexisting ==> Refused(s, old(s.accounts), o)
    ensures o == Died ==> s.env.script == []
  {
    if preexisting { return Returned; }
    if s.accounts.user.Some? {
      if !s.accounts.user.value.isolated { return Raised; }
      o := s.DeleteUser();
      if o != Returned { return; }
    }
    if s.accounts.group.None? { return Returned; }
    if !s.accounts.group.value.empty { return Raised; }
    o := s.DeleteGroup();
  }

  const RECOVERY_CALLS := {Removing, DeletingUser, DeletingGroup, Unlink(InRecovery), SyncUnlink(InRecovery)}

  /** `recover_interrupted_install`: cut short it leaves the journal and can be repeated; once it returns no
      target, no journal and only preexisting accounts are left.  Those are the accounts from before the install
      exactly unless a bare group of the product's name was there without the user: that group goes.  It is
      refused only by the operating system, or for another candidate or operator, or over accounts that were
      changed since. */
  method RecoverInterrupted(s: System, request: string, ghost was: Accounts) returns (o: Outcome)
    modifies s, s.env
    ensures !old(s.installing).Whole? ==> o == Raised && unchanged(s)
    ensures old(Guarded(s, was)) && s.installing.Whole? ==> Guarded(s, was) && s.installing == old(s.installing)
    ensures old(Guarded(s, was)) && !s.installing.Whole? ==>
              && s.installing == Missing && s.targets == map[] && OnlyPreexisting(s.accounts, was)
              && (s.accounts == was <==> !(was.user.None? && was.group.Some?))
    ensures o == Returned ==> s.installing == Missing
    ensures old(s.installing).Whole? && (old(s.installing).value.request != request || !AllSafe(old(s.targets))) ==>
              o == Raised && unchanged(s)
    ensures old(s.installing).Whole? && !old(s.installing).value.preexisting ==>
              && Refused(s, old(s.accounts), o)
              && (Unremovable(old(s.accounts)) ==> s.installing == old(s.installing))
    ensures o == Died ==> s.env.script == []
    ensures Disposable(old(s.accounts)) ==> Disposable(s.accounts)
    ensures old(Guarded(s, was)) && old(s.installing).value.request == request && Disposable(old(s.accounts)) ==>
              && (AllGood(old(s.env.script)) ==> o != Raised)
              && (old(s.targets) == map[] && Goods(old(s.env.script), 4) ==> o == Returned)
    ensures Noted(old(s.seen), s.seen, RECOVERY_CALLS)
  {
    hide AllGood, Disposable, INSTALL_TARGETS, Safe, Goods;
    if !s.installing.Whole? || s.installing.value.request != request { return Raised; }
    for i := 0 to |INSTALL_TARGETS|
      invariant unchanged(s) && unchanged(s.env)
      invariant forall j :: 0 <= j < i ==> INSTALL_TARGETS[j] in s.targets ==>
                  Safe(INSTALL_TARGETS[j], s.targets[INSTALL_TARGETS[j]])
    {
      var t := INSTALL_TARGETS[i];
      if t in s.targets && !Safe(t, s.targets[t]) { return Raised; }
    }
    AllChecked(s.targets);
    ghost var before := s.targets;
    s.Settle();
    SettledSafe(before, s.targets);
    if before == map[] { NothingSettles(before, s.targets); }
    ghost var settled := s.targets;
    o := s.RemoveAll(Reversed(INSTALL_TARGETS));
    ShrunkSafe(settled, s.targets);
    if o != Returned { return; }
    ReversedLists();
    NothingLeft(s.targets, Reversed(INSTALL_TARGETS));
    o := RecoverWorkloadIdentity(s, s.installing.value.preexisting);
    if o != Returned { return; }
    if s.targets != map[] { return Raised; }
    o := RemoveInstallJournal(s, InRecovery);
  }

  lemma AllChecked(ts: Targets)
    requires forall j :: 0 <= j < |INSTALL_TARGETS| ==> INSTALL_TARGETS[j] in ts ==>
               Safe(INSTALL_TARGETS[j], ts[INSTALL_TARGETS[j]])
    ensures AllSafe(ts)
  {
    hide INSTALL_TARGETS, Safe;
    forall t | t in ts ensures Safe(t, ts[t]) { EveryTarget(t); }
  }

  /** Account commands that do nothing where they fail, and leave the user's group alone. */
  const PLAIN := Manners(Nothing, {}, {}, false, User(990, 990, true))

  /** A host and a script of call outcomes for which the group goes: a whole journal, no target, and a bare group
      of the product's name that was there before the install. */
  method BareGroupRecovery() returns (o: Outcome, s: System, ghost was: Accounts)
    ensures o == Returned && s.installing == Missing && s.targets == map[] && s.accounts == Accounts(None, None)
    ensures was == Accounts(None, Some(Group(990, true)))
  {
    hide Goods;
    FourGoods();
    var env := new Environment([Good, Good, Good, Good]);
    var accounts := Accounts(None, Some(Group(990, true)));
    s := new System(env, PLAIN, map[], accounts);
    was := accounts;
    s.installing := Whole(InstallJournal("candidate", false));
    assert Guarded(s, was);
    o := RecoverInterrupted(s, "candidate", was);
  }

  lemma FourGoods()
    ensures Goods([Good, Good, Good, Good], 4)
  {
  }

  // ---------- the install itself ----------

  /** Nothing is lost, and nothing but `made` is new. */
  ghost predicate Grown(ts: Targets, us: Targets, made: set<Target>) {
    && (forall t :: t in ts ==> t in us)
    && (forall t :: t in us ==> t in ts || t in made)
  }

  /** What the files of a release hold. */
  datatype Product = Product(
    program: string, command: string, catalogue: string, policy: string,
    unit: string, watchdogUnit: string, tmpfiles: string, manifest: string)

  function FileIn(node: Node, name: string): Option<string> {
    if node.Dir? && name in node.entries then Some(node.entries[name]) else None
  }

  /** Every file of the release is in its place, with its own content; the manifest is in STATE, where services
      write too. */
  predicate InPlace(ts: Targets, product: Product) {
    && LIB in ts && FileIn(ts[LIB], "lumi-eggcracker.pyz") == Some(product.program)
    && BIN in ts && ts[BIN] == Reg(true, product.command)
    && ETC in ts && FileIn(ts[ETC], "detector_catalogue.json") == Some(product.catalogue)
    && FileIn(ts[ETC], "policy.json") == Some(product.policy)
    && UNIT in ts && ts[UNIT] == Reg(true, product.unit)
    && WATCHDOG_UNIT in ts && ts[WATCHDOG_UNIT] == Reg(true, product.watchdogUnit)
    && TMPFILES in ts && ts[TMPFILES] == Reg(true, product.tmpfiles)
  }

  /** The tree that `install` makes, step by step: directories and program, configuration, units, manifest. */
  function Directories(product: Product): Targets {
    map[LIB := Dir(true, map["lumi-eggcracker.pyz" := product.program]), ETC := Dir(true, map[]),
        STATE := Dir(true, map[])]
  }

  function Configured(ts: Targets, product: Product): Targets {
    ts[BIN := Reg(true, product.command)]
      [ETC := Dir(true, map["detector_catalogue.json" := product.catalogue, "policy.json" := product.policy])]
  }

  function WithUnits(ts: Targets, product: Product): Targets {
    ts[UNIT := Reg(true, product.unit)][WATCHDOG_UNIT := Reg(true, product.watchdogUnit)]
      [TMPFILES := Reg(true, product.tmpfiles)]
  }

  /** `Path.mkdir` without `exist_ok`. */
  method MakeDirectory(s: System, t: Target) returns (o: Outcome)
    requires IsDirectory(t) && AllSafe(s.targets)
    modifies s`targets, s`seen, s.env
    ensures AllSafe(s.targets) && Grown(old(s.targets), s.targets, {t}) && Noted(old(s.seen), s.seen, {Writing})
    ensures o == Returned ==> s.targets == old(s.targets)[t := Dir(true, map[])]
    ensures t !in old(s.targets) && Goods(old(s.env.script), 1) ==>
              o == Returned && s.env.script == old(s.env.script)[1..]
  {
    o := s.Call(Writing);
    if o != Returned { return; }
    if t in s.targets { return Raised; }
    s.targets := s.targets[t := Dir(true, map[])];
  }

  /** A file inside a product directory: cut short, part of it may be there. */
  method WriteInside(s: System, t: Target, name: string, content: string) returns (o: Outcome)
    requires IsDirectory(t) && AllSafe(s.targets) && t in s.targets
    modifies s`targets, s`seen, s.env
    ensures AllSafe(s.targets) && Grown(old(s.targets), s.targets, {}) && Noted(old(s.seen), s.seen, {Writing})
    ensures old(s.targets)[t].Dir?
    ensures o == Returned ==> s.targets == old(s.targets)[t := Dir(true, old(s.targets)[t].entries[name := content])]
    ensures Goods(old(s.env.script), 2) ==> o == Returned && s.env.script == old(s.env.script)[2..]
  {
    assert Safe(t, s.targets[t]);
    var entries := s.targets[t].entries;
    o := s.Call(Writing);
    if o != Returned { return; }
    s.targets := s.targets[t := Dir(true, entries[name := ""])];
    o := s.Call(Writing);
    if o != Returned { return; }
    s.targets := s.targets[t := Dir(true, entries[name := content])];
    assert s.targets == old(s.targets)[t := Dir(true, entries[name := content])];
  }

  /** `write_new` on a target: the file may stand where it raises. */
  method WriteNew(s: System, t: Target, content: string) returns (o: Outcome)
    requires !IsDirectory(t) && AllSafe(s.targets)
    modifies s`targets, s`seen, s.env
    ensures AllSafe(s.targets) && Grown(old(s.targets), s.targets, {t}) && Noted(old(s.seen), s.seen, {Writing})
    ensures o == Returned ==> s.targets == old(s.targets)[t := Reg(true, content)]
    ensures t !in old(s.targets) && Goods(old(s.env.script), 3) ==>
              o == Returned && s.env.script == old(s.env.script)[3..]
  {
    if t in s.targets { return Raised; }
    o := s.Call(Writing);
    if o != Returned { return; }
    s.targets := s.targets[t := Reg(true, "")];
    o := s.Call(Writing);
    if o != Returned { return; }
    s.targets := s.targets[t := Reg(true, content)];
    o := s.Call(Writing);
  }

  /** `useradd` failed after it had written something, or it worked and the lookup of the new account failed. */
  predicate LostUser(seen: set<Step>, manners: Manners) {
    || (Step(AddUser, Raised) in seen && !manners.written.Nothing?)
    || (Step(AddUser, Returned) in seen && Step(LookUpUser, Raised) in seen)
  }

  /** `useradd` worked, the account was found, and the lookup of its group failed. */
  predicate LostGroup(seen: set<Step>) { Step(AddUser, Returned) in seen && Step(LookUpGroup, Raised) in seen }

  const IDENTITY_CALLS := {AddUser, RefusedAddUser, LookUpUser, LookUpGroup}

  /** Nothing about the identity has been called yet. */
  ghost predicate NoIdentityYet(seen: set<Step>) { forall step :: step in seen ==> step.name !in IDENTITY_CALLS }

  const NO_ACCOUNTS := Accounts(None, None)

  /** `workload_account`: raising, it leaves an account behind exactly when `useradd` failed after writing, or the
      lookup after it failed. */
  method WorkloadAccount(s: System) returns (o: Outcome, created: bool)
    modifies s`accounts, s`seen, s.env
    ensures old(s.accounts) != NO_ACCOUNTS ==> s.accounts == old(s.accounts) && !created
    ensures old(s.accounts).user.Some? ==>
              s.seen == old(s.seen) && o != Died && (old(s.accounts).user.value.isolated <==> o == Returned)
              && s.env.script == old(s.env.script)
    ensures o == Returned ==> s.accounts.user.Some? && (created <==> old(s.accounts) == NO_ACCOUNTS)
    ensures created ==> o == Returned && Private(s.accounts) && Step(AddUser, Returned) in s.seen
    ensures created ==> s.accounts == Added(s.manners.newcomer, Both)
    ensures o == Returned ==> created || s.accounts.user.value.isolated
    ensures o == Died ==> s.env.script == []
    ensures NoIdentityYet(old(s.seen)) ==>
              && (o == Raised ==> (s.accounts != old(s.accounts) <==> LostUser(s.seen, s.manners)))
              && (LostUser(s.seen, s.manners) ==> o == Raised && old(s.accounts) == NO_ACCOUNTS)
              && (old(s.accounts) != NO_ACCOUNTS ==> Step(AddUser, Returned) !in s.seen)
    ensures Noted(old(s.seen), s.seen, {AddUser, RefusedAddUser, LookUpUser})
    ensures old(s.accounts) == NO_ACCOUNTS && LosesUser(old(s.env.script), s.manners) ==>
              && o == Raised && LostUser(s.seen, s.manners)
              && s.env.script == old(s.env.script)[if old(s.env.script)[0].Good? then 2 else 1..]
    ensures old(s.accounts) == NO_ACCOUNTS && Goods(old(s.env.script), 2) ==>
              o == Returned && s.env.script == old(s.env.script)[2..]
  {
    created := false;
    if s.accounts.user.Some? {
      return if s.accounts.user.value.isolated then Returned else Raised, false;
    }
    if s.accounts.group.Some? {
      o := s.Call(RefusedAddUser);
      return if o == Died then Died else Raised, false;
    }
    o := s.Call(AddUser);
    s.accounts := Added(s.manners.newcomer, if o == Returned then Both else s.manners.written);
    if o != Returned { return; }
    o := s.Call(LookUpUser);
    created := o == Returned;
  }

  /** From `useradd` on: it fails having written something, or it works and the lookup of the account fails. */
  predicate LosesUser(script: seq<Io>, manners: Manners) {
    (FailsAfter(script, 0) && !manners.written.Nothing?) || FailsAfter(script, 1)
  }

  /** What the statements under `try` made, as far as the handler knows. */
  datatype Made = Made(created: seq<Target>, user: bool, group: bool)

  /** What the handler knows of the accounts is all there is to know. */
  predicate Recorded(a: Accounts, was: Accounts, user: bool, group: bool) {
    && (a.user != was.user ==> user) && (a.group != was.group ==> group)
    && (user ==> was.user.None?) && (group ==> was.group.None?)
  }

  /** The account lookups and the isolation check: what it leaves unrecorded is what a failed lookup lost. */
  method PrepareIdentity(s: System) returns (o: Outcome, made: Made)
    requires NoIdentityYet(s.seen)
    modifies s`accounts, s`seen, s.env
    ensures made.created == [] && Noted(old(s.seen), s.seen, IDENTITY_CALLS)
    ensures o == Returned ==> Recorded(s.accounts, old(s.accounts), made.user, made.group)
    ensures o == Raised ==>
              (Recorded(s.accounts, old(s.accounts), made.user, made.group)
               <==> !LostUser(s.seen, s.manners) && !LostGroup(s.seen))
    ensures LostUser(s.seen, s.manners) ==> o == Raised && !LostGroup(s.seen) && made == Made([], false, false)
    ensures LostGroup(s.seen) ==> o == Raised && made == Made([], true, false)
    ensures made.user ==> old(s.accounts) == NO_ACCOUNTS && Private(s.accounts)
    ensures o == Returned ==> made.user == made.group == old(s.accounts).user.None?
    ensures o == Returned ==> s.accounts.user.Some? && s.accounts.user.value.isolated
    ensures o == Returned && made.user ==> s.accounts == Added(s.manners.newcomer, Both)
    ensures old(s.accounts) == NO_ACCOUNTS && s.manners.newcomer.isolated && Goods(old(s.env.script), 3) ==>
              o == Returned && s.env.script == old(s.env.script)[3..]
    ensures old(s.accounts) != NO_ACCOUNTS ==> s.accounts == old(s.accounts) && made == Made([], false, false)
    ensures old(s.accounts).user.Some? && old(s.accounts).user.value.isolated && Goods(old(s.env.script), 1) ==>
              o == Returned && s.env.script == old(s.env.script)[1..]
    ensures old(s.accounts) == NO_ACCOUNTS && LosesUser(old(s.env.script), s.manners) ==>
              && LostUser(s.seen, s.manners)
              && s.env.script == old(s.env.script)[if old(s.env.script)[0].Good? then 2 else 1..]
    ensures old(s.accounts) == NO_ACCOUNTS && FailsAfter(old(s.env.script), 2) ==>
              LostGroup(s.seen) && s.env.script == old(s.env.script)[3..]
  {
    var created;
    o, created := WorkloadAccount(s);
    made := Made([], created, false);
    if o != Returned { return; }
    o := s.Call(LookUpGroup);
    if o != Returned { return; }
    made := Made([], created, created);
    if !s.accounts.user.value.isolated { return Raised, made; }
  }

  /** The targets `install` makes, in the order it makes them. */
  const IN_ORDER := [LIB, ETC, STATE, BIN, UNIT, WATCHDOG_UNIT, TMPFILES]

  /** The directories made under `try`, and the program in the first; `created` grows with each. */
  method MakeDirectories(s: System, product: Product) returns (o: Outcome, created: seq<Target>)
    requires AllSafe(s.targets)
    modifies s`targets, s`seen, s.env
    ensures AllSafe(s.targets) && Grown(old(s.targets), s.targets, {LIB, ETC, STATE})
    ensures Noted(old(s.seen), s.seen, {Writing}) && created <= IN_ORDER
    ensures o == Returned && old(s.targets) == map[] ==> s.targets == Directories(product) && created == IN_ORDER[..3]
    ensures old(s.targets) == map[] && Goods(old(s.env.script), 5) ==>
              o == Returned && s.env.script == old(s.env.script)[5..]
  {
    hide AllSafe;
    created := [];
    o := MakeDirectory(s, LIB);
    if o != Returned { return; }
    created := [LIB];
    o := MakeDirectory(s, ETC);
    if o != Returned { return; }
    created := [LIB, ETC];
    o := MakeDirectory(s, STATE);
    if o != Returned { return; }
    created := [LIB, ETC, STATE];
    o := WriteInside(s, LIB, "lumi-eggcracker.pyz", product.program);
  }

  /** The command and the configuration. */
  method WriteConfiguration(s: System, product: Product, before: seq<Target>)
    returns (o: Outcome, created: seq<Target>)
    requires AllSafe(s.targets) && ETC in s.targets
    requires before == IN_ORDER[..3]
    modifies s`targets, s`seen, s.env
    ensures AllSafe(s.targets) && Grown(old(s.targets), s.targets, {BIN})
    ensures Noted(old(s.seen), s.seen, {Writing}) && created <= IN_ORDER
    ensures o == Returned && old(s.targets)[ETC] == Dir(true, map[]) ==>
              s.targets == Configured(old(s.targets), product) && created == IN_ORDER[..4]
    ensures BIN !in old(s.targets) && Goods(old(s.env.script), 7) ==>
              o == Returned && s.env.script == old(s.env.script)[7..]
  {
    hide AllSafe;
    created := before;
    o := WriteNew(s, BIN, product.command);
    if o != Returned { return; }
    created := created + [BIN];
    o := WriteInside(s, ETC, "detector_catalogue.json", product.catalogue);
    if o != Returned { return; }
    o := WriteInside(s, ETC, "policy.json", product.policy);
  }

  /** The units and the runtime directory rule. */
  method WriteUnits(s: System, product: Product, before: seq<Target>)
    returns (o: Outcome, created: seq<Target>)
    requires AllSafe(s.targets)
    requires before == IN_ORDER[..4]
    modifies s`targets, s`seen, s.env
    ensures AllSafe(s.targets) && Grown(old(s.targets), s.targets, {UNIT, WATCHDOG_UNIT, TMPFILES})
    ensures Noted(old(s.seen), s.seen, {Writing}) && created <= IN_ORDER
    ensures o == Returned ==> s.targets == WithUnits(old(s.targets), product) && created == IN_ORDER
    ensures UNIT !in old(s.targets) && WATCHDOG_UNIT !in old(s.targets) && TMPFILES !in old(s.targets)
            && Goods(old(s.env.script), 9)
            ==> o == Returned && s.env.script == old(s.env.script)[9..]
  {
    hide AllSafe;
    created := before;
    o := WriteNew(s, UNIT, product.unit);
    if o != Returned { return; }
    created := created + [UNIT];
    o := WriteNew(s, WATCHDOG_UNIT, product.watchdogUnit);
    if o != Returned { return; }
    created := created + [WATCHDOG_UNIT];
    o := WriteNew(s, TMPFILES, product.tmpfiles);
    if o != Returned { return; }
    created := created + [TMPFILES];
  }

  lemma EveryProduct()
    ensures forall t :: t in PRODUCT <==>
              t == LIB || t == BIN || t == ETC || t == UNIT || t == WATCHDOG_UNIT || t == TMPFILES || t == STATE
    ensures |IN_ORDER| == 7
  {
  }

  lemma DirectoriesHave(product: Product)
    ensures var ts := Directories(product);
            ETC in ts && ts[ETC] == Dir(true, map[]) && BIN !in ts
  {
  }

  lemma ConfiguredHave(product: Product)
    ensures var ts := Configured(Directories(product), product);
            UNIT !in ts && WATCHDOG_UNIT !in ts && TMPFILES !in ts
  {
  }

  lemma TreeHas(product: Product)
    ensures var ts := WithUnits(Configured(Directories(product), product), product);
            && STATE in ts && ts[STATE] == Dir(true, map[])
            && var us := ts[STATE := Dir(true, map["install-manifest.json" := product.manifest])];
               && InPlace(us, product) && FileIn(us[STATE], "install-manifest.json") == Some(product.manifest)
               && forall t :: t in PRODUCT ==> t in us
  {
    EveryProduct();
  }

  /** Everything written under `try`, in order. */
  method WriteProduct(s: System, product: Product, before: Made) returns (o: Outcome, made: Made)
    requires AllSafe(s.targets) && s.targets == map[]
    modifies s`targets, s`seen, s.env
    ensures AllSafe(s.targets) && Noted(old(s.seen), s.seen, {Writing})
    ensures made == before.(created := made.created) && made.created <= IN_ORDER
    ensures o == Returned ==>
              && made.created == IN_ORDER && InPlace(s.targets, product)
              && (forall t :: t in PRODUCT ==> t in s.targets)
              && STATE in s.targets && FileIn(s.targets[STATE], "install-manifest.json") == Some(product.manifest)
    ensures Goods(old(s.env.script), 23) ==> o == Returned && s.env.script == old(s.env.script)[23..]
  {
    hide AllSafe, PRODUCT, IN_ORDER, Directories, Configured, WithUnits, InPlace, FileIn, Grown;
    EveryProduct();
    DirectoriesHave(product);
    ConfiguredHave(product);
    TreeHas(product);
    var created;
    o, created := MakeDirectories(s, product);
    made := before.(created := created);
    if o != Returned { return; }
    o, created := WriteConfiguration(s, product, created);
    made := before.(created := created);
    if o != Returned { return; }
    o, created := WriteUnits(s, product, created);
    made := before.(created := created);
    if o != Returned { return; }
    o := WriteInside(s, STATE, "install-manifest.json", product.manifest);
  }

  /** Start the services and wait for their sockets. */
  method StartServices(s: System) returns (o: Outcome)
    modifies s`targets, s`seen, s.env
    ensures Settled(old(s.targets), s.targets) && Noted(old(s.seen), s.seen, {Starting})
    ensures Goods(old(s.env.script), 1) ==> o == Returned && s.env.script == old(s.env.script)[1..]
  {
    s.Settle();
    o := s.Call(Starting);
  }

  lemma EmptySafe()
    ensures AllSafe(map[])
  {
  }

  lemma ProductStays(ts: Targets, us: Targets)
    requires Settled(ts, us) && forall t :: t in PRODUCT ==> t in ts
    ensures (forall t :: t in PRODUCT ==> t in us) && us != map[]
    ensures forall product :: InPlace(ts, product) ==> InPlace(us, product)
  {
    assert SettledAt(LIB, ts, us) && SettledAt(BIN, ts, us) && SettledAt(ETC, ts, us) && SettledAt(UNIT, ts, us);
    assert SettledAt(WATCHDOG_UNIT, ts, us) && SettledAt(TMPFILES, ts, us);
    assert LIB in PRODUCT;
    forall t | t in PRODUCT ensures t in us { assert SettledAt(t, ts, us); }
  }

  /** The product runs as an isolated account: the one that was there, or the one `useradd` made. */
  ghost predicate Identified(s: System, was: Accounts)
    reads s`accounts
  {
    && s.accounts.user.Some? && s.accounts.user.value.isolated
    && s.accounts == if was.user.Some? then was else Added(s.manners.newcomer, Both)
  }

  /** There is an isolated account, or nothing that keeps `useradd` from making one. */
  predicate IdentityWorks(was: Accounts, manners: Manners) {
    if was.user.Some? then was.user.value.isolated else was.group.None? && manners.newcomer.isolated
  }

  const ATTEMPT_CALLS :=
    {AddUser, RefusedAddUser, LookUpUser, LookUpGroup, Writing, Starting, Unlink(AtSuccess), SyncUnlink(AtSuccess)}

  /** What is done under `try` once the identity is there: files, services, and the end of the journal. */
  method Furnish(s: System, product: Product, before: Made) returns (o: Outcome, made: Made)
    requires s.installing.Whole? && s.targets == map[] && Untried(s.seen, AtSuccess)
    modifies s`targets, s`installing, s`seen, s.env
    ensures AllSafe(s.targets) && s.installing in {old(s.installing), Missing}
    ensures made == before.(created := made.created) && made.created <= IN_ORDER
    ensures o == Returned ==> s.installing == Missing
    ensures s.installing == Missing ==>
              (forall t :: t in PRODUCT ==> t in s.targets) && s.targets != map[] && InPlace(s.targets, product)
    ensures o == Raised && s.installing == Missing <==> SyncFailed(s.seen, AtSuccess)
    ensures Noted(old(s.seen), s.seen, {Writing, Starting, Unlink(AtSuccess), SyncUnlink(AtSuccess)})
    ensures Goods(old(s.env.script), 26) ==> o == Returned
    ensures FailsAfter(old(s.env.script), 25) ==>
              && o == Raised && s.installing == Missing && s.env.script == old(s.env.script)[26..]
              && made.created == IN_ORDER
  {
    hide AllSafe, PRODUCT, Settled, IN_ORDER, InPlace;
    EmptySafe();
    o, made := WriteProduct(s, product, before);
    if o != Returned { return; }
    ghost var written := s.targets;
    o := StartServices(s);
    SettledSafe(written, s.targets);
    ProductStays(written, s.targets);
    if o != Returned { return; }
    o := RemoveInstallJournal(s, AtSuccess);
  }

  /** The statements under `try`. */
  method Attempt(s: System, product: Product) returns (o: Outcome, made: Made)
    requires s.installing.Whole? && s.targets == map[] && NoIdentityYet(s.seen) && Untried(s.seen, AtSuccess)
    modifies s, s.env
    ensures AllSafe(s.targets) && s.installing in {old(s.installing), Missing}
    ensures made.created <= IN_ORDER
    ensures o == Returned ==> s.installing == Missing
    ensures s.installing == Missing ==> (forall t :: t in PRODUCT ==> t in s.targets) && s.targets != map[]
    ensures s.installing == Missing ==> InPlace(s.targets, product) && Identified(s, old(s.accounts))
    ensures IdentityWorks(old(s.accounts), s.manners)
            && Goods(old(s.env.script), if old(s.accounts).user.Some? then 27 else 29)
            ==> o == Returned
    ensures o == Raised && s.installing == Missing <==> SyncFailed(s.seen, AtSuccess)
    ensures o == Raised ==>
              (Recorded(s.accounts, old(s.accounts), made.user, made.group)
               <==> !LostUser(s.seen, s.manners) && !LostGroup(s.seen))
    ensures LostUser(s.seen, s.manners) ==> o == Raised && !LostGroup(s.seen) && made == Made([], false, false)
    ensures LostGroup(s.seen) ==> o == Raised && made == Made([], true, false)
    ensures LostUser(s.seen, s.manners) || LostGroup(s.seen) ==>
              s.installing == old(s.installing) && s.targets == map[]
    ensures made.user ==> old(s.accounts) == NO_ACCOUNTS && Private(s.accounts)
    ensures s.installing == Missing && old(s.accounts).user.None? ==> made.user && made.group
    ensures old(s.accounts) != NO_ACCOUNTS ==> s.accounts == old(s.accounts) && !made.user && !made.group
    ensures Noted(old(s.seen), s.seen, ATTEMPT_CALLS)
    ensures old(s.accounts) == NO_ACCOUNTS && LosesUser(old(s.env.script), s.manners) ==>
              && LostUser(s.seen, s.manners)
              && s.env.script == old(s.env.script)[if old(s.env.script)[0].Good? then 2 else 1..]
    ensures old(s.accounts) == NO_ACCOUNTS && FailsAfter(old(s.env.script), 2) ==>
              LostGroup(s.seen) && s.env.script == old(s.env.script)[3..]
    ensures old(s.accounts).user.Some? && old(s.accounts).user.value.isolated && FailsAfter(old(s.env.script), 26) ==>
              && o == Raised && s.installing == Missing && s.env.script == old(s.env.script)[27..]
              && made.created == IN_ORDER
  {
    hide AllSafe, PRODUCT, Recorded, IN_ORDER, Private, LosesUser, InPlace;
    EmptySafe();
    o, made := PrepareIdentity(s);
    if o != Returned { return; }
    o, made := Furnish(s, product, made);
  }

  // ---------- the handler ----------

  ghost predicate Undeleted(seen: set<Step>) {
    forall end :: Step(DeletingUser, end) !in seen && Step(DeletingGroup, end) !in seen
  }

  /** What the removals called so far have left of the accounts. */
  function Left(a: Accounts, seen: set<Step>, manners: Manners): Accounts {
    var rest := if Took(DeletingUser, seen, manners.late) then WithoutUser(a, manners.along) else a;
    if Took(DeletingGroup, seen, manners.late) then rest.(group := None) else rest
  }

  /** `cleanup`: on return everything `install` finished making is gone.  The exit status of `userdel` and
      `groupdel` is ignored; a timeout of either raises. */
  method Cleanup(s: System, made: Made) returns (o: Outcome)
    requires AllSafe(s.targets)
    modifies s`targets, s`accounts, s`seen, s.env
    ensures AllSafe(s.targets)
    ensures o == Returned ==> forall i :: 0 <= i < |made.created| ==> made.created[i] !in s.targets
    ensures Forgets(old(s.accounts), s.accounts, made)
    ensures Undeleted(old(s.seen)) ==>
              && s.accounts == Left(old(s.accounts), s.seen, s.manners)
              && (Took(DeletingUser, s.seen, s.manners.late) ==> made.user)
              && (Took(DeletingGroup, s.seen, s.manners.late) ==> made.group)
    ensures Noted(old(s.seen), s.seen, {Removing, DeletingUser, DeletingGroup})
    ensures made.created == IN_ORDER && TMPFILES in old(s.targets) && LIB in old(s.targets)
            && old(s.env.script) == [Good]
            ==> TMPFILES !in s.targets && LIB in s.targets
    ensures AllGood(old(s.env.script)) ==>
              && AllGood(s.env.script) && o != Raised
              && (o == Returned ==> (made.user ==> s.accounts.user.None?) && (made.group ==> s.accounts.group.None?))
    ensures o == Died ==> s.env.script == []
    ensures old(s.targets) == map[] && !made.group && Goods(old(s.env.script), if made.user then 1 else 0) ==>
              && o == Returned && s.targets == map[] && (made.user ==> s.accounts.user.None?)
              && s.env.script == old(s.env.script)[if made.user then 1 else 0..]
  {
    hide AllSafe, Settled, Shrunk, IN_ORDER;
    s.Settle();
    SettledProduct(old(s.targets), s.targets);
    InOrderReversed();
    ghost var settled := s.targets;
    o := s.RemoveAll(Reversed(made.created));
    ShrunkSafe(settled, s.targets);
    if o != Returned { return; }
    NoneOf(s.targets, made.created);
    o := DeleteMade(s, made.user, made.group);
  }

  /** `userdel` and `groupdel`, for what was recorded as made. */
  method DeleteMade(s: System, user: bool, group: bool) returns (o: Outcome)
    modifies s`accounts, s`seen, s.env
    ensures Undeleted(old(s.seen)) ==>
              && s.accounts == Left(old(s.accounts), s.seen, s.manners)
              && (Took(DeletingUser, s.seen, s.manners.late) ==> user)
              && (Took(DeletingGroup, s.seen, s.manners.late) ==> group)
    ensures Forgets(old(s.accounts), s.accounts, Made([], user, group))
    ensures Noted(old(s.seen), s.seen, {DeletingUser, DeletingGroup})
    ensures AllGood(old(s.env.script)) ==>
              && AllGood(s.env.script) && o != Raised
              && (o == Returned ==> (user ==> s.accounts.user.None?) && (group ==> s.accounts.group.None?))
    ensures o == Died ==> s.env.script == []
    ensures !group && Goods(old(s.env.script), if user then 1 else 0) ==>
              && o == Returned && (user ==> s.accounts.user.None?)
              && s.env.script == old(s.env.script)[if user then 1 else 0..]
  {
    if user {
      o := s.DeleteUser();
      if o == Died || (o == Raised && DeletingUser in s.manners.slow) { return; }
    }
    if group {
      o := s.DeleteGroup();
      if o == Died || (o == Raised && DeletingGroup in s.manners.slow) { return; }
    }
    return Returned;
  }

  /** Accounts only go, and only what was recorded as made. */
  predicate Forgets(before: Accounts, after: Accounts, made: Made) {
    && after.user in {before.user, None} && (!made.user ==> after.user == before.user)
    && after.group in {before.group, None} && (!made.user && !made.group ==> after.group == before.group)
  }

  lemma SettledProduct(ts: Targets, us: Targets)
    requires Settled(ts, us) && AllSafe(ts)
    ensures AllSafe(us) && (ts == map[] ==> us == map[])
    ensures TMPFILES in ts ==> TMPFILES in us && us[TMPFILES].Reg?
    ensures LIB in ts ==> LIB in us
  {
    SettledSafe(ts, us);
    if ts == map[] { NothingSettles(ts, us); }
    assert SettledAt(TMPFILES, ts, us) && SettledAt(LIB, ts, us);
    assert TMPFILES in ts ==> Safe(TMPFILES, ts[TMPFILES]);
  }

  lemma InOrderReversed()
    ensures Reversed(IN_ORDER) != [] && Reversed(IN_ORDER)[0] == TMPFILES
  {
  }

  lemma NoneOf(ts: Targets, created: seq<Target>)
    requires AllSafe(ts)
    requires var order := Reversed(created); forall i :: 0 <= i < |order| ==> order[i] !in ts || ts[order[i]].Alias?
    ensures forall i :: 0 <= i < |created| ==> created[i] !in ts
  {
    forall i | 0 <= i < |created| ensures created[i] !in ts {
      assert Reversed(created)[|created| - 1 - i] == created[i];
      assert created[i] in ts ==> Safe(created[i], ts[created[i]]);
    }
  }

  /** `cleanup_complete`: when the handler knows of every account that was made, a true answer says that the
      host is as it was before the install, and a false one that it is not. */
  method CleanupComplete(s: System, made: Made, ghost was: Accounts) returns (complete: bool)
    ensures Recorded(s.accounts, was, made.user, made.group) ==>
              (complete <==> s.targets == map[] && s.accounts == was)
    ensures complete ==> s.targets == map[]
    ensures complete && made.user ==> s.accounts.user.None?
    ensures s.targets == map[] && (made.user ==> s.accounts.user.None?) && (made.group ==> s.accounts.group.None?) ==>
              complete
  {
    return s.targets == map[] && (!made.user || s.accounts.user.None?) && (!made.group || s.accounts.group.None?);
  }

  lemma LeftKept(a: Accounts, before: set<Step>, after: set<Step>, manners: Manners)
    requires Noted(before, after, {Unlink(InHandler), SyncUnlink(InHandler)})
    ensures Took(DeletingUser, after, manners.late) == Took(DeletingUser, before, manners.late)
    ensures Took(DeletingGroup, after, manners.late) == Took(DeletingGroup, before, manners.late)
    ensures Left(a, after, manners) == Left(a, before, manners)
  {
  }

  const HANDLER_CALLS := {Removing, DeletingUser, DeletingGroup, Unlink(InHandler), SyncUnlink(InHandler)}

  /** The exception handler of `install`: the journal goes only once everything recorded is undone. */
  method Handle(s: System, made: Made, ghost was: Accounts) returns (o: Outcome)
    requires AllSafe(s.targets)
    modifies s, s.env
    ensures o != Returned && AllSafe(s.targets) && s.installing in {old(s.installing), Missing}
    ensures old(s.installing).Whole? && s.installing == Missing ==>
              && s.targets == map[] && (made.user ==> s.accounts.user.None?)
              && (Recorded(s.accounts, was, made.user, made.group) ==> s.accounts == was)
    ensures Undeleted(old(s.seen)) ==>
              && s.accounts == Left(old(s.accounts), s.seen, s.manners)
              && (Took(DeletingUser, s.seen, s.manners.late) ==> made.user)
              && (Took(DeletingGroup, s.seen, s.manners.late) ==> made.group)
    ensures Noted(old(s.seen), s.seen, HANDLER_CALLS)
    ensures AllGood(old(s.env.script)) && o == Raised ==>
              && (forall i :: 0 <= i < |made.created| ==> made.created[i] !in s.targets)
              && (made.user ==> s.accounts.user.None?) && (made.group ==> s.accounts.group.None?)
              && (s.targets == map[] ==> s.installing == Missing)
    ensures o == Died ==> s.env.script == []
    ensures old(s.targets) == map[] && !made.group && Goods(old(s.env.script), if made.user then 2 else 1) ==>
              s.installing == Missing && s.targets == map[]
    ensures old(s.installing) == Missing && made.created == IN_ORDER && TMPFILES in old(s.targets)
            && LIB in old(s.targets) && old(s.env.script) == [Good]
            ==> TMPFILES !in s.targets && LIB in s.targets
  {
    hide AllSafe, Recorded, IN_ORDER, Left, Forgets;
    o := Cleanup(s, made);
    if o != Returned { return; }
    var complete := CleanupComplete(s, made, was);
    if complete {
      ghost var noted := s.seen;
      o := RemoveInstallJournal(s, InHandler);
      LeftKept(old(s.accounts), noted, s.seen, s.manners);
      if o == Died { return; }
    }
    o := Raised;
  }

  // ---------- the install ----------

  /** Every change is covered: by a journal that guards it, by having been undone, or by being complete. */
  ghost predicate TargetsCovered(s: System, was: Accounts)
    reads s`installing, s`targets, s`accounts
  {
    Guarded(s, was) || (!s.installing.Whole? && s.targets == map[]) || Complete(s)
  }

  /** Something stands, but not all that an install makes. */
  ghost predicate PartlyDown(s: System)
    reads s`targets
  {
    s.targets != map[] && exists t :: t in PRODUCT && t !in s.targets
  }

  /** The accounts a `userdel` and a `groupdel` were called for are gone. */
  predicate Unmade(seen: set<Step>, manners: Manners) {
    Took(DeletingUser, seen, manners.late) && (manners.along || Took(DeletingGroup, seen, manners.late))
  }

  /** The calls after which accounts stay: the new user was lost; or his group was, and `userdel` does not take it;
      or the journal was unlinked and not synced, and the removals did not take both. */
  predicate Leaks(seen: set<Step>, manners: Manners, was: Accounts) {
    || LostUser(seen, manners)
    || (LostGroup(seen) && !manners.along)
    || (SyncFailed(seen, AtSuccess) && was.user.None? && !Unmade(seen, manners))
  }

  /** From `useradd` on: the new user or his group is lost, and the calls of the handler work. */
  predicate Forgetful(script: seq<Io>, manners: Manners) {
    || (LosesUser(script, manners) && Goods(script[if script[0].Good? then 2 else 1..], 1))
    || (FailsAfter(script, 2) && !manners.along && Goods(script[3..], 2))
  }

  /** The statements under `try` and the handler, from the outcomes of their calls. */
  method Try(s: System, product: Product) returns (o: Outcome)
    requires s.targets == map[] && s.installing.Whole?
    requires s.installing.value.preexisting == s.accounts.user.Some?
    requires NoIdentityYet(s.seen) && Untried(s.seen, AtSuccess) && Undeleted(s.seen)
    modifies s, s.env
    ensures o == Returned ==> Complete(s) && InPlace(s.targets, product) && Identified(s, old(s.accounts))
    ensures IdentityWorks(old(s.accounts), s.manners)
            && Goods(old(s.env.script), if old(s.accounts).user.Some? then 27 else 29)
            ==> o == Returned
    ensures TargetsCovered(s, old(s.accounts)) <==> !(SyncFailed(s.seen, AtSuccess) && PartlyDown(s))
    ensures !s.installing.Whole? && s.targets == map[] ==>
              (s.accounts != old(s.accounts) <==> Leaks(s.seen, s.manners, old(s.accounts)))
    ensures !s.installing.Whole? && LostGroup(s.seen) ==> s.accounts.user.None?
    ensures old(s.accounts).user.Some? && old(s.accounts).user.value.isolated
            && FailsAfter(old(s.env.script), 26) && old(s.env.script)[27..] == [Good]
            ==> SyncFailed(s.seen, AtSuccess) && !TargetsCovered(s, old(s.accounts))
    ensures old(s.accounts) == NO_ACCOUNTS && Forgetful(old(s.env.script), s.manners) ==>
              s.installing == Missing && s.targets == map[] && s.accounts != NO_ACCOUNTS
  {
    hide AllSafe, PRODUCT, Recorded, IN_ORDER, IDENTITY_CALLS, ATTEMPT_CALLS, HANDLER_CALLS, Noted, NoIdentityYet;
    hide SyncFailed, LostUser, LostGroup, Guarded, Complete, TargetsCovered, PartlyDown, Untried;
    hide Leaks, Left, Took, Undeleted, LosesUser, FailsAfter, Goods, Private, InPlace, Identified, IdentityWorks;
    EmptySafe();
    InOrderHas();
    ghost var was, opening := s.accounts, s.seen;
    var made;
    o, made := Attempt(s, product);
    ghost var orphaned := SyncFailed(s.seen, AtSuccess);
    AttemptNotes(opening, s.seen);
    if o != Raised { Coverage(s, was, orphaned); return; }
    ghost var before, noted := s.accounts, s.seen;
    o := Handle(s, made, was);
    NotesKept(noted, s.seen, s.manners);
    LostLeaks(s.seen, s.manners, was);
    if !made.user && !made.group { LeftAlone(before, s.seen, s.manners); }
    Coverage(s, was, orphaned);
    if !s.installing.Whole? && s.targets == map[] { LeftBehind(before, s.accounts, was, made, s.seen, s.manners); }
  }

  /** `install` on a host without a journal, by the outcomes of its calls.  Its targets are covered at every
      end, except exactly when the final unlink of the journal worked, the directory sync after it failed,
      and the cleanup that follows left the product partly down.  Where no journal and no target is left,
      accounts are left behind exactly when the calls leak them. */
  method InstallFresh(s: System, request: string, accepted: bool, product: Product) returns (o: Outcome)
    requires s.installing == Missing
    modifies s, s.env
    ensures o == Returned ==> Complete(s) && InPlace(s.targets, product) && Identified(s, old(s.accounts))
    ensures old(s.targets) != map[] || !accepted ==> o == Raised && unchanged(s)
    ensures old(s.targets) == map[] && accepted && IdentityWorks(old(s.accounts), s.manners)
            && Goods(old(s.env.script), if old(s.accounts).user.Some? then 30 else 32)
            ==> o == Returned
    ensures old(s.targets) == map[] ==>
              (TargetsCovered(s, old(s.accounts)) <==> !(SyncFailed(s.seen, AtSuccess) && PartlyDown(s)))
    ensures old(s.targets) == map[] && accepted && !s.installing.Whole? && s.targets == map[] ==>
              (s.accounts != old(s.accounts) <==> Leaks(s.seen, s.manners, old(s.accounts)))
    ensures old(s.targets) == map[] && accepted && !s.installing.Whole? && LostGroup(s.seen) ==> s.accounts.user.None?
    ensures old(s.targets) == map[] && accepted && old(s.accounts).user.Some? && old(s.accounts).user.value.isolated
            && FailsAfter(old(s.env.script), 29) && old(s.env.script)[30..] == [Good]
            ==> SyncFailed(s.seen, AtSuccess) && !TargetsCovered(s, old(s.accounts))
    ensures old(s.targets) == map[] && accepted && old(s.accounts) == NO_ACCOUNTS
            && Goods(old(s.env.script), 3) && Forgetful(old(s.env.script)[3..], s.manners)
            ==> s.installing == Missing && s.targets == map[] && s.accounts != NO_ACCOUNTS
  {
    hide AllSafe, PRODUCT, Noted, NoIdentityYet, Untried, Undeleted, Forgetful, FailsAfter, Goods;
    hide SyncFailed, LostUser, LostGroup, Leaks, Complete, TargetsCovered, PartlyDown;
    hide InPlace, Identified, IdentityWorks;
    EmptySafe();
    if s.targets != map[] || !accepted {
      if s.targets == map[] { Coverage(s, s.accounts, SyncFailed(s.seen, AtSuccess)); }
      return Raised;
    }
    s.seen := {};
    if FailsAfter(s.env.script, 29) { ForeseeOrphan(s.env.script); }
    if Goods(s.env.script, 30) { GoodsLater(s.env.script, 27); }
    if Goods(s.env.script, 32) { GoodsLater(s.env.script, 29); }
    ghost var was := s.accounts;
    o := WriteInstallJournal(s, InstallJournal(request, s.accounts.user.Some?));
    FreshNotes(s.seen, s.manners, was);
    if o != Returned { Coverage(s, was, false); return; }
    o := Try(s, product);
  }

  lemma InOrderHas()
    ensures LIB in PRODUCT && TMPFILES in PRODUCT
  {
  }

  lemma FreshNotes(seen: set<Step>, manners: Manners, was: Accounts)
    requires Noted({}, seen, {Journalling})
    ensures NoIdentityYet(seen) && Untried(seen, AtSuccess) && !SyncFailed(seen, AtSuccess) && Undeleted(seen)
    ensures !Leaks(seen, manners, was) && !LostGroup(seen)
  {
    forall name, end | Step(name, end) in seen ensures name == Journalling {}
  }

  lemma AttemptNotes(before: set<Step>, after: set<Step>)
    requires Noted(before, after, ATTEMPT_CALLS) && Undeleted(before)
    ensures Undeleted(after)
  {
  }

  lemma NotesKept(before: set<Step>, after: set<Step>, manners: Manners)
    requires Noted(before, after, HANDLER_CALLS)
    ensures SyncFailed(after, AtSuccess) == SyncFailed(before, AtSuccess)
    ensures LostUser(after, manners) == LostUser(before, manners) && LostGroup(after) == LostGroup(before)
  {
  }

  lemma GoodsLater(script: seq<Io>, k: nat)
    requires Goods(script, k + 3)
    ensures Goods(script, 3) && Goods(script[3..], k)
  {
  }

  /** What a script says from its fourth call on that fails at the final sync. */
  lemma ForeseeOrphan(script: seq<Io>)
    requires FailsAfter(script, 29)
    ensures Goods(script, 3) && FailsAfter(script[3..], 26) && script[3..][27..] == script[30..]
  {
  }

  lemma LeftAlone(a: Accounts, seen: set<Step>, manners: Manners)
    requires !Took(DeletingUser, seen, manners.late) && !Took(DeletingGroup, seen, manners.late)
    ensures Left(a, seen, manners) == a
  {
  }

  lemma LostLeaks(seen: set<Step>, manners: Manners, was: Accounts)
    ensures LostUser(seen, manners) || (LostGroup(seen) && !manners.along) ==> Leaks(seen, manners, was)
  {
  }

  /** Covered, unless orphaned and partly down. */
  lemma Coverage(s: System, was: Accounts, orphaned: bool)
    requires AllSafe(s.targets)
    requires s.installing.Whole? ==>
               !orphaned && s.installing.value.preexisting == was.user.Some? && (was.user.Some? ==> s.accounts == was)
    requires !s.installing.Whole? && !orphaned ==>
               s.targets == map[] || (s.installing == Missing && forall t :: t in PRODUCT ==> t in s.targets)
    requires orphaned ==> s.installing == Missing
    ensures TargetsCovered(s, was) <==> !(orphaned && PartlyDown(s))
    ensures s.installing == Missing && (forall t :: t in PRODUCT ==> t in s.targets) ==> Complete(s)
    ensures TMPFILES !in s.targets && LIB in s.targets ==> PartlyDown(s)
  {
    hide AllSafe;
  }

  /** What the handler leaves of the accounts, from what it knew of them. */
  lemma LeftBehind(before: Accounts, after: Accounts, was: Accounts, made: Made, seen: set<Step>, manners: Manners)
    requires after == Left(before, seen, manners)
    requires Took(DeletingUser, seen, manners.late) ==> made.user
    requires Took(DeletingGroup, seen, manners.late) ==> made.group
    requires Recorded(before, was, made.user, made.group) <==> !LostUser(seen, manners) && !LostGroup(seen)
    requires LostUser(seen, manners) ==> !LostGroup(seen) && !made.user && !made.group
    requires LostGroup(seen) ==> made.user && !made.group
    requires made.user ==> was == NO_ACCOUNTS && Private(before)
    requires was != NO_ACCOUNTS ==> before == was && !made.user && !made.group
    requires SyncFailed(seen, AtSuccess) ==>
               !LostUser(seen, manners) && !LostGroup(seen) && (was.user.None? ==> made.user && made.group)
    requires !SyncFailed(seen, AtSuccess) ==>
               && (made.user ==> after.user.None?)
               && (Recorded(after, was, made.user, made.group) ==> after == was)
    ensures after != was <==> Leaks(seen, manners, was)
  {
    hide Took, LostUser, LostGroup, SyncFailed;
  }

  /** `install`: an interrupted one is recovered first, and the new one starts from the accounts `base` that
      the recovery left. */
  method Install(s: System, request: string, accepted: bool, product: Product, ghost was: Accounts)
    returns (o: Outcome, ghost base: Accounts)
    modifies s, s.env
    ensures o == Returned ==> Complete(s) && InPlace(s.targets, product) && Identified(s, base)
    ensures old(s.installing == Missing && s.targets == map[]) && accepted && IdentityWorks(old(s.accounts), s.manners)
            && Goods(old(s.env.script), if old(s.accounts).user.Some? then 30 else 32)
            ==> o == Returned
    ensures old(s.installing == Missing && s.targets == map[]) ==>
              && base == old(s.accounts)
              && (TargetsCovered(s, base) <==> !(SyncFailed(s.seen, AtSuccess) && PartlyDown(s)))
    ensures old(s.installing == Missing && s.targets != map[]) ==> o == Raised && unchanged(s)
    ensures !accepted ==> o != Returned && (old(s.installing) == Missing ==> unchanged(s))
    ensures old(s.installing == Torn) ==> o == Raised && unchanged(s)
    ensures old(Guarded(s, was)) ==>
              || Guarded(s, was)
              || (OnlyPreexisting(base, was)
                  && (TargetsCovered(s, base) || (SyncFailed(s.seen, AtSuccess) && PartlyDown(s))))
    ensures old((s.installing == Missing && s.targets == map[]) || Guarded(s, was)) && accepted
            && !s.installing.Whole? && s.targets == map[]
            ==> (s.accounts != base <==> Leaks(s.seen, s.manners, base))
  {
    hide Guarded, Complete, TargetsCovered, OnlyPreexisting, Disposable, AllGood, PartlyDown, SyncFailed, FailsAfter;
    hide LostUser, LostGroup, Leaks, Forgetful, Noted, RECOVERY_CALLS, Goods, InPlace, Identified, IdentityWorks;
    base := s.accounts;
    UnguardedIfTorn(s, was);
    if s.installing != Missing {
      ghost var whole := s.installing.Whole?;
      if whole { s.seen := {}; }
      o := RecoverInterrupted(s, request, was);
      base := s.accounts;
      if o != Returned {
        if whole { RecoveryNotes(s.seen, s.manners, base); }
        if s.targets == map[] && !s.installing.Whole? { Undone(s, base); }
        return;
      }
    }
    o := InstallFresh(s, request, accepted, product);
  }

  lemma RecoveryNotes(seen: set<Step>, manners: Manners, was: Accounts)
    requires Noted({}, seen, RECOVERY_CALLS)
    ensures !Leaks(seen, manners, was)
  {
    assert Unlink(AtSuccess) !in RECOVERY_CALLS;
    forall step | step in seen ensures step.name in RECOVERY_CALLS {}
  }

  lemma UnguardedIfTorn(s: System, was: Accounts)
    ensures !s.installing.Whole? ==> !Guarded(s, was)
  {
  }

  lemma Undone(s: System, was: Accounts)
    requires s.targets == map[] && !s.installing.Whole?
    ensures TargetsCovered(s, was)
  {
  }

  /** A host and a script of call outcomes after which nothing covers what stands: every call of the install
      works up to the sync after its journal was unlinked, and the process dies after the first removal. */
  method OrphanedInstall(product: Product) returns (s: System, ghost was: Accounts)
    ensures SyncFailed(s.seen, AtSuccess) && !TargetsCovered(s, was)
  {
    hide TargetsCovered, SyncFailed, Complete, PartlyDown, Goods, FailsAfter;
    var works := seq(29, _ => Good);
    OrphanScript();
    var env := new Environment(works + [Bad, Good]);
    var accounts := Accounts(Some(User(990, 990, true)), Some(Group(990, true)));
    s := new System(env, PLAIN, map[], accounts);
    was := accounts;
    var o := InstallFresh(s, "candidate", true, product);
  }

  lemma OrphanScript()
    ensures var script := seq(29, _ => Good) + [Bad, Good];
            FailsAfter(script, 29) && script[30..] == [Good]
  {
  }
  /** An empty host on which the lookup after `useradd` fails, and the install leaves user and group behind. */
  method LostUserInstall(product: Product) returns (s: System)
    ensures s.installing == Missing && s.targets == map[] && s.accounts != NO_ACCOUNTS
  {
    s := ForgetfulInstall([Good, Good, Good, Good, Bad, Good], PLAIN, product);
  }

  /** One on which `useradd` itself times out after it has written both. */
  method LateUserInstall(product: Product) returns (s: System)
    ensures s.installing == Missing && s.targets == map[] && s.accounts != NO_ACCOUNTS
  {
    s := ForgetfulInstall([Good, Good, Good, Bad, Good], PLAIN.(written := Both), product);
  }

  /** One on which the lookup of the group fails, and `userdel` leaves the group. */
  method LostGroupInstall(product: Product) returns (s: System)
    ensures s.installing == Missing && s.targets == map[] && s.accounts != NO_ACCOUNTS
  {
    s := ForgetfulInstall([Good, Good, Good, Good, Good, Bad, Good, Good], PLAIN, product);
  }

  method ForgetfulInstall(script: seq<Io>, manners: Manners, product: Product) returns (s: System)
    requires Goods(script, 3) && Forgetful(script[3..], manners)
    ensures s.installing == Missing && s.targets == map[] && s.accounts != NO_ACCOUNTS
  {
    hide *;
    var env := new Environment(script);
    s := new System(env, manners, map[], NO_ACCOUNTS);
    var o := InstallFresh(s, "candidate", true, product);
  }
}
