/** The files, accounts and journals that scripts/install.py and scripts/uninstall.py change, and the system
    calls they change them with.  Every call may fail and the process may die before any of them. */
module Lifecycle {
  import opened Json
  import opened Faults

  datatype Target =
    | LIB | BIN | ETC | UNIT | WATCHDOG_UNIT | TMPFILES | STATE | RUNTIME | WATCHDOG_RUNTIME

  /** TARGETS of install.py; its recovery and cleanup go through them backwards. */
  const INSTALL_TARGETS := [LIB, BIN, ETC, UNIT, WATCHDOG_UNIT, TMPFILES, STATE, RUNTIME, WATCHDOG_RUNTIME]

  /** TARGETS of uninstall.py. */
  const UNINSTALL_TARGETS := [UNIT, WATCHDOG_UNIT, TMPFILES, BIN, LIB, ETC, STATE, RUNTIME, WATCHDOG_RUNTIME]

  predicate IsDirectory(t: Target) { t.LIB? || t.ETC? || t.STATE? || t.RUNTIME? || t.WATCHDOG_RUNTIME? }

  /** Directories that systemd makes and removes with the services. */
  predicate IsVolatile(t: Target) { t.RUNTIME? || t.WATCHDOG_RUNTIME? }

  /** `trusted`: owned as the product leaves it, one link.  Alias: a symbolic link or anything else. */
  datatype Node = Dir(trusted: bool, entries: map<string, string>) | Reg(trusted: bool, content: string) | Alias

  type Targets = map<Target, Node>

  /** The metadata check made on every target before a recovery or an uninstall removes any. */
  predicate Safe(t: Target, n: Node) { if IsDirectory(t) then n.Dir? && n.trusted else n.Reg? && n.trusted }

  /** Nothing passes it but what is owned as the product leaves it and of the kind the product makes there. */
  lemma SafeMeans(t: Target, n: Node)
    ensures Safe(t, n) <==>
              !n.Alias? && n.trusted && (n.Dir? <==> t in {LIB, ETC, STATE, RUNTIME, WATCHDOG_RUNTIME})
  {
  }

  ghost predicate AllSafe(ts: Targets) { forall t :: t in ts ==> Safe(t, ts[t]) }

  /** `isolated`: not root, not the operator, no shell, no home, no further groups. */
  datatype User = User(uid: int, gid: int, isolated: bool)

  /** `empty`: no listed member, and no other account's own group. */
  datatype Group = Group(gid: int, empty: bool)

  datatype Accounts = Accounts(user: Option<User>, group: Option<Group>)

  /** A journal file: absent, cut short while it was written, or complete. */
  datatype JournalFile<T> = Missing | Torn | Whole(value: T)

  /** The candidate and operator an install belongs to, and whether the account was there before it. */
  datatype InstallJournal = InstallJournal(request: string, preexisting: bool)

  /** What `install` recorded: the files by target and name ("" for the target itself), and the identity. */
  datatype Manifest = Manifest(files: map<(Target, string), string>, createdUser: bool, createdGroup: bool, uid: int)

  datatype RemovalJournal = RemovalJournal(manifest: Manifest, gid: int)

  lemma EveryTarget(t: Target)
    ensures t in INSTALL_TARGETS && t in UNINSTALL_TARGETS
  {
    match t
    case LIB => assert INSTALL_TARGETS[0] == t && UNINSTALL_TARGETS[4] == t;
    case BIN => assert INSTALL_TARGETS[1] == t && UNINSTALL_TARGETS[3] == t;
    case ETC => assert INSTALL_TARGETS[2] == t && UNINSTALL_TARGETS[5] == t;
    case UNIT => assert INSTALL_TARGETS[3] == t && UNINSTALL_TARGETS[0] == t;
    case WATCHDOG_UNIT => assert INSTALL_TARGETS[4] == t && UNINSTALL_TARGETS[1] == t;
    case TMPFILES => assert INSTALL_TARGETS[5] == t && UNINSTALL_TARGETS[2] == t;
    case STATE => assert INSTALL_TARGETS[6] == t && UNINSTALL_TARGETS[6] == t;
    case RUNTIME => assert INSTALL_TARGETS[7] == t && UNINSTALL_TARGETS[7] == t;
    case WATCHDOG_RUNTIME => assert INSTALL_TARGETS[8] == t && UNINSTALL_TARGETS[8] == t;
  }

  /** After the removal loop over every target nothing safe is left. */
  lemma NothingLeft(ts: Targets, order: seq<Target>)
    requires AllSafe(ts)
    requires forall t: Target :: t in order
    requires forall i :: 0 <= i < |order| ==> order[i] !in ts || ts[order[i]].Alias?
    ensures ts == map[]
  {
    forall t ensures t !in ts {
      assert t in order;
      assert t in ts ==> Safe(t, ts[t]);
    }
  }

  // ---------- removal ----------

  predicate SubMap(part: map<string, string>, whole: map<string, string>) {
    forall name :: name in part ==> name in whole && part[name] == whole[name]
  }

  /** What is left of a node while it is being removed. */
  predicate Remnant(part: Node, whole: Node) {
    || part == whole
    || (part.Dir? && whole.Dir? && part.trusted == whole.trusted && SubMap(part.entries, whole.entries))
  }

  /** Nothing was added; some targets are gone and some directories partly so. */
  ghost predicate Shrunk(ts: Targets, us: Targets) {
    forall t :: t in us ==> t in ts && Remnant(us[t], ts[t])
  }

  lemma ShrunkTwice(ts: Targets, us: Targets, vs: Targets)
    requires Shrunk(ts, us) && Shrunk(us, vs)
    ensures Shrunk(ts, vs)
  {
    forall t | t in vs ensures t in ts && Remnant(vs[t], ts[t]) {
      assert Remnant(us[t], ts[t]);
    }
  }

  lemma ShrunkSafe(ts: Targets, us: Targets)
    requires Shrunk(ts, us) && AllSafe(ts)
    ensures AllSafe(us)
  {
    forall t | t in us ensures Safe(t, us[t]) { assert Remnant(us[t], ts[t]) && Safe(t, ts[t]); }
  }

  // ---------- services ----------

  function UnitOf(t: Target): Target { if t.RUNTIME? then UNIT else WATCHDOG_UNIT }

  predicate SettledAt(t: Target, ts: Targets, us: Targets) {
    if IsVolatile(t) then
      t in us ==> (t in ts && us[t] == ts[t]) || (UnitOf(t) in ts && Safe(t, us[t]))
    else
      && (t in us <==> t in ts)
      && (t in ts ==> us[t] == ts[t] || (t.STATE? && ts[t].Dir? && us[t].Dir? && us[t].trusted == ts[t].trusted))
  }

  /** What running, starting or stopping services may do: write inside STATE, and make or drop the volatile
      directories of units that are installed. */
  ghost predicate Settled(ts: Targets, us: Targets) {
    forall t :: SettledAt(t, ts, us)
  }

  lemma SettledSafe(ts: Targets, us: Targets)
    requires Settled(ts, us) && AllSafe(ts)
    ensures AllSafe(us)
  {
    forall t | t in us ensures Safe(t, us[t]) {
      assert SettledAt(t, ts, us);
      if t in ts { assert Safe(t, ts[t]); }
    }
  }

  lemma NothingSettles(ts: Targets, us: Targets)
    requires Settled(ts, us) && ts == map[]
    ensures us == map[]
  {
    forall t ensures t !in us { assert SettledAt(t, ts, us); }
  }

  /** The calls of an install, by the place they are made from; the journal is removed from three places. */
  datatype Place = AtSuccess | InHandler | InRecovery

  datatype CallName =
    | Journalling | AddUser | RefusedAddUser | LookUpUser | LookUpGroup | Writing | Starting
    | Unlink(place: Place) | SyncUnlink(place: Place)
    | Removing | DeletingUser | DeletingGroup | OtherCall

  /** A call made, and how it ended. */
  datatype Step = Step(name: CallName, end: Outcome)

  /** Nothing but calls of the given names was added. */
  ghost predicate Noted(before: set<Step>, after: set<Step>, names: set<CallName>) {
    before <= after && forall step :: step in after && step !in before ==> step.name in names
  }

  /** What a `useradd` that did not return had already written. */
  datatype Written = Nothing | TheUser | TheGroup | Both

  /** How the account commands of a host behave where the code cannot see it.  `written`: what a `useradd` that
      fails, or whose caller dies, leaves behind; `late`: the removals that fail only after their work; `slow`:
      those whose failure is the timeout of `run`, which raises where an exit status is ignored; `along`:
      `userdel` takes the user's own group with him; `newcomer`: the user a `useradd` makes. */
  datatype Manners =
    Manners(written: Written, late: set<CallName>, slow: set<CallName>, along: bool, newcomer: User)

  /** What this `useradd` leaves on a host without user and group. */
  function Added(user: User, written: Written): Accounts {
    Accounts(if written.TheUser? || written.Both? then Some(user) else None,
             if written.TheGroup? || written.Both? then Some(Group(user.gid, true)) else None)
  }

  /** The group is the user's own and has no other member. */
  predicate Private(a: Accounts) {
    a.user.Some? && a.group.Some? && a.group.value == Group(a.user.value.gid, true)
  }

  /** `userdel`. */
  function WithoutUser(a: Accounts, along: bool): Accounts {
    Accounts(None, if along && Private(a) then None else a.group)
  }

  /** The removal was called and has done its work, whether or not it said so. */
  predicate Took(name: CallName, seen: set<Step>, late: set<CallName>) {
    || Step(name, Returned) in seen
    || (name in late && (Step(name, Raised) in seen || Step(name, Died) in seen))
  }

  class System {
    const env: Environment
    const manners: Manners
    var targets: Targets
    var accounts: Accounts
    var installing: JournalFile<InstallJournal>
    var removing: JournalFile<RemovalJournal>

    /** The calls made so far, with their outcomes. */
    ghost var seen: set<Step>

    constructor (env: Environment, manners: Manners, targets: Targets, accounts: Accounts)
      ensures this.env == env && this.manners == manners && this.targets == targets && this.accounts == accounts
      ensures installing == Missing && removing == Missing && seen == {}
    {
      this.env, this.manners, this.targets, this.accounts := env, manners, targets, accounts;
      installing, removing, seen := Missing, Missing, {};
    }

    /** One call: its outcome is the next of the script, and is noted. */
    method Call(name: CallName) returns (o: Outcome)
      modifies this`seen, env
      ensures seen == old(seen) + {Step(name, o)}
      ensures o == Died <==> old(env.script) == []
      ensures o == Died ==> env.script == []
      ensures o != Died ==>
                env.script == old(env.script)[1..] && (o == Returned <==> old(env.script)[0].Good?)
      ensures AllGood(old(env.script)) ==> AllGood(env.script) && o != Raised
    {
      var io := env.Take();
      o := match io case None => Died case Some(Good) => Returned case Some(Bad) => Raised;
      seen := seen + {Step(name, o)};
    }

    /** `shutil.rmtree` or `Path.unlink`, whichever the target needs; an alias is left alone. */
    method Remove(t: Target) returns (o: Outcome)
      modifies this`targets, this`seen, env
      ensures Shrunk(old(targets), targets)
      ensures forall u :: u != t && u in old(targets) ==> u in targets && targets[u] == old(targets)[u]
      ensures o == Returned ==> t !in targets || targets[t].Alias?
      ensures o == Died ==> env.script == []
      ensures AllGood(old(env.script)) ==> AllGood(env.script) && o != Raised
      ensures Noted(old(seen), seen, {Removing})
      ensures old(env.script) == [] ==> targets == old(targets) && env.script == []
      ensures t !in old(targets) ==> o == Returned && targets == old(targets) && env.script == old(env.script)
      ensures t in old(targets) && old(targets)[t].Reg? && Goods(old(env.script), 1) ==>
                o == Returned && targets == old(targets) - {t} && env.script == old(env.script)[1..]
    {
      if t !in targets || targets[t].Alias? { return Returned; }
      if targets[t].Dir? {
        o := Empty(t);
        if o != Returned { return; }
      }
      o := Call(Removing);
      if o != Returned { return; }
      targets := targets - {t};
    }

    /** `shutil.rmtree` on what a directory holds, one name at a time. */
    method Empty(t: Target) returns (o: Outcome)
      requires t in targets && targets[t].Dir?
      modifies this`targets, this`seen, env
      ensures t in targets && Remnant(targets[t], old(targets)[t])
      ensures targets == old(targets)[t := targets[t]]
      ensures o == Died ==> env.script == []
      ensures AllGood(old(env.script)) ==> AllGood(env.script) && o != Raised
      ensures Noted(old(seen), seen, {Removing})
      ensures old(env.script) == [] ==> targets == old(targets) && env.script == []
    {
      var node := targets[t];
      var rest := node.entries;
      while rest.Keys != {}
        invariant t in targets && targets == old(targets)[t := Dir(node.trusted, rest)] && SubMap(rest, node.entries)
        invariant AllGood(old(env.script)) ==> AllGood(env.script)
        invariant Noted(old(seen), seen, {Removing})
        invariant old(env.script) == [] ==> rest == node.entries && env.script == []
        decreases rest.Keys
      {
        var name :| name in rest;
        o := Call(Removing);
        if o != Returned { return; }
        assert rest.Keys == (rest - {name}).Keys + {name};
        rest := rest - {name};
        targets := targets[t := Dir(node.trusted, rest)];
      }
      return Returned;
    }

    /** The removal loop over `order`. */
    method RemoveAll(order: seq<Target>) returns (o: Outcome)
      modifies this`targets, this`seen, env
      ensures Shrunk(old(targets), targets)
      ensures o == Returned ==> forall i :: 0 <= i < |order| ==> order[i] !in targets || targets[order[i]].Alias?
      ensures o == Died ==> env.script == []
      ensures AllGood(old(env.script)) ==> AllGood(env.script) && o != Raised
      ensures Noted(old(seen), seen, {Removing})
      ensures old(env.script) == [] ==> targets == old(targets)
      ensures old(targets) == map[] ==> o == Returned && targets == map[] && env.script == old(env.script)
      ensures order != [] && order[0] in old(targets) && old(targets)[order[0]].Reg? && old(env.script) == [Good] ==>
                targets == old(targets) - {order[0]}
    {
      for i := 0 to |order|
        invariant Noted(old(seen), seen, {Removing})
        invariant old(env.script) == [] ==> targets == old(targets) && env.script == []
        invariant i > 0 && order[0] in old(targets) && old(targets)[order[0]].Reg? && old(env.script) == [Good] ==>
                    targets == old(targets) - {order[0]} && env.script == []
        invariant i == 0 ==> targets == old(targets) && env.script == old(env.script)
        invariant old(targets) == map[] ==> targets == map[] && env.script == old(env.script)
        invariant Shrunk(old(targets), targets)
        invariant forall j :: 0 <= j < i ==> order[j] !in targets || targets[order[j]].Alias?
        invariant AllGood(old(env.script)) ==> AllGood(env.script)
      {
        ghost var before := targets;
        o := Remove(order[i]);
        ShrunkTwice(old(targets), before, targets);
        forall j | 0 <= j < i ensures order[j] !in targets || targets[order[j]].Alias? {
          if order[j] in targets { assert Remnant(targets[order[j]], before[order[j]]); }
        }
        if o != Returned { return; }
      }
      return Returned;
    }

    /** Services starting, running or stopping. */
    method Settle()
      modifies this`targets
      ensures Settled(old(targets), targets)
    {
      hide Safe;
      var entries: map<string, string> := *;
      if STATE in targets && targets[STATE].Dir? {
        targets := targets[STATE := Dir(targets[STATE].trusted, entries)];
      }
      SettleVolatile(RUNTIME);
      SettleVolatile(WATCHDOG_RUNTIME);
    }

    /** A volatile directory stays, goes, or is made anew. */
    method SettleVolatile(t: Target)
      requires IsVolatile(t)
      modifies this`targets
      ensures forall u :: u != t ==>
                (u in targets <==> u in old(targets)) && (u in targets ==> targets[u] == old(targets)[u])
      ensures SettledAt(t, old(targets), targets)
    {
      var drop: bool, node: Node := *, *;
      if drop { targets := targets - {t}; }
      if UnitOf(t) in targets && Safe(t, node) { targets := targets[t := node]; }
    }

    /** `userdel`. */
    method DeleteUser() returns (o: Outcome)
      modifies this`accounts, this`seen, env
      ensures seen == old(seen) + {Step(DeletingUser, o)}
      ensures accounts == if o == Returned || DeletingUser in manners.late
                          then WithoutUser(old(accounts), manners.along) else old(accounts)
      ensures Goods(old(env.script), 1) ==> o == Returned && env.script == old(env.script)[1..]
      ensures o == Died ==> env.script == []
      ensures AllGood(old(env.script)) ==> AllGood(env.script) && o != Raised
    {
      o := Call(DeletingUser);
      if o == Returned || DeletingUser in manners.late { accounts := WithoutUser(accounts, manners.along); }
    }

    /** `groupdel`. */
    method DeleteGroup() returns (o: Outcome)
      modifies this`accounts, this`seen, env
      ensures seen == old(seen) + {Step(DeletingGroup, o)}
      ensures accounts == if o == Returned || DeletingGroup in manners.late
                          then old(accounts).(group := None) else old(accounts)
      ensures Goods(old(env.script), 1) ==> o == Returned && env.script == old(env.script)[1..]
      ensures o == Died ==> env.script == []
      ensures AllGood(old(env.script)) ==> AllGood(env.script) && o != Raised
    {
      o := Call(DeletingGroup);
      if o == Returned || DeletingGroup in manners.late { accounts := accounts.(group := None); }
    }
  }
}
