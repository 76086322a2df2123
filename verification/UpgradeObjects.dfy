/** The upgrade transaction on a machine whose files are replaced in place: snapshot, journal phases,
    migration, replacement, rollback and recovery.  Every system call may fail and the process may die
    before any of them. */
module UpgradeObjects {
  import opened Json
  import opened Faults
  import opened NameOrder
  import opened Upgrade

  const LEGACY := "lumi-eggcracker.run.v3"
  const CURRENT := "lumi-eggcracker.run.v4"
  const ACTIVE_STATES := {"STARTING", "RUNNING"}

  predicate Legacy(r: Record) { r.Record? && r.schema == LEGACY }

  /** The v4 form of a v3 record; any other record stays as it is. */
  function Migrated(r: Record): Record {
    if Legacy(r) then r.(boundary := None, networkMode := "none", schema := CURRENT) else r
  }

  /** A record that stops the migration: unreadable, or an active v3 record. */
  predicate Stops(r: Record) { r.Broken? || (Legacy(r) && r.state in ACTIVE_STATES) }

  /** The v3 records among `names`. */
  ghost function LegacyNames(records: map<string, Record>, names: set<string>): set<string> {
    set name | name in records && name in names && Legacy(records[name])
  }

  /** The records with those in `seen` migrated. */
  ghost function MigratedIn(records: map<string, Record>, seen: set<string>): map<string, Record> {
    map name | name in records :: if name in seen then Migrated(records[name]) else records[name]
  }

  /** `n` is the first position of `names` whose record stops the migration, or their number. */
  ghost predicate StopsAt(records: map<string, Record>, names: seq<string>, n: nat) {
    && n <= |names|
    && (forall i :: 0 <= i < n && names[i] in records ==> !Stops(records[names[i]]))
    && (n < |names| && names[n] in records ==> Stops(records[names[n]]))
  }

  lemma MigratedOne(records: map<string, Record>, seen: set<string>, name: string)
    requires name in records && name !in seen
    ensures name in MigratedIn(records, seen) && MigratedIn(records, seen)[name] == records[name]
    ensures MigratedIn(records, seen + {name}) == MigratedIn(records, seen)[name := Migrated(records[name])]
    ensures LegacyNames(records, seen + {name})
            == LegacyNames(records, seen) + if Legacy(records[name]) then {name} else {}
    ensures name !in LegacyNames(records, seen)
  {
    hide Migrated;
  }

  lemma MigratedNone(records: map<string, Record>)
    ensures MigratedIn(records, {}) == records && LegacyNames(records, {}) == {}
  {
  }

  /** In `now` three members of each v3 record among `seen` are set, and nothing else is touched. */
  ghost predicate Converted(was: map<string, Record>, now: map<string, Record>, seen: set<string>) {
    && now.Keys == was.Keys
    && forall name :: name in was ==>
         now[name] == if name in seen && was[name].Record? && was[name].schema == "lumi-eggcracker.run.v3"
                      then Record("lumi-eggcracker.run.v4", was[name].state, None, "none", was[name].rest)
                      else was[name]
  }

  /** That is what a migration makes of the records it has passed. */
  lemma ConvertedMeans(records: map<string, Record>, seen: set<string>)
    ensures Converted(records, MigratedIn(records, seen), seen)
  {
  }

  function RunCount(r: Runs): nat { if r.RunsDir? then |r.records| else 0 }

  /** No record stops a migration. */
  ghost predicate Migratable(r: Runs) {
    r.RunsDir? ==> forall name :: name in r.records ==>
      r.records[name].Record?
      && !(r.records[name].schema == LEGACY && r.records[name].state in {"STARTING", "RUNNING"})
  }

  /** Every path is absent or a regular file. */
  ghost predicate AllReplaceable(t: Tree, paths: set<Path>) {
    forall p :: p in paths && p in t ==> t[p].File?
  }

  /** A migration cut at position `n` has changed nothing exactly when no v3 record comes before it. */
  lemma CutMigrationKeeps(records: map<string, Record>, names: seq<string>, n: nat)
    requires Listing(names, records.Keys) && n <= |names|
    ensures MigratedIn(records, Prefix(names, n)) == records
            <==> forall i :: 0 <= i < n ==> names[i] in records && !Legacy(records[names[i]])
  {
    var now := MigratedIn(records, Prefix(names, n));
    forall i | 0 <= i < n ensures names[i] in records && names[i] in Prefix(names, n) {
      assert names[i] in Prefix(names, |names|);
    }
    if forall i :: 0 <= i < n ==> !Legacy(records[names[i]]) {
      forall name | name in records ensures now[name] == records[name] {
        if name in Prefix(names, n) { var i :| 0 <= i < n && names[i] == name; }
      }
      assert now == records;
    } else {
      var i :| 0 <= i < n && Legacy(records[names[i]]);
      assert now[names[i]] != records[names[i]];
    }
  }

  /** Active v3 records are said to be rejected before any mutation.  With a terminal v3 record listed before
      an active one, the migration stops at the second and has converted the first. */
  lemma CutMigrationExample(state: string)
    requires state !in ACTIVE_STATES
    ensures var done := Record(LEGACY, state, Some("b"), "none", "");
            var active := Record(LEGACY, "RUNNING", None, "none", "");
            var records := map["a.json" := done, "b.json" := active];
            && Listing(["a.json", "b.json"], records.Keys)
            && StopsAt(records, ["a.json", "b.json"], 1)
            && MigratedIn(records, Prefix(["a.json", "b.json"], 1)) != records
  {
    var names := ["a.json", "b.json"];
    var records := map["a.json" := Record(LEGACY, state, Some("b"), "none", ""),
                       "b.json" := Record(LEGACY, "RUNNING", None, "none", "")];
    assert names[0] == "a.json" && names[1] == "b.json" && names[0][0] != names[1][0];
    assert Prefix(names, 2) == {"a.json", "b.json"} by {
      assert names[0] in Prefix(names, 2) && names[1] in Prefix(names, 2);
    }
    CutMigrationKeeps(records, names, 1);
    assert Legacy(records[names[0]]);
  }

  /** How `restore_snapshot` leaves the tree and RUNS. */
  ghost predicate RestoreEnds(o: Outcome, t: Tree, r: Runs, u: Tree, s: Runs, files: seq<Entry>, b: Backup) {
    if o == Returned then
      u == RestoredTo(t, files, b.files, |files|) && s == if b.runs.Some? then RunsDir(b.runs.value) else r
    else
      || (exists n :: 0 <= n <= |files| && u == RestoredTo(t, files, b.files, n) && s == r)
      || (b.runs.Some? && u == RestoredTo(t, files, b.files, |files|) && !s.Odd?)
  }

  /** Every stored copy the entries name is there. */
  predicate Complete(files: seq<Entry>, stored: map<nat, string>) {
    forall i :: 0 <= i < |files| && files[i].meta.Kept? ==> files[i].meta.stored in stored
  }

  /** Content and mode of a file of the new release. */
  datatype NewFile = NewFile(content: string, mode: int)

  type Release = m: map<Path, NewFile> | forall p :: p in FIXED ==> p in m
    witness map p | p in FIXED :: NewFile("", 0)

  function NodeOf(release: Release, p: Path): Node
    requires p in FIXED
  {
    File(release[p].content, release[p].mode, 0, 0)
  }

  /** `u` is `t` with the new files at `done`, and perhaps at more of the fixed paths, and nowhere else. */
  ghost predicate Installing(t: Tree, u: Tree, release: Release, done: set<Path>) {
    && (forall p :: p !in FIXED ==> SameAt(u, t, p))
    && (forall p :: p in FIXED ==> SameAt(u, t, p) || (p in u && u[p] == NodeOf(release, p)))
    && (forall p :: p in FIXED && p in done ==> p in u && u[p] == NodeOf(release, p))
  }

  class Machine {
    const env: Environment

    /** The services of this host write no run record while an upgrade is under way. */
    const idle: bool

    var tree: Tree
    var runs: Runs
    var backups: map<string, Backup>
    var journal: Option<Journal>

    constructor (env: Environment, idle: bool, disk: Disk)
      ensures this.env == env && this.idle == idle && View() == disk
    {
      this.env, this.idle := env, idle;
      tree, runs, backups, journal := disk.tree, disk.runs, disk.backups, disk.journal;
    }

    ghost function View(): Disk
      reads this
    {
      Disk(tree, runs, backups, journal)
    }

    /** `atomic_bytes`: the replacement may have happened even where it raises. */
    method AtomicBytes(path: Path, content: string, mode: int) returns (o: Outcome)
      modifies this`tree, env
      ensures tree == old(tree) || tree == old(tree)[path := File(content, mode, 0, 0)]
      ensures o == Returned ==> tree == old(tree)[path := File(content, mode, 0, 0)]
      ensures Spent(old(env.script), env.script, 2) && (o == Died ==> env.script == [])
      ensures AllGood(old(env.script)) && (path in old(tree) ==> !old(tree)[path].Other?) ==> o != Raised
    {
      var io := env.Take();
      if io.None? { return Died; }
      if io.value.Bad? || (path in tree && tree[path].Other?) { return Raised; }
      tree := tree[path := File(content, mode, 0, 0)];
      io := env.Take();
      if io.None? { return Died; }
      return if io.value.Bad? then Raised else Returned;
    }

    /** `write_journal`. */
    method WriteJournal(value: Journal) returns (o: Outcome)
      modifies this`journal, env
      ensures journal == old(journal) || journal == Some(value)
      ensures o == Returned ==> journal == Some(value)
      ensures Spent(old(env.script), env.script, 2) && (o == Died ==> env.script == [])
      ensures AllGood(old(env.script)) ==> o != Raised
    {
      var io := env.Take();
      if io.None? { return Died; }
      if io.value.Bad? { return Raised; }
      journal := Some(value);
      io := env.Take();
      if io.None? { return Died; }
      return if io.value.Bad? then Raised else Returned;
    }

    /** `snapshot_files`, over the sorted paths. */
    method SnapshotFiles(paths: seq<Path>, backup: string) returns (o: Outcome, files: seq<Entry>)
      requires backup in backups && backups[backup] == Backup(map[], None)
      requires forall i, j :: 0 <= i < j < |paths| ==> paths[i] != paths[j]
      modifies this`backups, env
      ensures backup in backups
      ensures o == Returned ==>
                && Snapshot(files, backups[backup].files, tree) && |files| == |paths|
                && (forall i :: 0 <= i < |paths| ==> files[i].path == paths[i] && Replaceable(tree, paths[i]))
                && backups[backup].runs == if runs.RunsDir? then Some(runs.records) else None
      ensures Spent(old(env.script), env.script, |paths| + 1) && (o == Died ==> env.script == [])
      ensures AllGood(old(env.script)) && (forall i :: 0 <= i < |paths| && paths[i] in tree ==> tree[paths[i]].File?)
              ==> o != Raised
      ensures forall b :: b != backup ==> (b in backups <==> b in old(backups))
    {
      hide Snapshot, Replaceable;
      files := [];
      SnapshotEmpty(map[], tree);
      for index := 0 to |paths|
        invariant backup in backups && backups[backup].runs == None && |files| == index
        invariant Spent(old(env.script), env.script, index)
        invariant forall b :: b != backup ==> (b in backups <==> b in old(backups))
        invariant Snapshot(files, backups[backup].files, tree)
        invariant forall i :: i in backups[backup].files ==> i < index
        invariant forall i :: 0 <= i < index ==> files[i].path == paths[i] && Replaceable(tree, paths[i])
      {
        var path := paths[index];
        ghost var stored := backups[backup].files;
        if path in tree && tree[path].Link? { return Raised, files; }
        if path !in tree {
          ReplaceableAt(tree, path);
          SnapshotGrows(files, stored, stored, tree, Entry(path, WasAbsent));
          files := files + [Entry(path, WasAbsent)];
        } else {
          if !tree[path].File? { return Raised, files; }
          var io := env.Take();
          if io.None? { return Died, files; }
          if io.value.Bad? { return Raised, files; }
          var node := tree[path];
          var copies := backups[backup].files[index := node.content];
          backups := backups[backup := Backup(copies, None)];
          var entry := Entry(path, Kept(index, node.mode, node.uid, node.gid));
          ReplaceableAt(tree, path);
          SnapshotGrows(files, stored, copies, tree, entry);
          files := files + [entry];
        }
      }
      if runs.RunsDir? {
        var io := env.Take();
        if io.None? { return Died, files; }
        if io.value.Bad? { return Raised, files; }
        backups := backups[backup := backups[backup].(runs := Some(runs.records))];
      }
      return Returned, files;
    }

    /** `shutil.rmtree(RUNS)`, one name at a time. */
    method RemoveRuns() returns (o: Outcome)
      requires runs.RunsDir?
      modifies this`runs, env
      ensures if o == Returned then runs == NoRuns else runs.RunsDir?
      ensures (o == Died ==> env.script == []) && (AllGood(old(env.script)) ==> AllGood(env.script) && o != Raised)
    {
      while runs.records.Keys != {}
        invariant runs.RunsDir? && (AllGood(old(env.script)) ==> AllGood(env.script))
        decreases |runs.records|
      {
        var name :| name in runs.records;
        var io := env.Take();
        if io.None? { return Died; }
        if io.value.Bad? { return Raised; }
        ghost var before := runs.records;
        runs := RunsDir(runs.records - {name});
        assert before.Keys == runs.records.Keys + {name};
      }
      var io := env.Take();
      if io.None? { return Died; }
      if io.value.Bad? { return Raised; }
      runs := NoRuns;
      return Returned;
    }

    /** `shutil.copytree(old_runs, RUNS)`: a file cut short is left unreadable. */
    method CopyRuns(records: map<string, Record>) returns (o: Outcome)
      requires runs.NoRuns?
      modifies this`runs, env
      ensures !runs.Odd?
      ensures o == Returned ==> runs == RunsDir(records)
      ensures (o == Died ==> env.script == []) && (AllGood(old(env.script)) ==> AllGood(env.script) && o != Raised)
    {
      var io := env.Take();
      if io.None? { return Died; }
      if io.value.Bad? { return Raised; }
      runs := RunsDir(map[]);
      var rest := records.Keys;
      while rest != {}
        invariant runs.RunsDir? && rest <= records.Keys && (AllGood(old(env.script)) ==> AllGood(env.script))
        invariant runs.records == map name | name in records && name !in rest :: records[name]
        decreases rest
      {
        var name :| name in rest;
        io := env.Take();
        if io != Some(Good) {
          runs := RunsDir(runs.records[name := Broken]);
          return if io.None? then Died else Raised;
        }
        runs := RunsDir(runs.records[name := records[name]]);
        rest := rest - {name};
      }
      assert runs.records == records;
      return Returned;
    }

    /** `restore_snapshot`. */
    method RestoreSnapshot(b: Backup, files: seq<Entry>) returns (o: Outcome)
      modifies this`tree, this`runs, env
      ensures RestoreEnds(o, old(tree), old(runs), tree, runs, files, b)
      ensures o == Returned ==> Complete(files, b.files)
      ensures (o == Died ==> env.script == []) && (AllGood(old(env.script)) ==> AllGood(env.script))
      ensures AllGood(old(env.script)) && (b.runs.Some? ==> !old(runs).Odd?)
              && (forall i :: 0 <= i < |files| ==>
                    !Refuses(RestoredTo(old(tree), files, b.files, i), files[i], b.files))
              ==> o != Raised
    {
      for i := 0 to |files|
        invariant tree == RestoredTo(old(tree), files, b.files, i) && runs == old(runs)
        invariant forall j :: 0 <= j < i && files[j].meta.Kept? ==> files[j].meta.stored in b.files
        invariant AllGood(old(env.script)) ==> AllGood(env.script)
      {
        var path := files[i].path;
        match files[i].meta {
          case WasAbsent =>
            if path in tree && !tree[path].File? { return Raised; }
            var io := env.Take();
            if io.None? { return Died; }
            if io.value.Bad? { return Raised; }
            tree := tree - {path};
          case Kept(stored, mode, uid, gid) =>
            if stored !in b.files || (path in tree && tree[path].Link?) { return Raised; }
            var io := env.Take();
            if io.None? { return Died; }
            if io.value.Bad? || (path in tree && tree[path].Other?) { return Raised; }
            tree := tree[path := File(b.files[stored], mode, uid, gid)];
        }
      }
      if b.runs.None? { return Returned; }
      if runs.Odd? { return Raised; }
      if runs.RunsDir? {
        o := RemoveRuns();
        if o != Returned { return; }
      }
      o := CopyRuns(b.runs.value);
    }

    /** `migrate_runs`: v3 records become v4 in the order of their names.  It stops at position `n`: after
        the last name, or, when the operating system does not fail, exactly at the first record that is active
        or unreadable, and then exactly the v3 records before it are converted. */
    method MigrateRuns() returns (o: Outcome, migrated: nat, ghost names: seq<string>, ghost n: nat)
      modifies this`runs, env
      ensures !old(runs).RunsDir? ==> o == Returned && runs == old(runs) && migrated == 0
      ensures old(runs).RunsDir? ==>
                && Listing(names, old(runs).records.Keys) && n <= |names|
                && runs == RunsDir(MigratedIn(old(runs).records, Prefix(names, n)))
                && migrated == |LegacyNames(old(runs).records, Prefix(names, n))|
                && (o == Returned ==> n == |names| && StopsAt(old(runs).records, names, n))
                && (o == Raised && AllGood(old(env.script)) ==> n < |names| && StopsAt(old(runs).records, names, n))
      ensures old(runs).RunsDir? ==>
                runs.RunsDir? && Converted(old(runs).records, runs.records, Prefix(names, n))
      ensures Spent(old(env.script), env.script, 2 * RunCount(old(runs))) && (o == Died ==> env.script == [])
      ensures AllGood(old(env.script)) && Migratable(old(runs)) ==> o != Raised
    {
      hide Migrated, LegacyNames, MigratedIn, Stops, AllGood, Legacy, Listing, Prefix, Migratable, Converted;
      o, migrated, names, n := Returned, 0, [], 0;
      if !runs.RunsDir? { return; }
      ghost var before := runs.records;
      MigratedNone(before);
      var listed := Sorted(runs.records.Keys);
      names := listed;
      ListingSize(names, before.Keys);
      if Migratable(runs) { MigratableMeans(runs); }
      PrefixNone(names);
      for index := 0 to |listed|
        invariant o == Returned && n == index
        invariant runs == RunsDir(MigratedIn(before, Prefix(names, index)))
        invariant migrated == |LegacyNames(before, Prefix(names, index))|
        invariant forall i :: 0 <= i < index && names[i] in before ==> !Stops(before[names[i]])
        invariant Spent(old(env.script), env.script, 2 * index)
      {
        ConvertedMeans(before, Prefix(names, index));
        var name := listed[index];
        NextName(names, before.Keys, index);
        MigratedOne(before, Prefix(names, index), name);
        var done, converted;
        o, done, converted := MigrateRecord(name);
        if converted { migrated := migrated + 1; }
        if done { n := index + 1; }
        if o != Returned {
          ConvertedMeans(before, Prefix(names, n));
          return;
        }
      }
      ConvertedMeans(before, Prefix(names, n));
    }

    /** The body of the loop: `done` once the record is as a migration leaves it. */
    method MigrateRecord(name: string) returns (o: Outcome, done: bool, converted: bool)
      requires runs.RunsDir? && name in runs.records
      modifies this`runs, env
      ensures runs == if done then RunsDir(old(runs).records[name := Migrated(old(runs).records[name])]) else old(runs)
      ensures converted == (done && Legacy(old(runs).records[name]))
      ensures Stops(old(runs).records[name]) ==> o == Raised && !done
      ensures o == Returned ==> done
      ensures AllGood(old(env.script)) ==> (o == Raised ==> Stops(old(runs).records[name]))
      ensures Spent(old(env.script), env.script, 2) && (o == Died ==> env.script == [])
    {
      hide AllGood;
      var value := runs.records[name];
      if value.Broken? { return Raised, false, false; }
      if value.schema != LEGACY {
        assert runs.records[name := value] == runs.records;
        return Returned, true, false;
      }
      if value.state in ACTIVE_STATES { return Raised, false, false; }
      o := Call();
      if o != Returned { return o, false, false; }
      runs := RunsDir(runs.records[name := Migrated(value)]);
      o := Call();
      return o, true, true;
    }

    /** One call without effect on the files modelled here. */
    method Call() returns (o: Outcome)
      modifies env
      ensures AllGood(old(env.script)) ==> o != Raised
      ensures Spent(old(env.script), env.script, 1) && (o == Died ==> env.script == [])
    {
      var io := env.Take();
      if io.None? { return Died; }
      return if io.value.Bad? then Raised else Returned;
    }

    /** One `atomic_bytes` of `replace_install`. */
    method ReplaceOne(path: Path, release: Release, ghost start: Tree, ghost done: set<Path>)
      returns (o: Outcome, ghost installed: set<Path>)
      requires path in FIXED && Installing(start, tree, release, done)
      modifies this`tree, env
      ensures Installing(start, tree, release, installed)
      ensures installed == if o == Returned then done + {path} else done
      ensures Spent(old(env.script), env.script, 2) && (o == Died ==> env.script == [])
      ensures AllGood(old(env.script)) && AllReplaceable(start, FIXED) ==> o != Raised
    {
      if AllReplaceable(start, FIXED) { InstallingReplaceable(start, tree, release, done, path); }
      hide FIXED, NodeOf, Installing;
      InstallOne(start, tree, release, done, path);
      InstallLess(start, tree[path := NodeOf(release, path)], release, done + {path}, done);
      NodeIs(release, path);
      o := AtomicBytes(path, release[path].content, release[path].mode);
      installed := if o == Returned then done + {path} else done;
    }

    /** The first four files of `replace_install`. */
    method ReplaceProgram(release: Release) returns (o: Outcome, ghost installed: set<Path>)
      modifies this`tree, env
      ensures Installing(old(tree), tree, release, installed)
      ensures o == Returned ==> installed == {PYZ} + {BIN} + {CATALOGUE} + {POLICY}
      ensures Spent(old(env.script), env.script, 8) && (o == Died ==> env.script == [])
      ensures AllGood(old(env.script)) && AllReplaceable(old(tree), FIXED) ==> o != Raised
    {
      FixedPaths();
      hide FIXED, Installing, AllReplaceable, AllGood;
      InstallStart(tree, release);
      ghost var start := tree;
      o, installed := ReplaceOne(PYZ, release, start, {});
      if o != Returned { return; }
      o, installed := ReplaceOne(BIN, release, start, installed);
      if o != Returned { return; }
      o, installed := ReplaceOne(CATALOGUE, release, start, installed);
      if o != Returned { return; }
      o, installed := ReplaceOne(POLICY, release, start, installed);
    }

    /** `replace_install`: every write is to a path of the snapshot. */
    method ReplaceInstall(release: Release) returns (o: Outcome, ghost installed: set<Path>)
      modifies this`tree, env
      ensures Installing(old(tree), tree, release, installed)
      ensures o == Returned ==> installed == FIXED
      ensures Spent(old(env.script), env.script, 16) && (o == Died ==> env.script == [])
      ensures AllGood(old(env.script)) && AllReplaceable(old(tree), FIXED) ==> o != Raised
    {
      FixedPaths();
      hide FIXED, Installing, AllReplaceable, AllGood;
      ghost var start := tree;
      o, installed := ReplaceProgram(release);
      if o != Returned { return; }
      o, installed := ReplaceOne(TMPFILES, release, start, installed);
      if o != Returned { return; }
      o, installed := ReplaceOne(UNIT, release, start, installed);
      if o != Returned { return; }
      o, installed := ReplaceOne(WATCHDOG_UNIT, release, start, installed);
      if o != Returned { return; }
      o, installed := ReplaceOne(MANIFEST, release, start, installed);
    }

    /** Services at work: draining, starting, waiting.  They may write run records and may fail. */
    method Services() returns (o: Outcome)
      modifies this`runs, env
      ensures runs.Odd? == old(runs).Odd? && (idle ==> runs == old(runs))
      ensures Spent(old(env.script), env.script, 1) && (o == Died ==> env.script == [])
      ensures AllGood(old(env.script)) ==> o != Raised
    {
      var next: Runs := *;
      if !idle && !runs.Odd? && !next.Odd? { runs := next; }
      var io := env.Take();
      if io.None? { return Died; }
      return if io.value.Bad? then Raised else Returned;
    }

    /** `JOURNAL.unlink(missing_ok=True)`. */
    method RemoveJournal() returns (o: Outcome)
      modifies this`journal, env
      ensures journal == if o == Returned then None else old(journal)
      ensures Spent(old(env.script), env.script, 1) && (o == Died ==> env.script == [])
      ensures AllGood(old(env.script)) ==> o != Raised
    {
      var io := env.Take();
      if io.None? { return Died; }
      if io.value.Bad? { return Raised; }
      journal := None;
      return Returned;
    }

    /** `shutil.rmtree(backup)`: part of it may be gone where it raises. */
    method RemoveBackup(backup: string) returns (o: Outcome)
      modifies this`backups, env
      ensures forall b :: b != backup ==> (b in backups <==> b in old(backups))
      ensures backup in backups ==> backup in old(backups) && Within(backups[backup].files, old(backups)[backup].files)
      ensures Spent(old(env.script), env.script, 1) && (o == Died ==> env.script == [])
      ensures AllGood(old(env.script)) && backup in old(backups) ==> o != Raised
      ensures o == Returned ==> backup !in backups
    {
      if backup !in backups { return Raised; }
      var left: set<nat> := *;
      var io := env.Take();
      if io == Some(Good) {
        backups := backups - {backup};
        return Returned;
      }
      var files := backups[backup].files;
      var kept := map i | i in files && i in left :: files[i];
      backups := backups[backup := Backup(kept, None)];
      return if io.None? then Died else Raised;
    }

    /** A complete snapshot covers everything that has changed, whether or not the journal says so. */
    ghost predicate Held(transaction: string, files: seq<Entry>, image: Tree)
      reads this
    {
      && transaction in backups && Snapshot(files, backups[transaction].files, image)
      && FIXED <= Domain(files) && Contained(tree, files, image)
      && (backups[transaction].runs.Some? ==> !runs.Odd?)
    }

    ghost predicate Names(transaction: string, files: seq<Entry>)
      reads this
    {
      journal.Some? ==> journal.value.backup == transaction && journal.value.files == files
    }

    /** Its first phases: the snapshot is journalled, workloads are drained, services stopped. */
    method Quiesce(transaction: string, files: seq<Entry>) returns (o: Outcome)
      requires journal.None?
      modifies this`runs, this`journal, env
      ensures journal.Some? ==> journal.value.backup == transaction && journal.value.files == files
      ensures o == Returned ==> journal.Some?
      ensures runs.Odd? == old(runs).Odd? && (idle ==> runs == old(runs))
      ensures Spent(old(env.script), env.script, 7) && (o == Died ==> env.script == [])
      ensures AllGood(old(env.script)) ==> o != Raised
    {
      hide AllGood;
      o := WriteJournal(Journal(transaction, files, SNAPSHOT));
      if o != Returned { return; }
      o := Services();
      if o != Returned { return; }
      o := WriteJournal(Journal(transaction, files, QUIESCED));
      if o != Returned { return; }
      o := WriteJournal(Journal(transaction, files, STOPPED));
    }

    /** The journalled part of `upgrade`, up to the removal of the journal. */
    method Transact(transaction: string, files: seq<Entry>, release: Release) returns (o: Outcome)
      requires journal.None? && Held(transaction, files, tree)
      modifies this`tree, this`runs, this`journal, env
      ensures Held(transaction, files, old(tree)) && Names(transaction, files)
      ensures journal.None? && o != Returned ==> tree == old(tree)
      ensures o == Returned ==> journal.None? && Installing(old(tree), tree, release, FIXED)
      ensures o == Died ==> env.script == []
      ensures idle ==> if old(runs).RunsDir? then runs.RunsDir? else runs == old(runs)
      ensures idle && o == Returned && old(runs).RunsDir? ==>
                Converted(old(runs).records, runs.records, old(runs).records.Keys)
      ensures idle ==> Spent(old(env.script), env.script, 27 + 2 * RunCount(old(runs)))
      ensures idle && AllGood(old(env.script)) && AllReplaceable(old(tree), FIXED) && Migratable(old(runs)) ==>
                o != Raised
    {
      hide FIXED, Installing, Snapshot, Contained, Domain, Migrated, LegacyNames, MigratedIn, StopsAt, Listing;
      hide AllGood, AllReplaceable, Migratable, RunCount, Converted, Prefix;
      o := Quiesce(transaction, files);
      if o != Returned { return; }
      var migrated;
      ghost var names, visited;
      ghost var before := runs;
      o, migrated, names, visited := MigrateRuns();
      if o != Returned { return; }
      if before.RunsDir? { ListingAll(names, before.records.Keys); }
      ghost var installed;
      ghost var image := tree;
      o, installed := ReplaceInstall(release);
      InstallingContained(image, tree, release, installed, files);
      if o != Returned { return; }
      o := WriteJournal(Journal(transaction, files, ACTIVATED));
      if o != Returned { return; }
      o := Services();
      if o != Returned { return; }
      o := RemoveJournal();
    }

    /** What `upgrade` does after the journal is gone. */
    method Finish(transaction: string) returns (o: Outcome)
      modifies this`runs, this`backups, env
      ensures transaction in backups ==>
                transaction in old(backups) && Within(backups[transaction].files, old(backups)[transaction].files)
      ensures Spent(old(env.script), env.script, 3) && (o == Died ==> env.script == [])
      ensures AllGood(old(env.script)) && transaction in old(backups) ==> o != Raised
      ensures (o == Returned ==> transaction !in backups) && (idle ==> runs == old(runs))
    {
      o := Services();
      if o != Returned { return; }
      var io := env.Take();  // the history record
      if io.None? { return Died; }
      if io.value.Bad? { return Raised; }
      o := RemoveBackup(transaction);
    }

    /** The exception handler of `upgrade`.  With the journal present it can be repeated by `recover`. */
    method Rollback(transaction: string, files: seq<Entry>, ghost stored: map<nat, string>, ghost image: Tree)
      returns (o: Outcome, restored: bool)
      requires Snapshot(files, stored, image) && Contained(tree, files, image) && Names(transaction, files)
      requires transaction in backups ==> Within(backups[transaction].files, stored)
      requires journal.Some? ==> Held(transaction, files, image)
      modifies this, env
      ensures restored ==> tree == image
      ensures idle && restored ==>
                && transaction in old(backups)
                && runs == if old(backups)[transaction].runs.Some?
                           then RunsDir(old(backups)[transaction].runs.value) else old(runs)
      ensures journal.Some? ==> Protected(View(), image)
      ensures old(journal).Some? && journal.None? ==> restored
      ensures old(tree) == image ==> tree == image
      ensures o == Died ==> env.script == []
    {
      hide FIXED, Snapshot, Contained, Domain, Complete, Refuses, AllGood;
      if transaction !in backups { return Raised, false; }
      var b := backups[transaction];
      WithinItself(b.files);
      o := RestoreSnapshot(b, files);
      RestoreKeeps(o, old(tree), old(runs), tree, runs, files, b, if journal.Some? then b.files else stored, image);
      if o != Returned { return o, false; }
      restored := true;
      o := Services();
      if o != Returned { return; }
      o := RemoveJournal();
      if o != Returned { return; }
      o := Services();
      if o != Returned { return; }
      o := RemoveBackup(transaction);
    }

    /** `recover`: once it returns the files are back and the journal is gone; until then it can be repeated. */
    method Recover(ghost image: Tree) returns (o: Outcome)
      modifies this, env
      ensures old(journal).None? ==> o == Raised && View() == old(View())
      ensures old(Protected(View(), image)) ==>
                && (journal.Some? ==> Protected(View(), image))
                && (journal.None? ==> tree == image)
                && (o == Returned ==> journal.None?)
                && (AllGood(old(env.script)) ==> o != Raised)
      ensures idle && o == Returned ==>
                && old(journal).Some? && old(journal).value.backup in backups
                && runs == if backups[old(journal).value.backup].runs.Some?
                           then RunsDir(backups[old(journal).value.backup].runs.value) else old(runs)
    {
      hide FIXED, Snapshot, Contained, Domain, Complete, Refuses, AllGood;
      if journal.None? || journal.value.backup !in backups { return Raised; }
      var b, files := backups[journal.value.backup], journal.value.files;
      if Protected(View(), image) { RestoreAllowed(tree, files, b.files, image); }
      o := RestoreSnapshot(b, files);
      if old(Protected(View(), image)) {
        WithinItself(b.files);
        RestoreKeeps(o, old(tree), old(runs), tree, runs, files, b, b.files, image);
      }
      if o != Returned { return; }
      o := Services();
      if o != Returned { return; }
      o := RemoveJournal();
      if o != Returned { return; }
      o := Services();
    }

    /** Services are up, the backup directory is made, and everything is copied into it. */
    method Prepare(manifestFiles: set<Path>, transaction: string) returns (o: Outcome, files: seq<Entry>)
      modifies this`runs, this`backups, env
      ensures o == Returned ==>
                && Held(transaction, files, tree)
                && backups[transaction].runs == if runs.RunsDir? then Some(runs.records) else None
      ensures idle ==> runs == old(runs)
      ensures Spent(old(env.script), env.script, |manifestFiles + FIXED| + 2) && (o == Died ==> env.script == [])
      ensures AllGood(old(env.script)) && transaction !in old(backups) && AllReplaceable(tree, manifestFiles + FIXED)
              ==> o != Raised
    {
      hide FIXED, Snapshot, Contained, Domain, AllGood, AllReplaceable;
      files := [];
      o := Services();
      if o != Returned { return; }
      if transaction in backups { return Raised, files; }
      backups := backups[transaction := Backup(map[], None)];
      var paths := Sorted(manifestFiles + FIXED);
      ListingSize(paths, manifestFiles + FIXED);
      if AllReplaceable(tree, manifestFiles + FIXED) { ReplaceableParts(tree, paths, manifestFiles); }
      o, files := SnapshotFiles(paths, transaction);
      if o != Returned { return; }
      SnapshotHeld(files, paths, tree, manifestFiles);
    }

    /** Nothing on the host stands in the way of an upgrade. */
    ghost predicate Upgradable(manifestFiles: set<Path>, transaction: string)
      reads this
    {
      journal.None? && transaction !in backups && AllReplaceable(tree, manifestFiles + FIXED) && Migratable(runs)
    }

    /** `upgrade`: while the journal exists everything needed to undo it does too; before it, nothing has
        changed; when it returns, the new release is in place.  `committed` once the journal is removed,
        `restored` once a rollback has put the files back. */
    method Upgrade(manifestFiles: set<Path>, accepted: bool, transaction: string, release: Release)
      returns (o: Outcome, committed: bool, restored: bool)
      modifies this, env
      ensures old(journal).Some? || !accepted ==> o == Raised && View() == old(View()) && !committed && !restored
      ensures o == Died ==> env.script == []
      ensures accepted && idle && old(Upgradable(manifestFiles, transaction)) && AllGood(old(env.script)) ==>
                && o != Raised
                && (|old(env.script)| > 32 + |manifestFiles + FIXED| + 2 * RunCount(old(runs)) ==>
                      o == Returned && committed)
      ensures old(journal).None? ==>
                && (journal.Some? ==> Protected(View(), old(tree)))
                && (journal.None? && !committed ==> tree == old(tree))
                && (restored ==> tree == old(tree))
                && (o == Returned ==>
                      journal.None? && Installing(old(tree), tree, release, FIXED) && transaction !in backups)
      ensures idle && old(journal).None? ==>
                && (restored && !committed ==> runs == old(runs))
                && (o == Returned && old(runs).RunsDir? ==>
                      runs.RunsDir? && Converted(old(runs).records, runs.records, old(runs).records.Keys))
    {
      hide Converted;
      hide FIXED, Snapshot, Contained, Domain, Installing, AllGood, AllReplaceable, Migratable, RunCount;
      committed, restored := false, false;
      if journal.Some? || !accepted { return Raised, false, false; }
      if AllReplaceable(tree, manifestFiles + FIXED) { ReplaceableFixed(tree, manifestFiles); }
      var files;
      o, files := Prepare(manifestFiles, transaction);
      if o != Returned { return; }
      ghost var stored := backups[transaction].files;
      WithinItself(stored);
      o := Transact(transaction, files, release);
      if o == Returned {
        committed := true;
        InstallingHeld(old(tree), tree, release, files);
        o := Finish(transaction);
      }
      if o == Raised {
        if committed { InstallingHeld(old(tree), tree, release, files); }
        var rolled;
        rolled, restored := Rollback(transaction, files, stored, old(tree));
        o := if rolled == Died then Died else Raised;
      }
    }
  }

  /** While the journal exists, every restore, whole or cut short, is an event of the transaction, so
      RollbackRestores speaks about it. */
  lemma RestoreIsEvent(o: Outcome, d: Disk, next: Disk)
    requires d.journal.Some? && d.journal.value.backup in d.backups
    requires next == d.(tree := next.tree, runs := next.runs)
    requires var b := d.backups[d.journal.value.backup];
             RestoreEnds(o, d.tree, d.runs, next.tree, next.runs, d.journal.value.files, b)
    ensures exists e :: Happens(d, e, next) && (o == Returned ==> e.RestoreDone?)
  {
    hide RestoredTo, FIXED;
    var files, b := d.journal.value.files, d.backups[d.journal.value.backup];
    if o == Returned {
      assert Happens(d, RestoreDone, next);
    } else if b.runs.Some? && next.tree == RestoredTo(d.tree, files, b.files, |files|) && !next.runs.Odd? {
      assert Happens(d, RunsCut(if next.runs.RunsDir? then Some(next.runs.records) else None), next);
    } else {
      var n :| 0 <= n <= |files| && next.tree == RestoredTo(d.tree, files, b.files, n) && next.runs == d.runs;
      assert Happens(d, RestoreCut(n), next);
    }
  }

  lemma InstallingHeld(t: Tree, u: Tree, release: Release, files: seq<Entry>)
    requires Installing(t, u, release, FIXED) && Contained(t, files, t) && FIXED <= Domain(files)
    ensures Contained(u, files, t)
  {
    hide FIXED, Installing;
    InstallingContained(t, u, release, FIXED, files);
  }

  /** A finished snapshot covers the fixed paths and describes the tree as it stands. */
  lemma SnapshotHeld(files: seq<Entry>, paths: seq<Path>, tree: Tree, manifestFiles: set<Path>)
    requires |files| == |paths| && Listing(paths, manifestFiles + FIXED)
    requires forall i :: 0 <= i < |paths| ==> files[i].path == paths[i] && Replaceable(tree, paths[i])
    ensures FIXED <= Domain(files) && Contained(tree, files, tree)
  {
    hide FIXED;
    forall p | p in FIXED ensures p in Domain(files) {
      assert p in Prefix(paths, |paths|);
      var i :| 0 <= i < |paths| && paths[i] == p;
      assert files[i].path == p;
    }
  }

  lemma ReplaceableFixed(t: Tree, manifestFiles: set<Path>)
    requires AllReplaceable(t, manifestFiles + FIXED)
    ensures AllReplaceable(t, FIXED)
  {
    hide FIXED;
  }

  lemma ReplaceableParts(t: Tree, paths: seq<Path>, manifestFiles: set<Path>)
    requires AllReplaceable(t, manifestFiles + FIXED) && Listing(paths, manifestFiles + FIXED)
    ensures forall i :: 0 <= i < |paths| && paths[i] in t ==> t[paths[i]].File?
  {
    hide FIXED;
    forall i | 0 <= i < |paths| ensures paths[i] in manifestFiles + FIXED { assert paths[i] in Prefix(paths, |paths|); }
  }

  lemma InstallingReplaceable(t: Tree, u: Tree, release: Release, done: set<Path>, p: Path)
    requires Installing(t, u, release, done) && AllReplaceable(t, FIXED) && p in FIXED
    ensures p in u ==> u[p].File?
  {
    hide FIXED;
    assert SameAt(u, t, p) || (p in u && u[p] == NodeOf(release, p));
  }

  lemma MigratableMeans(r: Runs)
    requires Migratable(r)
    ensures r.RunsDir? ==> forall name :: name in r.records ==> !Stops(r.records[name])
  {
  }

  lemma ListingAll(names: seq<string>, all: set<string>)
    requires Listing(names, all)
    ensures Prefix(names, |names|) == all
  {
  }

  lemma ListingSize(names: seq<string>, all: set<string>)
    requires Listing(names, all)
    ensures |names| == |all|
  {
    PrefixSize(names, |names|);
  }

  lemma {:induction false} PrefixSize(names: seq<string>, n: nat)
    requires n <= |names| && forall i, j :: 0 <= i < j < |names| ==> names[i] != names[j]
    ensures |Prefix(names, n)| == n
  {
    if n == 0 {
      assert Prefix(names, 0) == {};
    } else {
      PrefixSize(names, n - 1);
      assert Prefix(names, n) == Prefix(names, n - 1) + {names[n - 1]};
      assert names[n - 1] !in Prefix(names, n - 1);
    }
  }

  lemma WithinItself(stored: map<nat, string>)
    ensures Within(stored, stored)
  {
  }

  lemma SnapshotPart(files: seq<Entry>, part: map<nat, string>, stored: map<nat, string>, image: Tree)
    requires Snapshot(files, stored, image) && Within(part, stored) && Complete(files, part)
    ensures Snapshot(files, part, image)
  {
    forall i | 0 <= i < |files| ensures Describes(files[i], part, image) {
      assert Describes(files[i], stored, image);
    }
  }

  /** Restoring what is already there changes nothing. */
  lemma {:induction false} RestoredSame(files: seq<Entry>, part: map<nat, string>, stored: map<nat, string>,
                                        image: Tree, n: nat)
    requires Snapshot(files, stored, image) && Within(part, stored) && n <= |files|
    ensures RestoredTo(image, files, part, n) == image
  {
    if n > 0 {
      RestoredSame(files, part, stored, image, n - 1);
      assert Describes(files[n - 1], stored, image);
    }
  }

  /** No entry of the snapshot is refused, however far the restore has come. */
  lemma RestoreAllowed(t: Tree, files: seq<Entry>, stored: map<nat, string>, image: Tree)
    requires Snapshot(files, stored, image) && Contained(t, files, image)
    ensures forall i :: 0 <= i < |files| ==> !Refuses(RestoredTo(t, files, stored, i), files[i], stored)
  {
    hide Snapshot, Contained, Refuses;
    forall i | 0 <= i < |files| ensures !Refuses(RestoredTo(t, files, stored, i), files[i], stored) {
      PrefixRestored(t, files, stored, image, i);
    }
  }

  /** A whole restore brings the image back; one cut short stays inside the snapshot. */
  lemma RestoreKeeps(o: Outcome, t: Tree, r: Runs, u: Tree, s: Runs, files: seq<Entry>, b: Backup,
                     stored: map<nat, string>, image: Tree)
    requires RestoreEnds(o, t, r, u, s, files, b) && Within(b.files, stored)
    requires Snapshot(files, stored, image) && Contained(t, files, image)
    requires o == Returned ==> Complete(files, b.files)
    ensures o == Returned ==> u == image
    ensures b.files == stored ==> Contained(u, files, image)
    ensures t == image ==> u == image
    ensures b.runs.Some? && !r.Odd? ==> !s.Odd?
  {
    hide Snapshot, Contained, Complete, Within;
    if o == Returned {
      SnapshotPart(files, b.files, stored, image);
      AllRestored(t, files, b.files, image);
    }
    forall n | 0 <= n <= |files| && b.files == stored
      ensures Contained(RestoredTo(t, files, b.files, n), files, image)
    {
      PrefixRestored(t, files, stored, image, n);
    }
    forall n | 0 <= n <= |files| && t == image ensures RestoredTo(t, files, b.files, n) == image {
      RestoredSame(files, b.files, stored, image, n);
    }
  }

  predicate Within(part: map<nat, string>, whole: map<nat, string>) {
    forall i :: i in part ==> i in whole && part[i] == whole[i]
  }

  lemma InstallingContained(t: Tree, u: Tree, release: Release, done: set<Path>, files: seq<Entry>)
    requires Installing(t, u, release, done) && Contained(t, files, t) && FIXED <= Domain(files)
    ensures Contained(u, files, t)
  {
    hide FIXED;
    forall p | p !in Domain(files) ensures SameAt(u, t, p) {}
    forall p | p in Domain(files) ensures Replaceable(u, p) {
      assert Replaceable(t, p);
      if p in FIXED {
        assert SameAt(u, t, p) || (p in u && u[p] == NodeOf(release, p));
      } else {
        assert SameAt(u, t, p);
      }
    }
  }

  lemma FixedPaths()
    ensures FIXED == {PYZ} + {BIN} + {CATALOGUE} + {POLICY} + {TMPFILES} + {UNIT} + {WATCHDOG_UNIT} + {MANIFEST}
    ensures PYZ in FIXED && BIN in FIXED && CATALOGUE in FIXED && POLICY in FIXED
    ensures TMPFILES in FIXED && UNIT in FIXED && WATCHDOG_UNIT in FIXED && MANIFEST in FIXED
  {
  }

  lemma NodeIs(release: Release, p: Path)
    requires p in FIXED
    ensures p in release && NodeOf(release, p) == File(release[p].content, release[p].mode, 0, 0)
  {
  }

  lemma InstallStart(t: Tree, release: Release)
    ensures Installing(t, t, release, {})
  {
    hide FIXED;
  }

  lemma InstallLess(t: Tree, u: Tree, release: Release, done: set<Path>, fewer: set<Path>)
    requires Installing(t, u, release, done) && fewer <= done
    ensures Installing(t, u, release, fewer)
  {
    hide FIXED, NodeOf;
  }

  lemma InstallOne(t: Tree, u: Tree, release: Release, done: set<Path>, p: Path)
    requires Installing(t, u, release, done) && p in FIXED
    ensures Installing(t, u[p := NodeOf(release, p)], release, done + {p})
  {
    hide FIXED, NodeOf;
    var v := u[p := NodeOf(release, p)];
    forall q | q !in FIXED ensures SameAt(v, t, q) { assert SameAt(u, t, q); }
    forall q | q in FIXED ensures SameAt(v, t, q) || (q in v && v[q] == NodeOf(release, q)) {
      assert SameAt(u, t, q) || (q in u && u[q] == NodeOf(release, q));
    }
  }

  lemma NextName(names: seq<string>, all: set<string>, n: nat)
    requires Listing(names, all) && n < |names|
    ensures names[n] in all && names[n] !in Prefix(names, n)
    ensures Prefix(names, n + 1) == Prefix(names, n) + {names[n]}
  {
    assert names[n] in Prefix(names, |names|);
    assert names[n] in Prefix(names, n + 1);
  }

  lemma SnapshotEmpty(stored: map<nat, string>, image: Tree)
    ensures Snapshot([], stored, image)
  {
  }

  lemma ReplaceableAt(t: Tree, p: Path)
    requires p in t ==> t[p].File?
    ensures Replaceable(t, p)
  {
  }

  lemma SnapshotGrows(files: seq<Entry>, stored: map<nat, string>, copies: map<nat, string>, image: Tree, e: Entry)
    requires Snapshot(files, stored, image) && Describes(e, copies, image)
    requires forall i :: i in stored ==> i in copies && copies[i] == stored[i]
    requires forall i :: 0 <= i < |files| ==> files[i].path != e.path
    ensures Snapshot(files + [e], copies, image)
  {
    forall i | 0 <= i < |files| ensures Describes(files[i], copies, image) {
      assert Describes(files[i], stored, image);
    }
  }
}
