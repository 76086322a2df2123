/** The upgrade transaction (scripts/upgrade.py): installed files, run records, backup and journal, on
    values.  A crash may fall between any two writes, of the upgrade or of a recovery. */
module Upgrade {
  import opened Json

  type Path = string

  /** What stands at a path: a regular file with its metadata, a symbolic link, or anything else. */
  datatype Node = File(content: string, mode: int, uid: int, gid: int) | Link | Other

  type Tree = map<Path, Node>

  /** A run record, with the members a migration sets; Broken where it cannot be read as a JSON object. */
  datatype Record =
    | Record(schema: string, state: string, boundary: Option<string>, networkMode: string, rest: string)
    | Broken

  /** The RUNS directory; Odd is a symbolic link or not a directory. */
  datatype Runs = NoRuns | RunsDir(records: map<string, Record>) | Odd

  datatype Meta = WasAbsent | Kept(stored: nat, mode: int, uid: int, gid: int)

  datatype Entry = Entry(path: Path, meta: Meta)

  /** A backup directory: the stored copies, and the copy of RUNS if one was taken. */
  datatype Backup = Backup(files: map<nat, string>, runs: Option<map<string, Record>>)

  datatype Phase = SNAPSHOT | QUIESCED | STOPPED | ACTIVATED

  datatype Journal = Journal(backup: string, files: seq<Entry>, phase: Phase)

  datatype Disk = Disk(tree: Tree, runs: Runs, backups: map<string, Backup>, journal: Option<Journal>)

  const BIN := "/usr/local/bin/eggcracker"
  const PYZ := "/usr/local/lib/lumi-eggcracker/lumi-eggcracker.pyz"
  const CATALOGUE := "/etc/lumi-eggcracker/detector_catalogue.json"
  const POLICY := "/etc/lumi-eggcracker/policy.json"
  const TMPFILES := "/etc/tmpfiles.d/lumi-eggcracker.conf"
  const UNIT := "/etc/systemd/system/lumi-eggcracker.service"
  const WATCHDOG_UNIT := "/etc/systemd/system/lumi-eggcracker-watchdog.service"
  const MANIFEST := "/var/lib/lumi-eggcracker/install-manifest.json"

  /** The paths `snapshot_files` always adds. */
  const FIXED: set<Path> := {BIN, PYZ, CATALOGUE, POLICY, TMPFILES, UNIT, WATCHDOG_UNIT, MANIFEST}

  // ---------- snapshots ----------

  ghost function Domain(files: seq<Entry>): set<Path> {
    set i | 0 <= i < |files| :: files[i].path
  }

  ghost predicate DistinctPaths(files: seq<Entry>) {
    forall i, j :: 0 <= i < j < |files| ==> files[i].path != files[j].path
  }

  /** The entry and the stored copy say exactly what `image` holds at the path. */
  ghost predicate Describes(e: Entry, stored: map<nat, string>, image: Tree) {
    match e.meta
    case WasAbsent => e.path !in image
    case Kept(i, mode, uid, gid) => i in stored && e.path in image && image[e.path] == File(stored[i], mode, uid, gid)
  }

  ghost predicate Snapshot(files: seq<Entry>, stored: map<nat, string>, image: Tree) {
    DistinctPaths(files) && forall i :: 0 <= i < |files| ==> Describes(files[i], stored, image)
  }

  ghost predicate SameAt(t: Tree, image: Tree, p: Path) {
    (p in t <==> p in image) && (p in t ==> t[p] == image[p])
  }

  ghost predicate Replaceable(t: Tree, p: Path) { p in t ==> t[p].File? }

  /** Nothing outside the snapshot has changed, and nothing inside it has stopped being a file. */
  ghost predicate Contained(t: Tree, files: seq<Entry>, image: Tree) {
    && (forall p :: p !in Domain(files) ==> SameAt(t, image, p))
    && (forall p :: p in Domain(files) ==> Replaceable(t, p))
  }

  /** The journal names a complete snapshot of `image` that covers everything an upgrade writes. */
  ghost predicate Protected(d: Disk, image: Tree) {
    && d.journal.Some? && d.journal.value.backup in d.backups
    && Snapshot(d.journal.value.files, d.backups[d.journal.value.backup].files, image)
    && FIXED <= Domain(d.journal.value.files)
    && Contained(d.tree, d.journal.value.files, image)
    && (d.backups[d.journal.value.backup].runs.Some? ==> !d.runs.Odd?)
  }

  // ---------- restoring ----------

  /** Where `restore_snapshot` raises on one entry. */
  predicate Refuses(t: Tree, e: Entry, stored: map<nat, string>) {
    match e.meta
    case WasAbsent => e.path in t && !t[e.path].File?
    case Kept(i, _, _, _) => i !in stored || (e.path in t && !t[e.path].File?)
  }

  function Restored(t: Tree, e: Entry, stored: map<nat, string>): Tree {
    match e.meta
    case WasAbsent => t - {e.path}
    case Kept(i, mode, uid, gid) => if i in stored then t[e.path := File(stored[i], mode, uid, gid)] else t
  }

  /** The tree after the first `n` entries. */
  function RestoredTo(t: Tree, files: seq<Entry>, stored: map<nat, string>, n: nat): Tree
    requires n <= |files|
  {
    if n == 0 then t else Restored(RestoredTo(t, files, stored, n - 1), files[n - 1], stored)
  }

  lemma RestoredFits(t: Tree, files: seq<Entry>, stored: map<nat, string>, image: Tree, i: nat)
    requires Snapshot(files, stored, image) && Contained(t, files, image) && i < |files|
    ensures !Refuses(t, files[i], stored)
    ensures var u := Restored(t, files[i], stored);
            && Contained(u, files, image) && SameAt(u, image, files[i].path)
            && forall p :: p != files[i].path ==> SameAt(u, t, p)
  {
    assert Describes(files[i], stored, image);
    assert files[i].path in Domain(files);
    assert Replaceable(t, files[i].path);
  }

  /** Restoring a prefix stays inside the snapshot and settles the entries it has passed. */
  lemma {:induction false} PrefixRestored(t: Tree, files: seq<Entry>, stored: map<nat, string>, image: Tree, n: nat)
    requires Snapshot(files, stored, image) && Contained(t, files, image) && n <= |files|
    ensures Contained(RestoredTo(t, files, stored, n), files, image)
    ensures forall i :: 0 <= i < n ==> SameAt(RestoredTo(t, files, stored, n), image, files[i].path)
    ensures n < |files| ==> !Refuses(RestoredTo(t, files, stored, n), files[n], stored)
  {
    hide Snapshot, Contained, Restored, Refuses;
    if n > 0 {
      PrefixRestored(t, files, stored, image, n - 1);
      var before := RestoredTo(t, files, stored, n - 1);
      RestoredFits(before, files, stored, image, n - 1);
      SnapshotDistinct(files, stored, image);
      forall i | 0 <= i < n ensures SameAt(RestoredTo(t, files, stored, n), image, files[i].path) {
        if i < n - 1 { assert SameAt(RestoredTo(t, files, stored, n), before, files[i].path); }
      }
    }
    if n < |files| { RestoredFits(RestoredTo(t, files, stored, n), files, stored, image, n); }
  }

  lemma SnapshotDistinct(files: seq<Entry>, stored: map<nat, string>, image: Tree)
    requires Snapshot(files, stored, image)
    ensures DistinctPaths(files)
  {
  }

  /** A completed restore brings back every path. */
  lemma AllRestored(t: Tree, files: seq<Entry>, stored: map<nat, string>, image: Tree)
    requires Snapshot(files, stored, image) && Contained(t, files, image)
    ensures RestoredTo(t, files, stored, |files|) == image
  {
    hide Snapshot;
    PrefixRestored(t, files, stored, image, |files|);
    var u := RestoredTo(t, files, stored, |files|);
    forall p ensures SameAt(u, image, p) {
      if p in Domain(files) { var i :| 0 <= i < |files| && files[i].path == p; }
    }
    assert u.Keys == image.Keys by { forall p ensures p in u <==> p in image { assert SameAt(u, image, p); } }
    forall p | p in u ensures u[p] == image[p] { assert SameAt(u, image, p); }
  }

  // ---------- everything that can happen while the journal exists ----------

  datatype Event =
    | Write(path: Path, content: string, mode: int)  // one atomic replacement by the upgrade
    | RunsWritten(records: map<string, Record>)      // migrated records, or the supervisor at work
    | PhaseWritten(phase: Phase)
    | RestoreCut(n: nat)                             // a recovery that got through n entries and died
    | RunsCut(left: Option<map<string, Record>>)     // a recovery that died inside RUNS
    | RestoreDone

  /** The writes of `replace_install` and `migrate_runs`, and recoveries whole or cut short. */
  ghost predicate Happens(d: Disk, e: Event, next: Disk)
    requires d.journal.Some? && d.journal.value.backup in d.backups
  {
    var j, b := d.journal.value, d.backups[d.journal.value.backup];
    match e
    case Write(p, content, mode) => p in FIXED && next == d.(tree := d.tree[p := File(content, mode, 0, 0)])
    case RunsWritten(records) => !d.runs.Odd? && next == d.(runs := RunsDir(records))
    case PhaseWritten(phase) => next == d.(journal := Some(j.(phase := phase)))
    case RestoreCut(n) => n <= |j.files| && next == d.(tree := RestoredTo(d.tree, j.files, b.files, n))
    case RunsCut(left) =>
      && b.runs.Some?
      && next == d.(tree := RestoredTo(d.tree, j.files, b.files, |j.files|),
                    runs := if left.Some? then RunsDir(left.value) else NoRuns)
    case RestoreDone =>
      next == d.(tree := RestoredTo(d.tree, j.files, b.files, |j.files|),
                 runs := if b.runs.Some? then RunsDir(b.runs.value) else d.runs)
  }

  /** The parts of a transaction that no event changes. */
  ghost predicate SameTransaction(d: Disk, next: Disk)
    requires d.journal.Some?
  {
    && next.journal.Some? && next.backups == d.backups
    && next.journal.value.backup == d.journal.value.backup && next.journal.value.files == d.journal.value.files
  }

  lemma WriteContained(t: Tree, files: seq<Entry>, image: Tree, p: Path, content: string, mode: int)
    requires Contained(t, files, image) && p in FIXED && FIXED <= Domain(files)
    ensures Contained(t[p := File(content, mode, 0, 0)], files, image)
  {
    hide FIXED;
    var u := t[p := File(content, mode, 0, 0)];
    forall q | q !in Domain(files) ensures SameAt(u, image, q) { assert SameAt(t, image, q); }
    forall q | q in Domain(files) ensures Replaceable(u, q) { assert Replaceable(t, q); }
  }

  /** Every event keeps the protection, and a completed restore undoes the transaction. */
  lemma EventProtected(d: Disk, e: Event, next: Disk, image: Tree)
    requires Protected(d, image) && Happens(d, e, next)
    ensures Protected(next, image) && SameTransaction(d, next)
    ensures e.RestoreDone? ==> next.tree == image
    ensures e.RestoreDone? && d.backups[d.journal.value.backup].runs.Some? ==>
              next.runs == RunsDir(d.backups[d.journal.value.backup].runs.value)
  {
    hide FIXED, Snapshot, Contained, RestoredTo, Domain;
    var j, b := d.journal.value, d.backups[d.journal.value.backup];
    match e
    case Write(p, content, mode) => WriteContained(d.tree, j.files, image, p, content, mode);
    case RunsWritten(_) =>
    case PhaseWritten(_) =>
    case RestoreCut(n) => PrefixRestored(d.tree, j.files, b.files, image, n);
    case RunsCut(_) => PrefixRestored(d.tree, j.files, b.files, image, |j.files|);
    case RestoreDone =>
      PrefixRestored(d.tree, j.files, b.files, image, |j.files|);
      AllRestored(d.tree, j.files, b.files, image);
  }

  ghost predicate StepAt(ds: seq<Disk>, es: seq<Event>, i: nat)
    requires |ds| == |es| + 1 && i < |es|
  {
    ds[i].journal.Some? && ds[i].journal.value.backup in ds[i].backups && Happens(ds[i], es[i], ds[i + 1])
  }

  /** Disks in the order the events leave them. */
  ghost predicate History(ds: seq<Disk>, es: seq<Event>) {
    |ds| == |es| + 1 && forall i :: 0 <= i < |es| ==> StepAt(ds, es, i)
  }

  lemma {:induction false} HistoryProtected(ds: seq<Disk>, es: seq<Event>, image: Tree, i: nat)
    requires History(ds, es) && Protected(ds[0], image) && i < |ds|
    ensures Protected(ds[i], image) && SameTransaction(ds[0], ds[i])
  {
    hide Snapshot, Contained, FIXED, Happens;
    if i > 0 {
      HistoryProtected(ds, es, image, i - 1);
      assert StepAt(ds, es, i - 1);
      EventProtected(ds[i - 1], es[i - 1], ds[i], image);
    }
  }

  /** Rollback: whatever the upgrade wrote and however often a recovery was cut short, wherever each of them
      was cut, one completed restore gives every path its content, mode and owner from before the upgrade,
      or its absence, and RUNS its backup if one was taken. */
  lemma RollbackRestores(ds: seq<Disk>, es: seq<Event>, image: Tree)
    requires History(ds, es) && Protected(ds[0], image)
    requires es != [] && es[|es| - 1].RestoreDone?
    ensures ds[|es|].tree == image
    ensures var runs := ds[0].backups[ds[0].journal.value.backup].runs;
            runs.Some? ==> ds[|es|].runs == RunsDir(runs.value)
  {
    hide Protected, Happens;
    var n := |es| - 1;
    HistoryProtected(ds, es, image, n);
    assert StepAt(ds, es, n);
    EventProtected(ds[n], es[n], ds[n + 1], image);
  }

  /** And it is never refused: the restore raises only where the operating system does. */
  lemma NeverRefused(ds: seq<Disk>, es: seq<Event>, image: Tree, n: nat)
    requires History(ds, es) && Protected(ds[0], image)
    ensures Protected(ds[|es|], image)
    ensures var d := ds[|es|];
            var j, b := d.journal.value, d.backups[d.journal.value.backup];
            && (b.runs.Some? ==> !d.runs.Odd?)
            && (n < |j.files| ==> !Refuses(RestoredTo(d.tree, j.files, b.files, n), j.files[n], b.files))
  {
    hide Snapshot, Contained, Happens, Refuses;
    HistoryProtected(ds, es, image, |es|);
    var d := ds[|es|];
    var j, b := d.journal.value, d.backups[d.journal.value.backup];
    if n < |j.files| { PrefixRestored(d.tree, j.files, b.files, image, n); }
  }
}
