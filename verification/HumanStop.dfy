/** The human-stop state machine on values: one step function per method of `World` and
    `Controller` (experiments/human_override/model.py, lines 90-331).  The objects in
    StopObjects.dfy are proved against these functions. */
module HumanStop {
  import opened Json
  import opened Arithmetic
  import opened StopStorage

  const OBSERVATION_TTL := 5
  const EFFECT_KINDS := {"read", "export", "child", "restart", "lateral", "tamper"}

  datatype Effect = Effect(kind: string, tick: int)

  /** What one `Execution` object holds. */
  datatype Exec = Exec(
    generation: int, running: bool, connected: bool, remoteRunning: bool,
    launches: int, revision: int, effects: seq<Effect>)

  function FreshExec(generation: int): Exec {
    Exec(generation, false, false, false, 0, 0, [])
  }

  type Execs = m: map<Key, Exec> | forall k: Key :: k in m witness FreshExecs()

  function FreshExecs(): (m: map<Key, Exec>)
    ensures forall k: Key :: k in m && m[k] == FreshExec(1)
  {
    EveryKey();
    map k | k in KEYS :: FreshExec(1)
  }

  function Put(records: Records, k: Key, row: Allocation): Records { records[k := row] }

  function PutExec(execs: Execs, k: Key, exec: Exec): Execs { execs[k := exec] }

  datatype WorldState = WorldState(execs: Execs, tick: int)

  datatype Observed = UNKNOWN | RUNNING | VERIFIED_STOPPED

  datatype Observation = Observation(generation: int, epoch: int, tick: int, revision: int, state: Observed)

  /** The memory of one live controller. */
  datatype Mem = Mem(allocations: Records, observations: map<Key, Observation>, storageOk: bool)

  /** The state file and whether a `.pending` file is present (its content is never read). */
  datatype DiskState = DiskState(state: Option<Json>, pending: bool)

  datatype Live = Live(disk: DiskState, world: WorldState, mem: Mem)

  // ---------- persistence ----------

  /** What happens to one `_persist`: an I/O error at one of its calls, or the process dying. */
  datatype Fault =
    | Healthy | OpenFails | WriteFails | ReplaceFails
    | DiesBeforeOpen | DiesWithPending | DiesAfterReplace

  datatype Stored = Kept | Failed | Died

  function Persist(d: DiskState, records: Records, fault: Fault): (DiskState, Stored) {
    var j := Encode(records);
    if fault.DiesBeforeOpen? then (d, Died)
    else if !Bounded(Length(j), j) || d.pending || fault.OpenFails? then (d, Failed)
    else if fault.WriteFails? || fault.ReplaceFails? then (d.(pending := true), Failed)
    else if fault.DiesWithPending? then (d.(pending := true), Died)
    else if fault.DiesAfterReplace? then (DiskState(Some(j), false), Died)
    else (DiskState(Some(j), false), Kept)
  }

  function Commit(l: Live, records: Records, fault: Fault): (Live, Stored) {
    var (disk, stored) := Persist(l.disk, records, fault);
    match stored
    case Kept => (l.(disk := disk, mem := l.mem.(allocations := records)), stored)
    case Failed => (l.(disk := disk, mem := l.mem.(storageOk := false, observations := map[])), stored)
    case Died => (l.(disk := disk), stored)
  }

  /** `Controller(path, world)` on an existing state file. */
  function Reopen(d: DiskState): Mem {
    if d.pending || d.state.None? || Load(d.state.value).None? then
      Mem(FreshRecords(), map[], false)
    else
      Mem(Load(d.state.value).value, map[], true)
  }

  // ---------- commands ----------

  /** An untyped command field: text, a plain integer, or anything else. */
  datatype Value = Text(s: string) | Number(n: int) | Other

  datatype Payload = Dict(fields: map<string, Value>) | NotDict

  datatype Cmd = Cmd(principal: Principal, op: Op, key: Key, generation: int, sequence: int, epoch: int)

  function PrincipalNamed(v: Value): Option<Principal> {
    if v == Text("human") then Some(Human)
    else if v == Text("scheduler") then Some(Scheduler)
    else if v == Text("guest") then Some(Guest)
    else None
  }

  function OpNamed(v: Value): Option<Op> {
    if v == Text("approve") then Some(Approve)
    else if v == Text("start") then Some(Start)
    else if v == Text("stop") then Some(Stop)
    else if v == Text("reset") then Some(Reset)
    else None
  }

  function KeyNamed(v: Value): Option<Key> {
    if v == Text("A") then Some(A) else if v == Text("B") then Some(B) else None
  }

  predicate IsBoundedInteger(v: Value) { v.Number? && 0 <= v.n <= MAX_INTEGER }

  /** The checks that answer "INVALID"; Some(command) when they all pass. */
  function Decode(principal: Value, event: Payload): (c: Option<Cmd>)
    ensures c.Some? ==> 0 <= c.value.sequence <= MAX_INTEGER
                        && 0 <= c.value.generation <= MAX_INTEGER && 0 <= c.value.epoch <= MAX_INTEGER
  {
    if PrincipalNamed(principal).None? || event.NotDict?
       || event.fields.Keys != {"op", "allocation", "generation", "sequence", "epoch"}
    then None
    else
      var f := event.fields;
      if OpNamed(f["op"]).None? || KeyNamed(f["allocation"]).None?
         || !IsBoundedInteger(f["generation"]) || !IsBoundedInteger(f["sequence"]) || !IsBoundedInteger(f["epoch"])
      then None
      else Some(Cmd(PrincipalNamed(principal).value, OpNamed(f["op"]).value, KeyNamed(f["allocation"]).value,
                    f["generation"].n, f["sequence"].n, f["epoch"].n))
  }

  datatype Reply = Invalid | StorageUnknown | StaleScope | Replay | Denied | Exhausted | Done | Crashed

  datatype Verdict = Exhaust | Decided(row: Allocation, result: Result)

  function Pushed(audit: seq<string>, entry: string): seq<string> {
    var all := audit + [entry];
    if |all| > AUDIT_LIMIT then all[1..] else all
  }

  function Drops(audit: seq<string>, dropped: int): int {
    if |audit| + 1 > AUDIT_LIMIT then Min(MAX_INTEGER, dropped + 1) else dropped
  }

  function Audited(row: Allocation, op: Op, result: Result): Allocation {
    row.(audit := Pushed(row.audit, AuditText(op, result)), dropped := Drops(row.audit, row.dropped))
  }

  predicate StartRefused(row: Allocation, exec: Exec) {
    row.latched || !row.control || !row.approved
    || exec.generation != row.generation || exec.running || exec.remoteRunning
  }

  /** The row an admitted command would commit, or exhaustion of the epoch counter. */
  function Judge(current: Allocation, c: Cmd, exec: Exec, observed: Observed): Verdict {
    var row := current.(sequence := current.sequence[c.principal := c.sequence]);
    match c.op
    case Stop =>
      if !row.latched && row.epoch == MAX_INTEGER then Exhaust
      else
        var epoch := if row.latched then row.epoch else row.epoch + 1;
        Decided(Audited(row.(epoch := epoch, latched := true, approved := false), c.op, OK), OK)
    case Reset =>
      if !row.latched || observed != VERIFIED_STOPPED then Decided(Audited(row, c.op, DENIED), DENIED)
      else if row.epoch == MAX_INTEGER then Exhaust
      else Decided(Audited(row.(epoch := row.epoch + 1, latched := false, approved := false), c.op, OK), OK)
    case Approve =>
      if row.latched || !row.control then Decided(Audited(row, c.op, DENIED), DENIED)
      else Decided(Audited(row.(approved := true), c.op, OK), OK)
    case Start =>
      if StartRefused(row, exec) then Decided(Audited(row, c.op, DENIED), DENIED)
      else Decided(Audited(row, c.op, OK), OK)
  }

  function Launched(exec: Exec): Exec {
    exec.(running := true, connected := true, remoteRunning := true,
          launches := exec.launches + 1, revision := exec.revision + 1)
  }

  predicate Authorised(c: Cmd) {
    c.principal == Human || (c.principal == Scheduler && c.op == Start)
  }

  /** The reply that refuses a decoded command before anything is copied, if any. */
  function Refusal(mem: Mem, c: Cmd): Option<Reply> {
    var current := mem.allocations[c.key];
    if !mem.storageOk then Some(StorageUnknown)
    else if (c.generation, c.epoch) != (current.generation, current.epoch) then Some(StaleScope)
    else if c.sequence <= current.sequence[c.principal] then Some(Replay)
    else if !Authorised(c) then Some(Denied)
    else None
  }

  /** After the commit: drop a superseded observation and, for a start, let the World run. */
  function Enact(l: Live, c: Cmd, result: Result): Live {
    var observations := if c.op == Approve then l.mem.observations else l.mem.observations - {c.key};
    var execs := if c.op == Start && result == OK
                 then PutExec(l.world.execs, c.key, Launched(l.world.execs[c.key])) else l.world.execs;
    l.(mem := l.mem.(observations := observations), world := l.world.(execs := execs))
  }

  function VerdictOn(l: Live, c: Cmd): Verdict {
    Judge(l.mem.allocations[c.key], c, l.world.execs[c.key], Sighted(l, c.key))
  }

  /** Commit the judged row and enact it, unless the write fails or the process dies. */
  function Conclude(l: Live, c: Cmd, row: Allocation, result: Result, fault: Fault): (Live, Reply) {
    var (next, stored) := Commit(l, Put(l.mem.allocations, c.key, row), fault);
    match stored
    case Died => (next, Crashed)
    case Failed => (next, StorageUnknown)
    case Kept => (Enact(next, c, result), if result == OK then Done else Denied)
  }

  function Execute(l: Live, c: Cmd, fault: Fault): (Live, Reply) {
    if Refusal(l.mem, c).Some? then (l, Refusal(l.mem, c).value)
    else if VerdictOn(l, c).Exhaust? then (l, Exhausted)
    else Conclude(l, c, VerdictOn(l, c).row, VerdictOn(l, c).result, fault)
  }

  function Command(l: Live, principal: Value, event: Payload, fault: Fault): (Live, Reply) {
    var c := Decode(principal, event);
    if c.None? then (l, Invalid) else Execute(l, c.value, fault)
  }

  // ---------- the other controller actions ----------

  datatype Report = Report(generation: int, epoch: int, admitted: bool, stopRequested: bool,
                           observed: Observed, storageOk: bool)

  function Status(l: Live, k: Key): Report {
    var row := l.mem.allocations[k];
    Report(row.generation, row.epoch,
           l.mem.storageOk && row.control && row.approved && !row.latched,
           l.mem.storageOk && row.latched, Sighted(l, k), l.mem.storageOk)
  }

  /** The cached observation, when every fence on it still holds. */
  function Sighted(l: Live, k: Key): Observed {
    var row, exec := l.mem.allocations[k], l.world.execs[k];
    if k in l.mem.observations && l.mem.storageOk && row.control then
      var o := l.mem.observations[k];
      if o.generation == row.generation == exec.generation && o.epoch == row.epoch
         && 0 <= l.world.tick - o.tick <= OBSERVATION_TTL && o.revision == exec.revision
      then o.state else UNKNOWN
    else UNKNOWN
  }

  function Forget(l: Live, k: Key): Live {
    l.(mem := l.mem.(observations := l.mem.observations - {k}))
  }

  /** A replaced allocation runs under a fresh `Execution` and has not been observed. */
  function Renew(l: Live, k: Key, generation: int): Live {
    Forget(l, k).(world := l.world.(execs := PutExec(l.world.execs, k, FreshExec(generation))))
  }

  function SetControl(l: Live, k: Key, available: bool, fault: Fault): (Live, Stored) {
    if !l.mem.storageOk then (l, Failed)
    else
      var row := l.mem.allocations[k].(control := available, approved := false);
      Commit(Forget(l, k), Put(l.mem.allocations, k, row), fault)
  }

  function Adapter(l: Live, k: Key, cancelRemote: bool, fail: bool): (Live, bool) {
    var row, exec := l.mem.allocations[k], l.world.execs[k];
    if !l.mem.storageOk || !row.latched || !row.control || fail || row.generation != exec.generation then (l, false)
    else
      var stopped := exec.(running := false, connected := false,
                           remoteRunning := exec.remoteRunning && !cancelRemote, revision := exec.revision + 1);
      (Forget(l, k).(world := l.world.(execs := PutExec(l.world.execs, k, stopped))), true)
  }

  predicate Executing(exec: Exec) { exec.running || exec.remoteRunning }

  function Observe(l: Live, k: Key, fail: bool): (Live, Observed) {
    var row, exec := l.mem.allocations[k], l.world.execs[k];
    var dropped := l.mem.observations - {k};
    if fail || !l.mem.storageOk || !row.control || row.generation != exec.generation then
      (l.(mem := l.mem.(observations := dropped)), UNKNOWN)
    else
      var state := if Executing(exec) then RUNNING else VERIFIED_STOPPED;
      var o := Observation(row.generation, row.epoch, l.world.tick, exec.revision, state);
      (l.(mem := l.mem.(observations := dropped[k := o])), state)
  }

  function Regenerate(l: Live, k: Key, generation: int, fault: Fault): (Live, Stored) {
    var (next, stored) := Commit(l, Put(l.mem.allocations, k, FreshAllocation(generation)), fault);
    (if stored == Kept then Renew(next, k, generation) else next, stored)
  }

  function Replace(l: Live, k: Key, fault: Fault): (Live, Stored) {
    var row, exec := l.mem.allocations[k], l.world.execs[k];
    if !l.mem.storageOk || row.latched || !row.control || Executing(exec) || row.generation == MAX_INTEGER then
      (l, Failed)
    else Regenerate(l, k, row.generation + 1, fault)
  }

  // ---------- the World ----------

  /** None when `advance` raises. */
  function Advance(w: WorldState, ticks: int): Option<WorldState> {
    if 0 <= ticks <= MAX_INTEGER - w.tick then Some(w.(tick := w.tick + ticks)) else None
  }

  predicate Reaches(exec: Exec, kind: string) { exec.running && (kind != "export" || exec.connected) }

  /** None when `effect` raises; otherwise the new World and whether the effect was reached. */
  function Affect(w: WorldState, k: Key, kind: string): Option<(WorldState, bool)> {
    if kind !in EFFECT_KINDS then None
    else
      var exec := w.execs[k];
      if Reaches(exec, kind) then
        Some((w.(execs := PutExec(w.execs, k, exec.(effects := exec.effects + [Effect(kind, w.tick)]))), true))
      else Some((w, false))
  }
}
