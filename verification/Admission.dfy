/** The durable admission store as a crash protocol over four file names: the state, `.pending`,
    `.transition` and `.failed` (experiments/counter_ai_v2/native_demo.py, lines 154-266, 281-569).
    Every file primitive is one step; a step may fail, and the process may die before any step. */
module Admission {
  import opened Json
  import opened Faults

  datatype Mode = OPEN | STOP_LATCHED
  datatype Reason = FORCED_STOP | TEARDOWN | RECOVERY

  datatype State = State(
    runId: string, generation: int, sequence: int, mode: Mode, reason: Option<Reason>,
    activePid: Option<int>, activePgid: Option<int>)

  /** `_validate_state` (the types of the fields are given). */
  predicate Valid(s: State) {
    && (s.mode == OPEN <==> s.reason.None?)
    && s.generation >= 1 && s.sequence >= 0
    && (s.activePid.Some? ==> s.activePid.value >= 0)
    && (s.activePgid.Some? ==> s.activePgid.value >= 0)
    && (s.activePid.None? <==> s.activePgid.None?)
    && (s.activePid == Some(0) <==> s.activePgid == Some(0))
  }

  function Created(runId: string): State {
    State(runId, 1, 0, OPEN, None, None, None)
  }

  predicate Reserved(s: State) { s.activePid == Some(0) && s.activePgid == Some(0) }

  // ---------- operations ----------

  /** The observation passed to `reset`; `complete` sums up its process identity checks. */
  datatype Evidence = Evidence(runId: string, generation: int, complete: bool)

  /** `Stop(None)` is a reason that is not predeclared. */
  datatype Op =
    | Reserve
    | Bind(pid: int, pgid: int)
    | Stop(reason: Option<Reason>)
    | Clear
    | Reset(observedStopped: bool, evidence: Option<Evidence>, root: bool)

  datatype Plan = Refuse | Keep | Write(next: State)

  predicate BadArguments(op: Op) {
    match op
    case Bind(pid, pgid) => pid <= 0 || pgid <= 0
    case Stop(reason) => reason.None?
    case _ => false
  }

  predicate Bound(e: Option<Evidence>, s: State) {
    e.Some? && e.value.runId == s.runId && e.value.generation == s.generation && e.value.complete
  }

  /** What an operation decides once it has loaded `s`. */
  function PlanOf(op: Op, s: State): Plan {
    match op
    case Reserve =>
      if s.mode != OPEN || s.activePid.Some? then Refuse
      else Write(s.(activePid := Some(0), activePgid := Some(0), sequence := s.sequence + 1))
    case Bind(pid, pgid) =>
      if !Reserved(s) || BadArguments(op) then Refuse
      else Write(s.(activePid := Some(pid), activePgid := Some(pgid)))
    case Stop(reason) =>
      if s.mode != OPEN then Keep
      else if reason.None? then Refuse
      else Write(s.(mode := STOP_LATCHED, reason := reason, sequence := s.sequence + 1))
    case Clear =>
      if s.mode != STOP_LATCHED then Refuse
      else Write(s.(activePid := None, activePgid := None, sequence := s.sequence + 1))
    case Reset(observedStopped, evidence, root) =>
      if !observedStopped || s.mode != STOP_LATCHED || s.activePid.Some? || (root && !Bound(evidence, s)) then Refuse
      else Write(s.(generation := s.generation + 1, mode := OPEN, reason := None, sequence := s.sequence + 1))
  }

  // ---------- files and primitives ----------

  datatype Files = Files(state: Option<State>, pending: bool, transition: bool, failed: bool)

  predicate Loadable(f: Files) {
    !f.pending && !f.transition && !f.failed && f.state.Some? && Valid(f.state.value)
  }

  /** Where an operation stands: the primitive named is the next one to run. */
  datatype Pc =
    | Idle
    | Begun(op: Op)                    // _load
    | Arming(op: Op, next: State)      // create .transition
    | Flushing(op: Op, next: State)    // write it and sync the directory
    | Disarming                        // unlink a marker that could not be made durable
    | Opening(op: Op, next: State)     // create .pending
    | Writing(op: Op, next: State)     // write and sync it
    | Replacing(op: Op, next: State)   // rename it over the state
    | Syncing(op: Op, next: State)     // sync the directory
    | Checking(op: Op, next: State)    // _state_owner_ok, then adopt the state
    | Marking                          // create .failed
    | Clearing                         // unlink .transition
    | ClearSyncing                     // sync the directory
    | Finished(ok: bool)               // returned, or raised

  datatype Machine = Machine(files: Files, cache: State, pc: Pc)

  /** One primitive. */
  function Advance(m: Machine, io: Io): Machine {
    var f := m.files;
    match m.pc
    case Begun(op) =>
      if BadArguments(op) || io.Bad? || !Loadable(f) then m.(pc := Finished(false))
      else
        var loaded := m.(cache := f.state.value);
        match PlanOf(op, f.state.value) {
          case Refuse => loaded.(pc := Finished(false))
          case Keep => loaded.(pc := Finished(true))
          case Write(next) => loaded.(pc := if op.Stop? then Arming(op, next) else Opening(op, next))
        }
    case Arming(op, next) =>
      if f.transition || io.Bad? then m.(pc := Finished(false))
      else m.(files := f.(transition := true), pc := Flushing(op, next))
    case Flushing(op, next) => m.(pc := if io.Good? then Opening(op, next) else Disarming)
    case Disarming => m.(files := f.(transition := f.transition && io.Bad?), pc := Finished(false))
    case Opening(op, next) =>
      if !Valid(next) || f.pending then m.(pc := Finished(false))
      else if io.Bad? then m.(pc := Marking)
      else m.(files := f.(pending := true), pc := Writing(op, next))
    case Writing(op, next) => m.(pc := if io.Good? then Replacing(op, next) else Marking)
    case Replacing(op, next) =>
      if io.Bad? then m.(pc := Marking)
      else m.(files := f.(state := Some(next), pending := false), pc := Syncing(op, next))
    case Syncing(op, next) => m.(pc := if io.Good? then Checking(op, next) else Marking)
    case Checking(op, next) =>
      if io.Bad? then m.(pc := Finished(false))
      else m.(cache := next, pc := if op.Stop? then Clearing else Finished(true))
    case Marking => m.(files := f.(failed := f.failed || io.Good?), pc := Finished(false))
    case Clearing =>
      if io.Bad? then m.(pc := Finished(false))
      else m.(files := f.(transition := false), pc := ClearSyncing)
    case ClearSyncing => m.(pc := Finished(io.Good?))
    case Idle => m
    case Finished(_) => m
  }

  predicate Running(pc: Pc) { !pc.Idle? && !pc.Finished? }

  /** Run the primitives with the given I/O outcomes; the process dies when the script runs out. */
  function Run(m: Machine, script: seq<Io>): Machine
    decreases |script|
  {
    if !Running(m.pc) || script == [] then m else Run(Advance(m, script[0]), script[1..])
  }

  // ---------- the system: any number of controllers, one writer lock ----------

  datatype Ctl = Ctl(cache: State, depth: nat, pc: Pc)

  datatype Sys = Sys(files: Files, lock: Option<nat>, ctls: map<nat, Ctl>)

  datatype Action =
    | Open(id: nat, io: Io)            // a new controller object loads the store
    | Peek(id: nat, io: Io)            // an unlocked _load: `latched`, `reload`
    | Acquire(id: nat)                 // enter writer_lock explicitly
    | Release(id: nat)                 // leave it
    | Call(id: nat, op: Op)            // start an operation, entering the lock
    | Primitive(id: nat, io: Io)       // one primitive of the running operation
    | Return(id: nat)                  // finish it, leaving the lock
    | Crash(id: nat)                   // the process dies; the kernel drops its lock

  predicate CanEnter(s: Sys, id: nat) { s.lock == None || s.lock == Some(id) }

  function Leave(s: Sys, id: nat, c: Ctl): Sys {
    var depth := if c.depth > 0 then c.depth - 1 else 0;
    s.(lock := if depth == 0 then None else s.lock, ctls := s.ctls[id := c.(depth := depth, pc := Idle)])
  }

  /** A disabled action changes nothing. */
  function Next(s: Sys, a: Action): Sys {
    match a
    case Open(id, io) =>
      if id in s.ctls || io.Bad? || !Loadable(s.files) then s
      else s.(ctls := s.ctls[id := Ctl(s.files.state.value, 0, Idle)])
    case Peek(id, io) =>
      if id !in s.ctls || Running(s.ctls[id].pc) || io.Bad? || !Loadable(s.files) then s
      else s.(ctls := s.ctls[id := s.ctls[id].(cache := s.files.state.value)])
    case Acquire(id) =>
      if id !in s.ctls || !s.ctls[id].pc.Idle? || !CanEnter(s, id) then s
      else s.(lock := Some(id), ctls := s.ctls[id := s.ctls[id].(depth := s.ctls[id].depth + 1)])
    case Release(id) =>
      if id !in s.ctls || !s.ctls[id].pc.Idle? || s.ctls[id].depth == 0 then s
      else Leave(s, id, s.ctls[id])
    case Call(id, op) =>
      if id !in s.ctls || !s.ctls[id].pc.Idle? || !CanEnter(s, id) then s
      else s.(lock := Some(id),
              ctls := s.ctls[id := s.ctls[id].(depth := s.ctls[id].depth + 1, pc := Begun(op))])
    case Primitive(id, io) =>
      if id !in s.ctls || !Running(s.ctls[id].pc) then s
      else
        var m := Advance(Machine(s.files, s.ctls[id].cache, s.ctls[id].pc), io);
        s.(files := m.files, ctls := s.ctls[id := s.ctls[id].(cache := m.cache, pc := m.pc)])
    case Return(id) =>
      if id !in s.ctls || !s.ctls[id].pc.Finished? then s
      else Leave(s, id, s.ctls[id])
    case Crash(id) =>
      if id !in s.ctls then s
      else s.(lock := if s.lock == Some(id) then None else s.lock, ctls := s.ctls - {id})
  }

  function Initial(runId: string): Sys {
    Sys(Files(Some(Created(runId)), false, false, false), None, map[])
  }

  ghost predicate IsRun(states: seq<Sys>, acts: seq<Action>) {
    && |states| == |acts| + 1
    && (exists runId :: states[0] == Initial(runId))
    && forall i :: 0 <= i < |acts| ==> states[i + 1] == Next(states[i], acts[i])
  }
}
