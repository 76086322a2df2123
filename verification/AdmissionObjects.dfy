/** The `AdmissionStore` object: its operations in the order of the original, one I/O outcome taken
    from the environment per primitive, proved to be runs of the machine of Admission.dfy. */
module AdmissionObjects {
  import opened Json
  import opened Faults
  import opened Admission

  /** The control directory: the state file and the presence of its three companions. */
  class Directory {
    var state: Option<State>
    var pending: bool
    var transition: bool
    var failed: bool

    ghost function View(): Files
      reads this
    {
      Files(state, pending, transition, failed)
    }
  }

  /** How the machine of Admission.dfy sees an outcome. */
  predicate Tells(o: Outcome, pc: Pc) {
    match o
    case Returned => pc == Finished(true)
    case Raised => pc == Finished(false)
    case Died => Running(pc)
  }

  class AdmissionStore {
    const dir: Directory
    const env: Environment
    var state: State

    ghost function At(pc: Pc): Machine
      reads this, dir
    {
      Machine(dir.View(), state, pc)
    }

    /** From `before` with the old script, the machine gets to `after` with the script that is left. */
    twostate predicate Continues(before: Pc, after: Pc)
      reads this, dir, env
    {
      Run(old(At(before)), old(env.script)) == Run(At(after), env.script)
    }

    /** The whole operation: what it leaves on disk and in memory, and how it ends. */
    twostate predicate Performs(op: Op, o: Outcome)
      reads this, dir, env
    {
      var end := Run(old(At(Begun(op))), old(env.script));
      end.files == dir.View() && end.cache == state && Tells(o, end.pc)
    }

    constructor (dir: Directory, env: Environment, loaded: State)
      ensures this.dir == dir && this.env == env && state == loaded
    {
      this.dir, this.env, state := dir, env, loaded;
    }

    /** `AdmissionStore(path)`: null where the load raises. */
    static method Open(dir: Directory, env: Environment, io: Io) returns (store: AdmissionStore?)
      ensures store != null <==> io.Good? && Loadable(dir.View())
      ensures store != null ==> store.dir == dir && store.env == env && Some(store.state) == dir.state
    {
      if io.Bad? || dir.pending || dir.transition || dir.failed { return null; }
      if dir.state.None? || !Valid(dir.state.value) { return null; }
      store := new AdmissionStore(dir, env, dir.state.value);
    }

    /** `_load`, read-only. */
    method Load() returns (o: Outcome)
      modifies this, env
      ensures unchanged(dir)
      ensures old(env.script) == [] ==> o == Died && env.script == [] && state == old(state)
      ensures old(env.script) != [] ==>
                && env.script == old(env.script)[1..]
                && (if old(env.script)[0].Good? && Loadable(dir.View())
                    then o == Returned && Some(state) == dir.state
                    else o == Raised && state == old(state))
    {
      var io := env.Take();
      if io.None? { return Died; }
      if io.value.Bad? || dir.pending || dir.transition || dir.failed { return Raised; }
      if dir.state.None? || !Valid(dir.state.value) { return Raised; }
      state := dir.state.value;
      return Returned;
    }

    /** `_write_inhibit_marker`. */
    method WriteInhibitMarker() returns (o: Outcome, ghost pc: Pc)
      modifies dir, env
      ensures Continues(Marking, pc)
      ensures if o == Died then Running(pc) && env.script == [] else o == Raised && pc == Finished(false)
    {
      var io := env.Take();
      if io.None? { return Died, Marking; }
      if io.value.Good? { dir.failed := true; }
      return Raised, Finished(false);
    }

    /** `_write_transition_marker`: Returned once the marker is durable. */
    method WriteTransitionMarker(op: Op, next: State) returns (o: Outcome, ghost pc: Pc)
      modifies dir, env
      ensures Continues(Arming(op, next), pc)
      ensures match o
              case Returned => pc == Opening(op, next)
              case Raised => pc == Finished(false)
              case Died => Running(pc) && env.script == []
    {
      var io := env.Take();
      if io.None? { return Died, Arming(op, next); }
      if dir.transition || io.value.Bad? { return Raised, Finished(false); }
      dir.transition := true;
      assert Continues(Arming(op, next), Flushing(op, next));
      io := env.Take();
      if io.None? { return Died, Flushing(op, next); }
      if io.value.Good? { return Returned, Opening(op, next); }
      assert Continues(Arming(op, next), Disarming);
      o, pc := Disarm();
    }

    /** Its `except` branch: the marker is removed again, when that works. */
    method Disarm() returns (o: Outcome, ghost pc: Pc)
      modifies dir, env
      ensures Continues(Disarming, pc)
      ensures if o == Died then Running(pc) && env.script == [] else o == Raised && pc == Finished(false)
    {
      var io := env.Take();
      if io.None? { return Died, Disarming; }
      if io.value.Good? { dir.transition := false; }
      return Raised, Finished(false);
    }

    /** `_atomic_write` up to its ownership check: Returned once the rename and the directory sync are done. */
    method AtomicWrite(op: Op, next: State) returns (o: Outcome, ghost pc: Pc)
      modifies dir, env
      ensures Continues(Opening(op, next), pc)
      ensures match o
              case Returned => pc == Checking(op, next)
              case Raised => pc == Finished(false)
              case Died => Running(pc) && env.script == []
    {
      var io := env.Take();
      if io.None? { return Died, Opening(op, next); }
      if !Valid(next) || dir.pending { return Raised, Finished(false); }
      if io.value.Good? {
        dir.pending := true;
        assert Continues(Opening(op, next), Writing(op, next));
        io := env.Take();
        if io.None? { return Died, Writing(op, next); }
        if io.value.Good? {
          assert Continues(Opening(op, next), Replacing(op, next));
          o, pc := Rename(op, next);
          return;
        }
      }
      assert Continues(Opening(op, next), Marking);
      o, pc := WriteInhibitMarker();
    }

    /** The rename over the state and the directory sync. */
    method Rename(op: Op, next: State) returns (o: Outcome, ghost pc: Pc)
      modifies dir, env
      ensures Continues(Replacing(op, next), pc)
      ensures match o
              case Returned => pc == Checking(op, next)
              case Raised => pc == Finished(false)
              case Died => Running(pc) && env.script == []
    {
      var io := env.Take();
      if io.None? { return Died, Replacing(op, next); }
      if io.value.Good? {
        dir.state, dir.pending := Some(next), false;
        assert Continues(Replacing(op, next), Syncing(op, next));
        io := env.Take();
        if io.None? { return Died, Syncing(op, next); }
        if io.value.Good? { return Returned, Checking(op, next); }
      }
      assert Continues(Replacing(op, next), Marking);
      o, pc := WriteInhibitMarker();
    }

    /** `_commit`: write, check the owner, adopt. */
    method Commit(op: Op, next: State) returns (o: Outcome, ghost pc: Pc)
      modifies this, dir, env
      ensures Continues(Opening(op, next), pc)
      ensures match o
              case Returned => pc == (if op.Stop? then Clearing else Finished(true))
              case Raised => pc == Finished(false)
              case Died => Running(pc) && env.script == []
    {
      o, pc := AtomicWrite(op, next);
      if o != Returned { return; }
      var io := env.Take();
      if io.None? { return Died, Checking(op, next); }
      if io.value.Bad? { return Raised, Finished(false); }
      state := next;
      return Returned, if op.Stop? then Clearing else Finished(true);
    }

    /** `_clear_transition_marker`. */
    method ClearTransitionMarker() returns (o: Outcome, ghost pc: Pc)
      modifies dir, env
      ensures Continues(Clearing, pc)
      ensures Tells(o, pc) && (o == Died ==> env.script == [])
      ensures o == Raised && old(dir.transition) ==>
                old(env.script) != [] && (dir.transition <==> old(env.script)[0].Bad?)
    {
      var io := env.Take();
      if io.None? { return Died, Clearing; }
      if io.value.Bad? { return Raised, Finished(false); }
      dir.transition := false;
      assert Continues(Clearing, ClearSyncing);
      io := env.Take();
      if io.None? { return Died, ClearSyncing; }
      return if io.value.Good? then Returned else Raised, Finished(io.value.Good?);
    }

    /** `reserve_start`. */
    method ReserveStart() returns (o: Outcome)
      modifies this, dir, env
      ensures Performs(Reserve, o)
    {
      o := Load();
      if o != Returned { return; }
      if state.mode != OPEN || state.activePid.Some? { return Raised; }
      var next := state.(activePid := Some(0), activePgid := Some(0), sequence := state.sequence + 1);
      assert Continues(Begun(Reserve), Opening(Reserve, next));
      ghost var pc;
      o, pc := Commit(Reserve, next);
    }

    /** `mark_active`. */
    method MarkActive(pid: int, pgid: int) returns (o: Outcome)
      modifies this, dir, env
      ensures if pid <= 0 || pgid <= 0 then o == Raised && unchanged(this, dir) else Performs(Bind(pid, pgid), o)
    {
      if pid <= 0 || pgid <= 0 { return Raised; }
      o := Load();
      if o != Returned { return; }
      if state.activePid != Some(0) || state.activePgid != Some(0) { return Raised; }
      var next := state.(activePid := Some(pid), activePgid := Some(pgid));
      assert Continues(Begun(Bind(pid, pgid)), Opening(Bind(pid, pgid), next));
      ghost var pc;
      o, pc := Commit(Bind(pid, pgid), next);
    }

    /** `request_stop`. */
    method RequestStop(reason: Reason) returns (o: Outcome)
      modifies this, dir, env
      ensures Performs(Stop(Some(reason)), o)
    {
      var op := Stop(Some(reason));
      o := Load();
      if o != Returned { return; }
      if state.mode == OPEN {
        var next := state.(mode := STOP_LATCHED, reason := Some(reason), sequence := state.sequence + 1);
        assert Continues(Begun(op), Arming(op, next));
        ghost var pc;
        o, pc := WriteTransitionMarker(op, next);
        assert Continues(Begun(op), pc);
        if o != Returned { return; }
        o, pc := Commit(op, next);
        assert Continues(Begun(op), pc);
        if o != Returned { return; }
        o, pc := ClearTransitionMarker();
      }
    }

    /** `mark_stopped`. */
    method MarkStopped() returns (o: Outcome)
      modifies this, dir, env
      ensures Performs(Clear, o)
    {
      o := Load();
      if o != Returned { return; }
      if state.mode != STOP_LATCHED { return Raised; }
      var next := state.(activePid := None, activePgid := None, sequence := state.sequence + 1);
      assert Continues(Begun(Clear), Opening(Clear, next));
      ghost var pc;
      o, pc := Commit(Clear, next);
    }

    /** `reset`. */
    method ResetLatch(observedStopped: bool, evidence: Option<Evidence>, root: bool) returns (o: Outcome)
      modifies this, dir, env
      ensures Performs(Reset(observedStopped, evidence, root), o)
    {
      var op := Reset(observedStopped, evidence, root);
      o := Load();
      if o != Returned { return; }
      if !observedStopped { return Raised; }
      if state.mode != STOP_LATCHED || state.activePid.Some? { return Raised; }
      if root && !Bound(evidence, state) { return Raised; }
      var next := state.(generation := state.generation + 1, mode := OPEN, reason := None,
                         sequence := state.sequence + 1);
      assert Continues(Begun(op), Opening(op, next));
      ghost var pc;
      o, pc := Commit(op, next);
    }
  }
}
