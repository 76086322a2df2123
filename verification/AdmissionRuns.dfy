/** Whole runs of the admission store: any number of controllers with stale caches, any
    interleaving the writer lock permits, an I/O failure or a crash at any primitive. */
module AdmissionRuns {
  import opened Json
  import opened Faults
  import opened Admission

  // ---------- the invariant ----------

  ghost predicate Counted(s: State) {
    s.sequence >= 2 * (s.generation - 1) + (if s.mode == STOP_LATCHED then 1 else 0)
  }

  ghost predicate Planned(f: Files, op: Op, next: State) {
    f.state.Some? && PlanOf(op, f.state.value) == Write(next) && f.transition == op.Stop?
  }

  ghost predicate Written(f: Files, op: Op, next: State) {
    && f.state == Some(next) && !f.pending && f.transition == op.Stop?
    && (op.Stop? ==> next.mode == STOP_LATCHED)
  }

  /** What the files look like while the lock holder stands at `pc`. */
  ghost predicate Stage(f: Files, pc: Pc) {
    match pc
    case Arming(op, next) =>
      op.Stop? && f.state.Some? && PlanOf(op, f.state.value) == Write(next) && !f.transition && !f.pending
    case Flushing(op, next) => op.Stop? && Planned(f, op, next) && !f.pending
    case Opening(op, next) => Planned(f, op, next) && !f.pending
    case Writing(op, next) => Planned(f, op, next) && f.pending
    case Replacing(op, next) => Planned(f, op, next) && f.pending
    case Syncing(op, next) => Written(f, op, next)
    case Checking(op, next) => Written(f, op, next)
    case Clearing => f.transition && f.state.Some? && f.state.value.mode == STOP_LATCHED
    case _ => true
  }

  ghost predicate StoreInv(f: Files) {
    f.state.Some? && Valid(f.state.value) && Counted(f.state.value)
  }

  ghost predicate LockInv(s: Sys, id: nat)
    requires id in s.ctls
  {
    && (s.ctls[id].depth > 0 <==> s.lock == Some(id))
    && (!s.ctls[id].pc.Idle? ==> s.lock == Some(id))
    && Stage(s.files, s.ctls[id].pc)
  }

  ghost predicate Inv(s: Sys) {
    && StoreInv(s.files)
    && (s.lock.Some? ==> s.lock.value in s.ctls)
    && forall id :: id in s.ctls ==> LockInv(s, id)
  }

  lemma PlanKeepsInv(op: Op, s: State)
    requires Valid(s) && Counted(s) && PlanOf(op, s).Write?
    ensures Valid(PlanOf(op, s).next) && Counted(PlanOf(op, s).next)
    ensures op.Stop? ==> PlanOf(op, s).next.mode == STOP_LATCHED
  {
  }

  lemma AdvanceKeepsInv(m: Machine, io: Io)
    requires StoreInv(m.files) && Stage(m.files, m.pc)
    ensures StoreInv(Advance(m, io).files) && Stage(Advance(m, io).files, Advance(m, io).pc)
    ensures !Running(m.pc) ==> Advance(m, io) == m
    ensures !Advance(m, io).pc.Idle? || m.pc.Idle?
  {
    hide Valid, Counted, PlanOf;
    match m.pc
    case Begun(op) => if PlanOf(op, m.files.state.value).Write? { PlanKeepsInv(op, m.files.state.value); }
    case Opening(op, next) => PlanKeepsInv(op, m.files.state.value);
    case Replacing(op, next) => PlanKeepsInv(op, m.files.state.value);
    case _ =>
  }

  lemma NextKeepsInv(s: Sys, a: Action)
    requires Inv(s)
    ensures Inv(Next(s, a))
  {
    hide Advance, StoreInv, Loadable;
    match a
    case Primitive(id, io) =>
      if id in s.ctls && Running(s.ctls[id].pc) {
        AdvanceKeepsInv(Machine(s.files, s.ctls[id].cache, s.ctls[id].pc), io);
        assert forall other :: other in s.ctls && other != id ==> s.ctls[other].pc.Idle?;
      }
    case _ =>
  }

  lemma InitialInv(runId: string)
    ensures Inv(Initial(runId))
  {
  }

  lemma {:induction false} RunInv(states: seq<Sys>, acts: seq<Action>, i: nat)
    requires IsRun(states, acts) && i < |states|
    ensures Inv(states[i])
  {
    hide Inv, Next, Initial;
    if i == 0 {
      var runId :| states[0] == Initial(runId);
      InitialInv(runId);
    } else {
      RunInv(states, acts, i - 1);
      RunStep(states, acts, i - 1);
      NextKeepsInv(states[i - 1], acts[i - 1]);
    }
  }

  lemma RunStep(states: seq<Sys>, acts: seq<Action>, i: nat)
    requires IsRun(states, acts) && i < |acts|
    ensures i + 1 < |states| && states[i + 1] == Next(states[i], acts[i])
  {
    hide Next;
  }

  // ---------- what a step does to the durable state ----------

  ghost function Durable(s: Sys): State
    requires Inv(s)
  {
    s.files.state.value
  }

  /** The step is a committing rename by the lock holder, and writes what its operation plans for
      the state that is durable at that very moment. */
  ghost predicate Commits(s: Sys, a: Action, op: Op)
    requires Inv(s)
  {
    && a.Primitive? && s.lock == Some(a.id) && a.id in s.ctls && s.ctls[a.id].pc.Replacing?
    && s.ctls[a.id].pc.op == op
    && Next(s, a).files.state.Some?
    && PlanOf(op, Durable(s)) == Write(Next(s, a).files.state.value)
  }

  lemma AdvanceDurable(m: Machine, io: Io)
    requires StoreInv(m.files) && Stage(m.files, m.pc)
    ensures var n := Advance(m, io);
            n.files.state == m.files.state
            || (m.pc.Replacing? && n.files.state.Some?
                && PlanOf(m.pc.op, m.files.state.value) == Write(n.files.state.value))
  {
    hide Valid, Counted, PlanOf;
  }

  /** No commit overwrites an unseen commit, however stale the caches. */
  lemma NoLostUpdate(s: Sys, a: Action)
    requires Inv(s)
    ensures Inv(Next(s, a))
    ensures Next(s, a).files.state != s.files.state ==> exists op :: Commits(s, a, op)
  {
    NextKeepsInv(s, a);
    hide Advance, StoreInv, Loadable, PlanOf;
    match a
    case Primitive(id, io) =>
      if id in s.ctls && Running(s.ctls[id].pc) {
        AdvanceDurable(Machine(s.files, s.ctls[id].cache, s.ctls[id].pc), io);
        if s.ctls[id].pc.Replacing? && Next(s, a).files.state != s.files.state {
          assert Commits(s, a, s.ctls[id].pc.op);
        }
      }
    case _ =>
  }

  // ---------- which states load ----------

  /** A stored state is accepted exactly when it is of one of these shapes: no process, a launch reserved, or a bound
      one; and latched with a reason or open without. */
  lemma ValidShapes(s: State)
    ensures Valid(s) <==>
              && s.generation >= 1 && s.sequence >= 0
              && (s.reason.Some? <==> s.mode == STOP_LATCHED)
              && (|| (s.activePid == None && s.activePgid == None)
                  || (s.activePid == Some(0) && s.activePgid == Some(0))
                  || (exists pid, pgid ::
                        pid > 0 && pgid > 0 && s.activePid == Some(pid) && s.activePgid == Some(pgid)))
  {
    if s.activePid.Some? && s.activePgid.Some? && s.activePid.value > 0 && s.activePgid.value > 0 {
      assert s.activePid == Some(s.activePid.value) && s.activePgid == Some(s.activePgid.value);
    }
  }

  // ---------- what each operation demands and leaves, field by field ----------

  /** The operation may change `v`, and changes it to `w`. */
  predicate Changes(op: Op, v: State, w: State) {
    match op
    case Reserve =>
      && v.mode == OPEN && v.activePid.None?
      && w == State(v.runId, v.generation, v.sequence + 1, OPEN, v.reason, Some(0), Some(0))
    case Bind(pid, pgid) =>
      && pid > 0 && pgid > 0 && v.activePid == Some(0) && v.activePgid == Some(0)
      && w == State(v.runId, v.generation, v.sequence, v.mode, v.reason, Some(pid), Some(pgid))
    case Stop(reason) =>
      && v.mode == OPEN && reason.Some?
      && w == State(v.runId, v.generation, v.sequence + 1, STOP_LATCHED, reason, v.activePid, v.activePgid)
    case Clear =>
      && v.mode == STOP_LATCHED
      && w == State(v.runId, v.generation, v.sequence + 1, STOP_LATCHED, v.reason, None, None)
    case Reset(observedStopped, evidence, root) =>
      && observedStopped && v.mode == STOP_LATCHED && v.activePid.None?
      && (root ==>
            && evidence.Some? && evidence.value.complete
            && evidence.value.runId == v.runId && evidence.value.generation == v.generation)
      && w == State(v.runId, v.generation + 1, v.sequence + 1, OPEN, None, None, v.activePgid)
  }

  lemma PlanChanges(op: Op, v: State)
    ensures forall w :: PlanOf(op, v) == Write(w) <==> Changes(op, v, w)
    ensures PlanOf(op, v) != Refuse && !BadArguments(op) ==>
              PlanOf(op, v).Write? || (op.Stop? && v.mode == STOP_LATCHED)
  {
  }

  /** Whatever commits in a run, a launch was open and free, a bind had its reservation, a reset its latch, its
      cleared identity and, on a root store, evidence of this very run and generation. */
  lemma CommitMeans(states: seq<Sys>, acts: seq<Action>, i: nat, op: Op)
    requires IsRun(states, acts) && i < |acts|
    requires Inv(states[i]) && Commits(states[i], acts[i], op)
    ensures Inv(states[i + 1]) && Changes(op, Durable(states[i]), Durable(states[i + 1]))
  {
    hide Inv, Next, PlanOf, Changes;
    RunStep(states, acts, i);
    RunInv(states, acts, i + 1);
    PlanChanges(op, Durable(states[i]));
  }

  /** A reset says that the launch was seen stopped, and on a root store that the evidence is complete and names
      the run and the generation that are durable at that moment. */
  lemma ResetNeedsEvidence(states: seq<Sys>, acts: seq<Action>, i: nat,
                           observedStopped: bool, evidence: Option<Evidence>, root: bool)
    requires IsRun(states, acts) && i < |acts|
    requires Inv(states[i]) && Commits(states[i], acts[i], Reset(observedStopped, evidence, root))
    ensures observedStopped && Durable(states[i]).mode == STOP_LATCHED && Durable(states[i]).activePid.None?
    ensures root ==> evidence.Some? && evidence.value.complete
                     && evidence.value.runId == Durable(states[i]).runId
                     && evidence.value.generation == Durable(states[i]).generation
  {
    hide Inv, Next, PlanOf;
    CommitMeans(states, acts, i, Reset(observedStopped, evidence, root));
  }

  // ---------- one generation is one pass through six phases ----------

  /** 0 open, 1 reserved, 2 bound, 3 latched while reserved, 4 latched while bound, 5 latched and cleared. */
  function Phase(s: State): nat {
    if s.mode == OPEN then (if s.activePid.None? then 0 else if Reserved(s) then 1 else 2)
    else (if s.activePid.None? then 5 else if Reserved(s) then 3 else 4)
  }

  ghost predicate NotBefore(s: State, t: State) {
    s.generation < t.generation || (s.generation == t.generation && Phase(s) <= Phase(t))
  }

  lemma PlanMovesOn(op: Op, s: State)
    requires Valid(s) && PlanOf(op, s).Write?
    ensures var t := PlanOf(op, s).next;
            && NotBefore(s, t)
            && (op.Reserve? <==> s.generation == t.generation && Phase(s) == 0 && Phase(t) == 1)
            && (op.Reset? <==> s.mode == STOP_LATCHED && t.mode == OPEN)
            && (op.Reset? ==> t.generation == s.generation + 1 && Phase(t) == 0)
  {
  }

  lemma {:induction false} Onward(states: seq<Sys>, acts: seq<Action>, i: nat, j: nat)
    requires IsRun(states, acts) && i <= j < |states|
    ensures Inv(states[i]) && Inv(states[j])
    ensures NotBefore(Durable(states[i]), Durable(states[j]))
    decreases j
  {
    hide Inv, Next, Phase, PlanOf;
    RunInv(states, acts, i);
    RunInv(states, acts, j);
    if i < j {
      Onward(states, acts, i, j - 1);
      RunStep(states, acts, j - 1);
      StepMovesOn(states[j - 1], acts[j - 1]);
    }
  }

  lemma StepMovesOn(s: Sys, a: Action)
    requires Inv(s)
    ensures Inv(Next(s, a)) && NotBefore(Durable(s), Durable(Next(s, a)))
  {
    hide Next, PlanOf, Phase;
    NoLostUpdate(s, a);
    if Next(s, a).files.state != s.files.state {
      var op :| Commits(s, a, op);
      PlanMovesOn(op, Durable(s));
    }
  }

  /** The step makes a reservation durable. */
  ghost predicate Reserves(s: Sys, a: Action) { Inv(s) && Commits(s, a, Reserve) }

  /** Each generation is reserved at most once. */
  lemma ReservedOnce(states: seq<Sys>, acts: seq<Action>, i: nat, j: nat)
    requires IsRun(states, acts) && i < j < |acts|
    requires Reserves(states[i], acts[i]) && Reserves(states[j], acts[j])
    ensures Durable(states[i]).generation < Durable(states[j]).generation
  {
    hide Inv, Next, Phase, PlanOf;
    RunStep(states, acts, i);
    Onward(states, acts, i + 1, j);
    MachineState(states[i]);
    MachineState(states[j]);
    PlanMovesOn(Reserve, Durable(states[i]));
    PlanMovesOn(Reserve, Durable(states[j]));
  }

  /** A launch cleared by `mark_stopped` can never bind: its generation keeps no process. */
  lemma ClearedNeverBinds(states: seq<Sys>, acts: seq<Action>, i: nat, j: nat)
    requires IsRun(states, acts) && i < j < |states|
    requires Inv(states[i]) && Commits(states[i], acts[i], Clear)
    ensures Inv(states[j])
    ensures Durable(states[j]).generation == Durable(states[i]).generation ==>
              Durable(states[j]).activePid.None? && Durable(states[j]).mode == STOP_LATCHED
  {
    hide Inv, Next;
    RunStep(states, acts, i);
    Onward(states, acts, i + 1, j);
  }

  lemma SequenceCountsCycles(states: seq<Sys>, acts: seq<Action>, i: nat)
    requires IsRun(states, acts) && i < |states|
    ensures states[i].files.state.Some?
    ensures states[i].files.state.value.sequence >= 2 * (states[i].files.state.value.generation - 1)
  {
    hide Next;
    RunInv(states, acts, i);
  }

  // ---------- the stop latch ----------

  /** Some controller is still making the marker durable, or taking it back. */
  ghost predicate Tentative(s: Sys) {
    exists id :: id in s.ctls && (s.ctls[id].pc.Flushing? || s.ctls[id].pc.Disarming?)
  }

  /** Admission is shut: the state is latched, or an armed marker refuses every load. */
  ghost predicate Shut(s: Sys) {
    s.files.state.Some? && (s.files.state.value.mode == STOP_LATCHED || (s.files.transition && !Tentative(s)))
  }

  /** The step finishes arming the stop marker. */
  ghost predicate Arms(s: Sys, a: Action) {
    && a.Primitive? && a.id in s.ctls && s.ctls[a.id].pc.Flushing?
    && a.id in Next(s, a).ctls && Next(s, a).ctls[a.id].pc.Opening?
  }

  lemma AdvanceShut(m: Machine, io: Io)
    requires StoreInv(m.files) && Stage(m.files, m.pc)
    requires m.files.state.value.mode == STOP_LATCHED || m.files.transition
    ensures var n := Advance(m, io);
            && n.files.state.Some?
            && (m.pc.Flushing? || m.pc.Disarming? || m.files.state.value.mode == STOP_LATCHED
                || (n.files.transition && !n.pc.Flushing? && !n.pc.Disarming?)
                || n.files.state.value.mode == STOP_LATCHED)
            && (m.files.state.value.mode == STOP_LATCHED ==>
                  n.files.state.value.mode == STOP_LATCHED
                  || (m.pc.Replacing? && PlanOf(m.pc.op, m.files.state.value) == Write(n.files.state.value)))
  {
    hide Valid, Counted;
  }

  lemma OnlyHolderRuns(s: Sys, id: nat, other: nat)
    requires Inv(s) && id in s.ctls && other in s.ctls && id != other
    ensures s.ctls[id].pc.Idle? || s.ctls[other].pc.Idle?
  {
    hide StoreInv, Stage;
  }

  /** Shut admission opens only by a committed reset. */
  lemma ShutStep(s: Sys, a: Action)
    requires Inv(s) && Shut(s)
    ensures Inv(Next(s, a))
    ensures Shut(Next(s, a)) || (Durable(s).mode == STOP_LATCHED && exists op: Op :: op.Reset? && Commits(s, a, op))
  {
    NoLostUpdate(s, a);
    hide StoreInv, Loadable, PlanOf, Inv, Advance;
    match a
    case Primitive(id, io) =>
      if id in s.ctls && Running(s.ctls[id].pc) {
        MachineAt(s, id);
        AdvanceShut(Machine(s.files, s.ctls[id].cache, s.ctls[id].pc), io);
        forall other | other in s.ctls && other != id ensures s.ctls[other].pc.Idle? {
          OnlyHolderRuns(s, id, other);
        }
        if Next(s, a).files.state != s.files.state {
          var op :| Commits(s, a, op);
          MachineState(s);
          PlanMovesOn(op, s.files.state.value);
        }
      }
    case _ =>
  }

  lemma MachineAt(s: Sys, id: nat)
    requires Inv(s) && id in s.ctls
    ensures StoreInv(s.files) && Stage(s.files, s.ctls[id].pc)
  {
    hide StoreInv, Stage;
  }

  lemma MachineState(s: Sys)
    requires Inv(s)
    ensures s.files.state.Some? && Valid(s.files.state.value)
  {
    hide Stage, Counted, Valid;
  }

  /** A reset commits somewhere in `[i, j)`. */
  ghost predicate ResetBetween(states: seq<Sys>, acts: seq<Action>, i: nat, j: nat)
    requires |states| == |acts| + 1 && j < |states|
  {
    exists r, op: Op :: i <= r < j && op.Reset? && Inv(states[r]) && Commits(states[r], acts[r], op)
  }

  lemma ArmsShut(s: Sys, a: Action)
    requires Inv(s) && Arms(s, a)
    ensures Shut(Next(s, a))
  {
    hide StoreInv, Loadable, PlanOf, Inv;
    MachineAt(s, a.id);
    MachineState(s);
    forall other | other in s.ctls && other != a.id ensures s.ctls[other].pc.Idle? {
      OnlyHolderRuns(s, a.id, other);
    }
  }

  lemma {:induction false} ShutOnward(states: seq<Sys>, acts: seq<Action>, i: nat, j: nat)
    requires IsRun(states, acts) && i <= j < |states| && Shut(states[i])
    ensures Shut(states[j]) || ResetBetween(states, acts, i, j)
    decreases j
  {
    hide Inv, Next, Shut;
    if i < j {
      ShutOnward(states, acts, i, j - 1);
      RunInv(states, acts, j - 1);
      RunStep(states, acts, j - 1);
      if Shut(states[j - 1]) { ShutStep(states[j - 1], acts[j - 1]); }
    }
  }

  /** Once a stop has armed its marker, every later state on disk is latched or still marked, through
      any crash or I/O failure, until a reset commits. */
  lemma LatchSurvives(states: seq<Sys>, acts: seq<Action>, i: nat, j: nat)
    requires IsRun(states, acts) && i < j < |states| && Arms(states[i], acts[i])
    ensures states[j].files.transition
            || (states[j].files.state.Some? && states[j].files.state.value.mode == STOP_LATCHED)
            || ResetBetween(states, acts, i + 1, j)
  {
    hide Inv, Next, Arms, ResetBetween;
    RunInv(states, acts, i);
    RunStep(states, acts, i);
    ArmsShut(states[i], acts[i]);
    ShutOnward(states, acts, i + 1, j);
  }

  lemma ReserveNeedsOpen(s: Sys, a: Action)
    requires Reserves(s, a)
    ensures !Shut(s)
  {
    hide StoreInv, Inv;
    MachineAt(s, a.id);
  }

  /** ... and so no controller's `reserve_start` succeeds in between. */
  lemma NoReserveAfterStop(states: seq<Sys>, acts: seq<Action>, i: nat, j: nat)
    requires IsRun(states, acts) && i < j < |acts|
    requires Arms(states[i], acts[i]) && Reserves(states[j], acts[j])
    ensures ResetBetween(states, acts, i + 1, j)
  {
    hide Inv, Next, Arms, ResetBetween, Shut, Reserves;
    RunInv(states, acts, i);
    RunStep(states, acts, i);
    ArmsShut(states[i], acts[i]);
    ShutOnward(states, acts, i + 1, j);
    ReserveNeedsOpen(states[j], acts[j]);
  }

  // ---------- a leftover marker inhibits for ever ----------

  predicate Marked(f: Files) { f.pending || f.transition || f.failed }

  ghost predicate Quiescent(s: Sys) {
    forall id :: id in s.ctls ==> s.ctls[id].pc.Idle? || s.ctls[id].pc.Begun? || s.ctls[id].pc.Finished?
  }

  lemma MarkedStep(s: Sys, a: Action)
    requires Inv(s) && Quiescent(s) && Marked(s.files)
    ensures Quiescent(Next(s, a)) && Next(s, a).files == s.files
  {
    hide StoreInv, Inv, PlanOf;
  }

  /** Once an interrupted or failed operation has left a marker behind, the store never changes
      again: every operation of every controller is refused at its load. */
  lemma {:induction false} MarkerInhibitsForEver(states: seq<Sys>, acts: seq<Action>, i: nat, j: nat)
    requires IsRun(states, acts) && i <= j < |states|
    requires Quiescent(states[i]) && Marked(states[i].files)
    ensures states[j].files == states[i].files && Quiescent(states[j])
    decreases j
  {
    hide Inv, Next, Quiescent;
    if i < j {
      MarkerInhibitsForEver(states, acts, i, j - 1);
      RunInv(states, acts, j - 1);
      RunStep(states, acts, j - 1);
      MarkedStep(states[j - 1], acts[j - 1]);
    }
  }

  // ---------- binding ----------

  predicate RenamesReset(s: Sys, a: Action, id: nat) {
    a.Primitive? && a.id == id && id in s.ctls && s.ctls[id].pc.Replacing? && s.ctls[id].pc.op.Reset?
  }

  /** While one controller holds the lock and does not reset, the generation stands still: a launcher
      that keeps the lock from its reservation to its binding binds the generation it reserved. */
  lemma {:induction false} HeldLockKeepsGeneration(states: seq<Sys>, acts: seq<Action>, id: nat, i: nat, j: nat)
    requires IsRun(states, acts) && i <= j < |states|
    requires forall q :: i <= q < j ==> states[q].lock == Some(id)
    requires forall q :: i <= q < j ==> !RenamesReset(states[q], acts[q], id)
    ensures Inv(states[i]) && Inv(states[j])
    ensures Durable(states[j]).generation == Durable(states[i]).generation
    decreases j
  {
    hide Inv, Next, PlanOf;
    RunInv(states, acts, i);
    RunInv(states, acts, j);
    if i < j {
      HeldLockKeepsGeneration(states, acts, id, i, j - 1);
      RunStep(states, acts, j - 1);
      NoLostUpdate(states[j - 1], acts[j - 1]);
      if states[j].files.state != states[j - 1].files.state {
        var op :| Commits(states[j - 1], acts[j - 1], op);
        GenerationMoves(op, Durable(states[j - 1]));
      }
    }
  }

  lemma GenerationMoves(op: Op, s: State)
    requires PlanOf(op, s).Write?
    ensures PlanOf(op, s).next.generation == s.generation + (if op.Reset? then 1 else 0)
  {
  }

  /** Between two moments of a run the generation stands still exactly when no reset commits. */
  lemma {:induction false} GenerationStands(states: seq<Sys>, acts: seq<Action>, i: nat, j: nat)
    requires IsRun(states, acts) && i <= j < |states|
    ensures Inv(states[i]) && Inv(states[j])
    ensures Durable(states[i]).generation == Durable(states[j]).generation <==> !ResetBetween(states, acts, i, j)
    decreases j
  {
    hide Inv, Next, PlanOf, Phase;
    RunInv(states, acts, i);
    RunInv(states, acts, j);
    if i < j {
      GenerationStands(states, acts, i, j - 1);
      RunStep(states, acts, j - 1);
      Onward(states, acts, i, j - 1);
      NoLostUpdate(states[j - 1], acts[j - 1]);
      if states[j].files.state != states[j - 1].files.state {
        var op :| Commits(states[j - 1], acts[j - 1], op);
        GenerationMoves(op, Durable(states[j - 1]));
      }
      forall op: Op | op.Reset? && Commits(states[j - 1], acts[j - 1], op)
        ensures Durable(states[j]).generation > Durable(states[j - 1]).generation
      {
        GenerationMoves(op, Durable(states[j - 1]));
      }
    }
  }

  ghost predicate Binds(s: Sys, a: Action) {
    Inv(s) && exists op: Op :: op.Bind? && Commits(s, a, op)
  }

  /** `mark_active` names no generation: a bind that follows a reservation binds the generation that was
      reserved exactly when no reset has committed in between. */
  lemma BindIsOwn(states: seq<Sys>, acts: seq<Action>, i: nat, j: nat)
    requires IsRun(states, acts) && i < j < |acts|
    requires Reserves(states[i], acts[i]) && Binds(states[j], acts[j])
    ensures Inv(states[j + 1]) && Inv(states[i + 1])
    ensures Durable(states[j + 1]).generation == Durable(states[i + 1]).generation
            <==> !ResetBetween(states, acts, i, j)
  {
    hide Inv, Next, PlanOf;
    GenerationStands(states, acts, i, j);
    RunStep(states, acts, i);
    RunStep(states, acts, j);
    RunInv(states, acts, i + 1);
    RunInv(states, acts, j + 1);
    GenerationMoves(Reserve, Durable(states[i]));
    var op: Op :| op.Bind? && Commits(states[j], acts[j], op);
    GenerationMoves(op, Durable(states[j]));
  }

  /** A bind after a clear is never for the launch that was cleared: a reset lies between them. */
  lemma ClearedBindsLater(states: seq<Sys>, acts: seq<Action>, m: nat, j: nat)
    requires IsRun(states, acts) && m < j < |acts|
    requires Inv(states[m]) && Commits(states[m], acts[m], Clear) && Binds(states[j], acts[j])
    ensures Inv(states[j]) && ResetBetween(states, acts, m, j)
    ensures Durable(states[m]).generation < Durable(states[j]).generation
  {
    hide Inv, Next, ResetBetween, Commits, Phase;
    ClearedNeverBinds(states, acts, m, j);
    GenerationStands(states, acts, m, j);
    Onward(states, acts, m, j);
    BindNeedsReserved(states[j], acts[j]);
  }

  lemma BindNeedsReserved(s: Sys, a: Action)
    requires Binds(s, a)
    ensures Inv(s) && Durable(s).activePid == Some(0)
  {
    hide Inv, Next;
  }

  // ---------- a failure whose marker cannot be written ----------

  /** The original relies on the pending file when `.failed` itself cannot be written.  That holds exactly
      when the failed write had created the pending file and not yet renamed it, or the operation is a
      stop; a failed directory sync after the rename leaves the new state in place, unmarked. */
  lemma UnmarkedFailure(m: Machine)
    requires StoreInv(m.files) && Stage(m.files, m.pc) && !m.files.failed
    requires m.pc.Opening? || m.pc.Writing? || m.pc.Replacing? || m.pc.Syncing?
    ensures var end := Run(m, [Bad, Bad]);
            && end.pc == Finished(false) && end.files.state == m.files.state
            && (Marked(end.files) <==> m.pc.Writing? || m.pc.Replacing? || m.pc.op.Stop?)
  {
    hide Valid, Counted;
    if m.pc.Opening? { PlanKeepsInv(m.pc.op, m.files.state.value); }
    assert [Bad, Bad][1..] == [Bad];
    assert Run(Advance(m, Bad), [Bad]) == Advance(Advance(m, Bad), Bad);
  }

  /** A new store on which it does not: the directory sync after the rename fails, and so does the failure marker.
      The reservation raises, and stands. */
  lemma UnmarkedReservation(runId: string)
    ensures var m := Machine(Initial(runId).files, Created(runId), Begun(Reserve));
            var end := Run(m, [Good, Good, Good, Good, Bad, Bad]);
            && end.pc == Finished(false) && !Marked(end.files)
            && end.files.state.Some? && end.files.state != Some(Created(runId))
            && PlanOf(Reserve, Created(runId)) == Write(end.files.state.value)
  {
    var m := Machine(Initial(runId).files, Created(runId), Begun(Reserve));
    var script := [Good, Good, Good, Good, Bad, Bad];
    assert script[1..] == [Good, Good, Good, Bad, Bad] && script[1..][1..] == [Good, Good, Bad, Bad];
    var writing := Advance(Advance(m, Good), Good);
    assert Run(m, script) == Run(writing, [Good, Good, Bad, Bad]);
    assert [Good, Good, Bad, Bad][1..] == [Good, Bad, Bad] && [Good, Bad, Bad][1..] == [Bad, Bad];
    var syncing := Advance(Advance(writing, Good), Good);
    assert Run(writing, [Good, Good, Bad, Bad]) == Run(syncing, [Bad, Bad]);
    UnmarkedFailure(syncing);
  }

  /** The original keeps the transition marker when its cleanup is not durable.  It does so exactly when the
      unlink itself failed: a failed directory sync after it raises too, and the marker is gone. */
  lemma ClearRaises(m: Machine, script: seq<Io>)
    requires m.pc == Clearing && m.files.transition
    ensures var end := Run(m, script);
            && (end.pc == Finished(false) <==>
                  (|script| > 0 && script[0].Bad?) || (|script| > 1 && script[0].Good? && script[1].Bad?))
            && (end.pc == Finished(false) ==> (end.files.transition <==> script[0].Bad?))
  {
    if |script| > 0 {
      var one := Advance(m, script[0]);
      if script[0].Good? && |script| > 1 {
        assert script[1..][0] == script[1];
        assert Run(one, script[1..]) == Run(Advance(one, script[1]), script[1..][1..]);
      }
    }
  }

  /** The two ways, on concrete outcomes. */
  lemma ClearRaisesBothWays(m: Machine)
    requires m.pc == Clearing && m.files.transition
    ensures Run(m, [Bad]).pc == Finished(false) && Run(m, [Bad]).files.transition
    ensures Run(m, [Good, Bad]).pc == Finished(false) && !Run(m, [Good, Bad]).files.transition
  {
    ClearRaises(m, [Bad]);
    ClearRaises(m, [Good, Bad]);
  }

  // ---------- the objects' operations are runs of this system ----------

  function Primitives(id: nat, script: seq<Io>): seq<Action> {
    seq(|script|, i requires 0 <= i < |script| => Primitive(id, script[i]))
  }

  function After(s: Sys, acts: seq<Action>): Sys
    decreases |acts|
  {
    if acts == [] then s else After(Next(s, acts[0]), acts[1..])
  }

  /** Driving one controller's primitives with a script is what `Run` does to its machine. */
  lemma {:induction false} ScriptIsSteps(s: Sys, id: nat, script: seq<Io>)
    requires id in s.ctls
    ensures var n := After(s, Primitives(id, script));
            var m := Run(Machine(s.files, s.ctls[id].cache, s.ctls[id].pc), script);
            && id in n.ctls
            && n.files == m.files && n.ctls == s.ctls[id := s.ctls[id].(cache := m.cache, pc := m.pc)]
            && n.lock == s.lock
    decreases |script|
  {
    hide Advance;
    if script != [] {
      var acts := Primitives(id, script);
      assert acts[1..] == Primitives(id, script[1..]);
      ScriptIsSteps(Next(s, acts[0]), id, script[1..]);
      if !Running(s.ctls[id].pc) { assert Next(s, acts[0]) == s; }
    }
  }
}
