/** A launch that was cleared before it was bound can still bind, to the next generation: a whole run of
    the locked system that shows it.  AdmissionRuns.BindIsOwn says exactly when a bind is not late. */
module AdmissionBinding {
  import opened Json
  import opened Faults
  import opened Admission
  import opened AdmissionRuns

  // ---------- runs from action lists ----------

  /** The states an action list goes through. */
  function Path(s: Sys, acts: seq<Action>): (states: seq<Sys>)
    ensures |states| == |acts| + 1 && states[0] == s
    decreases |acts|
  {
    if acts == [] then [s] else [s] + Path(Next(s, acts[0]), acts[1..])
  }

  lemma {:induction false} PathAt(s: Sys, acts: seq<Action>, k: nat)
    requires k <= |acts|
    ensures Path(s, acts)[k] == After(s, acts[..k])
    decreases |acts|
  {
    hide Next;
    if k > 0 {
      PathAt(Next(s, acts[0]), acts[1..], k - 1);
      assert acts[..k][1..] == acts[1..][..k - 1];
    }
  }

  lemma {:induction false} AfterConcat(s: Sys, a: seq<Action>, b: seq<Action>)
    ensures After(s, a + b) == After(After(s, a), b)
    decreases |a|
  {
    hide Next;
    if a == [] {
      assert a + b == b;
    } else {
      assert (a + b)[1..] == a[1..] + b;
      AfterConcat(Next(s, a[0]), a[1..], b);
    }
  }

  lemma PathIsRun(runId: string, acts: seq<Action>)
    ensures IsRun(Path(Initial(runId), acts), acts)
  {
    hide Next, Initial;
    var states := Path(Initial(runId), acts);
    forall i | 0 <= i < |acts| ensures states[i + 1] == Next(states[i], acts[i]) {
      PathAt(Initial(runId), acts, i);
      PathAt(Initial(runId), acts, i + 1);
      assert acts[..i + 1] == acts[..i] + [acts[i]];
      AfterConcat(Initial(runId), acts[..i], [acts[i]]);
      AfterOne(After(Initial(runId), acts[..i]), acts[i]);
    }
  }

  lemma AfterOne(s: Sys, a: Action)
    ensures After(s, [a]) == Next(s, a)
  {
    hide Next;
    assert [a][1..] == [];
  }

  // ---------- one whole operation without a failure ----------

  function Smooth(n: nat): seq<Io> { seq(n, _ => Good) }

  /** Primitives before the rename, and in all. */
  function Lead(op: Op): nat { if op.Stop? then 5 else 3 }

  function Whole(op: Op): nat { if op.Stop? then 10 else 6 }

  function Perform(id: nat, op: Op): seq<Action> {
    [Call(id, op)] + Primitives(id, Smooth(Whole(op))) + [Return(id)]
  }

  lemma {:induction false} RunOn(m: Machine, n: nat)
    requires Running(m.pc) && n > 0
    ensures Run(m, Smooth(n)) == Run(Advance(m, Good), Smooth(n - 1))
  {
    hide Advance;
    assert Smooth(n)[1..] == Smooth(n - 1);
  }

  /** An operation with a plan reaches its rename, and ends with the planned state on disk. */
  lemma WritesThrough(f: Files, cache: State, op: Op, next: State)
    requires Loadable(f) && PlanOf(op, f.state.value) == Write(next) && Valid(next) && !BadArguments(op)
    ensures var mid := Run(Machine(f, cache, Begun(op)), Smooth(Lead(op)));
            mid.pc == Replacing(op, next) && mid.files.state == f.state && mid.cache == f.state.value
    ensures Run(Machine(f, cache, Begun(op)), Smooth(Whole(op)))
            == Machine(f.(state := Some(next)), next, Finished(true))
  {
    hide PlanOf, Valid;
    var m := Machine(f, cache, Begun(op));
    var armed := if op.Stop? then f.(transition := true) else f;
    var opening := Machine(armed, f.state.value, Opening(op, next));
    RunOn(m, Lead(op));
    RunOn(m, Whole(op));
    if op.Stop? {
      RunOn(Advance(m, Good), 4);
      RunOn(Advance(m, Good), 9);
      var flushing := Machine(armed, f.state.value, Flushing(op, next));
      RunOn(flushing, 3);
      RunOn(flushing, 8);
    }
    FromOpening(opening, op, next);
  }

  /** From the opening of the pending file: two primitives to the rename, then the rest. */
  lemma FromOpening(m: Machine, op: Op, next: State)
    requires m.pc == Opening(op, next) && Valid(next) && !m.files.pending && m.files.transition == op.Stop?
    ensures var mid := Run(m, Smooth(2));
            mid.pc == Replacing(op, next) && mid.files.state == m.files.state && mid.cache == m.cache
    ensures Run(m, Smooth(if op.Stop? then 7 else 5))
            == Machine(m.files.(state := Some(next), transition := false), next, Finished(true))
  {
    hide Valid;
    var last := if op.Stop? then 7 else 5;
    var writing := Advance(m, Good);
    var replacing := Advance(writing, Good);
    RunOn(m, 2);
    RunOn(writing, 1);
    RunOn(m, last);
    RunOn(writing, last - 1);
    FromRename(replacing, op, next);
  }

  lemma FromRename(m: Machine, op: Op, next: State)
    requires m.pc == Replacing(op, next) && m.files.pending && m.files.transition == op.Stop?
    ensures Run(m, Smooth(if op.Stop? then 5 else 3))
            == Machine(m.files.(state := Some(next), pending := false, transition := false), next, Finished(true))
  {
    var last := if op.Stop? then 5 else 3;
    var renamed := m.files.(state := Some(next), pending := false);
    var syncing := Machine(renamed, m.cache, Syncing(op, next));
    var checking := Machine(renamed, m.cache, Checking(op, next));
    RunOn(m, last);
    RunOn(syncing, last - 1);
    RunOn(checking, last - 2);
    if op.Stop? {
      RunOn(Machine(renamed, next, Clearing), 2);
      RunOn(Machine(renamed.(transition := false), next, ClearSyncing), 1);
    }
  }

  /** Nobody holds the lock, and controller `id` may start. */
  predicate Ready(s: Sys, id: nat) {
    s.lock == None && id in s.ctls && s.ctls[id].pc == Idle && s.ctls[id].depth == 0 && Loadable(s.files)
  }

  function Settled(s: Sys, id: nat, next: State): Sys {
    s.(files := s.files.(state := Some(next)), ctls := s.ctls[id := Ctl(next, 0, Idle)])
  }

  lemma Performs(s: Sys, id: nat, op: Op, next: State)
    requires Ready(s, id) && PlanOf(op, s.files.state.value) == Write(next) && Valid(next) && !BadArguments(op)
    ensures After(s, Perform(id, op)) == Settled(s, id, next)
    ensures var mid := After(s, Perform(id, op)[..1 + Lead(op)]);
            && mid.lock == Some(id) && id in mid.ctls && mid.ctls[id].pc == Replacing(op, next)
            && mid.files.state == s.files.state
    ensures Perform(id, op)[1 + Lead(op)] == Primitive(id, Good)
  {
    hide Advance, PlanOf, Valid, Run;
    var called := Next(s, Call(id, op));
    AfterOne(s, Call(id, op));
    WritesThrough(s.files, s.ctls[id].cache, op, next);
    var all, lead := Primitives(id, Smooth(Whole(op))), Primitives(id, Smooth(Lead(op)));
    AfterConcat(s, [Call(id, op)], lead);
    ScriptIsSteps(called, id, Smooth(Lead(op)));
    assert Perform(id, op)[..1 + Lead(op)] == [Call(id, op)] + lead;
    AfterConcat(s, [Call(id, op)], all);
    ScriptIsSteps(called, id, Smooth(Whole(op)));
    AfterConcat(s, [Call(id, op)] + all, [Return(id)]);
    var done := After(called, all);
    AfterOne(done, Return(id));
    assert done.ctls[id] == Ctl(next, 1, Finished(true));
    assert Next(done, Return(id)).ctls == s.ctls[id := Ctl(next, 0, Idle)];
  }

  // ---------- what a whole operation does, and when ----------

  lemma ChangesValid(op: Op, v: State, w: State)
    requires Valid(v) && Changes(op, v, w)
    ensures Valid(w) && !BadArguments(op) && PlanOf(op, v) == Write(w)
  {
    PlanChanges(op, v);
  }

  /** An operation that decides against a change ends at its load and leaves the files. */
  lemma EndsAtLoad(f: Files, cache: State, op: Op)
    requires Loadable(f) && !PlanOf(op, f.state.value).Write?
    ensures var end := Run(Machine(f, cache, Begun(op)), Smooth(Whole(op)));
            && end.files == f
            && end.pc == Finished(!BadArguments(op) && PlanOf(op, f.state.value).Keep?)
  {
    hide PlanOf, Valid;
    RunOn(Machine(f, cache, Begun(op)), Whole(op));
  }

  /** Without a failure, an operation changes the durable state exactly where the fields allow it, and into the one
      state they prescribe; it returns exactly there, and for a stop over a latch. */
  lemma OperationMeans(s: Sys, id: nat, op: Op)
    requires Ready(s, id)
    ensures s.files.state.Some?
    ensures var v, after := s.files.state.value, After(s, Perform(id, op)).files;
            && (forall w :: Changes(op, v, w) ==> after.state == Some(w))
            && ((forall w :: !Changes(op, v, w)) ==> after == s.files)
    ensures var v := s.files.state.value;
            Run(Machine(s.files, s.ctls[id].cache, Begun(op)), Smooth(Whole(op))).pc
            == Finished((exists w :: Changes(op, v, w)) || (op.Stop? && op.reason.Some? && v.mode == STOP_LATCHED))
  {
    hide Advance, PlanOf, Valid, Run, Changes, Perform;
    ReadyState(s, id);
    var v := s.files.state.value;
    PlanChanges(op, v);
    if PlanOf(op, v).Write? {
      var w := PlanOf(op, v).next;
      ReadyValid(s, id);
      ChangesValid(op, v, w);
      Performs(s, id, op, w);
      WritesThrough(s.files, s.ctls[id].cache, op, w);
      assert forall u :: Changes(op, v, u) ==> u == w;
    } else {
      KeepsOverLatch(op, v);
      EndsAtLoad(s.files, s.ctls[id].cache, op);
      RefusedLeaves(s, id, op);
    }
  }

  lemma ReadyValid(s: Sys, id: nat)
    requires Ready(s, id)
    ensures s.files.state.Some? && Valid(s.files.state.value)
  {
  }

  lemma KeepsOverLatch(op: Op, v: State)
    requires !PlanOf(op, v).Write?
    ensures !BadArguments(op) && PlanOf(op, v).Keep? <==> op.Stop? && op.reason.Some? && v.mode == STOP_LATCHED
  {
  }

  lemma RefusedLeaves(s: Sys, id: nat, op: Op)
    requires Ready(s, id)
    requires var end := Run(Machine(s.files, s.ctls[id].cache, Begun(op)), Smooth(Whole(op)));
             end.files == s.files && end.pc.Finished?
    ensures After(s, Perform(id, op)).files == s.files
  {
    hide Advance, Run, Loadable;
    var called := Next(s, Call(id, op));
    var all := Primitives(id, Smooth(Whole(op)));
    AfterOne(s, Call(id, op));
    AfterConcat(s, [Call(id, op)], all);
    ScriptIsSteps(called, id, Smooth(Whole(op)));
    AfterConcat(s, [Call(id, op)] + all, [Return(id)]);
    AfterOne(After(called, all), Return(id));
  }

  ghost predicate CommitsAt(states: seq<Sys>, acts: seq<Action>, k: nat, id: nat, op: Op, before: State) {
    && k < |acts| && |states| == |acts| + 1 && acts[k] == Primitive(id, Good)
    && Inv(states[k]) && Commits(states[k], acts[k], op) && Durable(states[k]) == before
  }

  /** One more operation in a run: where it commits, and what it leaves. */
  lemma Extend(runId: string, acts: seq<Action>, id: nat, op: Op, next: State, rest: seq<Action>)
    requires var s := After(Initial(runId), acts);
             Ready(s, id) && PlanOf(op, s.files.state.value) == Write(next) && Valid(next) && !BadArguments(op)
    ensures var s := After(Initial(runId), acts);
            var all := acts + Perform(id, op) + rest;
            && After(Initial(runId), acts + Perform(id, op)) == Settled(s, id, next)
            && CommitsAt(Path(Initial(runId), all), all, |acts| + 1 + Lead(op), id, op, s.files.state.value)
  {
    hide Next, PlanOf, Valid, Perform, Ready, Settled, Initial;
    ReadyState(After(Initial(runId), acts), id);
    var start := Initial(runId);
    var s := After(start, acts);
    var steps := Perform(id, op);
    var all := acts + steps + rest;
    var k := |acts| + 1 + Lead(op);
    PerformLength(id, op);
    Performs(s, id, op, next);
    AfterConcat(start, acts, steps);
    assert all[..k] == acts + steps[..1 + Lead(op)];
    AfterConcat(start, acts, steps[..1 + Lead(op)]);
    assert all[k] == steps[1 + Lead(op)];
    PathAt(start, all, k);
    PathIsRun(runId, all);
    RunInv(Path(start, all), all, k);
    RenameCommits(Path(start, all)[k], id, op, next);
  }

  lemma ReadyState(s: Sys, id: nat)
    requires Ready(s, id)
    ensures s.files.state.Some?
  {
  }

  lemma PerformLength(id: nat, op: Op)
    ensures |Perform(id, op)| == Whole(op) + 2
  {
  }

  lemma RenameCommits(s: Sys, id: nat, op: Op, next: State)
    requires Inv(s) && s.lock == Some(id) && id in s.ctls && s.ctls[id].pc == Replacing(op, next)
    ensures Commits(s, Primitive(id, Good), op)
  {
    hide PlanOf, StoreInv;
  }

  /** So after any beginning of a run, an operation that the fields allow commits: a reset in particular, with its
      evidence. */
  lemma ChangeCommits(runId: string, acts: seq<Action>, id: nat, op: Op, w: State, rest: seq<Action>)
    requires Ready(After(Initial(runId), acts), id)
    requires var s := After(Initial(runId), acts); s.files.state.Some? && Changes(op, s.files.state.value, w)
    ensures var s, all := After(Initial(runId), acts), acts + Perform(id, op) + rest;
            && CommitsAt(Path(Initial(runId), all), all, |acts| + 1 + Lead(op), id, op, s.files.state.value)
            && After(Initial(runId), acts + Perform(id, op)).files.state == Some(w)
  {
    hide Next, PlanOf, Valid, Perform, Initial, Changes, CommitsAt;
    var s := After(Initial(runId), acts);
    ReadyValid(s, id);
    ChangesValid(op, s.files.state.value, w);
    Extend(runId, acts, id, op, w, rest);
  }

  // ---------- the late bind ----------

  /** Two controllers have opened the store. */
  lemma OpenedReady(runId: string)
    ensures var s := After(Initial(runId), [Open(0, Good), Open(1, Good)]);
            Ready(s, 0) && Ready(s, 1) && s.files.state == Some(Created(runId))
  {
    var start := Initial(runId);
    var one := Next(start, Open(0, Good));
    AfterConcat(start, [Open(0, Good)], [Open(1, Good)]);
    AfterOne(start, Open(0, Good));
    AfterOne(one, Open(1, Good));
    assert [Open(0, Good)] + [Open(1, Good)] == [Open(0, Good), Open(1, Good)];
  }

  lemma StillReady(s: Sys, id: nat, next: State, other: nat)
    requires Ready(s, id) && Ready(s, other) && Valid(next)
    ensures Ready(Settled(s, id, next), id) && Ready(Settled(s, id, next), other)
    ensures Settled(s, id, next).files.state == Some(next)
  {
    hide Valid;
  }

  /** The states the six operations go through. */
  function Chain(runId: string, pid: int, pgid: int): (states: seq<State>)
    ensures |states| == 7 && states[0] == Created(runId)
  {
    var s := Created(runId);
    var reserved := s.(activePid := Some(0), activePgid := Some(0), sequence := 1);
    var stopped := reserved.(mode := STOP_LATCHED, reason := Some(FORCED_STOP), sequence := 2);
    var cleared := stopped.(activePid := None, activePgid := None, sequence := 3);
    var reopened := cleared.(generation := 2, mode := OPEN, reason := None, sequence := 4);
    var again := reopened.(activePid := Some(0), activePgid := Some(0), sequence := 5);
    [s, reserved, stopped, cleared, reopened, again, again.(activePid := Some(pid), activePgid := Some(pgid))]
  }

  /** What controller 0, the launcher, and controller 1 do in turn. */
  function Turn(k: nat, pid: int, pgid: int): (nat, Op) {
    if k == 0 then (0, Reserve)
    else if k == 1 then (1, Stop(Some(FORCED_STOP)))
    else if k == 2 then (1, Clear)
    else if k == 3 then (1, Reset(true, None, false))
    else if k == 4 then (1, Reserve)
    else (0, Bind(pid, pgid))
  }

  lemma TurnPlans(runId: string, k: nat, pid: int, pgid: int)
    requires k < 6 && pid > 0 && pgid > 0
    ensures var states, (id, op) := Chain(runId, pid, pgid), Turn(k, pid, pgid);
            PlanOf(op, states[k]) == Write(states[k + 1]) && Valid(states[k + 1]) && !BadArguments(op)
  {
  }

  function Turns(k: nat, pid: int, pgid: int): seq<Action> {
    if k == 0 then [Open(0, Good), Open(1, Good)]
    else Turns(k - 1, pid, pgid) + Perform(Turn(k - 1, pid, pgid).0, Turn(k - 1, pid, pgid).1)
  }

  /** Where turn `k` commits. */
  function CommitOf(k: nat, pid: int, pgid: int): nat {
    |Turns(k, pid, pgid)| + 1 + Lead(Turn(k, pid, pgid).1)
  }

  lemma {:induction false} AfterTurns(runId: string, k: nat, pid: int, pgid: int)
    requires k <= 6 && pid > 0 && pgid > 0
    ensures var s := After(Initial(runId), Turns(k, pid, pgid));
            Ready(s, 0) && Ready(s, 1) && s.files.state == Some(Chain(runId, pid, pgid)[k])
  {
    hide Ready, Settled, Chain, Initial, Perform, PlanOf, Valid, Next;
    if k == 0 {
      OpenedReady(runId);
    } else {
      AfterTurns(runId, k - 1, pid, pgid);
      TurnPlans(runId, k - 1, pid, pgid);
      var before := After(Initial(runId), Turns(k - 1, pid, pgid));
      var (id, op) := Turn(k - 1, pid, pgid);
      var next := Chain(runId, pid, pgid)[k];
      ReadyState(before, id);
      Extend(runId, Turns(k - 1, pid, pgid), id, op, next, []);
      StillReady(before, id, next, 0);
      StillReady(before, id, next, 1);
    }
  }

  /** Every turn up to the last commits within the whole run. */
  lemma {:induction false} TurnCommits(runId: string, k: nat, n: nat, pid: int, pgid: int, rest: seq<Action>)
    requires k < n <= 6 && pid > 0 && pgid > 0
    ensures var all := Turns(n, pid, pgid) + rest;
            CommitsAt(Path(Initial(runId), all), all, CommitOf(k, pid, pgid),
                      Turn(k, pid, pgid).0, Turn(k, pid, pgid).1, Chain(runId, pid, pgid)[k])
    decreases n
  {
    hide Ready, Chain, Initial, Perform, PlanOf, Valid, Next, CommitsAt;
    var last := Perform(Turn(n - 1, pid, pgid).0, Turn(n - 1, pid, pgid).1);
    assert Turns(n, pid, pgid) + rest == Turns(n - 1, pid, pgid) + last + rest;
    if k == n - 1 {
      AfterTurns(runId, k, pid, pgid);
      TurnPlans(runId, k, pid, pgid);
      ReadyState(After(Initial(runId), Turns(k, pid, pgid)), 0);
      Extend(runId, Turns(k, pid, pgid), Turn(k, pid, pgid).0, Turn(k, pid, pgid).1,
             Chain(runId, pid, pgid)[k + 1], rest);
    } else {
      assert Turns(n - 1, pid, pgid) + last + rest == Turns(n - 1, pid, pgid) + (last + rest);
      TurnCommits(runId, k, n - 1, pid, pgid, last + rest);
    }
  }

  lemma {:induction false} CommitsInOrder(k: nat, j: nat, pid: int, pgid: int)
    requires k < j < 6
    ensures CommitOf(k, pid, pgid) < CommitOf(j, pid, pgid)
    decreases j
  {
    hide Perform;
    PerformLength(Turn(j - 1, pid, pgid).0, Turn(j - 1, pid, pgid).1);
    if k < j - 1 { CommitsInOrder(k, j - 1, pid, pgid); }
  }

  /** `mark_active` names no generation.  Controller 0 reserves generation 1 and lets the lock go; controller
      1 stops it, clears it, resets and reserves generation 2; then controller 0 binds, and the process of
      the launch that was cleared is bound to generation 2.  Lock, markers and loads let every step through. */
  lemma LateBindCrossesGenerations(runId: string, pid: int, pgid: int)
    returns (states: seq<Sys>, acts: seq<Action>, i: nat, m: nat, j: nat)
    requires pid > 0 && pgid > 0
    ensures IsRun(states, acts) && i < m < j < |acts|
    ensures acts[i] == Primitive(0, Good) && Reserves(states[i], acts[i]) && Durable(states[i]).generation == 1
    ensures Inv(states[m]) && Commits(states[m], acts[m], Clear) && Durable(states[m]).generation == 1
    ensures acts[j] == Primitive(0, Good) && Inv(states[j]) && Commits(states[j], acts[j], Bind(pid, pgid))
    ensures Durable(states[j]).generation == 2
  {
    hide Path, Initial, Turns, Inv, Commits, Durable, CommitOf;
    acts := Turns(6, pid, pgid) + [];
    states := Path(Initial(runId), acts);
    PathIsRun(runId, acts);
    TurnCommits(runId, 0, 6, pid, pgid, []);
    TurnCommits(runId, 2, 6, pid, pgid, []);
    TurnCommits(runId, 5, 6, pid, pgid, []);
    i, m, j := CommitOf(0, pid, pgid), CommitOf(2, pid, pgid), CommitOf(5, pid, pgid);
    CommitsInOrder(0, 2, pid, pgid);
    CommitsInOrder(2, 5, pid, pgid);
  }
}
