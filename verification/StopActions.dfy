/** Which action made each step of a launch chain: commands by name, adapter calls and observations. */
module StopActions {
  import opened Json
  import opened StopStorage
  import opened HumanStop
  import opened StopLaws
  import opened StopRuns
  import opened StopTheorems

  /** The step is an admitted command `op` on allocation `k`, decided OK. */
  ghost predicate Orders(s: Sys, a: Action, k: Key, op: Op) {
    && a.Commanded? && s.ctl.Some? && Decode(a.principal, a.event).Some?
    && var c := Decode(a.principal, a.event).value;
       && Admitted(s, a, c) && c.key == k && c.op == op && VerdictOn(LiveAt(s), c).result == OK
       && (a.principal == Text("human") || (op == Start && a.principal == Text("scheduler")))
  }

  // ---------- the row ----------

  lemma ReplacedRow(s: Sys, a: Action, k: Key)
    requires Inv(s) && s.ctl.Some? && a.Replaced?
    ensures var v, w := ViewOf(s, k).row, ViewOf(Next(s, a), k).row;
            w == v || (!v.latched && w == FreshAllocation(v.generation + 1))
  {
    hide Inv, ViewOf, Replace, FreshAllocation;
    ReplaceEffect(LiveAt(s), a.key, a.fault, k);
  }

  /** What a decided command does to the flags of its row. */
  lemma VerdictFlags(l: Live, c: Cmd)
    requires VerdictOn(l, c).Decided?
    ensures var v, w := l.mem.allocations[c.key], VerdictOn(l, c);
            && (!v.latched && w.row.latched ==> c.op == Stop && w.result == OK)
            && (v.latched && !w.row.latched ==> c.op == Reset && w.result == OK)
            && (!v.approved && w.row.approved ==> c.op == Approve && w.result == OK)
  {
    hide Audited, Sighted;
    forall row: Allocation, op: Op, result: Result
      ensures row == Audited(row, op, result).(audit := row.audit, dropped := row.dropped)
    {
      AuditedKeeps(row, op, result);
    }
  }

  /** The three changes of flags, each with the order that makes it. */
  ghost predicate FlagsOrdered(s: Sys, a: Action, k: Key, v: Allocation, w: Allocation) {
    && (!v.latched && w.latched ==> Orders(s, a, k, Stop))
    && (v.latched && !w.latched ==> Orders(s, a, k, Reset))
    && (!v.approved && w.approved ==> Orders(s, a, k, Approve))
  }

  /** Only the human and, for a start, the scheduler pass every refusal. */
  lemma AdmittedBy(s: Sys, a: Action, c: Cmd)
    requires Admitted(s, a, c)
    ensures a.principal == Text("human") || (c.op == Start && a.principal == Text("scheduler"))
  {
    hide VerdictOn;
  }

  lemma AdmittedFlags(s: Sys, a: Action, k: Key, c: Cmd)
    requires Inv(s) && Admitted(s, a, c) && c.key == k
    ensures FlagsOrdered(s, a, k, ViewOf(s, k).row, VerdictOn(LiveAt(s), c).row)
  {
    hide Inv, Decode, VerdictOn, ViewOf;
    LiveSynced(LiveAt(s));
    ViewIs(LiveAt(s), k);
    VerdictFlags(LiveAt(s), c);
    AdmittedBy(s, a, c);
  }

  /** A latch closes by a human stop, opens by a human reset, and an approval is made by a human approve. */
  lemma FlagSteps(s: Sys, a: Action, k: Key)
    requires Inv(s)
    ensures FlagsOrdered(s, a, k, ViewOf(s, k).row, ViewOf(Next(s, a), k).row)
  {
    hide Inv, Next, Decode, VerdictOn, ViewOf, FreshAllocation, Orders, Admitted;
    RowStep(s, a, k);
    FreshFlags(ViewOf(s, k).row.generation + 1);
    if s.ctl.None? { NoController(s, a, k); return; }
    if a.Replaced? { ReplacedRow(s, a, k); }
    if a.Commanded? && Decode(a.principal, a.event).Some? && Admitted(s, a, Decode(a.principal, a.event).value) {
      var c := Decode(a.principal, a.event).value;
      if c.key == k { AdmittedFlags(s, a, k, c); }
    }
  }

  lemma FreshFlags(generation: int)
    ensures !FreshAllocation(generation).latched && !FreshAllocation(generation).approved
  {
  }

  lemma NoController(s: Sys, a: Action, k: Key)
    requires s.ctl.None?
    ensures ViewOf(Next(s, a), k).row == ViewOf(s, k).row
  {
    hide Durable, Reopen, Advance, Affect;
    if a.Advanced? && Advance(s.world, a.ticks).Some? { AdvanceFrame(s.world, a.ticks); }
  }

  // ---------- execution ----------

  lemma CommitWorld(l: Live, records: Records, fault: Fault)
    ensures Commit(l, records, fault).0.world == l.world
  {
    hide Persist;
  }

  lemma CommandExec(l: Live, c: Cmd, fault: Fault, k: Key)
    ensures var e, f := l.world.execs[k], Outcome(Execute(l, c, fault)).world.execs[k];
            || f == e
            || (f == Launched(e) && c.key == k && c.op == Start && Refusal(l.mem, c).None?
                && VerdictOn(l, c).Decided? && VerdictOn(l, c).result == OK)
  {
    hide Commit, Judge, Sighted, Launched, Refusal;
    if Refusal(l.mem, c).None? && VerdictOn(l, c).Decided? {
      CommitWorld(l, Put(l.mem.allocations, c.key, VerdictOn(l, c).row), fault);
    }
  }

  lemma ReplaceExec(l: Live, key: Key, fault: Fault, k: Key)
    ensures var e, f := l.world.execs[k], Replace(l, key, fault).0.world.execs[k];
            f == e || (!Executing(e) && !Executing(f))
  {
    hide Commit;
    CommitWorld(l, Put(l.mem.allocations, key, FreshAllocation(l.mem.allocations[key].generation + 1)), fault);
  }

  lemma ControlExec(l: Live, key: Key, available: bool, fault: Fault)
    ensures SetControl(l, key, available, fault).0.world == l.world
  {
    hide Commit;
    CommitWorld(Forget(l, key), Put(l.mem.allocations, key,
                l.mem.allocations[key].(control := available, approved := false)), fault);
  }

  /** The step starts `k`: the row had approval and control and no latch, and is of the generation that stood idle. */
  ghost predicate Launches(s: Sys, a: Action, k: Key) {
    && Orders(s, a, k, Start)
    && var row, exec := s.ctl.value.allocations[k], s.world.execs[k];
       && row.approved && row.control && !row.latched && row.generation == exec.generation
       && !exec.running && !exec.remoteRunning
  }

  /** The step is an adapter call on `k` that works: under a latch, with control, and for the generation that runs. */
  ghost predicate Stops(s: Sys, a: Action, k: Key) {
    && a.Adapted? && a.key == k && !a.fail && s.ctl.Some? && s.ctl.value.storageOk
    && var row := s.ctl.value.allocations[k];
       row.latched && row.control && row.generation == s.world.execs[k].generation
  }

  /** What a start found. */
  lemma StartFound(l: Live, c: Cmd)
    requires c.op == Start && VerdictOn(l, c).Decided? && VerdictOn(l, c).result == OK
    ensures var row, exec := l.mem.allocations[c.key], l.world.execs[c.key];
            && row.approved && row.control && !row.latched && row.generation == exec.generation
            && !exec.running && !exec.remoteRunning
  {
    hide Audited, Sighted;
  }

  /** Execution begins by a start, and ends by an adapter call. */
  lemma ExecSteps(s: Sys, a: Action, k: Key)
    ensures var e, f := s.world.execs[k], Next(s, a).world.execs[k];
            && (!e.running && f.running ==> Launches(s, a, k))
            && (e.running && !f.running ==> Stops(s, a, k))
            && (e.remoteRunning && !f.remoteRunning ==> Stops(s, a, k) && a.cancelRemote)
  {
    hide Execute, SetControl, Replace, Reopen, Affect, Advance, Decode, VerdictOn, Refusal;
    match a
    case Advanced(ticks) => if Advance(s.world, ticks).Some? { AdvanceFrame(s.world, ticks); }
    case Affected(key, kind) => if Affect(s.world, key, kind).Some? { AffectFrame(s.world, key, kind, k); }
    case Crashing =>
    case Reloading =>
    case Commanded(principal, event, fault) =>
      if s.ctl.Some? && Decode(principal, event).Some? {
        var c := Decode(principal, event).value;
        CommandExec(LiveAt(s), c, fault, k);
        if Admitted(s, a, c) {
          AdmittedBy(s, a, c);
          if c.op == Start && VerdictOn(LiveAt(s), c).result == OK { StartFound(LiveAt(s), c); }
        }
      }
    case ControlSet(key, available, fault) => if s.ctl.Some? { ControlExec(LiveAt(s), key, available, fault); }
    case Replaced(key, fault) => if s.ctl.Some? { ReplaceExec(LiveAt(s), key, fault, k); }
    case Adapted(_, _, _) =>
    case Watched(_, _) =>
  }

  // ---------- what is seen ----------

  ghost function Seen(s: Sys, k: Key): Option<Observation> {
    if s.ctl.Some? && k in s.ctl.value.observations then Some(s.ctl.value.observations[k]) else None
  }

  lemma CommitSees(l: Live, records: Records, fault: Fault)
    ensures Commit(l, records, fault).0.mem.observations in {l.mem.observations, map[]}
  {
    hide Persist;
  }

  lemma CommandSees(l: Live, c: Cmd, fault: Fault, k: Key)
    ensures Seen(Outcome(Execute(l, c, fault)), k) in {Seen(Surviving(l), k), None}
  {
    hide Commit, Judge, Sighted, Launched, Refusal;
    if Refusal(l.mem, c).None? && VerdictOn(l, c).Decided? {
      CommitSees(l, Put(l.mem.allocations, c.key, VerdictOn(l, c).row), fault);
    }
  }

  lemma ReplaceSees(l: Live, key: Key, fault: Fault, k: Key)
    ensures var (n, stored) := Replace(l, key, fault);
            Seen(Settle(n, stored), k) in {Seen(Surviving(l), k), None}
  {
    hide Commit;
    CommitSees(l, Put(l.mem.allocations, key, FreshAllocation(l.mem.allocations[key].generation + 1)), fault);
  }

  lemma ControlSees(l: Live, key: Key, available: bool, fault: Fault, k: Key)
    ensures var (n, stored) := SetControl(l, key, available, fault);
            Seen(Settle(n, stored), k) in {Seen(Surviving(l), k), None}
  {
    hide Commit;
    CommitSees(Forget(l, key), Put(l.mem.allocations, key,
               l.mem.allocations[key].(control := available, approved := false)), fault);
  }

  /** The step samples `k`, with control, and notes the scope of the row and the time. */
  ghost predicate Samples(s: Sys, a: Action, k: Key, o: Observation) {
    && a == Watched(k, false) && s.ctl.Some? && s.ctl.value.storageOk
    && var row, exec := s.ctl.value.allocations[k], s.world.execs[k];
       && row.control && row.generation == exec.generation
       && o == Observation(row.generation, row.epoch, s.world.tick, exec.revision,
                           if exec.running || exec.remoteRunning then RUNNING else VERIFIED_STOPPED)
  }

  /** A new observation comes from `observe`. */
  lemma SeenSteps(s: Sys, a: Action, k: Key)
    ensures Seen(Next(s, a), k).Some? && Seen(Next(s, a), k) != Seen(s, k) ==>
              Samples(s, a, k, Seen(Next(s, a), k).value)
  {
    hide Execute, SetControl, Replace, Affect, Advance, Decode, Load;
    match a
    case Commanded(principal, event, fault) =>
      if s.ctl.Some? && Decode(principal, event).Some? {
        CommandSees(LiveAt(s), Decode(principal, event).value, fault, k);
      }
    case ControlSet(key, available, fault) => if s.ctl.Some? { ControlSees(LiveAt(s), key, available, fault, k); }
    case Replaced(key, fault) => if s.ctl.Some? { ReplaceSees(LiveAt(s), key, fault, k); }
    case _ =>
  }

  // ---------- the chain ----------

  /** The actions of a launch chain. */
  ghost predicate Acted(states: seq<Sys>, acts: seq<Action>, k: Key, i: nat, j: nat, c: Chain)
    requires i < c.stop < c.local <= c.remote < c.seen < c.reset < c.approve < j < |acts| <= |states|
  {
    && Launches(states[i], acts[i], k)
    && Orders(states[c.stop], acts[c.stop], k, Stop)
    && Stops(states[c.local], acts[c.local], k)
    && Stops(states[c.remote], acts[c.remote], k) && acts[c.remote].cancelRemote
    && (exists o :: Samples(states[c.seen], acts[c.seen], k, o))
    && Orders(states[c.reset], acts[c.reset], k, Reset)
    && Orders(states[c.approve], acts[c.approve], k, Approve)
    && Launches(states[j], acts[j], k)
  }

  lemma ViewParts(s: Sys, k: Key)
    ensures ViewOf(s, k).exec == s.world.execs[k] && ViewOf(s, k).seen == Seen(s, k)
  {
    hide Durable;
  }

  /** What one step of a run can have done, by the action that made it. */
  lemma StepActions(states: seq<Sys>, acts: seq<Action>, k: Key, n: nat)
    requires Run(states, acts) && n < |acts|
    ensures n + 1 < |states| == |Views(states, k)|
    ensures var v, w := Views(states, k)[n], Views(states, k)[n + 1];
            && (!v.row.latched && w.row.latched ==> Orders(states[n], acts[n], k, Stop))
            && (v.row.latched && !w.row.latched ==> Orders(states[n], acts[n], k, Reset))
            && (!v.row.approved && w.row.approved ==> Orders(states[n], acts[n], k, Approve))
            && (!v.exec.running && w.exec.running ==> Launches(states[n], acts[n], k))
            && (v.exec.running && !w.exec.running ==> Stops(states[n], acts[n], k))
            && (v.exec.remoteRunning && !w.exec.remoteRunning ==> Stops(states[n], acts[n], k) && acts[n].cancelRemote)
            && (w.seen.Some? && w.seen != v.seen ==> Samples(states[n], acts[n], k, w.seen.value))
  {
    hide Inv, Next, ViewOf, Orders, Seen, Launches, Stops, Samples;
    RunAt(states, acts, n);
    RunInv(states, acts, n);
    FlagSteps(states[n], acts[n], k);
    ExecSteps(states[n], acts[n], k);
    SeenSteps(states[n], acts[n], k);
    ViewParts(states[n], k);
    ViewParts(states[n + 1], k);
  }

  lemma RunLength(states: seq<Sys>, acts: seq<Action>)
    requires Run(states, acts)
    ensures |states| == |acts| + 1
  {
    hide Next, Start0;
  }

  /** Launch discipline by actions: between two starts of an allocation come, in order, a human stop, adapter
      calls that end local and then remote execution, an observation that verifies the stop at the epoch of
      that stop, a human reset and a human approve, and each of them did what it is there for. */
  lemma LaunchDisciplineByActions(states: seq<Sys>, acts: seq<Action>, k: Key, i: nat, j: nat) returns (c: Chain)
    requires Run(states, acts) && i < j
    requires LaunchAt(Views(states, k), i) && LaunchAt(Views(states, k), j)
    ensures Disciplined(Views(states, k), i, j, c)
    ensures j < |acts| < |states| && Acted(states, acts, k, i, j, c)
  {
    hide Run, Orders, ViewOf, Launches, Stops, Samples;
    RunLength(states, acts);
    c := LaunchDiscipline(states, acts, k, i, j);
    StepActions(states, acts, k, i);
    StepActions(states, acts, k, c.stop);
    StepActions(states, acts, k, c.local);
    StepActions(states, acts, k, c.remote);
    StepActions(states, acts, k, c.seen);
    StepActions(states, acts, k, c.reset);
    StepActions(states, acts, k, c.approve);
    StepActions(states, acts, k, j);
  }

  // ---------- the age of what is reported ----------

  /** What `status` reports of an allocation was sampled at most five ticks before, at the same scope and by a
      controller that had control then, as the reporting one has now. */
  lemma StatusIsFresh(states: seq<Sys>, acts: seq<Action>, i: nat, k: Key) returns (n: nat)
    requires Run(states, acts) && i < |states| && states[i].ctl.Some?
    requires Status(LiveAt(states[i]), k).observed != UNKNOWN
    ensures n < i && n < |acts| && acts[n] == Watched(k, false)
    ensures 0 <= states[i].world.tick - states[n].world.tick <= 5
    ensures var row, back := states[i].ctl.value.allocations[k], ViewOf(states[n], k).row;
            && row.control && back.control
            && row.generation == back.generation == states[i].world.execs[k].generation && row.epoch == back.epoch
  {
    hide Run, Inv, Durable, ViewOf, Next;
    var vs := Views(states, k);
    RunLength(states, acts);
    SightedSees(LiveAt(states[i]), k);
    NothingSeenFirst(states, acts, k);
    ViewParts(states[i], k);
    var o := vs[i].seen;
    n := LastRise(vs, (v: View) => v.seen == o, 0, i);
    StepActions(states, acts, k, n);
    RunInv(states, acts, n);
    LiveSynced(LiveAt(states[n]));
    ViewIs(LiveAt(states[n]), k);
  }

  lemma SightedSees(l: Live, k: Key)
    requires Sighted(l, k) != UNKNOWN
    ensures k in l.mem.observations
    ensures var o, row := l.mem.observations[k], l.mem.allocations[k];
            && o.generation == row.generation == l.world.execs[k].generation && o.epoch == row.epoch && row.control
            && 0 <= l.world.tick - o.tick <= 5
  {
  }

  lemma NothingSeenFirst(states: seq<Sys>, acts: seq<Action>, k: Key)
    requires Run(states, acts)
    ensures |states| > 0 && Views(states, k)[0].seen.None?
  {
    hide Durable, Encode;
  }
}
