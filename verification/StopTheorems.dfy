/** What holds in every run of the human-stop system: observations that tell the truth, fences
    that admit each command at most once, writes that fail cleanly, and an exact audit trail. */
module StopTheorems {
  import opened Json
  import opened Arithmetic
  import opened StopStorage
  import opened HumanStop
  import opened StopLaws
  import opened StopRuns

  ghost function LiveAt(s: Sys): Live
    requires s.ctl.Some?
  {
    Live(s.disk, s.world, s.ctl.value)
  }

  lemma SightedIsTrue(l: Live, k: Key)
    requires LiveInv(l)
    ensures Sighted(l, k) == VERIFIED_STOPPED ==> !Executing(l.world.execs[k])
    ensures Sighted(l, k) == RUNNING ==> Executing(l.world.execs[k])
  {
    hide Durable, Readable, AllStorable;
  }

  /** However old the cached entry, what `status` reports is the ground truth. */
  lemma StatusTellsTruth(states: seq<Sys>, acts: seq<Action>, i: nat, k: Key)
    requires Run(states, acts) && i < |states| && states[i].ctl.Some?
    ensures var observed := Status(LiveAt(states[i]), k).observed;
            && (observed == VERIFIED_STOPPED ==> !Executing(states[i].world.execs[k]))
            && (observed == RUNNING ==> Executing(states[i].world.execs[k]))
  {
    hide Inv, Run, Sighted, Executing;
    RunInv(states, acts, i);
    SightedIsTrue(LiveAt(states[i]), k);
  }

  // ---------- how the durable row of one allocation can change ----------

  ghost predicate Admitted(s: Sys, a: Action, c: Cmd) {
    && a.Commanded? && s.ctl.Some?
    && Decode(a.principal, a.event) == Some(c)
    && Refusal(s.ctl.value, c).None?
    && VerdictOn(LiveAt(s), c).Decided?
  }

  ghost predicate RowChange(s: Sys, a: Action, k: Key, v: Allocation, w: Allocation) {
    || (a.ControlSet? && w == v.(control := a.available, approved := false))
    || (a.Replaced? && w == FreshAllocation(v.generation + 1))
    || (a.Commanded? && Decode(a.principal, a.event).Some?
        && var c := Decode(a.principal, a.event).value;
           Admitted(s, a, c) && c.key == k && w == VerdictOn(LiveAt(s), c).row)
  }

  lemma CommandRow(l: Live, c: Cmd, fault: Fault, k: Key)
    requires LiveInv(l) && 0 <= c.sequence <= MAX_INTEGER
    ensures var v, w := ViewOf(Surviving(l), k).row, ViewOf(Outcome(Execute(l, c, fault)), k).row;
            w == v || (c.key == k && Refusal(l.mem, c).None? && VerdictOn(l, c).Decided? && w == VerdictOn(l, c).row)
  {
    hide Durable, Readable, AllStorable, Conclude, Judge, Storable, Inv, Sighted, ViewOf, Launched;
    if Refusal(l.mem, c).Some? || VerdictOn(l, c).Exhaust? { return; }
    LiveSynced(l);
    LiveStorable(l);
    StorableAt(l.mem.allocations, c.key);
    JudgeStorable(l.mem.allocations[c.key], c, l.world.execs[c.key], Sighted(l, c.key));
    ConcludeViews(l, c, VerdictOn(l, c).row, VerdictOn(l, c).result, fault, k);
  }

  lemma ControlRow(l: Live, key: Key, available: bool, fault: Fault, k: Key)
    requires LiveInv(l)
    ensures var (n, stored) := SetControl(l, key, available, fault);
            var v, w := ViewOf(Surviving(l), k).row, ViewOf(Settle(n, stored), k).row;
            w == v || w == v.(control := available, approved := false)
  {
    hide Durable, Readable, AllStorable, Commit, Storable, Inv, ViewOf;
    if !l.mem.storageOk { return; }
    LiveSynced(l);
    LiveStorable(l);
    ViewIs(l, k);
    ControlStorable(l.mem.allocations, key, available);
    ForgetLawful(l, key, k);
    CommitViews(Forget(l, key), key, l.mem.allocations[key].(control := available, approved := false), fault, k);
  }

  lemma ReplaceRow(l: Live, key: Key, fault: Fault, k: Key)
    requires LiveInv(l)
    ensures var (n, stored) := Replace(l, key, fault);
            var v, w := ViewOf(Surviving(l), k).row, ViewOf(Settle(n, stored), k).row;
            w == v || w == FreshAllocation(v.generation + 1)
  {
    hide Inv, ViewOf, Replace, FreshAllocation;
    ReplaceEffect(l, key, fault, k);
  }

  lemma RowStep(s: Sys, a: Action, k: Key)
    requires Inv(s)
    ensures var v, w := ViewOf(s, k).row, ViewOf(Next(s, a), k).row;
            w == v || RowChange(s, a, k, v, w)
  {
    hide Inv, Execute, SetControl, Adapter, Observe, Replace, Reopen, Affect, Advance;
    hide Decode, Durable, VerdictOn, Refusal;
    if s.ctl.None? { return; }
    var l := LiveAt(s);
    match a
    case Commanded(principal, event, fault) =>
      if Decode(principal, event).Some? { CommandRow(l, Decode(principal, event).value, fault, k); }
    case ControlSet(key, available, fault) => ControlRow(l, key, available, fault, k);
    case Replaced(key, fault) => ReplaceRow(l, key, fault, k);
    case Adapted(key, cancelRemote, fail) => DiskUnchanged(l, a);
    case Watched(key, fail) => DiskUnchanged(l, a);
    case _ =>
  }

  lemma DiskUnchanged(l: Live, a: Action)
    requires a.Adapted? || a.Watched?
    ensures Act(l, a).disk == l.disk
  {
  }

  // ---------- fences ----------

  lemma VerdictKeepsScope(l: Live, c: Cmd)
    requires VerdictOn(l, c).Decided?
    ensures var v, w := l.mem.allocations[c.key], VerdictOn(l, c).row;
            && w.generation == v.generation
            && w.sequence == v.sequence[c.principal := c.sequence]
  {
    hide Audited, Sighted;
    forall row: Allocation, result: Result
      ensures row == Audited(row, c.op, result).(audit := row.audit, dropped := row.dropped)
    {
      AuditedKeeps(row, c.op, result);
    }
  }

  /** At this step the command `c` took durable effect on allocation `k`. */
  ghost predicate TakesEffect(s: Sys, a: Action, k: Key, c: Cmd) {
    Admitted(s, a, c) && c.key == k && ViewOf(Next(s, a), k).row != ViewOf(s, k).row
  }

  lemma EffectFences(s: Sys, a: Action, k: Key, c: Cmd)
    requires Inv(s) && TakesEffect(s, a, k, c)
    ensures var v, w := ViewOf(s, k).row, ViewOf(Next(s, a), k).row;
            && c.generation == v.generation == w.generation && c.epoch == v.epoch
            && v.sequence[c.principal] < c.sequence == w.sequence[c.principal]
  {
    hide Inv, Next, Decode, VerdictOn, Durable;
    RowStep(s, a, k);
    LiveSynced(LiveAt(s));
    ViewIs(LiveAt(s), k);
    VerdictKeepsScope(LiveAt(s), c);
  }

  /** Scopes never go back, and within a generation neither do sequence numbers. */
  lemma {:induction false} FencesOnward(vs: seq<View>, i: nat, j: nat, p: Principal)
    requires LawfulRun(vs) && i <= j < |vs|
    ensures Ahead(vs[i].row, vs[j].row)
    ensures vs[i].row.generation == vs[j].row.generation ==> vs[i].row.sequence[p] <= vs[j].row.sequence[p]
    decreases j
  {
    if i < j {
      FencesOnward(vs, i, j - 1, p);
      ScopeOnward(vs, j - 1, j);
      assert StepAt(vs, j - 1);
    }
  }

  /** Each (allocation, generation, principal) commits strictly increasing sequence numbers, over
      reloads and replacements: no command takes effect twice. */
  lemma AtMostOnce(states: seq<Sys>, acts: seq<Action>, k: Key, i: nat, j: nat, c: Cmd, d: Cmd)
    requires Run(states, acts) && i < j < |acts|
    requires TakesEffect(states[i], acts[i], k, c) && TakesEffect(states[j], acts[j], k, d)
    requires c.generation == d.generation && c.principal == d.principal
    ensures c.sequence < d.sequence
  {
    RunAt(states, acts, i);
    hide Inv, Next, TakesEffect, LawfulRun, Lawful;
    RunInv(states, acts, i);
    RunInv(states, acts, j);
    EffectFences(states[i], acts[i], k, c);
    EffectFences(states[j], acts[j], k, d);
    RunIsLawful(states, acts, k);
    FencesOnward(Views(states, k), i + 1, j, c.principal);
  }

  lemma RunAt(states: seq<Sys>, acts: seq<Action>, i: nat)
    requires Run(states, acts) && i < |acts|
    ensures i + 1 < |states| && states[i + 1] == Next(states[i], acts[i])
  {
    hide Next, Start0;
  }

  ghost predicate Below(generation: int, epoch: int, row: Allocation) {
    generation < row.generation || (generation == row.generation && epoch < row.epoch)
  }

  /** A command below the durable scope is refused by every later controller, and changes nothing. */
  lemma StaleForever(states: seq<Sys>, acts: seq<Action>, i: nat, j: nat, c: Cmd, fault: Fault)
    requires Run(states, acts) && i <= j < |states| && states[j].ctl.Some?
    requires Below(c.generation, c.epoch, ViewOf(states[i], c.key).row)
    ensures var (next, reply) := Execute(LiveAt(states[j]), c, fault);
            next == LiveAt(states[j]) && (reply == StaleScope || reply == StorageUnknown)
  {
    RefusedForever(states, acts, i, j, c);
    hide *;
    RefusedMeans(LiveAt(states[j]), c, fault);
  }

  /** So is a command whose number was already used up in its generation. */
  lemma ReplayedForever(states: seq<Sys>, acts: seq<Action>, i: nat, j: nat, c: Cmd, fault: Fault)
    requires Run(states, acts) && i <= j < |states| && states[j].ctl.Some?
    requires var row := ViewOf(states[i], c.key).row;
             c.generation == row.generation && c.sequence <= row.sequence[c.principal]
    ensures var (next, reply) := Execute(LiveAt(states[j]), c, fault);
            next == LiveAt(states[j]) && (reply == StaleScope || reply == StorageUnknown || reply == Replay)
  {
    RefusedForever(states, acts, i, j, c);
    hide *;
    RefusedMeans(LiveAt(states[j]), c, fault);
  }

  lemma RefusedForever(states: seq<Sys>, acts: seq<Action>, i: nat, j: nat, c: Cmd)
    requires Run(states, acts) && i <= j < |states| && states[j].ctl.Some?
    ensures var row := ViewOf(states[i], c.key).row;
            var refusal := Refusal(states[j].ctl.value, c);
            && (Below(c.generation, c.epoch, row) ==> refusal == Some(StaleScope) || refusal == Some(StorageUnknown))
            && (c.generation == row.generation && c.sequence <= row.sequence[c.principal] ==>
                  refusal == Some(StaleScope) || refusal == Some(StorageUnknown) || refusal == Some(Replay))
  {
    hide Inv, Run, LawfulRun, Lawful, Durable;
    RunInv(states, acts, j);
    RunIsLawful(states, acts, c.key);
    FencesOnward(Views(states, c.key), i, j, c.principal);
    ViewIs(LiveAt(states[j]), c.key);
    if states[j].ctl.value.storageOk { LiveSynced(LiveAt(states[j])); }
  }

  lemma RefusedMeans(l: Live, c: Cmd, fault: Fault)
    ensures Refusal(l.mem, c).Some? ==> Execute(l, c, fault) == (l, Refusal(l.mem, c).value)
  {
    hide Refusal, VerdictOn, Conclude;
  }

  // ---------- failures ----------

  /** Only an I/O fault makes a write fail; a failed write changes neither the records in memory nor
      the durable record nor the World, and the controller then refuses everything. */
  lemma FailedCommit(l: Live, c: Cmd, fault: Fault)
    requires LiveInv(l) && 0 <= c.sequence <= MAX_INTEGER
    ensures var (next, reply) := Execute(l, c, fault);
            && (reply == StorageUnknown ==>
                  && next.mem.allocations == l.mem.allocations && next.world == l.world
                  && Durable(next.disk) == Durable(l.disk) && !next.mem.storageOk)
            && (l.mem.storageOk && fault.Healthy? ==> reply != StorageUnknown && reply != Crashed)
  {
    hide Durable, Readable, AllStorable, Persist, Judge, Storable, Inv, Sighted, Put, Enact;
    if Refusal(l.mem, c).Some? || VerdictOn(l, c).Exhaust? { return; }
    LiveSynced(l);
    LiveStorable(l);
    StorableAt(l.mem.allocations, c.key);
    JudgeStorable(l.mem.allocations[c.key], c, l.world.execs[c.key], Sighted(l, c.key));
    StorableUpdate(l.mem.allocations, c.key, VerdictOn(l, c).row);
    LiveReadable(l);
    PersistEffect(l.disk, Put(l.mem.allocations, c.key, VerdictOn(l, c).row), fault);
  }

  /** The same for `set_control`, which has dropped the observation by then, and whose failure drops all. */
  lemma FailedControl(l: Live, key: Key, available: bool, fault: Fault)
    requires LiveInv(l)
    ensures var (next, stored) := SetControl(l, key, available, fault);
            && (stored.Failed? ==>
                  && next.mem.allocations == l.mem.allocations && next.world == l.world
                  && Durable(next.disk) == Durable(l.disk) && !next.mem.storageOk
                  && (l.mem.storageOk ==> next.mem.observations == map[]))
            && (l.mem.storageOk && fault.Healthy? ==> stored.Kept?)
            && (l.mem.storageOk ==> key !in next.mem.observations)
  {
    hide Durable, Readable, AllStorable, Commit, Storable, Inv;
    if !l.mem.storageOk { return; }
    LiveSynced(l);
    LiveStorable(l);
    ControlStorable(l.mem.allocations, key, available);
    var row := l.mem.allocations[key].(control := available, approved := false);
    StorableUpdate(l.mem.allocations, key, row);
    ForgetLawful(l, key, key);
    CommitFails(Forget(l, key), Put(l.mem.allocations, key, row), fault);
  }

  /** The same for `replace_allocation` past its guards; refused by a guard it changes nothing. */
  lemma FailedReplacement(l: Live, key: Key, fault: Fault)
    requires LiveInv(l)
    ensures ReplaceRefused(l, key) ==> Replace(l, key, fault) == (l, Failed)
    ensures var (next, stored) := Replace(l, key, fault);
            !ReplaceRefused(l, key) ==>
              && (stored.Failed? ==>
                    && next.mem.allocations == l.mem.allocations && next.world == l.world
                    && Durable(next.disk) == Durable(l.disk) && !next.mem.storageOk && next.mem.observations == map[])
              && (fault.Healthy? ==> stored.Kept?)
  {
    hide Durable, Readable, AllStorable, Commit, Storable, Inv, Renew, FreshAllocation;
    if ReplaceRefused(l, key) { return; }
    var row := l.mem.allocations[key];
    LiveSynced(l);
    LiveStorable(l);
    GenerationRange(l.mem.allocations, key);
    FreshStorable(row.generation + 1);
    StorableUpdate(l.mem.allocations, key, FreshAllocation(row.generation + 1));
    CommitFails(l, Put(l.mem.allocations, key, FreshAllocation(row.generation + 1)), fault);
  }

  /** The guards of `replace_allocation`. */
  predicate ReplaceRefused(l: Live, key: Key) {
    var row := l.mem.allocations[key];
    !l.mem.storageOk || row.latched || !row.control || Executing(l.world.execs[key]) || row.generation == MAX_INTEGER
  }

  lemma CommitFails(l: Live, records: Records, fault: Fault)
    requires LiveInv(l) && AllStorable(records) && !l.disk.pending
    ensures var (next, stored) := Commit(l, records, fault);
            && (stored.Failed? ==>
                  && next.mem == l.mem.(storageOk := false, observations := map[])
                  && next.world == l.world && Durable(next.disk) == Durable(l.disk))
            && (fault.Healthy? <==> stored.Kept?)
            && next.mem.observations in {l.mem.observations, map[]}
  {
    hide Durable, Readable, AllStorable, Persist;
    LiveReadable(l);
    PersistEffect(l.disk, records, fault);
  }

  // ---------- the audit trail ----------

  /** What step `a` adds to the trail of allocation `k`: one entry when a command takes effect. */
  ghost function Entry(s: Sys, a: Action, k: Key): seq<string> {
    if a.Commanded? && Decode(a.principal, a.event).Some?
       && TakesEffect(s, a, k, Decode(a.principal, a.event).value)
    then
      var c := Decode(a.principal, a.event).value;
      [AuditText(c.op, VerdictOn(LiveAt(s), c).result)]
    else []
  }

  /** Every outcome committed in the current generation of allocation `k`, oldest first. */
  ghost function Trail(states: seq<Sys>, acts: seq<Action>, k: Key, n: nat): seq<string>
    requires Run(states, acts) && n < |states|
  {
    if n == 0 then []
    else if ViewOf(states[n], k).row.generation != ViewOf(states[n - 1], k).row.generation then []
    else Trail(states, acts, k, n - 1) + Entry(states[n - 1], acts[n - 1], k)
  }

  ghost predicate Recorded(row: Allocation, trail: seq<string>) {
    if |trail| <= AUDIT_LIMIT then row.audit == trail && row.dropped == 0
    else row.audit == trail[|trail| - AUDIT_LIMIT..] && row.dropped == Min(MAX_INTEGER, |trail| - AUDIT_LIMIT)
  }

  lemma RecordedPush(row: Allocation, trail: seq<string>, op: Op, result: Result)
    requires Recorded(row, trail)
    ensures Recorded(Audited(row, op, result), trail + [AuditText(op, result)])
  {
    hide AuditText;
    var entry := AuditText(op, result);
    var all := trail + [entry];
    if |trail| >= AUDIT_LIMIT {
      var n := |trail| - AUDIT_LIMIT;
      assert trail[n..] == row.audit;
      assert (row.audit + [entry])[1..] == all[n + 1..];
    }
  }

  lemma VerdictAudit(l: Live, c: Cmd)
    requires VerdictOn(l, c).Decided?
    ensures var v, w := l.mem.allocations[c.key], VerdictOn(l, c);
            && w.row.audit == Audited(v, c.op, w.result).audit
            && w.row.dropped == Audited(v, c.op, w.result).dropped
  {
    hide Audited, Sighted;
    forall row: Allocation, result: Result | row.audit == l.mem.allocations[c.key].audit
                                             && row.dropped == l.mem.allocations[c.key].dropped
      ensures Audited(row, c.op, result).audit == Audited(l.mem.allocations[c.key], c.op, result).audit
      ensures Audited(row, c.op, result).dropped == Audited(l.mem.allocations[c.key], c.op, result).dropped
    {
      AuditedAlike(row, l.mem.allocations[c.key], c.op, result);
    }
  }

  lemma AuditedAlike(v: Allocation, w: Allocation, op: Op, result: Result)
    requires v.audit == w.audit && v.dropped == w.dropped
    ensures Audited(v, op, result).audit == Audited(w, op, result).audit
    ensures Audited(v, op, result).dropped == Audited(w, op, result).dropped
  {
    hide AuditText, Pushed, Drops;
  }

  lemma TrailStep(s: Sys, a: Action, k: Key, trail: seq<string>)
    requires Inv(s) && Recorded(ViewOf(s, k).row, trail)
    ensures var v, w := ViewOf(s, k).row, ViewOf(Next(s, a), k).row;
            Recorded(w, if v.generation != w.generation then [] else trail + Entry(s, a, k))
  {
    hide Inv, Next, Decode, VerdictOn, Durable, Recorded, Audited, AuditText, Refusal;
    var v, w := ViewOf(s, k).row, ViewOf(Next(s, a), k).row;
    RowStep(s, a, k);
    assert trail + [] == trail;
    if w == v {
    } else if a.Commanded? {
      var c := Decode(a.principal, a.event).value;
      LiveSyncedIf(LiveAt(s), c);
      ViewIs(LiveAt(s), k);
      VerdictKeepsScope(LiveAt(s), c);
      VerdictAudit(LiveAt(s), c);
      RecordedPush(v, trail, c.op, VerdictOn(LiveAt(s), c).result);
      RecordedSame(Audited(v, c.op, VerdictOn(LiveAt(s), c).result), w,
                   trail + [AuditText(c.op, VerdictOn(LiveAt(s), c).result)]);
    } else if a.ControlSet? {
      RecordedSame(v, w, trail);
    } else {
      FreshRecorded(v.generation + 1);
    }
  }

  lemma LiveSyncedIf(l: Live, c: Cmd)
    requires LiveInv(l) && Refusal(l.mem, c).None?
    ensures l.mem.allocations == Durable(l.disk)
  {
    hide Durable, Readable, AllStorable;
  }

  lemma RecordedSame(v: Allocation, w: Allocation, trail: seq<string>)
    requires Recorded(v, trail) && v.audit == w.audit && v.dropped == w.dropped
    ensures Recorded(w, trail)
  {
  }

  lemma FreshRecorded(generation: int)
    ensures Recorded(FreshAllocation(generation), [])
  {
  }

  /** The stored audit is the last 64 outcomes committed in the generation, and `dropped` counts the
      others until it saturates. */
  lemma {:induction false} AuditIsExact(states: seq<Sys>, acts: seq<Action>, k: Key, n: nat)
    requires Run(states, acts) && n < |states|
    ensures Recorded(ViewOf(states[n], k).row, Trail(states, acts, k, n))
  {
    hide Inv, Next, Recorded, Start0, Entry, ViewOf, FreshAllocation;
    if n == 0 {
      StartInv();
      StartView(k);
      FreshRecorded(1);
    } else {
      AuditIsExact(states, acts, k, n - 1);
      RunInv(states, acts, n - 1);
      RunAt(states, acts, n - 1);
      TrailStep(states[n - 1], acts[n - 1], k, Trail(states, acts, k, n - 1));
    }
  }

  lemma StartView(k: Key)
    ensures ViewOf(Start0(), k).row == FreshAllocation(1)
  {
    StartInv();
    hide Durable, Encode;
  }
}
