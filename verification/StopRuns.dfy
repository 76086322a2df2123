/** Whole runs of the human-stop system: one World, one durable record, and at most one live
    controller that may die at any point of a write and be reopened. */
module StopRuns {
  import opened Json
  import opened StopStorage
  import opened HumanStop
  import opened StopLaws

  datatype Sys = Sys(disk: DiskState, world: WorldState, ctl: Option<Mem>)

  datatype Action =
    | Commanded(principal: Value, event: Payload, fault: Fault)
    | ControlSet(key: Key, available: bool, fault: Fault)
    | Adapted(key: Key, cancelRemote: bool, fail: bool)
    | Watched(key: Key, fail: bool)
    | Replaced(key: Key, fault: Fault)
    | Advanced(ticks: int)
    | Affected(key: Key, kind: string)
    | Crashing
    | Reloading

  function Start0(): Sys {
    Sys(DiskState(Some(Encode(FreshRecords())), false), WorldState(FreshExecs(), 0),
        Some(Mem(FreshRecords(), map[], true)))
  }

  function Surviving(l: Live): Sys { Sys(l.disk, l.world, Some(l.mem)) }

  function Dead(l: Live): Sys { Sys(l.disk, l.world, None) }

  function Outcome(r: (Live, Reply)): Sys {
    if r.1 == Crashed then Dead(r.0) else Surviving(r.0)
  }

  function Settle(l: Live, stored: Stored): Sys {
    if stored.Died? then Dead(l) else Surviving(l)
  }

  /** One action of the live controller. */
  function Act(l: Live, a: Action): Sys {
    match a
    case Commanded(principal, event, fault) =>
      Outcome(Command(l, principal, event, fault))
    case ControlSet(k, available, fault) =>
      var (next, stored) := SetControl(l, k, available, fault);
      Settle(next, stored)
    case Adapted(k, cancelRemote, fail) => Surviving(Adapter(l, k, cancelRemote, fail).0)
    case Watched(k, fail) => Surviving(Observe(l, k, fail).0)
    case Replaced(k, fault) =>
      var (next, stored) := Replace(l, k, fault);
      Settle(next, stored)
    case _ => Surviving(l)
  }

  function Next(s: Sys, a: Action): Sys {
    match a
    case Crashing => s.(ctl := None)
    case Reloading => s.(ctl := Some(Reopen(s.disk)))
    case Advanced(ticks) =>
      var w := Advance(s.world, ticks);
      if w.None? then s else s.(world := w.value)
    case Affected(k, kind) =>
      var w := Affect(s.world, k, kind);
      if w.None? then s else s.(world := w.value.0)
    case _ =>
      if s.ctl.None? then s else Act(Live(s.disk, s.world, s.ctl.value), a)
  }

  // ---------- the durable record ----------

  ghost predicate Readable(d: DiskState) {
    d.state.Some? && Load(d.state.value).Some?
  }

  ghost function Durable(d: DiskState): Records {
    if Readable(d) then Load(d.state.value).value else FreshRecords()
  }

  lemma StoresIs(d: DiskState, records: Records)
    requires d.state.Some? && Load(d.state.value) == Some(records)
    ensures Readable(d) && Durable(d) == records
  {
    hide Load, FreshRecords;
  }

  lemma SameState(d: DiskState, d': DiskState)
    requires d.state == d'.state
    ensures Readable(d) == Readable(d') && Durable(d) == Durable(d')
  {
    hide Load, FreshRecords;
  }

  predicate Replacing(fault: Fault, stored: Stored) {
    stored.Kept? || (stored.Died? && fault.DiesAfterReplace?)
  }

  /** A write changes the durable record all at once or not at all, and only an I/O fault can
      make the write of a storable record fail. */
  lemma PersistEffect(d: DiskState, records: Records, fault: Fault)
    requires AllStorable(records) && Readable(d)
    ensures var (d', stored) := Persist(d, records, fault);
            && Readable(d')
            && (if Replacing(fault, stored) then Durable(d') == records && !d'.pending else Durable(d') == Durable(d))
            && (d.pending && stored.Failed? ==> d' == d)
            && (!d.pending ==> (stored.Kept? <==> fault.Healthy?))
  {
    hide Bounded, Encode, Load, AllStorable, FreshRecords, Length, Readable, Durable;
    StorableIsBounded(records);
    LoadsBack(records);
    var (d', stored) := Persist(d, records, fault);
    if Replacing(fault, stored) {
      StoresIs(d', records);
    } else {
      SameState(d, d');
    }
  }

  // ---------- the invariant ----------

  ghost predicate TrueSighting(o: Observation, exec: Exec) {
    && o.generation == exec.generation
    && o.revision == exec.revision
    && o.state == (if Executing(exec) then RUNNING else VERIFIED_STOPPED)
  }

  ghost predicate Synced(mem: Mem, d: DiskState) {
    mem.storageOk ==> mem.allocations == Durable(d) && !d.pending
  }

  ghost predicate Truthful(mem: Mem, world: WorldState) {
    forall k :: k in mem.observations ==> TrueSighting(mem.observations[k], world.execs[k])
  }

  ghost predicate Inv(s: Sys) {
    && Readable(s.disk)
    && AllStorable(Durable(s.disk))
    && (s.ctl.Some? ==> Synced(s.ctl.value, s.disk) && Truthful(s.ctl.value, s.world))
  }

  ghost predicate LiveInv(l: Live) { Inv(Surviving(l)) }

  lemma LiveReadable(l: Live)
    requires LiveInv(l)
    ensures Readable(l.disk)
  {
    hide Durable, Readable, AllStorable;
  }

  lemma StorableUpdate(records: Records, k: Key, row: Allocation)
    requires AllStorable(records) && Storable(row)
    ensures AllStorable(Put(records, k, row))
  {
    hide Storable;
  }

  lemma AuditedStorable(row: Allocation, op: Op, result: Result)
    requires Storable(row)
    ensures Storable(Audited(row, op, result))
  {
    assert Known(AuditText(op, result));
    hide AuditText, Known;
    var all := row.audit + [AuditText(op, result)];
    assert forall i :: 0 <= i < |all| ==> Known(all[i]);
  }

  lemma JudgeStorable(current: Allocation, c: Cmd, exec: Exec, observed: Observed)
    requires Storable(current) && 0 <= c.sequence <= MAX_INTEGER
    requires Judge(current, c, exec, observed).Decided?
    ensures Storable(Judge(current, c, exec, observed).row)
  {
    hide Audited, Known;
    var row := current.(sequence := current.sequence[c.principal := c.sequence]);
    assert Storable(row);
    var epoch := if row.latched then row.epoch else row.epoch + 1;
    match c.op
    case Stop => AuditedStorable(row.(epoch := epoch, latched := true, approved := false), c.op, OK);
    case Reset =>
      AuditedStorable(row, c.op, DENIED);
      if row.epoch < MAX_INTEGER {
        AuditedStorable(row.(epoch := row.epoch + 1, latched := false, approved := false), c.op, OK);
      }
    case Approve =>
      AuditedStorable(row, c.op, DENIED);
      if !row.latched { AuditedStorable(row.(approved := true), c.op, OK); }
    case Start =>
      AuditedStorable(row, c.op, DENIED);
      AuditedStorable(row, c.op, OK);
  }

  lemma CommitEffect(l: Live, records: Records, fault: Fault)
    requires LiveInv(l) && AllStorable(records)
    ensures var (n, stored) := Commit(l, records, fault);
            && Inv(Settle(n, stored))
            && n.world == l.world
            && Durable(n.disk) == (if Replacing(fault, stored) then records else Durable(l.disk))
            && (stored.Kept? ==> n.mem == l.mem.(allocations := records))
            && (stored.Failed? ==> n.mem == l.mem.(storageOk := false, observations := map[]))
  {
    hide Persist, Durable, Readable, AllStorable;
    PersistEffect(l.disk, records, fault);
  }

  // ---------- what one step may do to one allocation ----------

  ghost function ViewOf(s: Sys, k: Key): View {
    View(Durable(s.disk)[k], s.world.execs[k],
         if s.ctl.Some? && k in s.ctl.value.observations then Some(s.ctl.value.observations[k]) else None)
  }

  lemma AuditedKeeps(row: Allocation, op: Op, result: Result)
    ensures var r := Audited(row, op, result);
            row == r.(audit := row.audit, dropped := row.dropped)
  {
    hide AuditText;
  }

  lemma JudgeLawful(v: View, c: Cmd, observed: Observed, w: View)
    requires c.sequence > v.row.sequence[c.principal]
    requires observed == VERIFIED_STOPPED ==> SeenStopped(v) && !Executing(v.exec)
    requires var verdict := Judge(v.row, c, v.exec, observed);
             && verdict.Decided? && w.row == verdict.row
             && (w.exec == v.exec || (w.exec == Launched(v.exec) && c.op == Start && verdict.result == OK))
    requires w.seen.None? || (w.seen == v.seen && c.op == Approve)
    requires w.exec != v.exec ==> w.seen.None?
    ensures Lawful(v, w)
  {
    hide Judge;
    JudgeRow(v.row, c, v.exec, observed);
  }

  /** What a decided command does to the row, its audit apart. */
  lemma JudgeRow(row: Allocation, c: Cmd, exec: Exec, observed: Observed)
    requires Judge(row, c, exec, observed).Decided?
    ensures var verdict := Judge(row, c, exec, observed);
            && verdict.row.generation == row.generation
            && verdict.row.sequence == row.sequence[c.principal := c.sequence]
            && match c.op
               case Stop =>
                 verdict.row.latched && verdict.row.epoch == (if row.latched then row.epoch else row.epoch + 1)
               case Reset =>
                 if verdict.result == OK then
                   && row.latched && observed == VERIFIED_STOPPED && verdict.row.epoch == row.epoch + 1
                   && !verdict.row.latched && !verdict.row.approved
                 else verdict.row.latched == row.latched && verdict.row.epoch == row.epoch
               case Approve => verdict.row.latched == row.latched && verdict.row.epoch == row.epoch
               case Start =>
                 && verdict.row.latched == row.latched && verdict.row.epoch == row.epoch
                 && verdict.row.approved == row.approved
                 && (verdict.result == OK ==> row.approved && !row.latched && !Executing(exec))
  {
    hide Audited;
    forall r: Allocation, result: Result
      ensures r == Audited(r, c.op, result).(audit := r.audit, dropped := r.dropped)
    {
      AuditedKeeps(r, c.op, result);
    }
  }

  lemma StorableAt(records: Records, k: Key)
    requires AllStorable(records)
    ensures Storable(records[k])
  {
  }

  lemma SightedTruth(l: Live, k: Key)
    requires LiveInv(l) && Sighted(l, k) == VERIFIED_STOPPED
    ensures SeenStopped(ViewOf(Surviving(l), k)) && !Executing(l.world.execs[k])
  {
    hide Durable, Readable, AllStorable;
  }

  lemma EnactInv(l: Live, c: Cmd, result: Result)
    requires LiveInv(l)
    ensures LiveInv(Enact(l, c, result))
  {
    hide Durable, Readable, AllStorable;
  }

  /** Committing a new row for one allocation, seen from allocation `k`. */
  lemma CommitViews(l: Live, key: Key, row: Allocation, fault: Fault, k: Key)
    requires LiveInv(l) && l.mem.storageOk && Storable(row)
    ensures var (n, stored) := Commit(l, Put(l.mem.allocations, key, row), fault);
            var v, w := ViewOf(Surviving(l), k), ViewOf(Settle(n, stored), k);
            && Inv(Settle(n, stored))
            && n.world == l.world
            && w.exec == v.exec
            && w.row == (if k == key && Replacing(fault, stored) then row else v.row)
            && (w.seen.None? || w.seen == v.seen)
            && (stored.Kept? ==> w.seen == v.seen && LiveInv(n))
  {
    hide Durable, Readable, AllStorable, Commit, Storable, Inv, Replacing;
    LiveSynced(l);
    LiveStorable(l);
    StorableUpdate(l.mem.allocations, key, row);
    CommitEffect(l, Put(l.mem.allocations, key, row), fault);
    var (n, stored) := Commit(l, Put(l.mem.allocations, key, row), fault);
    var v, w := ViewOf(Surviving(l), k), ViewOf(Settle(n, stored), k);
    assert w.exec == v.exec;
    assert w.seen.None? || w.seen == v.seen;
  }

  ghost predicate Concluding(v: View, w: View, row: Allocation, c: Cmd, result: Result, k: Key) {
    && (w.row == v.row || (k == c.key && w.row == row))
    && (w.exec == v.exec || (w.exec == Launched(v.exec) && k == c.key && c.op == Start && result == OK
                             && w.row == row && w.seen.None?))
    && (w.seen.None? || (w.seen == v.seen && (k != c.key || w.row == v.row || c.op == Approve)))
  }

  lemma ConcludeViews(l: Live, c: Cmd, row: Allocation, result: Result, fault: Fault, k: Key)
    requires LiveInv(l) && l.mem.storageOk && Storable(row)
    ensures Inv(Outcome(Conclude(l, c, row, result, fault)))
    ensures Concluding(ViewOf(Surviving(l), k), ViewOf(Outcome(Conclude(l, c, row, result, fault)), k),
                       row, c, result, k)
  {
    hide Commit, Storable, Inv, Enact, Launched, ViewOf;
    CommitViews(l, c.key, row, fault, k);
    var (n, stored) := Commit(l, Put(l.mem.allocations, c.key, row), fault);
    if stored.Kept? {
      EnactInv(n, c, result);
      EnactViews(n, c, result, k);
    } else {
      CommitLosesSight(l, Put(l.mem.allocations, c.key, row), fault, k);
    }
  }

  lemma CommitLosesSight(l: Live, records: Records, fault: Fault, k: Key)
    ensures var (n, stored) := Commit(l, records, fault);
            !stored.Kept? ==> ViewOf(Settle(n, stored), k).seen.None?
  {
    hide Persist, Durable;
  }

  lemma ExecuteLawful(l: Live, c: Cmd, fault: Fault, k: Key)
    requires LiveInv(l) && 0 <= c.sequence <= MAX_INTEGER
    ensures Inv(Outcome(Execute(l, c, fault)))
    ensures Lawful(ViewOf(Surviving(l), k), ViewOf(Outcome(Execute(l, c, fault)), k))
  {
    hide Durable, Readable, AllStorable, Conclude, Judge, Storable, Inv, Lawful, Sighted, SeenStopped, ViewOf, Launched;
    var v := ViewOf(Surviving(l), k);
    QuietLawful(v, v);
    if Refusal(l.mem, c).Some? || VerdictOn(l, c).Exhaust? { return; }
    LiveSynced(l);
    LiveStorable(l);
    StorableAt(l.mem.allocations, c.key);
    JudgeStorable(l.mem.allocations[c.key], c, l.world.execs[c.key], Sighted(l, c.key));
    ConcludeViews(l, c, VerdictOn(l, c).row, VerdictOn(l, c).result, fault, k);
    var w := ViewOf(Outcome(Execute(l, c, fault)), k);
    if w.row == v.row && w.exec == v.exec {
      QuietLawful(v, w);
    } else {
      ViewIs(l, k);
      if Sighted(l, c.key) == VERIFIED_STOPPED { SightedTruth(l, c.key); }
      JudgeLawful(v, c, Sighted(l, c.key), w);
    }
  }

  lemma ViewIs(l: Live, k: Key)
    ensures ViewOf(Surviving(l), k).row == Durable(l.disk)[k]
    ensures ViewOf(Surviving(l), k).exec == l.world.execs[k]
  {
    hide Durable;
  }

  lemma EnactViews(l: Live, c: Cmd, result: Result, k: Key)
    ensures var v, w := ViewOf(Surviving(l), k), ViewOf(Surviving(Enact(l, c, result)), k);
            && w.row == v.row
            && w.exec == (if k == c.key && c.op == Start && result == OK then Launched(v.exec) else v.exec)
            && w.seen == (if k == c.key && c.op != Approve then None else v.seen)
  {
    hide Durable;
  }

  lemma LiveSynced(l: Live)
    requires LiveInv(l) && l.mem.storageOk
    ensures l.mem.allocations == Durable(l.disk) && !l.disk.pending
  {
    hide Durable, Readable, AllStorable;
  }

  lemma LiveStorable(l: Live)
    requires LiveInv(l)
    ensures AllStorable(Durable(l.disk))
  {
    hide Durable, Readable, AllStorable;
  }

  // ---------- every action is lawful ----------

  lemma SetControlLawful(l: Live, key: Key, available: bool, fault: Fault, k: Key)
    requires LiveInv(l)
    ensures var (n, stored) := SetControl(l, key, available, fault);
            Inv(Settle(n, stored)) && Lawful(ViewOf(Surviving(l), k), ViewOf(Settle(n, stored), k))
  {
    hide Durable, Readable, AllStorable, Commit, Storable, Inv, ViewOf;
    var v := ViewOf(Surviving(l), k);
    QuietLawful(v, v);
    if !l.mem.storageOk { return; }
    LiveSynced(l);
    LiveStorable(l);
    ViewIs(l, k);
    ControlStorable(l.mem.allocations, key, available);
    ForgetLawful(l, key, k);
    CommitViews(Forget(l, key), key, l.mem.allocations[key].(control := available, approved := false), fault, k);
  }

  lemma ForgetLawful(l: Live, key: Key, k: Key)
    requires LiveInv(l)
    ensures var v, w := ViewOf(Surviving(l), k), ViewOf(Surviving(Forget(l, key)), k);
            && LiveInv(Forget(l, key)) && w.row == v.row && w.exec == v.exec
            && w.seen == (if k == key then None else v.seen)
  {
    hide Durable, Readable, AllStorable;
  }

  lemma ControlStorable(records: Records, k: Key, available: bool)
    requires AllStorable(records)
    ensures Storable(records[k].(control := available, approved := false))
  {
    hide Known;
  }

  lemma AdapterLawful(l: Live, k': Key, cancelRemote: bool, fail: bool, k: Key)
    requires LiveInv(l)
    ensures LiveInv(Adapter(l, k', cancelRemote, fail).0)
    ensures Lawful(ViewOf(Surviving(l), k), ViewOf(Surviving(Adapter(l, k', cancelRemote, fail).0), k))
  {
    hide Durable, Readable, AllStorable;
  }

  lemma ObserveLawful(l: Live, k': Key, fail: bool, k: Key)
    requires LiveInv(l)
    ensures LiveInv(Observe(l, k', fail).0)
    ensures Lawful(ViewOf(Surviving(l), k), ViewOf(Surviving(Observe(l, k', fail).0), k))
  {
    hide Durable, Readable, AllStorable;
  }

  lemma FreshStorable(generation: int)
    requires 1 <= generation <= MAX_INTEGER
    ensures Storable(FreshAllocation(generation))
  {
  }

  /** What replacing `key` may do to allocation `k`: nothing, or a fresh row for an idle, unlatched one. */
  ghost predicate Replacement(v: View, w: View) {
    || (w.row == v.row && w.exec == v.exec && (w.seen == v.seen || w.seen.None?))
    || (&& !v.row.latched && !Executing(v.exec)
        && w.row == FreshAllocation(v.row.generation + 1) && w.seen.None?
        && (w.exec == v.exec || w.exec == FreshExec(v.row.generation + 1)))
  }

  lemma ReplaceEffect(l: Live, key: Key, fault: Fault, k: Key)
    requires LiveInv(l)
    ensures var (n, stored) := Replace(l, key, fault);
            Inv(Settle(n, stored)) && Replacement(ViewOf(Surviving(l), k), ViewOf(Settle(n, stored), k))
  {
    hide Durable, Readable, AllStorable, Commit, Storable, Inv, ViewOf, Renew, FreshAllocation;
    var row := l.mem.allocations[key];
    if !l.mem.storageOk || row.latched || !row.control || Executing(l.world.execs[key])
       || row.generation == MAX_INTEGER { return; }
    LiveSynced(l);
    LiveStorable(l);
    ViewIs(l, k);
    GenerationRange(l.mem.allocations, key);
    var renewed := FreshAllocation(row.generation + 1);
    FreshStorable(row.generation + 1);
    CommitViews(l, key, renewed, fault, k);
    CommitLosesSight(l, Put(l.mem.allocations, key, renewed), fault, k);
    var (n, stored) := Commit(l, Put(l.mem.allocations, key, renewed), fault);
    if stored.Kept? { ReplaceViews(n, key, row.generation + 1, k); }
  }

  lemma ReplacementLawful(v: View, w: View)
    requires Replacement(v, w)
    ensures Lawful(v, w)
  {
  }

  lemma ReplaceLawful(l: Live, key: Key, fault: Fault, k: Key)
    requires LiveInv(l)
    ensures var (n, stored) := Replace(l, key, fault);
            Inv(Settle(n, stored)) && Lawful(ViewOf(Surviving(l), k), ViewOf(Settle(n, stored), k))
  {
    hide Inv, ViewOf, Replacement, Lawful, Replace;
    ReplaceEffect(l, key, fault, k);
    var (n, stored) := Replace(l, key, fault);
    ReplacementLawful(ViewOf(Surviving(l), k), ViewOf(Settle(n, stored), k));
  }

  lemma GenerationRange(records: Records, k: Key)
    requires AllStorable(records)
    ensures 1 <= records[k].generation <= MAX_INTEGER
  {
    hide Known;
  }

  lemma ReplaceViews(l: Live, key: Key, generation: int, k: Key)
    requires LiveInv(l)
    ensures var v, w := ViewOf(Surviving(l), k), ViewOf(Surviving(Renew(l, key, generation)), k);
            && LiveInv(Renew(l, key, generation)) && w.row == v.row
            && w.exec == (if k == key then FreshExec(generation) else v.exec)
            && w.seen == (if k == key then None else v.seen)
  {
    hide Durable, Readable, AllStorable;
  }

  lemma ReopenLawful(s: Sys, k: Key)
    requires Inv(s)
    ensures Inv(Next(s, Reloading)) && Lawful(ViewOf(s, k), ViewOf(Next(s, Reloading), k))
  {
    hide Load, AllStorable, Encode, Bounded;
  }

  /** The World may change alone, as long as what runs and what was revised does not. */
  lemma WorldLawful(s: Sys, w: WorldState, k: Key)
    requires Inv(s)
    requires forall key: Key :: w.execs[key] == s.world.execs[key].(effects := w.execs[key].effects)
    ensures Inv(s.(world := w)) && Lawful(ViewOf(s, k), ViewOf(s.(world := w), k))
  {
    hide Durable, Readable, AllStorable;
  }

  lemma CrashLawful(s: Sys, k: Key)
    requires Inv(s)
    ensures Inv(s.(ctl := None)) && Lawful(ViewOf(s, k), ViewOf(s.(ctl := None), k))
  {
    hide Durable, Readable, AllStorable;
  }

  lemma AdvanceFrame(w: WorldState, ticks: int)
    requires Advance(w, ticks).Some?
    ensures Advance(w, ticks).value == w.(tick := Advance(w, ticks).value.tick)
  {
  }

  lemma AffectFrame(w: WorldState, key: Key, kind: string, k: Key)
    requires Affect(w, key, kind).Some?
    ensures var w' := Affect(w, key, kind).value.0;
            w'.execs[k] == w.execs[k].(effects := w'.execs[k].effects)
  {
    hide EFFECT_KINDS;
  }

  /** Every step keeps the invariant and obeys the laws, for both allocations. */
  lemma NextLawful(s: Sys, a: Action, k: Key)
    requires Inv(s)
    ensures Inv(Next(s, a)) && Lawful(ViewOf(s, k), ViewOf(Next(s, a), k))
  {
    hide Durable, Readable, AllStorable, Lawful;
    hide Execute, SetControl, Adapter, Observe, Replace, Reopen, Affect, Advance, Decode;
    QuietLawful(ViewOf(s, k), ViewOf(s, k));
    if a.Advanced? {
      if Advance(s.world, a.ticks).Some? {
        WorldLawful(s, s.world.(tick := Advance(s.world, a.ticks).value.tick), k);
        AdvanceFrame(s.world, a.ticks);
      }
    } else if a.Affected? {
      var w := Affect(s.world, a.key, a.kind);
      if w.Some? {
        forall key: Key
          ensures w.value.0.execs[key] == s.world.execs[key].(effects := w.value.0.execs[key].effects)
        {
          AffectFrame(s.world, a.key, a.kind, key);
        }
        WorldLawful(s, w.value.0, k);
      }
    } else if a.Crashing? {
      CrashLawful(s, k);
    } else if a.Reloading? {
      ReopenLawful(s, k);
    } else {
      if s.ctl.None? { return; }
      var l := Live(s.disk, s.world, s.ctl.value);
      match a
      case Commanded(principal, event, fault) =>
        var c := Decode(principal, event);
        if c.Some? { ExecuteLawful(l, c.value, fault, k); }
      case ControlSet(k', available, fault) => SetControlLawful(l, k', available, fault, k);
      case Adapted(k', cancelRemote, fail) => AdapterLawful(l, k', cancelRemote, fail, k);
      case Watched(k', fail) => ObserveLawful(l, k', fail, k);
      case Replaced(k', fault) => ReplaceLawful(l, k', fault, k);
      case _ =>
    }
  }

  // ---------- runs ----------

  ghost predicate Run(states: seq<Sys>, acts: seq<Action>) {
    && |states| == |acts| + 1
    && states[0] == Start0()
    && forall i :: 0 <= i < |acts| ==> states[i + 1] == Next(states[i], acts[i])
  }

  lemma StartInv()
    ensures Inv(Start0()) && Durable(Start0().disk) == FreshRecords()
  {
    hide Encode, Load, Storable, FreshAllocation;
    forall k: Key ensures Storable(FreshRecords()[k]) { FreshStorable(1); }
    LoadsBack(FreshRecords());
    StoresIs(Start0().disk, FreshRecords());
  }

  lemma {:induction false} RunInv(states: seq<Sys>, acts: seq<Action>, i: nat)
    requires Run(states, acts) && i < |states|
    ensures Inv(states[i])
  {
    hide Inv, Next, Start0;
    if i == 0 {
      StartInv();
    } else {
      RunInv(states, acts, i - 1);
      assert states[i] == Next(states[i - 1], acts[i - 1]);
      NextLawful(states[i - 1], acts[i - 1], A);
    }
  }

  ghost function Views(states: seq<Sys>, k: Key): (vs: seq<View>)
    ensures |vs| == |states| && forall i :: 0 <= i < |vs| ==> vs[i] == ViewOf(states[i], k)
  {
    seq(|states|, i requires 0 <= i < |states| => ViewOf(states[i], k))
  }

  lemma RunIsLawful(states: seq<Sys>, acts: seq<Action>, k: Key)
    requires Run(states, acts)
    ensures LawfulRun(Views(states, k))
  {
    hide Inv, Next, Lawful, Durable;
    var vs := Views(states, k);
    StartInv();
    forall i | 0 <= i < |vs| - 1 ensures StepAt(vs, i) {
      RunInv(states, acts, i);
      NextLawful(states[i], acts[i], k);
    }
  }

  /** Launch discipline over every run, with crashes, reloads and replacements anywhere. */
  lemma LaunchDiscipline(states: seq<Sys>, acts: seq<Action>, k: Key, i: nat, j: nat) returns (c: Chain)
    requires Run(states, acts) && i < j
    requires LaunchAt(Views(states, k), i) && LaunchAt(Views(states, k), j)
    ensures Disciplined(Views(states, k), i, j, c)
  {
    hide *;
    RunIsLawful(states, acts, k);
    c := LaunchesAreDisciplined(Views(states, k), i, j);
  }
}
