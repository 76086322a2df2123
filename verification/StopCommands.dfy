/** The whole of `command` as a table over raw principals, raw events and the fields of the row: who may do what,
    and when, and what is then done. */
module StopCommands {
  import opened Json
  import opened StopStorage
  import opened HumanStop
  import opened StopLaws
  import opened StopRuns
  import opened StopTheorems
  import opened StopActions

  // ---------- who ----------

  /** Whatever a guest sends, nothing changes and nothing is done. */
  lemma GuestIsPowerless(l: Live, event: Payload, fault: Fault)
    ensures Command(l, Text("guest"), event, fault).0 == l
    ensures Command(l, Text("guest"), event, fault).1 in {Invalid, StorageUnknown, StaleScope, Replay, Denied}
  {
    hide VerdictOn, Conclude;
  }

  /** Nor does anyone but the three principals; and a scheduler is obeyed in nothing but a start. */
  lemma StrangersArePowerless(l: Live, principal: Value, event: Payload, fault: Fault)
    requires principal != Text("human")
    requires principal == Text("scheduler") ==>
               event.NotDict? || "op" !in event.fields || event.fields["op"] != Text("start")
    ensures Command(l, principal, event, fault).0 == l
    ensures Command(l, principal, event, fault).1 in {Invalid, StorageUnknown, StaleScope, Replay, Denied}
  {
    hide VerdictOn, Conclude;
  }

  // ---------- what ----------

  /** The event is a well-formed `op` on `k` by `p`. */
  predicate Reads(principal: Value, event: Payload, k: Key, op: Op, p: Principal) {
    && principal == Text(match p case Human => "human" case Scheduler => "scheduler" case Guest => "guest")
    && event.Dict? && event.fields.Keys == {"op", "allocation", "generation", "sequence", "epoch"}
    && event.fields["op"] == Text(match op
                                  case Approve => "approve" case Start => "start"
                                  case Stop => "stop" case Reset => "reset")
    && event.fields["allocation"] == Text(match k case A => "A" case B => "B")
    && (forall name :: name in {"generation", "sequence", "epoch"} ==>
          event.fields[name].Number? && 0 <= event.fields[name].n <= 1_000_000_000)
  }

  /** It comes from someone who may, in the scope of the row, and goes beyond the last number on record. */
  predicate Asks(row: Allocation, principal: Value, event: Payload, k: Key, op: Op, p: Principal) {
    && Reads(principal, event, k, op, p)
    && (principal == Text("human") || (principal == Text("scheduler") && op == Start))
    && event.fields["generation"].n == row.generation && event.fields["epoch"].n == row.epoch
    && row.sequence[p] < event.fields["sequence"].n
  }

  /** What the row, the execution and the observation must be like for it. */
  predicate Possible(row: Allocation, exec: Exec, observed: Observed, op: Op) {
    match op
    case Stop => row.latched || row.epoch != 1_000_000_000
    case Reset => row.latched && observed == VERIFIED_STOPPED && row.epoch != 1_000_000_000
    case Approve => !row.latched && row.control
    case Start =>
      && !row.latched && row.control && row.approved
      && exec.generation == row.generation && !exec.running && !exec.remoteRunning
  }

  /** What it makes of the row, its audit apart. */
  function Ordered(row: Allocation, op: Op, p: Principal, sequence: int): Allocation {
    var counted := row.(sequence := row.sequence[p := sequence]);
    match op
    case Stop => counted.(epoch := if row.latched then row.epoch else row.epoch + 1, latched := true, approved := false)
    case Reset => counted.(epoch := row.epoch + 1, latched := false, approved := false)
    case Approve => counted.(approved := true)
    case Start => counted
  }

  /** Equal but for what is written down about it. */
  predicate SameButAudit(v: Allocation, w: Allocation) {
    v == w.(audit := v.audit, dropped := v.dropped)
  }

  lemma DecodeMeans(principal: Value, event: Payload, k: Key, op: Op, p: Principal)
    ensures Reads(principal, event, k, op, p) <==>
              && Decode(principal, event).Some?
              && var c := Decode(principal, event).value; c.key == k && c.op == op && c.principal == p
    ensures Decode(principal, event).Some? ==>
              && event.Dict? && event.fields.Keys == {"op", "allocation", "generation", "sequence", "epoch"}
              && var c := Decode(principal, event).value;
                 && event.fields["generation"] == Number(c.generation) && event.fields["epoch"] == Number(c.epoch)
                 && event.fields["sequence"] == Number(c.sequence)
  {
  }

  lemma AsksMeans(mem: Mem, principal: Value, event: Payload, k: Key, op: Op, p: Principal)
    requires mem.storageOk
    ensures Asks(mem.allocations[k], principal, event, k, op, p) <==>
              && Decode(principal, event).Some?
              && var c := Decode(principal, event).value;
                 c.key == k && c.op == op && c.principal == p && Refusal(mem, c).None?
  {
    hide Decode;
    DecodeMeans(principal, event, k, op, p);
  }

  lemma JudgeMeans(row: Allocation, c: Cmd, exec: Exec, observed: Observed)
    ensures var v := Judge(row, c, exec, observed);
            && (v.Decided? && v.result == OK <==> Possible(row, exec, observed, c.op))
            && (v.Decided? ==>
                  SameButAudit(if v.result == OK then Ordered(row, c.op, c.principal, c.sequence)
                               else row.(sequence := row.sequence[c.principal := c.sequence]), v.row))
            && (v.Exhaust? ==> row.epoch == 1_000_000_000)
  {
    hide Audited;
    forall r: Allocation, o: Op, result: Result
      ensures r == Audited(r, o, result).(audit := r.audit, dropped := r.dropped)
    {
      AuditedKeeps(r, o, result);
    }
  }

  // ---------- the table ----------

  /** Done exactly where someone who may asks for what is possible and the write works: the row is ordered, a start
      launches, everything but an approval forgets what was seen, and the other allocation is left alone. */
  ghost predicate Did(l: Live, n: Live, k: Key, op: Op, p: Principal, sequence: int) {
    && SameButAudit(Ordered(l.mem.allocations[k], op, p, sequence), n.mem.allocations[k])
    && (forall other: Key :: other != k ==>
          n.mem.allocations[other] == l.mem.allocations[other] && n.world.execs[other] == l.world.execs[other])
    && n.world.tick == l.world.tick && n.mem.storageOk
    && n.mem.observations == (if op == Approve then l.mem.observations else l.mem.observations - {k})
    && (if op == Start then
          && n.world.execs[k].running && n.world.execs[k].connected && n.world.execs[k].remoteRunning
          && n.world.execs[k].generation == l.world.execs[k].generation
          && n.world.execs[k].launches == l.world.execs[k].launches + 1
        else n.world.execs[k] == l.world.execs[k])
    && Durable(n.disk) == n.mem.allocations
  }

  /** An admitted command that is denied uses up its number, and that is all. */
  ghost predicate Counted(l: Live, n: Live, k: Key, p: Principal, sequence: int) {
    var row := l.mem.allocations[k];
    && SameButAudit(row.(sequence := row.sequence[p := sequence]), n.mem.allocations[k])
    && (forall other: Key :: other != k ==> n.mem.allocations[other] == l.mem.allocations[other])
    && n.world == l.world && n.mem.storageOk && Durable(n.disk) == n.mem.allocations
  }

  lemma CommandMeans(l: Live, principal: Value, event: Payload, fault: Fault, k: Key, op: Op, p: Principal)
    requires LiveInv(l) && l.mem.storageOk && Asks(l.mem.allocations[k], principal, event, k, op, p)
    ensures var (n, reply) := Command(l, principal, event, fault);
            var possible := Possible(l.mem.allocations[k], l.world.execs[k], Status(l, k).observed, op);
            && (fault.Healthy? && possible ==> reply == Done)
            && (reply == Done ==> possible && Did(l, n, k, op, p, event.fields["sequence"].n))
            && (reply == Denied ==> !possible && Counted(l, n, k, p, event.fields["sequence"].n))
            && (reply == Exhausted ==> n == l && !possible && l.mem.allocations[k].epoch == 1_000_000_000)
            && (fault.Healthy? ==> reply in {Done, Denied, Exhausted})
  {
    hide LiveInv, Execute, VerdictOn, Refusal, Possible, Did, Asks, Decode, Counted;
    AsksMeans(l.mem, principal, event, k, op, p);
    DecodeMeans(principal, event, k, op, p);
    DecodedRange(principal, event);
    ExecuteMeans(l, Decode(principal, event).value, fault);
  }

  lemma DecodedRange(principal: Value, event: Payload)
    ensures Decode(principal, event).Some? ==> 0 <= Decode(principal, event).value.sequence <= MAX_INTEGER
  {
  }

  /** And nobody is told it was done, or was denied it, who did not ask for it so. */
  lemma DoneWasAsked(l: Live, principal: Value, event: Payload, fault: Fault)
    requires Command(l, principal, event, fault).1 == Done
    ensures l.mem.storageOk
    ensures exists k: Key, op: Op, p: Principal :: Asks(l.mem.allocations[k], principal, event, k, op, p)
  {
    hide VerdictOn, Refusal, Asks, Decode, Conclude;
    if !l.mem.storageOk { StorageRefuses(l, principal, event, fault); }
    var c := Decode(principal, event).value;
    AsksMeans(l.mem, principal, event, c.key, c.op, c.principal);
    RefusalIsNotDone(l.mem, c);
    assert Asks(l.mem.allocations[c.key], principal, event, c.key, c.op, c.principal);
  }

  /** Every other event changes nothing, and the answer names the first check it fails. */
  lemma RefusedInOrder(l: Live, principal: Value, event: Payload, fault: Fault, k: Key, op: Op, p: Principal)
    ensures var (n, reply) := Command(l, principal, event, fault);
            var row := l.mem.allocations[k];
            && ((forall k', op', p' :: !Reads(principal, event, k', op', p')) ==> n == l && reply == Invalid)
            && (Reads(principal, event, k, op, p) && !(l.mem.storageOk && Asks(row, principal, event, k, op, p)) ==>
                  && n == l
                  && reply == if !l.mem.storageOk then StorageUnknown
                              else if event.fields["generation"].n != row.generation
                                      || event.fields["epoch"].n != row.epoch then StaleScope
                              else if event.fields["sequence"].n <= row.sequence[p] then Replay
                              else Denied)
  {
    hide VerdictOn, Conclude, Decode, Reads;
    DecodeMeans(principal, event, k, op, p);
    if Decode(principal, event).Some? {
      var c := Decode(principal, event).value;
      DecodeMeans(principal, event, c.key, c.op, c.principal);
      if Reads(principal, event, k, op, p) { ReadsWhom(principal, event, k, op, p); }
    }
  }

  lemma ReadsWhom(principal: Value, event: Payload, k: Key, op: Op, p: Principal)
    requires Reads(principal, event, k, op, p)
    ensures (principal == Text("human") <==> p == Human) && (principal == Text("scheduler") <==> p == Scheduler)
    ensures "generation" in event.fields && event.fields["generation"].Number?
    ensures "epoch" in event.fields && event.fields["epoch"].Number?
    ensures "sequence" in event.fields && event.fields["sequence"].Number?
  {
  }

  // ---------- what is seen ----------

  /** `status` says ALLOWED of an idle allocation exactly where a start would be possible, and REQUESTED exactly under
      a latch; so it never says both. */
  lemma AllowedMeansStart(l: Live, k: Key)
    ensures var row, exec, report := l.mem.allocations[k], l.world.execs[k], Status(l, k);
            && (exec.generation == row.generation && !exec.running && !exec.remoteRunning ==>
                  (report.admitted <==> l.mem.storageOk && Possible(row, exec, report.observed, Start)))
            && (report.stopRequested <==> l.mem.storageOk && row.latched)
            && !(report.admitted && report.stopRequested)
            && report.generation == row.generation && report.epoch == row.epoch && report.storageOk == l.mem.storageOk
  {
  }

  /** A sample is reported for five ticks, and then no longer. */
  lemma SampleLasts(l: Live, k: Key, ticks: int)
    requires l.mem.storageOk && l.mem.allocations[k].control
    requires l.mem.allocations[k].generation == l.world.execs[k].generation
    requires 0 <= ticks && Advance(l.world, ticks).Some?
    ensures var (n, seen) := Observe(l, k, false);
            var exec := l.world.execs[k];
            && seen == (if exec.running || exec.remoteRunning then RUNNING else VERIFIED_STOPPED)
            && Status(n.(world := Advance(n.world, ticks).value), k).observed == if ticks <= 5 then seen else UNKNOWN
  {
  }

  lemma RefusalIsNotDone(mem: Mem, c: Cmd)
    ensures Refusal(mem, c) != Some(Done)
  {
  }

  lemma StorageRefuses(l: Live, principal: Value, event: Payload, fault: Fault)
    requires !l.mem.storageOk
    ensures Command(l, principal, event, fault).0 == l && Command(l, principal, event, fault).1 != Done
  {
    hide VerdictOn, Conclude, Decode;
  }

  lemma ConcludeMeans(l: Live, c: Cmd, row: Allocation, result: Result, fault: Fault)
    requires LiveInv(l) && l.mem.storageOk && Storable(row)
    ensures var (n, reply) := Conclude(l, c, row, result, fault);
            && (fault.Healthy? ==> reply == if result == OK then Done else Denied)
            && reply in {Done, Denied, StorageUnknown, Crashed}
            && (reply == Done ==> result == OK)
            && (reply == Denied ==> result == DENIED)
            && (reply == Done || reply == Denied ==>
                  && n.mem.storageOk && n.mem.allocations == Put(l.mem.allocations, c.key, row)
                  && Durable(n.disk) == n.mem.allocations
                  && n.world == Enact(l, c, result).world && n.mem.observations == Enact(l, c, result).mem.observations)
  {
    hide Durable, Readable, AllStorable, Storable, Inv, Commit, Put;
    LiveSynced(l);
    LiveStorable(l);
    StorableUpdate(l.mem.allocations, c.key, row);
    CommitEffect(l, Put(l.mem.allocations, c.key, row), fault);
    CommitFails(l, Put(l.mem.allocations, c.key, row), fault);
  }

  lemma ExecuteMeans(l: Live, c: Cmd, fault: Fault)
    requires LiveInv(l) && l.mem.storageOk && Refusal(l.mem, c).None? && 0 <= c.sequence <= MAX_INTEGER
    ensures var (n, reply) := Execute(l, c, fault);
            var possible := Possible(l.mem.allocations[c.key], l.world.execs[c.key], Status(l, c.key).observed, c.op);
            && (fault.Healthy? && possible ==> reply == Done)
            && (reply == Done ==> possible && Did(l, n, c.key, c.op, c.principal, c.sequence))
            && (reply == Denied ==> !possible && Counted(l, n, c.key, c.principal, c.sequence))
            && (reply == Exhausted ==> n == l && !possible && l.mem.allocations[c.key].epoch == 1_000_000_000)
            && (fault.Healthy? ==> reply in {Done, Denied, Exhausted})
  {
    hide Durable, Judge, Storable, LiveInv, Sighted, Ordered, SameButAudit, Conclude, Possible, Refusal;
    JudgeMeans(l.mem.allocations[c.key], c, l.world.execs[c.key], Sighted(l, c.key));
    if VerdictOn(l, c).Exhaust? { return; }
    VerdictStorable(l, c);
    ConcludeMeans(l, c, VerdictOn(l, c).row, VerdictOn(l, c).result, fault);
  }

  lemma VerdictStorable(l: Live, c: Cmd)
    requires LiveInv(l) && l.mem.storageOk && 0 <= c.sequence <= MAX_INTEGER && VerdictOn(l, c).Decided?
    ensures Storable(VerdictOn(l, c).row)
  {
    hide Durable, Readable, AllStorable, Judge, Storable, Inv, Sighted;
    LiveSynced(l);
    LiveStorable(l);
    StorableAt(l.mem.allocations, c.key);
    JudgeStorable(l.mem.allocations[c.key], c, l.world.execs[c.key], Sighted(l, c.key));
  }
}
