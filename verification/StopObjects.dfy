/** The objects of experiments/human_override/model.py, with fields updated in place.  Each method
    is proved to do exactly what the step function of HumanStop does to the objects' values. */
module StopObjects {
  import opened Json
  import opened Arithmetic
  import opened StopStorage
  import H = HumanStop

  class Execution {
    var generation: int
    var running: bool
    var connected: bool
    var remoteRunning: bool
    var launches: int
    var revision: int
    var effects: seq<H.Effect>

    constructor (generation: int)
      ensures View() == H.FreshExec(generation)
    {
      this.generation := generation;
      running, connected, remoteRunning := false, false, false;
      launches, revision, effects := 0, 0, [];
    }

    function View(): H.Exec
      reads this
    {
      H.Exec(generation, running, connected, remoteRunning, launches, revision, effects)
    }
  }

  class World {
    var allocations: map<Key, Execution>
    var tick: int

    ghost predicate Valid()
      reads this
    {
      (forall k: Key :: k in allocations) && allocations[A] != allocations[B]
    }

    ghost function Repr(): set<object>
      reads this
      requires Valid()
    {
      {this, allocations[A], allocations[B]}
    }

    ghost function View(): H.WorldState
      requires Valid()
      reads this, Repr()
    {
      EveryKey();
      H.WorldState(map k | k in KEYS :: allocations[k].View(), tick)
    }

    constructor ()
      ensures Valid() && fresh(Repr())
      ensures View() == H.WorldState(H.FreshExecs(), 0)
    {
      var a := new Execution(1);
      var b := new Execution(1);
      allocations := map[A := a, B := b];
      tick := 0;
      new;
      forall k: Key ensures k in allocations { match k case A => case B => }
      forall k: Key ensures View().execs[k] == H.FreshExecs()[k] { match k case A => case B => }
      assert View().execs == H.FreshExecs();
    }

    /** `advance`; false when it raises. */
    method Advance(ticks: int) returns (ok: bool)
      requires Valid()
      modifies this`tick
      ensures Valid() && allocations == old(allocations) && Repr() == old(Repr())
      ensures ok == H.Advance(old(View()), ticks).Some?
      ensures View() == if ok then H.Advance(old(View()), ticks).value else old(View())
      ensures (ok <==> 0 <= ticks <= 1_000_000_000 - old(tick)) && tick == old(tick) + if ok then ticks else 0
    {
      if !(0 <= ticks <= MAX_INTEGER - tick) { return false; }
      tick := tick + ticks;
      return true;
    }

    lemma Owns(k: Key)
      requires Valid()
      ensures allocations[k] in Repr()
    {
      match k case A => case B =>
    }

    lemma ViewAt(k: Key)
      requires Valid()
      ensures View().execs[k] == allocations[k].View() && View().tick == tick
    {
    }

    twostate lemma ViewChanged(k: Key)
      requires old(Valid()) && Valid() && old(tick) == tick
      requires forall other: Key :: other != k ==> allocations[other].View() == old(allocations[other].View())
      ensures View() == old(View()).(execs := H.PutExec(old(View()).execs, k, allocations[k].View()))
    {
      assert View().execs == H.PutExec(old(View()).execs, k, allocations[k].View());
    }

    twostate lemma ViewKept()
      requires old(Valid()) && unchanged(this)
      requires unchanged(allocations[A]) && unchanged(allocations[B])
      ensures Valid() && View() == old(View())
    {
      forall k: Key ensures View().execs[k] == old(View()).execs[k] { match k case A => case B => }
      assert View().execs == old(View()).execs;
    }

    /** `effect`; None when it raises. */
    method Effect(k: Key, kind: string) returns (reached: Option<bool>)
      requires Valid()
      modifies allocations[k]
      ensures Valid()
      ensures reached.Some? == H.Affect(old(View()), k, kind).Some?
      ensures reached.Some? ==> H.Affect(old(View()), k, kind).value == (View(), reached.value)
      ensures reached.None? ==> View() == old(View())
      ensures reached.Some? <==> kind in {"read", "export", "child", "restart", "lateral", "tamper"}
      ensures reached.Some? ==>
                (reached.value <==> old(allocations[k].running)
                                    && (kind == "export" ==> old(allocations[k].connected)))
      ensures allocations[k].effects ==
                old(allocations[k].effects) + if reached == Some(true) then [H.Effect(kind, tick)] else []
    {
      if kind !in H.EFFECT_KINDS { return None; }
      hide H.EFFECT_KINDS;
      var execution := allocations[k];
      var hit := execution.running && (kind != "export" || execution.connected);
      if hit {
        execution.effects := execution.effects + [H.Effect(kind, tick)];
        ViewChanged(k);
      }
      return Some(hit);
    }
  }

  class Disk {
    var state: Option<Json>
    var pending: bool

    /** A fresh directory. */
    constructor ()
      ensures View() == H.DiskState(None, false)
    {
      state, pending := None, false;
    }

    ghost function View(): H.DiskState
      reads this
    {
      H.DiskState(state, pending)
    }
  }

  class Controller {
    const disk: Disk
    const world: World
    var allocations: Records
    var observations: map<Key, H.Observation>
    var storageOk: bool

    ghost predicate Valid()
      reads this, world
    {
      world.Valid()
    }

    ghost function Frame(): set<object>
      requires Valid()
      reads this, world
    {
      {this, disk} + world.Repr()
    }

    ghost function View(): H.Live
      requires Valid()
      reads this, disk, world, world.Repr()
    {
      H.Live(disk.View(), world.View(), H.Mem(allocations, observations, storageOk))
    }

    /** `Controller(path, world)` over an existing file. */
    constructor Reopen(disk: Disk, world: World)
      requires world.Valid()
      ensures Valid() && this.disk == disk && this.world == world
      ensures View() == H.Live(disk.View(), world.View(), H.Reopen(disk.View()))
    {
      hide World.View, Load, FreshRecords;
      this.disk := disk;
      this.world := world;
      allocations := FreshRecords();
      observations := map[];
      storageOk := false;
      new;
      if !disk.pending && disk.state.Some? {
        var loaded := Load(disk.state.value);
        if loaded.Some? {
          allocations := loaded.value;
          storageOk := true;
        }
      }
    }

    /** `Controller(path, world, create=True)`; null when it raises. */
    static method Create(disk: Disk, world: World, fault: H.Fault) returns (c: Controller?)
      requires world.Valid()
      modifies disk
      ensures old(disk.state.Some?) ==> c == null && disk.View() == old(disk.View())
      ensures old(disk.state.None?) ==>
                && (c != null <==> H.Persist(old(disk.View()), FreshRecords(), fault).1.Kept?)
                && disk.View() == H.Persist(old(disk.View()), FreshRecords(), fault).0
      ensures c != null ==>
                && fresh(c) && c.Valid() && c.disk == disk && c.world == world
                && c.View() == H.Live(disk.View(), old(world.View()), H.Mem(FreshRecords(), map[], true))
    {
      hide World.View, H.Persist, FreshRecords;
      if disk.state.Some? { return null; }
      var made := new Controller.Blank(disk, world);
      var stored := made.Persist(FreshRecords(), fault);
      if !stored.Kept? { return null; }
      world.ViewKept();
      return made;
    }

    constructor Blank(disk: Disk, world: World)
      requires world.Valid()
      ensures Valid() && this.disk == disk && this.world == world
      ensures View() == H.Live(disk.View(), world.View(), H.Mem(FreshRecords(), map[], true))
    {
      this.disk := disk;
      this.world := world;
      allocations := FreshRecords();
      observations := map[];
      storageOk := true;
    }

    /** `_persist`: Failed where it raises, Died where the process ends inside it. */
    method Persist(records: Records, fault: H.Fault) returns (stored: H.Stored)
      requires Valid()
      modifies disk
      ensures (disk.View(), stored) == H.Persist(old(disk.View()), records, fault)
    {
      hide Bounded, Encode, Length;
      if fault.DiesBeforeOpen? { return H.Died; }
      var payload := Encode(records);
      var admitted := BoundedJson(Length(payload), payload);
      if !admitted { return H.Failed; }
      if disk.pending || fault.OpenFails? { return H.Failed; }
      disk.pending := true;
      if fault.WriteFails? { return H.Failed; }
      if fault.DiesWithPending? { return H.Died; }
      if fault.ReplaceFails? { return H.Failed; }
      disk.state, disk.pending := Some(payload), false;
      if fault.DiesAfterReplace? { return H.Died; }
      return H.Kept;
    }

    /** `_commit`. */
    method Commit(records: Records, fault: H.Fault) returns (stored: H.Stored)
      requires Valid()
      modifies this, disk
      ensures Valid()
      ensures (View(), stored) == H.Commit(old(View()), records, fault)
    {
      hide H.Persist, World.View;
      stored := Persist(records, fault);
      match stored {
        case Failed =>
          storageOk := false;
          observations := map[];
        case Kept =>
          allocations := records;
        case Died =>
      }
      world.ViewKept();
    }

    /** `command`; Crashed where the process ends inside it. */
    method Command(principal: H.Value, event: H.Payload, fault: H.Fault) returns (reply: H.Reply)
      requires Valid()
      modifies Frame()
      ensures Valid()
      ensures world.allocations == old(world.allocations)
      ensures (View(), reply) == H.Command(old(View()), principal, event, fault)
    {
      hide World.View, H.Decode, H.Execute;
      var decoded := H.Decode(principal, event);
      if decoded.None? { return H.Invalid; }
      reply := Execute(decoded.value, fault);
    }

    /** `command` once the event has passed the type and range checks. */
    method Execute(c: H.Cmd, fault: H.Fault) returns (reply: H.Reply)
      requires Valid()
      modifies Frame()
      ensures Valid()
      ensures world.allocations == old(world.allocations)
      ensures (View(), reply) == H.Execute(old(View()), c, fault)
    {
      hide World.View, H.VerdictOn, H.Conclude;
      if !storageOk { return H.StorageUnknown; }
      var current := allocations[c.key];
      if (c.generation, c.epoch) != (current.generation, current.epoch) { return H.StaleScope; }
      if c.sequence <= current.sequence[c.principal] { return H.Replay; }
      if c.principal == Guest || (c.op != Start && c.principal != Human) { return H.Denied; }
      var verdict := Judge(c);
      if verdict.Exhaust? { return H.Exhausted; }
      reply := Conclude(c, verdict.row, verdict.result, fault);
    }

    /** The end of `command`: commit, then let the World follow. */
    method Conclude(c: H.Cmd, row: Allocation, result: Result, fault: H.Fault) returns (reply: H.Reply)
      requires Valid()
      modifies Frame()
      ensures Valid()
      ensures world.allocations == old(world.allocations)
      ensures (View(), reply) == H.Conclude(old(View()), c, row, result, fault)
    {
      hide H.Commit, World.View, H.Put, H.Enact;
      world.Owns(c.key);
      var stored := Commit(H.Put(allocations, c.key, row), fault);
      if stored.Died? { return H.Crashed; }
      if stored.Failed? { return H.StorageUnknown; }
      Enact(c, result);
      return if result == OK then H.Done else H.Denied;
    }

    /** The middle of `command`: the new row and result for an admitted command. */
    method Judge(c: H.Cmd) returns (verdict: H.Verdict)
      requires Valid()
      ensures verdict == H.VerdictOn(View(), c)
    {
      hide AuditText, World.View, H.Sighted;
      var row := allocations[c.key];
      row := row.(sequence := row.sequence[c.principal := c.sequence]);
      var result := OK;
      var execution := world.allocations[c.key];
      world.ViewAt(c.key);
      match c.op {
        case Stop =>
          if !row.latched {
            if row.epoch == MAX_INTEGER { return H.Exhaust; }
            row := row.(epoch := row.epoch + 1);
          }
          row := row.(latched := true, approved := false);
        case Reset =>
          var status := Status(c.key);
          if !row.latched || status.observed != H.VERIFIED_STOPPED {
            result := DENIED;
          } else {
            if row.epoch == MAX_INTEGER { return H.Exhaust; }
            row := row.(epoch := row.epoch + 1, latched := false, approved := false);
          }
        case Approve =>
          if row.latched || !row.control {
            result := DENIED;
          } else {
            row := row.(approved := true);
          }
        case Start =>
          if row.latched || !row.control || !row.approved || execution.generation != row.generation
             || execution.running || execution.remoteRunning {
            result := DENIED;
          }
      }
      row := row.(audit := row.audit + [AuditText(c.op, result)]);
      if |row.audit| > AUDIT_LIMIT {
        row := row.(audit := row.audit[1..], dropped := Min(MAX_INTEGER, row.dropped + 1));
      }
      return H.Decided(row, result);
    }

    /** The last statements of `command`: after the commit, before the reply. */
    method Enact(c: H.Cmd, result: Result)
      requires Valid()
      modifies this, world.allocations[c.key]
      ensures Valid()
      ensures View() == H.Enact(old(View()), c, result)
    {
      hide World.View;
      var execution := world.allocations[c.key];
      world.ViewAt(c.key);
      if c.op in {Stop, Reset, Start} { observations := observations - {c.key}; }
      world.ViewKept();
      if c.op == Start && result == OK {
        label launch:
        execution.running, execution.connected, execution.remoteRunning := true, true, true;
        execution.launches := execution.launches + 1;
        execution.revision := execution.revision + 1;
        world.ViewChanged@launch(c.key);
      }
    }

    /** `status`. */
    method Status(k: Key) returns (report: H.Report)
      requires Valid()
      ensures report == H.Status(View(), k)
    {
      var row, execution := allocations[k], world.allocations[k];
      world.ViewAt(k);
      var observed := H.UNKNOWN;
      if k in observations && storageOk && row.control {
        var o := observations[k];
        if o.generation == row.generation == execution.generation && o.epoch == row.epoch
           && 0 <= world.tick - o.tick <= H.OBSERVATION_TTL && o.revision == execution.revision {
          observed := o.state;
        }
      }
      return H.Report(row.generation, row.epoch, storageOk && row.control && row.approved && !row.latched,
                      storageOk && row.latched, observed, storageOk);
    }

    /** `set_control`: Kept where it returns True. */
    method SetControl(k: Key, available: bool, fault: H.Fault) returns (stored: H.Stored)
      requires Valid()
      modifies this, disk
      ensures Valid()
      ensures (View(), stored) == H.SetControl(old(View()), k, available, fault)
    {
      hide H.Commit, World.View;
      if !storageOk { return H.Failed; }
      var row := allocations[k].(control := available, approved := false);
      observations := observations - {k};
      world.ViewKept();
      stored := Commit(H.Put(allocations, k, row), fault);
    }

    /** `adapter`. */
    method Adapter(k: Key, cancelRemote: bool, fail: bool) returns (done: bool)
      requires Valid()
      modifies this, world.allocations[k]
      ensures Valid()
      ensures (View(), done) == H.Adapter(old(View()), k, cancelRemote, fail)
      ensures done <==> && old(storageOk) && old(allocations)[k].latched && old(allocations)[k].control && !fail
                        && old(allocations)[k].generation == old(world.allocations[k].generation)
      ensures done ==>
                && !world.allocations[k].running && !world.allocations[k].connected
                && (world.allocations[k].remoteRunning <==> old(world.allocations[k].remoteRunning) && !cancelRemote)
    {
      hide World.View;
      var row, execution := allocations[k], world.allocations[k];
      world.ViewAt(k);
      if !storageOk || !row.latched || !row.control || fail || row.generation != execution.generation {
        return false;
      }
      execution.running, execution.connected := false, false;
      if cancelRemote { execution.remoteRunning := false; }
      execution.revision := execution.revision + 1;
      observations := observations - {k};
      world.ViewChanged(k);
      return true;
    }

    /** `observe`. */
    method Observe(k: Key, fail: bool) returns (seen: H.Observed)
      requires Valid()
      modifies this
      ensures Valid()
      ensures (View(), seen) == H.Observe(old(View()), k, fail)
    {
      hide World.View;
      observations := observations - {k};
      world.ViewKept();
      var row, execution := allocations[k], world.allocations[k];
      world.ViewAt(k);
      if fail || !storageOk || !row.control || row.generation != execution.generation { return H.UNKNOWN; }
      seen := if execution.running || execution.remoteRunning then H.RUNNING else H.VERIFIED_STOPPED;
      observations := observations[k := H.Observation(row.generation, row.epoch, world.tick, execution.revision, seen)];
      world.ViewKept();
    }

    /** `replace_allocation`: Kept where it returns True. */
    method Replace(k: Key, fault: H.Fault) returns (stored: H.Stored)
      requires Valid()
      modifies Frame()
      ensures Valid()
      ensures (View(), stored) == H.Replace(old(View()), k, fault)
    {
      hide World.View, H.Regenerate;
      var row, execution := allocations[k], world.allocations[k];
      world.ViewAt(k);
      if !storageOk || row.latched || !row.control || execution.running || execution.remoteRunning
         || row.generation == MAX_INTEGER {
        return H.Failed;
      }
      stored := Regenerate(k, row.generation + 1, fault);
    }

    /** What it does once the guards have passed: commit, then the World. */
    method Regenerate(k: Key, generation: int, fault: H.Fault) returns (stored: H.Stored)
      requires Valid()
      modifies Frame()
      ensures Valid()
      ensures (View(), stored) == H.Regenerate(old(View()), k, generation, fault)
    {
      hide H.Commit, World.View, H.Put, H.Renew, FreshAllocation;
      stored := Commit(H.Put(allocations, k, FreshAllocation(generation)), fault);
      if !stored.Kept? { return; }
      Renew(k, generation);
    }

    /** The last statements of `replace_allocation`: a fresh Execution, not yet observed. */
    method Renew(k: Key, generation: int)
      requires Valid()
      modifies this, world
      ensures Valid()
      ensures View() == H.Renew(old(View()), k, generation)
    {
      hide World.View;
      var renewed := new Execution(generation);
      world.allocations := world.allocations[k := renewed];
      world.ViewChanged(k);
      label popped:
      observations := observations - {k};
      world.ViewKept@popped();
    }
  }
}
