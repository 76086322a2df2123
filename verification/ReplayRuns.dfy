/** The tick loop of a replay and its whole-run theorems: when it raises, when it responds, why an effect
    was prevented, and how the arms compare. */
module ReplayRuns {
  import opened Json
  import opened StopStorage
  import opened HumanStop
  import opened StopLaws
  import opened StopRuns
  import opened D = Detection
  import opened DetectionStreams
  import opened Replay

  // ---------- commands given by the replay ----------

  /** The next human command for the current scope. */
  function OrderCmd(l: Live, op: Op, k: Key): Cmd {
    var row := l.mem.allocations[k];
    Cmd(Human, op, k, row.generation, row.sequence[Human] + 1, row.epoch)
  }

  /** The event the replay builds for it. */
  function OrderEvent(l: Live, op: Op, k: Key): Payload {
    var row := l.mem.allocations[k];
    Dict(map["op" := Text(OpText(op)), "allocation" := Text(KeyName(k)), "generation" := Number(row.generation),
             "epoch" := Number(row.epoch), "sequence" := Number(row.sequence[Human] + 1)])
  }

  /** None where the outcome is not "OK" and the replay raises. */
  function Order(l: Live, op: Op, k: Key): Option<Live> {
    var (next, reply) := Command(l, Text("human"), OrderEvent(l, op, k), Healthy);
    if reply == Done then Some(next) else None
  }

  predicate Room(l: Live, k: Key) {
    l.mem.allocations[k].sequence[Human] < MAX_INTEGER && l.mem.allocations[k].epoch < MAX_INTEGER
  }

  predicate Allowed(l: Live, op: Op, k: Key) {
    var row := l.mem.allocations[k];
    match op
    case Stop => true
    case Reset => row.latched && Sighted(l, k) == VERIFIED_STOPPED
    case Approve => !row.latched && row.control
    case Start => !StartRefused(row, l.world.execs[k])
  }

  /** The part of a row the replay depends on. */
  datatype Core = Core(generation: int, epoch: int, latched: bool, approved: bool, control: bool, human: int)

  function CoreOf(row: Allocation): Core {
    Core(row.generation, row.epoch, row.latched, row.approved, row.control, row.sequence[Human])
  }

  function After(c: Core, op: Op): Core {
    var d := c.(human := c.human + 1);
    match op
    case Stop => d.(epoch := if d.latched then d.epoch else d.epoch + 1, latched := true, approved := false)
    case Reset => d.(epoch := d.epoch + 1, latched := false, approved := false)
    case Approve => d.(approved := true)
    case Start => d
  }

  /** The event is the command it was meant to be. */
  lemma OrderDecodes(l: Live, op: Op, k: Key)
    requires LiveInv(l) && l.mem.storageOk && Room(l, k)
    ensures Decode(Text("human"), OrderEvent(l, op, k)) == Some(OrderCmd(l, op, k))
  {
    hide LiveInv, AllStorable, Durable;
    LiveSynced(l);
    LiveStorable(l);
    StorableAt(l.mem.allocations, k);
    var f := OrderEvent(l, op, k).fields;
    assert f.Keys == {"op", "allocation", "generation", "sequence", "epoch"};
  }

  lemma ExecuteHealthy(l: Live, c: Cmd)
    requires LiveInv(l) && Refusal(l.mem, c).None? && VerdictOn(l, c).Decided? && 0 <= c.sequence <= MAX_INTEGER
    ensures var (n, reply) := Execute(l, c, Healthy);
            var result := VerdictOn(l, c).result;
            && LiveInv(n) && n.mem.storageOk
            && reply == (if result == OK then Done else Denied)
            && n.mem.allocations == Put(l.mem.allocations, c.key, VerdictOn(l, c).row)
            && n.world == Enact(l, c, result).world
            && n.mem.observations == Enact(l, c, result).mem.observations
  {
    hide Durable, Readable, AllStorable, Persist, Judge, Storable, Inv, Sighted, Put;
    LiveSynced(l);
    LiveStorable(l);
    StorableAt(l.mem.allocations, c.key);
    JudgeStorable(l.mem.allocations[c.key], c, l.world.execs[c.key], Sighted(l, c.key));
    var records := Put(l.mem.allocations, c.key, VerdictOn(l, c).row);
    StorableUpdate(l.mem.allocations, c.key, VerdictOn(l, c).row);
    LiveReadable(l);
    PersistEffect(l.disk, records, Healthy);
    CommitEffect(l, records, Healthy);
    var (n, stored) := Commit(l, records, Healthy);
    EnactInv(n, c, VerdictOn(l, c).result);
  }

  lemma OrderVerdict(l: Live, op: Op, k: Key)
    requires l.mem.storageOk && Room(l, k) && Allowed(l, op, k)
    ensures Refusal(l.mem, OrderCmd(l, op, k)).None?
    ensures var v := VerdictOn(l, OrderCmd(l, op, k));
            v.Decided? && v.result == OK && CoreOf(v.row) == After(CoreOf(l.mem.allocations[k]), op)
  {
    hide Audited, Sighted;
    forall row: Allocation, o: Op, result: Result
      ensures row == Audited(row, o, result).(audit := row.audit, dropped := row.dropped)
    {
      AuditedKeeps(row, o, result);
    }
  }

  /** What an order does when the controller is in order. */
  lemma OrderEffect(l: Live, op: Op, k: Key)
    requires LiveInv(l) && l.mem.storageOk && Room(l, k) && Allowed(l, op, k)
    requires 0 <= l.mem.allocations[k].sequence[Human]
    ensures Order(l, op, k).Some?
    ensures var n := Order(l, op, k).value;
            && LiveInv(n) && n.mem.storageOk
            && CoreOf(n.mem.allocations[k]) == After(CoreOf(l.mem.allocations[k]), op)
            && (forall other: Key :: other != k ==> n.mem.allocations[other] == l.mem.allocations[other])
            && n.world.tick == l.world.tick
            && (forall other: Key :: n.world.execs[other]
                  == if other == k && op == Start then Launched(l.world.execs[k]) else l.world.execs[other])
            && n.mem.observations == if op == Approve then l.mem.observations else l.mem.observations - {k}
  {
    hide Inv, Execute, VerdictOn, Launched, Sighted, Refusal, Decode, OrderEvent;
    OrderDecodes(l, op, k);
    OrderVerdict(l, op, k);
    ExecuteHealthy(l, OrderCmd(l, op, k));
  }

  // ---------- the tick loop ----------

  /** Everything a replay of one arm is given. */
  datatype Setup = Setup(events: seq<Event>, effectTick: int, duration: int, arm: Arm, acl: bool, effect: string)

  /** The local variables of the loop and the objects it drives. */
  datatype Rig = Rig(
    live: Live, detecting: Detecting, due: Option<int>, acted: Option<int>, reached: bool, blocked: bool)

  predicate Blocks(p: Setup) { !p.arm.PositiveControl? && !p.acl }

  function Pause(arm: Arm): int { if arm.AlertOnly? then 30 else 1 }

  function Receive(arm: Arm, r: Rig, e: Event, tick: int): Option<Rig> {
    var (detecting, ok) := D.Step(arm, r.detecting, e, tick);
    if !ok then None
    else if detecting.detected.Some? && r.due.None? then
      var stopped := Order(r.live, Stop, A);
      if stopped.None? then None
      else Some(r.(detecting := detecting, live := stopped.value, due := Some(tick + Pause(arm))))
    else Some(r.(detecting := detecting))
  }

  function ReceiveAll(arm: Arm, r: Rig, es: seq<Event>, tick: int): Option<Rig>
    decreases |es|
  {
    if es == [] then Some(r)
    else
      var next := Receive(arm, r, es[0], tick);
      if next.None? then None else ReceiveAll(arm, next.value, es[1..], tick)
  }

  /** The events delivered at `tick`, in order. */
  function AtTick(events: seq<Event>, tick: int): seq<Event>
    decreases |events|
  {
    if events == [] then []
    else
      var n := |events| - 1;
      AtTick(events[..n], tick) + if events[n].availableTick == tick then [events[n]] else []
  }

  function Clock(r: Rig, tick: int): Option<Rig> {
    var w := Advance(r.live.world, tick - r.live.world.tick);
    if w.None? then None else Some(r.(live := r.live.(world := w.value)))
  }

  function Judged(p: Setup, r: Rig, tick: int): Option<Rig> {
    if tick != p.effectTick then Some(r)
    else if Blocks(p) then Some(r.(blocked := true))
    else
      var w := Affect(r.live.world, A, p.effect);
      if w.None? then None
      else Some(r.(blocked := false, live := r.live.(world := w.value.0), reached := w.value.1))
  }

  function Responded(r: Rig, tick: int): Option<Rig> {
    if r.due != Some(tick) then Some(r)
    else
      var (live, done) := Adapter(r.live, A, true, false);
      if done then Some(r.(live := live, acted := Some(tick))) else None
  }

  /** One pass of the loop; None where it raises. */
  function TickStep(p: Setup, r: Rig, tick: int): Option<Rig> {
    var a := Clock(r, tick);
    if a.None? then None
    else
      var b := Judged(p, a.value, tick);
      if b.None? then None
      else
        var c := Responded(b.value, tick);
        if c.None? then None else ReceiveAll(p.arm, c.value, AtTick(p.events, tick), tick)
  }

  /** The state after the first `n` ticks. */
  function RunTicks(p: Setup, r: Rig, n: nat): Option<Rig> {
    if n == 0 then Some(r)
    else
      var before := RunTicks(p, r, n - 1);
      if before.None? then None else TickStep(p, before.value, n - 1)
  }

  // ---------- deliveries by tick ----------

  /** How many events are available before `t`. */
  function Count(events: seq<Event>, t: int): nat
    decreases |events|
  {
    if events == [] then 0
    else if events[|events| - 1].availableTick < t then |events|
    else Count(events[..|events| - 1], t)
  }

  lemma {:induction false} CountMeans(events: seq<Event>, t: int)
    requires Ascending(events)
    ensures Count(events, t) <= |events|
    ensures forall i :: 0 <= i < Count(events, t) ==> events[i].availableTick < t
    ensures forall i :: Count(events, t) <= i < |events| ==> events[i].availableTick >= t
    decreases |events|
  {
    if events != [] && events[|events| - 1].availableTick >= t {
      CountMeans(events[..|events| - 1], t);
    }
  }

  lemma {:induction false} NothingAt(events: seq<Event>, tick: int)
    requires forall i :: 0 <= i < |events| ==> events[i].availableTick != tick
    ensures AtTick(events, tick) == []
    decreases |events|
  {
    if events != [] { NothingAt(events[..|events| - 1], tick); }
  }

  lemma {:induction false} AtTickIsNext(events: seq<Event>, tick: int)
    requires Ascending(events)
    ensures var k, m := Count(events, tick), Count(events, tick + 1);
            && m <= |events|
            && (m == k || m == k + 1)
            && AtTick(events, tick) == events[k..m]
            && (m == k + 1 ==> events[k].availableTick == tick)
    decreases |events|
  {
    CountMeans(events, tick);
    CountMeans(events, tick + 1);
    if events != [] {
      var n := |events| - 1;
      var k, m := Count(events, tick), Count(events, tick + 1);
      if events[n].availableTick > tick {
        AtTickIsNext(events[..n], tick);
        assert events[..n][k..m] == events[k..m];
      } else {
        NothingAtSmaller(events, n, tick);
      }
    }
  }

  lemma NothingAtSmaller(events: seq<Event>, n: nat, tick: int)
    requires Ascending(events) && n == |events| - 1 && events[n].availableTick <= tick
    ensures AtTick(events[..n], tick) == []
  {
    NothingAt(events[..n], tick);
  }

  // ---------- the loop invariant ----------

  /** Allocation A before detection, while the response is due, and after it. */
  ghost predicate AsExpected(l: Live, stopped: bool, ended: bool) {
    var exec := l.world.execs[A];
    && CoreOf(l.mem.allocations[A])
       == (if stopped then Core(1, 1, true, false, true, 3) else Core(1, 0, false, true, true, 2))
    && exec.generation == 1 && exec.launches == 1
    && exec.running == exec.connected == exec.remoteRunning == !ended
  }

  datatype Canary = Canary(row: Allocation, exec: Exec)

  function CanaryOf(l: Live): Canary { Canary(l.mem.allocations[B], l.world.execs[B]) }

  ghost function Found(p: Setup, n: int): Option<nat> {
    var ds := Deliveries(p.events);
    if Count(p.events, n) <= |ds| then DetectedAt(p.arm, ds, Count(p.events, n)) else None
  }

  /** The tick of the response due by the deliveries before tick `n`. */
  ghost function DueBy(p: Setup, n: int): Option<int> {
    if Found(p, n).Some? && Found(p, n).value < |p.events|
    then Some(p.events[Found(p, n).value].availableTick + Pause(p.arm)) else None
  }

  ghost predicate Timely(a: Option<int>, tick: int) { a.Some? && a.value < tick }

  /** The state when ticks `0 .. n - 1` have been processed. */
  ghost predicate Stage(p: Setup, canary: Canary, r: Rig, n: nat) {
    var due := DueBy(p, n);
    && LiveInv(r.live) && r.live.mem.storageOk
    && r.live.world.tick == (if n == 0 then 0 else n - 1)
    && Count(p.events, n) <= |p.events|
    && r.detecting == Feed(p.arm, Deliveries(p.events), Count(p.events, n)).0
    && r.due == due
    && r.acted == (if Timely(due, n) then due else None)
    && r.blocked == (p.effectTick < n && Blocks(p))
    && r.reached == (p.effectTick < n && !Blocks(p) && !Timely(due, p.effectTick))
    && AsExpected(r.live, due.Some?, r.acted.Some?)
    && CanaryOf(r.live) == canary
  }

  ghost predicate SetupOk(p: Setup) {
    && Ascending(p.events) && ValidStream(Deliveries(p.events))
    && 0 <= p.effectTick
    && (p.effect in EFFECT_KINDS || Blocks(p))
  }

  lemma ClockStep(r: Rig, n: nat)
    requires LiveInv(r.live) && r.live.world.tick == (if n == 0 then 0 else n - 1)
    ensures Clock(r, n).Some? <==> n <= MAX_INTEGER
    ensures Clock(r, n).Some? ==>
              var l := Clock(r, n).value.live;
              && Clock(r, n).value == r.(live := l) && LiveInv(l) && l.mem == r.live.mem
              && l.world.tick == n && l.world.execs == r.live.world.execs && l.disk == r.live.disk
  {
    hide Durable, Readable, AllStorable;
  }

  lemma JudgedStep(p: Setup, r: Rig, n: nat)
    requires LiveInv(r.live) && (p.effect in EFFECT_KINDS || Blocks(p))
    requires r.live.world.execs[A].connected == r.live.world.execs[A].running
    ensures Judged(p, r, n).Some?
    ensures var q := Judged(p, r, n).value;
            var exec := q.live.world.execs[A];
            && LiveInv(q.live) && q.live.mem == r.live.mem && q.live.disk == r.live.disk
            && q.live.world.tick == r.live.world.tick
            && q.live.world.execs[B] == r.live.world.execs[B]
            && exec == r.live.world.execs[A].(effects := exec.effects)
            && q == r.(live := q.live, blocked := q.blocked, reached := q.reached)
            && (n != p.effectTick ==> q == r)
            && (n == p.effectTick ==> q.blocked == Blocks(p))
            && (n == p.effectTick ==> q.reached == if Blocks(p) then r.reached else r.live.world.execs[A].running)
  {
    hide Durable, Readable, AllStorable, EFFECT_KINDS;
    if n == p.effectTick && !Blocks(p) {
      AffectFrame(r.live.world, A, p.effect, A);
      AffectFrame(r.live.world, A, p.effect, B);
      WorldKeepsInv(r.live, Affect(r.live.world, A, p.effect).value.0, A, p.effect);
    }
  }

  lemma WorldKeepsInv(l: Live, w: WorldState, k: Key, kind: string)
    requires LiveInv(l) && Affect(l.world, k, kind).Some? && w == Affect(l.world, k, kind).value.0
    ensures LiveInv(l.(world := w)) && w.tick == l.world.tick
  {
    hide Durable, Readable, AllStorable, EFFECT_KINDS;
  }

  lemma RespondedStep(r: Rig, n: nat)
    requires LiveInv(r.live) && r.live.mem.storageOk
    requires r.due == Some(n) ==> AsExpected(r.live, true, false)
    ensures Responded(r, n).Some?
    ensures var q := Responded(r, n).value;
            && LiveInv(q.live) && q.live.mem.storageOk && q.live.world.tick == r.live.world.tick
            && CanaryOf(q.live) == CanaryOf(r.live)
            && q == r.(live := q.live, acted := q.acted)
            && (r.due != Some(n) ==> q == r)
            && (r.due == Some(n) ==> q.acted == Some(n) && AsExpected(q.live, true, true))
  {
    hide Durable, Inv, LiveInv, Lawful, ViewOf;
    if r.due == Some(n) { AdapterLawful(r.live, A, true, false, A); }
  }

  lemma StopOrder(l: Live)
    requires LiveInv(l) && l.mem.storageOk && AsExpected(l, false, false)
    ensures Order(l, Stop, A).Some?
    ensures var n := Order(l, Stop, A).value;
            && LiveInv(n) && n.mem.storageOk && AsExpected(n, true, false)
            && CanaryOf(n) == CanaryOf(l) && n.world.tick == l.world.tick
  {
    hide Order, LiveInv;
    OrderEffect(l, Stop, A);
  }

  /** Receiving the next event in line keeps the detector in step and answers a first detection once. */
  lemma ReceiveStep(p: Setup, r: Rig, k: nat, n: nat)
    requires SetupOk(p) && k < |p.events| && p.events[k].availableTick == n
    requires LiveInv(r.live) && r.live.mem.storageOk
    requires var ds := Deliveries(p.events);
             && r.detecting == Feed(p.arm, ds, k).0
             && (r.due.Some? <==> DetectedAt(p.arm, ds, k).Some?)
             && (r.due.None? ==> AsExpected(r.live, false, false))
    ensures var ds := Deliveries(p.events);
            var q := Receive(p.arm, r, p.events[k], n);
            && q.Some?
            && q.value.detecting == Feed(p.arm, ds, k + 1).0
            && q.value == r.(detecting := q.value.detecting, due := q.value.due, live := q.value.live)
            && (r.due.Some? || DetectedAt(p.arm, ds, k + 1).None? ==> q.value.due == r.due && q.value.live == r.live)
            && (r.due.None? && DetectedAt(p.arm, ds, k + 1).Some? ==>
                  && q.value.due == Some(n + Pause(p.arm))
                  && LiveInv(q.value.live) && q.value.live.mem.storageOk && AsExpected(q.value.live, true, false)
                  && CanaryOf(q.value.live) == CanaryOf(r.live) && q.value.live.world.tick == r.live.world.tick)
  {
    hide D.Step, LiveInv, Order, AsExpected, ValidStream, Fires, Ascending;
    var ds := Deliveries(p.events);
    FeedMeans(p.arm, ds, k);
    FeedMeans(p.arm, ds, k + 1);
    assert ds[k] == Delivery(p.events[k], n);
    if r.due.None? { StopOrder(r.live); }
  }

  /** The state of tick `n` between the response and the deliveries. */
  ghost predicate MidTick(p: Setup, canary: Canary, r: Rig, n: nat) {
    var due := DueBy(p, n);
    && LiveInv(r.live) && r.live.mem.storageOk && r.live.world.tick == n
    && Count(p.events, n) <= |p.events|
    && r.detecting == Feed(p.arm, Deliveries(p.events), Count(p.events, n)).0
    && r.due == due
    && r.acted == (if Timely(due, n + 1) then due else None)
    && r.blocked == (p.effectTick < n + 1 && Blocks(p))
    && r.reached == (p.effectTick < n + 1 && !Blocks(p) && !Timely(due, p.effectTick))
    && AsExpected(r.live, due.Some?, r.acted.Some?)
    && CanaryOf(r.live) == canary
  }

  lemma FirstHalf(p: Setup, canary: Canary, r: Rig, n: nat)
    requires SetupOk(p) && Stage(p, canary, r, n) && n <= MAX_INTEGER
    ensures Clock(r, n).Some? && Judged(p, Clock(r, n).value, n).Some?
    ensures var c := Responded(Judged(p, Clock(r, n).value, n).value, n);
            c.Some? && MidTick(p, canary, c.value, n)
  {
    hide LiveInv, Clock, Judged, Responded, Feed, Count, DueBy, ValidStream, Ascending, EFFECT_KINDS;
    ClockStep(r, n);
    var a := Clock(r, n).value;
    JudgedStep(p, a, n);
    var b := Judged(p, a, n).value;
    RespondedStep(b, n);
  }

  lemma SecondHalf(p: Setup, canary: Canary, r: Rig, n: nat)
    requires SetupOk(p) && MidTick(p, canary, r, n)
    ensures var q := ReceiveAll(p.arm, r, AtTick(p.events, n), n);
            q.Some? && Stage(p, canary, q.value, n + 1)
  {
    hide LiveInv, Receive, AtTick, Feed, Count, ValidStream, Ascending, AsExpected, EFFECT_KINDS;
    AtTickIsNext(p.events, n);
    var k, m := Count(p.events, n), Count(p.events, n + 1);
    if m == k + 1 {
      assert p.events[k..m] == [p.events[k]];
      ReceiveStep(p, r, k, n);
      var q := Receive(p.arm, r, p.events[k], n).value;
      assert ReceiveAll(p.arm, r, [p.events[k]], n) == ReceiveAll(p.arm, q, [], n);
    }
  }

  lemma StageClock(p: Setup, canary: Canary, r: Rig, n: nat)
    requires Stage(p, canary, r, n)
    ensures Clock(r, n).Some? <==> n <= MAX_INTEGER
  {
    hide LiveInv, Clock, Feed, Count, DueBy, AsExpected;
    ClockStep(r, n);
  }

  /** One tick keeps the invariant, and raises exactly when simulated time is exhausted. */
  lemma StageStep(p: Setup, canary: Canary, r: Rig, n: nat)
    requires SetupOk(p) && Stage(p, canary, r, n)
    ensures n <= MAX_INTEGER ==> TickStep(p, r, n).Some? && Stage(p, canary, TickStep(p, r, n).value, n + 1)
    ensures n > MAX_INTEGER ==> TickStep(p, r, n).None?
  {
    hide Stage, MidTick, LiveInv, Clock, Judged, Responded, ReceiveAll, SetupOk;
    StageClock(p, canary, r, n);
    if n <= MAX_INTEGER {
      FirstHalf(p, canary, r, n);
      SecondHalf(p, canary, Responded(Judged(p, Clock(r, n).value, n).value, n).value, n);
    }
  }

  lemma {:induction false} StagesHold(p: Setup, canary: Canary, r: Rig, n: nat)
    requires SetupOk(p) && Stage(p, canary, r, 0)
    ensures n <= MAX_INTEGER + 1 ==> RunTicks(p, r, n).Some? && Stage(p, canary, RunTicks(p, r, n).value, n)
    ensures n > MAX_INTEGER + 1 ==> RunTicks(p, r, n).None?
  {
    hide Stage, TickStep, SetupOk;
    if n > 0 {
      StagesHold(p, canary, r, n - 1);
      if n - 1 <= MAX_INTEGER + 1 { StageStep(p, canary, RunTicks(p, r, n - 1).value, n - 1); }
    }
  }
}
