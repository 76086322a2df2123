/** `replay_one` on the objects themselves: one World, one Controller and one Detector driven in place,
    tick by tick.  Each method is proved to do what the functions of ReplayRuns and ReplayTheorems say. */
module ReplayObjects {
  import opened Json
  import opened Arithmetic
  import opened StopStorage
  import H = HumanStop
  import opened StopObjects
  import opened D = Detection
  import opened Replay
  import R = ReplayRuns
  import T = ReplayTheorems

  /** `command(op, allocation)`: the next human command for the current scope; false where it raises. */
  method Command(controller: Controller, op: Op, k: Key) returns (ok: bool)
    requires controller.Valid()
    modifies controller.Frame()
    ensures controller.Valid() && controller.world.allocations == old(controller.world.allocations)
    ensures ok == R.Order(old(controller.View()), op, k).Some?
    ensures ok ==> controller.View() == R.Order(old(controller.View()), op, k).value
  {
    hide World.View, H.Command;
    var row := controller.allocations[k];
    var event := H.Dict(map[
      "op" := H.Text(OpText(op)), "allocation" := H.Text(KeyName(k)), "generation" := H.Number(row.generation),
      "epoch" := H.Number(row.epoch), "sequence" := H.Number(row.sequence[Human] + 1)]);
    var reply := controller.Command(H.Text("human"), event, H.Healthy);
    return reply == H.Done;
  }

  function Get(deliveries: map<int, seq<Event>>, tick: int): seq<Event> {
    if tick in deliveries then deliveries[tick] else []
  }

  /** The `setdefault` loop: events grouped by the tick at which they are available, in order. */
  method Group(events: seq<Event>) returns (deliveries: map<int, seq<Event>>)
    ensures forall tick :: Get(deliveries, tick) == R.AtTick(events, tick)
  {
    deliveries := map[];
    for i := 0 to |events|
      invariant forall tick :: Get(deliveries, tick) == R.AtTick(events[..i], tick)
    {
      var due := events[i].availableTick;
      ghost var before := deliveries;
      deliveries := deliveries[due := Get(deliveries, due) + [events[i]]];
      assert events[..i + 1][..i] == events[..i];
      forall tick ensures Get(deliveries, tick) == R.AtTick(events[..i + 1], tick) {
        assert Get(before, tick) == R.AtTick(events[..i], tick);
      }
    }
    assert events[..|events|] == events;
  }

  /** The objects hold what `rig` says; the loop's other locals are its remaining fields. */
  ghost predicate Holds(controller: Controller, detector: Detector, due: Option<int>, rig: R.Rig)
    requires controller.Valid()
    reads controller, controller.disk, controller.world, controller.world.Repr(), detector
  {
    rig.live == controller.View() && rig.detecting == detector.View() && rig.due == due
  }

  /** Receiving leaves the locals it does not own as they were. */
  ghost predicate Follows(controller: Controller, detector: Detector, due: Option<int>, was: R.Rig, rig: R.Rig)
    requires controller.Valid()
    reads controller, controller.disk, controller.world, controller.world.Repr(), detector
  {
    && Holds(controller, detector, due, rig)
    && rig == was.(live := rig.live, detecting := rig.detecting, due := rig.due)
  }

  /** Feed one event to the detector, and stop allocation A at the first decision. */
  method Receive(controller: Controller, detector: Detector, event: Event, tick: int, due: Option<int>,
                 ghost rig: R.Rig)
    returns (ok: bool, responseDue: Option<int>)
    requires controller.Valid() && detector !in controller.Frame() && Holds(controller, detector, due, rig)
    modifies controller.Frame(), detector
    ensures controller.Valid() && controller.world.allocations == old(controller.world.allocations)
    ensures ok == R.Receive(detector.arm, rig, event, tick).Some?
    ensures ok ==> Follows(controller, detector, responseDue, rig, R.Receive(detector.arm, rig, event, tick).value)
  {
    hide World.View, D.Step, R.Order;
    responseDue := due;
    var decision;
    ok, decision := detector.Accept(event, tick);
    controller.world.ViewKept();
    if ok && decision.Some? && due.None? {
      ok := Command(controller, Stop, A);
      responseDue := Some(tick + if detector.arm == AlertOnly then 30 else 1);
    }
  }

  /** The events of one tick, in order. */
  method ReceiveAll(controller: Controller, detector: Detector, arrived: seq<Event>, tick: int, due: Option<int>,
                    ghost rig: R.Rig)
    returns (ok: bool, responseDue: Option<int>)
    requires controller.Valid() && detector !in controller.Frame() && Holds(controller, detector, due, rig)
    modifies controller.Frame(), detector
    ensures controller.Valid() && controller.world.allocations == old(controller.world.allocations)
    ensures ok == R.ReceiveAll(detector.arm, rig, arrived, tick).Some?
    ensures ok ==> Follows(controller, detector, responseDue, rig, R.ReceiveAll(detector.arm, rig, arrived, tick).value)
  {
    hide World.View, R.Receive;
    responseDue := due;
    ghost var now := rig;
    for i := 0 to |arrived|
      invariant controller.Valid() && controller.world.allocations == old(controller.world.allocations)
      invariant Follows(controller, detector, responseDue, rig, now)
      invariant R.ReceiveAll(detector.arm, rig, arrived, tick) == R.ReceiveAll(detector.arm, now, arrived[i..], tick)
    {
      ghost var next := R.Receive(detector.arm, now, arrived[i], tick);
      ok, responseDue := Receive(controller, detector, arrived[i], tick, responseDue, now);
      assert arrived[i..][0] == arrived[i] && arrived[i..][1..] == arrived[i + 1..];
      if !ok { return; }
      now := next.value;
    }
    ok := true;
  }

  ghost predicate HoldsAll(controller: Controller, detector: Detector, due: Option<int>, acted: Option<int>,
                           reached: bool, blocked: bool, rig: R.Rig)
    requires controller.Valid()
    reads controller, controller.disk, controller.world, controller.world.Repr(), detector
  {
    Holds(controller, detector, due, rig) && rig.acted == acted && rig.reached == reached && rig.blocked == blocked
  }

  /** The protected effect is attempted at its tick, before any response of that tick. */
  method Attempt(controller: Controller, detector: Detector, p: R.Setup, tick: int,
                 due: Option<int>, acted: Option<int>, reached: bool, blocked: bool, ghost rig: R.Rig)
    returns (ok: bool, nowReached: bool, nowBlocked: bool)
    requires controller.Valid() && detector !in controller.Frame() && detector.arm == p.arm
    requires HoldsAll(controller, detector, due, acted, reached, blocked, rig)
    modifies controller.Frame()
    ensures controller.Valid() && controller.world.allocations == old(controller.world.allocations)
    ensures ok == R.Judged(p, rig, tick).Some?
    ensures ok ==> HoldsAll(controller, detector, due, acted, nowReached, nowBlocked, R.Judged(p, rig, tick).value)
  {
    hide World.View, H.Affect;
    nowReached, nowBlocked := reached, blocked;
    if tick == p.effectTick {
      nowBlocked := p.arm != PositiveControl && !p.acl;
      if !nowBlocked {
        controller.world.Owns(A);
        var hit := controller.world.Effect(A, p.effect);
        if hit.None? { return false, reached, blocked; }
        nowReached := hit.value;
      }
    }
    ok := true;
  }

  /** The first half of one pass of the loop: the clock, the protected effect, then the response. */
  method Respond(controller: Controller, detector: Detector, p: R.Setup, tick: int,
                 due: Option<int>, acted: Option<int>, reached: bool, blocked: bool, ghost rig: R.Rig)
    returns (ok: bool, nowActed: Option<int>, nowReached: bool, nowBlocked: bool)
    requires controller.Valid() && detector !in controller.Frame() && detector.arm == p.arm
    requires HoldsAll(controller, detector, due, acted, reached, blocked, rig)
    modifies controller.Frame()
    ensures controller.Valid() && controller.world.allocations == old(controller.world.allocations)
    ensures ok == FirstHalf(p, rig, tick).Some?
    ensures ok ==> HoldsAll(controller, detector, due, nowActed, nowReached, nowBlocked, FirstHalf(p, rig, tick).value)
  {
    hide World.View, H.Adapter, H.Advance, R.Judged;
    nowActed, nowReached, nowBlocked := acted, reached, blocked;
    controller.world.ViewAt(A);
    ok := controller.world.Advance(tick - controller.world.tick);
    if !ok { return; }
    ok, nowReached, nowBlocked :=
      Attempt(controller, detector, p, tick, due, acted, reached, blocked, R.Clock(rig, tick).value);
    if !ok { return; }
    if due == Some(tick) {
      ghost var judged := R.Judged(p, R.Clock(rig, tick).value, tick).value;
      ok, nowActed := Intervene(controller, detector, tick, due, acted, nowReached, nowBlocked, judged);
    }
  }

  /** The response that falls due. */
  method Intervene(controller: Controller, detector: Detector, tick: int, due: Option<int>, acted: Option<int>,
                   reached: bool, blocked: bool, ghost rig: R.Rig)
    returns (ok: bool, nowActed: Option<int>)
    requires controller.Valid() && detector !in controller.Frame() && due == Some(tick)
    requires HoldsAll(controller, detector, due, acted, reached, blocked, rig)
    modifies controller.Frame()
    ensures controller.Valid() && controller.world.allocations == old(controller.world.allocations)
    ensures ok == R.Responded(rig, tick).Some?
    ensures ok ==> HoldsAll(controller, detector, due, nowActed, reached, blocked, R.Responded(rig, tick).value)
  {
    hide World.View, H.Adapter;
    controller.world.Owns(A);
    ok := controller.Adapter(A, true, false);
    nowActed := Some(tick);
  }

  function FirstHalf(p: R.Setup, rig: R.Rig, tick: int): Option<R.Rig> {
    var a := R.Clock(rig, tick);
    if a.None? then None
    else
      var b := R.Judged(p, a.value, tick);
      if b.None? then None else R.Responded(b.value, tick)
  }

  /** The tick loop. */
  method Run(controller: Controller, detector: Detector, p: R.Setup, end: int)
    returns (ok: bool, acted: Option<int>, reached: bool, blocked: bool)
    requires controller.Valid() && detector !in controller.Frame() && detector.arm == p.arm && 0 <= end
    modifies controller.Frame(), detector
    ensures controller.Valid() && controller.world.allocations == old(controller.world.allocations)
    ensures var start := R.Rig(old(controller.View()), old(detector.View()), None, None, false, false);
            var last := R.RunTicks(p, start, end + 1);
            && ok == last.Some?
            && (ok ==> last.value == R.Rig(controller.View(), detector.View(), last.value.due, acted, reached, blocked))
  {
    hide World.View, R.Clock, R.Judged, R.Responded, R.ReceiveAll, R.AtTick;
    var deliveries := Group(p.events);
    ghost var start := R.Rig(controller.View(), detector.View(), None, None, false, false);
    ghost var rig := start;
    var due: Option<int> := None;
    acted, reached, blocked := None, false, false;
    for tick := 0 to end + 1
      invariant controller.Valid() && controller.world.allocations == old(controller.world.allocations)
      invariant HoldsAll(controller, detector, due, acted, reached, blocked, rig)
      invariant R.RunTicks(p, start, tick) == Some(rig)
    {
      ghost var half := FirstHalf(p, rig, tick);
      assert R.RunTicks(p, start, tick + 1) == R.TickStep(p, rig, tick);
      ok, acted, reached, blocked := Respond(controller, detector, p, tick, due, acted, reached, blocked, rig);
      if !ok { RaisedForGood(p, start, tick + 1, end + 1); return; }
      ok, due := ReceiveAll(controller, detector, Get(deliveries, tick), tick, due, half.value);
      if !ok { RaisedForGood(p, start, tick + 1, end + 1); return; }
      rig := R.TickStep(p, rig, tick).value;
    }
    ok := true;
  }

  lemma {:induction false} RaisedForGood(p: R.Setup, r: R.Rig, n: nat, m: nat)
    requires n <= m && R.RunTicks(p, r, n).None?
    ensures R.RunTicks(p, r, m).None?
  {
    hide R.TickStep;
    if n < m { RaisedForGood(p, r, n, m - 1); }
  }

  /** Approve, then start, one allocation. */
  method Open(controller: Controller, k: Key) returns (ok: bool)
    requires controller.Valid()
    modifies controller.Frame()
    ensures controller.Valid() && controller.world.allocations == old(controller.world.allocations)
    ensures ok == T.OpenedOne(old(controller.View()), k).Some?
    ensures ok ==> controller.View() == T.OpenedOne(old(controller.View()), k).value
  {
    hide World.View, R.Order;
    ok := Command(controller, Approve, k);
    if ok { ok := Command(controller, Start, k); }
  }

  /** The clock moves one tick; false where it raises. */
  method Wait(controller: Controller) returns (ok: bool)
    requires controller.Valid()
    modifies controller.Frame()
    ensures controller.Valid() && controller.world.allocations == old(controller.world.allocations)
    ensures ok == T.Later(old(controller.View())).Some?
    ensures ok ==> controller.View() == T.Later(old(controller.View())).value
  {
    hide World.View, H.Advance;
    ok := controller.world.Advance(1);
  }

  /** Approve and start again after a reset, one tick before each. */
  method Relaunch(controller: Controller) returns (ok: bool)
    requires controller.Valid()
    modifies controller.Frame()
    ensures controller.Valid() && controller.world.allocations == old(controller.world.allocations)
    ensures ok == T.Relaunch(old(controller.View())).Some?
    ensures ok ==> controller.View() == T.Relaunch(old(controller.View())).value
  {
    hide World.View, R.Order, T.Later;
    ok := Wait(controller);
    if !ok { return; }
    ok := Command(controller, Approve, A);
    if !ok { return; }
    ok := Wait(controller);
    if !ok { return; }
    ok := Command(controller, Start, A);
  }

  /** The explicit recovery: observe, reset, approve, start. */
  method Recover(controller: Controller) returns (ok: bool)
    requires controller.Valid()
    modifies controller.Frame()
    ensures controller.Valid() && controller.world.allocations == old(controller.world.allocations)
    ensures ok == T.Recover(old(controller.View())).Some?
    ensures ok ==> controller.View() == T.Recover(old(controller.View())).value
  {
    hide World.View, R.Order, T.Later, H.Observe, T.Relaunch;
    ok := Wait(controller);
    if !ok { return; }
    var seen := controller.Observe(A, false);
    if seen != H.VERIFIED_STOPPED { return false; }
    ok := Wait(controller);
    if !ok { return; }
    ok := Command(controller, Reset, A);
    if !ok { return; }
    controller.world.ViewAt(A);
    if controller.world.allocations[A].running || controller.world.allocations[A].launches != 1 { return false; }
    ok := Relaunch(controller);
  }

  /** The objects of a replay, with both allocations approved and started; null where it raises. */
  method Begin() returns (c: Controller?)
    ensures c != null <==> T.Opened().Some?
    ensures c != null ==> fresh(c) && c.Valid() && fresh(c.Frame()) && c.View() == T.Opened().value
  {
    hide World.View, T.OpenedOne, FreshRecords, H.FreshExecs, H.Persist;
    var world := new World();
    var disk := new Disk();
    T.CreatedKept();
    var controller := Controller.Create(disk, world, H.Healthy);
    if controller == null { return null; }
    var ok := Open(controller, A);
    if !ok { return null; }
    ok := Open(controller, B);
    if !ok { return null; }
    return controller;
  }

  /** After the loop: recovery, the canary, and the explanation of what happened. */
  method Conclude(controller: Controller, detector: Detector, p: R.Setup, canary: R.Canary,
                  acted: Option<int>, reached: bool, blocked: bool, ghost rig: R.Rig)
    returns (finding: Option<T.Finding>)
    requires controller.Valid() && detector !in controller.Frame()
    requires HoldsAll(controller, detector, rig.due, acted, reached, blocked, rig)
    modifies controller.Frame()
    ensures finding == T.Concluded(p, canary, rig)
  {
    hide World.View, T.Recover;
    if acted.Some? {
      var ok := Recover(controller);
      if !ok { return None; }
    }
    controller.world.ViewAt(B);
    if R.Canary(controller.allocations[B], controller.world.allocations[B].View()) != canary { return None; }
    var cause := if reached then T.EFFECT_REACHED else if blocked then T.ACL_BLOCKED else T.RESPONSE_BLOCKED;
    if cause == T.RESPONSE_BLOCKED && (acted.None? || acted.value >= p.effectTick) { return None; }
    return Some(T.Finding(detector.detected, acted, cause, reached, blocked, acted.Some?,
                          if acted.Some? then 4 else 0));
  }

  /** `replay_one` once the telemetry has been generated. */
  method ReplayEvents(p: R.Setup) returns (finding: Option<T.Finding>)
    requires p.duration >= 0
    ensures finding == T.ReplayOne(p)
  {
    hide World.View, T.Opened, R.RunTicks, T.Concluded;
    T.MaxTickBounds(p.events);
    var controller := Begin();
    if controller == null { return None; }
    controller.world.ViewAt(B);
    var canary := R.Canary(controller.allocations[B], controller.world.allocations[B].View());
    var detector := new Detector(p.arm);
    var end := Max(p.duration, T.MaxTick(p.events)) + TRAILING_TICKS;
    ghost var rig := T.FirstRig(controller.View());
    var ok, acted, reached, blocked := Run(controller, detector, p, end);
    if !ok { return None; }
    finding := Conclude(controller, detector, p, canary, acted, reached, blocked, R.RunTicks(p, rig, end + 1).value);
  }

  /** `replay_one` for one drawn recipe; None where it raises. */
  method ReplayOne(r: Recipe, d: Draws, pacing: Pacing, arm: Arm) returns (finding: Option<T.Finding>)
    requires FixtureOk(r) && DrawsOk(d)
    ensures T.SetupOf(r, d, pacing, arm).duration >= 0
    ensures finding == T.ReplayOne(T.SetupOf(r, d, pacing, arm))
  {
    hide T.ReplayOne, EventsTo, TickOf;
    TickGrows(d, pacing, PATTERN_LENGTH);
    var events, effectTick, duration := Generate(r, d, pacing);
    finding := ReplayEvents(R.Setup(events, effectTick, duration, arm, r.acl, r.effect));
  }
}
