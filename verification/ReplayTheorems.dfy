/** Whole replays: opening, tick loop, recovery and report, and what every report says. */
module ReplayTheorems {
  import opened Json
  import opened Arithmetic
  import opened StopStorage
  import opened HumanStop
  import opened StopLaws
  import opened StopRuns
  import opened D = Detection
  import opened DetectionStreams
  import opened Replay
  import opened ReplayRuns

  // ---------- opening and recovery ----------

  function Created(): Live {
    Live(DiskState(Some(Encode(FreshRecords())), false), WorldState(FreshExecs(), 0), Mem(FreshRecords(), map[], true))
  }

  /** Approve and start one allocation; None where the replay raises. */
  function OpenedOne(l: Live, k: Key): Option<Live> {
    var a := Order(l, Approve, k);
    if a.None? then None else Order(a.value, Start, k)
  }

  function Opened(): Option<Live> {
    var a := OpenedOne(Created(), A);
    if a.None? then None else OpenedOne(a.value, B)
  }

  lemma CreatedOk()
    ensures LiveInv(Created()) && Created().mem.storageOk
    ensures forall k: Key ::
              Created().mem.allocations[k] == FreshAllocation(1) && Created().world.execs[k] == FreshExec(1)
    ensures Created().world.tick == 0
  {
    hide Encode, Inv;
    StartInv();
  }

  /** On an empty disk the constructor's write is kept. */
  lemma CreatedKept()
    ensures Persist(DiskState(None, false), FreshRecords(), Healthy) == (Created().disk, Kept)
  {
    hide Bounded, Encode, Storable, FreshAllocation;
    forall k: Key ensures Storable(FreshRecords()[k]) { FreshStorable(1); }
    StorableIsBounded(FreshRecords());
  }

  /** Approving and starting a fresh allocation launches it and leaves the other one alone. */
  lemma OpenOne(l: Live, k: Key, other: Key)
    requires LiveInv(l) && l.mem.storageOk && other != k
    requires l.mem.allocations[k] == FreshAllocation(1) && l.world.execs[k] == FreshExec(1)
    ensures OpenedOne(l, k).Some?
    ensures var n := OpenedOne(l, k).value;
            && LiveInv(n) && n.mem.storageOk && n.world.tick == l.world.tick
            && CoreOf(n.mem.allocations[k]) == Core(1, 0, false, true, true, 2)
            && n.world.execs[k] == Launched(FreshExec(1))
            && n.mem.allocations[other] == l.mem.allocations[other] && n.world.execs[other] == l.world.execs[other]
  {
    hide LiveInv, Order, Launched;
    OrderEffect(l, Approve, k);
    OrderEffect(Order(l, Approve, k).value, Start, k);
  }

  lemma OpenedOk()
    ensures Opened().Some?
    ensures var l := Opened().value;
            LiveInv(l) && l.mem.storageOk && l.world.tick == 0 && AsExpected(l, false, false)
  {
    hide LiveInv, OpenedOne, Created, FreshAllocation;
    CreatedOk();
    OpenOne(Created(), A, B);
    OpenOne(OpenedOne(Created(), A).value, B, A);
  }

  function Later(l: Live): Option<Live> {
    var w := Advance(l.world, 1);
    if w.None? then None else Some(l.(world := w.value))
  }

  /** Observe, reset, approve, start, one tick before each; None where the replay raises. */
  function Recover(l: Live): Option<Live> {
    var a := Later(l);
    if a.None? then None
    else
      var (b, seen) := Observe(a.value, A, false);
      if seen != VERIFIED_STOPPED then None
      else
        var c := Later(b);
        if c.None? then None
        else
          var d := Order(c.value, Reset, A);
          if d.None? || d.value.world.execs[A].running || d.value.world.execs[A].launches != 1 then None
          else Relaunch(d.value)
  }

  function Relaunch(l: Live): Option<Live> {
    var a := Later(l);
    if a.None? then None
    else
      var b := Order(a.value, Approve, A);
      if b.None? then None
      else
        var c := Later(b.value);
        if c.None? then None else Order(c.value, Start, A)
  }

  lemma LaterOk(l: Live)
    requires LiveInv(l) && l.world.tick >= 0
    ensures Later(l).Some? <==> l.world.tick + 1 <= MAX_INTEGER
    ensures Later(l).Some? ==>
              var n := Later(l).value;
              LiveInv(n) && n == l.(world := l.world.(tick := l.world.tick + 1))
  {
    hide Durable, Readable, AllStorable;
  }

  lemma ObserveOk(l: Live)
    requires LiveInv(l) && l.mem.storageOk && AsExpected(l, true, true)
    ensures var (n, seen) := Observe(l, A, false);
            && seen == VERIFIED_STOPPED && LiveInv(n) && n.mem.storageOk && n.world == l.world
            && n.mem.allocations == l.mem.allocations
            && A in n.mem.observations
            && n.mem.observations[A] == Observation(1, 1, l.world.tick, l.world.execs[A].revision, VERIFIED_STOPPED)
  {
    ObserveLawful(l, A, false, A);
    hide LiveInv;
  }

  lemma RelaunchOk(l: Live)
    requires LiveInv(l) && l.mem.storageOk && l.world.tick >= 0
    requires CoreOf(l.mem.allocations[A]) == Core(1, 2, false, false, true, 4)
    requires l.world.execs[A].generation == 1 && !Executing(l.world.execs[A])
    ensures Relaunch(l).Some? <==> l.world.tick + 2 <= MAX_INTEGER
    ensures Relaunch(l).Some? ==> CanaryOf(Relaunch(l).value) == CanaryOf(l)
  {
    hide LiveInv, Order, Later;
    LaterOk(l);
    if l.world.tick + 1 <= MAX_INTEGER {
      var a := Later(l).value;
      OrderEffect(a, Approve, A);
      var b := Order(a, Approve, A).value;
      LaterOk(b);
      if b.world.tick + 1 <= MAX_INTEGER { OrderEffect(Later(b).value, Start, A); }
    }
  }

  /** Recovery needs four more ticks, nothing else, and leaves the other allocation alone. */
  lemma RecoverOk(l: Live)
    requires LiveInv(l) && l.mem.storageOk && AsExpected(l, true, true) && l.world.tick >= 0
    ensures Recover(l).Some? <==> l.world.tick + 4 <= MAX_INTEGER
    ensures Recover(l).Some? ==> CanaryOf(Recover(l).value) == CanaryOf(l)
  {
    hide LiveInv, Order, Later, Observe, Relaunch;
    LaterOk(l);
    if l.world.tick + 1 <= MAX_INTEGER {
      var a := Later(l).value;
      ObserveOk(a);
      var b := Observe(a, A, false).0;
      LaterOk(b);
      if b.world.tick + 1 <= MAX_INTEGER {
        var c := Later(b).value;
        OrderEffect(c, Reset, A);
        RelaunchOk(Order(c, Reset, A).value);
      }
    }
  }

  // ---------- the whole replay ----------

  function MaxTick(events: seq<Event>): int
    decreases |events|
  {
    if events == [] then 0
    else Max(MaxTick(events[..|events| - 1]), events[|events| - 1].availableTick)
  }

  /** The last tick of the loop. */
  function End(p: Setup): int { Max(p.duration, MaxTick(p.events)) + TRAILING_TICKS }

  datatype Cause = EFFECT_REACHED | ACL_BLOCKED | RESPONSE_BLOCKED

  datatype Finding = Finding(
    detection: Option<int>, response: Option<int>, cause: Cause, reached: bool, blocked: bool,
    interrupted: bool, recoverySteps: nat)

  function FirstRig(l: Live): Rig { Rig(l, FRESH, None, None, false, false) }

  function CauseOf(r: Rig): Cause {
    if r.reached then EFFECT_REACHED else if r.blocked then ACL_BLOCKED else RESPONSE_BLOCKED
  }

  /** The end of `replay_one`; None where it raises. */
  function Concluded(p: Setup, canary: Canary, r: Rig): Option<Finding> {
    var back := if r.acted.Some? then Recover(r.live) else Some(r.live);
    if back.None? || CanaryOf(back.value) != canary then None
    else if CauseOf(r) == RESPONSE_BLOCKED && (r.acted.None? || r.acted.value >= p.effectTick) then None
    else Some(Finding(r.detecting.detected, r.acted, CauseOf(r), r.reached, r.blocked, r.acted.Some?,
                     if r.acted.Some? then 4 else 0))
  }

  /** A replay once both allocations run. */
  function ReplayFrom(p: Setup, l: Live): Option<Finding>
    requires p.duration >= 0
  {
    var r := RunTicks(p, FirstRig(l), End(p) + 1);
    if r.None? then None else Concluded(p, CanaryOf(l), r.value)
  }

  function ReplayOne(p: Setup): Option<Finding>
    requires p.duration >= 0
  {
    if Opened().None? then None else ReplayFrom(p, Opened().value)
  }

  function SetupOf(r: Recipe, d: Draws, p: Pacing, arm: Arm): Setup
    requires DrawsOk(d)
  {
    Setup(EventsTo(r, d, p, PATTERN_LENGTH), TickOf(d, p, r.effectIndex), TickOf(d, p, PATTERN_LENGTH),
          arm, r.acl, r.effect)
  }

  /** The tick at which the arm detects, read off the stream. */
  ghost function DetectionTick(p: Setup): Option<int> {
    var at := DetectedAt(p.arm, Deliveries(p.events), |p.events|);
    if at.Some? then Some(p.events[at.value].availableTick) else None
  }

  ghost function ResponseTick(p: Setup): Option<int> {
    if DetectionTick(p).Some? then Some(DetectionTick(p).value + (if p.arm == AlertOnly then 30 else 1)) else None
  }

  /** The report in closed form. */
  ghost function Expected(p: Setup): Finding {
    var response := ResponseTick(p);
    var ruled := p.arm != PositiveControl && !p.acl;
    var reached := !ruled && !(response.Some? && response.value < p.effectTick);
    Finding(DetectionTick(p), response,
           if reached then EFFECT_REACHED else if ruled then ACL_BLOCKED else RESPONSE_BLOCKED,
           reached, ruled, response.Some?, if response.Some? then 4 else 0)
  }

  lemma {:induction false} MaxTickBounds(events: seq<Event>)
    ensures 0 <= MaxTick(events)
    ensures forall i :: 0 <= i < |events| ==> events[i].availableTick <= MaxTick(events)
    decreases |events|
  {
    if events != [] { MaxTickBounds(events[..|events| - 1]); }
  }

  lemma AllCounted(events: seq<Event>, n: int)
    requires Ascending(events) && n > MaxTick(events)
    ensures Count(events, n) == |events|
  {
    CountMeans(events, n);
    MaxTickBounds(events);
  }

  lemma NoneCounted(events: seq<Event>)
    requires Ascending(events) && forall i :: 0 <= i < |events| ==> events[i].availableTick >= 0
    ensures Count(events, 0) == 0
  {
    CountMeans(events, 0);
  }

  lemma TicksFromZero(p: Setup)
    requires SetupOk(p)
    ensures forall i :: 0 <= i < |p.events| ==> p.events[i].availableTick >= 0
  {
    var ds := Deliveries(p.events);
    forall i | 0 <= i < |p.events| ensures p.events[i].availableTick >= 0 {
      assert ds[i].event == p.events[i];
    }
  }

  lemma FirstStage(p: Setup, l: Live)
    requires SetupOk(p) && LiveInv(l) && l.mem.storageOk && l.world.tick == 0 && AsExpected(l, false, false)
    ensures Stage(p, CanaryOf(l), FirstRig(l), 0)
  {
    hide LiveInv, AsExpected, ValidStream, Ascending, EFFECT_KINDS, Count;
    TicksFromZero(p);
    NoneCounted(p.events);
  }

  /** After the last tick every detection has been answered. */
  lemma LastStage(p: Setup, canary: Canary, r: Rig)
    requires SetupOk(p) && p.effectTick < p.duration
    requires Stage(p, canary, r, End(p) + 1)
    ensures LiveInv(r.live) && r.live.mem.storageOk && CanaryOf(r.live) == canary
    ensures r.live.world.tick == End(p)
    ensures r.detecting.detected == DetectionTick(p)
    ensures r.acted == ResponseTick(p) && r.blocked == Blocks(p)
    ensures r.reached == (!Blocks(p) && !Timely(ResponseTick(p), p.effectTick))
    ensures r.acted.Some? ==> AsExpected(r.live, true, true)
  {
    hide LiveInv, AsExpected, ValidStream, Ascending, Count, Fires, EFFECT_KINDS, Feed;
    MaxTickBounds(p.events);
    AllCounted(p.events, End(p) + 1);
    FeedMeans(p.arm, Deliveries(p.events), |p.events|);
  }

  /** A replay of a well-formed setup raises exactly when simulated time runs out: in the loop, or during
      the four ticks of a recovery.  Otherwise its report is the closed form: each detection answered once,
      one tick later (thirty for alert-only), and every prevention explained by the access rule or by a
      response strictly before the effect. */
  lemma ReplayMeans(p: Setup)
    requires SetupOk(p) && 0 <= p.effectTick < p.duration
    ensures ReplayOne(p).Some? <==> End(p) + (if DetectionTick(p).Some? then 4 else 0) <= MAX_INTEGER
    ensures ReplayOne(p).Some? ==> ReplayOne(p).value == Expected(p)
  {
    hide SetupOk, Stage, RunTicks, Opened, Recover, LiveInv, AsExpected, DetectionTick, End;
    EndPositive(p);
    OpenedOk();
    var l := Opened().value;
    var canary := CanaryOf(l);
    FirstStage(p, l);
    StagesHold(p, canary, FirstRig(l), End(p) + 1);
    if End(p) <= MAX_INTEGER {
      var r := RunTicks(p, FirstRig(l), End(p) + 1).value;
      LastStage(p, canary, r);
      if r.acted.Some? { RecoverOk(r.live); }
    }
  }

  lemma EndPositive(p: Setup)
    requires p.duration >= 0
    ensures End(p) >= 0
  {
  }

  lemma SetupIsOk(r: Recipe, d: Draws, p: Pacing, arm: Arm)
    requires FixtureOk(r) && DrawsOk(d) && r.effect in EFFECT_KINDS
    ensures SetupOk(SetupOf(r, d, p, arm))
    ensures var s := SetupOf(r, d, p, arm); 0 <= s.effectTick < s.duration
  {
    hide EFFECT_KINDS, EventsTo, ValidStream, Ascending;
    EventsShape(r, d, p, PATTERN_LENGTH);
    StreamIsValid(r, d, p);
  }

  /** The same for every recipe that passes the fixture checks, with a known effect kind. */
  lemma RecipeReplays(r: Recipe, d: Draws, p: Pacing, arm: Arm)
    requires FixtureOk(r) && DrawsOk(d) && r.effect in EFFECT_KINDS
    ensures var s := SetupOf(r, d, p, arm);
            && s.duration >= 0
            && (ReplayOne(s).Some? <==> End(s) + (if DetectionTick(s).Some? then 4 else 0) <= MAX_INTEGER)
            && (ReplayOne(s).Some? ==> ReplayOne(s).value == Expected(s))
  {
    hide SetupOf, SetupOk, EFFECT_KINDS, ReplayOne, DetectionTick, Expected, End;
    SetupIsOk(r, d, p, arm);
    ReplayMeans(SetupOf(r, d, p, arm));
  }

  /** A delay of at most 999 999 700 ticks is always enough room. */
  lemma ShortDelayNeverRaises(r: Recipe, d: Draws, p: Pacing, arm: Arm)
    requires FixtureOk(r) && DrawsOk(d) && r.effect in EFFECT_KINDS && r.extraDelay <= MAX_INTEGER - 300
    ensures ReplayOne(SetupOf(r, d, p, arm)).Some?
  {
    hide EFFECT_KINDS, ReplayOne, DetectionTick;
    RecipeReplays(r, d, p, arm);
    EventsShape(r, d, p, PATTERN_LENGTH);
    MaxTickWithin(SetupOf(r, d, p, arm).events, MAX_INTEGER - 300 + 220);
  }

  lemma {:induction false} MaxTickWithin(events: seq<Event>, bound: int)
    requires 0 <= bound && forall i :: 0 <= i < |events| ==> events[i].availableTick <= bound
    ensures MaxTick(events) <= bound
    decreases |events|
  {
    if events != [] { MaxTickWithin(events[..|events| - 1], bound); }
  }

  /** The fixture checks admit a delay that exhausts simulated time: then every arm raises. */
  lemma LongDelayRaises(r: Recipe, d: Draws, p: Pacing, arm: Arm)
    requires FixtureOk(r) && DrawsOk(d) && r.effect in EFFECT_KINDS
    requires r.extraDelay == MAX_INTEGER && r.drop == {}
    ensures ReplayOne(SetupOf(r, d, p, arm)).None?
  {
    hide EFFECT_KINDS, ReplayOne, DetectionTick;
    RecipeReplays(r, d, p, arm);
    var s := SetupOf(r, d, p, arm);
    assert EventAt(r, d, p, 15) in s.events;
    MaxTickBounds(s.events);
  }

  // ---------- the arms on the same recipe, seed and pacing ----------

  /** `a` and `b` replay the same run under two arms that both obey the access rule. */
  ghost predicate Comparable(a: Setup, b: Setup) {
    && a == b.(arm := a.arm)
    && !a.arm.PositiveControl? && !b.arm.PositiveControl?
    && SetupOk(a) && SetupOk(b) && 0 <= a.effectTick < a.duration
    && ReplayOne(a).Some? && ReplayOne(b).Some?
  }

  predicate Prevented(f: Finding) { !f.reached }

  lemma EarlierPrevents(a: Setup, b: Setup)
    requires Comparable(a, b) && Pause(a.arm) <= Pause(b.arm)
    requires NoLater(DetectedAt(a.arm, Deliveries(a.events), |a.events|),
                     DetectedAt(b.arm, Deliveries(b.events), |b.events|))
    ensures Prevented(ReplayOne(b).value) ==> Prevented(ReplayOne(a).value)
    ensures ReplayOne(b).value.interrupted ==> ReplayOne(a).value.interrupted
  {
    hide ReplayOne, ValidStream, EFFECT_KINDS, Fires;
    ReplayMeans(a);
    ReplayMeans(b);
  }

  /** Prevention is monotone per run: what conventional-rules prevents, correlation prevents, and a run that
      conventional-rules interrupts, correlation interrupts. */
  lemma CorrelationBeatsRules(a: Setup, rules: Setup)
    requires a.arm.Correlation? && rules.arm.ConventionalRules? && Comparable(a, rules)
    ensures Prevented(ReplayOne(rules).value) ==> Prevented(ReplayOne(a).value)
    ensures ReplayOne(rules).value.interrupted ==> ReplayOne(a).value.interrupted
  {
    hide ReplayOne, SetupOk, DetectedAt;
    ArmsCompared(Deliveries(a.events), |a.events|);
    EarlierPrevents(a, rules);
  }

  /** What alert-only prevents thirty ticks after a detection, correlation prevents one tick after it. */
  lemma CorrelationBeatsAlert(a: Setup, alert: Setup)
    requires a.arm.Correlation? && alert.arm.AlertOnly? && Comparable(a, alert)
    ensures Prevented(ReplayOne(alert).value) ==> Prevented(ReplayOne(a).value)
    ensures ReplayOne(alert).value.interrupted ==> ReplayOne(a).value.interrupted
  {
    hide ReplayOne, SetupOk, DetectedAt;
    ArmsCompared(Deliveries(a.events), |a.events|);
    EarlierPrevents(a, alert);
  }

  // ---------- the summary ----------

  /** One run of the suite, before an arm is chosen. */
  datatype Spec = Spec(recipe: Recipe, draws: Draws, pacing: Pacing)

  function RowOf(s: Spec, arm: Arm): Option<Finding>
    requires FixtureOk(s.recipe) && DrawsOk(s.draws)
  {
    var p := SetupOf(s.recipe, s.draws, s.pacing, arm);
    if p.duration >= 0 then ReplayOne(p) else None
  }

  /** The suite finished: no replay of a well-formed recipe raised under `arm`. */
  ghost predicate Finished(specs: seq<Spec>, arm: Arm) {
    forall i :: 0 <= i < |specs| ==>
      FixtureOk(specs[i].recipe) && DrawsOk(specs[i].draws) && specs[i].recipe.effect in EFFECT_KINDS
      && RowOf(specs[i], arm).Some?
  }

  predicate PreventedBy(s: Spec, arm: Arm)
    requires FixtureOk(s.recipe) && DrawsOk(s.draws)
  {
    RowOf(s, arm).Some? && Prevented(RowOf(s, arm).value)
  }

  /** `prevented` of one arm and pacing in `summarise`: how many harmful runs were prevented. */
  function Tally(specs: seq<Spec>, arm: Arm, pacing: Pacing): nat
    requires forall i :: 0 <= i < |specs| ==> FixtureOk(specs[i].recipe) && DrawsOk(specs[i].draws)
  {
    if specs == [] then 0
    else (if specs[0].recipe.harmful && specs[0].pacing == pacing && PreventedBy(specs[0], arm) then 1 else 0)
         + Tally(specs[1..], arm, pacing)
  }

  /** `gain` of one paired row. */
  function Gain(s: Spec): int
    requires FixtureOk(s.recipe) && DrawsOk(s.draws)
  {
    (if PreventedBy(s, Correlation) then 1 else 0) - (if PreventedBy(s, ConventionalRules) then 1 else 0)
  }

  predicate InterruptedBy(s: Spec, arm: Arm)
    requires FixtureOk(s.recipe) && DrawsOk(s.draws)
  {
    RowOf(s, arm).Some? && RowOf(s, arm).value.interrupted
  }

  /** `benign_contained` of one arm and pacing in `summarise`: how many benign runs were interrupted. */
  function Contained(specs: seq<Spec>, arm: Arm, pacing: Pacing): nat
    requires forall i :: 0 <= i < |specs| ==> FixtureOk(specs[i].recipe) && DrawsOk(specs[i].draws)
  {
    if specs == [] then 0
    else (if !specs[0].recipe.harmful && specs[0].pacing == pacing && InterruptedBy(specs[0], arm) then 1 else 0)
         + Contained(specs[1..], arm, pacing)
  }

  /** On one run correlation prevents whatever `arm` prevents and interrupts whatever `arm` interrupts. */
  lemma RowsOrdered(s: Spec, arm: Arm)
    requires arm.ConventionalRules? || arm.AlertOnly?
    requires FixtureOk(s.recipe) && DrawsOk(s.draws) && s.recipe.effect in EFFECT_KINDS
    requires RowOf(s, Correlation).Some? && RowOf(s, arm).Some?
    ensures PreventedBy(s, arm) ==> PreventedBy(s, Correlation)
    ensures InterruptedBy(s, arm) ==> InterruptedBy(s, Correlation)
  {
    hide ReplayOne, EFFECT_KINDS, SetupOk, SetupOf;
    SetupIsOk(s.recipe, s.draws, s.pacing, Correlation);
    SetupIsOk(s.recipe, s.draws, s.pacing, arm);
    CorrelationArms(s);
    var a, b := SetupOf(s.recipe, s.draws, s.pacing, Correlation), SetupOf(s.recipe, s.draws, s.pacing, arm);
    if arm.ConventionalRules? { CorrelationBeatsRules(a, b); } else { CorrelationBeatsAlert(a, b); }
  }

  /** The paired gain is never negative. */
  lemma GainNeverNegative(s: Spec)
    requires FixtureOk(s.recipe) && DrawsOk(s.draws) && s.recipe.effect in EFFECT_KINDS
    requires RowOf(s, Correlation).Some? && RowOf(s, ConventionalRules).Some?
    ensures Gain(s) >= 0
  {
    hide RowOf, EFFECT_KINDS, PreventedBy;
    RowsOrdered(s, ConventionalRules);
  }

  lemma CorrelationArms(s: Spec)
    requires DrawsOk(s.draws)
    ensures forall arm: Arm :: SetupOf(s.recipe, s.draws, s.pacing, arm).arm == arm
    ensures forall arm, other: Arm ::
              SetupOf(s.recipe, s.draws, s.pacing, arm) == SetupOf(s.recipe, s.draws, s.pacing, other).(arm := arm)
  {
    hide EventsTo;
  }

  /** So per pacing correlation prevents at least as many harmful runs as conventional-rules or alert-only,
      and interrupts at least as many benign ones. */
  lemma {:induction false} TalliesOrdered(specs: seq<Spec>, arm: Arm, pacing: Pacing)
    requires arm.ConventionalRules? || arm.AlertOnly?
    requires Finished(specs, Correlation) && Finished(specs, arm)
    ensures forall i :: 0 <= i < |specs| ==> FixtureOk(specs[i].recipe) && DrawsOk(specs[i].draws)
    ensures Tally(specs, arm, pacing) <= Tally(specs, Correlation, pacing)
    ensures Contained(specs, arm, pacing) <= Contained(specs, Correlation, pacing)
  {
    hide PreventedBy, InterruptedBy, EFFECT_KINDS, RowOf;
    if specs != [] {
      RowsOrdered(specs[0], arm);
      TalliesOrdered(specs[1..], arm, pacing);
    }
  }
}
