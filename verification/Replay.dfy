/** Replaying one recipe: telemetry is generated, fed to the detector tick by tick, and answered by the
    human-stop controller (experiments/counter_ai/replay.py, lines 62-157), on values. */
module Replay {
  import opened Json
  import S = StopStorage
  import H = HumanStop
  import opened Detection
  import opened DetectionStreams

  const PATTERN_LENGTH := 16
  const TRAILING_TICKS := 31

  /** The letters of a pattern: allowed, denied on the protected resource, denied on an ordinary one, tamper,
      alternate identity, replayed id, gap. */
  datatype Code = CodeA | CodeD | CodeN | CodeT | CodeS | CodeR | CodeG

  datatype Recipe = Recipe(
    pattern: seq<Code>, harmful: bool, effect: string, effectIndex: int, acl: bool, extraDelay: int, drop: set<int>)

  /** What `load_fixtures` and the JSON limits guarantee of a recipe. */
  predicate FixtureOk(r: Recipe) {
    && 0 < |r.pattern| <= PATTERN_LENGTH
    && 0 <= r.effectIndex < PATTERN_LENGTH
    && 0 <= r.extraDelay <= S.MAX_INTEGER
  }

  datatype Pacing = Fast | Slow

  function Interval(p: Pacing): int { if p.Fast? then 1 else 12 }

  /** What the seeded generator draws, and the hashed run id. */
  datatype Draws = Draws(offset: int, sensorDelay: int, workers: seq<bool>, runId: string)

  predicate DrawsOk(d: Draws) {
    0 <= d.offset < 4 && 0 <= d.sensorDelay < 3 && |d.workers| == PATTERN_LENGTH && 0 < |d.runId| <= 64
  }

  // ---------- telemetry ----------

  function CodeAt(r: Recipe, i: nat): Code {
    if i < |r.pattern| then r.pattern[i] else CodeA
  }

  /** `r` repeats the id before it; the first id before any is 0. */
  function EventId(r: Recipe, i: nat): int {
    if !CodeAt(r, i).CodeR? then i + 1 else if i == 0 then 0 else EventId(r, i - 1)
  }

  function DoingOf(c: Code): Doing {
    match c
    case CodeD => Deny
    case CodeN => Deny
    case CodeT => Tamper
    case CodeG => Gap
    case _ => Allow
  }

  function ResourceOf(c: Code): Resource {
    if c.CodeD? || c.CodeT? then Protected else if c.CodeS? then Named("alternate") else Named("ordinary")
  }

  function IdentityOf(c: Code, worker: bool): string {
    if c.CodeS? then "alternate" else if worker then "worker-1" else "worker-0"
  }

  function TickOf(d: Draws, p: Pacing, i: int): int { d.offset + i * Interval(p) }

  function EventAt(r: Recipe, d: Draws, p: Pacing, i: nat): Event
    requires DrawsOk(d) && i < PATTERN_LENGTH
  {
    var c := CodeAt(r, i);
    Event(d.runId, "A", 1, EventId(r, i), TickOf(d, p, i), TickOf(d, p, i) + d.sensorDelay + r.extraDelay,
          DoingOf(c), ResourceOf(c), IdentityOf(c, d.workers[i]))
  }

  /** The events of the first `n` positions that are not dropped. */
  function EventsTo(r: Recipe, d: Draws, p: Pacing, n: nat): seq<Event>
    requires DrawsOk(d) && n <= PATTERN_LENGTH
  {
    if n == 0 then []
    else EventsTo(r, d, p, n - 1) + if (n - 1) in r.drop then [] else [EventAt(r, d, p, n - 1)]
  }

  /** The generation loop; the sort that follows it in the original is the identity (SortedAlready). */
  method Generate(r: Recipe, d: Draws, p: Pacing) returns (events: seq<Event>, effectTick: int, duration: int)
    requires DrawsOk(d)
    ensures events == EventsTo(r, d, p, PATTERN_LENGTH)
    ensures effectTick == TickOf(d, p, r.effectIndex) && duration == TickOf(d, p, PATTERN_LENGTH)
  {
    hide DoingOf, ResourceOf, IdentityOf;
    var interval := Interval(p);
    events := [];
    var lastId := 0;
    for index := 0 to PATTERN_LENGTH
      invariant events == EventsTo(r, d, p, index)
      invariant lastId == if index == 0 then 0 else EventId(r, index - 1)
    {
      var code := if index < |r.pattern| then r.pattern[index] else CodeA;
      var tick := d.offset + index * interval;
      var eventId := if code.CodeR? then lastId else index + 1;
      lastId := eventId;
      var event := Event(d.runId, "A", 1, eventId, tick, tick + d.sensorDelay + r.extraDelay,
                         DoingOf(code), ResourceOf(code), IdentityOf(code, d.workers[index]));
      if index !in r.drop { events := events + [event]; }
    }
    effectTick, duration := d.offset + r.effectIndex * interval, d.offset + PATTERN_LENGTH * interval;
  }

  ghost predicate Ascending(events: seq<Event>) {
    forall i, j :: 0 <= i < j < |events| ==> events[i].availableTick < events[j].availableTick
  }

  /** What every event of a run has in common; `limit` bounds its delivery. */
  predicate Shaped(e: Event, runId: string, limit: int) {
    && e.allocation == "A" && e.generation == 1 && e.runId == runId
    && 0 <= e.eventTick <= e.availableTick < limit && 0 <= e.eventId <= PATTERN_LENGTH
  }

  ghost predicate AllShaped(events: seq<Event>, runId: string, limit: int) {
    forall i :: 0 <= i < |events| ==> Shaped(events[i], runId, limit)
  }

  /** Every event of the first `n` positions is available before this tick. */
  function Limit(r: Recipe, d: Draws, p: Pacing, n: nat): int {
    TickOf(d, p, n) + d.sensorDelay + r.extraDelay
  }

  lemma TickGrows(d: Draws, p: Pacing, i: nat)
    requires DrawsOk(d)
    ensures 0 <= TickOf(d, p, i) < TickOf(d, p, i + 1)
  {
  }

  lemma EventShaped(r: Recipe, d: Draws, p: Pacing, i: nat)
    requires DrawsOk(d) && i < PATTERN_LENGTH && 0 <= r.extraDelay
    ensures Shaped(EventAt(r, d, p, i), d.runId, Limit(r, d, p, i + 1))
    ensures EventAt(r, d, p, i).availableTick == Limit(r, d, p, i) < Limit(r, d, p, i + 1)
  {
    hide TickOf, CodeAt, DoingOf, ResourceOf, IdentityOf, EventId;
    TickGrows(d, p, i);
    EventIdRange(r, i);
  }

  lemma {:induction false} EventsShape(r: Recipe, d: Draws, p: Pacing, n: nat)
    requires DrawsOk(d) && n <= PATTERN_LENGTH && 0 <= r.extraDelay
    ensures |EventsTo(r, d, p, n)| <= n && Ascending(EventsTo(r, d, p, n))
    ensures AllShaped(EventsTo(r, d, p, n), d.runId, Limit(r, d, p, n))
  {
    hide EventAt, DrawsOk, Limit;
    if n > 0 {
      EventsShape(r, d, p, n - 1);
      EventShaped(r, d, p, n - 1);
    }
  }

  lemma {:induction false} EventIdRange(r: Recipe, i: nat)
    ensures 0 <= EventId(r, i) <= i + 1
  {
    if CodeAt(r, i).CodeR? && i > 0 { EventIdRange(r, i - 1); }
  }

  predicate KeyOrder(a: Event, b: Event) {
    a.availableTick < b.availableTick || (a.availableTick == b.availableTick && a.eventId <= b.eventId)
  }

  ghost predicate Sorted(events: seq<Event>) {
    forall i, j :: 0 <= i < j < |events| ==> KeyOrder(events[i], events[j])
  }

  lemma FirstStays(events: seq<Event>, sorted: seq<Event>)
    requires Ascending(events) && Sorted(sorted) && events != [] && sorted != []
    requires events[0] in sorted && sorted[0] in events
    ensures sorted[0] == events[0]
  {
    var i :| 0 <= i < |sorted| && sorted[i] == events[0];
    var j :| 0 <= j < |events| && events[j] == sorted[0];
    if i > 0 { assert KeyOrder(sorted[0], sorted[i]); }
  }

  /** Whatever the sort by (available tick, id) returns, it is the list it was given. */
  lemma {:induction false} SortedAlready(events: seq<Event>, sorted: seq<Event>)
    requires Ascending(events) && Sorted(sorted) && multiset(sorted) == multiset(events)
    ensures sorted == events
    decreases |events|
  {
    hide Ascending, Sorted;
    assert |multiset(sorted)| == |multiset(events)|;
    if events != [] {
      assert events[0] in multiset(sorted) && sorted[0] in multiset(events);
      FirstStays(events, sorted);
      assert sorted == [sorted[0]] + sorted[1..] && events == [events[0]] + events[1..];
      assert multiset(sorted[1..]) == multiset(sorted) - multiset{sorted[0]};
      assert multiset(events[1..]) == multiset(events) - multiset{events[0]};
      TailsKeepOrder(events, sorted);
      SortedAlready(events[1..], sorted[1..]);
    }
  }

  lemma TailsKeepOrder(events: seq<Event>, sorted: seq<Event>)
    requires Ascending(events) && Sorted(sorted) && events != [] && sorted != []
    ensures Ascending(events[1..]) && Sorted(sorted[1..])
  {
  }

  function Deliveries(events: seq<Event>): seq<Delivery> {
    seq(|events|, i requires 0 <= i < |events| => Delivery(events[i], events[i].availableTick))
  }

  lemma StreamIsValid(r: Recipe, d: Draws, p: Pacing)
    requires DrawsOk(d) && 0 <= r.extraDelay
    ensures ValidStream(Deliveries(EventsTo(r, d, p, PATTERN_LENGTH)))
  {
    hide EventsTo, DrawsOk, Limit;
    EventsShape(r, d, p, PATTERN_LENGTH);
    DrawnRunId(d);
    var ds := Deliveries(EventsTo(r, d, p, PATTERN_LENGTH));
    IdsBounded(ds, |ds|);
  }

  lemma DrawnRunId(d: Draws)
    requires DrawsOk(d)
    ensures 0 < |d.runId| <= 64
  {
  }

  lemma {:induction false} IdsBounded(ds: seq<Delivery>, n: nat)
    requires n <= |ds|
    ensures |Ids(ds, n)| <= n
  {
    if n > 0 {
      IdsBounded(ds, n - 1);
      SeenIsNotFirst(ds, n - 1);
    }
  }

  // ---------- what the letters of a pattern mean ----------

  /** The event a position generates, letter by letter; a pattern is filled up with `a`. */
  lemma Letters(r: Recipe, d: Draws, p: Pacing, i: nat)
    requires DrawsOk(d) && i < PATTERN_LENGTH
    ensures var e, worker := EventAt(r, d, p, i), if d.workers[i] then "worker-1" else "worker-0";
            match if i < |r.pattern| then r.pattern[i] else CodeA
            case CodeA => e.action == Allow && e.resource == Named("ordinary") && e.identity == worker
            case CodeD => e.action == Deny && e.resource == Protected && e.identity == worker
            case CodeN => e.action == Deny && e.resource == Named("ordinary") && e.identity == worker
            case CodeT => e.action == Tamper && e.resource == Protected && e.identity == worker
            case CodeS => e.action == Allow && e.resource == Named("alternate") && e.identity == "alternate"
            case CodeR => e.action == Allow && e.resource == Named("ordinary") && e.identity == worker
            case CodeG => e.action == Gap && e.resource == Named("ordinary") && e.identity == worker
    ensures EventAt(r, d, p, i).eventId
            == if i < |r.pattern| && r.pattern[i] == CodeR
               then (if i == 0 then 0 else EventAt(r, d, p, i - 1).eventId) else i + 1
    ensures var e := EventAt(r, d, p, i);
            && e.runId == d.runId && e.allocation == "A" && e.generation == 1
            && e.eventTick == d.offset + i * (if p.Fast? then 1 else 12)
            && e.availableTick == e.eventTick + d.sensorDelay + r.extraDelay
  {
  }

  /** The first events come from the first positions, in order. */
  lemma {:induction false} EventsFrom(r: Recipe, d: Draws, p: Pacing, n: nat, i: nat) returns (c: nat)
    requires DrawsOk(d) && n <= PATTERN_LENGTH && i < |EventsTo(r, d, p, n)|
    ensures c < n && c !in r.drop && EventsTo(r, d, p, n)[i] == EventAt(r, d, p, c)
  {
    hide EventAt, DrawsOk;
    if i < |EventsTo(r, d, p, n - 1)| { c := EventsFrom(r, d, p, n - 1, i); } else { c := n - 1; }
  }

  lemma {:induction false} EventsPlace(r: Recipe, d: Draws, p: Pacing, c: nat, n: nat)
    requires DrawsOk(d) && c < n <= PATTERN_LENGTH
    ensures |EventsTo(r, d, p, c)| <= |EventsTo(r, d, p, n)|
    ensures EventsTo(r, d, p, n)[..|EventsTo(r, d, p, c)|] == EventsTo(r, d, p, c)
    ensures c !in r.drop ==>
              |EventsTo(r, d, p, c)| < |EventsTo(r, d, p, n)|
              && EventsTo(r, d, p, n)[|EventsTo(r, d, p, c)|] == EventAt(r, d, p, c)
    decreases n
  {
    hide EventAt, DrawsOk;
    if c < n - 1 { EventsPlace(r, d, p, c, n - 1); }
  }

  /** A position violates the rules when its letter is `d` or `t` and it is not dropped. */
  predicate Violates(r: Recipe, c: nat) {
    c < |r.pattern| && c < PATTERN_LENGTH && c !in r.drop && (r.pattern[c] == CodeD || r.pattern[c] == CodeT)
  }

  /** Its event is the first with its id. */
  lemma ViolatingIsFirst(r: Recipe, d: Draws, p: Pacing, c: nat)
    requires DrawsOk(d) && 0 <= r.extraDelay && Violates(r, c)
    ensures var ds, i := Deliveries(EventsTo(r, d, p, PATTERN_LENGTH)), |EventsTo(r, d, p, c)|;
            i < |ds| && ds[i].event == EventAt(r, d, p, c) && Violation(ds, i)
  {
    hide DrawsOk, EventsTo;
    EventsPlace(r, d, p, c, PATTERN_LENGTH);
    Letters(r, d, p, c);
    var ds, i := Deliveries(EventsTo(r, d, p, PATTERN_LENGTH)), |EventsTo(r, d, p, c)|;
    forall j | 0 <= j < i ensures ds[j].event.eventId != ds[i].event.eventId {
      assert EventsTo(r, d, p, PATTERN_LENGTH)[..i][j] == EventsTo(r, d, p, c)[j];
      var b := EventsFrom(r, d, p, c, j);
      EventIdRange(r, b);
    }
  }

  /** A run violates the rules exactly where its recipe has an undropped `d` or `t`: of these the three arms
      without a sequence are the detectors. */
  lemma RecipeViolates(r: Recipe, d: Draws, p: Pacing)
    requires DrawsOk(d) && 0 <= r.extraDelay
    ensures var ds := Deliveries(EventsTo(r, d, p, PATTERN_LENGTH));
            && (forall i: nat :: i < |ds| && Violation(ds, i) ==>
                  exists c: nat :: Violates(r, c) && ds[i].event == EventAt(r, d, p, c))
            && (forall c: nat :: Violates(r, c) ==>
                  exists i: nat :: i < |ds| && Violation(ds, i) && ds[i].event == EventAt(r, d, p, c))
  {
    hide DrawsOk, EventsTo, Violation, EventAt;
    var ds := Deliveries(EventsTo(r, d, p, PATTERN_LENGTH));
    forall i: nat | i < |ds| && Violation(ds, i)
      ensures exists c: nat :: Violates(r, c) && ds[i].event == EventAt(r, d, p, c)
    {
      var c := EventsFrom(r, d, p, PATTERN_LENGTH, i);
      LetterViolates(r, d, p, c, ds, i);
    }
    forall c: nat | Violates(r, c)
      ensures exists i: nat :: i < |ds| && Violation(ds, i) && ds[i].event == EventAt(r, d, p, c)
    {
      ViolatingIsFirst(r, d, p, c);
    }
  }

  lemma LetterViolates(r: Recipe, d: Draws, p: Pacing, c: nat, ds: seq<Delivery>, i: nat)
    requires DrawsOk(d) && c < PATTERN_LENGTH && c !in r.drop
    requires i < |ds| && Violation(ds, i) && ds[i].event == EventAt(r, d, p, c)
    ensures Violates(r, c)
  {
    hide FirstSeen;
    Letters(r, d, p, c);
  }

  /** So conventional-rules, remove-sequence and remove-identity detect a run exactly when its recipe has one. */
  lemma RulesDetectRecipe(r: Recipe, d: Draws, p: Pacing, arm: Arm)
    requires DrawsOk(d) && 0 <= r.extraDelay
    requires arm.ConventionalRules? || arm.RemoveSequence? || arm.RemoveIdentity?
    ensures var ds := Deliveries(EventsTo(r, d, p, PATTERN_LENGTH));
            Feed(arm, ds, |ds|).0.detected.Some? <==> exists c: nat :: Violates(r, c)
  {
    hide DrawsOk, EventsTo, Violation, EventAt, Violates, Feed;
    var ds := Deliveries(EventsTo(r, d, p, PATTERN_LENGTH));
    StreamIsValid(r, d, p);
    RulesDetectViolations(ds, arm);
    RecipeViolates(r, d, p);
  }
}
