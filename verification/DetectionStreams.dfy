/** What the detector computes on whole streams: a declarative reading of each arm, the pruned window
    as a plain filter, duplicates that change nothing, and the order of the arms. */
module DetectionStreams {
  import opened Json
  import opened Detection

  /** One call of `accept`. */
  datatype Delivery = Delivery(event: Event, now: int)

  /** The state after the first `n` calls, and whether all of them returned. */
  function Feed(arm: Arm, ds: seq<Delivery>, n: nat): (Detecting, bool)
    requires n <= |ds|
  {
    if n == 0 then (FRESH, true)
    else
      var (s, ok) := Feed(arm, ds, n - 1);
      if !ok then (s, false) else Step(arm, s, ds[n - 1].event, ds[n - 1].now)
  }

  function Ids(ds: seq<Delivery>, n: nat): set<int>
    requires n <= |ds|
  {
    set i | 0 <= i < n :: ds[i].event.eventId
  }

  /** Streams the detector is meant for: one scope and run, ticks in order, at most 256 distinct ids. */
  ghost predicate ValidStream(ds: seq<Delivery>) {
    && (forall i :: 0 <= i < |ds| ==>
          && ds[i].event.allocation == "A" && ds[i].event.generation == 1
          && 0 < |ds[i].event.runId| <= 64 && ds[i].event.runId == ds[0].event.runId
          && 0 <= ds[i].event.eventTick <= ds[i].event.availableTick <= ds[i].now)
    && (forall i, j :: 0 <= i < j < |ds| ==> ds[i].event.availableTick <= ds[j].event.availableTick)
    && |Ids(ds, |ds|)| <= MAX_SEEN
  }

  // ---------- the declarative reading ----------

  function Tick(ds: seq<Delivery>, i: nat): int
    requires i < |ds|
  {
    ds[i].event.availableTick
  }

  /** The first event with its id. */
  predicate FirstSeen(ds: seq<Delivery>, i: nat)
    requires i < |ds|
  {
    forall j :: 0 <= j < i ==> ds[j].event.eventId != ds[i].event.eventId
  }

  predicate GapAt(ds: seq<Delivery>, i: nat)
    requires i < |ds|
  {
    FirstSeen(ds, i) && ds[i].event.action == Gap
  }

  predicate Telemetry(ds: seq<Delivery>, i: nat)
    requires i < |ds|
  {
    FirstSeen(ds, i) && ds[i].event.action != Gap
  }

  predicate DenialAt(ds: seq<Delivery>, i: nat)
    requires i < |ds|
  {
    FirstSeen(ds, i) && ds[i].event.action == Deny
  }

  /** Position `d` holds the latest denial before `n`, and no gap marker has followed it. */
  predicate Remembers(ds: seq<Delivery>, d: nat, n: nat)
    requires n <= |ds|
  {
    d < n && DenialAt(ds, d) && forall q :: d < q < n ==> !GapAt(ds, q) && !DenialAt(ds, q)
  }

  /** An alternate identity or resource follows the remembered denial (in time, if `bounded`). */
  ghost predicate Correlates(ds: seq<Delivery>, i: nat, bounded: bool)
    requires i < |ds|
  {
    exists d: nat :: Remembers(ds, d, i)
      && (bounded ==> Tick(ds, i) - Tick(ds, d) <= MEMORY)
      && (ds[i].event.identity != ds[d].event.identity || ds[i].event.resource != ds[d].event.resource)
  }

  /** Telemetry up to position `i`, since the last gap and within the window of `i`. */
  function Recent(ds: seq<Delivery>, i: nat): set<nat>
    requires i < |ds|
  {
    set j: nat | 0 <= j <= i && Telemetry(ds, j) && (forall q :: j < q <= i ==> !GapAt(ds, q))
                 && Tick(ds, i) - Tick(ds, j) <= WINDOW
  }

  /** Tampering, or a denied access to the protected resource; no other denial. */
  predicate Violation(ds: seq<Delivery>, i: nat)
    requires i < |ds|
  {
    && FirstSeen(ds, i)
    && (ds[i].event.action == Tamper || (ds[i].event.action == Deny && ds[i].event.resource == Protected))
  }

  /** What each arm looks for at a telemetry event. */
  ghost predicate Fires(arm: Arm, ds: seq<Delivery>, i: nat)
    requires i < |ds|
  {
    && Telemetry(ds, i)
    && match arm
       case PositiveControl => false
       case ConventionalPrevention => false
       case RateArm => |Recent(ds, i)| >= RATE
       case ConventionalRules => Violation(ds, i)
       case RemoveSequence => Violation(ds, i)
       case RemoveIdentity => Violation(ds, i)
       case RemoveTiming => Violation(ds, i) || Correlates(ds, i, false)
       case Correlation => Violation(ds, i) || Correlates(ds, i, true)
       case AlertOnly => Violation(ds, i) || Correlates(ds, i, true)
  }

  // ---------- the memory before detection, free of the arm ----------

  predicate Ordered(kept: seq<nat>, n: nat) {
    && (forall x :: 0 <= x < |kept| ==> kept[x] < n)
    && forall x, y :: 0 <= x < y < |kept| ==> kept[x] < kept[y]
  }

  /** Positions whose ticks the deque holds after `n` calls. */
  function Kept(ds: seq<Delivery>, n: nat): seq<nat>
    requires n <= |ds|
  {
    if n == 0 then []
    else
      var before := Kept(ds, n - 1);
      if !FirstSeen(ds, n - 1) then before
      else if ds[n - 1].event.action == Gap then []
      else DropOld(ds, before + [n - 1], Tick(ds, n - 1))
  }

  function DropOld(ds: seq<Delivery>, kept: seq<nat>, newest: int): seq<nat> {
    if kept != [] && kept[0] < |ds| && newest - Tick(ds, kept[0]) > WINDOW then DropOld(ds, kept[1..], newest)
    else kept
  }

  function Ticks(ds: seq<Delivery>, kept: seq<nat>): seq<int> {
    seq(|kept|, x requires 0 <= x < |kept| => if kept[x] < |ds| then Tick(ds, kept[x]) else 0)
  }

  /** The position of the remembered denial. */
  function LastDenial(ds: seq<Delivery>, n: nat): Option<nat>
    requires n <= |ds|
  {
    if n == 0 then None
    else if GapAt(ds, n - 1) then None
    else if DenialAt(ds, n - 1) then Some(n - 1)
    else LastDenial(ds, n - 1)
  }

  function DenialOf(ds: seq<Delivery>, d: Option<nat>): Option<Denial> {
    if d.None? || d.value >= |ds| then None
    else Some(Denial(Tick(ds, d.value), ds[d.value].event.identity, ds[d.value].event.resource))
  }

  lemma {:induction false} LastDenialMeans(ds: seq<Delivery>, n: nat)
    requires n <= |ds|
    ensures LastDenial(ds, n).Some? ==> Remembers(ds, LastDenial(ds, n).value, n)
    ensures forall d: nat :: Remembers(ds, d, n) ==> LastDenial(ds, n) == Some(d)
  {
    hide FirstSeen;
    if n > 0 {
      LastDenialMeans(ds, n - 1);
      forall d: nat | Remembers(ds, d, n) ensures LastDenial(ds, n) == Some(d) {
        if d < n - 1 {
          assert !GapAt(ds, n - 1) && !DenialAt(ds, n - 1);
          assert Remembers(ds, d, n - 1);
        }
      }
    }
  }

  /** Position `j` is still in the window after `n` calls. */
  predicate Alive(ds: seq<Delivery>, j: nat, n: nat)
    requires n <= |ds|
  {
    j < n && Telemetry(ds, j)
    && forall q :: j < q < n && FirstSeen(ds, q) ==> ds[q].event.action != Gap && Tick(ds, q) - Tick(ds, j) <= WINDOW
  }

  lemma {:induction false} DropOldMeans(ds: seq<Delivery>, kept: seq<nat>, n: nat, newest: int)
    requires ValidStream(ds) && Ordered(kept, n) && n <= |ds|
    ensures Ordered(DropOld(ds, kept, newest), n)
    ensures forall j :: j in DropOld(ds, kept, newest) <==> j in kept && newest - Tick(ds, j) <= WINDOW
    decreases |kept|
  {
    if kept != [] && newest - Tick(ds, kept[0]) > WINDOW {
      DropOldMeans(ds, kept[1..], n, newest);
      assert forall j :: j in kept <==> j == kept[0] || j in kept[1..];
    } else if kept != [] {
      forall j | j in kept ensures newest - Tick(ds, j) <= WINDOW {
        var x :| 0 <= x < |kept| && kept[x] == j;
        assert Tick(ds, kept[0]) <= Tick(ds, j);
      }
    }
  }

  lemma AliveStep(ds: seq<Delivery>, j: nat, n: nat)
    requires n < |ds|
    ensures Alive(ds, j, n + 1) <==>
              if !FirstSeen(ds, n) then Alive(ds, j, n)
              else ds[n].event.action != Gap
                   && (j == n || (Alive(ds, j, n) && Tick(ds, n) - Tick(ds, j) <= WINDOW))
  {
    hide FirstSeen;
  }

  /** The deque is the plain filter: exactly the positions still alive, in order. */
  lemma {:induction false} KeptMeans(ds: seq<Delivery>, n: nat)
    requires ValidStream(ds) && n <= |ds|
    ensures Ordered(Kept(ds, n), n)
    ensures forall j: nat :: j in Kept(ds, n) <==> Alive(ds, j, n)
  {
    hide ValidStream, DropOld, FirstSeen, Alive;
    if n > 0 {
      KeptMeans(ds, n - 1);
      var before := Kept(ds, n - 1);
      forall j: nat | j < n
        ensures Alive(ds, j, n) <==>
                  if !FirstSeen(ds, n - 1) then Alive(ds, j, n - 1)
                  else ds[n - 1].event.action != Gap
                       && (j == n - 1 || (Alive(ds, j, n - 1) && Tick(ds, n - 1) - Tick(ds, j) <= WINDOW))
      {
        AliveStep(ds, j, n - 1);
      }
      if Telemetry(ds, n - 1) {
        assert Ordered(before + [n - 1], n);
        DropOldMeans(ds, before + [n - 1], n, Tick(ds, n - 1));
      }
    }
    forall j: nat | Alive(ds, j, n) ensures j < n { AliveBelow(ds, j, n); }
  }

  lemma AliveBelow(ds: seq<Delivery>, j: nat, n: nat)
    requires n <= |ds| && Alive(ds, j, n)
    ensures j < n
  {
  }

  // ---------- the object keeps that memory until it detects ----------

  lemma KeptBounded(ds: seq<Delivery>, n: nat)
    requires ValidStream(ds) && n <= |ds|
    ensures Ordered(Kept(ds, n), n)
    ensures |Kept(ds, n)| <= |Ids(ds, n)|
  {
    KeptMeans(ds, n);
    hide ValidStream, Alive;
    var kept := Kept(ds, n);
    forall x | 0 <= x < |kept| ensures kept[x] < n && FirstSeen(ds, kept[x]) { AliveFirst(ds, kept[x], n); }
    DistinctIds(ds, kept, n);
  }

  lemma AliveFirst(ds: seq<Delivery>, j: nat, n: nat)
    requires n <= |ds| && Alive(ds, j, n)
    ensures j < n && FirstSeen(ds, j)
  {
  }

  /** As many first-seen positions as ids. */
  lemma {:induction false} DistinctIds(ds: seq<Delivery>, kept: seq<nat>, n: nat)
    requires n <= |ds| && Ordered(kept, n)
    requires forall x :: 0 <= x < |kept| ==> FirstSeen(ds, kept[x])
    ensures |kept| <= |Ids(ds, n)|
    decreases |kept|
  {
    if kept != [] {
      var last := kept[|kept| - 1];
      DistinctIds(ds, kept[..|kept| - 1], last);
      assert FirstSeen(ds, last);
      assert ds[last].event.eventId !in Ids(ds, last);
      SubsetSize(Ids(ds, last) + {ds[last].event.eventId}, Ids(ds, n));
    }
  }

  lemma {:induction false} SubsetSize<T>(a: set<T>, b: set<T>)
    requires a <= b
    ensures |a| <= |b|
  {
    if a != {} {
      var x :| x in a;
      SubsetSize(a - {x}, b - {x});
    }
  }

  lemma {:induction false} PruneTicks(ds: seq<Delivery>, kept: seq<nat>, newest: int)
    requires Ordered(kept, |ds|)
    ensures Ordered(DropOld(ds, kept, newest), |ds|)
    ensures Prune(Ticks(ds, kept), newest) == Ticks(ds, DropOld(ds, kept, newest))
    decreases |kept|
  {
    if kept != [] && newest - Tick(ds, kept[0]) > WINDOW {
      assert Ticks(ds, kept)[1..] == Ticks(ds, kept[1..]);
      PruneTicks(ds, kept[1..], newest);
    }
  }

  lemma RecentIsAlive(ds: seq<Delivery>, i: nat, j: nat)
    requires ValidStream(ds) && i < |ds| && Telemetry(ds, i)
    ensures j in Recent(ds, i) <==> Alive(ds, j, i + 1)
  {
    hide FirstSeen;
    if j in Recent(ds, i) {
      forall q | j < q < i + 1 && FirstSeen(ds, q)
        ensures ds[q].event.action != Gap && Tick(ds, q) - Tick(ds, j) <= WINDOW
      {
        assert !GapAt(ds, q);
        assert Tick(ds, q) <= Tick(ds, i);
      }
    }
  }

  lemma RecentIsKept(ds: seq<Delivery>, i: nat)
    requires ValidStream(ds) && i < |ds| && Telemetry(ds, i)
    ensures |Recent(ds, i)| == |Kept(ds, i + 1)|
  {
    hide ValidStream, Alive, Recent, Kept, FirstSeen;
    KeptMeans(ds, i + 1);
    forall j: nat ensures j in Recent(ds, i) <==> j in Kept(ds, i + 1) { RecentIsAlive(ds, i, j); }
    SameSize(Kept(ds, i + 1), Recent(ds, i), i + 1);
  }

  lemma {:induction false} SameSize(kept: seq<nat>, all: set<nat>, n: nat)
    requires Ordered(kept, n) && forall j: nat :: j in all <==> j in kept
    ensures |all| == |kept|
    decreases |kept|
  {
    if kept == [] {
      assert all == {};
    } else {
      var last := kept[|kept| - 1];
      var rest := kept[..|kept| - 1];
      assert kept == rest + [last];
      SameSize(rest, all - {last}, last);
    }
  }

  /** The sequence signal is a correlation with the remembered denial. */
  lemma SequencedMeans(arm: Arm, ds: seq<Delivery>, i: nat)
    requires i < |ds|
    ensures Sequenced(arm, DenialOf(ds, LastDenial(ds, i)), ds[i].event)
            <==> !arm.RemoveIdentity? && !arm.RemoveSequence? && Correlates(ds, i, !arm.RemoveTiming?)
  {
    hide FirstSeen, DenialAt, GapAt, LastDenial;
    LastDenialMeans(ds, i);
    var d := LastDenial(ds, i);
    if d.None? { assert forall q: nat :: !Remembers(ds, q, i); }
  }

  /** Reading the arms off the object's memory and reading them off the stream agree. */
  lemma FiresOnMemory(arm: Arm, ds: seq<Delivery>, i: nat)
    requires ValidStream(ds) && i < |ds| && Telemetry(ds, i)
    ensures Triggered(arm, Ticks(ds, Kept(ds, i + 1)), DenialOf(ds, LastDenial(ds, i)), ds[i].event)
            <==> Fires(arm, ds, i)
  {
    hide ValidStream, FirstSeen, Recent, Kept, Correlates, Sequenced, LastDenial, DenialOf;
    RecentIsKept(ds, i);
    SequencedMeans(arm, ds, i);
  }

  /** The position at which the arm detects within the first `n` calls. */
  ghost function DetectedAt(arm: Arm, ds: seq<Delivery>, n: nat): (at: Option<nat>)
    requires n <= |ds|
    ensures at.Some? ==> at.value < n && Fires(arm, ds, at.value)
                         && forall j :: 0 <= j < at.value ==> !Fires(arm, ds, j)
    ensures at.None? ==> forall j :: 0 <= j < n ==> !Fires(arm, ds, j)
  {
    if n == 0 then None
    else if DetectedAt(arm, ds, n - 1).Some? then DetectedAt(arm, ds, n - 1)
    else if Fires(arm, ds, n - 1) then Some(n - 1)
    else None
  }

  /** The object's state after `n` calls. */
  ghost predicate Holds(arm: Arm, ds: seq<Delivery>, n: nat, s: Detecting)
    requires n <= |ds|
  {
    && s.lastAvailable == (if n == 0 then 0 else Tick(ds, n - 1))
    && s.runId == (if n == 0 then None else Some(ds[0].event.runId))
    && s.detected == (if DetectedAt(arm, ds, n).Some? then Some(ds[DetectedAt(arm, ds, n).value].now) else None)
    && (DetectedAt(arm, ds, n).None? ==>
          && s.seen == Ids(ds, n)
          && s.recent == Ticks(ds, Kept(ds, n))
          && s.denial == DenialOf(ds, LastDenial(ds, n)))
  }

  /** On every valid stream no call raises, the pruned deque is the filter, and the arm detects exactly
      at the first position where it fires. */
  lemma {:induction false} FeedMeans(arm: Arm, ds: seq<Delivery>, n: nat)
    requires ValidStream(ds) && n <= |ds|
    ensures Feed(arm, ds, n).1 && Holds(arm, ds, n, Feed(arm, ds, n).0)
  {
    hide ValidStream, Step, Fires, FirstSeen;
    if n > 0 {
      hide Holds;
      FeedMeans(arm, ds, n - 1);
      FeedStep(arm, ds, n - 1, Feed(arm, ds, n - 1).0);
    }
  }

  lemma InScopeNext(arm: Arm, ds: seq<Delivery>, n: nat, s: Detecting)
    requires ValidStream(ds) && n < |ds|
    requires s.lastAvailable == (if n == 0 then 0 else Tick(ds, n - 1))
    requires s.runId == (if n == 0 then None else Some(ds[0].event.runId))
    ensures InScope(s, ds[n].event, ds[n].now)
  {
  }

  lemma SeenIsNotFirst(ds: seq<Delivery>, n: nat)
    requires n < |ds|
    ensures ds[n].event.eventId in Ids(ds, n) <==> !FirstSeen(ds, n)
    ensures Ids(ds, n + 1) == Ids(ds, n) + {ds[n].event.eventId}
  {
  }

  lemma BudgetHolds(ds: seq<Delivery>, n: nat)
    requires ValidStream(ds) && n < |ds| && FirstSeen(ds, n)
    ensures |Ids(ds, n)| < MAX_SEEN
  {
    SeenIsNotFirst(ds, n);
    SubsetSize(Ids(ds, n + 1), Ids(ds, |ds|));
  }

  lemma FeedStep(arm: Arm, ds: seq<Delivery>, n: nat, s: Detecting)
    requires ValidStream(ds) && n < |ds| && Holds(arm, ds, n, s)
    ensures var (t, ok) := Step(arm, s, ds[n].event, ds[n].now);
            ok && Holds(arm, ds, n + 1, t)
  {
    hide ValidStream, Fires, Prune, DropOld, FirstSeen, Triggered, InScope;
    hide Ids, Kept, LastDenial, Append, Ticks, DenialOf;
    InScopeNext(arm, ds, n, s);
    SeenIsNotFirst(ds, n);
    OnlyTelemetryFires(arm, ds, n);
    if !FirstSeen(ds, n) || DetectedAt(arm, ds, n).Some? {
      MemorySkips(ds, n);
    } else {
      BudgetHolds(ds, n);
      if ds[n].event.action == Gap {
        MemoryGap(ds, n);
      } else {
        MemoryTelemetry(ds, n, s.recent);
        FiresOnMemory(arm, ds, n);
      }
    }
  }

  lemma OnlyTelemetryFires(arm: Arm, ds: seq<Delivery>, n: nat)
    requires n < |ds|
    ensures Fires(arm, ds, n) ==> Telemetry(ds, n)
  {
    hide FirstSeen, Correlates, Recent;
  }

  lemma MemorySkips(ds: seq<Delivery>, n: nat)
    requires n < |ds|
    ensures !FirstSeen(ds, n) ==> Kept(ds, n + 1) == Kept(ds, n) && LastDenial(ds, n + 1) == LastDenial(ds, n)
  {
    hide FirstSeen, DropOld;
  }

  lemma MemoryGap(ds: seq<Delivery>, n: nat)
    requires n < |ds| && GapAt(ds, n)
    ensures Ticks(ds, Kept(ds, n + 1)) == [] && DenialOf(ds, LastDenial(ds, n + 1)).None?
  {
    hide FirstSeen, DropOld;
  }

  lemma MemoryTelemetry(ds: seq<Delivery>, n: nat, recent: seq<int>)
    requires ValidStream(ds) && n < |ds| && Telemetry(ds, n) && recent == Ticks(ds, Kept(ds, n))
    ensures var e := ds[n].event;
            && Prune(Append(recent, e.availableTick), e.availableTick) == Ticks(ds, Kept(ds, n + 1))
            && DenialOf(ds, LastDenial(ds, n + 1))
               == if e.action == Deny then Some(Denial(e.availableTick, e.identity, e.resource))
                  else DenialOf(ds, LastDenial(ds, n))
  {
    BudgetHolds(ds, n);
    KeptBounded(ds, n);
    hide ValidStream, FirstSeen, DropOld, Prune, Ids;
    var kept := Kept(ds, n) + [n];
    assert Ordered(kept, |ds|);
    assert Append(recent, ds[n].event.availableTick) == Ticks(ds, kept);
    PruneTicks(ds, kept, ds[n].event.availableTick);
  }

  // ---------- how the arms compare ----------

  /** `a` detects no later than `b`, as positions of the stream. */
  predicate NoLater(a: Option<nat>, b: Option<nat>) {
    b.Some? ==> a.Some? && a.value <= b.value
  }

  lemma {:induction false} FiresEarlier(a: Arm, b: Arm, ds: seq<Delivery>, n: nat)
    requires n <= |ds|
    requires forall i: nat :: i < |ds| && Fires(b, ds, i) ==> Fires(a, ds, i)
    ensures NoLater(DetectedAt(a, ds, n), DetectedAt(b, ds, n))
  {
    hide Fires;
    var x, y := DetectedAt(a, ds, n), DetectedAt(b, ds, n);
    if y.Some? { assert Fires(a, ds, y.value); }
  }

  /** conventional-rules, remove-sequence and remove-identity are the same detector, and so are correlation
      and alert-only; remove-timing is at least as fast as correlation, which is at least as fast as
      conventional-rules; the two control arms never detect. */
  lemma ArmsCompared(ds: seq<Delivery>, n: nat)
    requires n <= |ds|
    ensures DetectedAt(RemoveSequence, ds, n) == DetectedAt(ConventionalRules, ds, n)
    ensures DetectedAt(RemoveIdentity, ds, n) == DetectedAt(ConventionalRules, ds, n)
    ensures DetectedAt(AlertOnly, ds, n) == DetectedAt(Correlation, ds, n)
    ensures NoLater(DetectedAt(RemoveTiming, ds, n), DetectedAt(Correlation, ds, n))
    ensures NoLater(DetectedAt(Correlation, ds, n), DetectedAt(ConventionalRules, ds, n))
    ensures DetectedAt(PositiveControl, ds, n).None? && DetectedAt(ConventionalPrevention, ds, n).None?
  {
    forall i: nat | i < |ds| && Fires(Correlation, ds, i) ensures Fires(RemoveTiming, ds, i) {
      FasterWithoutTiming(ds, i);
    }
    hide Correlates, Recent, FirstSeen;
    FiresEarlier(RemoveSequence, ConventionalRules, ds, n);
    FiresEarlier(ConventionalRules, RemoveSequence, ds, n);
    FiresEarlier(RemoveIdentity, ConventionalRules, ds, n);
    FiresEarlier(ConventionalRules, RemoveIdentity, ds, n);
    FiresEarlier(AlertOnly, Correlation, ds, n);
    FiresEarlier(Correlation, AlertOnly, ds, n);
    FiresEarlier(RemoveTiming, Correlation, ds, n);
    FiresEarlier(Correlation, ConventionalRules, ds, n);
  }

  lemma FasterWithoutTiming(ds: seq<Delivery>, i: nat)
    requires i < |ds| && Fires(Correlation, ds, i)
    ensures Fires(RemoveTiming, ds, i)
  {
    hide FirstSeen, Recent;
    if Correlates(ds, i, true) {
      var d: nat :| Remembers(ds, d, i)
        && Tick(ds, i) - Tick(ds, d) <= MEMORY
        && (ds[i].event.identity != ds[d].event.identity || ds[i].event.resource != ds[d].event.resource);
      assert Correlates(ds, i, false);
    }
  }

  /** The same, said of the objects: what the nine detectors report on one valid stream. */
  lemma ArmsReport(ds: seq<Delivery>, arm: Arm)
    requires ValidStream(ds)
    ensures Feed(arm, ds, |ds|).1
    ensures Feed(arm, ds, |ds|).0.detected
            == (if DetectedAt(arm, ds, |ds|).Some? then Some(ds[DetectedAt(arm, ds, |ds|).value].now) else None)
  {
    FeedMeans(arm, ds, |ds|);
  }

  /** The position of the first violation. */
  ghost predicate FirstViolation(ds: seq<Delivery>, i: nat) {
    i < |ds| && Violation(ds, i) && forall j: nat :: j < i ==> !Violation(ds, j)
  }

  /** The three arms without a sequence detect exactly at the first violation, and never on a stream without one:
      denials of other resources are nothing to them. */
  lemma RulesDetectViolations(ds: seq<Delivery>, arm: Arm)
    requires ValidStream(ds) && (arm.ConventionalRules? || arm.RemoveSequence? || arm.RemoveIdentity?)
    ensures Feed(arm, ds, |ds|).1
    ensures var detected := Feed(arm, ds, |ds|).0.detected;
            && (detected.None? <==> forall i: nat :: i < |ds| ==> !Violation(ds, i))
            && forall i: nat :: FirstViolation(ds, i) ==> detected == Some(ds[i].now)
  {
    hide ValidStream, Fires, Violation, Feed, DetectedAt;
    ArmsReport(ds, arm);
    var at := DetectedAt(arm, ds, |ds|);
    forall i: nat | i < |ds| ensures Fires(arm, ds, i) <==> Violation(ds, i) { RulesFire(arm, ds, i); }
    forall i: nat | FirstViolation(ds, i) ensures at == Some(i) {
      assert Fires(arm, ds, i);
    }
  }

  lemma RulesFire(arm: Arm, ds: seq<Delivery>, i: nat)
    requires i < |ds| && (arm.ConventionalRules? || arm.RemoveSequence? || arm.RemoveIdentity?)
    ensures Fires(arm, ds, i) <==> Violation(ds, i)
  {
    hide FirstSeen, Correlates, Recent;
  }

  // ---------- when `accept` raises ----------

  /** It raises exactly over an event of another scope or run, with ticks out of order, or new when 256 ids have
      been seen and nothing detected yet; only in the last case has it recorded anything. */
  lemma AcceptRaises(arm: Arm, s: Detecting, e: Event, now: int)
    ensures var stranger := || e.allocation != "A" || e.generation != 1 || e.runId == "" || |e.runId| > 64
                            || (s.runId.Some? && s.runId.value != e.runId)
                            || e.eventTick < 0 || e.eventTick > e.availableTick || e.availableTick > now
                            || e.availableTick < s.lastAvailable;
            && (!Step(arm, s, e, now).1 <==>
                  stranger || (s.detected.None? && e.eventId !in s.seen && |s.seen| >= 256))
            && (stranger ==> Step(arm, s, e, now).0 == s)
  {
    hide Triggered, Prune;
  }

  // ---------- duplicates are no evidence ----------

  /** The first `n` deliveries without those that repeat an id. */
  function Distinct(ds: seq<Delivery>, n: nat): seq<Delivery>
    requires n <= |ds|
  {
    if n == 0 then []
    else Distinct(ds, n - 1) + if FirstSeen(ds, n - 1) then [ds[n - 1]] else []
  }

  lemma {:induction false} FeedPrefix(arm: Arm, ds: seq<Delivery>, d: Delivery, n: nat)
    requires n <= |ds|
    ensures Feed(arm, ds + [d], n) == Feed(arm, ds, n)
  {
    hide Step;
    if n > 0 { FeedPrefix(arm, ds, d, n - 1); }
  }

  /** Equal but for how late the last delivery was. */
  predicate Agree(s: Detecting, t: Detecting) {
    t.lastAvailable <= s.lastAvailable && s.(lastAvailable := t.lastAvailable) == t
  }

  lemma AgreeStep(arm: Arm, s: Detecting, t: Detecting, e: Event, now: int)
    requires Agree(s, t) && Step(arm, s, e, now).1
    ensures Step(arm, t, e, now).1 && Agree(Step(arm, s, e, now).0, Step(arm, t, e, now).0)
  {
    hide Triggered, Prune;
  }

  lemma RepeatStep(arm: Arm, s: Detecting, t: Detecting, e: Event, now: int)
    requires Agree(s, t) && InScope(s, e, now) && s.runId == Some(e.runId)
    requires s.detected.Some? || e.eventId in s.seen
    ensures Agree(Step(arm, s, e, now).0, t)
  {
    hide Triggered, Prune;
  }

  lemma {:induction false} DistinctAgrees(arm: Arm, ds: seq<Delivery>, n: nat)
    requires ValidStream(ds) && n <= |ds|
    ensures var fs := Distinct(ds, n);
            Feed(arm, fs, |fs|).1 && Agree(Feed(arm, ds, n).0, Feed(arm, fs, |fs|).0)
  {
    hide Step, FirstSeen, ValidStream, Agree;
    if n == 0 {
      assert Agree(FRESH, FRESH) by { AgreeSelf(FRESH); }
    } else {
      var before, d := Distinct(ds, n - 1), ds[n - 1];
      DistinctAgrees(arm, ds, n - 1);
      FeedMeans(arm, ds, n - 1);
      FeedMeans(arm, ds, n);
      var s := Feed(arm, ds, n - 1).0;
      if FirstSeen(ds, n - 1) {
        FeedPrefix(arm, before, d, |before|);
        AgreeStep(arm, s, Feed(arm, before, |before|).0, d.event, d.now);
      } else {
        InScopeNext(arm, ds, n - 1, s);
        SeenIsNotFirst(ds, n - 1);
        SameRun(ds, n - 1);
        RepeatStep(arm, s, Feed(arm, before, |before|).0, d.event, d.now);
        assert before + [] == before;
      }
    }
  }

  lemma AgreeSelf(s: Detecting)
    ensures Agree(s, s)
  {
  }

  lemma SameRun(ds: seq<Delivery>, n: nat)
    requires ValidStream(ds) && n < |ds| && !FirstSeen(ds, n)
    ensures n > 0 && ds[n].event.runId == ds[0].event.runId
  {
  }

  /** Deleting the deliveries that repeat an id changes no arm's detection. */
  lemma DuplicatesChangeNothing(arm: Arm, ds: seq<Delivery>)
    requires ValidStream(ds)
    ensures var fs := Distinct(ds, |ds|);
            Feed(arm, fs, |fs|).1 && Feed(arm, fs, |fs|).0.detected == Feed(arm, ds, |ds|).0.detected
  {
    hide Step, FirstSeen, ValidStream;
    DistinctAgrees(arm, ds, |ds|);
  }
}
