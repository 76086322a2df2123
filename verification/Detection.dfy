/** The streaming detector and its nine arms (experiments/counter_ai/detection.py): the object, what it
    means for a stream to trigger an arm, and how the arms compare on every stream. */
module Detection {
  import opened Json

  const WINDOW := 10
  const RATE := 8
  const MEMORY := 50
  const MAX_RECENT := 256
  const MAX_SEEN := 256

  datatype Arm =
    | PositiveControl | ConventionalPrevention | RateArm | ConventionalRules
    | Correlation | AlertOnly | RemoveTiming | RemoveSequence | RemoveIdentity

  datatype Doing = Allow | Deny | Tamper | Gap | OtherAction(name: string)

  datatype Resource = Protected | Named(name: string)

  datatype Event = Event(
    runId: string, allocation: string, generation: int, eventId: int,
    eventTick: int, availableTick: int, action: Doing, resource: Resource, identity: string)

  datatype Denial = Denial(tick: int, identity: string, resource: Resource)

  // ---------- the object on values ----------

  datatype Detecting = Detecting(
    seen: set<int>, recent: seq<int>, denial: Option<Denial>,
    lastAvailable: int, detected: Option<int>, runId: Option<string>)

  const FRESH := Detecting({}, [], None, 0, None, None)

  /** The checks made before anything is recorded. */
  predicate InScope(s: Detecting, e: Event, now: int) {
    && e.allocation == "A" && e.generation == 1
    && 0 < |e.runId| <= 64 && (s.runId.Some? ==> s.runId.value == e.runId)
    && 0 <= e.eventTick <= e.availableTick <= now
    && s.lastAvailable <= e.availableTick
  }

  /** deque(maxlen=256).append */
  function Append(recent: seq<int>, tick: int): seq<int> {
    if |recent| >= MAX_RECENT then recent[1..] + [tick] else recent + [tick]
  }

  function Prune(recent: seq<int>, newest: int): seq<int> {
    if recent != [] && newest - recent[0] > WINDOW then Prune(recent[1..], newest) else recent
  }

  predicate Conventional(e: Event) {
    e.action == Tamper || (e.action == Deny && e.resource == Protected)
  }

  predicate Sequenced(arm: Arm, denial: Option<Denial>, e: Event) {
    && denial.Some?
    && (arm.RemoveTiming? || e.availableTick - denial.value.tick <= MEMORY)
    && !arm.RemoveIdentity? && (e.identity != denial.value.identity || e.resource != denial.value.resource)
    && !arm.RemoveSequence?
  }

  predicate Triggered(arm: Arm, recent: seq<int>, denial: Option<Denial>, e: Event) {
    match arm
    case PositiveControl => false
    case ConventionalPrevention => false
    case RateArm => |recent| >= RATE
    case ConventionalRules => Conventional(e)
    case _ => Conventional(e) || Sequenced(arm, denial, e)
  }

  /** `accept`: the new state, and whether it returned rather than raised. */
  function Step(arm: Arm, s: Detecting, e: Event, now: int): (Detecting, bool) {
    if !InScope(s, e, now) then (s, false)
    else
      var t := s.(runId := Some(e.runId), lastAvailable := e.availableTick);
      if t.detected.Some? || e.eventId in t.seen then (t, true)
      else if |t.seen| >= MAX_SEEN then (t, false)
      else
        var u := t.(seen := t.seen + {e.eventId});
        if e.action == Gap then (u.(denial := None, recent := []), true)
        else
          var recent := Prune(Append(u.recent, e.availableTick), e.availableTick);
          var denial := if e.action == Deny then Some(Denial(e.availableTick, e.identity, e.resource)) else u.denial;
          var detected := if Triggered(arm, recent, u.denial, e) then Some(now) else None;
          (u.(recent := recent, denial := denial, detected := detected), true)
  }

  class Detector {
    const arm: Arm
    var seen: set<int>
    var recent: seq<int>
    var denial: Option<Denial>
    var lastAvailable: int
    var detected: Option<int>
    var runId: Option<string>

    constructor (arm: Arm)
      ensures this.arm == arm && View() == FRESH
    {
      this.arm := arm;
      seen, recent, denial := {}, [], None;
      lastAvailable, detected, runId := 0, None, None;
    }

    ghost function View(): Detecting
      reads this
    {
      Detecting(seen, recent, denial, lastAvailable, detected, runId)
    }

    /** `accept`; not ok where it raises, otherwise the decision is the tick of the detection so far. */
    method Accept(event: Event, now: int) returns (ok: bool, decision: Option<int>)
      modifies this
      ensures (View(), ok) == Step(arm, old(View()), event, now)
      ensures decision == if ok then detected else None
    {
      if event.allocation != "A" || event.generation != 1 { return false, None; }
      if !(0 < |event.runId| <= 64) || (runId.Some? && event.runId != runId.value) { return false, None; }
      if !(0 <= event.eventTick <= event.availableTick <= now) { return false, None; }
      if event.availableTick < lastAvailable { return false, None; }
      runId := Some(event.runId);
      lastAvailable := event.availableTick;
      if detected.Some? || event.eventId in seen { return true, detected; }
      if |seen| >= MAX_SEEN { return false, None; }
      seen := seen + {event.eventId};
      if event.action == Gap {
        denial := None;
        recent := [];
        return true, detected;
      }
      recent := Append(recent, event.availableTick);
      PruneWindow(event.availableTick);
      var triggered := Triggers(event);
      if event.action == Deny {
        denial := Some(Denial(event.availableTick, event.identity, event.resource));
      }
      if triggered { detected := Some(now); }
      return true, detected;
    }

    /** The pruning loop of `accept`. */
    method PruneWindow(newest: int)
      modifies this`recent
      ensures recent == Prune(old(recent), newest)
    {
      while recent != [] && newest - recent[0] > WINDOW
        invariant Prune(recent, newest) == Prune(old(recent), newest)
        decreases |recent|
      {
        recent := recent[1..];
      }
    }

    /** The decision of `accept`, taken on the denial remembered before this event. */
    method Triggers(event: Event) returns (triggered: bool)
      ensures triggered == Triggered(arm, recent, denial, event)
    {
      var conventional := event.action == Tamper || (event.action == Deny && event.resource == Protected);
      var sequenceSignal := false;
      if denial.Some? {
        var timeMatch := arm == RemoveTiming || event.availableTick - denial.value.tick <= MEMORY;
        var identityMatch := arm != RemoveIdentity
                             && (event.identity != denial.value.identity || event.resource != denial.value.resource);
        sequenceSignal := timeMatch && identityMatch && arm != RemoveSequence;
      }
      if arm == PositiveControl || arm == ConventionalPrevention {
        triggered := false;
      } else if arm == RateArm {
        triggered := |recent| >= RATE;
      } else if arm == ConventionalRules {
        triggered := conventional;
      } else {
        triggered := conventional || sequenceSignal;
      }
    }
  }
}
