/** The laws every step of the human-stop system obeys for one allocation, and what they imply
    for whole runs: launch discipline, and scopes and sequences that never go back. */
module StopLaws {
  import opened Json
  import opened StopStorage
  import opened HumanStop

  /** An allocation as the world, the durable record and the observation cache show it. */
  datatype View = View(row: Allocation, exec: Exec, seen: Option<Observation>)

  ghost predicate SeenStopped(v: View) {
    && v.seen.Some?
    && v.seen.value.state == VERIFIED_STOPPED
    && v.seen.value.generation == v.row.generation
    && v.seen.value.epoch == v.row.epoch
  }

  ghost predicate Ahead(a: Allocation, b: Allocation) {
    a.generation < b.generation || (a.generation == b.generation && a.epoch <= b.epoch)
  }

  /** The laws of one step. */
  ghost predicate Lawful(v: View, w: View) {
    // a launch needs a durable approval, no latch and nothing running, and forgets what was seen
    && (!v.exec.running && w.exec.running ==>
          && v.row.approved && !v.row.latched && !v.exec.remoteRunning
          && w.row.approved && !w.row.latched && w.exec.remoteRunning && w.seen.None?)
    && (!v.exec.remoteRunning && w.exec.remoteRunning ==> !v.exec.running && w.exec.running)
    // execution ends only under a latch
    && (v.exec.running && !w.exec.running ==> v.row.latched && w.row.latched)
    && (v.exec.remoteRunning && !w.exec.remoteRunning ==> v.row.latched && w.row.latched && !w.exec.running)
    // the latch opens only on a verified stop of the same scope, and approval does not survive it
    && (v.row.latched && !w.row.latched ==> SeenStopped(v) && !Executing(v.exec) && !w.row.approved)
    && (v.row.latched && w.row.latched ==> w.row.epoch == v.row.epoch && w.row.generation == v.row.generation)
    && (!v.row.latched && w.row.latched ==> w.row.epoch == v.row.epoch + 1 && w.row.generation == v.row.generation)
    // a new observation is of the current scope, and tells the truth
    && (w.seen.Some? && w.seen != v.seen ==>
          && v.row == w.row
          && w.seen.value.generation == w.row.generation && w.seen.value.epoch == w.row.epoch
          && (w.seen.value.state == VERIFIED_STOPPED ==> !Executing(v.exec)))
    // scopes and sequences never go back
    && Ahead(v.row, w.row)
    && (v.row.generation == w.row.generation ==>
          forall p: Principal :: v.row.sequence[p] <= w.row.sequence[p])
  }

  lemma QuietLawful(v: View, w: View)
    requires w.row == v.row && (w.seen == v.seen || w.seen.None?)
    requires w.exec.running == v.exec.running && w.exec.remoteRunning == v.exec.remoteRunning
    ensures Lawful(v, w)
  {
  }

  ghost predicate LawfulRun(vs: seq<View>) {
    && vs != []
    && vs[0] == View(FreshAllocation(1), FreshExec(1), None)
    && forall i :: 0 <= i < |vs| - 1 ==> StepAt(vs, i)
  }

  ghost predicate StepAt(vs: seq<View>, i: int)
    requires 0 <= i < |vs| - 1
  {
    Lawful(vs[i], vs[i + 1])
  }

  // ---------- launch discipline ----------

  lemma LastRise(vs: seq<View>, holds: View -> bool, lo: nat, hi: nat) returns (p: nat)
    requires lo < hi < |vs| && !holds(vs[lo]) && holds(vs[hi])
    ensures lo <= p < hi && !holds(vs[p]) && holds(vs[p + 1])
    ensures forall q :: p < q <= hi ==> holds(vs[q])
  {
    p := hi - 1;
    while holds(vs[p])
      invariant lo <= p < hi
      invariant forall q :: p < q <= hi ==> holds(vs[q])
      decreases p
    {
      p := p - 1;
    }
  }

  lemma FirstFall(vs: seq<View>, holds: View -> bool, lo: nat, hi: nat) returns (p: nat)
    requires lo < hi < |vs| && holds(vs[lo]) && !holds(vs[hi])
    ensures lo <= p < hi && !holds(vs[p + 1])
    ensures forall q :: lo <= q <= p ==> holds(vs[q])
  {
    p := lo;
    while holds(vs[p + 1])
      invariant lo <= p < hi
      invariant forall q :: lo <= q <= p ==> holds(vs[q])
      decreases hi - p
    {
      p := p + 1;
    }
  }

  ghost predicate LaunchAt(vs: seq<View>, i: nat) {
    i + 1 < |vs| && !vs[i].exec.running && vs[i + 1].exec.running
  }

  /** Steps between two launches: the latch closes at `stop`, local and remote execution end at
      `local` and `remote`, `seen` verifies, the latch opens at `reset`, `approve` approves. */
  datatype Chain = Chain(stop: nat, local: nat, remote: nat, seen: nat, reset: nat, approve: nat)

  ghost predicate Disciplined(vs: seq<View>, i: nat, j: nat, c: Chain) {
    && i < c.stop < c.local <= c.remote < c.seen < c.reset < c.approve < j < |vs|
    && !vs[c.stop].row.latched && (forall q :: c.stop < q <= c.reset ==> vs[q].row.latched)
    && vs[c.local].exec.running && !vs[c.local + 1].exec.running
    && vs[c.remote].exec.remoteRunning && (forall q :: c.remote < q <= j ==> !Executing(vs[q].exec))
    && SeenStopped(vs[c.seen + 1]) && vs[c.seen + 1].seen != vs[c.seen].seen
    && vs[c.seen + 1].row.epoch == vs[c.stop + 1].row.epoch
    && !vs[c.reset + 1].row.latched
    && !vs[c.approve].row.approved && (forall q :: c.approve < q <= j ==> vs[q].row.approved)
  }

  lemma RunningIsRemote(vs: seq<View>, i: nat)
    requires LawfulRun(vs) && i < |vs|
    ensures vs[i].exec.running ==> vs[i].exec.remoteRunning
  {
    if i > 0 {
      RunningIsRemote(vs, i - 1);
      assert StepAt(vs, i - 1);
    }
  }

  lemma {:induction false} ScopeOnward(vs: seq<View>, i: nat, j: nat)
    requires LawfulRun(vs) && i <= j < |vs|
    ensures Ahead(vs[i].row, vs[j].row)
    decreases j
  {
    if i < j {
      ScopeOnward(vs, i, j - 1);
      assert StepAt(vs, j - 1);
    }
  }

  lemma {:induction false} LatchedScope(vs: seq<View>, i: nat, j: nat)
    requires LawfulRun(vs) && i <= j < |vs|
    requires forall q :: i <= q <= j ==> vs[q].row.latched
    ensures vs[i].row.epoch == vs[j].row.epoch && vs[i].row.generation == vs[j].row.generation
    decreases j
  {
    if i < j {
      LatchedScope(vs, i, j - 1);
      assert StepAt(vs, j - 1);
    }
  }

  /** Under a latch nothing starts: what runs at the end ran all along. */
  lemma {:induction false} RanAllAlong(vs: seq<View>, i: nat, j: nat)
    requires LawfulRun(vs) && i <= j < |vs| && vs[j].exec.running
    requires forall q :: i <= q <= j ==> vs[q].row.latched
    ensures forall q :: i <= q <= j ==> vs[q].exec.running
    decreases j - i
  {
    if i < j {
      RanAllAlong(vs, i + 1, j);
      assert StepAt(vs, i);
    }
  }

  lemma {:induction false} StaysEnded(vs: seq<View>, i: nat, j: nat)
    requires LawfulRun(vs) && i <= j < |vs| && !vs[i].exec.remoteRunning
    requires forall q :: i <= q <= j ==> !vs[q].exec.running
    ensures forall q :: i <= q <= j ==> !Executing(vs[q].exec)
    decreases j
  {
    if i < j {
      StaysEnded(vs, i, j - 1);
      assert StepAt(vs, j - 1);
    }
  }

  lemma FindStop(vs: seq<View>, i: nat, j: nat) returns (stop: nat, local: nat)
    requires LawfulRun(vs) && i < j && LaunchAt(vs, i) && LaunchAt(vs, j)
    ensures i < stop < local < j
    ensures !vs[stop].row.latched
    ensures forall q :: stop < q <= local ==> vs[q].row.latched && vs[q].exec.running && Executing(vs[q].exec)
    ensures vs[local].exec.remoteRunning && forall q :: local < q <= j ==> !vs[q].exec.running
  {
    hide Lawful, SeenStopped;
    LaunchFacts(vs, i);
    LaunchFacts(vs, j);
    local := LastRise(vs, (v: View) => !v.exec.running, i + 1, j);
    EndsUnderLatch(vs, local);
    stop := LastRise(vs, (v: View) => v.row.latched, i + 1, local);
    RanAllAlong(vs, stop + 1, local);
    RunningIsRemote(vs, local);
  }

  lemma FindReset(vs: seq<View>, local: nat, j: nat) returns (remote: nat, reset: nat)
    requires LawfulRun(vs) && LaunchAt(vs, j) && local < j
    requires vs[local].row.latched && vs[local].exec.remoteRunning
    requires forall q :: local < q <= j ==> !vs[q].exec.running
    ensures local <= remote < reset < j
    ensures forall q :: local <= q <= remote ==> vs[q].exec.remoteRunning && Executing(vs[q].exec)
    ensures forall q :: remote < q <= j ==> !Executing(vs[q].exec)
    ensures !vs[reset + 1].row.latched && forall q :: local <= q <= reset ==> vs[q].row.latched
  {
    hide Lawful, SeenStopped;
    LaunchFacts(vs, j);
    remote := FirstFall(vs, (v: View) => v.exec.remoteRunning, local, j);
    EndsUnderLatch(vs, remote);
    StaysEnded(vs, remote + 1, j);
    LatchHeld(vs, local, remote);
    reset := FirstFall(vs, (v: View) => v.row.latched, remote, j);
  }

  /** A latch cannot open while anything executes. */
  lemma {:induction false} LatchHeld(vs: seq<View>, i: nat, j: nat)
    requires LawfulRun(vs) && i <= j < |vs| && vs[i].row.latched
    requires forall q :: i <= q <= j ==> Executing(vs[q].exec)
    ensures forall q :: i <= q <= j ==> vs[q].row.latched
    decreases j
  {
    if i < j {
      LatchHeld(vs, i, j - 1);
      assert StepAt(vs, j - 1);
    }
  }

  lemma ResetFacts(vs: seq<View>, r: nat)
    requires LawfulRun(vs) && r + 1 < |vs| && vs[r].row.latched && !vs[r + 1].row.latched
    ensures SeenStopped(vs[r]) && !vs[r + 1].row.approved
  {
    assert StepAt(vs, r);
  }

  lemma StopFacts(vs: seq<View>, n: nat)
    requires LawfulRun(vs) && n + 1 < |vs| && !vs[n].row.latched && vs[n + 1].row.latched
    ensures vs[n + 1].row.epoch == vs[n].row.epoch + 1 && vs[n + 1].row.generation == vs[n].row.generation
  {
    assert StepAt(vs, n);
  }

  lemma SeenFacts(vs: seq<View>, n: nat)
    requires LawfulRun(vs) && n + 1 < |vs| && vs[n + 1].seen.Some? && vs[n].seen != vs[n + 1].seen
    ensures var o := vs[n + 1].seen.value;
            && vs[n].row == vs[n + 1].row
            && o.generation == vs[n + 1].row.generation && o.epoch == vs[n + 1].row.epoch
            && (o.state == VERIFIED_STOPPED ==> !Executing(vs[n].exec))
  {
    assert StepAt(vs, n);
  }

  /** The observation that opened the latch was made after that latch closed. */
  lemma FindSeen(vs: seq<View>, i: nat, stop: nat, reset: nat) returns (seen: nat)
    requires LawfulRun(vs) && LaunchAt(vs, i) && i < stop < reset && reset + 1 < |vs|
    requires !vs[stop].row.latched && !vs[reset + 1].row.latched
    requires forall q :: stop < q <= reset ==> vs[q].row.latched
    ensures stop < seen < reset && !Executing(vs[seen].exec)
    ensures SeenStopped(vs[seen + 1]) && vs[seen + 1].seen != vs[seen].seen
    ensures vs[seen + 1].row.epoch == vs[stop + 1].row.epoch
  {
    hide LawfulRun, Executing, LaunchAt;
    LaunchFacts(vs, i);
    ResetFacts(vs, reset);
    StopFacts(vs, stop);
    var s := vs[reset].seen;
    seen := LastRise(vs, (v: View) => v.seen == s, i + 1, reset);
    SeenFacts(vs, seen);
    LatchedScope(vs, stop + 1, reset);
    if seen < stop { ScopeOnward(vs, seen + 1, stop); }
    LatchedScope(vs, stop + 1, seen + 1);
  }

  /** The approval behind a launch was given after the latch opened. */
  lemma FindApprove(vs: seq<View>, reset: nat, j: nat) returns (approve: nat)
    requires LawfulRun(vs) && reset < j && LaunchAt(vs, j)
    requires vs[reset].row.latched && !vs[reset + 1].row.latched
    ensures reset < approve < j
    ensures !vs[approve].row.approved && forall q :: approve < q <= j ==> vs[q].row.approved
  {
    hide LawfulRun, SeenStopped, Executing, LaunchAt;
    LaunchFacts(vs, j);
    ResetFacts(vs, reset);
    approve := LastRise(vs, (v: View) => v.row.approved, reset + 1, j);
  }

  /** Between any two launches lies a complete stop, verification, reset and approval. */
  lemma LaunchesAreDisciplined(vs: seq<View>, i: nat, j: nat) returns (c: Chain)
    requires LawfulRun(vs) && i < j && LaunchAt(vs, i) && LaunchAt(vs, j)
    ensures Disciplined(vs, i, j, c)
  {
    hide LawfulRun, SeenStopped, Executing, LaunchAt;
    LaunchFacts(vs, j);
    var stop, local := FindStop(vs, i, j);
    var remote, reset := FindReset(vs, local, j);
    var seen := FindSeen(vs, i, stop, reset);
    var approve := FindApprove(vs, reset, j);
    c := Chain(stop, local, remote, seen, reset, approve);
  }

  lemma LaunchFacts(vs: seq<View>, i: nat)
    requires LawfulRun(vs) && LaunchAt(vs, i)
    ensures i + 1 < |vs|
    ensures vs[i].row.approved && !vs[i].row.latched && !Executing(vs[i].exec)
    ensures !vs[i + 1].row.latched && vs[i + 1].exec.running && vs[i + 1].exec.remoteRunning && vs[i + 1].seen.None?
  {
    assert StepAt(vs, i);
  }

  lemma EndsUnderLatch(vs: seq<View>, i: nat)
    requires LawfulRun(vs) && i + 1 < |vs|
    ensures vs[i].exec.running && !vs[i + 1].exec.running ==> vs[i].row.latched && vs[i + 1].row.latched
    ensures vs[i].exec.remoteRunning && !vs[i + 1].exec.remoteRunning ==> vs[i].row.latched && vs[i + 1].row.latched
  {
    assert StepAt(vs, i);
  }
}
