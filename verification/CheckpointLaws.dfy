/** What the checkpoint controller does with a request and with a walk, told from the steps of a run
    (internal/sessionruntime/checkpoint_controller.go). */
module CheckpointLaws {
  import opened CheckpointController
  import opened Options

  // ---------------------------------------------------------------- the queue of required requests

  lemma {:induction false} RemoveDrops(queue: seq<nat>, n: nat, m: nat)
    requires forall i, j :: 0 <= i < j < |queue| ==> queue[i] < queue[j]
    ensures m in Remove(queue, n) <==> m in queue && m != n
  {
    if queue != [] {
      assert queue == [queue[0]] + queue[1..];
      RemoveDrops(queue[1..], n, m);
    }
  }

  /** A withdrawal takes out exactly the request it names, if it is still queued, and its caller has it to
      settle; the others keep their places. */
  lemma WithdrawsItsOwn(states: seq<Controller>, steps: seq<Step>, k: nat, n: nat)
    requires Run(states, steps) && k < |steps| && steps[k] == WithdrawStep(n)
    ensures
      var r, next := states[k].r, states[k + 1].r;
      && (forall m: nat :: m in next.queue <==> m in r.queue && m != n)
      && (forall i, j :: 0 <= i < j < |next.queue| ==> next.queue[i] < next.queue[j])
      && next.settling == r.settling + (if n in r.queue then {n} else {})
      && next.runner == r.runner && next.completed == r.completed && next.finished == r.finished && next.next == r.next
  {
    RunRequired(states, steps, k);
    RunRequired(states, steps, k + 1);
    forall m: nat ensures m in states[k + 1].r.queue <==> m in states[k].r.queue && m != n {
      RemoveDrops(states[k].r.queue, n, m);
    }
  }

  /** A request leaves the queue only by its own withdrawal or by being run, in its turn. */
  lemma LeavesTheQueue(states: seq<Controller>, steps: seq<Step>, k: nat, n: nat)
    requires Run(states, steps) && k < |steps| && n in states[k].r.queue
    ensures n in states[k + 1].r.queue <==>
      steps[k] != WithdrawStep(n) && !(steps[k].TakeStep? && states[k].r.queue[0] == n)
    ensures steps[k].TakeStep? && states[k].r.queue[0] == n ==> states[k + 1].r.runner == Busy(n)
    ensures steps[k] == WithdrawStep(n) ==> n in states[k + 1].r.settling
  {
    RunRequired(states, steps, k);
    var r, s := states[k].r, steps[k];
    match s
    case WithdrawStep(m) => RemoveDrops(r.queue, m, n);
    case TakeStep => assert r.queue == [r.queue[0]] + r.queue[1..];
    case _ =>
  }

  /** Somebody took it off the queue to settle it, or it is recorded. */
  predicate Settles(r: Required, n: nat) { n in r.settling || IsRecorded(r, n) }

  lemma StepSettles(c: Controller, s: Step, n: nat)
    requires RequiredOk(c.r) && Enabled(c, s) && Settles(c.r, n) && n > 0
    ensures Settles(Apply(c, s).r, n)
  {
    StepRecords(c, s, n);
    if s.WithdrawStep? && s.n in c.r.queue { assert n in c.r.settling ==> n in Apply(c, s).r.settling; }
  }

  lemma {:induction false} SettlesForGood(states: seq<Controller>, steps: seq<Step>, j: nat, k: nat, n: nat)
    requires Run(states, steps) && j <= k < |states| && Settles(states[j].r, n) && n > 0
    ensures Settles(states[k].r, n)
    decreases k
  {
    if j < k {
      SettlesForGood(states, steps, j, k - 1, n);
      RunRequired(states, steps, k - 1);
      StepSettles(states[k - 1], steps[k - 1], n);
    }
  }

  /** A request withdrawn in time is never run. */
  lemma WithdrawnIsNeverRun(states: seq<Controller>, steps: seq<Step>, k: nat, j: nat, n: nat)
    requires Run(states, steps) && k < j < |states| && n in states[k].r.queue && steps[k] == WithdrawStep(n)
    ensures states[j].r.runner != Busy(n) && n !in states[j].r.queue
  {
    RunRequired(states, steps, k);
    RunRequired(states, steps, j);
    assert n > 0;
    LeavesTheQueue(states, steps, k, n);
    SettlesForGood(states, steps, k + 1, j, n);
    assert Places(states[j].r, n) <= 1;
  }

  lemma StepSettling(c: Controller, s: Step, n: nat)
    requires Enabled(c, s) && n in Apply(c, s).r.settling && n !in c.r.settling
    ensures s == WithdrawStep(n) && n in c.r.queue
  {
  }

  /** And what a caller has to settle is its own withdrawal. */
  lemma {:induction false} SettlingWasWithdrawn(states: seq<Controller>, steps: seq<Step>, k: nat, n: nat)
      returns (j: nat)
    requires Run(states, steps) && k < |states| && n in states[k].r.settling
    ensures j < k && steps[j] == WithdrawStep(n) && n in states[j].r.queue
  {
    assert k > 0;
    if n in states[k - 1].r.settling {
      j := SettlingWasWithdrawn(states, steps, k - 1, n);
    } else {
      j := k - 1;
      StepSettling(states[j], steps[j], n);
    }
  }

  // ---------------------------------------------------------------- walks

  /** A trigger that came during a walk waits for a walk or a manual operation to end, never for nothing. */
  predicate WaitsForSomebody(k: Workers) { k.pending ==> !k.closed && (k.active || k.manualWaiting > 0) }

  lemma StepWaits(c: Controller, s: Step)
    requires WaitsForSomebody(c.k) && Enabled(c, s)
    ensures WaitsForSomebody(Apply(c, s).k)
  {
  }

  lemma {:induction false} PendingWaitsForSomebody(states: seq<Controller>, steps: seq<Step>, k: nat)
    requires Run(states, steps) && k < |states|
    ensures WaitsForSomebody(states[k].k)
  {
    if k > 0 {
      PendingWaitsForSomebody(states, steps, k - 1);
      StepWaits(states[k - 1], steps[k - 1]);
    }
  }

  /** The step ends the last thing a pending trigger can wait for. */
  predicate LastEnds(k: Workers, s: Step) {
    (s.FinishWalkStep? && k.manualWaiting == 0) || (s.FinishManualStep? && k.manualWaiting == 1 && !k.active)
  }

  /** When a trigger is pending, and what ends that: it is walked as soon as the walk and the manual operations
      it met are over, unless progress or a shutdown drops it before. */
  lemma PendingIs(states: seq<Controller>, steps: seq<Step>, k: nat)
    requires Run(states, steps) && k < |steps|
    ensures
      var w, next, s := states[k].k, states[k + 1].k, steps[k];
      && (next.pending <==>
        || (w.pending && !LastEnds(w, s) && !s.ActivatedStep? && !s.ShutdownStep?)
        || (s.RejoinStep? && !w.closed && (w.active || w.manualWaiting > 0)))
      && (w.pending && LastEnds(w, s) ==> next.active && next.count == w.count + 1)
  {
    PendingWaitsForSomebody(states, steps, k);
  }

  /** When a walk is active: one at a time, begun by a boundary that meets none, by a boundary that comes back
      to find nobody at work, or for a pending trigger; never after a shutdown. */
  lemma ActiveIs(states: seq<Controller>, steps: seq<Step>, k: nat)
    requires Run(states, steps) && k < |steps|
    ensures
      var w, next, s := states[k].k, states[k + 1].k, steps[k];
      next.active <==>
        || (w.active && !s.FinishWalkStep?)
        || (!w.closed && (s.BoundaryStep? || (s.RejoinStep? && w.manualWaiting == 0)))
        || (w.pending && LastEnds(w, s))
  {
    PendingWaitsForSomebody(states, steps, k);
  }

  /** Manual operations under way: those begun before a shutdown, less those finished. */
  ghost function Manuals(states: seq<Controller>, steps: seq<Step>, k: nat): int
    requires Run(states, steps) && k < |states|
  {
    if k == 0 then 0
    else
      Manuals(states, steps, k - 1) +
      if steps[k - 1].ManualStep? &&
        !states[k - 1].k.closed then 1 else if steps[k - 1].FinishManualStep? then -1 else 0
  }

  lemma {:induction false} ManualsAre(states: seq<Controller>, steps: seq<Step>, k: nat)
    requires Run(states, steps) && k < |states|
    ensures states[k].k.manualWaiting == Manuals(states, steps, k)
    ensures states[k].k.closed <==> exists j :: 0 <= j < k && steps[j].ShutdownStep?
  {
    if k > 0 {
      ManualsAre(states, steps, k - 1);
      ManualStepIs(states[k - 1], steps[k - 1]);
    }
  }

  lemma ManualStepIs(c: Controller, s: Step)
    requires Enabled(c, s)
    ensures Apply(c, s).k.manualWaiting ==
      c.k.manualWaiting + if s.ManualStep? && !c.k.closed then 1 else if s.FinishManualStep? then -1 else 0
    ensures Apply(c, s).k.closed <==> c.k.closed || s.ShutdownStep?
  {
  }
}
