/** The loop actor together with its compaction slot (internal/loopruntime: loop.go and
    compaction_control.go). The actor alone treats the slot as an environment; here the flag it consults
    is the slot's own pending attempt, and the two machines run as one. */
module OccupiedLoop {
  import A = AcceptedInput
  import S = CompactionSlot

  datatype Loop = Loop(a: A.Actor, s: S.Slot)

  function Init(gated: bool, capacity: nat): Loop { Loop(A.Init(gated), S.Init(capacity)) }

  predicate Occupied(g: Loop) { g.s.c.pending.Some? }

  /** The arms of the actor that leave the slot alone, those that reach both, and those of the slot. */
  datatype Step =
    | LoopStep(t: A.Step)
    | InterruptStep
    | ShutdownStep(delivered: nat)
    | CompactStep(w: S.Waiter, freshId: nat, refused: bool)
    | FreezeStep(basis: S.Basis)
    | BoundaryStep(delivered: nat, startOk: bool)
    | ConcludeStep(committed: bool, appended: bool, delivered: nat, abort: bool, startOk: bool)
    | AbortStep(resumes: bool, startOk: bool)

  predicate Enabled(g: Loop, u: Step) {
    && g.a.exit.Open?
    && match u
       case LoopStep(t) =>
         A.Enabled(g.a, t) && !t.InterruptStep? && !t.ShutdownStep? && !t.BlockStep? && !t.UnblockStep?
       case CompactStep(w, freshId, refused) => S.Enabled(g.s, S.AdmitStep(w, freshId, refused))
       case ConcludeStep(committed, appended, delivered, abort, _) =>
         S.Enabled(g.s, S.FinalizeStep(committed, appended, delivered, abort))
       case _ => true
  }

  /** What the actor makes of a change of the slot: a slot that was cleared is resumed from, or not. */
  function Follow(g: Loop, s: S.Slot, resumes: bool, startOk: bool): A.Actor {
    if Occupied(g) && s.c.pending.None? then A.Apply(g.a, A.UnblockStep(resumes, startOk))
    else if !Occupied(g) && s.c.pending.Some? then A.Apply(g.a, A.BlockStep)
    else g.a
  }

  function Moved(g: Loop, s: S.Slot, resumes: bool, startOk: bool): Loop { Loop(Follow(g, s, resumes, startOk), s) }

  /** Whether everything a conclusion appends was appended. */
  predicate Concluded(s: S.Slot, committed: bool, appended: bool, delivered: nat)
    requires s.c.pending.Some?
  {
    var verdict := committed && !s.c.shuttingDown && !s.c.interrupting;
    S.Finalize(s.f, s.c.pending.value, verdict, appended, delivered).1
  }

  /** A shutdown that leaves reaches the boundary on its way out. */
  function ShutSlot(g: Loop, delivered: nat): S.Slot {
    var s := S.Apply(g.s, S.ShutdownStep);
    if g.a.status.Idle? || g.a.status.Waiting? then S.Apply(s, S.BoundaryStep(delivered)) else s
  }

  function Apply(g: Loop, u: Step): Loop
    requires Enabled(g, u)
  {
    match u
    case LoopStep(t) => g.(a := A.Apply(g.a, t))
    case InterruptStep => Loop(A.Apply(g.a, A.InterruptStep), S.Apply(g.s, S.InterruptStep))
    case ShutdownStep(delivered) =>
      var s := ShutSlot(g, delivered);
      Loop(A.Apply(Follow(g, s, false, false), A.ShutdownStep), s)
    case CompactStep(w, freshId, refused) => Moved(g, S.Apply(g.s, S.AdmitStep(w, freshId, refused)), false, false)
    case FreezeStep(basis) => Moved(g, S.Apply(g.s, S.FreezeStep(basis)), false, false)
    case BoundaryStep(delivered, startOk) =>
      // A rejection whose outcomes could not be published does not resume the inbox.
      var told := Occupied(g) && delivered >= |g.s.c.pending.value.waiters|;
      Moved(g, S.Apply(g.s, S.BoundaryStep(delivered)), told, startOk)
    case ConcludeStep(committed, appended, delivered, abort, startOk) =>
      var s := S.Apply(g.s, S.FinalizeStep(committed, appended, delivered, abort));
      Moved(g, s, Concluded(g.s, committed, appended, delivered), startOk)
    case AbortStep(resumes, startOk) => Moved(g, S.Apply(g.s, S.AbortStep), resumes, startOk)
  }

  ghost predicate Run(states: seq<Loop>, steps: seq<Step>) {
    && |states| == |steps| + 1 && states[0] == Init(states[0].a.env.gated, states[0].s.c.capacity)
    && states[0].s.c.capacity > 0
    && forall i :: 0 <= i < |steps| ==> Enabled(states[i], steps[i]) && states[i + 1] == Apply(states[i], steps[i])
  }

  // ---------------------------------------------------------------- the two machines stay together

  ghost predicate Inv(g: Loop) { A.Inv(g.a) && S.Inv(g.s) && g.a.env.blocked == Occupied(g) }

  lemma FollowKeeps(g: Loop, s: S.Slot, resumes: bool, startOk: bool)
    requires A.Inv(g.a) && g.a.exit.Open? && g.a.env.blocked == Occupied(g)
    ensures var b := Follow(g, s, resumes, startOk); A.Inv(b) && b.env.blocked == s.c.pending.Some?
  {
    if Occupied(g) && s.c.pending.None? {
      A.StepKeeps(g.a, A.UnblockStep(resumes, startOk));
      A.StepBlocked(g.a, A.UnblockStep(resumes, startOk));
    } else if !Occupied(g) && s.c.pending.Some? {
      A.StepKeeps(g.a, A.BlockStep);
    }
  }

  lemma ActorKeeps(a: A.Actor, t: A.Step)
    requires A.Inv(a) && A.Enabled(a, t) && !t.BlockStep? && !t.UnblockStep?
    ensures A.Inv(A.Apply(a, t)) && A.Apply(a, t).env.blocked == a.env.blocked
  {
    A.StepKeeps(a, t);
    A.StepBlocked(a, t);
  }

  lemma UnblockGoesOn(g: Loop, s: S.Slot)
    requires g.a.exit.Open?
    ensures Follow(g, s, false, false).exit.Open? && Follow(g, s, false, false).status == g.a.status
  {
  }

  lemma ShutKeeps(g: Loop, delivered: nat)
    requires Inv(g) && g.a.exit.Open?
    ensures Inv(Apply(g, ShutdownStep(delivered)))
  {
    var s := ShutSlot(g, delivered);
    S.StepKeeps(g.s, S.ShutdownStep);
    S.StepKeeps(S.Apply(g.s, S.ShutdownStep), S.BoundaryStep(delivered));
    FollowKeeps(g, s, false, false);
    UnblockGoesOn(g, s);
    ActorKeeps(Follow(g, s, false, false), A.ShutdownStep);
  }

  lemma MovedKeeps(g: Loop, t: S.Step, resumes: bool, startOk: bool)
    requires Inv(g) && g.a.exit.Open? && S.Enabled(g.s, t)
    ensures Inv(Moved(g, S.Apply(g.s, t), resumes, startOk))
  {
    S.StepKeeps(g.s, t);
    FollowKeeps(g, S.Apply(g.s, t), resumes, startOk);
  }

  lemma InterruptKeeps(g: Loop)
    requires Inv(g) && g.a.exit.Open?
    ensures Inv(Apply(g, InterruptStep))
  {
    ActorKeeps(g.a, A.InterruptStep);
    S.StepKeeps(g.s, S.InterruptStep);
  }

  lemma StepKeeps(g: Loop, u: Step)
    requires Inv(g) && Enabled(g, u)
    ensures Inv(Apply(g, u))
  {
    match u
    case LoopStep(t) => ActorKeeps(g.a, t);
    case InterruptStep => InterruptKeeps(g);
    case ShutdownStep(delivered) => ShutKeeps(g, delivered);
    case CompactStep(w, freshId, refused) => MovedKeeps(g, S.AdmitStep(w, freshId, refused), false, false);
    case FreezeStep(basis) => MovedKeeps(g, S.FreezeStep(basis), false, false);
    case BoundaryStep(delivered, startOk) =>
      MovedKeeps(g, S.BoundaryStep(delivered), Occupied(g) && delivered >= |g.s.c.pending.value.waiters|, startOk);
    case ConcludeStep(committed, appended, delivered, abort, startOk) =>
      MovedKeeps(g, S.FinalizeStep(committed, appended, delivered, abort),
                 Concluded(g.s, committed, appended, delivered), startOk);
    case AbortStep(resumes, startOk) => MovedKeeps(g, S.AbortStep, resumes, startOk);
  }

  /** Over every run of the two machines together, inputs and waiters are each accounted for, and the
      actor holds its inbox exactly while an attempt is pending. */
  lemma {:induction false} RunKeeps(states: seq<Loop>, steps: seq<Step>, k: nat)
    requires Run(states, steps) && k < |states|
    ensures Inv(states[k])
  {
    if k == 0 {
      InitKeeps(states[0].a.env.gated, states[0].s.c.capacity);
    } else {
      RunKeeps(states, steps, k - 1);
      StepKeeps(states[k - 1], steps[k - 1]);
    }
  }

  lemma InitKeeps(gated: bool, capacity: nat)
    requires capacity > 0
    ensures Inv(Init(gated, capacity))
  {
    A.RunKeeps([A.Init(gated)], [], 0);
    S.RunKeeps([S.Init(capacity)], [], 0);
  }

  // ---------------------------------------------------------------- while an attempt is pending

  /** What a step of an occupied loop leaves as it was. */
  ghost predicate Held(a: A.Actor, b: A.Actor) {
    (forall e :: e in b.q.draining ==> e in a.q.draining) && (b.status.Waiting? ==> a.status.Waiting?)
  }

  /** The step of the actor that a step of both takes, if it takes one. */
  function ActorStep(u: Step): A.Step {
    match u
    case LoopStep(t) => t
    case InterruptStep => A.InterruptStep
    case _ => A.ShutdownStep
  }

  predicate HasActorStep(u: Step) { u.LoopStep? || u.InterruptStep? || u.ShutdownStep? }

  /** As long as the slot stays occupied, the actor takes its own step or none. */
  lemma OccupiedStep(g: Loop, u: Step)
    requires Enabled(g, u) && Occupied(g) && Occupied(Apply(g, u))
    ensures HasActorStep(u) ==> A.Enabled(g.a, ActorStep(u)) && Apply(g, u).a == A.Apply(g.a, ActorStep(u))
    ensures !HasActorStep(u) ==> Apply(g, u).a == g.a
  {
  }

  lemma OccupiedHolds(g: Loop, u: Step)
    requires Inv(g) && Enabled(g, u) && Occupied(g) && Occupied(Apply(g, u))
    ensures Held(g.a, Apply(g, u).a)
  {
    OccupiedStep(g, u);
    StepKeeps(g, u);
    if HasActorStep(u) { A.BlockedHolds(g.a, ActorStep(u)); }
  }

  lemma OccupiedStarts(g: Loop, u: Step)
    requires Inv(g) && Enabled(g, u) && Occupied(g) && Occupied(Apply(g, u))
    ensures A.Starts(g.a.q, Apply(g, u).a.q) <==> u.LoopStep? && A.AdmitsFront(g.a, u.t)
  {
    OccupiedStep(g, u);
    if HasActorStep(u) { A.BlockedStarts(g.a, ActorStep(u)); }
  }

  /** The step that opens an attempt changes nothing else in the loop. */
  lemma OpeningHolds(g: Loop, u: Step)
    requires Inv(g) && Enabled(g, u) && !Occupied(g) && Occupied(Apply(g, u))
    ensures u.CompactStep? && Apply(g, u).a.q == g.a.q && Apply(g, u).a.status == g.a.status
  {
  }

  /** An attempt was opened by step j and the slot has been occupied up to k. */
  ghost predicate OccupiedSince(states: seq<Loop>, j: nat, k: nat) {
    j < k < |states| && !Occupied(states[j]) && forall m :: j < m <= k ==> Occupied(states[m])
  }

  lemma RunHolds(states: seq<Loop>, steps: seq<Step>, k: nat)
    requires Run(states, steps) && k < |steps| && Occupied(states[k + 1])
    ensures Held(states[k].a, states[k + 1].a)
  {
    RunKeeps(states, steps, k);
    if Occupied(states[k]) { OccupiedHolds(states[k], steps[k]); } else { OpeningHolds(states[k], steps[k]); }
  }

  ghost predicate HeldAt(states: seq<Loop>, m: nat) { m + 1 < |states| && Held(states[m].a, states[m + 1].a) }

  lemma {:induction false} HeldThrough(states: seq<Loop>, j: nat, k: nat)
    requires j <= k < |states| && forall m :: j <= m < k ==> HeldAt(states, m)
    ensures Held(states[j].a, states[k].a)
  {
    if j < k {
      HeldThrough(states, j, k - 1);
      assert HeldAt(states, k - 1);
    }
  }

  lemma RunHeld(states: seq<Loop>, steps: seq<Step>, j: nat, k: nat)
    requires Run(states, steps) && OccupiedSince(states, j, k)
    ensures forall m :: j <= m < k ==> HeldAt(states, m)
  {
    forall m | j <= m < k ensures HeldAt(states, m) {
      assert Occupied(states[m + 1]);
      RunHolds(states, steps, m);
    }
  }

  /** From the opening of an attempt on nothing new starts draining and no new admission is asked for. */
  lemma OccupiedFreezes(states: seq<Loop>, steps: seq<Step>, j: nat, k: nat)
    requires Run(states, steps) && OccupiedSince(states, j, k)
    ensures Held(states[j].a, states[k].a)
  {
    RunHeld(states, steps, j, k);
    HeldThrough(states, j, k);
  }

  /** What folds while an attempt is pending was draining before the attempt was opened. */
  lemma OccupiedFolds(states: seq<Loop>, steps: seq<Step>, j: nat, k: nat)
    requires Run(states, steps) && OccupiedSince(states, j, k) && k < |steps|
    requires steps[k].LoopStep? && steps[k].t.FoldStep?
    ensures steps[k].t.id in A.Names(states[j].a.q.draining)
  {
    RunKeeps(states, steps, k);
    OccupiedFreezes(states, steps, j, k);
    var before, now, id := states[j].a.q.draining, states[k].a.q.draining, steps[k].t.id;
    var i :| 0 <= i < |now| && A.Names(now)[i] == id;
    assert now[i] in before;
    var n :| 0 <= n < |before| && before[n] == now[i];
    assert A.Names(before)[n] == id;
  }

  lemma RunStarts(states: seq<Loop>, steps: seq<Step>, k: nat)
    requires Run(states, steps) && k < |steps| && Occupied(states[k]) && Occupied(states[k + 1])
    ensures A.Starts(states[k].a.q, states[k + 1].a.q) <==> steps[k].LoopStep? && A.AdmitsFront(states[k].a, steps[k].t)
  {
    RunKeeps(states, steps, k);
    OccupiedStarts(states[k], steps[k]);
  }

  lemma RunOpens(states: seq<Loop>, steps: seq<Step>, k: nat)
    requires Run(states, steps) && k < |steps| && !Occupied(states[k]) && Occupied(states[k + 1])
    ensures states[k + 1].a.q == states[k].a.q && states[k + 1].a.status == states[k].a.status
  {
    RunKeeps(states, steps, k);
    OpeningHolds(states[k], steps[k]);
  }

  /** "No queued message may start until the slot is cleared" holds of a step of an occupied loop if and
      only if the step is not the arrival of an admission that was asked for before the attempt was opened
      and is still awaited. */
  lemma StartsWhileOccupied(states: seq<Loop>, steps: seq<Step>, j: nat, k: nat)
    requires Run(states, steps) && k < |steps| && OccupiedSince(states, j, k + 1) && j < k
    ensures A.Starts(states[k].a.q, states[k + 1].a.q) <==> steps[k].LoopStep? && A.AdmitsFront(states[k].a, steps[k].t)
    ensures A.Starts(states[k].a.q, states[k + 1].a.q) ==> forall m :: j <= m <= k ==> states[m].a.status.Waiting?
  {
    RunStarts(states, steps, k);
    if A.Starts(states[k].a.q, states[k + 1].a.q) { WaitingSince(states, steps, j, k); }
  }

  lemma WaitingSince(states: seq<Loop>, steps: seq<Step>, j: nat, k: nat)
    requires Run(states, steps) && OccupiedSince(states, j, k) && states[k].a.status.Waiting?
    ensures forall m :: j <= m <= k ==> states[m].a.status.Waiting?
  {
    RunHeld(states, steps, j, k);
    forall m | j <= m <= k ensures states[m].a.status.Waiting? {
      HeldThrough(states, m, k);
    }
  }

  /** A loop that does not wait for admission when an attempt is opened starts nothing until the slot is
      cleared. */
  lemma NothingStartsUnlessWaiting(states: seq<Loop>, steps: seq<Step>, j: nat, k: nat)
    requires Run(states, steps) && k < |steps| && OccupiedSince(states, j, k + 1)
    requires !states[j].a.status.Waiting?
    ensures !A.Starts(states[k].a.q, states[k + 1].a.q)
  {
    assert Occupied(states[k + 1]);
    if k == j { RunOpens(states, steps, j); } else { StartsWhileOccupied(states, steps, j, k); }
  }

  /** And one that waits starts the front of its inbox as soon as the admission comes. */
  lemma WaitingCanStart(g: Loop)
    requires Inv(g) && g.a.exit.Open? && Occupied(g) && g.a.status.Waiting? && g.a.q.inbox != []
    ensures
      var u := LoopStep(A.AdmissionStep(true, true, true));
      Enabled(g, u) && Occupied(Apply(g, u)) && A.Starts(g.a.q, Apply(g, u).a.q)
  {
    OccupiedStarts(g, LoopStep(A.AdmissionStep(true, true, true)));
  }

  const EARLY := A.Entry(1, 0, true, false, false, false)

  const EARLY_STEPS := [LoopStep(A.SubmitStep(EARLY, false, false, false, true, true)),
                        CompactStep(S.Waiter(1, 1), 1, false),
                        LoopStep(A.AdmissionStep(true, true, true))]

  lemma EarlyAsks()
    ensures
      var g := Apply(Init(true, 64), EARLY_STEPS[0]);
      g.a.status.Waiting? && g.a.q.inbox != [] && g.a.exit.Open? && g.s == S.Init(64) && g.a.q.answers == []
  {
  }

  lemma EarlyOpens(g: Loop)
    requires g.a.exit.Open? && g.s == S.Init(64)
    ensures
      var h := Apply(g, EARLY_STEPS[1]);
      Occupied(h) && h.a.q == g.a.q && h.a.status == g.a.status && h.a.exit.Open?
  {
  }

  lemma EarlyStarts(h: Loop)
    requires h.a.exit.Open? && h.a.status.Waiting? && h.a.q.inbox != [] && Occupied(h)
    ensures
      var k := Apply(h, EARLY_STEPS[2]); Occupied(k) && k.a.status.Running? && A.Starts(h.a.q, k.a.q)
  {
    assert Apply(h, EARLY_STEPS[2]).a.q.answers[|h.a.q.answers|].kind.Started?;
  }

  /** The run that shows it: an input asks for admission, a compaction is opened, and the input starts
      while the attempt is pending. */
  lemma StartsDespiteCompaction() returns (states: seq<Loop>)
    ensures Run(states, EARLY_STEPS) && OccupiedSince(states, 1, 3)
    ensures states[3].a.status.Running? && A.Starts(states[2].a.q, states[3].a.q)
  {
    EarlyAsks();
    var g1 := Apply(Init(true, 64), EARLY_STEPS[0]);
    EarlyOpens(g1);
    var g2 := Apply(g1, EARLY_STEPS[1]);
    EarlyStarts(g2);
    states := [Init(true, 64), g1, g2, Apply(g2, EARLY_STEPS[2])];
  }

  // ---------------------------------------------------------------- when the slot is free again

  /** Everything that had to be published about the attempt was. */
  predicate AllTold(g: Loop, u: Step)
    requires Occupied(g)
  {
    var p := g.s.c.pending.value;
    match u
    case BoundaryStep(delivered, _) => delivered >= |p.waiters|
    case ConcludeStep(_, appended, delivered, _, _) =>
      p.attempt in g.s.f.records || (appended && delivered >= |p.waiters|)
    case AbortStep(resumes, _) => resumes
    case _ => false
  }

  lemma FollowResumes(g: Loop, s: S.Slot, resumes: bool, startOk: bool)
    requires Occupied(g) && s.c.pending.None? && g.a.status.Idle? && g.a.q.inbox != []
    ensures
      var b := Follow(g, s, resumes, startOk);
      (b.status.Idle? && b.q == g.a.q) <==> !resumes
  {
  }

  /** An idle loop with queued input goes on with it when the slot is freed, other than by a shutdown, if and
      only if everything about the attempt was published; otherwise the input stays queued and the loop idle. */
  lemma ResumesIff(states: seq<Loop>, steps: seq<Step>, k: nat)
    requires Run(states, steps) && k < |steps| && Occupied(states[k]) && !Occupied(states[k + 1])
    requires !steps[k].ShutdownStep? && states[k].a.status.Idle? && states[k].a.q.inbox != []
    ensures
      var a, b := states[k].a, states[k + 1].a;
      AllTold(states[k], steps[k]) <==> !(b.status.Idle? && b.q == a.q)
  {
    var g, u := states[k], steps[k];
    match u
    case BoundaryStep(delivered, startOk) =>
      FollowResumes(g, S.Apply(g.s, S.BoundaryStep(delivered)), delivered >= |g.s.c.pending.value.waiters|, startOk);
    case ConcludeStep(committed, appended, delivered, abort, startOk) =>
      FollowResumes(g, S.Apply(g.s, S.FinalizeStep(committed, appended, delivered, abort)),
                    Concluded(g.s, committed, appended, delivered), startOk);
    case AbortStep(resumes, startOk) => FollowResumes(g, S.Apply(g.s, S.AbortStep), resumes, startOk);
    case _ =>
  }

  /** A shutdown that finds no turn running ends an attempt that has not started: the slot is free, there is
      no terminal, and each waiter told is told of a rejection. One in progress is left to its outcome. */
  lemma ShutdownEndsAttempt(states: seq<Loop>, steps: seq<Step>, k: nat)
    requires Run(states, steps) && k < |steps| && steps[k].ShutdownStep? && Occupied(states[k])
    requires states[k].a.status.Idle? || states[k].a.status.Waiting?
    ensures
      var s, t, p := states[k].s, states[k + 1].s, states[k].s.c.pending.value;
      && t.c.shuttingDown && t.f.records == s.f.records && t.f.log.terminals == s.f.log.terminals
      && (p.inProgress ==> t.c.pending == s.c.pending && t.f == s.f)
      && (!p.inProgress ==> t.c.pending.None? && s.f.log.outcomes <= t.f.log.outcomes)
      && (!p.inProgress && steps[k].delivered >= |p.waiters| ==>
        && |t.f.log.outcomes| == |s.f.log.outcomes| + |p.waiters|
        && forall i :: 0 <= i < |p.waiters| ==>
          t.f.log.outcomes[|s.f.log.outcomes| + i] == S.Outcome(p.attempt, p.waiters[i].id, false))
  {
  }
}
