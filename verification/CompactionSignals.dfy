/** What decides the fate of a compaction attempt (internal/loopruntime: compaction_control.go and the
    compaction arms of loop.go), told from the steps of a run: which commands wait for it, when it starts,
    when it is rejected instead, and what its terminal says. */
module CompactionSignals {
  import opened CompactionSlot
  import opened Options

  // ---------------------------------------------------------------- the signals, from the steps

  predicate PendingAt(s: Slot, attempt: nat) { s.c.pending.Some? && s.c.pending.value.attempt == attempt }

  /** An interrupt came while the attempt was pending. */
  ghost predicate Interrupted(states: seq<Slot>, steps: seq<Step>, k: nat, attempt: nat)
    requires k <= |steps| && |states| == |steps| + 1
  {
    exists j :: 0 <= j < k && steps[j].InterruptStep? && PendingAt(states[j], attempt)
  }

  ghost predicate ShutDown(steps: seq<Step>, k: nat)
    requires k <= |steps|
  {
    exists j :: 0 <= j < k && steps[j].ShutdownStep?
  }

  ghost predicate Signalled(states: seq<Slot>, steps: seq<Step>, k: nat, attempt: nat)
    requires k <= |steps| && |states| == |steps| + 1
  {
    Interrupted(states, steps, k, attempt) || ShutDown(steps, k)
  }

  // ---------------------------------------------------------------- the flags are the signals

  lemma StepUsed(s: Slot, t: Step)
    requires Enabled(s, t)
    ensures s.used <= Apply(s, t).used
    ensures forall a :: PendingAt(Apply(s, t), a) ==> PendingAt(s, a) || (a !in s.used && s.c.pending.None?)
  {
    match t
    case AdmitStep(w, freshId, refused) =>
    case FreezeStep(basis) =>
    case BoundaryStep(delivered) =>
    case FinalizeStep(committed, appended, delivered, abort) =>
    case _ =>
  }

  lemma {:induction false} UsedGrows(states: seq<Slot>, steps: seq<Step>, j: nat, k: nat)
    requires Run(states, steps) && j <= k < |states|
    ensures states[j].used <= states[k].used
    decreases k
  {
    if j < k {
      UsedGrows(states, steps, j, k - 1);
      StepUsed(states[k - 1], steps[k - 1]);
    }
  }

  lemma PendingUsed(states: seq<Slot>, steps: seq<Step>, j: nat, k: nat, attempt: nat)
    requires Run(states, steps) && j <= k < |states| && PendingAt(states[j], attempt)
    ensures attempt in states[k].used
  {
    RunKeeps(states, steps, j);
    UsedGrows(states, steps, j, k);
  }

  /** What a step does to the two flags. */
  lemma StepFlags(s: Slot, t: Step)
    requires Enabled(s, t) && (s.c.pending.None? ==> !s.c.interrupting)
    ensures
      var u := Apply(s, t);
      && (u.c.shuttingDown <==> s.c.shuttingDown || t.ShutdownStep?)
      && (u.c.pending.None? ==> !u.c.interrupting)
      && (u.c.pending.Some? ==> (u.c.interrupting <==> s.c.pending.Some? && (s.c.interrupting || t.InterruptStep?)))
  {
    match t
    case AdmitStep(w, freshId, refused) =>
    case FreezeStep(basis) =>
    case BoundaryStep(delivered) =>
    case FinalizeStep(committed, appended, delivered, abort) =>
    case _ =>
  }

  ghost predicate FlagsAre(states: seq<Slot>, steps: seq<Step>, k: nat)
    requires k <= |steps| && |states| == |steps| + 1
  {
    var c := states[k].c;
    && (c.shuttingDown <==> ShutDown(steps, k)) && (c.pending.None? ==> !c.interrupting)
    && (c.pending.Some? ==> (c.interrupting <==> Interrupted(states, steps, k, c.pending.value.attempt)))
  }

  lemma ShutDownGrows(steps: seq<Step>, k: nat)
    requires k < |steps|
    ensures ShutDown(steps, k + 1) <==> ShutDown(steps, k) || steps[k].ShutdownStep?
  {
    if j :| 0 <= j < k + 1 && steps[j].ShutdownStep? { assert j < k || j == k; }
    if steps[k].ShutdownStep? { assert steps[k].ShutdownStep?; }
  }

  lemma InterruptedGrows(states: seq<Slot>, steps: seq<Step>, k: nat, attempt: nat)
    requires k < |steps| && |states| == |steps| + 1
    ensures Interrupted(states, steps, k + 1, attempt) <==>
      Interrupted(states, steps, k, attempt) || (steps[k].InterruptStep? && PendingAt(states[k], attempt))
  {
  }

  lemma NeverBefore(states: seq<Slot>, steps: seq<Step>, k: nat, attempt: nat)
    requires Run(states, steps) && k < |steps| && attempt !in states[k].used
    ensures !Interrupted(states, steps, k, attempt)
  {
    if j :| 0 <= j < k && steps[j].InterruptStep? && PendingAt(states[j], attempt) {
      PendingUsed(states, steps, j, k, attempt);
    }
  }

  lemma FlagsGrow(states: seq<Slot>, steps: seq<Step>, k: nat)
    requires Run(states, steps) && k < |steps| && FlagsAre(states, steps, k)
    ensures FlagsAre(states, steps, k + 1)
  {
    StepFlags(states[k], steps[k]);
    StepUsed(states[k], steps[k]);
    ShutDownGrows(steps, k);
    if states[k + 1].c.pending.Some? {
      var attempt := states[k + 1].c.pending.value.attempt;
      assert PendingAt(states[k + 1], attempt);
      InterruptedGrows(states, steps, k, attempt);
      if states[k].c.pending.None? { NeverBefore(states, steps, k, attempt); }
    }
  }

  lemma {:induction false} FlagsAreSignals(states: seq<Slot>, steps: seq<Step>, k: nat)
    requires Run(states, steps) && k < |states|
    ensures FlagsAre(states, steps, k)
  {
    if k > 0 {
      FlagsAreSignals(states, steps, k - 1);
      FlagsGrow(states, steps, k - 1);
    }
  }

  // ---------------------------------------------------------------- the boundary

  /** The waiters told by a rejection: in order, as many as could be appended, each that it was rejected. */
  ghost predicate ToldRejected(before: Log, after: Log, p: Pending, delivered: nat) {
    var n := if delivered < |p.waiters| then delivered else |p.waiters|;
    && after.terminals == before.terminals && after.refusals == before.refusals
    && |after.outcomes| == |before.outcomes| + n && before.outcomes <= after.outcomes
    && forall i :: 0 <= i < n ==>
      after.outcomes[|before.outcomes| + i] == Outcome(p.attempt, p.waiters[i].id, false)
  }

  /** At the next safe boundary a pending attempt is started if and only if no interrupt came while it was
      pending and the loop is not shutting down; otherwise it is rejected, the slot is free again and every
      waiter is told of the rejection. At any other boundary nothing happens. */
  lemma BoundaryObeysSignals(states: seq<Slot>, steps: seq<Step>, k: nat)
    requires Run(states, steps) && k < |steps| && steps[k].BoundaryStep?
    ensures
      var s, u := states[k], states[k + 1];
      if s.c.pending.None? || s.c.pending.value.inProgress then u == s
      else
        var p := s.c.pending.value;
        if Signalled(states, steps, k, p.attempt)
        then u.c.pending.None? && u.f.records == s.f.records && ToldRejected(s.f.log, u.f.log, p, steps[k].delivered)
        else u.c.pending == Some(p.(inProgress := true)) && u.f == s.f
  {
    FlagsAreSignals(states, steps, k);
  }

  // ---------------------------------------------------------------- what follows from a rejection

  lemma {:induction false} NeverAgain(states: seq<Slot>, steps: seq<Step>, k: nat, n: nat, attempt: nat)
    requires Run(states, steps) && k <= n < |states| && attempt in states[k].used && !PendingAt(states[k], attempt)
    ensures !PendingAt(states[n], attempt)
    decreases n
  {
    if k < n {
      NeverAgain(states, steps, k, n - 1, attempt);
      UsedGrows(states, steps, k, n - 1);
      StepUsed(states[n - 1], steps[n - 1]);
    }
  }

  lemma StepProgress(s: Slot, t: Step)
    requires Enabled(s, t) && s.c.pending.Some? && s.c.pending.value.inProgress
    ensures PendingAt(Apply(s, t), s.c.pending.value.attempt) ==> Apply(s, t).c.pending.value.inProgress
  {
    match t
    case AdmitStep(w, freshId, refused) =>
    case FreezeStep(basis) =>
    case BoundaryStep(delivered) =>
    case FinalizeStep(committed, appended, delivered, abort) =>
    case _ =>
  }

  ghost predicate InProgress(s: Slot, attempt: nat) { PendingAt(s, attempt) && s.c.pending.value.inProgress }

  lemma {:induction false} ProgressStays(states: seq<Slot>, steps: seq<Step>, j: nat, k: nat, attempt: nat)
    requires Run(states, steps) && j <= k < |states| && InProgress(states[j], attempt) && PendingAt(states[k], attempt)
    ensures InProgress(states[k], attempt)
    decreases k
  {
    if j < k {
      if !PendingAt(states[k - 1], attempt) {
        PendingUsed(states, steps, j, k - 1, attempt);
        NeverAgain(states, steps, k - 1, k, attempt);
      } else {
        ProgressStays(states, steps, j, k - 1, attempt);
        StepProgress(states[k - 1], steps[k - 1]);
      }
    }
  }

  /** What a step appends about an attempt that is not pending: nothing. */
  lemma StepSilent(s: Slot, t: Step, attempt: nat)
    requires Enabled(s, t) && !PendingAt(s, attempt)
    ensures attempt in Apply(s, t).f.records <==> attempt in s.f.records
    ensures s.f.log.outcomes <= Apply(s, t).f.log.outcomes
    ensures forall i :: |s.f.log.outcomes| <= i < |Apply(s, t).f.log.outcomes| ==>
      Apply(s, t).f.log.outcomes[i].attempt != attempt
  {
    match t
    case AdmitStep(w, freshId, refused) =>
    case FreezeStep(basis) =>
    case BoundaryStep(delivered) =>
    case FinalizeStep(committed, appended, delivered, abort) =>
    case _ =>
  }

  ghost predicate SilentSince(s: Slot, u: Slot, attempt: nat) {
    && (attempt in u.f.records <==> attempt in s.f.records) && s.f.log.outcomes <= u.f.log.outcomes
    && forall i :: |s.f.log.outcomes| <= i < |u.f.log.outcomes| ==> u.f.log.outcomes[i].attempt != attempt
  }

  lemma {:induction false} SilentAfter(states: seq<Slot>, steps: seq<Step>, k: nat, n: nat, attempt: nat)
    requires Run(states, steps) && k <= n < |states| && attempt in states[k].used && !PendingAt(states[k], attempt)
    ensures SilentSince(states[k], states[n], attempt)
    decreases n
  {
    if k < n {
      SilentAfter(states, steps, k, n - 1, attempt);
      NeverAgain(states, steps, k, n - 1, attempt);
      StepSilent(states[n - 1], steps[n - 1], attempt);
    }
  }

  /** A signal outranks starting for good: an attempt signalled before its boundary is never in progress,
      before or after, gets no terminal from then on, and whatever its waiters are told is a rejection. */
  lemma SignalOutranksStart(states: seq<Slot>, steps: seq<Step>, k: nat, n: nat, attempt: nat)
    requires Run(states, steps) && k < |steps| && n < |states| && steps[k].BoundaryStep?
    requires PendingAt(states[k], attempt) && !states[k].c.pending.value.inProgress
    requires Signalled(states, steps, k, attempt)
    ensures !InProgress(states[n], attempt) && (n > k ==> !PendingAt(states[n], attempt))
    ensures n > k ==>
      && (attempt in states[n].f.records <==> attempt in states[k].f.records)
      && |states[k].f.log.outcomes| <= |states[n].f.log.outcomes|
      && forall i :: |states[k].f.log.outcomes| <= i < |states[n].f.log.outcomes| ==>
        states[n].f.log.outcomes[i].attempt == attempt ==> !states[n].f.log.outcomes[i].resolved
  {
    if n <= k {
      if InProgress(states[n], attempt) { ProgressStays(states, steps, n, k, attempt); }
    } else {
      BoundaryObeysSignals(states, steps, k);
      PendingUsed(states, steps, k, k, attempt);
      UsedGrows(states, steps, k, k + 1);
      NeverAgain(states, steps, k + 1, n, attempt);
      SilentAfter(states, steps, k + 1, n, attempt);
      RejectedOnly(states[k].f.log.outcomes, states[k + 1].f.log.outcomes, states[n].f.log.outcomes, attempt);
    }
  }

  lemma RejectedOnly(a: seq<Outcome>, b: seq<Outcome>, c: seq<Outcome>, attempt: nat)
    requires |a| <= |b| && b <= c && (forall i :: |a| <= i < |b| ==> !b[i].resolved)
    requires forall i :: |b| <= i < |c| ==> c[i].attempt != attempt
    ensures forall i :: |a| <= i < |c| ==> c[i].attempt == attempt ==> !c[i].resolved
  {
  }

  lemma StepStarts(s: Slot, t: Step, attempt: nat)
    requires Enabled(s, t) && InProgress(Apply(s, t), attempt) && !InProgress(s, attempt)
    ensures t.BoundaryStep? && PendingAt(s, attempt)
  {
    match t
    case AdmitStep(w, freshId, refused) =>
    case FreezeStep(basis) =>
    case BoundaryStep(delivered) =>
    case FinalizeStep(committed, appended, delivered, abort) =>
    case _ =>
  }

  /** And an attempt in progress was started at a boundary before which no such signal came. */
  lemma {:induction false} StartedUnsignalled(states: seq<Slot>, steps: seq<Step>, n: nat, attempt: nat)
      returns (k: nat)
    requires Run(states, steps) && n < |states| && InProgress(states[n], attempt)
    ensures k < n && steps[k].BoundaryStep? && PendingAt(states[k], attempt) && !InProgress(states[k], attempt)
    ensures !Signalled(states, steps, k, attempt)
  {
    assert n > 0;
    if InProgress(states[n - 1], attempt) {
      k := StartedUnsignalled(states, steps, n - 1, attempt);
    } else {
      k := n - 1;
      StepStarts(states[k], steps[k], attempt);
      BoundaryObeysSignals(states, steps, k);
    }
  }

  // ---------------------------------------------------------------- the outcome

  /** The outcome of an attempt: its first appended terminal stands, and says success exactly if the work
      succeeded and no signal had come by then; the slot is freed when every waiter was told, or nothing was
      left to tell, or the failed attempt is given up. */
  lemma OutcomeObeysSignals(states: seq<Slot>, steps: seq<Step>, k: nat)
    requires Run(states, steps) && k < |steps| && steps[k].FinalizeStep?
    ensures
      var s, u, t, p := states[k], states[k + 1], steps[k], states[k].c.pending.value;
      var verdict := t.committed && !Signalled(states, steps, k, p.attempt);
      var again := p.attempt in s.f.records;
      && u.f.records == (if again || !t.appended then s.f.records else s.f.records[p.attempt := verdict])
      && u.f.log.terminals ==
        (if again || !t.appended then s.f.log.terminals else s.f.log.terminals + [(p.attempt, verdict)])
      && (u.c.pending.None? <==> again || t.abort || (t.appended && t.delivered >= |p.waiters|))
      && (u.c.pending.Some? ==> u.c == s.c)
  {
    FlagsAreSignals(states, steps, k);
  }

  // ---------------------------------------------------------------- who waits

  /** Who waits after a command: without an attempt it opens one and waits for it alone; with one it waits
      too, unless it waits already or there is no room; and nothing else about the attempt changes. */
  lemma WhoWaits(states: seq<Slot>, steps: seq<Step>, k: nat, x: Waiter)
    requires Run(states, steps) && k < |steps| && steps[k].AdmitStep?
    ensures
      var s, u, w := states[k], states[k + 1], steps[k].w;
      if s.c.pending.None? then
        u.c.pending == if steps[k].freshId == 0 then None else Some(Pending(steps[k].freshId, [w], NO_BASIS, false))
      else
        var p := s.c.pending.value;
        && u.c.pending.Some? && u.c.pending.value.(waiters := p.waiters) == p
        && (x in u.c.pending.value.waiters <==>
          x in p.waiters || (x == w && |p.waiters| < s.c.capacity && forall y :: y in p.waiters ==> y.id != w.id))
  {
    var s, w := states[k], steps[k].w;
    if s.c.pending.Some? {
      var ws := s.c.pending.value.waiters;
      WaitsIs(ws, w.id);
      InsertHolds(ws, w, x);
    }
  }

  lemma WaitsIs(ws: seq<Waiter>, id: nat)
    ensures Waits(ws, id) <==> exists y :: y in ws && y.id == id
  {
    if y :| y in ws && y.id == id {
      var i :| 0 <= i < |ws| && ws[i] == y;
      assert ws[i].id == id;
    }
  }

  // ---------------------------------------------------------------- the frozen basis

  predicate Usable(b: Basis) { b.revision != 0 && b.through != 0 }

  lemma StepBasis(s: Slot, t: Step)
    requires Enabled(s, t) && s.c.pending.Some? && PendingAt(Apply(s, t), s.c.pending.value.attempt)
    ensures Apply(s, t).c.pending.value.basis ==
      if t.FreezeStep? && Usable(t.basis) && s.c.pending.value.basis == NO_BASIS then t.basis
      else s.c.pending.value.basis
  {
    match t
    case AdmitStep(w, freshId, refused) =>
    case FreezeStep(basis) =>
    case BoundaryStep(delivered) =>
    case FinalizeStep(committed, appended, delivered, abort) =>
    case _ =>
  }

  /** The basis of an attempt is the first usable one it was given, and stays. */
  lemma {:induction false} BasisStays(states: seq<Slot>, steps: seq<Step>, j: nat, k: nat, attempt: nat)
    requires Run(states, steps) && j <= k < |states| && PendingAt(states[j], attempt) && PendingAt(states[k], attempt)
    ensures states[j].c.pending.value.basis != NO_BASIS ==>
      states[k].c.pending.value.basis == states[j].c.pending.value.basis
    ensures j < k && states[j].c.pending.value.basis == NO_BASIS && steps[j].FreezeStep? && Usable(steps[j].basis) ==>
      states[k].c.pending.value.basis == steps[j].basis
    decreases k
  {
    if j < k {
      if !PendingAt(states[k - 1], attempt) {
        PendingUsed(states, steps, j, k - 1, attempt);
        NeverAgain(states, steps, k - 1, k, attempt);
      } else {
        BasisStays(states, steps, j, k - 1, attempt);
        StepBasis(states[k - 1], steps[k - 1]);
      }
    }
  }

  // ---------------------------------------------------------------- what counts as a failure

  /** An id could not be minted, or something could not be appended, or an attempt was given up. */
  ghost predicate Fails(states: seq<Slot>, steps: seq<Step>, k: nat)
    requires |states| == |steps| + 1 && k < |steps|
  {
    var s := states[k];
    match steps[k]
    case AdmitStep(w, freshId, refused) =>
      if s.c.pending.None? then freshId == 0
      else
        !refused && |s.c.pending.value.waiters| >= s.c.capacity &&
        forall y :: y in s.c.pending.value.waiters ==> y.id != w.id
    case BoundaryStep(delivered) =>
      && s.c.pending.Some? && !s.c.pending.value.inProgress && delivered < |s.c.pending.value.waiters|
      && Signalled(states, steps, k, s.c.pending.value.attempt)
    case FinalizeStep(_, appended, delivered, _) =>
      && s.c.pending.Some? && s.c.pending.value.attempt !in s.f.records
      && (!appended || delivered < |s.c.pending.value.waiters|)
    case AbortStep => s.c.pending.Some?
    case _ => false
  }

  lemma StepFails(states: seq<Slot>, steps: seq<Step>, k: nat)
    requires Run(states, steps) && k < |steps|
    ensures states[k + 1].failed <==> states[k].failed || Fails(states, steps, k)
  {
    FlagsAreSignals(states, steps, k);
    var s := states[k];
    match steps[k]
    case AdmitStep(w, freshId, refused) => if s.c.pending.Some? { WaitsIs(s.c.pending.value.waiters, w.id); }
    case _ =>
  }

  /** The runs for which nothing more is claimed are exactly those with such a failure. */
  lemma {:induction false} FailedIff(states: seq<Slot>, steps: seq<Step>, k: nat)
    requires Run(states, steps) && k < |states|
    ensures states[k].failed <==> exists j :: 0 <= j < k && Fails(states, steps, j)
  {
    if k > 0 {
      FailedIff(states, steps, k - 1);
      StepFails(states, steps, k - 1);
    }
  }
}
