/** When a compaction's outcome is applied, and what the live history is, told from the steps of a run
    (internal/loopruntime: context_replacement.go, context.go and the context arms of loop.go). */
module ContextLedger {
  import opened ContextReplacement
  import opened Options
  import T = CompactionTail

  // ---------------------------------------------------------------- the events of a run

  /** A turn start, step, fold or configuration change that is committed. */
  predicate Commits(l: Loop, s: Step) {
    && s.MutateStep? && s.appended && s.eventId != 0 && l.basis.revision < MAX_REVISION
    && (s.kind.RequestShape? ==> l.generation < MAX_GENERATION)
  }

  /** A measurement of the history as it is. */
  predicate Accepts(l: Loop, s: Step) { s.MeasureStep? && s.m.basis == l.basis && s.generation == l.generation }

  /** The history moved on to the summary followed by the retained tail, under the basis of the terminal and
      the measurement that came with it. */
  predicate BecomesSummary(l: Loop, a: Attempt, p: Proposal, eventId: nat, after: Loop) {
    after.basis != l.basis &&
    after == Loop([p.summary] + a.candidate.sel.retained, 1, Basis(a.basis.revision + 1, eventId), l.generation, true,
                  p.post.(basis := Basis(a.basis.revision + 1, eventId)))
  }

  ghost predicate Replaces(states: seq<System>, steps: seq<Step>, k: nat)
    requires Run(states, steps) && k < |steps|
  {
    steps[k].FinishStep? &&
    BecomesSummary(states[k].l, states[k].flying.value, steps[k].p, steps[k].eventId, states[k + 1].l)
  }

  // ---------------------------------------------------------------- the ledger

  /** One step of the history: a committed change extends it and advances its identity, an applied compaction
      replaces it, and nothing else touches it. */
  lemma HistoryStep(states: seq<System>, steps: seq<Step>, k: nat)
    requires Run(states, steps) && k < |steps|
    ensures
      var l, next, s := states[k].l, states[k + 1].l, steps[k];
      if Commits(l, s) then
        && next.messages == l.messages + s.added && next.basis == Basis(l.basis.revision + 1, s.eventId)
        && next.generation == l.generation + (if s.kind.RequestShape? then 1 else 0)
        && next.derived == l.derived && !next.hasContext
      else if Accepts(l, s) then next == l.(hasContext := true, context := s.m)
      else Replaces(states, steps, k) || next == l
  {
  }

  /** The history, from the steps alone: what was there at first, or the last summary and the tail it
      retained, and after it everything added by committed changes. */
  ghost function History(states: seq<System>, steps: seq<Step>, k: nat): seq<T.Message>
    requires Run(states, steps) && k < |states|
  {
    if k == 0 then states[0].l.messages
    else if Commits(states[k - 1].l, steps[k - 1]) then History(states, steps, k - 1) + steps[k - 1].added
    else if Replaces(states, steps, k - 1) then
      [steps[k - 1].p.summary] + states[k - 1].flying.value.candidate.sel.retained
    else History(states, steps, k - 1)
  }

  /** How often it changed. */
  ghost function Changed(states: seq<System>, steps: seq<Step>, k: nat): nat
    requires Run(states, steps) && k < |states|
  {
    if k == 0 then 0
    else
      Changed(states, steps, k - 1) +
      if Commits(states[k - 1].l, steps[k - 1]) || Replaces(states, steps, k - 1) then 1 else 0
  }

  lemma ReplacementRaises(states: seq<System>, steps: seq<Step>, k: nat)
    requires Run(states, steps) && k < |steps| && Replaces(states, steps, k)
    ensures states[k + 1].l.basis.revision == states[k].l.basis.revision + 1
    ensures states[k].flying.value.basis == states[k].l.basis
  {
    RunKeeps(states, steps, k);
  }

  /** The live history is that history, and the revision counts its changes. */
  lemma {:induction false} HistoryIs(states: seq<System>, steps: seq<Step>, k: nat)
    requires Run(states, steps) && k < |states|
    ensures states[k].l.messages == History(states, steps, k)
    ensures states[k].l.basis.revision == states[0].l.basis.revision + Changed(states, steps, k)
  {
    if k > 0 {
      HistoryIs(states, steps, k - 1);
      HistoryStep(states, steps, k - 1);
      if Replaces(states, steps, k - 1) { ReplacementRaises(states, steps, k - 1); }
    }
  }

  // ---------------------------------------------------------------- the last measurement

  /** The measurement that state k has from the step before it, or from the start. */
  ghost predicate MeasuredAt(states: seq<System>, steps: seq<Step>, k: nat, m: Measurement)
    requires Run(states, steps) && k < |states|
  {
    if k == 0 then states[0].l.hasContext && m == states[0].l.context
    else
      var l, s := states[k - 1].l, steps[k - 1];
      || (Accepts(l, s) && m == s.m)
      || (Replaces(states, steps, k - 1) && m == s.p.post.(basis := Basis(l.basis.revision + 1, s.eventId)))
  }

  ghost predicate Supersedes(states: seq<System>, steps: seq<Step>, k: nat)
    requires Run(states, steps) && k < |steps|
  {
    Commits(states[k].l, steps[k]) || Accepts(states[k].l, steps[k]) || Replaces(states, steps, k)
  }

  /** The last measurement accepted, if no change has been committed since. */
  ghost predicate LastMeasured(states: seq<System>, steps: seq<Step>, k: nat, m: Measurement)
    requires Run(states, steps) && k < |states|
  {
    exists j: nat :: j <= k && MeasuredAt(states, steps, j, m) && forall i :: j <= i < k ==>
      !Supersedes(states, steps, i)
  }

  lemma LastMeasuredGrows(states: seq<System>, steps: seq<Step>, k: nat, m: Measurement)
    requires Run(states, steps) && k < |steps|
    ensures LastMeasured(states, steps, k + 1, m) <==>
      MeasuredAt(states, steps, k + 1, m) || (LastMeasured(states, steps, k, m) && !Supersedes(states, steps, k))
  {
    if LastMeasured(states, steps, k, m) && !Supersedes(states, steps, k) {
      var j: nat :| j <= k && MeasuredAt(states, steps, j, m) && forall i :: j <= i < k ==>
        !Supersedes(states, steps, i);
      assert j <= k + 1;
    }
    if LastMeasured(states, steps, k + 1, m) {
      var j: nat :| j <= k + 1 && MeasuredAt(states, steps, j, m) &&
        forall i :: j <= i < k + 1 ==> !Supersedes(states, steps, i);
      assert j <= k ==> !Supersedes(states, steps, k);
    }
  }

  lemma MeasuredStep(states: seq<System>, steps: seq<Step>, k: nat, m: Measurement)
    requires Run(states, steps) && k < |steps|
    ensures states[k + 1].l.hasContext && states[k + 1].l.context == m <==>
      MeasuredAt(states, steps, k + 1, m) ||
      (states[k].l.hasContext && states[k].l.context == m && !Supersedes(states, steps, k))
  {
    HistoryStep(states, steps, k);
    if Replaces(states, steps, k) { ReplacementRaises(states, steps, k); }
  }

  /** The measurement the loop holds is that one. */
  lemma {:induction false} MeasurementIs(states: seq<System>, steps: seq<Step>, k: nat, m: Measurement)
    requires Run(states, steps) && k < |states|
    ensures states[k].l.hasContext && states[k].l.context == m <==> LastMeasured(states, steps, k, m)
  {
    if k > 0 {
      MeasurementIs(states, steps, k - 1, m);
      MeasuredStep(states, steps, k - 1, m);
      LastMeasuredGrows(states, steps, k - 1, m);
    } else if MeasuredAt(states, steps, 0, m) {
      assert LastMeasured(states, steps, 0, m);
    }
  }

  // ---------------------------------------------------------------- when an outcome is applied

  /** Steps i and k are the start of an attempt and its outcome. */
  ghost predicate Flight(states: seq<System>, steps: seq<Step>, i: nat, k: nat)
    requires Run(states, steps)
  {
    && i < k < |steps| && steps[i].StartStep? && steps[k].FinishStep?
    && forall m :: i < m < k ==> !steps[m].FinishStep?
  }

  /** No change was committed since the attempt's basis, which was live when it started. */
  ghost predicate Unchanged(states: seq<System>, steps: seq<Step>, i: nat, k: nat)
    requires Run(states, steps) && Flight(states, steps, i, k)
  {
    steps[i].basis == states[i].l.basis && forall m :: i < m < k ==> !Commits(states[m].l, steps[m])
  }

  lemma QuietStep(states: seq<System>, steps: seq<Step>, k: nat)
    requires Run(states, steps) && k < |steps| && !steps[k].FinishStep? && !Commits(states[k].l, steps[k])
    ensures states[k + 1].l.basis == states[k].l.basis
  {
  }

  lemma {:induction false} BasisStays(states: seq<System>, steps: seq<Step>, i: nat, k: nat)
    requires Run(states, steps) && i <= k < |states|
    requires forall m :: i <= m < k ==> !steps[m].FinishStep? && !Commits(states[m].l, steps[m])
    ensures states[k].l.basis == states[i].l.basis
    decreases k
  {
    if i < k {
      BasisStays(states, steps, i, k - 1);
      QuietStep(states, steps, k - 1);
    }
  }

  lemma CommitMoves(states: seq<System>, steps: seq<Step>, i: nat, m: nat, k: nat)
    requires Run(states, steps) && i < m < k < |steps| && steps[i].StartStep? && Commits(states[m].l, steps[m])
    ensures states[k].l.basis != steps[i].basis
  {
    RunKeeps(states, steps, i);
    HistoryStep(states, steps, m);
    RevisionGrows(states, steps, i, m);
    RevisionGrows(states, steps, m + 1, k);
  }

  lemma UnchangedIff(states: seq<System>, steps: seq<Step>, i: nat, k: nat)
    requires Run(states, steps) && Flight(states, steps, i, k)
    ensures Unchanged(states, steps, i, k) <==> states[k].l.basis == steps[i].basis
  {
    if m :| i < m < k && Commits(states[m].l, steps[m]) {
      CommitMoves(states, steps, i, m, k);
    } else {
      BasisStays(states, steps, i, k);
    }
  }

  /** The last measurement is of the attempt's basis, by the model and for the request the proposal used. */
  ghost predicate Measured(states: seq<System>, steps: seq<Step>, i: nat, k: nat)
    requires Run(states, steps) && Flight(states, steps, i, k)
  {
    exists m :: LastMeasured(states, steps, k, m) && m.basis == steps[i].basis && m.model == steps[k].p.model &&
                m.fingerprint == steps[k].p.fingerprint
  }

  lemma MeasuredIff(states: seq<System>, steps: seq<Step>, i: nat, k: nat)
    requires Run(states, steps) && Flight(states, steps, i, k)
    ensures
      var l, p := states[k].l, steps[k].p;
      Measured(states, steps, i, k) <==>
        l.hasContext && l.context.basis == steps[i].basis && l.context.model == p.model &&
        l.context.fingerprint == p.fingerprint
  {
    MeasurementIs(states, steps, k, states[k].l.context);
    if Measured(states, steps, i, k) {
      var m :| LastMeasured(states, steps, k, m) && m.basis == steps[i].basis && m.model == steps[k].p.model &&
               m.fingerprint == steps[k].p.fingerprint;
      MeasurementIs(states, steps, k, m);
    }
  }

  /** An outcome is applied, and the history becomes the summary and the retained tail, if and only if no
      change was committed since the attempt's basis, the last measurement accepted is of that basis, model and
      request, the proposal's count is good, its terminal has an id and a revision to take, and the terminal was
      appended. Otherwise the loop is as it was. How often it was compacted before does not matter. */
  lemma AppliedIff(states: seq<System>, steps: seq<Step>, i: nat, k: nat)
    requires Run(states, steps) && Flight(states, steps, i, k)
    ensures
      var s := steps[k];
      Replaces(states, steps, k) <==>
        && Unchanged(states, steps, i, k) && Measured(states, steps, i, k)
        && s.p.countOk && s.eventId != 0 && steps[i].basis.revision < MAX_REVISION && s.appended
    ensures !Replaces(states, steps, k) ==> states[k + 1].l == states[k].l
  {
    FlyingStays(states, steps, i + 1, k);
    UnchangedIff(states, steps, i, k);
    MeasuredIff(states, steps, i, k);
  }
}
