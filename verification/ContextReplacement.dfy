/** Compare-and-swap replacement of a loop's history by a compaction (internal/loopruntime:
    context_replacement.go, context.go and the context arms of loop.go).

    A candidate is captured from the live history under a measurement; the work happens elsewhere while
    the actor goes on; the actor then applies the outcome only if nothing has moved. */
module ContextReplacement {
  import opened Options
  import T = CompactionTail

  const MAX_REVISION: nat := 0xFFFF_FFFF_FFFF_FFFF
  const MAX_GENERATION: nat := 0xFFFF_FFFF_FFFF_FFFF

  // ---------------------------------------------------------------- the data

  /** The identity of a history: how often it changed and by which event last. */
  datatype Basis = Basis(revision: nat, through: nat)

  datatype Measurement = Measurement(basis: Basis, model: nat, fingerprint: nat)

  datatype Loop = Loop(
    messages: seq<T.Message>, derived: nat, basis: Basis, generation: nat, hasContext: bool, context: Measurement)

  /** What was captured: the history, its identity, and the tail selected from it. */
  datatype Candidate = Candidate(transcript: seq<T.Message>, derived: nat, basis: Basis, sel: T.Selection)

  /** An attempt in flight, with the basis frozen for it. */
  datatype Attempt = Attempt(basis: Basis, candidate: Candidate)

  /** What the work proposes: a summary of the candidate, under the model and fingerprint it used. */
  datatype Proposal = Proposal(summary: T.Message, model: nat, fingerprint: nat, countOk: bool, post: Measurement)

  // ---------------------------------------------------------------- mutations

  datatype MutationKind = HistoryMutation | RequestShape

  datatype Mutation = Mutation(basis: Basis, generation: nat, kind: MutationKind)

  function NextBasis(b: Basis, eventId: nat): Option<Basis> {
    if eventId == 0 || b.revision >= MAX_REVISION then None else Some(Basis(b.revision + 1, eventId))
  }

  /** `preflightContextMutation`. */
  function Preflight(b: Basis, generation: nat, eventId: nat, kind: MutationKind): Option<Mutation> {
    match NextBasis(b, eventId)
    case None => None
    case Some(next) =>
      if kind.RequestShape? && generation >= MAX_GENERATION then None
      else Some(Mutation(next, if kind.RequestShape? then generation + 1 else generation, kind))
  }

  /** A turn start, step, fold or configuration change that was committed. */
  function Commit(l: Loop, m: Mutation, added: seq<T.Message>): Loop {
    l.(messages := l.messages + added, basis := m.basis, hasContext := false,
       generation := if m.kind.RequestShape? then m.generation else l.generation)
  }

  /** A mutation arm: nothing changes unless the preflight and the durable append both succeed. */
  function Mutate(l: Loop, eventId: nat, kind: MutationKind, added: seq<T.Message>, appended: bool): Loop {
    match Preflight(l.basis, l.generation, eventId, kind)
    case None => l
    case Some(m) => if appended then Commit(l, m, added) else l
  }

  /** The measurement arm: a stale measurement is dropped. */
  function Measure(l: Loop, m: Measurement, generation: nat): Loop {
    if m.basis != l.basis || generation != l.generation then l else l.(hasContext := true, context := m)
  }

  // ---------------------------------------------------------------- replacement

  predicate Current(l: Loop, a: Attempt, p: Proposal) {
    && l.hasContext && l.context.basis == a.basis && l.basis == a.basis
    && l.context.model == p.model && l.context.fingerprint == p.fingerprint
  }

  datatype Prepared = Plan | Stale | Invalid

  /** `prepareActorContextReplacement`. */
  function Prepare(l: Loop, a: Attempt, p: Proposal): Prepared {
    if !Current(l, a, p) then Stale else if !p.countOk then Invalid else Plan
  }

  /** `apply`, with the basis the committed event carries. */
  function Replace(l: Loop, a: Attempt, p: Proposal, eventId: nat): Loop {
    var post := Basis(a.basis.revision + 1, eventId);
    l.(messages := [p.summary] + a.candidate.sel.retained, derived := 1, basis := post, hasContext := true,
       context := p.post.(basis := post))
  }

  /** The outcome arm: the terminal of a committed compaction needs an event id and room for a revision,
      and its append must succeed; a stale or invalid proposal is rejected. */
  predicate Applies(l: Loop, a: Attempt, p: Proposal, eventId: nat, appended: bool) {
    Prepare(l, a, p).Plan? && eventId != 0 && a.basis.revision < MAX_REVISION && appended
  }

  function Finish(l: Loop, a: Attempt, p: Proposal, eventId: nat, appended: bool): Loop {
    if Applies(l, a, p, eventId, appended) then Replace(l, a, p, eventId) else l
  }

  // ---------------------------------------------------------------- the loop's context as an object

  class LoopContext {
    var messages: seq<T.Message>
    var derivedPrefix: nat
    var basis: Basis
    var generation: nat
    var hasContext: bool
    var context: Measurement

    ghost function State(): Loop
      reads this
    {
      Loop(messages, derivedPrefix, basis, generation, hasContext, context)
    }

    method CommitMutation(eventId: nat, kind: MutationKind, added: seq<T.Message>,
                          appended: bool) returns (committed: bool)
      modifies this
      ensures State() == Mutate(old(State()), eventId, kind, added, appended)
      ensures committed <==> appended && Preflight(old(basis), old(generation), eventId, kind).Some?
      ensures committed ==> basis.revision == old(basis).revision + 1
    {
      if eventId == 0 || basis.revision >= MAX_REVISION { return false; }
      if kind == RequestShape && generation >= MAX_GENERATION { return false; }
      if !appended { return false; }
      basis := Basis(basis.revision + 1, eventId);
      if kind == RequestShape { generation := generation + 1; }
      messages := messages + added;
      hasContext := false;
      return true;
    }

    method AcceptMeasurement(m: Measurement, measuredGeneration: nat) returns (accepted: bool)
      modifies this`hasContext, this`context
      ensures State() == Measure(old(State()), m, measuredGeneration)
    {
      if m.basis != basis || measuredGeneration != generation { return false; }
      context := m;
      hasContext := true;
      return true;
    }

    method FinishCompaction(a: Attempt, p: Proposal, eventId: nat, appended: bool) returns (applied: bool)
      modifies this
      ensures State() == Finish(old(State()), a, p, eventId, appended)
      ensures applied <==> Applies(old(State()), a, p, eventId, appended)
    {
      if !hasContext || context.basis != a.basis || basis != a.basis { return false; }
      if context.model != p.model || context.fingerprint != p.fingerprint { return false; }
      if !p.countOk || eventId == 0 || a.basis.revision >= MAX_REVISION || !appended { return false; }
      basis := Basis(a.basis.revision + 1, eventId);
      messages := [p.summary] + a.candidate.sel.retained;
      derivedPrefix := 1;
      context := p.post.(basis := basis);
      hasContext := true;
      return true;
    }
  }

  // ---------------------------------------------------------------- runs

  datatype Step =
    | MutateStep(eventId: nat, kind: MutationKind, added: seq<T.Message>, appended: bool)
    | MeasureStep(m: Measurement, generation: nat)
    | CaptureStep(sel: T.Selection)
    | StartStep(basis: Basis)
    | FinishStep(p: Proposal, eventId: nat, appended: bool)

  datatype System = System(l: Loop, captured: Option<Candidate>, flying: Option<Attempt>)

  /** A selection is a partition of the history it is taken from. A started attempt's basis is the
      captured one, or was frozen before it. */
  predicate Enabled(sys: System, s: Step) {
    match s
    case CaptureStep(sel) => sel.head + sel.retained == sys.l.messages
    case StartStep(b) =>
      && sys.captured.Some? && sys.flying.None? && b.revision <= sys.captured.value.basis.revision
      && (b.revision == sys.captured.value.basis.revision ==> b == sys.captured.value.basis)
    case FinishStep(_, _, _) => sys.flying.Some?
    case _ => true
  }

  function Apply(sys: System, s: Step): System
    requires Enabled(sys, s)
  {
    match s
    case MutateStep(eventId, kind, added, appended) => sys.(l := Mutate(sys.l, eventId, kind, added, appended))
    case MeasureStep(m, generation) => sys.(l := Measure(sys.l, m, generation))
    case CaptureStep(sel) => sys.(captured := Some(Candidate(sys.l.messages, sys.l.derived, sys.l.basis, sel)))
    case StartStep(b) => sys.(flying := Some(Attempt(b, sys.captured.value)))
    case FinishStep(p, eventId, appended) =>
      System(Finish(sys.l, sys.flying.value, p, eventId, appended), sys.captured, None)
  }

  ghost predicate Run(states: seq<System>, steps: seq<Step>) {
    && |states| == |steps| + 1 && states[0].captured.None? && states[0].flying.None?
    && forall i :: 0 <= i < |steps| ==> Enabled(states[i], steps[i]) && states[i + 1] == Apply(states[i], steps[i])
  }

  // ---------------------------------------------------------------- the invariant

  /** Whoever still sees this basis sees this very history. */
  predicate Describes(b: Basis, c: Candidate, l: Loop) {
    && b.revision <= l.basis.revision
    && (l.basis == b ==> l.messages == c.transcript && l.derived == c.derived)
  }

  predicate IsPartition(c: Candidate) { c.sel.head + c.sel.retained == c.transcript }

  predicate Inv(sys: System) {
    && (sys.captured.Some? ==>
      IsPartition(sys.captured.value) && Describes(sys.captured.value.basis, sys.captured.value, sys.l))
    && (sys.flying.Some? ==>
      IsPartition(sys.flying.value.candidate) && Describes(sys.flying.value.basis, sys.flying.value.candidate, sys.l))
  }

  lemma StepKeeps(sys: System, s: Step)
    requires Inv(sys) && Enabled(sys, s)
    ensures Inv(Apply(sys, s)) && sys.l.basis.revision <= Apply(sys, s).l.basis.revision
  {
  }

  lemma {:induction false} RunKeeps(states: seq<System>, steps: seq<Step>, i: nat)
    requires Run(states, steps) && i < |states|
    ensures Inv(states[i])
  {
    if i > 0 {
      RunKeeps(states, steps, i - 1);
      StepKeeps(states[i - 1], steps[i - 1]);
    }
  }

  /** The revision never goes back. */
  lemma {:induction false} RevisionGrows(states: seq<System>, steps: seq<Step>, i: nat, j: nat)
    requires Run(states, steps) && i <= j < |states|
    ensures states[i].l.basis.revision <= states[j].l.basis.revision
    decreases j
  {
    if i < j {
      RevisionGrows(states, steps, i, j - 1);
      RunKeeps(states, steps, j - 1);
      StepKeeps(states[j - 1], steps[j - 1]);
    }
  }

  // ---------------------------------------------------------------- the main results

  predicate AppliesAt(sys: System, s: Step) {
    s.FinishStep? && sys.flying.Some? && Applies(sys.l, sys.flying.value, s.p, s.eventId, s.appended)
  }

  /** A committed compaction replaces exactly the history it was prepared from: at that moment the live
      messages are the selected head followed by the retained tail, and afterwards they are the summary
      followed by that tail, untouched. */
  lemma ReplacesWhatItSummarised(states: seq<System>, steps: seq<Step>, i: nat)
    requires Run(states, steps) && i < |steps| && AppliesAt(states[i], steps[i])
    ensures
      var c := states[i].flying.value.candidate;
      && states[i].l.messages == c.sel.head + c.sel.retained == c.transcript && states[i].l.derived == c.derived
      && states[i + 1].l.messages == [steps[i].p.summary] + states[i].l.messages[|c.sel.head|..]
      && states[i + 1].l.derived == 1 && states[i + 1].l.basis.revision == states[i].l.basis.revision + 1
  {
    RunKeeps(states, steps, i);
    var c := states[i].flying.value.candidate;
    assert (c.sel.head + c.sel.retained)[|c.sel.head|..] == c.sel.retained;
  }

  /** The step changes the identity of the live history. */
  predicate Changes(sys: System, s: Step)
    requires Enabled(sys, s)
  {
    Apply(sys, s).l.basis != sys.l.basis
  }

  lemma ChangeRaises(sys: System, s: Step)
    requires Inv(sys) && Enabled(sys, s) && Changes(sys, s)
    ensures sys.l.basis.revision < Apply(sys, s).l.basis.revision
  {
  }

  lemma {:induction false} FlyingStays(states: seq<System>, steps: seq<Step>, i: nat, k: nat)
    requires Run(states, steps) && i <= k < |states| && states[i].flying.Some?
    requires forall j :: i <= j < k ==> !steps[j].FinishStep?
    ensures states[k].flying == states[i].flying
    decreases k
  {
    if i < k { FlyingStays(states, steps, i, k - 1); }
  }

  /** A change at or after the basis of the attempt makes its outcome a rejection. */
  lemma ChangeMakesStale(states: seq<System>, steps: seq<Step>, j: nat, k: nat)
    requires Run(states, steps) && j < k < |steps| && states[k].flying.Some? && steps[k].FinishStep?
    requires states[k].flying.value.basis.revision <= states[j].l.basis.revision && Changes(states[j], steps[j])
    ensures !AppliesAt(states[k], steps[k]) && states[k + 1].l == states[k].l
  {
    RunKeeps(states, steps, j);
    ChangeRaises(states[j], steps[j]);
    RevisionGrows(states, steps, j + 1, k);
  }

  /** Any turn start, step, fold or configuration change between the start of an attempt and its outcome
      makes the outcome a rejection that leaves the history alone. */
  lemma ChangeForcesRejection(states: seq<System>, steps: seq<Step>, i: nat, j: nat, k: nat)
    requires Run(states, steps) && i <= j < k < |steps| && states[i].flying.Some? && steps[k].FinishStep?
    requires (forall m :: i <= m < k ==> !steps[m].FinishStep?) && Changes(states[j], steps[j])
    ensures !AppliesAt(states[k], steps[k]) && states[k + 1].l == states[k].l
  {
    FlyingStays(states, steps, i, k);
    RunKeeps(states, steps, i);
    RevisionGrows(states, steps, i, j);
    ChangeMakesStale(states, steps, j, k);
  }

  /** And so does a change between the capture of its candidate and its start. */
  lemma ChangeAfterCapture(states: seq<System>, steps: seq<Step>, h: nat, j: nat, i: nat, k: nat)
    requires Run(states, steps) && h <= j < i < k < |steps| && steps[i].StartStep? && steps[k].FinishStep?
    requires states[h].captured.Some? && states[i].captured == states[h].captured && Changes(states[j], steps[j])
    requires forall m :: i < m < k ==> !steps[m].FinishStep?
    ensures !AppliesAt(states[k], steps[k]) && states[k + 1].l == states[k].l
  {
    RunKeeps(states, steps, h);
    FlyingStays(states, steps, i + 1, k);
    RevisionGrows(states, steps, h, j);
    ChangeMakesStale(states, steps, j, k);
  }

  /** Every committed mutation is such a change. */
  lemma MutationChanges(l: Loop, eventId: nat, kind: MutationKind, added: seq<T.Message>, appended: bool)
    ensures
      var next := Mutate(l, eventId, kind, added, appended);
      if appended && eventId != 0 && l.basis.revision < MAX_REVISION &&
        (kind.RequestShape? ==> l.generation < MAX_GENERATION)
      then next.basis.revision == l.basis.revision + 1 && !next.hasContext && next.messages == l.messages + added
      else next == l
  {
  }

  /** With a selection of the tail algorithm, replacement keeps the history well-paired and shrinks it. */
  lemma ReplacementKeepsPairs(states: seq<System>, steps: seq<Step>, i: nat, pairs: seq<T.Pair>, maxSegments: nat,
                              maxTokens: nat)
    requires Run(states, steps) && i < |steps| && AppliesAt(states[i], steps[i]) && T.IsSummary(steps[i].p.summary)
    requires
      var c := states[i].flying.value.candidate;
      && c.derived <= |c.transcript| && T.Validate(c.transcript, c.derived) == T.Ok(pairs)
      && T.IsSelection(c.transcript, c.derived, pairs, maxSegments, maxTokens, c.sel) && |c.sel.head| > c.derived
    ensures
      var before, after := T.History(states[i].l.messages, states[i].l.derived),
        T.History(states[i + 1].l.messages, states[i + 1].l.derived);
      T.WellPaired(before) && T.Reduced(before, after, 1)
  {
    ReplacesWhatItSummarised(states, steps, i);
    var c := states[i].flying.value.candidate;
    var before, after := T.History(c.transcript, c.derived), T.History([steps[i].p.summary] + c.sel.retained, 1);
    assert c.sel.retained == c.transcript[|c.sel.head|..];
    assert T.Compacts(before, after, steps[i].p.summary, maxSegments, maxTokens);
    T.CompactionShrinks(before, after, steps[i].p.summary, maxSegments, maxTokens);
  }
}
