/** Ownership of hustle runs (internal/hustleruntime/controller.go and the skeleton of RunAndFinalize in
    execution.go): two lanes, one thread per run, closers that resolve what they took out of the queues,
    and a once-guarded finish. Sections under the admission mutex or a lane's mutex are atomic; contexts,
    the work itself and the outcome of a finalizer or cleanup are nondeterministic. */
module HustleController {
  import opened Options
  import L = Lane

  datatype Side = Blocking | Background

  /** Where the run's own thread is in RunAndFinalize. */
  datatype Pc =
    | Setup                   // owned, its setup not done
    | SetupFailed             // setup recorded as failed, about to leave the queue
    | FailedOut               // about to finish with the setup error
    | Ready                   // setup done, about to become eligible
    | Awaiting(offered: bool) // in awaitExecution; offered if it became eligible
    | Withdrawn               // took itself out of the queue, about to finish
    | Working                 // awaitExecution returned no error
    | Finishing               // inside finish, or waiting for it to be done
    | Returned(ok: bool)      // awaitExecution or finish gave its result

  /** The once-guard of finish and how far its body is. */
  datatype Stage =
    | NotBegun
    | Entered      // inside the guard
    | Finalizing   // the lane says finalizing; the finalizer is next
    | Called       // the finalizer returned
    | Completed    // cleaned up and completed in the lane
    | Released     // gave its drain ownership back
    | Done         // the done channel is closed
    | Refused      // the lane refused, so the finalizer was skipped

  datatype Run = Run(side: Side, pc: Pc, stage: Stage, before: bool, setupDone: bool, calls: nat, failed: bool)

  datatype Controller = Controller(
    blocking: L.Lane, background: L.Lane, runs: map<nat, Run>, poisoned: bool, closing: bool,
    drainOwned: nat, drained: nat,
    closers: set<nat>)

  function Init(b: L.Lane, g: L.Lane): Controller { Controller(b, g, map[], false, false, 0, 0, {}) }

  function LaneOf(c: Controller, side: Side): L.Lane { if side.Blocking? then c.blocking else c.background }

  function WithLane(c: Controller, side: Side, l: L.Lane): Controller {
    if side.Blocking? then c.(blocking := l) else c.(background := l)
  }

  function With(c: Controller, id: nat, r: Run): Controller { c.(runs := c.runs[id := r]) }

  /** Where the lane has the run. */
  function Held(c: Controller, id: nat): L.State
    requires id in c.runs
  {
    var l := LaneOf(c, c.runs[id].side);
    if id in l.runs then l.runs[id].state else L.Finished
  }

  // ---------------------------------------------------------------- the steps

  /** `ownWithEligibility`, under the admission mutex. */
  function Own(c: Controller, id: nat, side: Side, eligible: bool): Controller {
    var l := LaneOf(c, side);
    if c.poisoned || !L.Admits(l) then c
    else
      var d := WithLane(c, side, L.Enqueue(l, id, eligible));
      With(d, id, Run(side, if eligible then Awaiting(true) else Setup, NotBegun, false, eligible, 0, false))
        .(drainOwned := c.drainOwned + 1)
  }

  function MoveTo(c: Controller, id: nat, pc: Pc): Controller
    requires id in c.runs
  {
    With(c, id, c.runs[id].(pc := pc))
  }

  function LaneStep(c: Controller, id: nat, s: L.Step): Controller
    requires id in c.runs
  {
    WithLane(c, c.runs[id].side, L.Apply(LaneOf(c, c.runs[id].side), s))
  }

  /** The once-guard: the first to come runs the body, everyone else waits for it. */
  function Guard(c: Controller, id: nat, before: bool): Controller
    requires id in c.runs
  {
    if c.runs[id].stage.NotBegun? then With(c, id, c.runs[id].(stage := Entered, before := before)) else c
  }

  /** The drain channel closes once, when the last owner leaves a closing controller. */
  function Signal(c: Controller): Controller {
    if c.closing && c.drainOwned == 0 && c.drained == 0 then c.(drained := 1) else c
  }

  /** `Close` and `poison`, under the admission mutex: both lanes close, what was queued is this closer's
      to finish, and draining begins. A closer that finds the lanes closed takes nothing. */
  function Shut(c: Controller, poison: bool): Controller {
    var taken := if c.blocking.closed then {} else set id | id in c.blocking.queue;
    var more := if c.background.closed then {} else set id | id in c.background.queue;
    Signal(c.(poisoned := c.poisoned || poison, blocking := L.Close(c.blocking), background := L.Close(c.background),
              closing := true, closers := c.closers + taken + more))
  }

  /** The next part of finish's body. The outcome of finalizer and cleanup is nondeterministic; a run
      finished before execution carries its queue failure or setup error. */
  function Body(c: Controller, id: nat, failed: bool): Controller
    requires id in c.runs
  {
    var r := c.runs[id];
    match r.stage
    case Entered =>
      if r.before then With(c, id, r.(stage := Finalizing))
      else if Held(c, id).Executing? then
        With(LaneStep(c, id, L.BeginFinalizingStep(id)), id, r.(stage := Finalizing))
      else With(c, id, r.(stage := Refused, failed := true))
    case Finalizing => With(c, id, r.(stage := Called, calls := r.calls + 1, failed := r.before || failed))
    case Called => With(LaneStep(c, id, L.CompleteStep(id)), id, r.(stage := Completed, failed := r.failed || failed))
    case Completed =>
      Signal(With(c, id, r.(stage := Released)).(drainOwned := if c.drainOwned > 0 then c.drainOwned - 1 else 0))
    case Refused =>
      Signal(With(c, id, r.(stage := Released)).(drainOwned := if c.drainOwned > 0 then c.drainOwned - 1 else 0))
    case Released => With(c, id, r.(stage := Done))
    case _ => c
  }

  datatype Step =
    | OwnStep(id: nat, side: Side, eligible: bool)
    | SetupStep(id: nat, ok: bool)
    | LeaveQueueStep(id: nat)
    | OfferStep(id: nat, cancelled: bool)
    | GrantedStep(id: nat)
    | CancelledStep(id: nat)
    | ResolvedStep(id: nat)
    | FinishStep(id: nat)
    | ReturnStep(id: nat)
    | BodyStep(id: nat, failed: bool)
    | ShutStep(poison: bool)
    | CloserStep(id: nat)

  predicate At(c: Controller, id: nat, pc: Pc) { id in c.runs && c.runs[id].pc == pc }

  predicate InAwait(c: Controller, id: nat) { id in c.runs && c.runs[id].pc.Awaiting? }

  predicate Enabled(c: Controller, s: Step) {
    match s
    case OwnStep(id, _, _) => id !in c.runs
    case SetupStep(id, _) => At(c, id, Setup)
    case LeaveQueueStep(id) => At(c, id, SetupFailed)
    case OfferStep(id, _) => At(c, id, Ready)
    // awaitExecution: granted, cancelled while still queued, or resolved by somebody else.
    case GrantedStep(id) => InAwait(c, id) && Held(c, id).Executing?
    case CancelledStep(id) => InAwait(c, id) && Held(c, id).Queued?
    case ResolvedStep(id) => InAwait(c, id) && c.runs[id].stage.Done?
    case FinishStep(id) => At(c, id, FailedOut) || At(c, id, Withdrawn) || At(c, id, Working)
    case ReturnStep(id) => At(c, id, Finishing) && c.runs[id].stage.Done?
    case BodyStep(id, _) => id in c.runs
    case ShutStep(_) => true
    case CloserStep(id) => id in c.closers && id in c.runs && c.runs[id].setupDone
  }

  function Apply(c: Controller, s: Step): Controller
    requires Enabled(c, s)
  {
    match s
    case OwnStep(id, side, eligible) => Own(c, id, side, eligible)
    case SetupStep(id, ok) => With(c, id, c.runs[id].(pc := if ok then Ready else SetupFailed, setupDone := true))
    case LeaveQueueStep(id) => MoveTo(LaneStep(c, id, L.CancelStep(id)), id, FailedOut)
    case OfferStep(id, cancelled) =>
      var l := LaneOf(c, c.runs[id].side);
      MoveTo(LaneStep(c, id, L.MakeEligibleStep(id, cancelled)), id, Awaiting(L.Eligible(l, id, cancelled)))
    case GrantedStep(id) => MoveTo(c, id, Working)
    case CancelledStep(id) => MoveTo(LaneStep(c, id, L.CancelStep(id)), id, Withdrawn)
    case ResolvedStep(id) => MoveTo(c, id, Returned(!c.runs[id].failed))
    case FinishStep(id) => MoveTo(Guard(c, id, !c.runs[id].pc.Working?), id, Finishing)
    case ReturnStep(id) => MoveTo(c, id, Returned(!c.runs[id].failed))
    case BodyStep(id, failed) => Body(c, id, failed)
    case ShutStep(poison) => Shut(c, poison)
    case CloserStep(id) => Guard(c, id, true).(closers := c.closers - {id})
  }

  ghost predicate Reached(states: seq<Controller>, steps: seq<Step>) {
    && |states| == |steps| + 1
    && (exists m: nat, n: nat, p: nat, q: nat :: states[0] == Init(L.New(m, n), L.New(p, q)))
    && forall i :: 0 <= i < |steps| ==> Enabled(states[i], steps[i]) && states[i + 1] == Apply(states[i], steps[i])
  }

  // ---------------------------------------------------------------- the invariant

  function One(b: bool): nat { if b then 1 else 0 }

  predicate AfterCall(t: Stage) { t.Called? || t.Completed? || t.Released? || t.Done? }

  predicate Waiting(pc: Pc) { pc.Setup? || pc.SetupFailed? || pc.Ready? || pc.Awaiting? }

  /** The run's thread before a grant: eligible exactly when it offered itself. */
  predicate QueuedOk(r: Run, v: L.Run) {
    r.stage.NotBegun? && !v.granted && Waiting(r.pc) && v.eligible == (r.pc == Awaiting(true))
  }

  predicate ExecutingOk(r: Run, v: L.Run) {
    v.granted && ((r.stage.NotBegun? && (r.pc == Awaiting(true) || r.pc.Working?)) ||
      (r.stage.Entered? && !r.before && r.pc.Finishing?))
  }

  /** Somebody is in the body, or is about to come to the guard. */
  predicate FinalizingOk(r: Run, v: L.Run, taken: bool) {
    || (r.stage.NotBegun? && !v.granted && (r.pc.FailedOut? || r.pc.Withdrawn? || (taken && Waiting(r.pc))))
    || (r.stage.Entered? && r.before)
    || r.stage.Finalizing? || r.stage.Called?
  }

  predicate Agrees(r: Run, v: L.Run, taken: bool) {
    match v.state
    case Queued => QueuedOk(r, v) && !taken
    case Executing => ExecutingOk(r, v) && !taken
    case Finalizing => FinalizingOk(r, v, taken)
    case Finished => r.stage.Completed? || r.stage.Released? || r.stage.Done?
  }

  predicate RunOk(r: Run, v: L.Run, taken: bool) {
    && Agrees(r, v, taken)
    && !r.stage.Refused?
    && r.calls == One(AfterCall(r.stage))
    && (r.setupDone <==> !r.pc.Setup?)
    && (!r.stage.NotBegun? ==> (r.before <==> !v.granted))
    && (taken ==> !v.granted)
    && (v.granted ==> r.pc == Awaiting(true) || r.pc.Working? || r.pc.Finishing? || r.pc.Returned?)
    && (v.granted && (r.pc.Awaiting? || r.pc.Working?) ==> r.stage.NotBegun?)
    && (AfterCall(r.stage) && r.before ==> r.failed)
    && (r.pc.Working? ==> v.granted) && (r.pc.Finishing? ==> !r.stage.NotBegun?)
    && (r.pc.Returned? ==> r.stage.Done? && (r.pc.ok ==> v.granted))
  }

  predicate RunAt(c: Controller, id: nat) {
    id in c.runs ==>
      var l := LaneOf(c, c.runs[id].side);
      id in l.runs && RunOk(c.runs[id], l.runs[id], id in c.closers)
  }

  predicate Owns(r: Run) { !r.stage.Released? && !r.stage.Done? }

  function Owners(runs: map<nat, Run>): set<nat> { set id | id in runs && Owns(runs[id]) }

  ghost predicate LanesOk(c: Controller) { L.Inv(c.blocking) && L.Inv(c.background) }

  /** Each lane knows only runs of its side, and both close when admission does. */
  ghost predicate SidesOk(c: Controller) { forall side :: SideOk(LaneOf(c, side), side, c.runs, c.closing) }

  ghost predicate SideOk(l: L.Lane, side: Side, runs: map<nat, Run>, closing: bool) {
    l.closed == closing && forall id :: id in l.runs ==> id in runs && runs[id].side == side
  }

  predicate DrainOk(c: Controller) {
    && c.drainOwned == |Owners(c.runs)|
    && c.drained == One(c.closing && c.drainOwned == 0)
    && (c.poisoned ==> c.closing)
  }

  ghost predicate Inv(c: Controller) {
    LanesOk(c) && SidesOk(c) && DrainOk(c) && (forall id :: RunAt(c, id)) && c.closers <= c.runs.Keys
  }

  // ---------------------------------------------------------------- one run

  lemma RunEvolves(r: Run, v: L.Run, w: L.Run, taken: bool)
    requires RunOk(r, v, taken) && L.Evolves(v, w)
    ensures RunOk(r, w, taken)
  {
  }

  /** A step on another run of any lane. */
  lemma OthersKeep(c: Controller, id: nat, s: L.Step, other: nat)
    requires RunAt(c, other) && other != id && id in c.runs && !s.CloseStep? && s.id == id
    requires !s.EnqueueStep? && id in LaneOf(c, c.runs[id].side).runs
    ensures RunAt(LaneStep(c, id, s), other)
  {
    hide L.Grant;
    if other in c.runs && c.runs[other].side == c.runs[id].side {
      var l := LaneOf(c, c.runs[id].side);
      L.StepLeaves(l, s, other);
      RunEvolves(c.runs[other], l.runs[other], L.Apply(l, s).runs[other], other in c.closers);
    }
  }

  lemma OwnRun(c: Controller, id: nat, side: Side, eligible: bool, other: nat)
    requires RunAt(c, other) && id !in c.runs && id !in c.closers
    ensures RunAt(Own(c, id, side, eligible), other)
  {
    hide L.Grant;
    var l := LaneOf(c, side);
    if !c.poisoned && L.Admits(l) {
      var s := L.EnqueueStep(id, eligible);
      assert L.Apply(l, s) == L.Enqueue(l, id, eligible);
      if other == id {
        L.StepActs(l, s);
        var r := Own(c, id, side, eligible).runs[id];
        RunEvolves(r, L.Acted(l, s), L.Apply(l, s).runs[id], false);
      } else if other in c.runs && c.runs[other].side == side {
        L.StepLeaves(l, s, other);
        RunEvolves(c.runs[other], l.runs[other], L.Apply(l, s).runs[other], other in c.closers);
      }
    }
  }

  lemma OthersMove(c: Controller, id: nat, s: L.Step, t: Run, other: nat)
    requires RunAt(c, other) && other != id && id in c.runs && !s.CloseStep? && s.id == id
    requires !s.EnqueueStep? && id in LaneOf(c, c.runs[id].side).runs
    ensures RunAt(With(LaneStep(c, id, s), id, t), other)
  {
    OthersKeep(c, id, s, other);
  }

  lemma LeaveQueueRun(c: Controller, id: nat, pc: Pc, other: nat)
    requires RunAt(c, id) && RunAt(c, other) && id in c.runs
    requires (At(c, id, SetupFailed) && pc.FailedOut?) || (InAwait(c, id) && Held(c, id).Queued? && pc.Withdrawn?)
    ensures RunAt(MoveTo(LaneStep(c, id, L.CancelStep(id)), id, pc), other)
  {
    if other != id {
      OthersMove(c, id, L.CancelStep(id), c.runs[id].(pc := pc), other);
    } else {
      LeaveQueueSelf(c, id, pc);
    }
  }

  lemma LeaveQueueSelf(c: Controller, id: nat, pc: Pc)
    requires RunAt(c, id) && id in c.runs
    requires (At(c, id, SetupFailed) && pc.FailedOut?) || (InAwait(c, id) && Held(c, id).Queued? && pc.Withdrawn?)
    ensures RunAt(MoveTo(LaneStep(c, id, L.CancelStep(id)), id, pc), id)
  {
    hide L.Grant;
    var l, s := LaneOf(c, c.runs[id].side), L.CancelStep(id);
    L.StepActs(l, s);
    CancelLocal(c.runs[id], l.runs[id], pc, id in c.closers);
  }

  lemma CancelLocal(r: Run, v: L.Run, pc: Pc, taken: bool)
    requires RunOk(r, v, taken) &&
      ((r.pc.SetupFailed? && pc.FailedOut?) || (r.pc.Awaiting? && v.state.Queued? && pc.Withdrawn?))
    ensures RunOk(r.(pc := pc), if v.state.Queued? then v.(state := L.Finalizing) else v, taken)
  {
  }

  lemma OfferLocal(r: Run, v: L.Run, w: L.Run, l: L.Lane, id: nat, cancelled: bool, taken: bool)
    requires RunOk(r, v, taken) && r.pc.Ready? && id in l.runs && v == l.runs[id]
    requires L.Evolves(L.Acted(l, L.MakeEligibleStep(id, cancelled)), w)
    ensures RunOk(r.(pc := Awaiting(L.Eligible(l, id, cancelled))), w, taken)
  {
    var r' := r.(pc := Awaiting(L.Eligible(l, id, cancelled)));
    RunEvolves(r', L.Acted(l, L.MakeEligibleStep(id, cancelled)), w, taken);
  }

  lemma OfferSelf(c: Controller, id: nat, cancelled: bool)
    requires RunAt(c, id) && At(c, id, Ready)
    ensures RunAt(Apply(c, OfferStep(id, cancelled)), id)
  {
    hide L.Grant;
    var l, s := LaneOf(c, c.runs[id].side), L.MakeEligibleStep(id, cancelled);
    L.StepActs(l, s);
    OfferLocal(c.runs[id], l.runs[id], L.Apply(l, s).runs[id], l, id, cancelled, id in c.closers);
  }

  lemma OfferRun(c: Controller, id: nat, cancelled: bool, other: nat)
    requires RunAt(c, id) && RunAt(c, other) && At(c, id, Ready)
    ensures RunAt(Apply(c, OfferStep(id, cancelled)), other)
  {
    var l := LaneOf(c, c.runs[id].side);
    if other != id {
      OthersMove(c, id, L.MakeEligibleStep(id, cancelled), c.runs[id].(pc := Awaiting(L.Eligible(l, id, cancelled))),
        other);
    } else {
      OfferSelf(c, id, cancelled);
    }
  }

  /** The parts of finish's body that do not touch the lane. */
  lemma BodyLocal(r: Run, v: L.Run, taken: bool, failed: bool)
    requires RunOk(r, v, taken)
    ensures r.stage.Entered? && r.before ==> RunOk(r.(stage := Finalizing), v, taken)
    ensures r.stage.Finalizing? ==>
      RunOk(r.(stage := Called, calls := r.calls + 1, failed := r.before || failed), v, taken)
    ensures r.stage.Completed? ==> RunOk(r.(stage := Released), v, taken)
    ensures r.stage.Released? ==> RunOk(r.(stage := Done), v, taken)
  {
  }

  /** The parts that do. */
  lemma BodyLaneLocal(r: Run, v: L.Run, taken: bool, failed: bool)
    requires RunOk(r, v, taken)
    ensures r.stage.Entered? && !r.before ==>
      v.state.Executing? && RunOk(r.(stage := Finalizing), v.(state := L.Finalizing), taken)
    ensures r.stage.Called? ==>
      v.state.Finalizing? && RunOk(r.(stage := Completed, failed := r.failed || failed), v.(state := L.Finished), taken)
  {
  }

  /** What the lane's counters and queue say of one run. */
  predicate Backed(c: Controller, id: nat) {
    id in c.runs ==>
      var l := LaneOf(c, c.runs[id].side);
      var o := LaneOf(c, if c.runs[id].side.Blocking? then Background else Blocking);
      && id in l.runs && id !in o.queue
      && (l.runs[id].state.Executing? ==> l.executing > 0) && (l.runs[id].state.Finalizing? ==> l.owned > 0)
      && (id in l.queue <==> l.runs[id].state.Queued?) && (l.closed ==> l.queue == [])
  }

  lemma BodyRun(c: Controller, id: nat, failed: bool, other: nat)
    requires RunAt(c, id) && RunAt(c, other) && id in c.runs && Backed(c, id)
    ensures RunAt(Body(c, id, failed), other)
  {
    var r := c.runs[id];
    if r.stage.Entered? && !r.before {
      BeginRun(c, id, other);
    } else if r.stage.Called? {
      CompleteRun(c, id, r.failed || failed, other);
    } else {
      BodyQuiet(c, id, failed, other);
    }
  }

  /** The turns of the finish body that do not reach the lane. */
  lemma BodyQuiet(c: Controller, id: nat, failed: bool, other: nat)
    requires RunAt(c, id) && RunAt(c, other) && id in c.runs && Backed(c, id)
    requires !(c.runs[id].stage.Entered? && !c.runs[id].before) && !c.runs[id].stage.Called?
    ensures RunAt(Body(c, id, failed), other)
  {
    var r := c.runs[id];
    BodyKeepsLanes(c, id, failed);
    BodyKeepsSide(c, id, failed);
    if other == id {
      BodyLocal(r, LaneOf(c, r.side).runs[id], id in c.closers, failed);
    } else {
      BodySparesOthers(c, id, failed, other);
    }
  }

  lemma BodySparesOthers(c: Controller, id: nat, failed: bool, other: nat)
    requires id in c.runs && other != id
    ensures
      var d := Body(c, id, failed);
      (other in d.runs <==> other in c.runs) && (other in c.runs ==> d.runs[other] == c.runs[other])
  {
    match c.runs[id].stage
    case Entered =>
    case Called =>
    case _ =>
  }

  lemma BodyKeepsLanes(c: Controller, id: nat, failed: bool)
    requires id in c.runs && !(c.runs[id].stage.Entered? && !c.runs[id].before) && !c.runs[id].stage.Called?
    ensures var d := Body(c, id, failed);
      d.blocking == c.blocking && d.background == c.background && d.closers == c.closers
  {
  }

  lemma BeginRun(c: Controller, id: nat, other: nat)
    requires RunAt(c, id) && RunAt(c, other) && id in c.runs && Backed(c, id) && c.runs[id].stage.Entered? &&
      !c.runs[id].before
    ensures Held(c, id).Executing?
    ensures RunAt(With(LaneStep(c, id, L.BeginFinalizingStep(id)), id, c.runs[id].(stage := Finalizing)), other)
  {
    var l, s := LaneOf(c, c.runs[id].side), L.BeginFinalizingStep(id);
    BodyLaneLocal(c.runs[id], l.runs[id], id in c.closers, false);
    if other != id { OthersKeep(c, id, s, other); } else { L.StepActs(l, s); }
  }

  lemma CompleteRun(c: Controller, id: nat, failed: bool, other: nat)
    requires RunAt(c, id) && RunAt(c, other) && id in c.runs && Backed(c, id) && c.runs[id].stage.Called?
    requires c.runs[id].failed ==> failed
    ensures RunAt(With(LaneStep(c, id, L.CompleteStep(id)), id, c.runs[id].(stage := Completed, failed := failed)),
      other)
  {
    hide L.Grant;
    var l, s := LaneOf(c, c.runs[id].side), L.CompleteStep(id);
    BodyLaneLocal(c.runs[id], l.runs[id], id in c.closers, failed);
    if other != id { OthersKeep(c, id, s, other); } else { L.StepActs(l, s); }
  }

  lemma InQueue(l: L.Lane, id: nat)
    requires L.Inv(l)
    ensures id in l.queue <==> L.IsQueued(l, id)
    ensures id in l.runs && l.runs[id].state.Executing? ==> l.executing > 0
    ensures id in l.runs && l.runs[id].state.Finalizing? ==> l.owned > 0
  {
    if id in l.runs && l.runs[id].state.Executing? { assert id in L.Working(l.runs); }
    if id in l.runs && l.runs[id].state.Finalizing? { assert id in L.Owned(l.runs); }
  }

  lemma IsBacked(c: Controller, id: nat)
    requires LanesOk(c) && SidesOk(c) && RunAt(c, id)
    ensures Backed(c, id)
  {
    assert SideOk(LaneOf(c, Blocking), Blocking, c.runs, c.closing) &&
      SideOk(LaneOf(c, Background), Background, c.runs, c.closing);
    InQueue(c.blocking, id);
    InQueue(c.background, id);
  }

  lemma ShutLocal(r: Run, v: L.Run, taken: bool)
    requires RunOk(r, v, taken)
    ensures RunOk(r, L.Evicted(v, v.state.Queued?), taken || v.state.Queued?)
  {
  }

  lemma ShutRun(c: Controller, poison: bool, id: nat)
    requires RunAt(c, id) && Backed(c, id)
    ensures RunAt(Shut(c, poison), id)
  {
    if id in c.runs {
      var l := LaneOf(c, c.runs[id].side);
      ShutLocal(c.runs[id], l.runs[id], id in c.closers);
      ShutClosers(c, poison, id);
      assert LaneOf(Shut(c, poison), c.runs[id].side) == L.Close(l);
      assert L.Close(l).runs[id] == L.Evicted(l.runs[id], l.runs[id].state.Queued?);
    }
  }

  lemma ShutClosers(c: Controller, poison: bool, id: nat)
    requires id in c.runs && Backed(c, id)
    ensures id in Shut(c, poison).closers <==> id in c.closers || LaneOf(c, c.runs[id].side).runs[id].state.Queued?
  {
  }

  /** The steps of a run's own thread, and of a closer, that touch no lane. */
  lemma SimpleLocal(c: Controller, s: Step)
    requires s.SetupStep? || s.GrantedStep? || s.ResolvedStep? || s.FinishStep? || s.ReturnStep? || s.CloserStep?
    requires Enabled(c, s) && RunAt(c, s.id)
    ensures
      var d := Apply(c, s);
      RunOk(d.runs[s.id], LaneOf(c, c.runs[s.id].side).runs[s.id], s.id in d.closers)
  {
    hide L.Grant;
  }

  lemma SimpleRun(c: Controller, s: Step, id: nat)
    requires s.SetupStep? || s.GrantedStep? || s.ResolvedStep? || s.FinishStep? || s.ReturnStep? || s.CloserStep?
    requires Enabled(c, s) && RunAt(c, s.id) && RunAt(c, id)
    ensures RunAt(Apply(c, s), id)
  {
    SimpleFrame(c, s);
    if id == s.id { SimpleLocal(c, s); }
  }

  /** These steps leave the lanes, every other run and every side alone. */
  lemma SimpleFrame(c: Controller, s: Step)
    requires s.SetupStep? || s.GrantedStep? || s.ResolvedStep? || s.FinishStep? || s.ReturnStep? || s.CloserStep?
    requires Enabled(c, s)
    ensures
      var d := Apply(c, s);
      && d.blocking == c.blocking && d.background == c.background && d.runs.Keys == c.runs.Keys && s.id in c.runs
      && d.runs[s.id].side == c.runs[s.id].side
      && forall id :: id != s.id && id in c.runs ==> d.runs[id] == c.runs[id] && (id in d.closers <==> id in c.closers)
  {
    match s
    case CloserStep(_) =>
    case FinishStep(_) =>
    case _ =>
  }

  lemma StepRun(c: Controller, s: Step, id: nat)
    requires Enabled(c, s) && RunAt(c, id) && Backed(c, id) && c.closers <= c.runs.Keys
    requires !s.ShutStep? ==> RunAt(c, s.id) && Backed(c, s.id)
    ensures RunAt(Apply(c, s), id)
  {
    match s
    case OwnStep(other, side, eligible) => OwnRun(c, other, side, eligible, id);
    case LeaveQueueStep(other) => LeaveQueueRun(c, other, FailedOut, id);
    case OfferStep(other, cancelled) => OfferRun(c, other, cancelled, id);
    case CancelledStep(other) => LeaveQueueRun(c, other, Withdrawn, id);
    case BodyStep(other, failed) => BodyRun(c, other, failed, id);
    case ShutStep(poison) => ShutRun(c, poison, id);
    case _ => SimpleRun(c, s, id);
  }

  // ---------------------------------------------------------------- lanes and draining

  function Moved(l: L.Lane, m: Option<L.Step>): L.Lane { if m.None? then l else L.Apply(l, m.value) }

  /** What a step of the controller does to one of its lanes. */
  function LaneMove(c: Controller, s: Step, side: Side): Option<L.Step>
    requires Enabled(c, s)
  {
    if s.ShutStep? then Some(L.CloseStep)
    else if s.OwnStep? then
      if s.side == side && !c.poisoned && L.Admits(LaneOf(c, side))
      then Some(L.EnqueueStep(s.id, s.eligible))
      else None
    else if c.runs[s.id].side != side then None
    else if s.LeaveQueueStep? || s.CancelledStep? then Some(L.CancelStep(s.id))
    else if s.OfferStep? then Some(L.MakeEligibleStep(s.id, s.cancelled))
    else if s.BodyStep? && c.runs[s.id].stage.Entered? && !c.runs[s.id].before && Held(c, s.id).Executing?
    then Some(L.BeginFinalizingStep(s.id))
    else if s.BodyStep? && c.runs[s.id].stage.Called? then Some(L.CompleteStep(s.id))
    else None
  }

  lemma LaneMoves(c: Controller, s: Step, side: Side)
    requires Enabled(c, s)
    ensures LaneOf(Apply(c, s), side) == Moved(LaneOf(c, side), LaneMove(c, s, side))
  {
    hide L.Grant;
  }

  lemma BodyMoves(c: Controller, id: nat, failed: bool)
    requires id in c.runs
    ensures var d := Body(c, id, failed); id in d.runs && d.runs == c.runs[id := d.runs[id]] && d.closing == c.closing
  {
  }

  lemma ShutMoves(c: Controller, poison: bool)
    ensures Shut(c, poison).runs == c.runs && Shut(c, poison).closing
  {
  }

  /** What a step does to the map of runs. */
  lemma RunsMove(c: Controller, s: Step)
    requires Enabled(c, s)
    ensures Apply(c, s).closing == (c.closing || s.ShutStep?)
    ensures s.ShutStep? || s.id !in Apply(c, s).runs ==> Apply(c, s).runs == c.runs
    ensures !s.ShutStep? && s.id in Apply(c, s).runs ==> Apply(c, s).runs == c.runs[s.id := Apply(c, s).runs[s.id]]
  {
    hide L.Grant;
    match s
    case BodyStep(id, failed) => BodyMoves(c, id, failed);
    case ShutStep(poison) => ShutMoves(c, poison);
    case _ =>
  }

  lemma SideStays(c: Controller, s: Step)
    requires Enabled(c, s) && !s.ShutStep? && s.id in Apply(c, s).runs
    ensures s.id in c.runs ==> Apply(c, s).runs[s.id].side == c.runs[s.id].side
    ensures s.id !in c.runs ==> s.OwnStep? && Apply(c, s).runs[s.id].side == s.side
  {
    match s
    case OwnStep(_, _, _) =>
    case BodyStep(id, failed) => BodyKeepsSide(c, id, failed);
    case LeaveQueueStep(_) =>
    case OfferStep(_, _) =>
    case CancelledStep(_) =>
    case _ =>
  }

  lemma BodyKeepsSide(c: Controller, id: nat, failed: bool)
    requires id in c.runs
    ensures var d := Body(c, id, failed); id in d.runs && d.runs[id].side == c.runs[id].side
  {
    match c.runs[id].stage
    case Entered =>
    case Called =>
    case _ =>
  }

  lemma OwnEnters(c: Controller, s: Step)
    requires s.OwnStep? && Enabled(c, s)
    ensures s.id in Apply(c, s).runs <==> !c.poisoned && L.Admits(LaneOf(c, s.side))
  {
  }

  lemma MovedInv(l: L.Lane, m: Option<L.Step>)
    requires L.Inv(l) && (m.Some? ==> L.Enabled(l, m.value))
    ensures L.Inv(Moved(l, m))
  {
    if m.Some? { L.StepKeeps(l, m.value); }
  }

  lemma MovedSide(l: L.Lane, m: Option<L.Step>)
    requires m.Some? && !m.value.CloseStep? ==> if m.value.EnqueueStep? then L.Admits(l) else m.value.id in l.runs
    ensures Moved(l, m).closed == (l.closed || m == Some(L.CloseStep))
    ensures Moved(l, m).runs.Keys == l.runs.Keys + if m.Some? && m.value.EnqueueStep? then {m.value.id} else {}
  {
    if m.Some? && !m.value.CloseStep? { L.StepActs(l, m.value); }
  }

  lemma StepLanes(c: Controller, s: Step)
    requires LanesOk(c) && SidesOk(c) && Enabled(c, s)
    ensures LanesOk(Apply(c, s))
  {
    LaneMoves(c, s, Blocking);
    LaneMoves(c, s, Background);
    NotThere(c, s, Blocking);
    NotThere(c, s, Background);
    MovedInv(c.blocking, LaneMove(c, s, Blocking));
    MovedInv(c.background, LaneMove(c, s, Background));
  }

  lemma NotThere(c: Controller, s: Step, side: Side)
    requires SidesOk(c) && Enabled(c, s)
    ensures LaneMove(c, s, side).Some? ==> L.Enabled(LaneOf(c, side), LaneMove(c, s, side).value)
  {
    assert SideOk(LaneOf(c, side), side, c.runs, c.closing);
  }

  lemma StepSide(c: Controller, s: Step, side: Side)
    requires SidesOk(c) && Enabled(c, s) && (!s.ShutStep? && !s.OwnStep? ==> RunAt(c, s.id))
    ensures SideOk(LaneOf(Apply(c, s), side), side, Apply(c, s).runs, Apply(c, s).closing)
  {
    hide Apply, Moved, RunOk;
    assert SideOk(LaneOf(c, side), side, c.runs, c.closing);
    LaneMoves(c, s, side);
    MovedSide(LaneOf(c, side), LaneMove(c, s, side));
    RunsMove(c, s);
    if s.OwnStep? { OwnEnters(c, s); }
    if !s.ShutStep? && s.id in Apply(c, s).runs { SideStays(c, s); }
  }

  lemma OwnersPut(runs: map<nat, Run>, id: nat, r: Run)
    ensures |Owners(runs[id := r])| + One(id in runs && Owns(runs[id])) == |Owners(runs)| + One(Owns(r))
  {
    var rest := Owners(runs) - {id};
    assert Owners(runs[id := r]) == if Owns(r) then rest + {id} else rest;
    assert Owners(runs) == if id in runs && Owns(runs[id]) then rest + {id} else rest;
  }

  lemma BodyDrains(c: Controller, id: nat, failed: bool)
    requires id in c.runs && (Owns(c.runs[id]) ==> c.drainOwned > 0)
    ensures var d := Body(c, id, failed);
      id in d.runs && d.drainOwned + One(Owns(c.runs[id])) == c.drainOwned + One(Owns(d.runs[id]))
  {
    match c.runs[id].stage
    case Entered =>
    case Called =>
    case Completed =>
    case Refused =>
    case _ =>
  }

  /** How a step changes the drain count: by what it does to its run's ownership. */
  lemma DrainMoves(c: Controller, s: Step)
    requires Enabled(c, s) && !s.ShutStep? && (s.id in c.runs && Owns(c.runs[s.id]) ==> c.drainOwned > 0)
    ensures
      var d := Apply(c, s);
      d.drainOwned + One(s.id in c.runs && Owns(c.runs[s.id])) ==
        c.drainOwned + One(s.id in d.runs && Owns(d.runs[s.id]))
  {
    if s.BodyStep? { BodyDrains(c, s.id, s.failed); }
  }

  lemma StepDrain(c: Controller, s: Step)
    requires DrainOk(c) && SidesOk(c) && Enabled(c, s)
    ensures DrainOk(Apply(c, s))
  {
    var d := Apply(c, s);
    RunsMove(c, s);
    if !s.ShutStep? {
      if s.id in c.runs && Owns(c.runs[s.id]) { assert s.id in Owners(c.runs); }
      DrainMoves(c, s);
      if s.id in d.runs { OwnersPut(c.runs, s.id, d.runs[s.id]); }
    }
    assert SideOk(LaneOf(c, Blocking), Blocking, c.runs, c.closing) &&
      SideOk(LaneOf(c, Background), Background, c.runs, c.closing);
    StepSignal(c, s);
  }

  lemma StepSignal(c: Controller, s: Step)
    requires Enabled(c, s) && c.drained == One(c.closing && c.drainOwned == 0) && (c.poisoned ==> c.closing)
    requires c.blocking.closed == c.closing && c.background.closed == c.closing
    ensures
      var d := Apply(c, s);
      (c.closing ==> d.drainOwned <= c.drainOwned) && d.drained == One(d.closing && d.drainOwned == 0) &&
        (d.poisoned ==> d.closing)
  {
    match s
    case OwnStep(_, _, _) =>
    case BodyStep(id, failed) => BodySignal(c, id, failed);
    case LeaveQueueStep(_) =>
    case OfferStep(_, _) =>
    case CancelledStep(_) =>
    case ShutStep(_) =>
    case _ =>
  }

  lemma BodySignal(c: Controller, id: nat, failed: bool)
    requires id in c.runs && c.drained == One(c.closing && c.drainOwned == 0)
    ensures
      var d := Body(c, id, failed);
      && d.drainOwned <= c.drainOwned && d.closing == c.closing && d.poisoned == c.poisoned
      && d.drained == One(d.closing && d.drainOwned == 0)
  {
    match c.runs[id].stage
    case Entered =>
    case Called =>
    case Completed =>
    case Refused =>
    case _ =>
  }

  lemma StepClosers(c: Controller, s: Step)
    requires c.closers <= c.runs.Keys && Enabled(c, s)
    requires forall id :: id in c.blocking.queue || id in c.background.queue ==> id in c.runs
    ensures Apply(c, s).closers <= Apply(c, s).runs.Keys
  {
    RunsMove(c, s);
    ClosersMove(c, s);
  }

  lemma ClosersMove(c: Controller, s: Step)
    requires Enabled(c, s)
    ensures forall id :: id in Apply(c, s).closers ==>
      id in c.closers || (s.ShutStep? && (id in c.blocking.queue || id in c.background.queue))
  {
  }

  lemma QueuesHold(c: Controller, id: nat)
    requires LanesOk(c) && SidesOk(c)
    ensures id in c.blocking.queue || id in c.background.queue ==> id in c.runs
  {
    assert SideOk(LaneOf(c, Blocking), Blocking, c.runs, c.closing) &&
      SideOk(LaneOf(c, Background), Background, c.runs, c.closing);
    InQueue(c.blocking, id);
    InQueue(c.background, id);
  }

  lemma StepKeeps(c: Controller, s: Step)
    requires Inv(c) && Enabled(c, s)
    ensures Inv(Apply(c, s))
  {
    if !s.ShutStep? {
      assert RunAt(c, s.id);
      IsBacked(c, s.id);
    }
    StepLanes(c, s);
    forall side ensures SideOk(LaneOf(Apply(c, s), side), side, Apply(c, s).runs, Apply(c, s).closing) {
      StepSide(c, s, side);
    }
    StepDrain(c, s);
    forall id | id in c.blocking.queue || id in c.background.queue ensures id in c.runs {
      QueuesHold(c, id);
    }
    StepClosers(c, s);
    forall id ensures RunAt(Apply(c, s), id) {
      assert RunAt(c, id);
      IsBacked(c, id);
      StepRun(c, s, id);
    }
  }

  lemma {:induction false} RunKeeps(states: seq<Controller>, steps: seq<Step>, i: nat)
    requires Reached(states, steps) && i < |states|
    ensures Inv(states[i])
  {
    if i == 0 {
      assert L.Working(map[]) == {} && L.Owned(map[]) == {} && Owners(map[]) == {};
    } else {
      RunKeeps(states, steps, i - 1);
      StepKeeps(states[i - 1], steps[i - 1]);
    }
  }

  // ---------------------------------------------------------------- the main results

  lemma RunFacts(states: seq<Controller>, steps: seq<Step>, i: nat, id: nat)
    requires Reached(states, steps) && i < |states| && id in states[i].runs
    ensures RunAt(states[i], id)
  {
    RunKeeps(states, steps, i);
  }

  /** Across grant, cancellation, close, poison and setup failure the finalizer of an owned run is called
      at most once, and has been called exactly once when the run is done. */
  lemma FinalizerExactlyOnce(states: seq<Controller>, steps: seq<Step>, i: nat, id: nat)
    requires Reached(states, steps) && i < |states| && id in states[i].runs
    ensures states[i].runs[id].calls <= 1
    ensures states[i].runs[id].stage.Done? || states[i].runs[id].pc.Returned? ==> states[i].runs[id].calls == 1
    ensures !states[i].runs[id].stage.Refused?
  {
    RunFacts(states, steps, i, id);
  }

  /** Waiting gives no error only for a granted run, and so does the whole call. */
  lemma NoErrorOnlyIfGranted(states: seq<Controller>, steps: seq<Step>, i: nat, id: nat)
    requires Reached(states, steps) && i < |states| && id in states[i].runs
    requires states[i].runs[id].pc.Working? || states[i].runs[id].pc == Returned(true)
    ensures
      var l := LaneOf(states[i], states[i].runs[id].side);
      id in l.runs && l.runs[id].granted && l.runs[id].eligible
  {
    RunKeeps(states, steps, i);
    assert RunAt(states[i], id);
  }

  /** A run that is owned and not done has somebody to bring it on: it is queued or executing with its own
      thread, or the body of finish has begun, or its thread or a closer is about to begin it. */
  lemma NobodyIsForgotten(states: seq<Controller>, steps: seq<Step>, i: nat, id: nat)
    requires Reached(states, steps) && i < |states| && id in states[i].runs && states[i].runs[id].stage.NotBegun?
    ensures
      var c := states[i];
      || Held(c, id).Queued? || Held(c, id).Executing?
      || c.runs[id].pc.FailedOut? || c.runs[id].pc.Withdrawn? || id in c.closers
  {
    RunFacts(states, steps, i, id);
  }

  /** The drain signal is given at most once, and exactly when admission has closed and every run ever
      owned has been finalized, cleaned up and completed. */
  lemma DrainedMeansFinished(states: seq<Controller>, steps: seq<Step>, i: nat)
    requires Reached(states, steps) && i < |states|
    ensures states[i].drained <= 1
    ensures states[i].drained == 1 <==>
      states[i].closing && forall id :: id in states[i].runs ==> !Owns(states[i].runs[id])
    ensures states[i].drained == 1 ==>
      forall id :: id in states[i].runs ==> states[i].runs[id].calls == 1 && Held(states[i], id).Finished?
  {
    RunKeeps(states, steps, i);
    var c := states[i];
    NoOwners(c.runs);
    if c.drained == 1 {
      forall id | id in c.runs ensures c.runs[id].calls == 1 && Held(c, id).Finished? {
        assert RunAt(c, id);
        assert !Owns(c.runs[id]);
      }
    }
  }

  lemma NoOwners(runs: map<nat, Run>)
    ensures |Owners(runs)| == 0 <==> forall id :: id in runs ==> !Owns(runs[id])
  {
    if |Owners(runs)| == 0 {
      assert forall id :: id in runs && Owns(runs[id]) ==> id in Owners(runs);
    } else {
      var id :| id in Owners(runs);
    }
  }

  /** Once admission has closed nothing is owned any more. */
  lemma NothingOwnedAfterClose(states: seq<Controller>, steps: seq<Step>, i: nat)
    requires Reached(states, steps) && i < |steps| && states[i].closing
    ensures states[i + 1].closing && states[i + 1].runs.Keys == states[i].runs.Keys &&
      states[i + 1].drainOwned <= states[i].drainOwned
  {
    RunKeeps(states, steps, i);
    var c, s := states[i], steps[i];
    assert SideOk(LaneOf(c, Blocking), Blocking, c.runs, c.closing) &&
      SideOk(LaneOf(c, Background), Background, c.runs, c.closing);
    RunsMove(c, s);
    StepSignal(c, s);
    if !s.ShutStep? && s.id in Apply(c, s).runs { SideStays(c, s); }
    if s.OwnStep? { OwnEnters(c, s); }
  }

  // ---------------------------------------------------------------- what the call reports

  /** The finalizer, or the outcome it was given, or the cleanup was a failure. */
  ghost predicate CallFailed(states: seq<Controller>, steps: seq<Step>, k: nat, id: nat)
    requires k <= |steps| && |states| == |steps| + 1
  {
    exists j :: 0 <= j < k && steps[j] == BodyStep(id, true) && id in states[j].runs &&
                (states[j].runs[id].stage.Finalizing? || states[j].runs[id].stage.Called?)
  }

  lemma CallFailedGrows(states: seq<Controller>, steps: seq<Step>, k: nat, id: nat)
    requires k < |steps| && |states| == |steps| + 1
    ensures CallFailed(states, steps, k + 1, id) <==>
      || CallFailed(states, steps, k, id)
      || (steps[k] == BodyStep(id, true) && id in states[k].runs &&
          (states[k].runs[id].stage.Finalizing? || states[k].runs[id].stage.Called?))
  {
    if CallFailed(states, steps, k, id) {
      var j :| 0 <= j < k && steps[j] == BodyStep(id, true) && id in states[j].runs &&
               (states[j].runs[id].stage.Finalizing? || states[j].runs[id].stage.Called?);
      assert j < k + 1;
    }
  }

  /** What a step other than the body's does to the report of a run. */
  predicate Reports(r: Run, t: Run) {
    && t.failed == r.failed
    && ((t.stage == r.stage && t.before == r.before) || (r.stage.NotBegun? && t.stage.Entered?))
    && (t.pc.Returned? ==> t.pc == r.pc || (r.stage.Done? && t.pc.ok == !r.failed))
  }

  lemma OtherReports(c: Controller, s: Step, id: nat)
    requires Enabled(c, s) && id in c.runs && !(s.BodyStep? && s.id == id)
    ensures id in Apply(c, s).runs && Reports(c.runs[id], Apply(c, s).runs[id])
  {
    hide L.Grant;
    match s
    case BodyStep(other, failed) => BodyMoves(c, other, failed);
    case OwnStep(other, side, eligible) =>
    case LeaveQueueStep(other) =>
    case OfferStep(other, cancelled) =>
    case CancelledStep(other) =>
    case FinishStep(other) =>
    case CloserStep(other) =>
    case ShutStep(poison) =>
    case _ =>
  }

  lemma BodyReports(c: Controller, id: nat, failed: bool)
    requires id in c.runs
    ensures
      var r, d := c.runs[id], Body(c, id, failed);
      id in d.runs &&
      var t := d.runs[id];
      && t.before == r.before && t.pc == r.pc
      && (r.stage.Finalizing? ==> t.stage.Called? && t.failed == (r.before || failed))
      && (r.stage.Called? ==> t.stage.Completed? && t.failed == (r.failed || failed))
      && (r.stage.NotBegun? ==> t.stage.NotBegun?)
      && (r.stage.Entered? ==> t.stage.Finalizing? || t.stage.Refused?)
      && (r.stage.Completed? || r.stage.Released? || r.stage.Done? ==>
        t.failed == r.failed && (t.stage.Released? || t.stage.Done?))
  {
    hide L.Grant;
    BodyMoves(c, id, failed);
  }

  /** The flag a run carries is what its report is made of. */
  ghost predicate ReportIs(states: seq<Controller>, steps: seq<Step>, k: nat, id: nat)
    requires k <= |steps| && |states| == |steps| + 1
  {
    if id !in states[k].runs then !CallFailed(states, steps, k, id)
    else
      var r := states[k].runs[id];
      && (!AfterCall(r.stage) ==> !CallFailed(states, steps, k, id))
      && (AfterCall(r.stage) ==> (r.failed <==> r.before || CallFailed(states, steps, k, id)))
      && (r.pc.Returned? ==> r.pc.ok == !r.failed)
  }

  lemma ReportGrows(states: seq<Controller>, steps: seq<Step>, k: nat, id: nat)
    requires Reached(states, steps) && k < |steps| && ReportIs(states, steps, k, id)
    ensures ReportIs(states, steps, k + 1, id)
  {
    var c, s := states[k], steps[k];
    CallFailedGrows(states, steps, k, id);
    if id in c.runs {
      RunFacts(states, steps, k, id);
      RunsGrow(c, s, id);
      RunFacts(states, steps, k + 1, id);
      if s.BodyStep? && s.id == id { BodyReports(c, id, s.failed); } else { OtherReports(c, s, id); }
    } else if id in states[k + 1].runs {
      NewRun(c, s, id);
    }
  }

  lemma RunsGrow(c: Controller, s: Step, id: nat)
    requires Enabled(c, s) && id in c.runs
    ensures id in Apply(c, s).runs
  {
    if s.BodyStep? { BodyMoves(c, s.id, s.failed); }
  }

  lemma NewRun(c: Controller, s: Step, id: nat)
    requires Enabled(c, s) && id !in c.runs && id in Apply(c, s).runs
    ensures s.OwnStep? && Apply(c, s).runs[id].stage.NotBegun? && !Apply(c, s).runs[id].pc.Returned?
  {
    if s.BodyStep? { BodyMoves(c, s.id, s.failed); }
  }

  lemma {:induction false} ReportsAre(states: seq<Controller>, steps: seq<Step>, k: nat, id: nat)
    requires Reached(states, steps) && k < |states|
    ensures ReportIs(states, steps, k, id)
  {
    if k > 0 {
      ReportsAre(states, steps, k - 1, id);
      ReportGrows(states, steps, k - 1, id);
    }
  }

  /** The call reports an error if and only if the run was not granted, or the work, its finalizer or the
      cleanup failed. */
  lemma ErrorIff(states: seq<Controller>, steps: seq<Step>, k: nat, id: nat)
    requires Reached(states, steps) && k < |states| && id in states[k].runs && states[k].runs[id].pc.Returned?
    ensures
      var l := LaneOf(states[k], states[k].runs[id].side);
      id in l.runs && (states[k].runs[id].pc.ok <==> l.runs[id].granted && !CallFailed(states, steps, k, id))
  {
    RunFacts(states, steps, k, id);
    ReportsAre(states, steps, k, id);
  }

  /** A run is owned if and only if nothing poisoned or closed the controller before and its lane has a place. */
  lemma OwnedIff(states: seq<Controller>, steps: seq<Step>, k: nat)
    requires Reached(states, steps) && k < |steps| && steps[k].OwnStep?
    ensures
      var l := LaneOf(states[k], steps[k].side);
      steps[k].id in states[k + 1].runs <==> !states[k].closing && |L.Unfinished(l)| < l.capacity
    ensures states[k].closing <==> exists j :: 0 <= j < k && steps[j].ShutStep?
  {
    RunKeeps(states, steps, k);
    var c, s := states[k], steps[k];
    var l := LaneOf(c, s.side);
    assert SideOk(l, s.side, c.runs, c.closing);
    assert L.Unfinished(l) == L.Owned(l.runs);
    ClosingIs(states, steps, k);
  }

  lemma {:induction false} ClosingIs(states: seq<Controller>, steps: seq<Step>, k: nat)
    requires Reached(states, steps) && k < |states|
    ensures states[k].closing <==> exists j :: 0 <= j < k && steps[j].ShutStep?
  {
    if k > 0 {
      ClosingIs(states, steps, k - 1);
      ClosingStep(states[k - 1], steps[k - 1]);
    }
  }

  lemma ClosingStep(c: Controller, s: Step)
    requires Enabled(c, s)
    ensures Apply(c, s).closing <==> c.closing || s.ShutStep?
  {
    if s.BodyStep? { BodyMoves(c, s.id, s.failed); }
  }
}
