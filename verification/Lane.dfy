/** One hustle lane (internal/hustleruntime/lane.go): a bounded FIFO scheduler whose head waits until it
    is eligible. */
module Lane {

  datatype State = Queued | Executing | Finalizing | Finished

  /** What the lane keeps of a run. `granted` is its grant channel, closed. */
  datatype Run = Run(order: nat, state: State, eligible: bool, granted: bool)

  datatype Lane = Lane(
    concurrent: nat, capacity: nat, closed: bool, owned: nat, executing: nat, nextOrder: nat,
    queue: seq<nat>, runs: map<nat, Run>)

  function New(concurrent: nat, queued: nat): Lane { Lane(concurrent, concurrent + queued, false, 0, 0, 0, [], map[]) }

  // ---------------------------------------------------------------- the operations

  /** `grantLocked`. A popped run that is not queued is skipped. */
  function Grant(l: Lane): Lane
    decreases |l.queue|
  {
    if l.closed || l.executing >= l.concurrent || l.queue == [] then l
    else
      var id := l.queue[0];
      if id !in l.runs || !l.runs[id].eligible then l
      else if !l.runs[id].state.Queued? then Grant(l.(queue := l.queue[1..]))
      else Grant(GrantFirst(l))
  }

  function GrantFirst(l: Lane): Lane
    requires l.queue != [] && l.queue[0] in l.runs
  {
    var id := l.queue[0];
    l.(queue := l.queue[1..], executing := l.executing + 1,
      runs := l.runs[id := l.runs[id].(state := Executing, granted := true)])
  }

  predicate Admits(l: Lane) { !l.closed && l.owned < l.capacity }

  function Enter(l: Lane, id: nat, eligible: bool): Lane {
    l.(nextOrder := l.nextOrder + 1, owned := l.owned + 1, queue := l.queue + [id],
       runs := l.runs[id := Run(l.nextOrder + 1, Queued, eligible, false)])
  }

  function Enqueue(l: Lane, id: nat, eligible: bool): Lane {
    if Admits(l) then Grant(Enter(l, id, eligible)) else l
  }

  predicate Eligible(l: Lane, id: nat, cancelled: bool) {
    !l.closed && id in l.runs && l.runs[id].state.Queued? && !cancelled
  }

  function Mark(l: Lane, id: nat): Lane
    requires id in l.runs
  {
    l.(runs := l.runs[id := l.runs[id].(eligible := true)])
  }

  function MakeEligible(l: Lane, id: nat, cancelled: bool): Lane {
    if Eligible(l, id, cancelled) then Grant(Mark(l, id)) else l
  }

  function Remove(queue: seq<nat>, id: nat): seq<nat> {
    if queue == [] then [] else if queue[0] == id then queue[1..] else [queue[0]] + Remove(queue[1..], id)
  }

  predicate IsQueued(l: Lane, id: nat) { id in l.runs && l.runs[id].state.Queued? }

  function Withdraw(l: Lane, id: nat): Lane
    requires id in l.runs
  {
    l.(queue := Remove(l.queue, id), runs := l.runs[id := l.runs[id].(state := Finalizing)])
  }

  function CancelQueued(l: Lane, id: nat): Lane { if IsQueued(l, id) then Grant(Withdraw(l, id)) else l }

  predicate IsExecuting(l: Lane, id: nat) { id in l.runs && l.runs[id].state.Executing? && l.executing > 0 }

  function Yield(l: Lane, id: nat): Lane
    requires IsExecuting(l, id)
  {
    l.(executing := l.executing - 1, runs := l.runs[id := l.runs[id].(state := Finalizing)])
  }

  function BeginFinalizing(l: Lane, id: nat): Lane { if IsExecuting(l, id) then Grant(Yield(l, id)) else l }

  function Complete(l: Lane, id: nat): Lane {
    if id in l.runs && l.runs[id].state.Finalizing? && l.owned > 0
    then l.(owned := l.owned - 1, runs := l.runs[id := l.runs[id].(state := Finished)])
    else l
  }

  function Close(l: Lane): Lane {
    if l.closed then l
    else l.(closed := true, queue := [],
            runs := map id | id in l.runs :: Evicted(l.runs[id], id in l.queue))
  }

  function Evicted(r: Run, inQueue: bool): Run { if inQueue && r.state.Queued? then r.(state := Finalizing) else r }

  // ---------------------------------------------------------------- runs of a lane

  datatype Step =
    | EnqueueStep(id: nat, eligible: bool)
    | MakeEligibleStep(id: nat, cancelled: bool)
    | CancelStep(id: nat)
    | BeginFinalizingStep(id: nat)
    | CompleteStep(id: nat)
    | CloseStep

  /** A run is enqueued once. */
  predicate Enabled(l: Lane, s: Step) { s.EnqueueStep? ==> s.id !in l.runs }

  function Apply(l: Lane, s: Step): Lane {
    match s
    case EnqueueStep(id, eligible) => Enqueue(l, id, eligible)
    case MakeEligibleStep(id, cancelled) => MakeEligible(l, id, cancelled)
    case CancelStep(id) => CancelQueued(l, id)
    case BeginFinalizingStep(id) => BeginFinalizing(l, id)
    case CompleteStep(id) => Complete(l, id)
    case CloseStep => Close(l)
  }

  ghost predicate Reached(states: seq<Lane>, steps: seq<Step>, queued: nat) {
    && |states| == |steps| + 1 && states[0] == New(states[0].concurrent, queued)
    && forall i :: 0 <= i < |steps| ==> Enabled(states[i], steps[i]) && states[i + 1] == Apply(states[i], steps[i])
  }

  // ---------------------------------------------------------------- the invariant

  predicate IsOwned(s: State) { !s.Finished? }

  function Working(runs: map<nat, Run>): set<nat> { set id | id in runs && runs[id].state.Executing? }

  function Owned(runs: map<nat, Run>): set<nat> { set id | id in runs && IsOwned(runs[id].state) }

  /** The counters are the numbers of runs in those states, within their bounds. */
  predicate Counted(l: Lane) {
    l.executing == |Working(l.runs)| <= l.concurrent && l.owned == |Owned(l.runs)| <= l.capacity
  }

  /** The queue holds exactly the queued runs, in the order they came. */
  ghost predicate InOrder(l: Lane) {
    && Ascending(l.queue, l.runs)
    && (forall id :: IsQueued(l, id) ==> id in l.queue)
    && (forall id :: id in l.runs ==> 0 < l.runs[id].order <= l.nextOrder)
  }

  ghost predicate Ascending(queue: seq<nat>, runs: map<nat, Run>) {
    && (forall i :: 0 <= i < |queue| ==> queue[i] in runs && runs[queue[i]].state.Queued?)
    && (forall i, j :: 0 <= i < j < |queue| ==> runs[queue[i]].order < runs[queue[j]].order)
  }

  /** Nothing was granted past a run that is still queued, and only eligible runs were granted. */
  ghost predicate Fair(l: Lane) {
    && (forall id, other :: id in l.runs && l.runs[id].granted && IsQueued(l, other) ==>
      l.runs[id].order < l.runs[other].order)
    && (forall id :: id in l.runs && l.runs[id].granted ==> l.runs[id].eligible)
    && (forall id :: id in l.runs && l.runs[id].state.Executing? ==> l.runs[id].granted)
  }

  ghost predicate Sound(l: Lane) { Counted(l) && InOrder(l) && Fair(l) }

  /** An open lane with a free slot has nothing it could grant. */
  predicate Settled(l: Lane) {
    !l.closed && l.executing < l.concurrent ==> l.queue == [] || (l.queue[0] in l.runs && !l.runs[l.queue[0]].eligible)
  }

  ghost predicate Inv(l: Lane) { Sound(l) && Settled(l) && (l.closed ==> l.queue == []) }

  // ---------------------------------------------------------------- counting

  function One(b: bool): nat { if b then 1 else 0 }

  lemma WorkingPut(runs: map<nat, Run>, id: nat, r: Run)
    ensures |Working(runs[id := r])| + One(id in runs && runs[id].state.Executing?) ==
      |Working(runs)| + One(r.state.Executing?)
  {
    var rest := Working(runs) - {id};
    assert Working(runs[id := r]) == if r.state.Executing? then rest + {id} else rest;
    assert Working(runs) == if id in runs && runs[id].state.Executing? then rest + {id} else rest;
  }

  lemma OwnedPut(runs: map<nat, Run>, id: nat, r: Run)
    ensures |Owned(runs[id := r])| + One(id in runs && IsOwned(runs[id].state)) == |Owned(runs)| + One(IsOwned(r.state))
  {
    var rest := Owned(runs) - {id};
    assert Owned(runs[id := r]) == if IsOwned(r.state) then rest + {id} else rest;
    assert Owned(runs) == if id in runs && IsOwned(runs[id].state) then rest + {id} else rest;
  }

  // ---------------------------------------------------------------- each operation is sound before it grants

  lemma EnterSound(l: Lane, id: nat, eligible: bool)
    requires Sound(l) && Admits(l) && id !in l.runs
    ensures Sound(Enter(l, id, eligible))
  {
    var r := Run(l.nextOrder + 1, Queued, eligible, false);
    WorkingPut(l.runs, id, r);
    OwnedPut(l.runs, id, r);
    EnterInOrder(l, id, eligible);
    EnterFair(l, id, eligible);
  }

  lemma EnterInOrder(l: Lane, id: nat, eligible: bool)
    requires InOrder(l) && id !in l.runs
    ensures InOrder(Enter(l, id, eligible))
  {
    var m := Enter(l, id, eligible);
    assert forall other :: IsQueued(m, other) ==> other == id || IsQueued(l, other);
    assert forall i :: 0 <= i < |l.queue| ==> l.queue[i] in l.runs && m.runs[l.queue[i]] == l.runs[l.queue[i]];
  }

  lemma EnterFair(l: Lane, id: nat, eligible: bool)
    requires Fair(l) && InOrder(l) && id !in l.runs
    ensures Fair(Enter(l, id, eligible))
  {
  }

  lemma MarkSound(l: Lane, id: nat)
    requires Sound(l) && IsQueued(l, id)
    ensures Sound(Mark(l, id))
  {
    var r := l.runs[id].(eligible := true);
    WorkingPut(l.runs, id, r);
    OwnedPut(l.runs, id, r);
  }

  lemma RemoveIs(queue: seq<nat>, id: nat)
    requires id in queue && forall i, j :: 0 <= i < j < |queue| ==> queue[i] != queue[j]
    ensures forall x :: x in Remove(queue, id) <==> x in queue && x != id
    ensures exists k :: 0 <= k < |queue| && queue[k] == id && Remove(queue, id) == queue[..k] + queue[k + 1..]
  {
    var k :| 0 <= k < |queue| && queue[k] == id;
    RemoveAt(queue, id, k);
    assert queue == queue[..k] + [id] + queue[k + 1..];
  }

  lemma QueueDistinct(l: Lane)
    requires InOrder(l)
    ensures forall i, j :: 0 <= i < j < |l.queue| ==> l.queue[i] != l.queue[j]
  {
  }

  lemma WithdrawSound(l: Lane, id: nat)
    requires Sound(l) && IsQueued(l, id)
    ensures Sound(Withdraw(l, id))
  {
    var r := l.runs[id].(state := Finalizing);
    WorkingPut(l.runs, id, r);
    OwnedPut(l.runs, id, r);
    WithdrawInOrder(l, id);
  }

  lemma WithdrawInOrder(l: Lane, id: nat)
    requires InOrder(l) && IsQueued(l, id)
    ensures InOrder(Withdraw(l, id))
  {
    var m := Withdraw(l, id);
    QueueDistinct(l);
    WithdrawAscends(l.queue, l.runs, id);
    forall other | IsQueued(m, other) ensures other in m.queue {
      assert IsQueued(l, other) && other != id;
    }
  }

  lemma WithdrawAscends(queue: seq<nat>, runs: map<nat, Run>, id: nat)
    requires id in runs && id in queue && Ascending(queue, runs)
    requires forall i, j :: 0 <= i < j < |queue| ==> queue[i] != queue[j]
    ensures Ascending(Remove(queue, id), runs[id := runs[id].(state := Finalizing)])
    ensures forall other :: other in queue && other != id ==> other in Remove(queue, id)
  {
    RemoveIs(queue, id);
    var k :| 0 <= k < |queue| && queue[k] == id && Remove(queue, id) == queue[..k] + queue[k + 1..];
    SkipAscending(queue, runs, k, runs[id].(state := Finalizing));
  }

  lemma SkipAscending(queue: seq<nat>, runs: map<nat, Run>, k: nat, r: Run)
    requires Ascending(queue, runs) && k < |queue|
    ensures Ascending(queue[..k] + queue[k + 1..], runs[queue[k] := r])
  {
    var left := queue[..k] + queue[k + 1..];
    forall i | 0 <= i < |left|
      ensures left[i] == queue[if i < k then i else i + 1] && left[i] in runs && left[i] != queue[k]
    {
    }
  }

  lemma YieldSound(l: Lane, id: nat)
    requires Sound(l) && IsExecuting(l, id)
    ensures Sound(Yield(l, id))
  {
    var r := l.runs[id].(state := Finalizing);
    WorkingPut(l.runs, id, r);
    OwnedPut(l.runs, id, r);
  }

  lemma CompleteSound(l: Lane, id: nat)
    requires Sound(l)
    ensures Sound(Complete(l, id))
  {
    if id in l.runs && l.runs[id].state.Finalizing? {
      var r := l.runs[id].(state := Finished);
      WorkingPut(l.runs, id, r);
      OwnedPut(l.runs, id, r);
      CompleteCounted(l, id);
      CompleteOrder(l, id);
    }
  }

  lemma CompleteCounted(l: Lane, id: nat)
    requires Counted(l) && id in l.runs && l.runs[id].state.Finalizing?
    ensures Counted(Complete(l, id))
  {
    var r := l.runs[id].(state := Finished);
    WorkingPut(l.runs, id, r);
    OwnedPut(l.runs, id, r);
  }

  lemma CompleteOrder(l: Lane, id: nat)
    requires InOrder(l) && Fair(l) && id in l.runs && l.runs[id].state.Finalizing?
    ensures InOrder(Complete(l, id)) && Fair(Complete(l, id))
  {
    var m := Complete(l, id);
    assert m.queue == l.queue && m.nextOrder == l.nextOrder && m.runs.Keys == l.runs.Keys;
    assert forall other :: other in l.runs && other != id ==> m.runs[other] == l.runs[other];
    assert m.runs[id].order == l.runs[id].order && m.runs[id].granted == l.runs[id].granted;
    assert m.runs[id].eligible == l.runs[id].eligible && !m.runs[id].state.Queued? && !m.runs[id].state.Executing?;
    SameButOne(l, m, id);
  }

  /** Runs that differ in the state of one that neither waits nor works. */
  lemma SameButOne(l: Lane, m: Lane, id: nat)
    requires InOrder(l) && Fair(l) && id in l.runs && l.runs[id].state.Finalizing?
    requires m.queue == l.queue && m.nextOrder == l.nextOrder && m.runs.Keys == l.runs.Keys
    requires forall other :: other in l.runs && other != id ==> m.runs[other] == l.runs[other]
    requires m.runs[id].order == l.runs[id].order && m.runs[id].granted == l.runs[id].granted
    requires m.runs[id].eligible == l.runs[id].eligible && !m.runs[id].state.Queued? && !m.runs[id].state.Executing?
    ensures InOrder(m) && Fair(m)
  {
    assert forall i :: 0 <= i < |l.queue| ==> l.queue[i] != id;
    assert Ascending(m.queue, m.runs);
    forall other ensures IsQueued(m, other) <==> IsQueued(l, other) {
    }
  }

  lemma CloseSound(l: Lane)
    requires Sound(l)
    ensures Sound(Close(l))
  {
    assert Working(Close(l).runs) == Working(l.runs);
    assert Owned(Close(l).runs) == Owned(l.runs);
  }

  // ---------------------------------------------------------------- granting

  /** Every other queued run came after the head. */
  lemma HeadIsFirst(l: Lane, other: nat)
    requires InOrder(l) && l.queue != [] && IsQueued(l, other) && other != l.queue[0]
    ensures other in l.queue[1..] && l.runs[l.queue[0]].order < l.runs[other].order
  {
    var i :| 0 <= i < |l.queue| && l.queue[i] == other;
    assert l.queue[1..][i - 1] == other;
  }

  lemma GrantFirstInOrder(l: Lane)
    requires InOrder(l) && l.queue != []
    ensures InOrder(GrantFirst(l))
  {
    var m := GrantFirst(l);
    QueueDistinct(l);
    forall other | IsQueued(m, other) ensures other in m.queue {
      HeadIsFirst(l, other);
    }
  }

  lemma GrantFirstFair(l: Lane)
    requires InOrder(l) && Fair(l) && l.queue != [] && l.runs[l.queue[0]].eligible
    ensures Fair(GrantFirst(l))
  {
    var m := GrantFirst(l);
    forall other | IsQueued(m, other) ensures IsQueued(l, other) && l.runs[l.queue[0]].order < l.runs[other].order {
      HeadIsFirst(l, other);
    }
  }

  lemma GrantFirstSound(l: Lane)
    requires Sound(l) && l.queue != [] && l.runs[l.queue[0]].eligible && l.executing < l.concurrent
    ensures Sound(GrantFirst(l))
  {
    var id := l.queue[0];
    var r := l.runs[id].(state := Executing, granted := true);
    WorkingPut(l.runs, id, r);
    OwnedPut(l.runs, id, r);
    GrantFirstInOrder(l);
    GrantFirstFair(l);
  }

  lemma {:induction false} GrantSound(l: Lane)
    requires Sound(l)
    ensures Sound(Grant(l)) && Settled(Grant(l)) && Grant(l).closed == l.closed && (l.queue == [] ==> Grant(l) == l)
    decreases |l.queue|
  {
    if !l.closed && l.executing < l.concurrent && l.queue != [] {
      assert IsQueued(l, l.queue[0]);
      if l.runs[l.queue[0]].eligible {
        GrantFirstSound(l);
        GrantSound(GrantFirst(l));
      }
    }
  }

  // ---------------------------------------------------------------- every run of a lane

  lemma StepKeeps(l: Lane, s: Step)
    requires Inv(l) && Enabled(l, s)
    ensures Inv(Apply(l, s))
  {
    match s
    case EnqueueStep(id, eligible) =>
      if Admits(l) {
        EnterSound(l, id, eligible);
        GrantSound(Enter(l, id, eligible));
      }
    case MakeEligibleStep(id, cancelled) =>
      if Eligible(l, id, cancelled) {
        MarkSound(l, id);
        GrantSound(Mark(l, id));
      }
    case CancelStep(id) =>
      if IsQueued(l, id) {
        WithdrawSound(l, id);
        GrantSound(Withdraw(l, id));
      }
    case BeginFinalizingStep(id) =>
      if IsExecuting(l, id) {
        YieldSound(l, id);
        GrantSound(Yield(l, id));
      }
    case CompleteStep(id) => CompleteSound(l, id);
    case CloseStep => CloseSound(l);
  }

  /** In every reachable state of a lane the counters are exact and bounded, the queue is the queued runs
      in order, no run was granted past an earlier queued one, and a free slot means nothing to grant. */
  lemma {:induction false} RunKeeps(states: seq<Lane>, steps: seq<Step>, queued: nat, i: nat)
    requires Reached(states, steps, queued) && i < |states|
    ensures Inv(states[i])
  {
    if i == 0 {
      assert Working(map[]) == {} && Owned(map[]) == {};
    } else {
      RunKeeps(states, steps, queued, i - 1);
      StepKeeps(states[i - 1], steps[i - 1]);
    }
  }

  // ---------------------------------------------------------------- what a step does to the other runs

  /** A run nobody acts on stays as it is, or is granted if it was queued and eligible. */
  predicate Evolves(r: Run, t: Run) {
    t == r || (r.state.Queued? && r.eligible && t == r.(state := Executing, granted := true))
  }

  lemma {:induction false} GrantEvolves(l: Lane, id: nat)
    requires id in l.runs
    ensures Grant(l).runs.Keys == l.runs.Keys && Evolves(l.runs[id], Grant(l).runs[id]) && Grant(l).closed == l.closed
    decreases |l.queue|
  {
    if !l.closed && l.executing < l.concurrent && l.queue != [] && l.queue[0] in l.runs && l.runs[l.queue[0]].eligible {
      if l.runs[l.queue[0]].state.Queued? {
        GrantEvolves(GrantFirst(l), id);
        assert GrantFirst(l).runs.Keys == l.runs.Keys;
      } else {
        GrantEvolves(l.(queue := l.queue[1..]), id);
      }
    }
  }

  /** The run before granting begins, for each operation on a single run. */
  function Acted(l: Lane, s: Step): Run
    requires !s.CloseStep? && (!s.EnqueueStep? ==> s.id in l.runs)
  {
    match s
    case EnqueueStep(_, eligible) => Run(l.nextOrder + 1, Queued, eligible, false)
    case MakeEligibleStep(id, cancelled) =>
      if Eligible(l, id, cancelled) then l.runs[id].(eligible := true) else l.runs[id]
    case CancelStep(id) => if IsQueued(l, id) then l.runs[id].(state := Finalizing) else l.runs[id]
    case BeginFinalizingStep(id) => if IsExecuting(l, id) then l.runs[id].(state := Finalizing) else l.runs[id]
    case CompleteStep(id) =>
      if l.runs[id].state.Finalizing? && l.owned > 0 then l.runs[id].(state := Finished) else l.runs[id]
  }

  lemma StepActs(l: Lane, s: Step)
    requires !s.CloseStep? && (if s.EnqueueStep? then Admits(l) else s.id in l.runs)
    ensures Apply(l, s).runs.Keys == l.runs.Keys + {s.id} && Evolves(Acted(l, s), Apply(l, s).runs[s.id])
    ensures Apply(l, s).closed == l.closed
  {
    var id := s.id;
    match s
    case EnqueueStep(_, eligible) => GrantEvolves(Enter(l, id, eligible), id);
    case MakeEligibleStep(_, cancelled) => if Eligible(l, id, cancelled) { GrantEvolves(Mark(l, id), id); }
    case CancelStep(_) => if IsQueued(l, id) { GrantEvolves(Withdraw(l, id), id); }
    case BeginFinalizingStep(_) => if IsExecuting(l, id) { GrantEvolves(Yield(l, id), id); }
    case CompleteStep(_) =>
  }

  lemma StepLeaves(l: Lane, s: Step, other: nat)
    requires !s.CloseStep? && (if s.EnqueueStep? then Admits(l) else s.id in l.runs) && other in l.runs && other != s.id
    ensures other in Apply(l, s).runs && Evolves(l.runs[other], Apply(l, s).runs[other])
  {
    var id := s.id;
    match s
    case EnqueueStep(_, eligible) => GrantEvolves(Enter(l, id, eligible), other);
    case MakeEligibleStep(_, cancelled) => if Eligible(l, id, cancelled) { GrantEvolves(Mark(l, id), other); }
    case CancelStep(_) => if IsQueued(l, id) { GrantEvolves(Withdraw(l, id), other); }
    case BeginFinalizingStep(_) => if IsExecuting(l, id) { GrantEvolves(Yield(l, id), other); }
    case CompleteStep(_) =>
  }

  // ---------------------------------------------------------------- the lane as an object

  /** The state of a run is guarded by the lane's mutex, so the object keeps it. */
  class HustleLane {
    const concurrent: nat
    const capacity: nat
    var closed: bool
    var owned: nat
    var executing: nat
    var nextSequence: nat
    var queue: seq<nat>
    var runs: map<nat, Run>

    ghost function State(): Lane
      reads this
    {
      Lane(concurrent, capacity, closed, owned, executing, nextSequence, queue, runs)
    }

    constructor (concurrently: nat, queued: nat)
      ensures State() == New(concurrently, queued)
    {
      concurrent, capacity := concurrently, concurrently + queued;
      closed, owned, executing, nextSequence, queue, runs := false, 0, 0, 0, [], map[];
    }

    method GrantLocked()
      modifies this`queue, this`runs, this`executing
      ensures State() == Grant(old(State()))
    {
      if closed { return; }
      while executing < concurrent && |queue| > 0
        invariant Grant(State()) == Grant(old(State()))
        decreases |queue|
      {
        var id := queue[0];
        if id !in runs || !runs[id].eligible { return; }
        queue := queue[1..];
        if runs[id].state != Queued { continue; }
        runs := runs[id := runs[id].(state := Executing, granted := true)];
        executing := executing + 1;
      }
    }

    method Admit(id: nat, eligible: bool) returns (ok: bool)
      modifies this
      ensures State() == Enqueue(old(State()), id, eligible)
      ensures ok <==> Admits(old(State()))
    {
      if closed || owned >= capacity { return false; }
      nextSequence := nextSequence + 1;
      owned := owned + 1;
      queue := queue + [id];
      runs := runs[id := Run(nextSequence, Queued, eligible, false)];
      GrantLocked();
      return true;
    }

    method MakeRunEligible(id: nat, cancelled: bool) returns (ok: bool)
      requires id in runs
      modifies this
      ensures State() == MakeEligible(old(State()), id, cancelled)
      ensures ok <==> Eligible(old(State()), id, cancelled)
    {
      if closed || runs[id].state != Queued || cancelled { return false; }
      runs := runs[id := runs[id].(eligible := true)];
      GrantLocked();
      return true;
    }

    method CancelQueuedRun(id: nat) returns (ok: bool)
      requires id in runs
      modifies this
      ensures State() == CancelQueued(old(State()), id)
      ensures ok <==> IsQueued(old(State()), id)
    {
      if runs[id].state != Queued { return false; }
      var i := 0;
      while i < |queue| && queue[i] != id
        invariant i <= |queue| && forall j :: 0 <= j < i ==> queue[j] != id
      {
        i := i + 1;
      }
      RemoveAt(queue, id, i);
      if i < |queue| { queue := queue[..i] + queue[i + 1..]; }
      runs := runs[id := runs[id].(state := Finalizing)];
      GrantLocked();
      return true;
    }

    method BeginFinalizingRun(id: nat) returns (ok: bool)
      requires id in runs && (runs[id].state.Executing? ==> executing > 0)
      modifies this
      ensures State() == BeginFinalizing(old(State()), id)
      ensures ok <==> old(runs)[id].state.Executing?
    {
      if runs[id].state != Executing { return false; }
      runs := runs[id := runs[id].(state := Finalizing)];
      executing := executing - 1;
      GrantLocked();
      return true;
    }

    method CompleteRun(id: nat)
      requires id in runs && (runs[id].state.Finalizing? ==> owned > 0)
      modifies this
      ensures State() == Complete(old(State()), id)
    {
      if runs[id].state == Finalizing {
        runs := runs[id := runs[id].(state := Finished)];
        owned := owned - 1;
      }
    }

    method CloseQueuedRuns() returns (queued: seq<nat>)
      requires forall i :: 0 <= i < |queue| ==> queue[i] in runs
      modifies this
      ensures State() == Close(old(State()))
      ensures queued == if old(closed) then [] else old(queue)
    {
      if closed { return []; }
      closed := true;
      queued := queue;
      queue := [];
      var i := 0;
      while i < |queued|
        invariant i <= |queued| && runs.Keys == old(runs).Keys
        invariant forall id :: id in runs ==> runs[id] == Evicted(old(runs)[id], id in queued[..i])
        invariant closed && queue == [] && unchanged(this`owned) && unchanged(this`executing) &&
          unchanged(this`nextSequence)
      {
        assert queued[..i + 1] == queued[..i] + [queued[i]];
        if runs[queued[i]].state == Queued {
          runs := runs[queued[i] := runs[queued[i]].(state := Finalizing)];
        }
        i := i + 1;
      }
      assert queued[..i] == queued;
      assert runs == Close(old(State())).runs;
    }
  }

  lemma {:induction false} RemoveAt(queue: seq<nat>, id: nat, i: nat)
    requires i <= |queue| && (i < |queue| ==> queue[i] == id) && forall j :: 0 <= j < i ==> queue[j] != id
    ensures Remove(queue, id) == if i < |queue| then queue[..i] + queue[i + 1..] else queue
  {
    if i > 0 {
      RemoveAt(queue[1..], id, i - 1);
      assert queue == [queue[0]] + queue[1..];
      if i < |queue| { assert queue[..i] + queue[i + 1..] == [queue[0]] + (queue[1..][..i - 1] + queue[1..][i..]); }
    }
  }

  // ---------------------------------------------------------------- what each step does, from the steps of a run

  ghost predicate ClosedBy(steps: seq<Step>, k: nat)
    requires k <= |steps|
  {
    exists j :: 0 <= j < k && steps[j].CloseStep?
  }

  lemma {:induction false} GrantFrame(l: Lane)
    ensures Grant(l).closed == l.closed && Grant(l).capacity == l.capacity && Grant(l).concurrent == l.concurrent
    decreases |l.queue|
  {
    if !l.closed && l.executing < l.concurrent && l.queue != [] && l.queue[0] in l.runs && l.runs[l.queue[0]].eligible {
      if l.runs[l.queue[0]].state.Queued? {
        GrantFrame(GrantFirst(l));
      } else {
        GrantFrame(l.(queue := l.queue[1..]));
      }
    }
  }

  lemma StepFrame(l: Lane, s: Step)
    ensures Apply(l, s).capacity == l.capacity && Apply(l, s).concurrent == l.concurrent
    ensures Apply(l, s).closed <==> l.closed || s.CloseStep?
  {
    match s
    case EnqueueStep(id, eligible) => GrantFrame(Enter(l, id, eligible));
    case MakeEligibleStep(id, cancelled) => if Eligible(l, id, cancelled) { GrantFrame(Mark(l, id)); }
    case CancelStep(id) => if IsQueued(l, id) { GrantFrame(Withdraw(l, id)); }
    case BeginFinalizingStep(id) => if IsExecuting(l, id) { GrantFrame(Yield(l, id)); }
    case CompleteStep(id) =>
    case CloseStep =>
  }

  lemma {:induction false} FrameIs(states: seq<Lane>, steps: seq<Step>, queued: nat, k: nat)
    requires Reached(states, steps, queued) && k < |states|
    ensures states[k].concurrent == states[0].concurrent && states[k].capacity == states[0].concurrent + queued
    ensures states[k].closed <==> ClosedBy(steps, k)
  {
    if k > 0 {
      FrameIs(states, steps, queued, k - 1);
      StepFrame(states[k - 1], steps[k - 1]);
    }
  }

  /** The runs that are not finished. */
  function Unfinished(l: Lane): set<nat> { set id | id in l.runs && !l.runs[id].state.Finished? }

  /** A run is refused if and only if the lane was closed or all of its places, concurrent and queued, are
      taken by runs that are not finished. */
  lemma AdmittedIff(states: seq<Lane>, steps: seq<Step>, queued: nat, k: nat)
    requires Reached(states, steps, queued) && k < |steps| && steps[k].EnqueueStep?
    ensures steps[k].id in states[k + 1].runs <==>
      !ClosedBy(steps, k) && |Unfinished(states[k])| < states[0].concurrent + queued
    ensures steps[k].id !in states[k + 1].runs ==> states[k + 1] == states[k]
  {
    FrameIs(states, steps, queued, k);
    RunKeeps(states, steps, queued, k);
    assert Unfinished(states[k]) == Owned(states[k].runs);
    if Admits(states[k]) { StepActs(states[k], steps[k]); }
  }

  /** The state a step asks a run to take, if the run is in the state it has to be in. */
  function Asked(s: Step, id: nat, state: State): State {
    match s
    case CancelStep(x) => if x == id && state.Queued? then Finalizing else state
    case CloseStep => if state.Queued? then Finalizing else state
    case BeginFinalizingStep(x) => if x == id && state.Executing? then Finalizing else state
    case CompleteStep(x) => if x == id && state.Finalizing? then Finished else state
    case _ => state
  }

  /** Every step does that, and besides may only grant an eligible queued run. */
  ghost predicate Follows(r: Run, t: Run, s: Step, id: nat, closed: bool) {
    && t.order == r.order
    && (t.eligible <==> r.eligible || (s == MakeEligibleStep(id, false) && r.state.Queued? && !closed))
    && ((t.state == Asked(s, id, r.state) && t.granted == r.granted)
        || (r.state.Queued? && Asked(s, id, r.state).Queued? && t.eligible && t.state.Executing? && t.granted))
  }

  lemma StepFollows(l: Lane, s: Step, id: nat)
    requires Inv(l) && Enabled(l, s) && id in l.runs
    ensures id in Apply(l, s).runs && Follows(l.runs[id], Apply(l, s).runs[id], s, id, l.closed)
  {
    if s.CloseStep? {
      assert IsQueued(l, id) ==> id in l.queue;
    } else if s.EnqueueStep? {
      if Admits(l) { StepLeaves(l, s, id); }
    } else if s.id == id {
      ExecutingCounts(l, id);
      StepActs(l, s);
    } else if s.id in l.runs {
      StepLeaves(l, s, id);
    }
  }

  lemma ExecutingCounts(l: Lane, id: nat)
    requires Counted(l) && id in l.runs
    ensures l.runs[id].state.Executing? ==> l.executing > 0
    ensures !l.runs[id].state.Finished? ==> l.owned > 0
  {
    if l.runs[id].state.Executing? { assert id in Working(l.runs); }
    if !l.runs[id].state.Finished? { assert id in Owned(l.runs); }
  }

  lemma StatesFollow(states: seq<Lane>, steps: seq<Step>, queued: nat, k: nat, id: nat)
    requires Reached(states, steps, queued) && k < |steps| && id in states[k].runs
    ensures id in states[k + 1].runs
    ensures Follows(states[k].runs[id], states[k + 1].runs[id], steps[k], id, ClosedBy(steps, k))
  {
    FrameIs(states, steps, queued, k);
    RunKeeps(states, steps, queued, k);
    StepFollows(states[k], steps[k], id);
  }
}
