/** The checkpoint controller (internal/sessionruntime/checkpoint_controller.go): required requests
    with out-of-order completion and a contiguous watermark, interrupt sweeps over two maps, and the
    accounting of workers. Each section under the controller's mutex is one atomic step; what a caller
    does between two sections is a place of its own in the state. */
module CheckpointController {
  import opened Options

  // ---------------------------------------------------------------- required requests

  datatype Runner = Absent | Looking | Busy(seqNo: nat)

  /** Requests are numbered from one. `settling` are the ones whose caller took them off the queue and
      has not recorded them yet; `failed` is every number recorded with an error. */
  datatype Required = Required(
    next: nat, completed: nat, finished: map<nat, bool>, queue: seq<nat>, runner: Runner, lastStarted: nat,
    settling: set<nat>, failed: set<nat>)

  const NO_REQUESTS := Required(0, 0, map[], [], Absent, 0, {}, {})

  function Enqueue(r: Required): Required {
    r.(next := r.next + 1, queue := r.queue + [r.next + 1], runner := if r.runner.Absent? then Looking else r.runner)
  }

  function TakeNext(r: Required): Required {
    if r.queue == [] then r.(runner := Absent)
    else r.(runner := Busy(r.queue[0]), queue := r.queue[1..], lastStarted := r.queue[0])
  }

  function Remove(queue: seq<nat>, n: nat): seq<nat> {
    if queue == [] then [] else if queue[0] == n then queue[1..] else [queue[0]] + Remove(queue[1..], n)
  }

  function Withdraw(r: Required, n: nat): Required {
    if n in r.queue then r.(queue := Remove(r.queue, n), settling := r.settling + {n}) else r
  }

  /** The longest run of completed numbers, and what is left finished out of order. */
  function Advance(completed: nat, finished: map<nat, bool>): (nat, map<nat, bool>)
    decreases finished.Keys
  {
    if completed + 1 in finished then
      assert (finished - {completed + 1}).Keys == finished.Keys - {completed + 1};
      Advance(completed + 1, finished - {completed + 1})
    else (completed, finished)
  }

  /** The numbers of `recordRequiredCompletion`, with the recorder gone from where it was. */
  function Record(r: Required, n: nat, failure: bool): Required {
    var (completed, finished) := Advance(r.completed, r.finished[n := failure]);
    r.(completed := completed, finished := finished, settling := r.settling - {n},
       runner := if r.runner == Busy(n) then Looking else r.runner,
       failed := if failure then r.failed + {n} else r.failed)
  }

  // ---------------------------------------------------------------- interrupt sweeps

  /** A sweep covers the requests numbered in (after, cutoff]. Its edge is zero until an idle edge takes
      it; `idleSeen` and `idleFault` say what became of that edge. */
  datatype Sweep = Sweep(after: nat, cutoff: nat, edge: nat, err: bool, idleSeen: bool, idleFault: bool)

  /** What the once-guard of a sweep let through. A shutdown always faults; `blamed` says whether it
      faults for a request. */
  datatype Outcome = Resolved(fault: bool) | Cancelled | ShutDown(blamed: bool)

  /** A sweep and everybody who holds it: the live map, the deferred map, a caller about to tell it what
      it settled on, and shutdown, which takes it out of the maps in one section (`dropped`) and tells it
      after that section (`ending`). The idle edge that took it holds it by its number. */
  datatype Item = Item(
    s: Sweep, live: bool, deferred: bool, settled: bool, dropped: bool, ending: bool, answer: Option<Outcome>)

  datatype Sweeps = Sweeps(nextId: nat, items: map<nat, Item>, edges: set<nat>, nextEdge: nat)

  const NO_SWEEPS := Sweeps(0, map[], {}, 1)

  function Fresh(after: nat, closed: bool): Item {
    Item(Sweep(after, 0, 0, false, false, false), !closed, false, false, false, false,
         if closed then Some(ShutDown(false)) else None)
  }

  /** `resolveInterruptSweeps` for one sweep: only the first telling counts. */
  function Tell(x: Item, o: Outcome): Item { if x.answer.None? then x.(answer := Some(o)) else x }

  /** A live sweep is handed to an edge. */
  function Handed(x: Item, cutoff: nat, edge: nat, wait: bool): Item {
    if x.live then x.(live := false, deferred := wait, s := x.s.(cutoff := cutoff, edge := edge)) else x
  }

  /** The edge is over. Its caller works on the sweeps it took, wherever they are by now: the ready ones
      and those whose requests are complete are going to be told. */
  function EdgeOver(x: Item, edge: nat, fault: bool, completed: nat): Item {
    if x.s.edge != edge then x
    else
      var y := x.(s := x.s.(idleSeen := true, idleFault := fault));
      if x.s.cutoff <= completed then y.(deferred := false, settled := true) else y
  }

  predicate InRange(s: Sweep, n: nat, bounded: bool) { n > s.after && (bounded ==> n <= s.cutoff) }

  /** A failed request is noted in the maps only. */
  function Blame(x: Item, n: nat): Item {
    if (x.live && InRange(x.s, n, false)) || (x.deferred && InRange(x.s, n, true))
    then x.(s := x.s.(err := true))
    else x
  }

  predicate NeedNotWait(x: Item, completed: nat) { x.deferred && x.s.idleSeen && completed >= x.s.cutoff }

  function Release(x: Item, completed: nat): Item {
    if NeedNotWait(x, completed) then x.(deferred := false, settled := true) else x
  }

  /** One sweep in `recordRequiredCompletion`, with the watermark it reached. */
  function Note(x: Item, n: nat, failure: bool, completed: nat): Item {
    Release(if failure then Blame(x, n) else x, completed)
  }

  function Deliver(x: Item): Item {
    if x.settled then Tell(x.(settled := false), Resolved(x.s.err || x.s.idleFault)) else x
  }

  function Drop(x: Item): Item {
    if x.live || x.deferred then x.(live := false, deferred := false, dropped := true, ending := true) else x
  }

  function End(x: Item): Item { if x.ending then Tell(x.(ending := false), ShutDown(x.s.err)) else x }

  /** The caller gives up. The guard is taken before the mutex, and whoever comes to tell meanwhile waits
      for it and then does nothing, so this is one section. */
  function Cancel(x: Item): Item {
    if x.answer.None? then x.(answer := Some(Cancelled), live := false, deferred := false) else x
  }

  predicate NoneLive(w: Sweeps) { forall id :: id in w.items ==> !w.items[id].live }

  function Begin(w: Sweeps, next: nat, closed: bool): Sweeps {
    w.(nextId := w.nextId + 1, items := w.items[w.nextId + 1 := Fresh(next, closed)])
  }

  function HandedAll(items: map<nat, Item>, cutoff: nat, edge: nat, wait: bool): map<nat, Item> {
    map id | id in items :: Handed(items[id], cutoff, edge, wait)
  }

  function EdgeOverAll(items: map<nat, Item>, edge: nat, fault: bool, completed: nat): map<nat, Item> {
    map id | id in items :: EdgeOver(items[id], edge, fault, completed)
  }

  function NotedAll(items: map<nat, Item>, n: nat, failure: bool, completed: nat): map<nat, Item> {
    map id | id in items :: Note(items[id], n, failure, completed)
  }

  function DroppedAll(items: map<nat, Item>): map<nat, Item> { map id | id in items :: Drop(items[id]) }

  /** `transferInterruptSweeps`: every live sweep is handed to the edge numbered nextEdge. */
  function Transfer(w: Sweeps, next: nat, completed: nat, deferring: bool): Sweeps {
    if NoneLive(w) then w
    else
      var cutoff, wait := if deferring then next else 0, deferring && completed < next;
      w.(items := HandedAll(w.items, cutoff, w.nextEdge, wait),
         edges := w.edges + {w.nextEdge}, nextEdge := w.nextEdge + 1)
  }

  function EdgeDone(w: Sweeps, edge: nat, fault: bool, completed: nat): Sweeps {
    w.(items := EdgeOverAll(w.items, edge, fault, completed), edges := w.edges - {edge})
  }

  function NoteAll(w: Sweeps, n: nat, failure: bool, completed: nat): Sweeps {
    w.(items := NotedAll(w.items, n, failure, completed))
  }

  function DropAll(w: Sweeps): Sweeps { w.(items := DroppedAll(w.items)) }

  function Change(w: Sweeps, id: nat, x: Item): Sweeps { if id in w.items then w.(items := w.items[id := x]) else w }

  // ---------------------------------------------------------------- workers

  /** `leaving` counts workers that did their work and have not yet said so. */
  datatype Workers = Workers(
    count: nat, drainedOpen: bool, closed: bool, active: bool, pending: bool, manualWaiting: nat, leaving: nat)

  const NO_WORKERS := Workers(0, false, false, false, false, 0, 0)

  function Add(k: Workers): Workers { k.(count := k.count + 1, drainedOpen := true) }

  function WorkerDone(k: Workers): Workers
    requires k.count > 0 && k.leaving > 0
  {
    k.(count := k.count - 1, leaving := k.leaving - 1, drainedOpen := k.drainedOpen && k.count > 1)
  }

  /** `takePendingLocked`, with the worker reserved for what it took. */
  function TakePending(k: Workers): Workers {
    if k.closed || k.active || k.manualWaiting > 0 || !k.pending then k else Add(k.(pending := false, active := true))
  }

  // ---------------------------------------------------------------- the controller

  datatype Controller = Controller(deferring: bool, r: Required, w: Sweeps, k: Workers)

  function Init(deferring: bool): Controller { Controller(deferring, NO_REQUESTS, NO_SWEEPS, NO_WORKERS) }

  datatype Step =
    | EnqueueStep
    | TakeStep
    | WithdrawStep(n: nat)
    | RecordStep(n: nat, failure: bool)
    | BeginStep
    | TransferStep
    | EdgeDoneStep(edge: nat, fault: bool)
    | DeliverStep(id: nat)
    | CancelStep(id: nat)
    | ShutdownStep
    | EndStep(id: nat)
    | BoundaryStep
    | RejoinStep
    | FinishWalkStep
    | ManualStep
    | FinishManualStep
    | ActivatedStep
    | DoneStep

  /** The runner takes and records what it runs, a caller records what it withdrew, an edge is
      published once, and a worker finishes what it began. */
  predicate Enabled(c: Controller, s: Step) {
    match s
    case TakeStep => c.r.runner.Looking?
    case RecordStep(n, _) => c.r.runner == Busy(n) || n in c.r.settling
    case EdgeDoneStep(edge, _) => edge in c.w.edges
    case FinishWalkStep => c.k.active
    case FinishManualStep => c.k.manualWaiting > 0
    case DoneStep => c.k.leaving > 0 && c.k.count > 0
    case _ => true
  }

  function Apply(c: Controller, s: Step): Controller
    requires Enabled(c, s)
  {
    match s
    case EnqueueStep => if c.k.closed then c else c.(r := Enqueue(c.r), k := Add(c.k))
    case TakeStep => c.(r := TakeNext(c.r))
    case WithdrawStep(n) => c.(r := Withdraw(c.r, n))
    case RecordStep(n, failure) =>
      var r := Record(c.r, n, failure);
      c.(r := r, w := NoteAll(c.w, n, failure, r.completed), k := c.k.(leaving := c.k.leaving + 1))
    case BeginStep => c.(w := Begin(c.w, c.r.next, c.k.closed))
    case TransferStep => c.(w := Transfer(c.w, c.r.next, c.r.completed, c.deferring))
    case EdgeDoneStep(edge, fault) => c.(w := EdgeDone(c.w, edge, fault, c.r.completed))
    case DeliverStep(id) => if id in c.w.items then c.(w := Change(c.w, id, Deliver(c.w.items[id]))) else c
    case CancelStep(id) => if id in c.w.items then c.(w := Change(c.w, id, Cancel(c.w.items[id]))) else c
    case ShutdownStep => if c.k.closed then c else c.(k := c.k.(closed := true, pending := false), w := DropAll(c.w))
    case EndStep(id) => if id in c.w.items then c.(w := Change(c.w, id, End(c.w.items[id]))) else c
    // A best-effort boundary starts a walk; one that met a walk comes back when it is published, and
    // starts its own or stays pending.
    case BoundaryStep => if c.k.closed || c.k.active then c else c.(k := Add(c.k.(active := true)))
    case RejoinStep =>
      if c.k.closed then c
      else if c.k.active || c.k.manualWaiting > 0 then c.(k := c.k.(pending := true))
      else c.(k := Add(c.k.(active := true, pending := false)))
    case FinishWalkStep => c.(k := TakePending(c.k.(active := false, leaving := c.k.leaving + 1)))
    case ManualStep => if c.k.closed then c else c.(k := Add(c.k.(manualWaiting := c.k.manualWaiting + 1)))
    case FinishManualStep =>
      c.(k := TakePending(c.k.(manualWaiting := c.k.manualWaiting - 1, leaving := c.k.leaving + 1)))
    case ActivatedStep => c.(k := c.k.(pending := false))
    case DoneStep => c.(k := WorkerDone(c.k))
  }

  ghost predicate Run(states: seq<Controller>, steps: seq<Step>) {
    && |states| == |steps| + 1 && states[0] == Init(states[0].deferring)
    && forall i :: 0 <= i < |steps| ==> Enabled(states[i], steps[i]) && states[i + 1] == Apply(states[i], steps[i])
  }

  // ---------------------------------------------------------------- the invariant

  function One(b: bool): nat { if b then 1 else 0 }

  /** In how many places the request numbered n is. */
  function Places(r: Required, n: nat): nat {
    One(n <= r.completed) + One(n in r.finished) + One(n in r.queue) + One(r.runner == Busy(n)) + One(n in r.settling)
  }

  ghost predicate Ascending(queue: seq<nat>, above: nat, upTo: nat) {
    && (forall i :: 0 <= i < |queue| ==> above < queue[i] <= upTo)
    && forall i, j :: 0 <= i < j < |queue| ==> queue[i] < queue[j]
  }

  ghost predicate RequiredOk(r: Required) {
    && (forall n: nat :: n > 0 ==> Places(r, n) == One(n <= r.next))
    && Ascending(r.queue, r.lastStarted, r.next)
    && (r.runner.Busy? ==> r.runner.seqNo == r.lastStarted && r.lastStarted > 0)
    && r.lastStarted <= r.next && r.completed + 1 !in r.finished && 0 !in r.finished && 0 !in r.settling
    && (r.queue != [] ==> !r.runner.Absent?)
    && (forall n :: n in r.failed ==> 0 < n && (n <= r.completed || n in r.finished))
  }

  ghost predicate Between(failed: set<nat>, after: nat, upTo: nat) { exists n :: n in failed && after < n <= upTo }

  /** The numbers a sweep's truth depends on. */
  datatype Progress = Progress(next: nat, completed: nat, failed: set<nat>)

  function ProgressOf(r: Required): Progress { Progress(r.next, r.completed, r.failed) }

  /** Who holds a sweep: at most one map, and neither once it was told or shutdown has begun. */
  predicate HoldersOk(x: Item, closed: bool) {
    && (x.live ==> !x.deferred && x.s.edge == 0)
    && (x.live || x.deferred ==> !x.settled && !x.dropped && x.answer.None? && !closed)
    && (x.ending ==> x.dropped) && (x.dropped ==> closed && (x.ending || x.answer.Some?))
    && (x.answer.Some? && x.answer.value.ShutDown? ==> closed && (x.answer.value.blamed ==> x.s.err))
  }

  /** How far a sweep has come with its edge. */
  predicate EdgeOk(x: Item, edges: set<nat>, nextEdge: nat) {
    && x.s.edge < nextEdge && (x.deferred || x.settled || x.s.idleSeen ==> x.s.edge > 0)
    && (x.s.edge > 0 ==> (x.s.idleSeen <==> x.s.edge !in edges))
    && (x.settled ==> x.s.idleSeen)
    && (x.answer.Some? && x.answer.value.Resolved? ==>
      x.s.idleSeen && x.answer.value.fault == (x.s.err || x.s.idleFault))
  }

  /** Somebody is still going to tell it. */
  predicate NotForgotten(x: Item, edges: set<nat>) {
    x.answer.None? ==> x.live || x.deferred || x.settled || x.ending || (x.s.edge > 0 && x.s.edge in edges)
  }

  /** A sweep nobody cancelled or dropped: it has its fate from the requests alone. */
  predicate Undisturbed(x: Item) { !x.dropped && x.answer != Some(Cancelled) }

  /** What a sweep that no edge has taken knows. */
  ghost predicate LiveKnows(x: Item, g: Progress) {
    && x.s.after <= g.next && (x.s.edge == 0 ==> x.s.cutoff == 0)
    && (x.s.err ==> Between(g.failed, x.s.after, g.next))
    && (x.live && Between(g.failed, x.s.after, g.next) ==> x.s.err)
  }

  /** What a sweep with a cutoff knows, and when it waits. Whatever happens to it, it blames no request
      that did not fail, and what settles is complete. */
  ghost predicate FixedKnows(x: Item, g: Progress) {
    x.s.edge > 0 ==>
      && x.s.cutoff <= g.next
      && (x.s.err ==> Between(g.failed, x.s.after, x.s.cutoff))
      && (Undisturbed(x) && Between(g.failed, x.s.after, x.s.cutoff) ==> x.s.err)
      && (Undisturbed(x) && !x.deferred ==> x.s.cutoff <= g.completed)
      && (x.deferred && x.s.idleSeen ==> g.completed < x.s.cutoff)
      && (x.settled || (x.answer.Some? && x.answer.value.Resolved?) ==> x.s.cutoff <= g.completed)
  }

  predicate ShapeOk(x: Item, edges: set<nat>, nextEdge: nat, closed: bool) {
    HoldersOk(x, closed) && EdgeOk(x, edges, nextEdge) && NotForgotten(x, edges)
  }

  ghost predicate Knows(x: Item, g: Progress, deferring: bool) {
    LiveKnows(x, g) && (if deferring then FixedKnows(x, g) else x.s.cutoff == 0 && !x.deferred)
  }

  ghost predicate ItemOk(x: Item, edges: set<nat>, nextEdge: nat, closed: bool, g: Progress, deferring: bool) {
    ShapeOk(x, edges, nextEdge, closed) && Knows(x, g, deferring)
  }

  ghost predicate SweepsOk(c: Controller) {
    && c.w.nextEdge > 0 && (forall e :: e in c.w.edges ==> 0 < e < c.w.nextEdge)
    && (forall id: nat :: id in c.w.items <==> 0 < id <= c.w.nextId)
    && forall id :: id in c.w.items ==>
      ItemOk(c.w.items[id], c.w.edges, c.w.nextEdge, c.k.closed, ProgressOf(c.r), c.deferring)
  }

  /** The workers that required requests hold. */
  function Held(r: Required): nat { |r.queue| + One(r.runner.Busy?) + |r.settling| }

  /** The worker count is the number of live workers, and the drain channel is open exactly then. */
  predicate WorkersOk(held: nat, k: Workers) {
    && k.count == held + One(k.active) + k.manualWaiting + k.leaving
    && (k.drainedOpen <==> k.count > 0) && (k.closed ==> !k.pending)
  }

  ghost predicate Inv(c: Controller) {
    RequiredOk(c.r) && SweepsOk(c) && WorkersOk(Held(c.r), c.k)
  }

  // ---------------------------------------------------------------- required requests

  lemma {:induction false} RemoveIs(queue: seq<nat>, n: nat, above: nat, upTo: nat)
    requires Ascending(queue, above, upTo) && n in queue
    ensures Ascending(Remove(queue, n), above, upTo) && |Remove(queue, n)| == |queue| - 1
    ensures forall m :: m in Remove(queue, n) <==> m in queue && m != n
  {
    if queue[0] != n { RemoveIs(queue[1..], n, queue[0], upTo); }
  }

  lemma {:induction false} AdvanceIs(completed: nat, finished: map<nat, bool>)
    requires forall n :: n in finished ==> completed < n
    ensures var (c, f) := Advance(completed, finished);
      && completed <= c && c + 1 !in f && (forall n :: n in f ==> c < n && n in finished)
      && forall n :: n <= c || n in f <==> n <= completed || n in finished
    decreases finished.Keys
  {
    if completed + 1 in finished {
      assert (finished - {completed + 1}).Keys == finished.Keys - {completed + 1};
      AdvanceIs(completed + 1, finished - {completed + 1});
    }
  }

  lemma EnqueueOk(r: Required)
    requires RequiredOk(r)
    ensures RequiredOk(Enqueue(r))
  {
    var t := Enqueue(r);
    assert forall n :: n in t.queue <==> n in r.queue || n == r.next + 1;
    forall n: nat | n > 0 ensures Places(t, n) == One(n <= t.next) {
      assert Places(r, n) == One(n <= r.next);
    }
    assert Places(r, r.lastStarted) == One(r.lastStarted <= r.next) || r.lastStarted == 0;
  }

  lemma TakeOk(r: Required)
    requires RequiredOk(r) && r.runner.Looking?
    ensures RequiredOk(TakeNext(r))
  {
    var t := TakeNext(r);
    if r.queue != [] {
      assert r.queue == [r.queue[0]] + r.queue[1..];
      forall n: nat | n > 0 ensures Places(t, n) == One(n <= t.next) {
        assert Places(r, n) == One(n <= r.next);
      }
    } else {
      forall n: nat | n > 0 ensures Places(t, n) == One(n <= t.next) {
        assert Places(r, n) == One(n <= r.next);
      }
    }
  }

  lemma WithdrawOk(r: Required, n: nat)
    requires RequiredOk(r)
    ensures RequiredOk(Withdraw(r, n))
  {
    var t := Withdraw(r, n);
    if n in r.queue {
      RemoveIs(r.queue, n, r.lastStarted, r.next);
      forall m: nat | m > 0 ensures Places(t, m) == One(m <= t.next) {
        assert Places(r, m) == One(m <= r.next);
      }
    }
  }

  lemma RecordOk(r: Required, n: nat, failure: bool)
    requires RequiredOk(r) && (r.runner == Busy(n) || n in r.settling)
    ensures RequiredOk(Record(r, n, failure))
    ensures r.completed <= Record(r, n, failure).completed && n > r.completed
  {
    var t := Record(r, n, failure);
    var all := r.finished[n := failure];
    assert Places(r, n) == One(n <= r.next);
    forall m | m in all ensures r.completed < m {
      assert Places(r, m) == One(m <= r.next);
    }
    AdvanceIs(r.completed, all);
    forall m: nat | m > 0 ensures Places(t, m) == One(m <= t.next) {
      assert Places(r, m) == One(m <= r.next);
      assert m <= t.completed || m in t.finished <==> m <= r.completed || m in all;
    }
  }

  // ---------------------------------------------------------------- one sweep through one step

  /** What a step makes of one sweep. */
  function Evolve(c: Controller, s: Step, id: nat, x: Item): Item
    requires Enabled(c, s)
  {
    match s
    case RecordStep(n, failure) => Note(x, n, failure, Record(c.r, n, failure).completed)
    case TransferStep =>
      if NoneLive(c.w) then x
      else
        Handed(x, if c.deferring then c.r.next else 0, c.w.nextEdge, c.deferring && c.r.completed < c.r.next)
    case EdgeDoneStep(edge, fault) => EdgeOver(x, edge, fault, c.r.completed)
    case DeliverStep(other) => if other == id then Deliver(x) else x
    case CancelStep(other) => if other == id then Cancel(x) else x
    case EndStep(other) => if other == id then End(x) else x
    case ShutdownStep => if c.k.closed then x else Drop(x)
    case _ => x
  }

  lemma StepItem(c: Controller, s: Step, id: nat)
    requires Enabled(c, s) && id in c.w.items && c.w.nextId + 1 !in c.w.items
    ensures id in Apply(c, s).w.items && Apply(c, s).w.items[id] == Evolve(c, s, id, c.w.items[id])
  {
  }

  lemma StepItems(c: Controller, s: Step)
    requires Enabled(c, s)
    ensures Apply(c, s).w.items.Keys == c.w.items.Keys + if s.BeginStep? then {c.w.nextId + 1} else {}
    ensures Apply(c, s).w.nextId == c.w.nextId + One(s.BeginStep?)
    ensures s.BeginStep? ==> Apply(c, s).w.items[c.w.nextId + 1] == Fresh(c.r.next, c.k.closed)
  {
  }

  /** What a step makes of the edges. */
  lemma StepEdges(c: Controller, s: Step)
    requires Enabled(c, s)
    ensures var t := s.TransferStep? && !NoneLive(c.w);
      && Apply(c, s).w.nextEdge == c.w.nextEdge + One(t)
      && Apply(c, s).w.edges ==
        if t then c.w.edges + {c.w.nextEdge} else if s.EdgeDoneStep? then c.w.edges - {s.edge} else c.w.edges
  {
  }

  // ---------------------------------------------------------------- holders and edges

  lemma NoteShape(x: Item, n: nat, failure: bool, completed: nat, edges: set<nat>, nextEdge: nat, closed: bool)
    requires ShapeOk(x, edges, nextEdge, closed)
    ensures ShapeOk(Note(x, n, failure, completed), edges, nextEdge, closed)
  {
  }

  lemma HandedShape(x: Item, cutoff: nat, wait: bool, edges: set<nat>, nextEdge: nat, closed: bool)
    requires ShapeOk(x, edges, nextEdge, closed) && nextEdge > 0
    ensures ShapeOk(Handed(x, cutoff, nextEdge, wait), edges + {nextEdge}, nextEdge + 1, closed)
  {
  }

  lemma EdgeOverShape(x: Item, edge: nat, fault: bool, completed: nat, edges: set<nat>, nextEdge: nat, closed: bool)
    requires ShapeOk(x, edges, nextEdge, closed) && edge in edges && edge > 0
    requires x.s.edge == edge && x.s.cutoff > completed ==> x.answer.Some? || x.deferred || x.ending
    ensures ShapeOk(EdgeOver(x, edge, fault, completed), edges - {edge}, nextEdge, closed)
  {
  }

  lemma ToldShape(x: Item, edges: set<nat>, nextEdge: nat, closed: bool)
    requires ShapeOk(x, edges, nextEdge, closed)
    ensures ShapeOk(Deliver(x), edges, nextEdge, closed) && ShapeOk(End(x), edges, nextEdge, closed)
    ensures ShapeOk(Cancel(x), edges, nextEdge, closed) && ShapeOk(Drop(x), edges, nextEdge, true)
  {
  }

  // ---------------------------------------------------------------- what a sweep knows

  /** A number beyond the cutoff changes nothing up to it. */
  lemma BeyondCutoff(failed: set<nat>, n: nat, after: nat, cutoff: nat)
    requires cutoff < n
    ensures Between(failed + {n}, after, cutoff) <==> Between(failed, after, cutoff)
  {
    if Between(failed, after, cutoff) {
      var m :| m in failed && after < m <= cutoff;
      assert m in failed + {n};
    }
  }

  lemma Within(failed: set<nat>, n: nat, after: nat, cutoff: nat)
    requires n <= cutoff
    ensures Between(failed + {n}, after, cutoff) <==> Between(failed, after, cutoff) || after < n
  {
    assert n in failed + {n};
    if Between(failed, after, cutoff) {
      var m :| m in failed && after < m <= cutoff;
      assert m in failed + {n};
    }
  }

  function Noted(g: Progress, n: nat, failure: bool, completed: nat): Progress {
    Progress(g.next, completed, if failure then g.failed + {n} else g.failed)
  }

  lemma NoteLive(x: Item, g: Progress, n: nat, failure: bool, completed: nat)
    requires LiveKnows(x, g) && n <= g.next
    ensures LiveKnows(Note(x, n, failure, completed), Noted(g, n, failure, completed))
  {
    Within(g.failed, n, x.s.after, g.next);
  }

  lemma NoteFixed(x: Item, g: Progress, n: nat, failure: bool, completed: nat)
    requires FixedKnows(x, g) && (x.live ==> x.s.edge == 0) && g.completed < n <= g.next && g.completed <= completed
    ensures FixedKnows(Note(x, n, failure, completed), Noted(g, n, failure, completed))
  {
    if n <= x.s.cutoff {
      Within(g.failed, n, x.s.after, x.s.cutoff);
    } else {
      BeyondCutoff(g.failed, n, x.s.after, x.s.cutoff);
    }
  }

  lemma NoteKnows(x: Item, g: Progress, n: nat, failure: bool, completed: nat, deferring: bool)
    requires Knows(x, g, deferring) && (x.live ==> x.s.edge == 0) && g.completed < n <= g.next &&
      g.completed <= completed
    ensures Knows(Note(x, n, failure, completed), Noted(g, n, failure, completed), deferring)
  {
    NoteLive(x, g, n, failure, completed);
    if deferring { NoteFixed(x, g, n, failure, completed); }
  }

  lemma GrowKnows(x: Item, g: Progress, deferring: bool)
    requires Knows(x, g, deferring) && forall n :: n in g.failed ==> n <= g.next
    ensures Knows(x, g.(next := g.next + 1), deferring)
  {
    assert Between(g.failed, x.s.after, g.next + 1) <==> Between(g.failed, x.s.after, g.next);
  }

  lemma HandedKnows(x: Item, g: Progress, edge: nat, deferring: bool)
    requires Knows(x, g, deferring) && edge > 0 && HoldersOk(x, false)
    ensures Knows(Handed(x, if deferring then g.next else 0, edge, deferring && g.completed < g.next), g, deferring)
  {
  }

  lemma EdgeOverKnows(x: Item, edge: nat, fault: bool, g: Progress, deferring: bool)
    requires Knows(x, g, deferring) && edge > 0
    ensures Knows(EdgeOver(x, edge, fault, g.completed), g, deferring)
  {
  }

  lemma ToldKnows(x: Item, g: Progress, deferring: bool)
    requires Knows(x, g, deferring)
    ensures Knows(Deliver(x), g, deferring) && Knows(End(x), g, deferring)
    ensures Knows(Cancel(x), g, deferring) && Knows(Drop(x), g, deferring)
  {
  }

  /** A sweep whose edge is over and that must wait is held by somebody else. */
  lemma WaitingIsHeld(x: Item, g: Progress, deferring: bool, closed: bool)
    requires Knows(x, g, deferring) && HoldersOk(x, closed) && x.s.edge > 0 && x.s.cutoff > g.completed
    ensures x.answer.Some? || x.deferred || x.ending
  {
  }

  // ---------------------------------------------------------------- every step keeps the invariant

  lemma StepRequired(c: Controller, s: Step)
    requires RequiredOk(c.r) && Enabled(c, s)
    ensures RequiredOk(Apply(c, s).r)
  {
    match s
    case EnqueueStep => EnqueueOk(c.r);
    case TakeStep => TakeOk(c.r);
    case WithdrawStep(n) => WithdrawOk(c.r, n);
    case RecordStep(n, failure) => RecordOk(c.r, n, failure);
    case _ =>
  }

  /** The holders and the edge of one sweep after a step. */
  lemma EvolveShape(c: Controller, s: Step, id: nat, x: Item)
    requires Enabled(c, s) && ShapeOk(x, c.w.edges, c.w.nextEdge, c.k.closed)
    requires c.w.nextEdge > 0 && (forall e :: e in c.w.edges ==> e > 0)
    requires s.EdgeDoneStep? && x.s.edge == s.edge && x.s.cutoff > c.r.completed ==>
      x.answer.Some? || x.deferred || x.ending
    ensures var d := Apply(c, s); ShapeOk(Evolve(c, s, id, x), d.w.edges, d.w.nextEdge, d.k.closed)
  {
    StepEdges(c, s);
    StepClosed(c, s);
    match s
    case RecordStep(n, failure) =>
      NoteShape(x, n, failure, Record(c.r, n, failure).completed, c.w.edges, c.w.nextEdge, c.k.closed);
    case TransferStep =>
      if !NoneLive(c.w) {
        HandedShape(x, if c.deferring then c.r.next else 0, c.deferring && c.r.completed < c.r.next,
                    c.w.edges, c.w.nextEdge, c.k.closed);
      }
    case EdgeDoneStep(edge, fault) =>
      EdgeOverShape(x, edge, fault, c.r.completed, c.w.edges, c.w.nextEdge, c.k.closed);
    case DeliverStep(_) => ToldShape(x, c.w.edges, c.w.nextEdge, c.k.closed);
    case CancelStep(_) => ToldShape(x, c.w.edges, c.w.nextEdge, c.k.closed);
    case EndStep(_) => ToldShape(x, c.w.edges, c.w.nextEdge, c.k.closed);
    case ShutdownStep => ToldShape(x, c.w.edges, c.w.nextEdge, c.k.closed);
    case _ =>
  }

  lemma StepClosed(c: Controller, s: Step)
    requires Enabled(c, s)
    ensures Apply(c, s).k.closed == (c.k.closed || s.ShutdownStep?) && Apply(c, s).deferring == c.deferring
  {
  }

  /** The numbers after a step. */
  lemma StepProgress(c: Controller, s: Step)
    requires RequiredOk(c.r) && Enabled(c, s)
    ensures
      var g, h := ProgressOf(c.r), ProgressOf(Apply(c, s).r);
      h == match s
        case EnqueueStep => g.(next := g.next + One(!c.k.closed))
        case RecordStep(n, failure) => Noted(g, n, failure, Record(c.r, n, failure).completed)
        case _ => g
  {
  }

  /** What one sweep knows after a step. */
  lemma EvolveKnows(c: Controller, s: Step, id: nat, x: Item)
    requires Enabled(c, s) && RequiredOk(c.r) && HoldersOk(x, c.k.closed) && Knows(x, ProgressOf(c.r), c.deferring)
    requires c.w.nextEdge > 0 && (forall e :: e in c.w.edges ==> e > 0)
    ensures Knows(Evolve(c, s, id, x), ProgressOf(Apply(c, s).r), c.deferring)
  {
    var g := ProgressOf(c.r);
    StepProgress(c, s);
    match s
    case EnqueueStep =>
      FailedIssued(c.r);
      GrowKnows(x, g, c.deferring);
    case RecordStep(n, failure) =>
      RecordOk(c.r, n, failure);
      assert Places(c.r, n) == One(n <= c.r.next);
      NoteKnows(x, g, n, failure, Record(c.r, n, failure).completed, c.deferring);
    case TransferStep => if x.live { HandedKnows(x, g, c.w.nextEdge, c.deferring); }
    case EdgeDoneStep(edge, fault) => EdgeOverKnows(x, edge, fault, g, c.deferring);
    case DeliverStep(_) => ToldKnows(x, g, c.deferring);
    case CancelStep(_) => ToldKnows(x, g, c.deferring);
    case EndStep(_) => ToldKnows(x, g, c.deferring);
    case ShutdownStep => ToldKnows(x, g, c.deferring);
    case _ =>
  }

  lemma FreshOk(after: nat, failed: set<nat>, completed: nat, closed: bool, edges: set<nat>, nextEdge: nat,
                deferring: bool)
    requires nextEdge > 0
    ensures ItemOk(Fresh(after, closed), edges, nextEdge, closed, Progress(after, completed, failed), deferring)
  {
  }

  lemma StepItemOk(c: Controller, s: Step, id: nat)
    requires RequiredOk(c.r) && SweepsOk(c) && Enabled(c, s) && id in Apply(c, s).w.items
    ensures var d := Apply(c, s);
      ItemOk(d.w.items[id], d.w.edges, d.w.nextEdge, d.k.closed, ProgressOf(d.r), d.deferring)
  {
    var g := ProgressOf(c.r);
    StepItems(c, s);
    StepClosed(c, s);
    if id in c.w.items {
      var x := c.w.items[id];
      assert ItemOk(x, c.w.edges, c.w.nextEdge, c.k.closed, g, c.deferring);
      if s.EdgeDoneStep? && x.s.edge == s.edge && x.s.cutoff > c.r.completed {
        WaitingIsHeld(x, g, c.deferring, c.k.closed);
      }
      StepItem(c, s, id);
      EvolveShape(c, s, id, x);
      EvolveKnows(c, s, id, x);
    } else {
      FreshOk(c.r.next, c.r.failed, c.r.completed, c.k.closed, c.w.edges, c.w.nextEdge, c.deferring);
    }
  }

  lemma StepSweeps(c: Controller, s: Step)
    requires RequiredOk(c.r) && SweepsOk(c) && Enabled(c, s)
    ensures SweepsOk(Apply(c, s))
  {
    var d := Apply(c, s);
    StepItems(c, s);
    StepEdges(c, s);
    forall id | id in d.w.items
      ensures ItemOk(d.w.items[id], d.w.edges, d.w.nextEdge, d.k.closed, ProgressOf(d.r), d.deferring)
    {
      StepItemOk(c, s, id);
    }
  }

  lemma FailedIssued(r: Required)
    requires RequiredOk(r)
    ensures forall n :: n in r.failed ==> n <= r.next
  {
    forall n | n in r.failed ensures n <= r.next {
      assert Places(r, n) == One(n <= r.next);
    }
  }

  lemma WithdrawHeld(r: Required, n: nat)
    requires RequiredOk(r)
    ensures Held(Withdraw(r, n)) == Held(r)
  {
    if n in r.queue {
      assert Places(r, n) == One(n <= r.next);
      RemoveIs(r.queue, n, r.lastStarted, r.next);
    }
  }

  lemma RecordHeld(r: Required, n: nat, failure: bool)
    requires RequiredOk(r) && (r.runner == Busy(n) || n in r.settling)
    ensures Held(Record(r, n, failure)) == Held(r) - 1
  {
    assert n > 0;
    assert Places(r, n) == One(n <= r.next);
    if n in r.settling {
      assert |r.settling - {n}| == |r.settling| - 1;
    } else {
      assert r.settling - {n} == r.settling;
    }
  }

  lemma StepHeld(c: Controller, s: Step)
    requires RequiredOk(c.r) && Enabled(c, s)
    ensures Held(Apply(c, s).r) as int == Held(c.r) +
      if s.EnqueueStep? && !c.k.closed then 1 else if s.RecordStep? then -1 else 0
  {
    match s
    case WithdrawStep(n) => WithdrawHeld(c.r, n);
    case RecordStep(n, failure) => RecordHeld(c.r, n, failure);
    case _ =>
  }

  lemma StepWorkers(c: Controller, s: Step, before: nat, after: nat)
    requires WorkersOk(before, c.k) && Enabled(c, s)
    requires after as int == before + if s.EnqueueStep? && !c.k.closed then 1 else if s.RecordStep? then -1 else 0
    ensures WorkersOk(after, Apply(c, s).k)
  {
  }

  lemma StepKeeps(c: Controller, s: Step)
    requires Inv(c) && Enabled(c, s)
    ensures Inv(Apply(c, s)) && Apply(c, s).deferring == c.deferring
  {
    StepRequired(c, s);
    StepSweeps(c, s);
    StepHeld(c, s);
    StepWorkers(c, s, Held(c.r), Held(Apply(c, s).r));
    StepClosed(c, s);
  }

  lemma {:induction false} RunKeeps(states: seq<Controller>, steps: seq<Step>, i: nat)
    requires Run(states, steps) && i < |states|
    ensures Inv(states[i]) && states[i].deferring == states[0].deferring
  {
    if i > 0 {
      RunKeeps(states, steps, i - 1);
      StepKeeps(states[i - 1], steps[i - 1]);
    }
  }

  lemma RunRequired(states: seq<Controller>, steps: seq<Step>, i: nat)
    requires Run(states, steps) && i < |states|
    ensures RequiredOk(states[i].r)
  {
    RunKeeps(states, steps, i);
  }

  lemma RunWorkers(states: seq<Controller>, steps: seq<Step>, i: nat)
    requires Run(states, steps) && i < |states|
    ensures WorkersOk(Held(states[i].r), states[i].k)
  {
    RunKeeps(states, steps, i);
  }

  // ---------------------------------------------------------------- requests, over every run

  /** Each number issued is in exactly one place, and no other number is anywhere. */
  lemma RequestInOnePlace(states: seq<Controller>, steps: seq<Step>, i: nat, n: nat)
    requires Run(states, steps) && i < |states| && n > 0
    ensures Places(states[i].r, n) == One(n <= states[i].r.next)
  {
    RunKeeps(states, steps, i);
  }

  ghost predicate Recorded(steps: seq<Step>, i: nat, n: nat) {
    exists j :: 0 <= j < i && j < |steps| && steps[j].RecordStep? && steps[j].n == n
  }

  ghost predicate RecordedFailure(steps: seq<Step>, i: nat, n: nat) {
    exists j :: 0 <= j < i && j < |steps| && steps[j] == RecordStep(n, true)
  }

  lemma RecordAdds(r: Required, m: nat, failure: bool, n: nat)
    requires RequiredOk(r) && (r.runner == Busy(m) || m in r.settling) && n > 0
    ensures var t := Record(r, m, failure);
      n <= t.completed || n in t.finished <==> n <= r.completed || n in r.finished || n == m
  {
    var all := r.finished[m := failure];
    assert Places(r, m) == One(m <= r.next);
    forall k | k in all ensures r.completed < k {
      assert Places(r, k) == One(k <= r.next);
    }
    AdvanceIs(r.completed, all);
    var (c, f) := Advance(r.completed, all);
    assert n <= c || n in f <==> n <= r.completed || n in all;
  }

  predicate IsRecorded(r: Required, n: nat) { n <= r.completed || n in r.finished }

  lemma StepRecords(c: Controller, s: Step, n: nat)
    requires RequiredOk(c.r) && Enabled(c, s) && n > 0
    ensures IsRecorded(Apply(c, s).r, n) <==> IsRecorded(c.r, n) || (s.RecordStep? && s.n == n)
    ensures n in Apply(c, s).r.failed <==> n in c.r.failed || s == RecordStep(n, true)
  {
    if s.RecordStep? { RecordAdds(c.r, s.n, s.failure, n); }
  }

  lemma RecordedLast(steps: seq<Step>, i: nat, n: nat)
    requires i < |steps|
    ensures Recorded(steps, i + 1, n) <==> Recorded(steps, i, n) || (steps[i].RecordStep? && steps[i].n == n)
    ensures RecordedFailure(steps, i + 1, n) <==> RecordedFailure(steps, i, n) || steps[i] == RecordStep(n, true)
  {
    if Recorded(steps, i + 1, n) {
      var j :| 0 <= j < i + 1 && steps[j].RecordStep? && steps[j].n == n;
    }
    if RecordedFailure(steps, i + 1, n) {
      var j :| 0 <= j < i + 1 && steps[j] == RecordStep(n, true);
    }
  }

  ghost predicate AsRecorded(c: Controller, steps: seq<Step>, i: nat, n: nat) {
    && (IsRecorded(c.r, n) <==> Recorded(steps, i, n))
    && (n in c.r.failed <==> RecordedFailure(steps, i, n))
  }

  lemma RecordedNext(c: Controller, steps: seq<Step>, i: nat, n: nat)
    requires RequiredOk(c.r) && i < |steps| && Enabled(c, steps[i]) && n > 0 && AsRecorded(c, steps, i, n)
    ensures AsRecorded(Apply(c, steps[i]), steps, i + 1, n)
  {
    StepRecords(c, steps[i], n);
    RecordedLast(steps, i, n);
  }

  lemma {:induction false} RecordedIs(states: seq<Controller>, steps: seq<Step>, i: nat, n: nat)
    requires Run(states, steps) && i < |states| && n > 0
    ensures AsRecorded(states[i], steps, i, n)
  {
    if i > 0 {
      RecordedIs(states, steps, i - 1, n);
      RunRequired(states, steps, i - 1);
      RecordedNext(states[i - 1], steps, i - 1, n);
    }
  }

  /** The watermark is the longest prefix of the numbers recorded so far. */
  lemma WatermarkIsLongestPrefix(states: seq<Controller>, steps: seq<Step>, i: nat)
    requires Run(states, steps) && i < |states|
    ensures forall n :: 0 < n <= states[i].r.completed ==> Recorded(steps, i, n)
    ensures !Recorded(steps, i, states[i].r.completed + 1)
  {
    RunKeeps(states, steps, i);
    forall n | 0 < n <= states[i].r.completed ensures Recorded(steps, i, n) {
      RecordedIs(states, steps, i, n);
    }
    RecordedIs(states, steps, i, states[i].r.completed + 1);
  }

  lemma StartGrows(c: Controller, s: Step)
    requires Inv(c) && Enabled(c, s)
    ensures c.r.lastStarted <= Apply(c, s).r.lastStarted
    ensures s.TakeStep? && c.r.queue != [] ==> c.r.lastStarted < Apply(c, s).r.lastStarted
  {
  }

  lemma {:induction false} StartsGrow(states: seq<Controller>, steps: seq<Step>, i: nat, j: nat)
    requires Run(states, steps) && i <= j < |states|
    ensures states[i].r.lastStarted <= states[j].r.lastStarted
  {
    if i < j {
      StartsGrow(states, steps, i, j - 1);
      RunKeeps(states, steps, j - 1);
      StartGrows(states[j - 1], steps[j - 1]);
    }
  }

  /** Requests start in the order of their numbers, whatever is withdrawn between. */
  lemma StartsInOrder(states: seq<Controller>, steps: seq<Step>, i: nat, j: nat)
    requires Run(states, steps) && i < j < |steps| && steps[i].TakeStep? && steps[j].TakeStep?
    requires states[i].r.queue != [] && states[j].r.queue != []
    ensures states[i + 1].r.runner.Busy? && states[j + 1].r.runner.Busy?
    ensures states[i + 1].r.runner.seqNo < states[j + 1].r.runner.seqNo
  {
    StartsGrow(states, steps, i + 1, j);
    RunKeeps(states, steps, j);
    StartGrows(states[j], steps[j]);
  }

  // ---------------------------------------------------------------- sweeps, over every run

  predicate ToldWith(c: Controller, id: nat, o: Outcome) { id in c.w.items && c.w.items[id].answer == Some(o) }

  lemma RunItem(states: seq<Controller>, steps: seq<Step>, i: nat, id: nat)
    requires Run(states, steps) && i < |steps| && id in states[i].w.items
    ensures id in states[i + 1].w.items
    ensures states[i + 1].w.items[id] == Evolve(states[i], steps[i], id, states[i].w.items[id])
  {
    RunSweeps(states, steps, i);
    StepItem(states[i], steps[i], id);
  }

  lemma RunSweeps(states: seq<Controller>, steps: seq<Step>, i: nat)
    requires Run(states, steps) && i < |states|
    ensures SweepsOk(states[i])
  {
    RunKeeps(states, steps, i);
  }

  lemma RunItemOk(states: seq<Controller>, steps: seq<Step>, i: nat, id: nat)
    requires Run(states, steps) && i < |states| && id in states[i].w.items
    ensures var c := states[i];
      ItemOk(c.w.items[id], c.w.edges, c.w.nextEdge, c.k.closed, ProgressOf(c.r), states[0].deferring)
  {
    RunKeeps(states, steps, i);
  }

  lemma EvolveKeepsAnswer(c: Controller, s: Step, id: nat, x: Item)
    requires Enabled(c, s) && x.answer.Some?
    ensures Evolve(c, s, id, x).answer == x.answer
  {
    if s.RecordStep? { NoteFrame(x, s.n, s.failure, Record(c.r, s.n, s.failure).completed); }
  }

  /** A sweep is told at most once. */
  lemma {:induction false} AnswerIsFinal(states: seq<Controller>, steps: seq<Step>, i: nat, j: nat, id: nat, o: Outcome)
    requires Run(states, steps) && i <= j < |states| && ToldWith(states[i], id, o)
    ensures ToldWith(states[j], id, o)
  {
    if i < j {
      AnswerIsFinal(states, steps, i, j - 1, id, o);
      RunItem(states, steps, j - 1, id);
      EvolveKeepsAnswer(states[j - 1], steps[j - 1], id, states[j - 1].w.items[id]);
    }
  }

  /** The step that registered a sweep. */
  ghost predicate Registers(states: seq<Controller>, steps: seq<Step>, b: nat, id: nat)
    requires Run(states, steps)
  {
    b < |steps| && steps[b] == BeginStep && states[b].w.nextId + 1 == id
  }

  /** The step with which an idle edge took a live sweep. */
  ghost predicate TakesSweep(states: seq<Controller>, steps: seq<Step>, t: nat, id: nat)
    requires Run(states, steps)
  {
    t < |steps| && steps[t] == TransferStep && id in states[t].w.items && states[t].w.items[id].live
  }

  /** The section of shutdown that took a deferred sweep out of its map. */
  ghost predicate DropsSweep(states: seq<Controller>, steps: seq<Step>, j: nat, id: nat)
    requires Run(states, steps)
  {
    && j < |steps| && steps[j] == ShutdownStep && !states[j].k.closed
    && id in states[j].w.items && states[j].w.items[id].deferred
  }

  /** A request numbered in (after, cutoff] was recorded failed before step i. */
  ghost predicate FailedIn(steps: seq<Step>, i: nat, after: nat, cutoff: nat) {
    exists n: nat :: after < n <= cutoff && RecordedFailure(steps, i, n)
  }

  lemma FailedInIs(states: seq<Controller>, steps: seq<Step>, i: nat, after: nat, cutoff: nat)
    requires Run(states, steps) && i < |states|
    ensures FailedIn(steps, i, after, cutoff) <==> Between(states[i].r.failed, after, cutoff)
  {
    if Between(states[i].r.failed, after, cutoff) {
      var n :| n in states[i].r.failed && after < n <= cutoff;
      RecordedIs(states, steps, i, n);
    }
    if n: nat :| after < n <= cutoff && RecordedFailure(steps, i, n) {
      RecordedIs(states, steps, i, n);
    }
  }

  predicate SameRange(s: Sweep, u: Sweep) { s.after == u.after && s.cutoff == u.cutoff && s.edge == u.edge }

  predicate SameIdle(s: Sweep, u: Sweep) { s.idleSeen == u.idleSeen && s.idleFault == u.idleFault }

  lemma NoteFrame(x: Item, n: nat, failure: bool, completed: nat)
    ensures var y := Note(x, n, failure, completed); SameRange(x.s, y.s) && SameIdle(x.s, y.s) && y.answer == x.answer
  {
  }

  lemma ToldFrame(x: Item)
    ensures Deliver(x).s == x.s && Cancel(x).s == x.s && End(x).s == x.s && Drop(x).s == x.s
  {
  }

  /** A step that neither takes the sweep for an edge nor ends its edge. */
  lemma EvolveFrame(c: Controller, s: Step, id: nat, x: Item)
    requires Enabled(c, s) && !s.TransferStep? && !s.EdgeDoneStep?
    ensures var y := Evolve(c, s, id, x); SameRange(x.s, y.s) && SameIdle(x.s, y.s)
  {
    if s.RecordStep? { NoteFrame(x, s.n, s.failure, Record(c.r, s.n, s.failure).completed); } else { ToldFrame(x); }
  }

  /** What a step does to a sweep's range. */
  predicate RangeStep(c: Controller, s: Step, x: Item, y: Item) {
    && y.s.after == x.s.after
    && (SameRange(x.s, y.s) ||
      (s.TransferStep? && x.live && y.s.edge == c.w.nextEdge && y.s.cutoff == if c.deferring then c.r.next else 0))
  }

  /** What a step does to its edge's verdict. */
  predicate IdleStep(s: Step, x: Item, y: Item) {
    SameIdle(x.s, y.s) || (s == EdgeDoneStep(x.s.edge, y.s.idleFault) && y.s.idleSeen)
  }

  lemma EvolveRange(c: Controller, s: Step, id: nat, x: Item)
    requires Enabled(c, s)
    ensures RangeStep(c, s, x, Evolve(c, s, id, x)) && IdleStep(s, x, Evolve(c, s, id, x))
  {
    if !s.TransferStep? && !s.EdgeDoneStep? { EvolveFrame(c, s, id, x); }
  }

  lemma RunRange(states: seq<Controller>, steps: seq<Step>, i: nat, id: nat)
    requires Run(states, steps) && i < |steps| && id in states[i].w.items
    ensures id in states[i + 1].w.items &&
      RangeStep(states[i], steps[i], states[i].w.items[id], states[i + 1].w.items[id])
    ensures IdleStep(steps[i], states[i].w.items[id], states[i + 1].w.items[id])
  {
    RunItem(states, steps, i, id);
    EvolveRange(states[i], steps[i], id, states[i].w.items[id]);
  }

  /** A sweep was there before, or this step registered it. */
  lemma RunBorn(states: seq<Controller>, steps: seq<Step>, i: nat, id: nat)
    requires Run(states, steps) && i < |steps| && id in states[i + 1].w.items && id !in states[i].w.items
    ensures Registers(states, steps, i, id) && states[i + 1].w.items[id] == Fresh(states[i].r.next, states[i].k.closed)
  {
    StepItems(states[i], steps[i]);
  }

  lemma RunDeferring(states: seq<Controller>, steps: seq<Step>, i: nat)
    requires Run(states, steps) && i < |states|
    ensures states[i].deferring == states[0].deferring
  {
    RunKeeps(states, steps, i);
  }

  /** Where a sweep's lower bound comes from. */
  lemma {:induction false} Registration(states: seq<Controller>, steps: seq<Step>, i: nat, id: nat) returns (b: nat)
    requires Run(states, steps) && i < |states| && id in states[i].w.items
    ensures b < i && Registers(states, steps, b, id) && states[i].w.items[id].s.after == states[b].r.next
  {
    assert i > 0;
    if id in states[i - 1].w.items {
      b := Registration(states, steps, i - 1, id);
      RunRange(states, steps, i - 1, id);
    } else {
      b := i - 1;
      RunBorn(states, steps, b, id);
    }
  }

  /** Where a sweep's cutoff and its edge come from. */
  lemma {:induction false} Taking(states: seq<Controller>, steps: seq<Step>, i: nat, id: nat) returns (t: nat)
    requires Run(states, steps) && i < |states| && id in states[i].w.items && states[i].w.items[id].s.edge > 0
    ensures t < i && TakesSweep(states, steps, t, id)
    ensures var s, u, c := states[i].w.items[id].s, states[t].w.items[id].s, states[t];
      s.after == u.after && s.edge == c.w.nextEdge && s.cutoff == if states[0].deferring then c.r.next else 0
  {
    assert i > 0;
    if id !in states[i - 1].w.items { RunBorn(states, steps, i - 1, id); }
    RunRange(states, steps, i - 1, id);
    if SameRange(states[i - 1].w.items[id].s, states[i].w.items[id].s) {
      t := Taking(states, steps, i - 1, id);
    } else {
      t := i - 1;
      RunDeferring(states, steps, t);
    }
  }

  /** Where a sweep's verdict on its edge comes from. */
  lemma {:induction false} Closing(states: seq<Controller>, steps: seq<Step>, i: nat, id: nat) returns (e: nat)
    requires Run(states, steps) && i < |states| && id in states[i].w.items && states[i].w.items[id].s.idleSeen
    ensures e < i && id in states[e].w.items && !states[e].w.items[id].s.idleSeen
    ensures var s := states[i].w.items[id].s;
      steps[e] == EdgeDoneStep(s.edge, s.idleFault) && SameRange(states[e].w.items[id].s, s)
  {
    assert i > 0;
    if id !in states[i - 1].w.items { RunBorn(states, steps, i - 1, id); }
    RunRange(states, steps, i - 1, id);
    if states[i - 1].w.items[id].s.idleSeen {
      SeenIsNotLive(states, steps, i - 1, id);
      e := Closing(states, steps, i - 1, id);
    } else {
      e := i - 1;
    }
  }

  /** A sweep whose edge is over is not live and its verdict stands. */
  lemma SeenIsNotLive(states: seq<Controller>, steps: seq<Step>, i: nat, id: nat)
    requires Run(states, steps) && i < |steps| && id in states[i].w.items && states[i].w.items[id].s.idleSeen
    ensures !states[i].w.items[id].live && steps[i] != EdgeDoneStep(states[i].w.items[id].s.edge, false)
    ensures steps[i] != EdgeDoneStep(states[i].w.items[id].s.edge, true)
  {
    RunItemOk(states, steps, i, id);
  }

  predicate WillResolve(x: Item) { x.settled || (x.answer.Some? && x.answer.value.Resolved?) }

  lemma EvolveDropped(c: Controller, s: Step, id: nat, x: Item)
    requires Enabled(c, s) && ShapeOk(x, c.w.edges, c.w.nextEdge, c.k.closed)
    ensures var y := Evolve(c, s, id, x);
      && (x.dropped ==> y.dropped && y.s.err == x.s.err && SameRange(x.s, y.s))
      && (x.dropped && WillResolve(y) ==> WillResolve(x) || !x.s.idleSeen)
      && (y.dropped && !x.dropped ==>
        s.ShutdownStep? && !c.k.closed && (x.live || x.deferred) && y.s == x.s && !WillResolve(y))
      && (x.s.idleSeen ==> y.s.idleSeen)
  {
  }

  /** Where shutdown took a sweep out of its map: nothing it knows has changed since, and one whose edge
      was over by then is told by shutdown alone. */
  lemma {:induction false} Dropping(states: seq<Controller>, steps: seq<Step>, i: nat, id: nat) returns (j: nat)
    requires Run(states, steps) && i < |states| && id in states[i].w.items && states[i].w.items[id].dropped
    ensures j < i && steps[j] == ShutdownStep && !states[j].k.closed && id in states[j].w.items
    ensures var x, y := states[j].w.items[id], states[i].w.items[id];
      && (x.live || x.deferred) && x.s.err == y.s.err && SameRange(x.s, y.s)
      && (WillResolve(y) ==> !x.s.idleSeen) && (x.s.idleSeen ==> y.s.idleSeen)
  {
    hide Apply;
    assert i > 0;
    StepItems(states[i - 1], steps[i - 1]);
    RunItem(states, steps, i - 1, id);
    RunItemOk(states, steps, i - 1, id);
    var x := states[i - 1].w.items[id];
    EvolveDropped(states[i - 1], steps[i - 1], id, x);
    if x.dropped {
      j := Dropping(states, steps, i - 1, id);
    } else {
      j := i - 1;
    }
  }

  /** Shutdown took the sweep out of its map while its edge was open, before any request in its range was
      recorded failed, and one was recorded failed afterwards: nobody was left to note it. */
  ghost predicate Missed(states: seq<Controller>, steps: seq<Step>, i: nat, id: nat, t: nat, e: nat, after: nat,
                         cutoff: nat)
    requires Run(states, steps)
  {
    && FailedIn(steps, i, after, cutoff)
    && exists j :: t < j < e && DropsSweep(states, steps, j, id) && !FailedIn(steps, j, after, cutoff)
  }

  /** The steps a sweep that was resolved went through. */
  lemma Story(states: seq<Controller>, steps: seq<Step>, i: nat, id: nat) returns (b: nat, t: nat, e: nat)
    requires Run(states, steps) && i < |states| && id in states[i].w.items && states[i].w.items[id].s.idleSeen
    ensures b < t < e < i && Registers(states, steps, b, id) && TakesSweep(states, steps, t, id)
    ensures id in states[e].w.items && states[e].w.items[id].s.edge == states[i].w.items[id].s.edge
    ensures var s := states[i].w.items[id].s;
      && s.after == states[b].r.next == states[t].w.items[id].s.after && s.edge == states[t].w.nextEdge
      && s.cutoff == (if states[0].deferring then states[t].r.next else 0)
      && steps[e] == EdgeDoneStep(s.edge, s.idleFault)
  {
    e := Closing(states, steps, i, id);
    RunItemOk(states, steps, i, id);
    t := Taking(states, steps, e, id);
    b := Registration(states, steps, t, id);
  }

  lemma Undropped(x: Item, g: Progress)
    requires FixedKnows(x, g) && x.answer.Some? && x.answer.value.Resolved? && !x.dropped && x.s.edge > 0
    ensures x.s.err <==> Between(g.failed, x.s.after, x.s.cutoff)
  {
  }

  /** What stays once it has happened to a sweep. */
  predicate Kept(x: Item, y: Item) {
    (x.dropped ==> y.dropped && y.s.err == x.s.err && SameRange(x.s, y.s)) && (x.s.idleSeen ==> y.s.idleSeen)
  }

  lemma RunDropped(states: seq<Controller>, steps: seq<Step>, i: nat, id: nat)
    requires Run(states, steps) && i < |steps| && id in states[i].w.items
    ensures id in states[i + 1].w.items && Kept(states[i].w.items[id], states[i + 1].w.items[id])
  {
    RunItem(states, steps, i, id);
    RunItemOk(states, steps, i, id);
    EvolveDropped(states[i], steps[i], id, states[i].w.items[id]);
  }

  lemma {:induction false} Onward(states: seq<Controller>, steps: seq<Step>, i: nat, j: nat, id: nat)
    requires Run(states, steps) && i <= j < |states| && id in states[i].w.items
    ensures id in states[j].w.items && Kept(states[i].w.items[id], states[j].w.items[id])
  {
    if i < j {
      Onward(states, steps, i, j - 1, id);
      RunDropped(states, steps, j - 1, id);
    }
  }

  /** What shutdown took out of the deferred map knew all that had failed until then, and learns no more. */
  lemma DropKnows(states: seq<Controller>, steps: seq<Step>, i: nat, j: nat, id: nat)
    requires Run(states, steps) && j < i < |states| && states[0].deferring && DropsSweep(states, steps, j, id)
    ensures id in states[i].w.items && states[i].w.items[id].dropped
    ensures var s := states[i].w.items[id].s; s.err <==> FailedIn(steps, j, s.after, s.cutoff)
  {
    RunItem(states, steps, j, id);
    RunItemOk(states, steps, j, id);
    Onward(states, steps, j + 1, i, id);
    FailedInIs(states, steps, j, states[j].w.items[id].s.after, states[j].w.items[id].s.cutoff);
  }

  lemma DropsOrNot(states: seq<Controller>, steps: seq<Step>, j: nat, id: nat)
    requires Run(states, steps) && j < |steps| && steps[j] == ShutdownStep && !states[j].k.closed &&
      id in states[j].w.items
    requires var x := states[j].w.items[id]; (x.live || x.deferred) && x.s.edge > 0
    ensures DropsSweep(states, steps, j, id) && id in states[j + 1].w.items && states[j + 1].w.items[id].dropped
  {
    RunItemOk(states, steps, j, id);
    RunItem(states, steps, j, id);
  }

  lemma LiveIsNotDropped(states: seq<Controller>, steps: seq<Step>, t: nat, id: nat)
    requires Run(states, steps) && TakesSweep(states, steps, t, id)
    ensures !states[t].w.items[id].dropped
  {
    RunItemOk(states, steps, t, id);
  }

  lemma ClosesIt(states: seq<Controller>, steps: seq<Step>, e: nat, id: nat)
    requires Run(states, steps) && e < |steps| && id in states[e].w.items
    requires steps[e].EdgeDoneStep? && steps[e].edge == states[e].w.items[id].s.edge
    ensures id in states[e + 1].w.items && states[e + 1].w.items[id].s.idleSeen
  {
    RunItem(states, steps, e, id);
  }

  /** Shutdown took a sweep that is going to be resolved after its edge did and before the edge was over. */
  lemma DroppedInside(states: seq<Controller>, steps: seq<Step>, j: nat, id: nat, t: nat, e: nat)
    requires Run(states, steps) && j < |steps| && t < e < |steps| && TakesSweep(states, steps, t, id)
    requires id in states[e].w.items && steps[e].EdgeDoneStep? && steps[e].edge == states[e].w.items[id].s.edge
    requires steps[j] == ShutdownStep && !states[j].k.closed && id in states[j].w.items
    requires var x := states[j].w.items[id]; (x.live || x.deferred) && !x.s.idleSeen && x.s.edge > 0
    ensures t < j < e && DropsSweep(states, steps, j, id)
  {
    DropsOrNot(states, steps, j, id);
    LiveIsNotDropped(states, steps, t, id);
    ClosesIt(states, steps, e, id);
    if j < t { Onward(states, steps, j + 1, t, id); }
    if e < j { Onward(states, steps, e + 1, j, id); }
  }

  /** Whether a resolved sweep knows of its failed requests. */
  lemma KnowsUnlessMissed(states: seq<Controller>, steps: seq<Step>, i: nat, id: nat, t: nat, e: nat)
    requires Run(states, steps) && i < |states| && states[0].deferring && id in states[i].w.items
    requires states[i].w.items[id].answer.Some? && states[i].w.items[id].answer.value.Resolved?
    requires states[i].w.items[id].s.idleSeen && t < e < i && TakesSweep(states, steps, t, id)
    requires id in states[e].w.items && steps[e].EdgeDoneStep? && steps[e].edge == states[e].w.items[id].s.edge
    ensures var s := states[i].w.items[id].s;
      s.err <==> FailedIn(steps, i, s.after, s.cutoff) && !Missed(states, steps, i, id, t, e, s.after, s.cutoff)
  {
    var x := states[i].w.items[id];
    RunItemOk(states, steps, i, id);
    FailedInIs(states, steps, i, x.s.after, x.s.cutoff);
    forall j | t < j < e && DropsSweep(states, steps, j, id)
      ensures x.s.err <==> FailedIn(steps, j, x.s.after, x.s.cutoff)
    {
      DropKnows(states, steps, i, j, id);
    }
    if x.dropped {
      var j := Dropping(states, steps, i, id);
      DroppedInside(states, steps, j, id, t, e);
    } else {
      Undropped(x, ProgressOf(states[i].r));
    }
  }

  /** What a sweep is told that was neither cancelled nor shut down, under a required policy on step or
      turn end. It was registered at step b, taken by an idle edge at step t, and that edge ended at step
      e; every request issued before t is recorded. It never blames a request without cause, and what it
      is told is the truth about its edge and its requests if and only if no failure was missed. */
  lemma SweepIsToldTheTruth(states: seq<Controller>, steps: seq<Step>, i: nat, id: nat, fault: bool)
      returns (b: nat, t: nat, e: nat)
    requires Run(states, steps) && i < |states| && states[0].deferring && ToldWith(states[i], id, Resolved(fault))
    ensures b < t < e < i && Registers(states, steps, b, id) && TakesSweep(states, steps, t, id)
    ensures steps[e].EdgeDoneStep? && steps[e].edge == states[t].w.nextEdge
    ensures forall n :: 0 < n <= states[t].r.next ==> Recorded(steps, i, n)
    ensures
      var after, cutoff, edgeFault := states[b].r.next, states[t].r.next, steps[e].fault;
      && (fault ==> edgeFault || FailedIn(steps, i, after, cutoff))
      && ((fault <==> edgeFault || FailedIn(steps, i, after, cutoff)) <==>
        edgeFault || !Missed(states, steps, i, id, t, e, after, cutoff))
  {
    RunItemOk(states, steps, i, id);
    b, t, e := Story(states, steps, i, id);
    KnowsUnlessMissed(states, steps, i, id, t, e);
    forall n | 0 < n <= states[t].r.next ensures Recorded(steps, i, n) {
      RecordedIs(states, steps, i, n);
    }
  }

  /** Without deferral a sweep is told of exactly the failures recorded before its edge took it. */
  lemma ReadySweepIsToldTheTruth(states: seq<Controller>, steps: seq<Step>, i: nat, id: nat, fault: bool)
      returns (b: nat, t: nat, e: nat)
    requires Run(states, steps) && i < |states| && !states[0].deferring && ToldWith(states[i], id, Resolved(fault))
    ensures b < t < e < i && Registers(states, steps, b, id) && TakesSweep(states, steps, t, id)
    ensures steps[e].EdgeDoneStep? && steps[e].edge == states[t].w.nextEdge
    ensures fault <==> steps[e].fault || FailedIn(steps, t, states[b].r.next, states[t].r.next)
  {
    RunItemOk(states, steps, i, id);
    b, t, e := Story(states, steps, i, id);
    RunItemOk(states, steps, t, id);
    FailedInIs(states, steps, t, states[b].r.next, states[t].r.next);
    RunKeeps(states, steps, t);
    RunItem(states, steps, t, id);
    ErrStays(states, steps, t + 1, i, id);
  }

  lemma EvolveUndeferred(c: Controller, s: Step, id: nat, x: Item)
    requires Enabled(c, s) && !c.deferring && !x.live && !x.deferred
    ensures var y := Evolve(c, s, id, x); y.s.err == x.s.err && !y.live && !y.deferred
  {
  }

  lemma {:induction false} ErrStays(states: seq<Controller>, steps: seq<Step>, i: nat, j: nat, id: nat)
    requires Run(states, steps) && i <= j < |states| && !states[0].deferring && id in states[i].w.items
    requires !states[i].w.items[id].live && !states[i].w.items[id].deferred
    ensures id in states[j].w.items
    ensures var y := states[j].w.items[id]; y.s.err == states[i].w.items[id].s.err && !y.live && !y.deferred
  {
    hide Apply;
    if i < j {
      ErrStays(states, steps, i, j - 1, id);
      RunItem(states, steps, j - 1, id);
      RunKeeps(states, steps, j - 1);
      EvolveUndeferred(states[j - 1], steps[j - 1], id, states[j - 1].w.items[id]);
    }
  }

  /** A sweep that shutdown ends for a request names one that failed after its registration. */
  lemma ShutdownBlamesTruly(states: seq<Controller>, steps: seq<Step>, i: nat, id: nat) returns (b: nat)
    requires Run(states, steps) && i < |states| && ToldWith(states[i], id, ShutDown(true))
    ensures b < i && Registers(states, steps, b, id) && FailedIn(steps, i, states[b].r.next, states[i].r.next)
  {
    RunItemOk(states, steps, i, id);
    b := Registration(states, steps, i, id);
    FailedInIs(states, steps, i, states[b].r.next, states[i].r.next);
  }

  /** Every sweep ever begun was told, or waits in a map, for its edge, for a caller that holds it, or for
      shutdown; it is in one map at most; and one whose edge is over waits for a request. */
  lemma NoSweepIsStranded(states: seq<Controller>, steps: seq<Step>, i: nat, id: nat)
    requires Run(states, steps) && i < |states| && 0 < id <= states[i].w.nextId
    ensures id in states[i].w.items && NotForgotten(states[i].w.items[id], states[i].w.edges)
    ensures var x := states[i].w.items[id];
      && !(x.live && x.deferred) && (x.live || x.deferred ==> x.answer.None? && !x.settled && !x.ending)
      && (x.deferred && x.s.edge !in states[i].w.edges ==> exists n :: 0 < n <= x.s.cutoff && !Recorded(steps, i, n))
  {
    RunSweeps(states, steps, i);
    RunItemOk(states, steps, i, id);
    var x := states[i].w.items[id];
    if x.deferred && x.s.edge !in states[i].w.edges {
      WatermarkIsLongestPrefix(states, steps, i);
      assert 0 < states[i].r.completed + 1 <= x.s.cutoff;
    }
  }

  /** Nobody is at work on the sweeps any more: no edge is open, every request issued is recorded, and
      nobody holds a sweep. */
  ghost predicate Quiet(c: Controller) {
    c.w.edges == {} && c.r.completed == c.r.next &&
    forall id :: id in c.w.items ==> !c.w.items[id].live && !c.w.items[id].settled && !c.w.items[id].ending
  }

  /** Then every sweep ever begun was told. */
  lemma QuietMeansTold(states: seq<Controller>, steps: seq<Step>, i: nat, id: nat)
    requires Run(states, steps) && i < |states| && Quiet(states[i]) && 0 < id <= states[i].w.nextId
    ensures exists o :: ToldWith(states[i], id, o)
  {
    RunSweeps(states, steps, i);
    RunItemOk(states, steps, i, id);
    assert ToldWith(states[i], id, states[i].w.items[id].answer.value);
  }

  // ---------------------------------------------------------------- a run in which a failure is missed

  /** Shutdown takes the sweep out of its map, the request fails with nobody to note it, and the edge's
      caller tells the sweep before shutdown does. */
  const MISSING_STEPS := [BeginStep, EnqueueStep, TakeStep, TransferStep, ShutdownStep, RecordStep(1, true),
                          EdgeDoneStep(1, false), DeliverStep(1)]

  const WAITING := Item(Sweep(0, 1, 1, false, false, false), false, true, false, false, false, None)

  /** The request runs and the sweep waits for it. */
  function Deferred(k: Workers): Controller {
    Controller(true, Required(1, 0, map[], [], Busy(1), 1, {}, {}), Sweeps(1, map[1 := WAITING], {1}, 2), k)
  }

  /** The request failed, and what the sweep knows of it is nothing. */
  function Unnoticed(k: Workers): Controller {
    Controller(true, Required(1, 1, map[], [], Looking, 1, {}, {1}),
               Sweeps(1, map[1 := Drop(WAITING)], {1}, 2), k)
  }

  lemma ReachDeferred() returns (states: seq<Controller>)
    ensures Run(states, MISSING_STEPS[..4]) && states[4] == Deferred(Add(NO_WORKERS))
    ensures states[0].deferring && states[0].w.nextId == 0 && states[0].r.next == 0 && states[3].r.next == 1
    ensures 1 in states[3].w.items && states[3].w.items[1].live
  {
    var c0 := Init(true);
    var c1 := Apply(c0, MISSING_STEPS[0]);
    assert c1.w.items == map[1 := Fresh(0, false)];
    var c2 := Apply(c1, MISSING_STEPS[1]);
    assert c2.r == Required(1, 0, map[], [1], Looking, 0, {}, {});
    var c3 := Apply(c2, MISSING_STEPS[2]);
    assert c3.r == Required(1, 0, map[], [], Busy(1), 1, {}, {});
    assert c3.w.items[1].live;
    var c4 := Apply(c3, MISSING_STEPS[3]);
    assert c4.w.items == map[1 := WAITING];
    states := [c0, c1, c2, c3, c4];
  }

  lemma ReachUnnoticed(k: Workers)
    requires !k.closed
    ensures var c := Apply(Deferred(k), ShutdownStep);
      Enabled(c, RecordStep(1, true)) &&
      Apply(c, RecordStep(1, true)) == Unnoticed(k.(closed := true, pending := false, leaving := k.leaving + 1))
  {
    var c := Apply(Deferred(k), ShutdownStep);
    assert c.w.items == map[1 := Drop(WAITING)];
    assert Advance(0, map[1 := true]) == (1, map[]) by {
      assert map[1 := true] - {1} == map[];
      assert Advance(1, map[]) == (1, map[]);
    }
    var d := Apply(c, RecordStep(1, true));
    assert d.w.items == map[1 := Drop(WAITING)];
    assert d.r == Required(1, 1, map[], [], Looking, 1, {}, {1});
  }

  lemma ReachResolved(k: Workers)
    ensures var c := Unnoticed(k);
      && Enabled(c, EdgeDoneStep(1, false)) && Enabled(Apply(c, EdgeDoneStep(1, false)), DeliverStep(1))
      && ToldWith(Apply(Apply(c, EdgeDoneStep(1, false)), DeliverStep(1)), 1, Resolved(false))
  {
  }

  lemma Extend(states: seq<Controller>, steps: seq<Step>, s: Step) returns (longer: seq<Controller>)
    requires Run(states, steps) && Enabled(states[|steps|], s)
    ensures Run(longer, steps + [s]) && longer[..|steps| + 1] == states &&
      longer[|steps| + 1] == Apply(states[|steps|], s)
  {
    longer := states + [Apply(states[|steps|], s)];
  }

  lemma RunUnnoticed() returns (states: seq<Controller>)
    ensures Run(states, MISSING_STEPS[..6]) && states[6] == Unnoticed(states[6].k)
    ensures states[0].deferring && states[0].w.nextId == 0 && states[0].r.next == 0 && states[3].r.next == 1
    ensures 1 in states[3].w.items && states[3].w.items[1].live
  {
    var prefix := ReachDeferred();
    ReachUnnoticed(Add(NO_WORKERS));
    var s5 := Extend(prefix, MISSING_STEPS[..4], ShutdownStep);
    assert MISSING_STEPS[..4] + [ShutdownStep] == MISSING_STEPS[..5];
    states := Extend(s5, MISSING_STEPS[..5], RecordStep(1, true));
    assert MISSING_STEPS[..5] + [RecordStep(1, true)] == MISSING_STEPS[..6];
    assert states[..5] == prefix;
    assert states[0] == prefix[0] && states[3] == prefix[3];
  }

  /** The input that shows it: a run at whose end a sweep was told that all is well although a request it
      covers was recorded failed. */
  lemma ShutdownCanHideAFailure() returns (states: seq<Controller>)
    ensures Run(states, MISSING_STEPS) && states[0].deferring && ToldWith(states[8], 1, Resolved(false))
    ensures Registers(states, MISSING_STEPS, 0, 1) && TakesSweep(states, MISSING_STEPS, 3, 1)
    ensures states[0].r.next < 1 <= states[3].r.next && RecordedFailure(MISSING_STEPS, 8, 1)
  {
    var prefix := RunUnnoticed();
    ReachResolved(prefix[6].k);
    var s7 := Extend(prefix, MISSING_STEPS[..6], EdgeDoneStep(1, false));
    assert MISSING_STEPS[..6] + [EdgeDoneStep(1, false)] == MISSING_STEPS[..7];
    states := Extend(s7, MISSING_STEPS[..7], DeliverStep(1));
    assert MISSING_STEPS[..7] + [DeliverStep(1)] == MISSING_STEPS;
    assert states[..7] == prefix;
    assert states[0] == prefix[0] && states[3] == prefix[3];
    assert MISSING_STEPS[5] == RecordStep(1, true);
  }

  // ---------------------------------------------------------------- workers, over every run

  lemma StepAfterClose(c: Controller, s: Step)
    requires WorkersOk(Held(c.r), c.k) && Enabled(c, s) && c.k.closed
    ensures Apply(c, s).k.closed && Apply(c, s).k.count <= c.k.count
  {
  }

  predicate FewerWorkers(k: Workers, l: Workers) { l.closed && l.count <= k.count }

  lemma {:induction false} WorkersShrink(states: seq<Controller>, steps: seq<Step>, i: nat, j: nat)
    requires Run(states, steps) && i <= j < |states| && states[i].k.closed
    ensures FewerWorkers(states[i].k, states[j].k)
  {
    hide Apply;
    if i < j {
      WorkersShrink(states, steps, i, j - 1);
      RunWorkers(states, steps, j - 1);
      StepAfterClose(states[j - 1], steps[j - 1]);
    }
  }

  /** Once shutdown has begun no worker starts, and the drain channel closes at zero and stays closed. */
  lemma NoWorkerAfterShutdown(states: seq<Controller>, steps: seq<Step>, i: nat, j: nat)
    requires Run(states, steps) && i <= j < |states| && states[i].k.closed
    ensures states[j].k.closed && states[j].k.count <= states[i].k.count
    ensures states[j].k.drainedOpen <==> states[j].k.count > 0
    ensures !states[i].k.drainedOpen ==> !states[j].k.drainedOpen
  {
    WorkersShrink(states, steps, i, j);
    RunWorkers(states, steps, i);
    RunWorkers(states, steps, j);
  }

  /** The count is the number of workers there are: queued, running and settling requests, a walk,
      manual operations, and those about to leave. */
  lemma CountIsWorkers(states: seq<Controller>, steps: seq<Step>, i: nat)
    requires Run(states, steps) && i < |states|
    ensures
      var c := states[i];
      c.k.count == |c.r.queue| + One(c.r.runner.Busy?) + |c.r.settling| + One(c.k.active) + c.k.manualWaiting +
        c.k.leaving
    ensures states[i].r.queue != [] ==> !states[i].r.runner.Absent?
  {
    RunKeeps(states, steps, i);
  }
}
