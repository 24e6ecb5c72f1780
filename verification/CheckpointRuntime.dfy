/** The controller as it runs (internal/sessionruntime/checkpoint_controller.go): one object whose
    methods, each under the mutex, change its numbers, its queue and its maps in place. The
    postconditions give the new state as the step of CheckpointController. What the source keeps in its
    callers' hands is kept here too: the slices of sweeps that callers still have to tell are fields, the
    rest (withdrawn requests, open edges) is ghost. */
module CheckpointRuntime {
  import opened CheckpointController
  import opened Options

  /** The sweeps of a map that the failed number belongs to learn of it. */
  method BlameAll(table: map<nat, Sweep>, ids: set<nat>, n: nat, bounded: bool) returns (out: map<nat, Sweep>)
    requires ids <= table.Keys
    ensures out.Keys == table.Keys
    ensures forall id :: id in table ==>
      out[id] == if id in ids && InRange(table[id], n, bounded) then table[id].(err := true) else table[id]
  {
    out := table;
    var left := ids;
    while left != {}
      invariant left <= ids && out.Keys == table.Keys
      invariant forall id :: id in table ==>
        out[id] == if id in ids - left && InRange(table[id], n, bounded) then table[id].(err := true) else table[id]
      decreases |left|
    {
      var id :| id in left;
      if n > table[id].after && (!bounded || n <= table[id].cutoff) {
        out := out[id := table[id].(err := true)];
      }
      left := left - {id};
    }
  }

  /** The deferred sweeps that need not wait any longer. */
  method SplitReady(table: map<nat, Sweep>, ids: set<nat>, completed: nat) returns (rest: set<nat>, ready: set<nat>)
    requires ids <= table.Keys
    ensures ready == (set id | id in ids && table[id].idleSeen && completed >= table[id].cutoff) && rest == ids - ready
  {
    rest, ready := ids, {};
    var left := ids;
    while left != {}
      invariant left <= ids && rest == ids - ready
      invariant ready == set id | id in ids - left && table[id].idleSeen && completed >= table[id].cutoff
      decreases |left|
    {
      var id :| id in left;
      if table[id].idleSeen && completed >= table[id].cutoff {
        rest, ready := rest - {id}, ready + {id};
      }
      left := left - {id};
    }
  }

  /** A failed request is noted in both maps. */
  method BlameBoth(table: map<nat, Sweep>, live: set<nat>, deferred: set<nat>, n: nat) returns (out: map<nat, Sweep>)
    requires live + deferred <= table.Keys
    ensures out.Keys == table.Keys
    ensures forall id :: id in table ==>
      out[id] == if (id in live && InRange(table[id], n, false)) || (id in deferred && InRange(table[id], n, true))
        then table[id].(err := true) else table[id]
  {
    var half := BlameAll(table, live, n, false);
    out := BlameAll(half, deferred, n, true);
  }

  /** Every sweep of the live map, with its cutoff and its edge fixed. */
  method HandAll(table: map<nat, Sweep>, ids: set<nat>, cutoff: nat, edge: nat) returns (out: map<nat, Sweep>)
    requires ids <= table.Keys
    ensures out.Keys == table.Keys
    ensures forall id :: id in table ==>
      out[id] == if id in ids then table[id].(cutoff := cutoff, edge := edge) else table[id]
  {
    out := table;
    var left := ids;
    while left != {}
      invariant left <= ids && out.Keys == table.Keys
      invariant forall id :: id in table ==>
        out[id] == if id in ids - left then table[id].(cutoff := cutoff, edge := edge) else table[id]
      decreases |left|
    {
      var id :| id in left;
      out := out[id := table[id].(cutoff := cutoff, edge := edge)];
      left := left - {id};
    }
  }

  /** The edge is over for the sweeps it took, and those that need not wait are given back. */
  method MarkAll(table: map<nat, Sweep>, ids: set<nat>, fault: bool, completed: nat)
      returns (out: map<nat, Sweep>, ready: set<nat>)
    requires ids <= table.Keys
    ensures out.Keys == table.Keys && ready <= ids
    ensures forall id :: id in ids ==> (id in ready <==> table[id].cutoff <= completed)
    ensures forall id :: id in table ==>
      out[id] == if id in ids then table[id].(idleSeen := true, idleFault := fault) else table[id]
  {
    out, ready := table, {};
    var left := ids;
    while left != {}
      invariant left <= ids && out.Keys == table.Keys
      invariant ready <= ids - left
      invariant forall id :: id in ids - left ==> (id in ready <==> table[id].cutoff <= completed)
      invariant forall id :: id in table ==>
        out[id] == if id in ids - left then table[id].(idleSeen := true, idleFault := fault) else table[id]
      decreases |left|
    {
      var id :| id in left;
      out := out[id := table[id].(idleSeen := true, idleFault := fault)];
      if completed >= table[id].cutoff { ready := ready + {id}; }
      left := left - {id};
    }
  }

  /** Who holds which sweep. */
  datatype Holders = Holders(live: set<nat>, deferred: set<nat>, settled: set<nat>, dropped: set<nat>, ending: set<nat>)

  ghost function ItemOf(s: Sweep, h: Holders, answers: map<nat, Outcome>, id: nat): Item {
    Item(s, id in h.live, id in h.deferred, id in h.settled, id in h.dropped, id in h.ending,
         if id in answers then Some(answers[id]) else None)
  }

  ghost function ItemsOf(table: map<nat, Sweep>, h: Holders, answers: map<nat, Outcome>): map<nat, Item> {
    map id | id in table :: ItemOf(table[id], h, answers, id)
  }

  ghost predicate TableOk(table: map<nat, Sweep>, h: Holders, answers: map<nat, Outcome>, next: nat) {
    && h.live + h.deferred + h.settled + h.dropped + h.ending + answers.Keys <= table.Keys && h.live !! h.deferred
    && forall id :: id in table ==> 0 < id <= next
  }

  /** What an operation on the table and its holders makes of every item, one lemma for each operation. */
  lemma NoteItems(table: map<nat, Sweep>, out: map<nat, Sweep>, h: Holders, answers: map<nat, Outcome>,
                  n: nat, failure: bool, completed: nat, ready: set<nat>)
    requires h.live + h.deferred <= table.Keys && out.Keys == table.Keys
    requires forall id :: id in table ==>
      out[id] == if failure then Blame(ItemOf(table[id], h, answers, id), n).s else table[id]
    requires ready == set id | id in h.deferred && out[id].idleSeen && completed >= out[id].cutoff
    ensures ItemsOf(out, h.(deferred := h.deferred - ready, settled := h.settled + ready), answers) ==
      NotedAll(ItemsOf(table, h, answers), n, failure, completed)
  {
    var k, items := h.(deferred := h.deferred - ready, settled := h.settled + ready), ItemsOf(table, h, answers);
    forall id | id in table ensures ItemOf(out[id], k, answers, id) == Note(items[id], n, failure, completed) {
      NoteItem(table[id], out[id], h, answers, n, failure, completed, id);
    }
  }

  lemma NoteItem(s: Sweep, u: Sweep, h: Holders, answers: map<nat, Outcome>, n: nat, failure: bool, completed: nat,
                 id: nat)
    requires u == if failure then Blame(ItemOf(s, h, answers, id), n).s else s
    ensures
      var x, ready := ItemOf(s, h, answers, id), id in h.deferred && u.idleSeen && completed >= u.cutoff;
      Note(x, n, failure, completed) ==
        x.(s := u, deferred := id in h.deferred && !ready, settled := id in h.settled || ready)
  {
  }

  lemma HandedItems(table: map<nat, Sweep>, out: map<nat, Sweep>, h: Holders, answers: map<nat, Outcome>,
                    cutoff: nat, edge: nat, deferred: set<nat>)
    requires out.Keys == table.Keys && h.live !! h.deferred && (deferred == h.live || deferred == {})
    requires forall id :: id in table ==>
      out[id] == if id in h.live then table[id].(cutoff := cutoff, edge := edge) else table[id]
    ensures ItemsOf(out, h.(live := {}, deferred := h.deferred + deferred), answers) ==
      HandedAll(ItemsOf(table, h, answers), cutoff, edge, deferred != {})
  {
  }

  lemma NoneLiveIs(table: map<nat, Sweep>, h: Holders, answers: map<nat, Outcome>)
    requires h.live <= table.Keys
    ensures (forall id :: id in ItemsOf(table, h, answers) ==> !ItemsOf(table, h, answers)[id].live) <==> h.live == {}
  {
    if h.live != {} {
      var id :| id in h.live;
      assert ItemsOf(table, h, answers)[id].live;
    }
  }

  lemma EdgeItems(table: map<nat, Sweep>, out: map<nat, Sweep>, h: Holders, answers: map<nat, Outcome>,
                  edge: nat, fault: bool, completed: nat, told: set<nat>)
    requires out.Keys == table.Keys
    requires forall id :: id in table ==> (id in told <==> table[id].edge == edge && table[id].cutoff <= completed)
    requires forall id :: id in table ==>
      out[id] == if table[id].edge == edge then table[id].(idleSeen := true, idleFault := fault) else table[id]
    ensures ItemsOf(out, h.(deferred := h.deferred - told, settled := h.settled + told), answers) ==
      EdgeOverAll(ItemsOf(table, h, answers), edge, fault, completed)
  {
  }

  lemma DropItems(table: map<nat, Sweep>, h: Holders, answers: map<nat, Outcome>)
    ensures
      var taken := h.live + h.deferred;
      ItemsOf(table, Holders({}, {}, h.settled, h.dropped + taken, h.ending + taken), answers) ==
        DroppedAll(ItemsOf(table, h, answers))
  {
  }

  lemma OneItem(table: map<nat, Sweep>, h: Holders, k: Holders, answers: map<nat, Outcome>, told: map<nat, Outcome>,
                id: nat)
    requires id in table && (forall o :: o != id ==> SameAt(h, k, o) && (o in answers <==> o in told))
    requires forall o :: o != id && o in answers ==> told[o] == answers[o]
    ensures ItemsOf(table, k, told) == ItemsOf(table, h, answers)[id := ItemOf(table[id], k, told, id)]
  {
    forall o | o in table && o != id ensures ItemsOf(table, k, told)[o] == ItemsOf(table, h, answers)[o] {
      assert SameAt(h, k, o);
    }
  }

  predicate SameAt(h: Holders, k: Holders, id: nat) {
    && (id in h.live <==> id in k.live) && (id in h.deferred <==> id in k.deferred) &&
      (id in h.settled <==> id in k.settled)
    && (id in h.dropped <==> id in k.dropped) && (id in h.ending <==> id in k.ending)
  }

  lemma FreshItem(table: map<nat, Sweep>, h: Holders, answers: map<nat, Outcome>, id: nat, after: nat, closed: bool)
    requires id > 0 && TableOk(table, h, answers, id - 1)
    ensures
      var t := table[id := Fresh(after, closed).s];
      ItemsOf(t, if closed then h else h.(live := h.live + {id}),
        if closed then answers[id := ShutDown(false)] else answers)
        == ItemsOf(table, h, answers)[id := Fresh(after, closed)]
  {
  }

  class Checkpoints {
    const deferring: bool
    var requiredNext: nat
    var requiredCompleted: nat
    var requiredFinished: map<nat, bool>
    var requiredQueue: seq<nat>
    var requiredRunner: Runner
    ghost var lastStarted: nat
    ghost var settling: set<nat>
    ghost var failed: set<nat>

    // The sweeps are shared by the maps and by their callers' slices, so they are kept in one table and
    // the two maps are the ids they hold. `answers` is what the result channels hold.
    var interruptNext: nat
    var sweeps: map<nat, Sweep>
    var interruptSweeps: set<nat>
    var interruptDeferred: set<nat>
    var answers: map<nat, Outcome>
    var nextEdge: nat
    var settled: set<nat>
    var ending: set<nat>
    ghost var dropped: set<nat>
    ghost var edges: set<nat>

    var workers: Workers

    ghost function Requests(): Required
      reads this`requiredNext, this`requiredCompleted, this`requiredFinished, this`requiredQueue, this`requiredRunner
      reads this`lastStarted, this`settling, this`failed
    {
      Required(requiredNext, requiredCompleted, requiredFinished, requiredQueue, requiredRunner, lastStarted,
        settling, failed)
    }

    ghost function HeldBy(): Holders
      reads this`interruptSweeps, this`interruptDeferred, this`settled, this`dropped, this`ending
    {
      Holders(interruptSweeps, interruptDeferred, settled, dropped, ending)
    }

    ghost function Items(): map<nat, Item>
      reads this`sweeps, this`interruptSweeps, this`interruptDeferred, this`settled, this`dropped, this`ending,
        this`answers
    {
      ItemsOf(sweeps, HeldBy(), answers)
    }

    ghost function Interrupts(): Sweeps
      reads this`sweeps, this`interruptSweeps, this`interruptDeferred, this`settled, this`dropped, this`ending,
        this`answers
      reads this`interruptNext, this`edges, this`nextEdge
    {
      Sweeps(interruptNext, Items(), edges, nextEdge)
    }

    ghost predicate Valid()
      reads this`sweeps, this`interruptSweeps, this`interruptDeferred, this`settled, this`dropped, this`ending,
        this`answers
      reads this`interruptNext
    {
      TableOk(sweeps, HeldBy(), answers, interruptNext)
    }

    ghost function State(): Controller
      reads this
    {
      Controller(deferring, Requests(), Interrupts(), workers)
    }

    constructor (defers: bool)
      ensures Valid() && State() == Init(defers)
    {
      deferring := defers;
      requiredNext, requiredCompleted, requiredFinished, requiredQueue, requiredRunner := 0, 0, map[], [], Absent;
      lastStarted, settling, failed := 0, {}, {};
      interruptNext, sweeps, interruptSweeps, interruptDeferred := 0, map[], {}, {};
      settled, dropped, ending, answers, edges, nextEdge := {}, {}, {}, map[], {}, 1;
      workers := NO_WORKERS;
    }

    /** The first section of `runRequired`. */
    method EnqueueRequired() returns (n: nat, startRunner: bool)
      modifies this`workers, this`requiredNext, this`requiredQueue, this`requiredRunner
      ensures Requests() == if old(workers).closed then old(Requests()) else Enqueue(old(Requests()))
      ensures workers == if old(workers).closed then old(workers) else Add(old(workers))
      ensures startRunner <==> !old(workers).closed && old(requiredRunner).Absent?
      ensures !old(workers).closed ==> n == requiredNext && requiredQueue == old(requiredQueue) + [n]
    {
      n, startRunner := 0, false;
      if workers.closed { return; }
      workers := Add(workers);
      requiredNext := requiredNext + 1;
      n := requiredNext;
      requiredQueue := requiredQueue + [n];
      startRunner := requiredRunner == Absent;
      if startRunner { requiredRunner := Looking; }
    }

    /** The section of `runRequired` whose caller gave up before the request was taken. */
    method WithdrawRequired(n: nat) returns (removed: bool)
      modifies this`requiredQueue, this`settling
      ensures State() == Apply(old(State()), WithdrawStep(n))
      ensures removed <==> n in old(requiredQueue)
    {
      removed := false;
      var i := 0;
      while i < |requiredQueue|
        invariant i <= |requiredQueue| && !removed && forall j :: 0 <= j < i ==> requiredQueue[j] != n
        invariant unchanged(this)
      {
        if requiredQueue[i] == n {
          RemoveFirst(requiredQueue, n, i);
          requiredQueue := requiredQueue[..i] + requiredQueue[i + 1..];
          settling := settling + {n};
          return true;
        }
        i := i + 1;
      }
    }

    /** One turn of `runRequiredQueue`. */
    method TakeRequired() returns (taken: bool, n: nat)
      requires requiredRunner.Looking?
      modifies this`requiredRunner, this`requiredQueue, this`lastStarted
      ensures State() == Apply(old(State()), TakeStep)
      ensures taken <==> old(requiredQueue) != []
      ensures taken ==> n == old(requiredQueue)[0]
    {
      if |requiredQueue| == 0 {
        requiredRunner := Absent;
        return false, 0;
      }
      n := requiredQueue[0];
      requiredQueue := requiredQueue[1..];
      requiredRunner := Busy(n);
      lastStarted := n;
      taken := true;
    }

    /** The loop of `recordRequiredCompletion` that moves the watermark. */
    method AdvanceWatermark()
      modifies this`requiredCompleted, this`requiredFinished
      ensures (requiredCompleted, requiredFinished) == Advance(old(requiredCompleted), old(requiredFinished))
    {
      while requiredCompleted + 1 in requiredFinished
        invariant Advance(requiredCompleted, requiredFinished) == Advance(old(requiredCompleted), old(requiredFinished))
        decreases requiredFinished.Keys
      {
        var next := requiredCompleted + 1;
        assert (requiredFinished - {next}).Keys == requiredFinished.Keys - {next};
        requiredFinished := requiredFinished - {next};
        requiredCompleted := next;
      }
    }

    /** The sweeps' part of `recordRequiredCompletion`. */
    method NoteCompletion(n: nat, failure: bool)
      requires Valid()
      modifies this`sweeps, this`interruptDeferred, this`settled
      ensures Valid() && Interrupts() == NoteAll(old(Interrupts()), n, failure, requiredCompleted)
    {
      if failure { sweeps := BlameBoth(sweeps, interruptSweeps, interruptDeferred, n); }
      var rest, ready := SplitReady(sweeps, interruptDeferred, requiredCompleted);
      interruptDeferred := rest;
      settled := settled + ready;
      NoteItems(old(sweeps), sweeps, old(HeldBy()), answers, n, failure, requiredCompleted, ready);
    }

    /** The numbers' part of `recordRequiredCompletion`. */
    method NoteNumber(n: nat, failure: bool)
      modifies this`requiredFinished, this`requiredCompleted, this`settling, this`failed, this`requiredRunner
      ensures Requests() == Record(old(Requests()), n, failure)
    {
      requiredFinished := requiredFinished[n := failure];
      AdvanceWatermark();
      settling := settling - {n};
      if failure { failed := failed + {n}; }
      if requiredRunner == Busy(n) { requiredRunner := Looking; }
    }

    /** `recordRequiredCompletion`; the numbers move before the sweeps are looked at for readiness, and
        blaming them does not depend on the numbers. */
    method RecordRequiredCompletion(n: nat, failure: bool)
      requires Valid() && (requiredRunner == Busy(n) || n in settling)
      modifies this`requiredFinished, this`requiredCompleted, this`settling, this`failed, this`requiredRunner
      modifies this`sweeps, this`interruptDeferred, this`settled, this`workers
      ensures Valid() && Requests() == Record(old(Requests()), n, failure)
      ensures Interrupts() == NoteAll(old(Interrupts()), n, failure, requiredCompleted)
      ensures workers == old(workers).(leaving := old(workers).leaving + 1)
    {
      workers := workers.(leaving := workers.leaving + 1);
      ghost var w := Interrupts();
      NoteNumber(n, failure);
      assert Interrupts() == w && Valid();
      ghost var r := Requests();
      NoteCompletion(n, failure);
      assert Requests() == r;
    }

    method BeginInterruptSweep() returns (id: nat)
      requires Valid()
      modifies this`interruptNext, this`sweeps, this`interruptSweeps, this`answers
      ensures Valid() && Interrupts() == Begin(old(Interrupts()), requiredNext, workers.closed) && id == interruptNext
    {
      interruptNext := interruptNext + 1;
      id := interruptNext;
      sweeps := sweeps[id := Sweep(requiredNext, 0, 0, false, false, false)];
      if workers.closed {
        answers := answers[id := ShutDown(false)];
      } else {
        interruptSweeps := interruptSweeps + {id};
      }
      FreshItem(old(sweeps), old(HeldBy()), old(answers), id, requiredNext, workers.closed);
    }

    /** `transferInterruptSweeps`: every live sweep is handed to this idle edge, and the caller keeps the
        two slices. */
    method TransferInterruptSweeps() returns (ready: set<nat>, deferred: set<nat>)
      requires Valid()
      modifies this`sweeps, this`interruptSweeps, this`interruptDeferred, this`edges, this`nextEdge
      ensures Valid() && Interrupts() == Transfer(old(Interrupts()), requiredNext, requiredCompleted, deferring)
      ensures ready + deferred == old(interruptSweeps) && ready !! deferred
      ensures deferred == if deferring && requiredCompleted < requiredNext then old(interruptSweeps) else {}
    {
      ready, deferred := {}, {};
      NoneLiveIs(sweeps, HeldBy(), answers);
      if interruptSweeps == {} { return; }
      var cutoff, wait := if deferring then requiredNext else 0, deferring && requiredCompleted < requiredNext;
      if wait { deferred := interruptSweeps; } else { ready := interruptSweeps; }
      Hand(cutoff, deferred);
    }

    /** The hand-over itself: the live map is emptied and `deferred` of it waits. */
    method Hand(cutoff: nat, deferred: set<nat>)
      requires Valid() && (deferred == interruptSweeps || deferred == {})
      modifies this`sweeps, this`interruptSweeps, this`interruptDeferred, this`edges, this`nextEdge
      ensures Valid() && edges == old(edges) + {old(nextEdge)} && nextEdge == old(nextEdge) + 1
      ensures Items() == HandedAll(old(Items()), cutoff, old(nextEdge), deferred != {})
    {
      sweeps := HandAll(sweeps, interruptSweeps, cutoff, nextEdge);
      interruptSweeps, interruptDeferred := {}, interruptDeferred + deferred;
      edges, nextEdge := edges + {nextEdge}, nextEdge + 1;
      HandedItems(old(sweeps), sweeps, old(HeldBy()), answers, cutoff, old(nextEdge), deferred);
    }

    /** The end of `sessionIdle`: the ready slice is going to be told, and the deferred slice is marked and
        told where it need not wait. Both slices are the ones the edge took, whatever the maps hold now. */
    method FinishIdleEdge(ready: set<nat>, deferred: set<nat>, edge: nat, fault: bool)
      requires Valid() && edge in edges && ready + deferred <= sweeps.Keys
      requires forall id :: id in sweeps ==> (id in ready + deferred <==> sweeps[id].edge == edge)
      requires forall id :: id in ready ==> sweeps[id].cutoff <= requiredCompleted
      modifies this`sweeps, this`interruptDeferred, this`settled, this`edges
      ensures Valid() && Interrupts() == EdgeDone(old(Interrupts()), edge, fault, requiredCompleted)
    {
      var told;
      sweeps, told := MarkAll(sweeps, ready + deferred, fault, requiredCompleted);
      interruptDeferred := interruptDeferred - told;
      settled := settled + told;
      edges := edges - {edge};
      EdgeItems(old(sweeps), sweeps, old(HeldBy()), answers, edge, fault, requiredCompleted, told);
    }

    /** The once-guard of a sweep: only the first telling is sent. */
    method TellOnce(id: nat, o: Outcome)
      modifies this`answers
      ensures answers == if id in old(answers) then old(answers) else old(answers)[id := o]
    {
      if id !in answers { answers := answers[id := o]; }
    }

    /** A caller of `resolveInterruptSweeps` tells a sweep of its slice. */
    method ResolveSettled(id: nat)
      requires Valid() && id in settled
      modifies this`answers, this`settled
      ensures Valid() && Interrupts() == Change(old(Interrupts()), id, Deliver(old(Items())[id]))
    {
      var fault := sweeps[id].err || sweeps[id].idleFault;
      TellOnce(id, Resolved(fault));
      settled := settled - {id};
      OneItem(sweeps, old(HeldBy()), HeldBy(), old(answers), answers, id);
    }

    method CancelSweep(id: nat)
      requires Valid() && id in sweeps
      modifies this`answers, this`interruptSweeps, this`interruptDeferred
      ensures Valid() && Interrupts() == Change(old(Interrupts()), id, Cancel(old(Items())[id]))
    {
      if id !in answers {
        answers := answers[id := Cancelled];
        interruptSweeps, interruptDeferred := interruptSweeps - {id}, interruptDeferred - {id};
      }
      OneItem(sweeps, old(HeldBy()), HeldBy(), old(answers), answers, id);
    }

    /** `workerDone`. */
    method Leave()
      requires workers.leaving > 0 && workers.count > 0
      modifies this`workers
      ensures State() == Apply(old(State()), DoneStep)
      ensures !workers.drainedOpen && old(workers).drainedOpen ==> workers.count == 0
    {
      workers := workers.(count := workers.count - 1, leaving := workers.leaving - 1);
      if workers.count == 0 && workers.drainedOpen {
        workers := workers.(drainedOpen := false);
      }
    }

    /** The locked section of the first `beginShutdown`, which a once-guard protects: the sweeps of both
        maps are taken out and kept in a slice. */
    method BeginShutdown() returns (interrupts: set<nat>)
      requires Valid()
      modifies this`workers, this`interruptSweeps, this`interruptDeferred, this`dropped, this`ending
      ensures Valid() && Interrupts() == if old(workers).closed then old(Interrupts()) else DropAll(old(Interrupts()))
      ensures workers == if old(workers).closed then old(workers) else old(workers).(closed := true, pending := false)
      ensures interrupts == if old(workers).closed then {} else old(interruptSweeps) + old(interruptDeferred)
      ensures !old(workers).closed ==> ending == old(ending) + interrupts
    {
      interrupts := {};
      if workers.closed { return; }
      workers := workers.(closed := true, pending := false);
      interrupts := interruptSweeps + interruptDeferred;
      dropped, ending := dropped + interrupts, ending + interrupts;
      interruptSweeps, interruptDeferred := {}, {};
      DropItems(sweeps, old(HeldBy()), answers);
    }

    /** After its section, shutdown tells the sweeps of its slice. */
    method EndSweep(id: nat)
      requires Valid() && id in ending
      modifies this`answers, this`ending
      ensures Valid() && Interrupts() == Change(old(Interrupts()), id, End(old(Items())[id]))
    {
      var blamed := sweeps[id].err;
      TellOnce(id, ShutDown(blamed));
      ending := ending - {id};
      OneItem(sweeps, old(HeldBy()), HeldBy(), old(answers), answers, id);
    }

    /** `takePendingLocked` and the worker reserved for what it takes. */
    method TakePendingWalk() returns (start: bool)
      modifies this`workers
      ensures workers == TakePending(old(workers))
      ensures start ==> !old(workers).closed
    {
      if workers.closed || workers.active || workers.manualWaiting > 0 || !workers.pending { return false; }
      workers := workers.(pending := false, active := true);
      workers := Add(workers);
      return true;
    }

    method FinishBestEffort() returns (start: bool)
      requires workers.active
      modifies this`workers
      ensures State() == Apply(old(State()), FinishWalkStep)
    {
      workers := workers.(active := false, leaving := workers.leaving + 1);
      start := TakePendingWalk();
    }

    /** The first section of a best-effort boundary: without an active walk it starts one. */
    method BestEffortBoundary() returns (start: bool)
      modifies this`workers
      ensures State() == Apply(old(State()), BoundaryStep) && (start <==> !old(workers).closed && !old(workers).active)
    {
      if workers.closed || workers.active { return false; }
      workers := workers.(active := true);
      workers := Add(workers);
      return true;
    }

    /** Its second section, once its trigger is published: it starts a walk of its own or stays pending. */
    method RejoinBoundary() returns (start: bool)
      modifies this`workers
      ensures State() == Apply(old(State()), RejoinStep) && (start ==> workers.active && !workers.pending)
    {
      if workers.closed { return false; }
      if workers.active || workers.manualWaiting > 0 {
        workers := workers.(pending := true);
        return false;
      }
      workers := workers.(active := true, pending := false);
      workers := Add(workers);
      return true;
    }

    method BeginManualOperation() returns (ok: bool)
      modifies this`workers
      ensures State() == Apply(old(State()), ManualStep) && ok == !old(workers).closed
    {
      if workers.closed { return false; }
      workers := Add(workers);
      workers := workers.(manualWaiting := workers.manualWaiting + 1);
      return true;
    }

    /** The section at the end of `manual`. */
    method FinishManual() returns (start: bool)
      requires workers.manualWaiting > 0
      modifies this`workers
      ensures State() == Apply(old(State()), FinishManualStep)
    {
      workers := workers.(manualWaiting := workers.manualWaiting - 1, leaving := workers.leaving + 1);
      start := TakePendingWalk();
    }

    method Activated()
      modifies this`workers
      ensures State() == Apply(old(State()), ActivatedStep)
    {
      workers := workers.(pending := false);
    }

    // ---------------------------------------------------------------- the object over a schedule

    /** A section about required requests. */
    method ServeRequests(s: Step)
      requires Valid() && Enabled(State(), s) && (s.EnqueueStep? || s.TakeStep? || s.WithdrawStep? || s.RecordStep?)
      modifies this
      ensures Valid() && State() == Apply(old(State()), s)
    {
      match s
      case EnqueueStep => var _, _ := EnqueueRequired();
      case TakeStep => var _, _ := TakeRequired();
      case WithdrawStep(n) => var _ := WithdrawRequired(n);
      case RecordStep(n, failure) => RecordRequiredCompletion(n, failure);
    }

    /** The end of the edge of that number, for the caller that holds the slices it took: they are the
        sweeps that carry its number. */
    method EndEdge(edge: nat, fault: bool)
      requires Valid() && edge in edges
      modifies this`sweeps, this`interruptDeferred, this`settled, this`edges
      ensures Valid() && Interrupts() == EdgeDone(old(Interrupts()), edge, fault, requiredCompleted)
    {
      var took := set id | id in sweeps && sweeps[id].edge == edge;
      FinishIdleEdge({}, took, edge, fault);
    }

    /** Whoever has that sweep to tell tells it. */
    method DeliverOne(id: nat)
      requires Valid()
      modifies this`answers, this`settled
      ensures Valid() && State() == Apply(old(State()), DeliverStep(id))
    {
      if id in settled {
        ResolveSettled(id);
      } else if id in sweeps {
        SameChange(Interrupts(), id);
      }
    }

    method EndOne(id: nat)
      requires Valid()
      modifies this`answers, this`ending
      ensures Valid() && State() == Apply(old(State()), EndStep(id))
    {
      if id in ending {
        EndSweep(id);
      } else if id in sweeps {
        SameChange(Interrupts(), id);
      }
    }

    method CancelOne(id: nat)
      requires Valid()
      modifies this`answers, this`interruptSweeps, this`interruptDeferred
      ensures Valid() && State() == Apply(old(State()), CancelStep(id))
    {
      if id in sweeps { CancelSweep(id); }
    }

    method ServeOne(s: Step)
      requires Valid() && (s.DeliverStep? || s.EndStep? || s.CancelStep?)
      modifies this
      ensures Valid() && State() == Apply(old(State()), s)
    {
      match s
      case DeliverStep(id) => DeliverOne(id);
      case EndStep(id) => EndOne(id);
      case CancelStep(id) => CancelOne(id);
    }

    /** A section about interrupt sweeps. */
    method ServeSweeps(s: Step)
      requires Valid() && (s.BeginStep? || s.TransferStep?)
      modifies this
      ensures Valid() && State() == Apply(old(State()), s)
    {
      match s
      case BeginStep => var _ := BeginInterruptSweep();
      case TransferStep => var _, _ := TransferInterruptSweeps();
    }

    method ServeEnds(s: Step)
      requires Valid() && Enabled(State(), s) && (s.EdgeDoneStep? || s.ShutdownStep?)
      modifies this
      ensures Valid() && State() == Apply(old(State()), s)
    {
      match s
      case EdgeDoneStep(edge, fault) => EndEdge(edge, fault);
      case ShutdownStep => var _ := BeginShutdown();
    }

    predicate IsWalk(s: Step) {
      s.BoundaryStep? || s.RejoinStep? || s.FinishWalkStep? || s.ManualStep? || s.FinishManualStep?
      || s.ActivatedStep? || s.DoneStep?
    }

    /** A section about walks and workers. */
    method ServeWalks(s: Step)
      requires Valid() && Enabled(State(), s) && IsWalk(s)
      modifies this`workers
      ensures Valid() && State() == Apply(old(State()), s)
    {
      match s
      case BoundaryStep => var _ := BestEffortBoundary();
      case RejoinStep => var _ := RejoinBoundary();
      case FinishWalkStep => var _ := FinishBestEffort();
      case ManualStep => var _ := BeginManualOperation();
      case FinishManualStep => var _ := FinishManual();
      case ActivatedStep => Activated();
      case DoneStep => Leave();
    }

    /** One section under the mutex. */
    method Serve(s: Step)
      requires Valid() && Enabled(State(), s)
      modifies this
      ensures Valid() && State() == Apply(old(State()), s)
    {
      if s.EnqueueStep? || s.TakeStep? || s.WithdrawStep? || s.RecordStep? {
        ServeRequests(s);
      } else if s.BeginStep? || s.TransferStep? {
        ServeSweeps(s);
      } else if s.EdgeDoneStep? || s.ShutdownStep? {
        ServeEnds(s);
      } else if s.DeliverStep? || s.EndStep? || s.CancelStep? {
        ServeOne(s);
      } else {
        ServeWalks(s);
      }
    }

    /** The object over any interleaving of sections: it goes through exactly that run. At the end every
        request issued is in one place; what a result channel holds of a resolved sweep is true unless its
        failure was missed; and once nobody is at work every channel of a sweep begun holds an answer. */
    method RunSchedule(schedule: seq<Step>, ghost states: seq<Controller>)
      requires Run(states, schedule) && State() == states[0] && Valid()
      modifies this
      ensures State() == states[|schedule|] && Valid()
      ensures forall n: nat :: n > 0 ==> Places(Requests(), n) == One(n <= requiredNext)
      ensures deferring ==> forall id :: id in answers && answers[id].Resolved? ==>
        ToldTruly(states, schedule, id, answers[id].fault)
      ensures Quiet(State()) ==> forall id: nat :: 0 < id <= interruptNext ==> id in answers
    {
      var i := 0;
      while i < |schedule|
        invariant i <= |schedule| && State() == states[i] && Valid()
      {
        Serve(schedule[i]);
        i := i + 1;
      }
      RunRequired(states, schedule, |schedule|);
      RunDeferring(states, schedule, |schedule|);
      forall id | deferring && id in answers && answers[id].Resolved?
        ensures ToldTruly(states, schedule, id, answers[id].fault)
      {
        assert ToldWith(State(), id, answers[id]);
        TruthOf(states, schedule, id, answers[id].fault);
      }
      forall id: nat | Quiet(State()) && 0 < id <= interruptNext ensures id in answers {
        QuietMeansTold(states, schedule, |schedule|, id);
        var o :| ToldWith(State(), id, o);
      }
    }
  }

  /** What the object holds of a resolved sweep, in terms of the schedule: registered at step b, taken by an
      edge at t, told after that edge's end at e, and true unless shutdown made it miss its failure. */
  ghost predicate ToldAt(states: seq<Controller>, steps: seq<Step>, id: nat, fault: bool, b: nat, t: nat, e: nat)
    requires Run(states, steps)
  {
    && b < t < e < |steps| && Registers(states, steps, b, id) && TakesSweep(states, steps, t, id)
    && steps[e].EdgeDoneStep? && steps[e].edge == states[t].w.nextEdge
    && var after, cutoff, edgeFault := states[b].r.next, states[t].r.next, steps[e].fault;
       (fault <==> edgeFault || FailedIn(steps, |steps|, after, cutoff)) <==>
         edgeFault || !Missed(states, steps, |steps|, id, t, e, after, cutoff)
  }

  ghost predicate ToldTruly(states: seq<Controller>, steps: seq<Step>, id: nat, fault: bool)
    requires Run(states, steps)
  {
    exists b: nat, t: nat, e: nat :: ToldAt(states, steps, id, fault, b, t, e)
  }

  lemma TruthOf(states: seq<Controller>, steps: seq<Step>, id: nat, fault: bool)
    requires Run(states, steps) && states[0].deferring && ToldWith(states[|steps|], id, Resolved(fault))
    ensures ToldTruly(states, steps, id, fault)
  {
    var b, t, e := SweepIsToldTheTruth(states, steps, |steps|, id, fault);
    assert ToldAt(states, steps, id, fault, b, t, e);
  }

  /** A telling that does nothing leaves the sweeps as they are. */
  lemma SameChange(w: Sweeps, id: nat)
    requires id in w.items
    ensures Change(w, id, w.items[id]) == w
  {
    assert w.items[id := w.items[id]] == w.items;
  }

  lemma {:induction false} RemoveFirst(queue: seq<nat>, n: nat, i: nat)
    requires i < |queue| && queue[i] == n && forall j :: 0 <= j < i ==> queue[j] != n
    ensures Remove(queue, n) == queue[..i] + queue[i + 1..]
  {
    if i > 0 {
      RemoveFirst(queue[1..], n, i - 1);
      assert queue[..i] + queue[i + 1..] == [queue[0]] + (queue[1..][..i - 1] + queue[1..][i..]);
    }
  }
}
