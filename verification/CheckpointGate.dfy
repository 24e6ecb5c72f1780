/** The checkpoint admission gate (internal/sessionruntime/checkpoint_admission.go): a barrier that
    prefers writers, woken by closing and replacing a channel.

    A thread's program counter says which section under the mutex it comes to next. The channel is its
    generation: a thread parked on a generation is awake once the gate's generation has passed it. */
module CheckpointGate {

  datatype Gate = Gate(readers: nat, writer: bool, waiting: nat, fault: bool, generation: nat)

  datatype Pc =
    | Trying
    | Parked(on: nat)
    | Reading
    | Announced
    | WriterParked(on: nat)
    | Writing

  /** Threads outside the gate are not in the map. */
  datatype System = System(g: Gate, pcs: map<nat, Pc>)

  const NEW_GATE := Gate(0, false, 0, false, 0)

  function Notify(g: Gate): Gate { g.(generation := g.generation + 1) }

  // ---------------------------------------------------------------- the sections

  datatype Entry = Entered | Faulted | Wait(on: nat)

  /** One turn of `enterExecution`. */
  function TryRead(g: Gate): (Gate, Entry) {
    if g.fault then (g, Faulted)
    else if !g.writer && g.waiting == 0 then (g.(readers := g.readers + 1), Entered)
    else (g, Wait(g.generation))
  }

  function LeaveRead(g: Gate): Gate
    requires g.readers > 0
  {
    Notify(g.(readers := g.readers - 1))
  }

  function Announce(g: Gate): Gate { Notify(g.(waiting := g.waiting + 1)) }

  /** One turn of `enterCheckpoint`. */
  function TryWrite(g: Gate): (Gate, Entry)
    requires g.waiting > 0
  {
    if !g.writer && g.readers == 0 then (g.(waiting := g.waiting - 1, writer := true), Entered)
    else (g, Wait(g.generation))
  }

  function Abandon(g: Gate): Gate
    requires g.waiting > 0
  {
    Notify(g.(waiting := g.waiting - 1))
  }

  function LeaveWrite(g: Gate): Gate { Notify(g.(writer := false)) }

  // ---------------------------------------------------------------- the gate as an object

  class AdmissionGate {
    var readers: nat
    var writer: bool
    var waiting: nat
    var fault: bool
    var changed: nat

    ghost function State(): Gate
      reads this
    {
      Gate(readers, writer, waiting, fault, changed)
    }

    constructor ()
      ensures State() == NEW_GATE
    {
      readers, writer, waiting, fault, changed := 0, false, 0, false, 0;
    }

    method NotifyLocked()
      modifies this`changed
      ensures State() == Notify(old(State()))
    {
      changed := changed + 1;
    }

    method TryEnterExecution() returns (entry: Entry)
      modifies this`readers
      ensures (State(), entry) == TryRead(old(State()))
    {
      if fault { return Faulted; }
      if !writer && waiting == 0 {
        readers := readers + 1;
        return Entered;
      }
      return Wait(changed);
    }

    method LeaveExecution()
      requires readers > 0
      modifies this`readers, this`changed
      ensures State() == LeaveRead(old(State()))
    {
      readers := readers - 1;
      NotifyLocked();
    }

    method AnnounceCheckpoint()
      modifies this`waiting, this`changed
      ensures State() == Announce(old(State()))
    {
      waiting := waiting + 1;
      NotifyLocked();
    }

    method TryEnterCheckpoint() returns (entry: Entry)
      requires waiting > 0
      modifies this`waiting, this`writer
      ensures (State(), entry) == TryWrite(old(State()))
    {
      if !writer && readers == 0 {
        waiting := waiting - 1;
        writer := true;
        return Entered;
      }
      return Wait(changed);
    }

    method AbandonCheckpoint()
      requires waiting > 0
      modifies this`waiting, this`changed
      ensures State() == Abandon(old(State()))
    {
      waiting := waiting - 1;
      NotifyLocked();
    }

    method LeaveCheckpoint()
      modifies this`writer, this`changed
      ensures State() == LeaveWrite(old(State()))
    {
      writer := false;
      NotifyLocked();
    }

    method SetFault(latched: bool)
      modifies this`fault, this`changed
      ensures State() == Notify(old(State()).(fault := latched))
    {
      fault := latched;
      NotifyLocked();
    }
  }

  // ---------------------------------------------------------------- interleavings

  datatype Step =
    | ReaderArrives(t: nat)
    | ReaderTries(t: nat)
    | Wakes(t: nat)
    | ReaderCancelled(t: nat)
    | ReaderLeaves(t: nat)
    | WriterArrives(t: nat)
    | WriterTries(t: nat)
    | WriterCancelled(t: nat)
    | WriterLeaves(t: nat)
    | Latch
    | Recover

  predicate At(sys: System, t: nat, p: Pc) { t in sys.pcs && sys.pcs[t] == p }

  predicate Waits(p: Pc) { p.Announced? || p.WriterParked? }

  predicate Enabled(sys: System, s: Step) {
    match s
    case ReaderArrives(t) => t !in sys.pcs
    case ReaderTries(t) => At(sys, t, Trying)
    case Wakes(t) => t in sys.pcs && (sys.pcs[t].Parked? || sys.pcs[t].WriterParked?) &&
      sys.pcs[t].on < sys.g.generation
    case ReaderCancelled(t) => t in sys.pcs && (sys.pcs[t].Trying? || sys.pcs[t].Parked?)
    case ReaderLeaves(t) => At(sys, t, Reading) && sys.g.readers > 0
    case WriterArrives(t) => t !in sys.pcs
    case WriterTries(t) => At(sys, t, Announced) && sys.g.waiting > 0
    case WriterCancelled(t) => t in sys.pcs && Waits(sys.pcs[t]) && sys.g.waiting > 0
    case WriterLeaves(t) => At(sys, t, Writing)
    case Latch => true
    case Recover => true
  }

  function Apply(sys: System, s: Step): System
    requires Enabled(sys, s)
  {
    var g, pcs := sys.g, sys.pcs;
    match s
    case ReaderArrives(t) => System(g, pcs[t := Trying])
    case ReaderTries(t) =>
      var (h, entry) := TryRead(g);
      (match entry
       case Entered => System(h, pcs[t := Reading])
       case Faulted => System(h, pcs - {t})
       case Wait(on) => System(h, pcs[t := Parked(on)]))
    case Wakes(t) => System(g, pcs[t := if pcs[t].Parked? then Trying else Announced])
    case ReaderCancelled(t) => System(g, pcs - {t})
    case ReaderLeaves(t) => System(LeaveRead(g), pcs - {t})
    case WriterArrives(t) => System(Announce(g), pcs[t := Announced])
    case WriterTries(t) =>
      var (h, entry) := TryWrite(g);
      System(h, pcs[t := if entry.Entered? then Writing else WriterParked(g.generation)])
    case WriterCancelled(t) => System(Abandon(g), pcs - {t})
    case WriterLeaves(t) => System(LeaveWrite(g), pcs - {t})
    case Latch => System(Notify(g.(fault := true)), pcs)
    case Recover => System(Notify(g.(fault := false)), pcs)
  }

  ghost predicate Run(states: seq<System>, steps: seq<Step>) {
    && |states| == |steps| + 1 && states[0] == System(NEW_GATE, map[])
    && forall i :: 0 <= i < |steps| ==> Enabled(states[i], steps[i]) && states[i + 1] == Apply(states[i], steps[i])
  }

  // ---------------------------------------------------------------- the invariant

  datatype Role = IsReading | IsWaiting | IsWriting

  predicate Plays(p: Pc, role: Role) {
    match role
    case IsReading => p.Reading?
    case IsWaiting => Waits(p)
    case IsWriting => p.Writing?
  }

  function Cast(pcs: map<nat, Pc>, role: Role): set<nat> { set t | t in pcs && Plays(pcs[t], role) }

  function One(b: bool): nat { if b then 1 else 0 }

  /** The counters are the numbers of threads in each role. */
  predicate Counted(sys: System) {
    && sys.g.readers == |Cast(sys.pcs, IsReading)|
    && sys.g.waiting == |Cast(sys.pcs, IsWaiting)|
    && One(sys.g.writer) == |Cast(sys.pcs, IsWriting)|
  }

  /** A thread asleep on the current channel could not go on if it looked again. */
  predicate Asleep(g: Gate, p: Pc) {
    match p
    case Parked(on) => on <= g.generation && (on == g.generation ==> !g.fault && (g.writer || g.waiting > 0))
    case WriterParked(on) => on <= g.generation && (on == g.generation ==> g.writer || g.readers > 0)
    case _ => true
  }

  ghost predicate NoLostWakeup(sys: System) { forall t :: t in sys.pcs ==> Asleep(sys.g, sys.pcs[t]) }

  ghost predicate Inv(sys: System) {
    Counted(sys) && !(sys.g.writer && sys.g.readers > 0) && NoLostWakeup(sys)
  }

  lemma CastPut(pcs: map<nat, Pc>, t: nat, p: Pc, role: Role)
    ensures |Cast(pcs[t := p], role)| + One(t in pcs && Plays(pcs[t], role)) == |Cast(pcs, role)| + One(Plays(p, role))
  {
    var rest := Cast(pcs, role) - {t};
    assert Cast(pcs[t := p], role) == if Plays(p, role) then rest + {t} else rest;
    assert Cast(pcs, role) == if t in pcs && Plays(pcs[t], role) then rest + {t} else rest;
  }

  lemma CastDrop(pcs: map<nat, Pc>, t: nat, role: Role)
    requires t in pcs
    ensures |Cast(pcs - {t}, role)| + One(Plays(pcs[t], role)) == |Cast(pcs, role)|
  {
    var rest := Cast(pcs, role) - {t};
    assert Cast(pcs - {t}, role) == rest;
    assert Cast(pcs, role) == if Plays(pcs[t], role) then rest + {t} else rest;
  }

  lemma StepCounted(sys: System, s: Step)
    requires Counted(sys) && Enabled(sys, s)
    ensures Counted(Apply(sys, s))
  {
    if s.Latch? || s.Recover? { return; }
    var t, next := s.t, Apply(sys, s);
    if t in next.pcs {
      assert next.pcs == sys.pcs[t := next.pcs[t]];
      CastPut(sys.pcs, t, next.pcs[t], IsReading);
      CastPut(sys.pcs, t, next.pcs[t], IsWaiting);
      CastPut(sys.pcs, t, next.pcs[t], IsWriting);
    } else {
      CastDrop(sys.pcs, t, IsReading);
      CastDrop(sys.pcs, t, IsWaiting);
      CastDrop(sys.pcs, t, IsWriting);
    }
  }

  /** Acquiring the writer does not notify, nor does a reader that enters; every other change does, so
      no thread can be asleep past its turn. */
  lemma StepWakes(sys: System, s: Step, t: nat)
    requires Inv(sys) && Enabled(sys, s) && t in Apply(sys, s).pcs
    ensures Asleep(Apply(sys, s).g, Apply(sys, s).pcs[t])
  {
    if t in sys.pcs { assert Asleep(sys.g, sys.pcs[t]); }
  }

  lemma StepKeeps(sys: System, s: Step)
    requires Inv(sys) && Enabled(sys, s)
    ensures Inv(Apply(sys, s))
  {
    StepCounted(sys, s);
    forall t | t in Apply(sys, s).pcs ensures Asleep(Apply(sys, s).g, Apply(sys, s).pcs[t]) {
      StepWakes(sys, s, t);
    }
  }

  lemma {:induction false} RunKeeps(states: seq<System>, steps: seq<Step>, i: nat)
    requires Run(states, steps) && i < |states|
    ensures Inv(states[i])
  {
    if i == 0 {
      assert Cast(map[], IsReading) == {} && Cast(map[], IsWaiting) == {} && Cast(map[], IsWriting) == {};
    } else {
      RunKeeps(states, steps, i - 1);
      StepKeeps(states[i - 1], steps[i - 1]);
    }
  }

  // ---------------------------------------------------------------- the main results

  lemma InCast(pcs: map<nat, Pc>, t: nat, role: Role)
    requires t in pcs && Plays(pcs[t], role)
    ensures |Cast(pcs, role)| > 0
  {
    assert t in Cast(pcs, role);
  }

  lemma TwoInCast(pcs: map<nat, Pc>, t: nat, u: nat, role: Role)
    requires t in pcs && u in pcs && Plays(pcs[t], role) && Plays(pcs[u], role) && t != u
    ensures |Cast(pcs, role)| >= 2
  {
    assert {t, u} <= Cast(pcs, role);
    var rest := Cast(pcs, role) - {t, u};
    assert Cast(pcs, role) == rest + {t, u};
  }

  /** The decrements of a thread that leaves or gives up are always of a positive count. */
  lemma CountsPermit(sys: System, t: nat)
    requires Inv(sys) && t in sys.pcs
    ensures sys.pcs[t].Reading? ==> sys.g.readers > 0
    ensures Waits(sys.pcs[t]) ==> sys.g.waiting > 0
    ensures sys.pcs[t].Writing? ==> sys.g.writer
  {
    if sys.pcs[t].Reading? { InCast(sys.pcs, t, IsReading); }
    if Waits(sys.pcs[t]) { InCast(sys.pcs, t, IsWaiting); }
    if sys.pcs[t].Writing? { InCast(sys.pcs, t, IsWriting); }
  }

  /** In no interleaving is a writer inside together with another thread. */
  lemma WritersAreAlone(states: seq<System>, steps: seq<Step>, i: nat, t: nat, u: nat)
    requires Run(states, steps) && i < |states| && At(states[i], t, Writing) && u in states[i].pcs && t != u
    ensures !states[i].pcs[u].Writing? && !states[i].pcs[u].Reading?
  {
    RunKeeps(states, steps, i);
    var sys := states[i];
    InCast(sys.pcs, t, IsWriting);
    if sys.pcs[u].Writing? { TwoInCast(sys.pcs, t, u, IsWriting); }
    if sys.pcs[u].Reading? { InCast(sys.pcs, u, IsReading); }
  }

  /** A reader is admitted only when no checkpoint waits or writes and no fault is latched. */
  lemma NoReaderPastAWaiter(states: seq<System>, steps: seq<Step>, i: nat, t: nat, u: nat)
    requires Run(states, steps) && i < |steps| && !At(states[i], t, Reading) && At(states[i + 1], t, Reading)
    ensures !states[i].g.fault
    ensures u in states[i].pcs ==> !Waits(states[i].pcs[u]) && !states[i].pcs[u].Writing?
  {
    RunKeeps(states, steps, i);
    var sys := states[i];
    if u in sys.pcs {
      if Waits(sys.pcs[u]) { InCast(sys.pcs, u, IsWaiting); }
      if sys.pcs[u].Writing? { InCast(sys.pcs, u, IsWriting); }
    }
  }

  /** The waiting count is the number of announced checkpoints, on every path out of the wait. */
  lemma WaitingIsAnnounced(states: seq<System>, steps: seq<Step>, i: nat)
    requires Run(states, steps) && i < |states|
    ensures states[i].g.waiting == |set t | t in states[i].pcs && Waits(states[i].pcs[t])|
    ensures states[i].g.readers == |set t | t in states[i].pcs && states[i].pcs[t].Reading?|
  {
    RunKeeps(states, steps, i);
    assert Cast(states[i].pcs, IsWaiting) == set t | t in states[i].pcs && Waits(states[i].pcs[t]);
    assert Cast(states[i].pcs, IsReading) == set t | t in states[i].pcs && states[i].pcs[t].Reading?;
  }

  /** Inside the gate, or on its way to look at it again. */
  predicate CanMove(g: Gate, p: Pc) {
    match p
    case Parked(on) => on < g.generation
    case WriterParked(on) => on < g.generation
    case _ => true
  }

  lemma SomeoneIn(pcs: map<nat, Pc>, role: Role) returns (t: nat)
    requires |Cast(pcs, role)| > 0
    ensures t in pcs && Plays(pcs[t], role)
  {
    t :| t in Cast(pcs, role);
  }

  /** Loss of a wakeup would leave threads asleep with nobody left to wake them: in every interleaving,
      while any thread is inside the gate some thread can move. */
  lemma NeverStuck(states: seq<System>, steps: seq<Step>, i: nat, t: nat) returns (u: nat)
    requires Run(states, steps) && i < |states| && t in states[i].pcs
    ensures u in states[i].pcs && CanMove(states[i].g, states[i].pcs[u])
  {
    RunKeeps(states, steps, i);
    var sys := states[i];
    u := t;
    if !CanMove(sys.g, sys.pcs[u]) && sys.pcs[u].Parked? {
      assert Asleep(sys.g, sys.pcs[u]);
      if sys.g.writer { u := SomeoneIn(sys.pcs, IsWriting); } else { u := SomeoneIn(sys.pcs, IsWaiting); }
    }
    if !CanMove(sys.g, sys.pcs[u]) {
      assert Asleep(sys.g, sys.pcs[u]);
      if sys.g.writer { u := SomeoneIn(sys.pcs, IsWriting); } else { u := SomeoneIn(sys.pcs, IsReading); }
    }
  }

  // ---------------------------------------------------------------- who is let in, who waits, who is refused

  /** A fault was latched and not recovered from since. */
  ghost predicate Latched(steps: seq<Step>, k: nat)
    requires k <= |steps|
  {
    exists j :: 0 <= j < k && steps[j].Latch? && forall i :: j < i < k ==> !steps[i].Recover?
  }

  lemma LatchedGrows(steps: seq<Step>, k: nat)
    requires k < |steps|
    ensures Latched(steps, k + 1) <==> steps[k].Latch? || (Latched(steps, k) && !steps[k].Recover?)
  {
    if Latched(steps, k) && !steps[k].Recover? {
      var j :| 0 <= j < k && steps[j].Latch? && forall i :: j < i < k ==> !steps[i].Recover?;
      assert steps[j].Latch?;
    }
    if Latched(steps, k + 1) && !steps[k].Latch? {
      var j :| 0 <= j < k + 1 && steps[j].Latch? && forall i :: j < i < k + 1 ==> !steps[i].Recover?;
      assert j < k && !steps[k].Recover?;
    }
  }

  lemma {:induction false} FaultIsLatched(states: seq<System>, steps: seq<Step>, k: nat)
    requires Run(states, steps) && k < |states|
    ensures states[k].g.fault <==> Latched(steps, k)
  {
    if k > 0 {
      FaultIsLatched(states, steps, k - 1);
      LatchedGrows(steps, k - 1);
    }
  }

  lemma NobodyIn(pcs: map<nat, Pc>, role: Role)
    ensures |Cast(pcs, role)| == 0 <==> forall t :: t in pcs ==> !Plays(pcs[t], role)
  {
    if |Cast(pcs, role)| > 0 { var t := SomeoneIn(pcs, role); }
    forall t | t in pcs && Plays(pcs[t], role) ensures |Cast(pcs, role)| > 0 {
      InCast(pcs, t, role);
    }
  }

  /** Nobody writes or waits to write. */
  ghost predicate NoCheckpoint(sys: System) {
    forall t :: t in sys.pcs ==> !Waits(sys.pcs[t]) && !sys.pcs[t].Writing?
  }

  /** An execution that tries is refused if and only if a fault is latched, is let in if and only if none is and
      no checkpoint waits or writes, and otherwise waits its turn. */
  lemma ExecutionTriesIff(states: seq<System>, steps: seq<Step>, k: nat, t: nat)
    requires Run(states, steps) && k < |steps| && steps[k] == ReaderTries(t)
    ensures t !in states[k + 1].pcs <==> Latched(steps, k)
    ensures At(states[k + 1], t, Reading) <==> !Latched(steps, k) && NoCheckpoint(states[k])
    ensures t in states[k + 1].pcs ==> states[k + 1].pcs[t].Reading? || states[k + 1].pcs[t].Parked?
  {
    RunKeeps(states, steps, k);
    FaultIsLatched(states, steps, k);
    NobodyIn(states[k].pcs, IsWaiting);
    NobodyIn(states[k].pcs, IsWriting);
    assert NoCheckpoint(states[k]) <==> !states[k].g.writer && states[k].g.waiting == 0;
  }

  /** A checkpoint that tries is let in if and only if nobody is inside, fault or not, and otherwise waits. */
  lemma CheckpointTriesIff(states: seq<System>, steps: seq<Step>, k: nat, t: nat)
    requires Run(states, steps) && k < |steps| && steps[k] == WriterTries(t)
    ensures At(states[k + 1], t, Writing) <==>
      forall u :: u in states[k].pcs ==> !states[k].pcs[u].Reading? && !states[k].pcs[u].Writing?
    ensures t in states[k + 1].pcs && (states[k + 1].pcs[t].Writing? || states[k + 1].pcs[t].WriterParked?)
  {
    RunKeeps(states, steps, k);
    NobodyIn(states[k].pcs, IsReading);
    NobodyIn(states[k].pcs, IsWriting);
  }
}
