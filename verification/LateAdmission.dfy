/** Which admission request a result belongs to (internal/loopruntime/loop.go).

    The loop asks for an admission on a goroutine of its own and takes the result from one unbuffered
    channel. A result carries no number, so the arm that takes it cannot tell whose it is. Here the requests
    are numbered beside the actor: a request stays in flight until its result is taken or, once its context
    is cancelled, its goroutine goes without sending one. The context is cancelled when the loop gives the
    request up, and with the loop's own context; taking another request's result does not cancel it. */
module LateAdmission {
  import opened AcceptedInput

  /** The actor, the number of requests so far, those in flight, and those given up. */
  datatype Gate = Gate(a: Actor, asked: nat, inFlight: set<nat>, cancelled: set<nat>)

  /** An arm other than the admissions arm, the admissions arm taking the result of request n, or the
      goroutine of request n going without one. */
  datatype Move =
    | Arm(s: Step)
    | Result(n: nat, ok: bool, minted: bool, startOk: bool)
    | Vanish(n: nat)

  predicate Allowed(g: Gate, m: Move) {
    && g.a.exit.Open?
    && match m
       case Arm(s) => !s.AdmissionStep? && Enabled(g.a, s)
       case Result(n, _, _, _) => n in g.inFlight
       case Vanish(n) => n in g.inFlight && (n in g.cancelled || g.a.env.killed)
  }

  /** A loop that begins to wait has asked; one that stops waiting without a result gave its request up. */
  function Next(g: Gate, m: Move): Gate {
    match m
    case Arm(s) =>
      var b := Apply(g.a, s);
      if !g.a.status.Waiting? && b.status.Waiting?
      then Gate(b, g.asked + 1, g.inFlight + {g.asked + 1}, g.cancelled)
      else if g.a.status.Waiting? && !b.status.Waiting? then g.(a := b, cancelled := g.cancelled + {g.asked})
      else g.(a := b)
    case Result(n, ok, minted, startOk) =>
      g.(a := Admission(g.a, ok, minted, startOk), inFlight := g.inFlight - {n})
    case Vanish(n) => g.(inFlight := g.inFlight - {n})
  }

  function First(gated: bool): Gate { Gate(Init(gated), 0, {}, {}) }

  ghost predicate GateRun(gs: seq<Gate>, ms: seq<Move>) {
    && |gs| == |ms| + 1 && gs[0] == First(gs[0].a.env.gated)
    && forall i :: 0 <= i < |ms| ==> Allowed(gs[i], ms[i]) && gs[i + 1] == Next(gs[i], ms[i])
  }

  // ---------------------------------------------------------------- when a request is given up

  /** The arms that give up the request a waiting loop made: a retraction of the only queued input, an
      interrupt that leaves no user input queued, a shutdown. */
  predicate GivesUp(a: Actor, s: Step) {
    && a.status.Waiting?
    && match s
       case CancelQueuedStep(id) => Names(a.q.inbox) == [id]
       case CancelDelegateStep(id) => Names(a.q.inbox) == [id]
       case InterruptStep => Filter(a.q.draining + a.q.inbox, Users, true) == []
       case ShutdownStep => true
       case _ => false
  }

  lemma RetractEmpties(es: seq<Entry>, id: nat)
    ensures id in Names(es) && Without(es, id) == [] <==> Names(es) == [id]
  {
    if id in Names(es) && Without(es, id) == [] {
      assert es == [es[0]] + es[1..];
    }
    if Names(es) == [id] {
      assert es[0].id == Names(es)[0] && es[1..] == [];
    }
  }

  lemma RetractGivesUp(a: Actor, id: nat)
    requires Phase(a) && a.status.Waiting? && a.exit.Open?
    ensures CancelQueued(a, id).status.Waiting? <==> Names(a.q.inbox) != [id]
    ensures CancelDelegate(a, id).status.Waiting? <==> Names(a.q.inbox) != [id]
  {
    RetractEmpties(a.q.inbox, id);
  }

  lemma DoorsWait(a: Actor, s: Step)
    requires a.status.Waiting? && (s.SubmitStep? || s.DelegateStep? || s.RuntimeStep? || s.UnblockStep?)
    ensures Apply(a, s).status.Waiting?
  {
    match s
    case SubmitStep(e, bypass, durable, fault, accepted, startOk) =>
    case DelegateStep(e, fault, minted, accepted, startOk) =>
    case RuntimeStep(e, conflict, fault, commit, startOk) =>
    case UnblockStep(resumes, startOk) =>
  }

  /** Exactly these arms end a wait. */
  lemma WaitEndsIff(a: Actor, s: Step)
    requires Phase(a) && Enabled(a, s) && !s.AdmissionStep? && a.status.Waiting?
    ensures !Apply(a, s).status.Waiting? <==> GivesUp(a, s)
  {
    match s
    case CancelQueuedStep(id) => RetractGivesUp(a, id);
    case CancelDelegateStep(id) => RetractGivesUp(a, id);
    case SubmitStep(_, _, _, _, _, _) => DoorsWait(a, s);
    case DelegateStep(_, _, _, _, _) => DoorsWait(a, s);
    case RuntimeStep(_, _, _, _, _) => DoorsWait(a, s);
    case UnblockStep(_, _) => DoorsWait(a, s);
    case _ =>
  }

  lemma DoorsKeepEnv(a: Actor, s: Step)
    requires s.SubmitStep? || s.DelegateStep? || s.RuntimeStep? || s.UnblockStep?
    ensures Apply(a, s).env.killed == a.env.killed
  {
    match s
    case SubmitStep(e, bypass, durable, fault, accepted, startOk) =>
    case DelegateStep(e, fault, minted, accepted, startOk) =>
    case RuntimeStep(e, conflict, fault, commit, startOk) =>
    case UnblockStep(resumes, startOk) =>
  }

  lemma KilledStays(a: Actor, s: Step)
    requires a.env.killed
    ensures Apply(a, s).env.killed
  {
    match s
    case SubmitStep(_, _, _, _, _, _) => DoorsKeepEnv(a, s);
    case DelegateStep(_, _, _, _, _) => DoorsKeepEnv(a, s);
    case RuntimeStep(_, _, _, _, _) => DoorsKeepEnv(a, s);
    case UnblockStep(_, _) => DoorsKeepEnv(a, s);
    case _ =>
  }

  lemma ResultEndsWait(a: Actor, ok: bool, minted: bool, startOk: bool)
    ensures !Admission(a, ok, minted, startOk).status.Waiting?
    ensures Admission(a, ok, minted, startOk).env == a.env
  {
  }

  // ---------------------------------------------------------------- the balance of requests

  /** The loop waits, and the request it made last is still in flight. */
  predicate Own(g: Gate) { g.a.status.Waiting? && g.asked in g.inFlight }

  /** The move leaves behind a request in flight that nobody waits for. */
  predicate LetsGo(g: Gate, m: Move) { m.Arm? && Own(g) && GivesUp(g.a, m.s) }

  /** The move takes away a request in flight that nobody waited for. */
  predicate Absorbs(g: Gate, m: Move) {
    match m
    case Arm(_) => false
    case Result(_, _, _, _) => !Own(g)
    case Vanish(n) => !(Own(g) && n == g.asked)
  }

  ghost function GiveUps(gs: seq<Gate>, ms: seq<Move>, k: nat): nat
    requires k <= |ms| <= |gs|
  {
    if k == 0 then 0 else GiveUps(gs, ms, k - 1) + One(LetsGo(gs[k - 1], ms[k - 1]))
  }

  ghost function Absorbed(gs: seq<Gate>, ms: seq<Move>, k: nat): nat
    requires k <= |ms| <= |gs|
  {
    if k == 0 then 0 else Absorbed(gs, ms, k - 1) + One(Absorbs(gs[k - 1], ms[k - 1]))
  }

  function One(b: bool): nat { if b then 1 else 0 }

  /** Requests in flight are numbered, and a loop whose context stands waits for one that is in flight. */
  ghost predicate Numbered(g: Gate) {
    && (forall n :: n in g.inFlight ==> 1 <= n <= g.asked) && (forall n :: n in g.cancelled ==> n <= g.asked)
    && (g.a.status.Waiting? ==> g.asked !in g.cancelled)
    && (g.a.status.Waiting? && !g.a.env.killed ==> g.asked in g.inFlight)
  }

  ghost predicate Balanced(g: Gate, m: Move) {
    |Next(g, m).inFlight| + One(Own(g)) + One(Absorbs(g, m)) == |g.inFlight| + One(Own(Next(g, m))) + One(LetsGo(g, m))
  }

  lemma ArmBalances(g: Gate, s: Step)
    requires Phase(g.a) && Numbered(g) && Allowed(g, Arm(s))
    ensures Numbered(Next(g, Arm(s))) && Balanced(g, Arm(s))
  {
    if g.a.env.killed { KilledStays(g.a, s); }
    if g.a.status.Waiting? { WaitEndsIff(g.a, s); }
  }

  lemma OtherBalances(g: Gate, m: Move)
    requires Phase(g.a) && Numbered(g) && Allowed(g, m) && !m.Arm?
    ensures Numbered(Next(g, m)) && Balanced(g, m)
  {
    if m.Result? { ResultEndsWait(g.a, m.ok, m.minted, m.startOk); }
  }

  lemma MoveKeeps(g: Gate, m: Move)
    requires Inv(g.a) && Allowed(g, m)
    ensures Inv(Next(g, m).a)
  {
    match m
    case Arm(s) => StepKeeps(g.a, s);
    case Result(n, ok, minted, startOk) => StepKeeps(g.a, AdmissionStep(ok, minted, startOk));
    case Vanish(_) =>
  }

  ghost predicate Accounted(gs: seq<Gate>, ms: seq<Move>, k: nat)
    requires k <= |ms| <= |gs| && k < |gs|
  {
    && Inv(gs[k].a) && Numbered(gs[k])
    && |gs[k].inFlight| + Absorbed(gs, ms, k) == One(Own(gs[k])) + GiveUps(gs, ms, k)
  }

  lemma Account(gs: seq<Gate>, ms: seq<Move>, k: nat)
    requires GateRun(gs, ms) && k < |ms| && Accounted(gs, ms, k)
    ensures Accounted(gs, ms, k + 1)
  {
    var g, m := gs[k], ms[k];
    MoveKeeps(g, m);
    match m
    case Arm(s) => ArmBalances(g, s);
    case _ => OtherBalances(g, m);
  }

  /** In every reachable state the requests in flight are the one waited for and those given up whose
      result nobody has taken yet. */
  lemma {:induction false} Balance(gs: seq<Gate>, ms: seq<Move>, k: nat)
    requires GateRun(gs, ms) && k <= |ms|
    ensures Accounted(gs, ms, k)
  {
    if k == 0 {
      StartKeeps(gs[0].a.env.gated);
    } else {
      Balance(gs, ms, k - 1);
      Account(gs, ms, k - 1);
    }
  }

  lemma StartKeeps(gated: bool)
    ensures Inv(Init(gated))
  {
    RunKeeps([Init(gated)], [], 0);
  }

  // ---------------------------------------------------------------- results of earlier requests

  /** Request n is in flight and is not the one the loop waits for. */
  predicate Late(g: Gate, n: nat) { n in g.inFlight && !(g.a.status.Waiting? && n == g.asked) }

  lemma LateCounts(g: Gate)
    ensures (exists n: nat :: Late(g, n)) <==> |g.inFlight| > One(Own(g))
  {
    var others := if Own(g) then g.inFlight - {g.asked} else g.inFlight;
    assert |others| == |g.inFlight| - One(Own(g));
    if n: nat :| n in others { assert Late(g, n); }
    if n: nat :| Late(g, n) { assert n in others; }
  }

  /** A result nobody waits for is outstanding exactly when more requests were given up in flight than
      were since taken in vain or went away. */
  lemma LateIff(gs: seq<Gate>, ms: seq<Move>, k: nat)
    requires GateRun(gs, ms) && k <= |ms|
    ensures (exists n: nat :: Late(gs[k], n)) <==> GiveUps(gs, ms, k) > Absorbed(gs, ms, k)
    ensures forall n: nat :: Late(gs[k], n) && gs[k].a.status.Waiting? ==> n < gs[k].asked
  {
    Balance(gs, ms, k);
    LateCounts(gs[k]);
  }

  /** The result of request n can start the turn of the input in front. */
  ghost predicate CanStartOn(g: Gate, n: nat) {
    var m := Result(n, true, true, true);
    g.a.status.Waiting? && Allowed(g, m) && Next(g, m).a.status.Running?
  }

  lemma CanStartIff(g: Gate, n: nat)
    ensures CanStartOn(g, n) <==> g.a.exit.Open? && g.a.status.Waiting? && g.a.q.inbox != [] && n in g.inFlight
  {
  }

  ghost predicate CanStartOnEarlier(g: Gate) { exists n: nat :: n < g.asked && CanStartOn(g, n) }

  lemma EarlierIsLate(g: Gate)
    requires Numbered(g)
    ensures CanStartOnEarlier(g) <==>
      g.a.exit.Open? && g.a.status.Waiting? && g.a.q.inbox != [] && exists n: nat :: Late(g, n)
  {
    forall n: nat ensures CanStartOn(g, n) <==>
      g.a.exit.Open? && g.a.status.Waiting? && g.a.q.inbox != [] && n in g.inFlight
    {
      CanStartIff(g, n);
    }
    if n: nat :| n < g.asked && CanStartOn(g, n) { assert Late(g, n); }
    if n: nat :| Late(g, n) { assert n in g.inFlight; }
  }

  /** "A turn starts on the result of the request made for it" can fail in a reachable state exactly when the
      loop waits with an input queued and a request given up earlier, by a retraction, a delegate's
      cancellation or an interrupt, is still in flight. */
  lemma StartsOnEarlierIff(gs: seq<Gate>, ms: seq<Move>, k: nat)
    requires GateRun(gs, ms) && k <= |ms|
    ensures CanStartOnEarlier(gs[k]) <==>
      && gs[k].a.exit.Open? && gs[k].a.status.Waiting? && gs[k].a.q.inbox != []
      && GiveUps(gs, ms, k) > Absorbed(gs, ms, k)
  {
    Balance(gs, ms, k);
    LateCounts(gs[k]);
    EarlierIsLate(gs[k]);
  }

  lemma {:induction false} SomeoneLetGo(gs: seq<Gate>, ms: seq<Move>, k: nat) returns (i: nat)
    requires GateRun(gs, ms) && k <= |ms| && GiveUps(gs, ms, k) > 0
    ensures i < k && LetsGo(gs[i], ms[i])
  {
    if LetsGo(gs[k - 1], ms[k - 1]) { i := k - 1; } else { i := SomeoneLetGo(gs, ms, k - 1); }
  }

  /** Every result the loop takes is that of the request it waits for, unless an earlier arm gave a request
      up while it was in flight. */
  lemma TakesItsOwn(gs: seq<Gate>, ms: seq<Move>, k: nat)
    requires GateRun(gs, ms) && k < |ms| && ms[k].Result? && forall i :: 0 <= i < k ==> !LetsGo(gs[i], ms[i])
    ensures gs[k].a.status.Waiting? && ms[k].n == gs[k].asked
  {
    if Late(gs[k], ms[k].n) {
      LateIff(gs, ms, k);
      var i := SomeoneLetGo(gs, ms, k);
      assert false;
    }
  }

  /** A loop that is shutting down, and so waits for its turn's end, can be ended by an admission result
      exactly when one is outstanding that nobody waits for; the turn then runs on. */
  lemma ShutdownCutShortIff(gs: seq<Gate>, ms: seq<Move>, k: nat)
    requires GateRun(gs, ms) && k <= |ms| && gs[k].a.status.ShuttingDown? && gs[k].a.exit.Open?
    ensures (exists n: nat :: Late(gs[k], n)) <==> GiveUps(gs, ms, k) > Absorbed(gs, ms, k)
    ensures forall n, ok, minted, startOk ::
      var m := Result(n, ok, minted, startOk);
      (Allowed(gs[k], m) <==> Late(gs[k], n)) && Next(gs[k], m).a.exit.Left? && Next(gs[k], m).a.turn.live
  {
    LateIff(gs, ms, k);
    Balance(gs, ms, k);
  }

  // ---------------------------------------------------------------- the run that shows both

  lemma GateGrows(gs: seq<Gate>, ms: seq<Move>, m: Move)
    requires GateRun(gs, ms) && Allowed(gs[|ms|], m)
    ensures GateRun(gs + [Next(gs[|ms|], m)], ms + [m])
  {
  }

  /** Submit 1 asks for the first admission, retracting it gives that up, submit 2 asks for the second. */
  lemma BothInFlight(states: seq<Actor>) returns (gs: seq<Gate>)
    requires |states| == 4 && Run(states, [Arriving(1), CancelQueuedStep(1), Arriving(2)])
    requires states[0] == Init(true) && WaitsFor(states[1], 1, 0) && Resting(states[2], 1, 1) &&
      WaitsFor(states[3], 2, 1)
    ensures |gs| == 4 && GateRun(gs, [Arm(Arriving(1)), Arm(CancelQueuedStep(1)), Arm(Arriving(2))])
    ensures gs[3] == Gate(states[3], 2, {1, 2}, {1})
  {
    var steps := [Arriving(1), CancelQueuedStep(1), Arriving(2)];
    var g0, g1 := First(true), Gate(states[1], 1, {1}, {});
    var g2, g3 := Gate(states[2], 1, {1}, {1}), Gate(states[3], 2, {1, 2}, {1});
    assert Enabled(states[0], steps[0]) && states[1] == Apply(states[0], steps[0]);
    assert Enabled(states[1], steps[1]) && states[2] == Apply(states[1], steps[1]);
    assert Enabled(states[2], steps[2]) && states[3] == Apply(states[2], steps[2]);
    assert g1 == Next(g0, Arm(steps[0])) && g2 == Next(g1, Arm(steps[1])) && g3 == Next(g2, Arm(steps[2]));
    gs := [g0, g1, g2, g3];
    GateGrows([g0], [], Arm(steps[0]));
    GateGrows([g0, g1], [Arm(steps[0])], Arm(steps[1]));
    GateGrows([g0, g1, g2], [Arm(steps[0]), Arm(steps[1])], Arm(steps[2]));
  }

  /** The second input's turn starts on the first request's result; a shutdown waits for that turn; and the
      second request's own result ends the actor while the turn runs. */
  lemma EarlierResultStarts() returns (gs: seq<Gate>, ms: seq<Move>)
    ensures GateRun(gs, ms) && |ms| == 6
    ensures gs[3].a.status.Waiting? && gs[3].asked == 2 && ms[3] == Result(1, true, true, true)
    ensures gs[4].a.status.Running? && gs[4].a.turn.causation == 2
    ensures gs[5].a.status.ShuttingDown? && ms[5] == Result(2, true, true, true)
    ensures gs[6].a.exit.Left? && gs[6].a.turn.live
  {
    hide GateRun;
    var states := SecondWaits();
    gs := BothInFlight(states);
    ms := [Arm(Arriving(1)), Arm(CancelQueuedStep(1)), Arm(Arriving(2))];
    SecondResultLeaves(states[3], 2, 1);
    var r1, r2 := Result(1, true, true, true), Result(2, true, true, true);
    var g4 := Next(gs[3], r1);
    var g5 := Next(g4, Arm(ShutdownStep));
    GateGrows(gs, ms, r1);
    GateGrows(gs + [g4], ms + [r1], Arm(ShutdownStep));
    GateGrows(gs + [g4] + [g5], ms + [r1] + [Arm(ShutdownStep)], r2);
    gs := gs + [g4] + [g5] + [Next(g5, r2)];
    ms := ms + [r1] + [Arm(ShutdownStep)] + [r2];
  }
}
