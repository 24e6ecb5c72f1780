/** The accepted-input protocol of the loop actor (internal/loopruntime/loop.go).

    Each arm of the actor's select is one atomic step. The turn goroutine is an environment that asks
    for drains, commits folds and hands back one terminal; the compaction slot is an environment that
    occupies and frees the loop; an admission result carries no request tag, so one may arrive at any
    time, stale or not. */
module AcceptedInput {

  const QUEUE_CAPACITY: nat := 64

  // ---------------------------------------------------------------- the data

  /** A queued input. The ticket is its place in the order of acceptance. */
  datatype Entry = Entry(
    id: nat, ticket: nat, user: bool, noFold: bool, carryOver: bool, rejectOnStartFailure: bool)

  datatype Status = Idle | Waiting | Running | ShuttingDown

  datatype Kind = Started | Folded | Rejected | Returned

  /** One resolution, in the order the actor issues them. */
  datatype Answer = Answer(id: nat, kind: Kind)

  datatype Terminal = Done | Failed | Interrupted

  datatype CommitResult = NoCommit | Committed | CommitFailed

  /** The queues and the record of what became of each input. `seen` is every input answered or
      accepted; `carried` is what the actor let go of because a durable acceptance owns it. */
  datatype Queues = Queues(
    inbox: seq<Entry>, draining: seq<Entry>, answers: seq<Answer>, carried: seq<Entry>, seen: set<nat>, nextTicket: nat)

  /** The turn. `live` and `given` describe its goroutine: whether it still owes a terminal, and the
      inputs drains gave it that it has not folded. */
  datatype Turn = Turn(live: bool, given: set<nat>, causation: nat, cancel: bool, targeted: bool)

  datatype Env = Env(gated: bool, blocked: bool, killed: bool)

  datatype Exit = Open | Left | Closed

  datatype Actor = Actor(q: Queues, status: Status, cancelAdmission: bool, turn: Turn, env: Env, exit: Exit)

  const NO_TURN := Turn(false, {}, 0, false, false)

  function Init(gated: bool): Actor {
    Actor(Queues([], [], [], [], {}, 0), Idle, false, NO_TURN, Env(gated, false, false), Open)
  }

  function Names(es: seq<Entry>): seq<nat> { seq(|es|, i requires 0 <= i < |es| => es[i].id) }

  function Answered(rs: seq<Answer>): seq<nat> { seq(|rs|, i requires 0 <= i < |rs| => rs[i].id) }

  function Replies(es: seq<Entry>, kind: Kind): seq<Answer> {
    seq(|es|, i requires 0 <= i < |es| => Answer(es[i].id, kind))
  }

  // ---------------------------------------------------------------- queue functions

  datatype Which = Users | CarryOvers

  predicate Chosen(e: Entry, w: Which) { if w.Users? then e.user else e.carryOver }

  /** The entries for which being chosen equals `want`, in order. */
  function Filter(es: seq<Entry>, w: Which, want: bool): seq<Entry> {
    if es == [] then []
    else
      var last := es[|es| - 1];
      Filter(es[..|es| - 1], w, want) + if Chosen(last, w) == want then [last] else []
  }

  /** How many leading entries may fold. */
  function Leading(es: seq<Entry>): (n: nat)
    ensures n <= |es| && (forall i :: 0 <= i < n ==> !es[i].noFold) && (n < |es| ==> es[n].noFold)
  {
    if es == [] || es[0].noFold then 0 else 1 + Leading(es[1..])
  }

  function Without(es: seq<Entry>, id: nat): seq<Entry> {
    if es == [] then [] else if es[0].id == id then es[1..] else [es[0]] + Without(es[1..], id)
  }

  // ---------------------------------------------------------------- the closures, on the queues

  /** A loop that is going away lets go of its carry-over entries instead of returning them. */
  function LetGo(es: seq<Entry>, exiting: bool): seq<Entry> { if exiting then Filter(es, CarryOvers, true) else [] }

  function Returning(es: seq<Entry>, exiting: bool): seq<Entry> {
    if exiting then Filter(es, CarryOvers, false) else es
  }

  /** `returnQueuedInbox`. */
  function ReturnAll(q: Queues, exiting: bool): Queues {
    var all := q.draining + q.inbox;
    q.(inbox := [], draining := [], carried := q.carried + LetGo(all, exiting),
       answers := q.answers + Replies(Returning(all, exiting), Returned))
  }

  /** `retainUserQueuedInbox`. */
  function RetainUsers(q: Queues): Queues {
    var all := q.draining + q.inbox;
    q.(draining := [], inbox := Filter(all, Users, true),
       answers := q.answers + Replies(Filter(all, Users, false), Returned))
  }

  /** `popFront` with the answer its entry got. */
  function Pop(q: Queues, kind: Kind): Queues
    requires q.inbox != []
  {
    q.(inbox := q.inbox[1..], answers := q.answers + [Answer(q.inbox[0].id, kind)])
  }

  function Accept(q: Queues, e: Entry): Queues {
    q.(inbox := q.inbox + [e.(ticket := q.nextTicket)], seen := q.seen + {e.id}, nextTicket := q.nextTicket + 1)
  }

  /** An answer to an input that never enters the inbox. */
  function AtDoor(q: Queues, id: nat, kind: Kind): Queues {
    q.(seen := q.seen + {id}, answers := q.answers + [Answer(id, kind)])
  }

  function Retract(q: Queues, id: nat): Queues {
    q.(inbox := Without(q.inbox, id), answers := q.answers + [Answer(id, Returned)])
  }

  /** `drainInbox`. */
  function Drained(q: Queues): Queues {
    q.(draining := q.draining + q.inbox[..Leading(q.inbox)], inbox := q.inbox[Leading(q.inbox)..])
  }

  /** `removeDraining`, with the fold that resolves the entry. */
  function Folding(q: Queues, id: nat): Queues {
    q.(draining := Without(q.draining, id), answers := q.answers + [Answer(id, Folded)])
  }

  // ---------------------------------------------------------------- the arms

  predicate Busy(a: Actor) { a.status.Running? || a.status.Waiting? || a.env.blocked }

  predicate Exiting(a: Actor) { a.status.ShuttingDown? || a.env.killed }

  function Return(a: Actor): Actor { a.(q := ReturnAll(a.q, Exiting(a))) }

  function StartFailure(e: Entry): Kind { if e.rejectOnStartFailure then Rejected else Returned }

  /** `popFront`, then a start that succeeded, or the answer to one that failed. */
  function StartFront(a: Actor, startOk: bool): Actor
    requires a.q.inbox != []
  {
    var next := a.q.inbox[0];
    if startOk then
      a.(q := Pop(a.q, Started), status := Running,
         turn := a.turn.(live := true, given := {}, causation := next.id, cancel := true))
    else a.(q := Pop(a.q, StartFailure(next)))
  }

  /** `requestStartAdmission`. */
  function RequestStart(a: Actor, startOk: bool): Actor {
    if a.q.inbox == [] || a.status.ShuttingDown? || a.status.Waiting? || a.env.blocked then a
    else if a.env.gated then a.(status := Waiting, cancelAdmission := true)
    else StartFront(a, startOk)
  }

  /** `decideSubmit`. */
  function Submit(a: Actor, e: Entry, bypass: bool, durable: bool, fault: bool, accepted: bool, startOk: bool): Actor {
    if fault then a.(q := AtDoor(a.q, e.id, if bypass then Returned else Rejected))
    else if durable && !accepted then a.(q := AtDoor(a.q, e.id, Returned))
    else if a.status.ShuttingDown? && !bypass then a.(q := AtDoor(a.q, e.id, Rejected))
    else if |a.q.inbox| >= QUEUE_CAPACITY && !bypass then a.(q := AtDoor(a.q, e.id, Rejected))
    else if Busy(a) || (a.status.ShuttingDown? && bypass) then a.(q := Accept(a.q, e))
    else RequestStart(a.(q := Accept(a.q, e.(rejectOnStartFailure := !bypass))), startOk)
  }

  /** `admitDelegate`. */
  function Delegate(a: Actor, e: Entry, fault: bool, minted: bool, accepted: bool, startOk: bool): Actor {
    if fault then a
    else if a.status.ShuttingDown? || |a.q.inbox| >= QUEUE_CAPACITY then a.(q := AtDoor(a.q, e.id, Rejected))
    else if Busy(a) then if accepted then a.(q := Accept(a.q, e)) else a
    else if !minted then a.(q := AtDoor(a.q, e.id, Rejected))
    else if !accepted then a
    else RequestStart(a.(q := Accept(a.q, e)), startOk)
  }

  /** Whether `admitRuntimeInput` gets as far as the commit. */
  predicate ReachesCommit(a: Actor, conflict: bool, fault: bool) {
    !conflict && !fault && !a.status.ShuttingDown? && |a.q.inbox| < QUEUE_CAPACITY
  }

  /** `admitRuntimeInput`. */
  function Runtime(a: Actor, e: Entry, conflict: bool, fault: bool, commit: CommitResult, startOk: bool): Actor {
    if !ReachesCommit(a, conflict, fault) || commit.CommitFailed? then a
    else if Busy(a) then a.(q := Accept(a.q, e.(carryOver := true)))
    else RequestStart(a.(q := Accept(a.q, e.(carryOver := true, rejectOnStartFailure := true))), startOk)
  }

  /** A waiting loop with nothing left to start gives its admission up. */
  function IdleIfEmpty(a: Actor): Actor {
    if a.status.Waiting? && a.q.inbox == [] && a.cancelAdmission
    then a.(cancelAdmission := false, status := Idle)
    else a
  }

  function CancelQueued(a: Actor, id: nat): Actor {
    if id in Names(a.q.inbox) then IdleIfEmpty(a.(q := Retract(a.q, id))) else a
  }

  function CancelDelegate(a: Actor, id: nat): Actor {
    if id in Names(a.q.inbox) then IdleIfEmpty(a.(q := Retract(a.q, id)))
    else if a.status.Running? && a.turn.causation == id && a.turn.cancel
    then a.(turn := a.turn.(targeted := true, cancel := false))
    else a
  }

  function Interrupt(a: Actor): Actor {
    if a.turn.cancel then a.(turn := a.turn.(cancel := false))
    else if a.turn.targeted then a.(turn := a.turn.(targeted := false))
    else if a.status.Waiting? && a.cancelAdmission then IdleIfEmpty(a.(q := RetainUsers(a.q)))
    else if a.status.Idle? && (a.q.inbox != [] || a.q.draining != []) then a.(q := RetainUsers(a.q))
    else a
  }

  function Leave(a: Actor): Actor { a.(q := ReturnAll(a.q, true), exit := Left) }

  function Shutdown(a: Actor): Actor {
    if a.status.ShuttingDown? then a
    else
      var b := a.(status := ShuttingDown, turn := a.turn.(cancel := false));
      if a.status.Waiting? && a.cancelAdmission then Leave(b.(cancelAdmission := false))
      else if !a.status.Running? then Leave(b)
      else b
  }

  /** The arm of the loop context's end. */
  function Cancelled(a: Actor): Actor {
    Leave(a.(cancelAdmission := false, turn := a.turn.(cancel := false)))
  }

  /** The arm of an admission result, stale or not. */
  function Admission(a: Actor, ok: bool, minted: bool, startOk: bool): Actor {
    var b := a.(cancelAdmission := false);
    if b.status.ShuttingDown? then Leave(b)
    else if !b.status.Waiting? then b
    else if !ok then Return(b.(status := Idle))
    else if b.q.inbox == [] then b.(status := Idle)
    else if minted && startOk then StartFront(b, true)
    else Return(StartFront(b.(status := Idle), false))
  }

  /** The drain arm: the batch moved is the one the turn is given. */
  function Drain(a: Actor): Actor {
    if a.env.blocked then a
    else
      var batch := set e | e in a.q.inbox[..Leading(a.q.inbox)] :: e.id;
      a.(q := Drained(a.q), turn := a.turn.(given := a.turn.given + batch))
  }

  /** The commit arm, for a fold. */
  function Fold(a: Actor, id: nat, committed: bool): Actor {
    if !committed then a else a.(q := Folding(a.q, id), turn := a.turn.(given := a.turn.given - {id}))
  }

  /** `handleTurnResult`. */
  function HandBack(a: Actor, t: Terminal, boundaryOk: bool, startOk: bool): Actor {
    var b := a.(turn := NO_TURN);
    if a.status.ShuttingDown? then Leave(b)
    else
      var c := b.(status := Idle);
      if !boundaryOk then Return(c)
      else if a.turn.targeted || t.Done? then RequestStart(c, startOk)
      else if t.Interrupted? then RequestStart(c.(q := RetainUsers(c.q)), startOk)
      else Return(c)
  }

  function ResumeParked(a: Actor, cause: nat): Actor {
    if !a.status.Idle? then a
    else a.(status := Running, turn := a.turn.(live := true, given := {}, causation := cause, cancel := true))
  }

  /** The slot is free again. Most paths call `resumeQueuedAfterCompaction`; an abort after a failed
      publication does not. */
  function Unblock(a: Actor, resumes: bool, startOk: bool): Actor {
    var b := a.(env := a.env.(blocked := false));
    if resumes && b.status.Idle? then RequestStart(b, startOk) else b
  }

  // ---------------------------------------------------------------- runs

  datatype Step =
    | SubmitStep(e: Entry, bypass: bool, durable: bool, fault: bool, accepted: bool, startOk: bool)
    | DelegateStep(e: Entry, fault: bool, minted: bool, accepted: bool, startOk: bool)
    | RuntimeStep(e: Entry, conflict: bool, fault: bool, commit: CommitResult, startOk: bool)
    | CancelQueuedStep(id: nat)
    | CancelDelegateStep(id: nat)
    | InterruptStep
    | ShutdownStep
    | KillStep
    | CancelledStep
    | ClosedStep
    | AdmissionStep(ok: bool, minted: bool, startOk: bool)
    | DrainStep
    | FoldStep(id: nat, committed: bool)
    | HandBackStep(t: Terminal, boundaryOk: bool, startOk: bool)
    | ResumeStep(cause: nat)
    | BlockStep
    | UnblockStep(resumes: bool, startOk: bool)

  /** What the environment may do: a command id is delivered once, the turn drains, folds what it was
      given and hands back only while it is live, and the context's end is seen after it happened. */
  predicate Enabled(a: Actor, s: Step) {
    && a.exit.Open?
    && match s
       case SubmitStep(e, _, _, _, _, _) => e.id !in a.q.seen && !e.carryOver
       case DelegateStep(e, _, _, _, _) => e.id !in a.q.seen && !e.carryOver
       case RuntimeStep(e, _, _, _, _) => e.id !in a.q.seen
       case CancelledStep => a.env.killed
       case DrainStep => a.turn.live
       case FoldStep(id, _) => a.turn.live && id in a.turn.given
       case HandBackStep(_, _, _) => a.turn.live
       case _ => true
  }

  function Apply(a: Actor, s: Step): Actor {
    match s
    case SubmitStep(e, bypass, durable, fault, accepted, startOk) =>
      Submit(a, e, bypass, durable, fault, accepted, startOk)
    case DelegateStep(e, fault, minted, accepted, startOk) => Delegate(a, e, fault, minted, accepted, startOk)
    case RuntimeStep(e, conflict, fault, commit, startOk) => Runtime(a, e, conflict, fault, commit, startOk)
    case CancelQueuedStep(id) => CancelQueued(a, id)
    case CancelDelegateStep(id) => CancelDelegate(a, id)
    case InterruptStep => Interrupt(a)
    case ShutdownStep => Shutdown(a)
    case KillStep => a.(env := a.env.(killed := true))
    case CancelledStep => Cancelled(a)
    case ClosedStep => a.(exit := Closed)
    case AdmissionStep(ok, minted, startOk) => Admission(a, ok, minted, startOk)
    case DrainStep => Drain(a)
    case FoldStep(id, committed) => Fold(a, id, committed)
    case HandBackStep(t, boundaryOk, startOk) => HandBack(a, t, boundaryOk, startOk)
    case ResumeStep(cause) => ResumeParked(a, cause)
    case BlockStep => a.(env := a.env.(blocked := true))
    case UnblockStep(resumes, startOk) => Unblock(a, resumes, startOk)
  }

  /** The states of a run, newest last. */
  ghost predicate Run(states: seq<Actor>, steps: seq<Step>) {
    && |states| == |steps| + 1 && states[0] == Init(states[0].env.gated)
    && forall i :: 0 <= i < |steps| ==> Enabled(states[i], steps[i]) && states[i + 1] == Apply(states[i], steps[i])
  }

  // ---------------------------------------------------------------- the invariant

  /** Each input is in exactly one place. */
  ghost predicate Conserved(q: Queues) {
    multiset(Names(q.draining + q.inbox)) + multiset(Answered(q.answers)) + multiset(Names(q.carried)) ==
      multiset(q.seen)
  }

  ghost predicate InOrder(es: seq<Entry>, below: nat) {
    && (forall i :: 0 <= i < |es| ==> es[i].ticket < below)
    && forall i, j :: 0 <= i < j < |es| ==> es[i].ticket < es[j].ticket
  }

  ghost predicate AllCarryOver(es: seq<Entry>) { forall i :: 0 <= i < |es| ==> es[i].carryOver }

  ghost predicate Owned(q: Queues) {
    Conserved(q) && InOrder(q.draining + q.inbox, q.nextTicket) && AllCarryOver(q.carried)
  }

  predicate Phase(a: Actor) {
    && (a.turn.live <==> a.status.Running? || a.status.ShuttingDown?)
    && (a.status.Waiting? ==> a.cancelAdmission)
    && (!a.turn.live ==> a.turn.given == {} && !a.turn.cancel && !a.turn.targeted)
  }

  /** What the live turn may still fold is draining. */
  ghost predicate Foldable(a: Actor) { forall id :: id in a.turn.given ==> id in Names(a.q.draining) }

  ghost predicate Inv(a: Actor) {
    match a.exit
    case Open => Owned(a.q) && Phase(a) && Foldable(a)
    case Left => Owned(a.q) && a.q.inbox == [] && a.q.draining == []
    case Closed => Owned(a.q)
  }

  // ---------------------------------------------------------------- the queue functions neither lose nor copy

  lemma NamesConcat(es: seq<Entry>, fs: seq<Entry>)
    ensures Names(es + fs) == Names(es) + Names(fs)
  {
  }

  lemma AnsweredConcat(rs: seq<Answer>, qs: seq<Answer>)
    ensures Answered(rs + qs) == Answered(rs) + Answered(qs)
  {
  }

  lemma AnsweredReplies(rs: seq<Answer>, es: seq<Entry>, kind: Kind)
    ensures multiset(Answered(rs + Replies(es, kind))) == multiset(Answered(rs)) + multiset(Names(es))
  {
    AnsweredConcat(rs, Replies(es, kind));
    assert Answered(Replies(es, kind)) == Names(es);
  }

  lemma AnsweredOne(rs: seq<Answer>, r: Answer)
    ensures multiset(Answered(rs + [r])) == multiset(Answered(rs)) + multiset{r.id}
  {
    AnsweredConcat(rs, [r]);
    assert Answered([r]) == [r.id];
  }

  lemma {:induction false} FilterSplits(es: seq<Entry>, w: Which)
    ensures multiset(Names(Filter(es, w, true))) + multiset(Names(Filter(es, w, false))) == multiset(Names(es))
  {
    if es != [] {
      var last := es[|es| - 1];
      FilterSplits(es[..|es| - 1], w);
      assert es == es[..|es| - 1] + [last];
      NamesConcat(es[..|es| - 1], [last]);
      NamesConcat(Filter(es[..|es| - 1], w, Chosen(last, w)), [last]);
      assert Names([last]) == [last.id];
      assert Filter(es, w, !Chosen(last, w)) == Filter(es[..|es| - 1], w, !Chosen(last, w));
    }
  }

  lemma {:induction false} FilterKeeps(es: seq<Entry>, w: Which, want: bool, below: nat)
    requires InOrder(es, below)
    ensures InOrder(Filter(es, w, want), below)
    ensures forall i :: 0 <= i < |Filter(es, w, want)| ==> Chosen(Filter(es, w, want)[i], w) == want
  {
    if es != [] {
      FilterKeeps(es[..|es| - 1], w, want, es[|es| - 1].ticket);
    }
  }

  lemma {:induction false} WithoutSplits(es: seq<Entry>, id: nat)
    requires id in Names(es)
    ensures multiset(Names(Without(es, id))) + multiset{id} == multiset(Names(es))
  {
    assert es == [es[0]] + es[1..];
    NamesConcat([es[0]], es[1..]);
    assert Names([es[0]]) == [es[0].id];
    if es[0].id != id {
      WithoutSplits(es[1..], id);
      NamesConcat([es[0]], Without(es[1..], id));
    }
  }

  lemma {:induction false} WithoutKeeps(es: seq<Entry>, id: nat, above: int, below: nat)
    requires InOrder(es, below) && forall i :: 0 <= i < |es| ==> above < es[i].ticket
    ensures InOrder(Without(es, id), below)
    ensures forall i :: 0 <= i < |Without(es, id)| ==> above < Without(es, id)[i].ticket
  {
    if es != [] && es[0].id != id {
      WithoutKeeps(es[1..], id, es[0].ticket, below);
    }
  }

  // ---------------------------------------------------------------- the closures keep ownership

  lemma ReturnAllOwned(q: Queues, exiting: bool)
    requires Owned(q)
    ensures Owned(ReturnAll(q, exiting))
  {
    var all := q.draining + q.inbox;
    FilterSplits(all, CarryOvers);
    FilterKeeps(all, CarryOvers, true, q.nextTicket);
    AnsweredReplies(q.answers, Returning(all, exiting), Returned);
    NamesConcat(q.carried, LetGo(all, exiting));
    assert Names([]) == [];
  }

  lemma RetainUsersOwned(q: Queues)
    requires Owned(q)
    ensures Owned(RetainUsers(q))
  {
    var all := q.draining + q.inbox;
    FilterSplits(all, Users);
    FilterKeeps(all, Users, true, q.nextTicket);
    AnsweredReplies(q.answers, Filter(all, Users, false), Returned);
    assert [] + Filter(all, Users, true) == Filter(all, Users, true);
  }

  /** One name moves from the queues to the answers. */
  lemma Moves(queued: multiset<nat>, left: multiset<nat>, rs: seq<Answer>, r: Answer, rest: multiset<nat>,
              all: multiset<nat>)
    requires queued + multiset(Answered(rs)) + rest == all && left + multiset{r.id} == queued
    ensures left + multiset(Answered(rs + [r])) + rest == all
  {
    AnsweredOne(rs, r);
  }

  lemma FrontSplits(es: seq<Entry>, fs: seq<Entry>)
    requires fs != []
    ensures multiset(Names(es + fs[1..])) + multiset{fs[0].id} == multiset(Names(es + fs))
  {
    NamesConcat(es, fs);
    NamesConcat(es, fs[1..]);
    assert Names(fs) == [fs[0].id] + Names(fs[1..]);
  }

  lemma PopOwned(q: Queues, kind: Kind)
    requires Owned(q) && q.inbox != []
    ensures Owned(Pop(q, kind))
  {
    FrontSplits(q.draining, q.inbox);
    Moves(multiset(Names(q.draining + q.inbox)), multiset(Names(q.draining + q.inbox[1..])), q.answers,
          Answer(q.inbox[0].id, kind), multiset(Names(q.carried)), multiset(q.seen));
    OrderSkips(q.draining, q.inbox, q.nextTicket);
  }

  lemma OrderSkips(es: seq<Entry>, fs: seq<Entry>, below: nat)
    requires InOrder(es + fs, below) && fs != []
    ensures InOrder(es + fs[1..], below)
  {
    var all, left := es + fs, es + fs[1..];
    forall i | 0 <= i < |left| ensures left[i] == all[if i < |es| then i else i + 1] {
    }
  }

  lemma Grows(seen: set<nat>, id: nat)
    requires id !in seen
    ensures multiset(seen + {id}) == multiset(seen) + multiset{id}
  {
  }

  lemma AcceptOwned(q: Queues, e: Entry)
    requires Owned(q) && e.id !in q.seen
    ensures Owned(Accept(q, e))
  {
    var f := e.(ticket := q.nextTicket);
    assert q.draining + (q.inbox + [f]) == q.draining + q.inbox + [f];
    NamesConcat(q.draining + q.inbox, [f]);
    assert Names([f]) == [e.id];
    Grows(q.seen, e.id);
  }

  lemma AtDoorOwned(q: Queues, id: nat, kind: Kind)
    requires Owned(q) && id !in q.seen
    ensures Owned(AtDoor(q, id, kind))
  {
    AnsweredOne(q.answers, Answer(id, kind));
    Grows(q.seen, id);
  }

  lemma RetractOwned(q: Queues, id: nat)
    requires Owned(q) && id in Names(q.inbox)
    ensures Owned(Retract(q, id))
  {
    WithoutSplits(q.inbox, id);
    NamesConcat(q.draining, q.inbox);
    NamesConcat(q.draining, Without(q.inbox, id));
    Moves(multiset(Names(q.draining + q.inbox)), multiset(Names(q.draining + Without(q.inbox, id))), q.answers,
          Answer(id, Returned), multiset(Names(q.carried)), multiset(q.seen));
    TailWithout(q.draining, q.inbox, id, q.nextTicket);
  }

  lemma TailWithout(es: seq<Entry>, fs: seq<Entry>, id: nat, below: nat)
    requires InOrder(es + fs, below)
    ensures InOrder(es + Without(fs, id), below)
  {
    var above := if es == [] then -1 else es[|es| - 1].ticket;
    var all := es + fs;
    forall i | 0 <= i < |fs| ensures fs[i] == all[|es| + i] {
    }
    forall i | 0 <= i < |es| ensures es[i] == all[i] {
    }
    WithoutKeeps(fs, id, above, below);
  }

  lemma HeadWithout(es: seq<Entry>, fs: seq<Entry>, id: nat, below: nat)
    requires InOrder(es + fs, below)
    ensures InOrder(Without(es, id) + fs, below)
  {
    var all := es + fs;
    forall i | 0 <= i < |fs| ensures fs[i] == all[|es| + i] {
    }
    forall i | 0 <= i < |es| ensures es[i] == all[i] {
    }
    WithoutKeeps(es, id, -1, if fs == [] then below else fs[0].ticket);
  }

  lemma DrainedOwned(q: Queues)
    requires Owned(q)
    ensures Owned(Drained(q))
  {
    var n := Leading(q.inbox);
    assert q.draining + q.inbox[..n] + q.inbox[n..] == q.draining + q.inbox;
  }

  lemma HeadSplits(es: seq<Entry>, fs: seq<Entry>, id: nat)
    requires id in Names(es)
    ensures multiset(Names(Without(es, id) + fs)) + multiset{id} == multiset(Names(es + fs))
  {
    WithoutSplits(es, id);
    NamesConcat(es, fs);
    NamesConcat(Without(es, id), fs);
  }

  lemma FoldingOwned(q: Queues, id: nat)
    requires Owned(q) && id in Names(q.draining)
    ensures Owned(Folding(q, id))
  {
    HeadSplits(q.draining, q.inbox, id);
    Moves(multiset(Names(q.draining + q.inbox)), multiset(Names(Without(q.draining, id) + q.inbox)), q.answers,
          Answer(id, Folded), multiset(Names(q.carried)), multiset(q.seen));
    HeadWithout(q.draining, q.inbox, id, q.nextTicket);
  }

  // ---------------------------------------------------------------- every step keeps the invariant

  lemma RequestStartOwned(a: Actor, startOk: bool)
    requires Owned(a.q)
    ensures Owned(RequestStart(a, startOk).q)
  {
    if a.q.inbox != [] {
      PopOwned(a.q, Started);
      PopOwned(a.q, StartFailure(a.q.inbox[0]));
    }
  }

  lemma SubmitOwned(a: Actor, e: Entry, bypass: bool, durable: bool, fault: bool, accepted: bool, startOk: bool)
    requires Owned(a.q) && e.id !in a.q.seen
    ensures Owned(Submit(a, e, bypass, durable, fault, accepted, startOk).q)
  {
    AtDoorOwned(a.q, e.id, Rejected);
    AtDoorOwned(a.q, e.id, Returned);
    AcceptOwned(a.q, e);
    var f := e.(rejectOnStartFailure := !bypass);
    AcceptOwned(a.q, f);
    RequestStartOwned(a.(q := Accept(a.q, f)), startOk);
  }

  lemma AdmissionOwned(a: Actor, ok: bool, minted: bool, startOk: bool)
    requires Owned(a.q)
    ensures Owned(Admission(a, ok, minted, startOk).q)
  {
    ReturnAllOwned(a.q, true);
    ReturnAllOwned(a.q, a.env.killed);
    if a.q.inbox != [] {
      PopOwned(a.q, Started);
      var popped := Pop(a.q, StartFailure(a.q.inbox[0]));
      PopOwned(a.q, StartFailure(a.q.inbox[0]));
      ReturnAllOwned(popped, a.env.killed);
    }
  }

  lemma HandBackOwned(a: Actor, t: Terminal, boundaryOk: bool, startOk: bool)
    requires Owned(a.q)
    ensures Owned(HandBack(a, t, boundaryOk, startOk).q)
  {
    ReturnAllOwned(a.q, true);
    ReturnAllOwned(a.q, a.env.killed);
    RetainUsersOwned(a.q);
    var c := a.(turn := NO_TURN, status := Idle);
    RequestStartOwned(c, startOk);
    RequestStartOwned(c.(q := RetainUsers(c.q)), startOk);
  }

  lemma DelegateOwned(a: Actor, e: Entry, fault: bool, minted: bool, accepted: bool, startOk: bool)
    requires Owned(a.q) && e.id !in a.q.seen
    ensures Owned(Delegate(a, e, fault, minted, accepted, startOk).q)
  {
    AtDoorOwned(a.q, e.id, Rejected);
    AcceptOwned(a.q, e);
    RequestStartOwned(a.(q := Accept(a.q, e)), startOk);
  }

  lemma RuntimeOwned(a: Actor, e: Entry, conflict: bool, fault: bool, commit: CommitResult, startOk: bool)
    requires Owned(a.q) && e.id !in a.q.seen
    ensures Owned(Runtime(a, e, conflict, fault, commit, startOk).q)
  {
    var f := e.(carryOver := true, rejectOnStartFailure := true);
    AcceptOwned(a.q, e.(carryOver := true));
    AcceptOwned(a.q, f);
    RequestStartOwned(a.(q := Accept(a.q, f)), startOk);
  }

  lemma CancelsOwned(a: Actor, id: nat)
    requires Owned(a.q)
    ensures Owned(CancelQueued(a, id).q) && Owned(CancelDelegate(a, id).q)
  {
    if id in Names(a.q.inbox) { RetractOwned(a.q, id); }
  }

  lemma InterruptOwned(a: Actor)
    requires Owned(a.q)
    ensures Owned(Interrupt(a).q)
  {
    RetainUsersOwned(a.q);
  }

  lemma EndsOwned(a: Actor)
    requires Owned(a.q)
    ensures Owned(Shutdown(a).q) && Owned(Cancelled(a).q)
  {
    ReturnAllOwned(a.q, true);
  }

  lemma TurnOwned(a: Actor, id: nat, committed: bool)
    requires Owned(a.q)
    ensures Owned(Drain(a).q) && (id in Names(a.q.draining) ==> Owned(Fold(a, id, committed).q))
  {
    DrainedOwned(a.q);
    if id in Names(a.q.draining) { FoldingOwned(a.q, id); }
  }

  lemma UnblockOwned(a: Actor, resumes: bool, startOk: bool)
    requires Owned(a.q)
    ensures Owned(Unblock(a, resumes, startOk).q)
  {
    RequestStartOwned(a.(env := a.env.(blocked := false)), startOk);
  }

  lemma StepOwned(a: Actor, s: Step)
    requires Owned(a.q) && Foldable(a) && Enabled(a, s)
    ensures Owned(Apply(a, s).q)
  {
    match s
    case SubmitStep(e, bypass, durable, fault, accepted, startOk) =>
      SubmitOwned(a, e, bypass, durable, fault, accepted, startOk);
    case DelegateStep(e, fault, minted, accepted, startOk) => DelegateOwned(a, e, fault, minted, accepted, startOk);
    case RuntimeStep(e, conflict, fault, commit, startOk) => RuntimeOwned(a, e, conflict, fault, commit, startOk);
    case CancelQueuedStep(id) => CancelsOwned(a, id);
    case CancelDelegateStep(id) => CancelsOwned(a, id);
    case InterruptStep => InterruptOwned(a);
    case ShutdownStep => EndsOwned(a);
    case CancelledStep => EndsOwned(a);
    case AdmissionStep(ok, minted, startOk) => AdmissionOwned(a, ok, minted, startOk);
    case DrainStep => DrainedOwned(a.q);
    case FoldStep(id, committed) => TurnOwned(a, id, committed);
    case HandBackStep(t, boundaryOk, startOk) => HandBackOwned(a, t, boundaryOk, startOk);
    case UnblockStep(resumes, startOk) => UnblockOwned(a, resumes, startOk);
    case _ =>
  }

  /** Starting, and asking to start, keep the phase of a loop whose turn is over. */
  lemma RequestStartPhase(a: Actor, startOk: bool)
    requires Phase(a) && (a.status.Idle? || a.status.Waiting? || a.status.ShuttingDown?)
    ensures Phase(RequestStart(a, startOk))
  {
  }

  lemma SubmitPhase(a: Actor, e: Entry, bypass: bool, durable: bool, fault: bool, accepted: bool, startOk: bool)
    requires Phase(a)
    ensures Phase(Submit(a, e, bypass, durable, fault, accepted, startOk))
  {
    if !Busy(a) { RequestStartPhase(a.(q := Accept(a.q, e.(rejectOnStartFailure := !bypass))), startOk); }
  }

  lemma DelegatePhase(a: Actor, e: Entry, fault: bool, minted: bool, accepted: bool, startOk: bool)
    requires Phase(a)
    ensures Phase(Delegate(a, e, fault, minted, accepted, startOk))
  {
    if !Busy(a) { RequestStartPhase(a.(q := Accept(a.q, e)), startOk); }
  }

  lemma RuntimePhase(a: Actor, e: Entry, conflict: bool, fault: bool, commit: CommitResult, startOk: bool)
    requires Phase(a)
    ensures Phase(Runtime(a, e, conflict, fault, commit, startOk))
  {
    if !Busy(a) {
      RequestStartPhase(a.(q := Accept(a.q, e.(carryOver := true, rejectOnStartFailure := true))), startOk);
    }
  }

  lemma CancelsPhase(a: Actor, id: nat)
    requires Phase(a)
    ensures Phase(CancelQueued(a, id)) && Phase(CancelDelegate(a, id)) && Phase(Interrupt(a))
  {
  }

  lemma ShutdownPhase(a: Actor)
    requires Phase(a) && Shutdown(a).exit.Open?
    ensures Phase(Shutdown(a))
  {
  }

  lemma AdmissionPhase(a: Actor, ok: bool, minted: bool, startOk: bool)
    requires Phase(a) && Admission(a, ok, minted, startOk).exit.Open?
    ensures Phase(Admission(a, ok, minted, startOk))
  {
  }

  lemma TurnPhase(a: Actor, id: nat, committed: bool)
    requires Phase(a) && a.turn.live
    ensures Phase(Drain(a)) && Phase(Fold(a, id, committed))
  {
  }

  lemma HandBackPhase(a: Actor, t: Terminal, boundaryOk: bool, startOk: bool)
    requires Phase(a) && HandBack(a, t, boundaryOk, startOk).exit.Open?
    ensures Phase(HandBack(a, t, boundaryOk, startOk))
  {
    if !a.status.ShuttingDown? {
      var c := a.(turn := NO_TURN, status := Idle);
      HandedPhase(a);
      RequestStartPhase(c, startOk);
      RequestStartPhase(c.(q := RetainUsers(c.q)), startOk);
    }
  }

  lemma HandedPhase(a: Actor)
    ensures Phase(a.(turn := NO_TURN, status := Idle)) && Phase(Return(a.(turn := NO_TURN, status := Idle)))
    ensures Phase(a.(turn := NO_TURN, status := Idle, q := RetainUsers(a.q)))
  {
  }

  lemma UnblockPhase(a: Actor, resumes: bool, startOk: bool)
    requires Phase(a)
    ensures Phase(Unblock(a, resumes, startOk))
  {
    var b := a.(env := a.env.(blocked := false));
    if resumes && b.status.Idle? { RequestStartPhase(b, startOk); }
  }

  lemma StepPhase(a: Actor, s: Step)
    requires Phase(a) && Enabled(a, s) && Apply(a, s).exit.Open?
    ensures Phase(Apply(a, s))
  {
    match s
    case SubmitStep(e, bypass, durable, fault, accepted, startOk) =>
      SubmitPhase(a, e, bypass, durable, fault, accepted, startOk);
    case DelegateStep(e, fault, minted, accepted, startOk) => DelegatePhase(a, e, fault, minted, accepted, startOk);
    case RuntimeStep(e, conflict, fault, commit, startOk) => RuntimePhase(a, e, conflict, fault, commit, startOk);
    case CancelQueuedStep(id) => CancelsPhase(a, id);
    case CancelDelegateStep(id) => CancelsPhase(a, id);
    case InterruptStep => CancelsPhase(a, 0);
    case ShutdownStep => ShutdownPhase(a);
    case AdmissionStep(ok, minted, startOk) => AdmissionPhase(a, ok, minted, startOk);
    case DrainStep => TurnPhase(a, 0, false);
    case FoldStep(id, committed) => TurnPhase(a, id, committed);
    case HandBackStep(t, boundaryOk, startOk) => HandBackPhase(a, t, boundaryOk, startOk);
    case UnblockStep(resumes, startOk) => UnblockPhase(a, resumes, startOk);
    case _ =>
  }

  predicate Emptied(a: Actor) { a.exit.Left? ==> a.q.inbox == [] && a.q.draining == [] }

  lemma LeaveEmpties(a: Actor)
    ensures Emptied(Leave(a))
  {
  }

  lemma DoorsStay(a: Actor, s: Step)
    requires a.exit.Open? && (s.SubmitStep? || s.DelegateStep? || s.RuntimeStep? || s.UnblockStep?)
    ensures Apply(a, s).exit.Open?
  {
  }

  lemma EndsEmpty(a: Actor)
    requires a.exit.Open?
    ensures Emptied(Shutdown(a)) && Emptied(Cancelled(a))
  {
    var b := a.(status := ShuttingDown, turn := a.turn.(cancel := false));
    LeaveEmpties(b);
    LeaveEmpties(b.(cancelAdmission := false));
  }

  lemma AdmissionEmpties(a: Actor, ok: bool, minted: bool, startOk: bool)
    requires a.exit.Open?
    ensures Emptied(Admission(a, ok, minted, startOk))
  {
    LeaveEmpties(a.(cancelAdmission := false));
  }

  lemma HandBackEmpties(a: Actor, t: Terminal, boundaryOk: bool, startOk: bool)
    requires a.exit.Open?
    ensures Emptied(HandBack(a, t, boundaryOk, startOk))
  {
    LeaveEmpties(a.(turn := NO_TURN));
  }

  /** An actor that left holds nothing. */
  lemma StepExit(a: Actor, s: Step)
    requires Enabled(a, s)
    ensures Emptied(Apply(a, s))
  {
    match s
    case SubmitStep(_, _, _, _, _, _) => DoorsStay(a, s);
    case DelegateStep(_, _, _, _, _) => DoorsStay(a, s);
    case RuntimeStep(_, _, _, _, _) => DoorsStay(a, s);
    case UnblockStep(_, _) => DoorsStay(a, s);
    case ShutdownStep => EndsEmpty(a);
    case CancelledStep => EndsEmpty(a);
    case AdmissionStep(ok, minted, startOk) => AdmissionEmpties(a, ok, minted, startOk);
    case HandBackStep(t, boundaryOk, startOk) => HandBackEmpties(a, t, boundaryOk, startOk);
    case _ =>
  }

  /** A step that is neither a drain nor a fold leaves the turn what it had, or ends it. */
  lemma StepGiven(a: Actor, s: Step)
    requires Phase(a) && Enabled(a, s) && Apply(a, s).exit.Open? && !s.DrainStep? && !s.FoldStep?
    ensures var b := Apply(a, s); b.turn.given == {} || (b.turn.given == a.turn.given && b.q.draining == a.q.draining)
  {
    StepDraining(a, s);
    if Clears(a, s) { ClearedGiven(a, s); }
  }

  /** A step that clears draining finds no turn, or ends it. */
  lemma ClearedGiven(a: Actor, s: Step)
    requires Phase(a) && Enabled(a, s) && Apply(a, s).exit.Open? && Clears(a, s)
    ensures Apply(a, s).turn.given == {}
  {
    match s
    case HandBackStep(t, boundaryOk, startOk) => HandBackDraining(a, t, boundaryOk, startOk);
    case _ =>
  }

  lemma DrainFoldable(a: Actor)
    requires Foldable(a)
    ensures Foldable(Drain(a))
  {
    var n := Leading(a.q.inbox);
    NamesConcat(a.q.draining, a.q.inbox[..n]);
    forall id | id in Drain(a).turn.given - a.turn.given ensures id in Names(a.q.inbox[..n]) {
      var e :| e in a.q.inbox[..n] && e.id == id;
      var i :| 0 <= i < n && a.q.inbox[..n][i] == e;
      assert Names(a.q.inbox[..n])[i] == id;
    }
  }

  lemma WithoutKeepsName(es: seq<Entry>, id: nat, other: nat)
    requires id in Names(es) && other in Names(es) && other != id
    ensures other in Names(Without(es, id))
  {
    WithoutSplits(es, id);
    assert other in multiset(Names(es));
  }

  lemma FoldFoldable(a: Actor, id: nat, committed: bool)
    requires Foldable(a) && id in a.turn.given
    ensures Foldable(Fold(a, id, committed))
  {
    forall other | other in a.turn.given && other != id ensures other in Names(Without(a.q.draining, id)) {
      WithoutKeepsName(a.q.draining, id, other);
    }
  }

  lemma StepKeeps(a: Actor, s: Step)
    requires Inv(a) && Enabled(a, s)
    ensures Inv(Apply(a, s))
  {
    StepOwned(a, s);
    var b := Apply(a, s);
    match b.exit
    case Closed =>
    case Left =>
      StepExit(a, s);
    case Open =>
      StepPhase(a, s);
      if s.DrainStep? {
        DrainFoldable(a);
      } else if s.FoldStep? {
        FoldFoldable(a, s.id, s.committed);
      } else {
        StepGiven(a, s);
      }
  }

  /** Every state of every run keeps the invariant. */
  lemma {:induction false} RunKeeps(states: seq<Actor>, steps: seq<Step>, k: nat)
    requires Run(states, steps) && k < |states|
    ensures Inv(states[k])
  {
    if k == 0 {
      assert multiset(Names([] + [])) == multiset{};
    } else {
      RunKeeps(states, steps, k - 1);
      StepKeeps(states[k - 1], steps[k - 1]);
    }
  }

  // ---------------------------------------------------------------- what the invariant says

  lemma OneOfEach(all: set<nat>, places: multiset<nat>, id: nat)
    requires places == multiset(all)
    ensures places[id] == if id in all then 1 else 0
  {
  }

  /** How often an input is queued, draining, answered or carried over. */
  ghost function Places(q: Queues, id: nat): nat {
    multiset(Names(q.inbox))[id] + multiset(Names(q.draining))[id]
      + multiset(Answered(q.answers))[id] + multiset(Names(q.carried))[id]
  }

  /** In every state of every run an input that was seen is in exactly one place: queued, draining,
      answered or carried over, and there once. */
  lemma ExactlyOnePlace(states: seq<Actor>, steps: seq<Step>, k: nat, id: nat)
    requires Run(states, steps) && k < |states|
    ensures Places(states[k].q, id) == if id in states[k].q.seen then 1 else 0
  {
    RunKeeps(states, steps, k);
    var q := states[k].q;
    NamesConcat(q.draining, q.inbox);
    var places := multiset(Names(q.draining + q.inbox)) + multiset(Answered(q.answers)) + multiset(Names(q.carried));
    OneOfEach(q.seen, places, id);
  }

  lemma TwiceCounts(xs: seq<nat>, i: nat, j: nat)
    requires i < j < |xs| && xs[i] == xs[j]
    ensures multiset(xs)[xs[i]] >= 2
  {
    assert xs == xs[..j] + [xs[j]] + xs[j + 1..];
    assert xs[..j][i] == xs[i];
  }

  /** No input is resolved twice. */
  lemma AnsweredOnce(states: seq<Actor>, steps: seq<Step>, k: nat, i: nat, j: nat)
    requires Run(states, steps) && k < |states| && i < j < |states[k].q.answers|
    ensures states[k].q.answers[i].id != states[k].q.answers[j].id
  {
    var ids := Answered(states[k].q.answers);
    ExactlyOnePlace(states, steps, k, ids[i]);
    if ids[i] == ids[j] { TwiceCounts(ids, i, j); }
  }

  /** An actor that left has answered every input it ever took, or carries it over. */
  lemma LeavesNothingUnresolved(states: seq<Actor>, steps: seq<Step>, k: nat, id: nat)
    requires Run(states, steps) && k < |states| && states[k].exit.Left? && id in states[k].q.seen
    ensures multiset(Answered(states[k].q.answers))[id] + multiset(Names(states[k].q.carried))[id] == 1
    ensures AllCarryOver(states[k].q.carried)
  {
    RunKeeps(states, steps, k);
    ExactlyOnePlace(states, steps, k, id);
    assert Names([]) == [];
  }

  /** Drained and queued inputs, in this order, are in the order of their acceptance. */
  lemma OrderIsKept(states: seq<Actor>, steps: seq<Step>, k: nat, i: nat, j: nat)
    requires Run(states, steps) && k < |states|
    ensures
      var all := states[k].q.draining + states[k].q.inbox;
      i < j < |all| ==> all[i].ticket < all[j].ticket
  {
    RunKeeps(states, steps, k);
  }

  lemma {:induction false} FilterWithin(es: seq<Entry>, w: Which, want: bool)
    ensures forall e :: e in Filter(es, w, want) ==> e in es
  {
    if es != [] { FilterWithin(es[..|es| - 1], w, want); }
  }

  lemma {:induction false} WithoutWithin(es: seq<Entry>, id: nat)
    ensures forall e :: e in Without(es, id) ==> e in es
  {
    if es != [] { WithoutWithin(es[1..], id); }
  }

  /** While the compaction slot is occupied no entry starts draining and no admission is requested. */
  lemma BlockedHolds(a: Actor, s: Step)
    requires Enabled(a, s) && a.env.blocked && Apply(a, s).env.blocked
    ensures forall e :: e in Apply(a, s).q.draining ==> e in a.q.draining
    ensures Apply(a, s).status.Waiting? ==> a.status.Waiting?
  {
    if s.FoldStep? { WithoutWithin(a.q.draining, s.id); }
    BlockedDraining(a, s);
  }

  lemma BlockedDraining(a: Actor, s: Step)
    requires Enabled(a, s) && a.env.blocked && Apply(a, s).env.blocked
    ensures var d := Apply(a, s).q.draining;
      d == [] || d == a.q.draining || (s.FoldStep? && d == Without(a.q.draining, s.id))
  {
  }

  /** Only the slot's own steps change whether it is occupied. */
  lemma StepBlocked(a: Actor, s: Step)
    ensures Apply(a, s).env.blocked == if s.BlockStep? then true else if s.UnblockStep? then false else a.env.blocked
  {
  }

  /** Between the two states some input was answered by the start of its turn. */
  ghost predicate Starts(p: Queues, q: Queues) {
    exists i :: |p.answers| <= i < |q.answers| && q.answers[i].kind.Started?
  }

  /** An admission that ends with the front of the inbox started. */
  predicate AdmitsFront(a: Actor, s: Step) {
    s == AdmissionStep(true, true, true) && a.status.Waiting? && a.q.inbox != []
  }

  lemma SweepStarts(q: Queues, exiting: bool)
    ensures !Starts(q, ReturnAll(q, exiting)) && !Starts(q, RetainUsers(q))
  {
  }

  lemma AdmissionStarts(a: Actor, ok: bool, minted: bool, startOk: bool)
    ensures Starts(a.q, Admission(a, ok, minted, startOk).q) <==> AdmitsFront(a, AdmissionStep(ok, minted, startOk))
  {
    SweepStarts(a.q, true);
    SweepStarts(a.q, a.env.killed);
    if AdmitsFront(a, AdmissionStep(ok, minted, startOk)) {
      assert Admission(a, ok, minted, startOk).q.answers[|a.q.answers|].kind.Started?;
    }
  }

  lemma HandBackStarts(a: Actor, t: Terminal, boundaryOk: bool, startOk: bool)
    requires a.env.blocked
    ensures !Starts(a.q, HandBack(a, t, boundaryOk, startOk).q)
  {
    SweepStarts(a.q, true);
    SweepStarts(a.q, a.env.killed);
  }

  lemma DoorsStart(a: Actor, s: Step)
    requires a.env.blocked && (s.SubmitStep? || s.DelegateStep? || s.RuntimeStep?)
    ensures !Starts(a.q, Apply(a, s).q)
  {
  }

  /** While the slot is occupied an input starts exactly when the admission asked for earlier comes. */
  lemma BlockedStarts(a: Actor, s: Step)
    requires Enabled(a, s) && a.env.blocked && !s.UnblockStep?
    ensures Starts(a.q, Apply(a, s).q) <==> AdmitsFront(a, s)
  {
    match s
    case SubmitStep(_, _, _, _, _, _) => DoorsStart(a, s);
    case DelegateStep(_, _, _, _, _) => DoorsStart(a, s);
    case RuntimeStep(_, _, _, _, _) => DoorsStart(a, s);
    case InterruptStep => SweepStarts(a.q, true);
    case ShutdownStep => SweepStarts(a.q, true);
    case CancelledStep => SweepStarts(a.q, true);
    case AdmissionStep(ok, minted, startOk) => AdmissionStarts(a, ok, minted, startOk);
    case HandBackStep(t, boundaryOk, startOk) => HandBackStarts(a, t, boundaryOk, startOk);
    case _ =>
  }

  /** What was answered, carried over or seen stays so. */
  ghost predicate Extends(p: Queues, q: Queues) {
    p.answers <= q.answers && p.carried <= q.carried && p.seen <= q.seen
  }

  lemma RequestStartExtends(p: Queues, a: Actor, startOk: bool)
    requires Extends(p, a.q)
    ensures Extends(p, RequestStart(a, startOk).q)
  {
  }

  lemma ReturnAllExtends(p: Queues, q: Queues, exiting: bool)
    requires Extends(p, q)
    ensures Extends(p, ReturnAll(q, exiting))
  {
  }

  lemma HandBackExtends(a: Actor, t: Terminal, boundaryOk: bool, startOk: bool)
    ensures Extends(a.q, HandBack(a, t, boundaryOk, startOk).q)
  {
    var c := a.(turn := NO_TURN, status := Idle);
    ReturnAllExtends(a.q, a.q, true);
    ReturnAllExtends(a.q, a.q, a.env.killed);
    RequestStartExtends(a.q, c, startOk);
    RequestStartExtends(a.q, c.(q := RetainUsers(a.q)), startOk);
  }

  lemma AdmissionExtends(a: Actor, ok: bool, minted: bool, startOk: bool)
    ensures Extends(a.q, Admission(a, ok, minted, startOk).q)
  {
    ReturnAllExtends(a.q, a.q, true);
    ReturnAllExtends(a.q, a.q, a.env.killed);
    if a.q.inbox != [] {
      ReturnAllExtends(a.q, Pop(a.q, StartFailure(a.q.inbox[0])), a.env.killed);
    }
  }

  lemma SubmitExtends(a: Actor, e: Entry, bypass: bool, durable: bool, fault: bool, accepted: bool, startOk: bool)
    ensures Extends(a.q, Submit(a, e, bypass, durable, fault, accepted, startOk).q)
  {
    RequestStartExtends(a.q, a.(q := Accept(a.q, e.(rejectOnStartFailure := !bypass))), startOk);
  }

  lemma DelegateExtends(a: Actor, e: Entry, fault: bool, minted: bool, accepted: bool, startOk: bool)
    ensures Extends(a.q, Delegate(a, e, fault, minted, accepted, startOk).q)
  {
    RequestStartExtends(a.q, a.(q := Accept(a.q, e)), startOk);
  }

  lemma RuntimeExtends(a: Actor, e: Entry, conflict: bool, fault: bool, commit: CommitResult, startOk: bool)
    ensures Extends(a.q, Runtime(a, e, conflict, fault, commit, startOk).q)
  {
    RequestStartExtends(a.q, a.(q := Accept(a.q, e.(carryOver := true, rejectOnStartFailure := true))), startOk);
  }

  lemma CancelsExtend(a: Actor, id: nat)
    ensures Extends(a.q, CancelQueued(a, id).q) && Extends(a.q, CancelDelegate(a, id).q)
  {
  }

  lemma InterruptExtends(a: Actor)
    ensures Extends(a.q, Interrupt(a).q)
  {
  }

  lemma EndsExtend(a: Actor)
    ensures Extends(a.q, Shutdown(a).q) && Extends(a.q, Cancelled(a).q)
  {
    ReturnAllExtends(a.q, a.q, true);
  }

  lemma UnblockExtends(a: Actor, resumes: bool, startOk: bool)
    ensures Extends(a.q, Unblock(a, resumes, startOk).q)
  {
    RequestStartExtends(a.q, a.(env := a.env.(blocked := false)), startOk);
  }

  lemma StepExtends(a: Actor, s: Step)
    ensures Extends(a.q, Apply(a, s).q)
  {
    match s
    case SubmitStep(e, bypass, durable, fault, accepted, startOk) =>
      SubmitExtends(a, e, bypass, durable, fault, accepted, startOk);
    case DelegateStep(e, fault, minted, accepted, startOk) => DelegateExtends(a, e, fault, minted, accepted, startOk);
    case RuntimeStep(e, conflict, fault, commit, startOk) => RuntimeExtends(a, e, conflict, fault, commit, startOk);
    case CancelQueuedStep(id) => CancelsExtend(a, id);
    case CancelDelegateStep(id) => CancelsExtend(a, id);
    case InterruptStep => InterruptExtends(a);
    case ShutdownStep => EndsExtend(a);
    case CancelledStep => EndsExtend(a);
    case AdmissionStep(ok, minted, startOk) => AdmissionExtends(a, ok, minted, startOk);
    case HandBackStep(t, boundaryOk, startOk) => HandBackExtends(a, t, boundaryOk, startOk);
    case UnblockStep(resumes, startOk) => UnblockExtends(a, resumes, startOk);
    case _ =>
  }

  // ---------------------------------------------------------------- where an entry can come from

  /** The id a step brings in. */
  function NewIds(s: Step): set<nat> {
    if s.SubmitStep? || s.DelegateStep? || s.RuntimeStep? then {s.e.id} else {}
  }

  predicate Holds(q: Queues, e: Entry) { e in q.inbox || e in q.draining || e in q.carried }

  /** Everything held after was held before or is the entry that came in, and only the runtime door
      marks what comes in as carry-over. */
  ghost predicate Within(p: Queues, q: Queues, s: Step) {
    && q.seen <= p.seen + NewIds(s)
    && forall e :: Holds(q, e) ==> Holds(p, e) || (e.id in NewIds(s) && (e.carryOver ==> s.RuntimeStep?))
  }

  lemma ReturnAllWithin(p: Queues, q: Queues, s: Step, exiting: bool)
    requires Within(p, q, s)
    ensures Within(p, ReturnAll(q, exiting), s)
  {
    FilterWithin(q.draining + q.inbox, CarryOvers, true);
  }

  lemma RetainUsersWithin(p: Queues, q: Queues, s: Step)
    requires Within(p, q, s)
    ensures Within(p, RetainUsers(q), s)
  {
    FilterWithin(q.draining + q.inbox, Users, true);
  }

  lemma RequestStartWithin(p: Queues, a: Actor, s: Step, startOk: bool)
    requires Within(p, a.q, s)
    ensures Within(p, RequestStart(a, startOk).q, s)
  {
  }

  lemma AcceptWithin(p: Queues, e: Entry, s: Step)
    requires e.id in NewIds(s) && (e.carryOver ==> s.RuntimeStep?)
    ensures Within(p, Accept(p, e), s)
  {
  }

  lemma SameWithin(q: Queues, s: Step)
    ensures Within(q, q, s)
  {
  }

  lemma HandBackWithin(a: Actor, s: Step)
    requires s.HandBackStep?
    ensures Within(a.q, Apply(a, s).q, s)
  {
    hide Within, ReturnAll, RetainUsers, RequestStart;
    var c := a.(turn := NO_TURN, status := Idle);
    SameWithin(a.q, s);
    if a.status.ShuttingDown? {
      ReturnAllWithin(a.q, a.q, s, true);
    } else if s.boundaryOk && (a.turn.targeted || s.t.Done?) {
      RequestStartWithin(a.q, c, s, s.startOk);
    } else if s.boundaryOk && s.t.Interrupted? {
      RetainUsersWithin(a.q, a.q, s);
      RequestStartWithin(a.q, c.(q := RetainUsers(a.q)), s, s.startOk);
    } else {
      ReturnAllWithin(a.q, a.q, s, a.env.killed);
    }
  }

  lemma AdmissionWithin(a: Actor, s: Step)
    requires s.AdmissionStep?
    ensures Within(a.q, Apply(a, s).q, s)
  {
    ReturnAllWithin(a.q, a.q, s, true);
    ReturnAllWithin(a.q, a.q, s, a.env.killed);
    if a.q.inbox != [] {
      ReturnAllWithin(a.q, Pop(a.q, StartFailure(a.q.inbox[0])), s, a.env.killed);
    }
  }

  lemma DoorsWithin(a: Actor, s: Step)
    requires Enabled(a, s) && (s.SubmitStep? || s.DelegateStep? || s.RuntimeStep?)
    ensures Within(a.q, Apply(a, s).q, s)
  {
    var e := if s.SubmitStep? then s.e.(rejectOnStartFailure := !s.bypass)
             else if s.DelegateStep? then s.e
             else s.e.(carryOver := true, rejectOnStartFailure := true);
    AcceptWithin(a.q, e, s);
    RequestStartWithin(a.q, a.(q := Accept(a.q, e)), s, s.startOk);
  }

  lemma StepWithin(a: Actor, s: Step)
    requires Enabled(a, s)
    ensures Within(a.q, Apply(a, s).q, s)
  {
    match s
    case SubmitStep(_, _, _, _, _, _) => DoorsWithin(a, s);
    case DelegateStep(_, _, _, _, _) => DoorsWithin(a, s);
    case RuntimeStep(_, _, _, _, _) => DoorsWithin(a, s);
    case CancelQueuedStep(id) => WithoutWithin(a.q.inbox, id);
    case CancelDelegateStep(id) => WithoutWithin(a.q.inbox, id);
    case InterruptStep => RetainUsersWithin(a.q, a.q, s);
    case ShutdownStep => ReturnAllWithin(a.q, a.q, s, true);
    case CancelledStep => ReturnAllWithin(a.q, a.q, s, true);
    case AdmissionStep(_, _, _) => AdmissionWithin(a, s);
    case FoldStep(id, _) => WithoutWithin(a.q.draining, id);
    case HandBackStep(_, _, _) => HandBackWithin(a, s);
    case UnblockStep(_, startOk) => RequestStartWithin(a.q, a.(env := a.env.(blocked := false)), s, startOk);
    case _ =>
  }

  // ---------------------------------------------------------------- what a live turn was started by

  /** The turn's opening answer is the last of those this step gave. */
  ghost predicate JustStarted(p: Queues, b: Actor) {
    |p.answers| < |b.q.answers| && b.q.answers[|b.q.answers| - 1] == Answer(b.turn.causation, Started)
  }

  lemma RequestStartStarts(p: Queues, a: Actor, startOk: bool)
    requires |p.answers| <= |a.q.answers| && !a.turn.live && RequestStart(a, startOk).turn.live
    ensures JustStarted(p, RequestStart(a, startOk))
  {
  }

  /** The turn is the one there was, or was started just now. */
  ghost predicate SameOrStarted(a: Actor, b: Actor) {
    b.turn.live ==> (a.turn.live && b.turn.causation == a.turn.causation) || JustStarted(a.q, b)
  }

  lemma StartCause(a: Actor, c: Actor, startOk: bool)
    requires |a.q.answers| <= |c.q.answers| && (c.turn.live ==> c.turn == a.turn)
    ensures SameOrStarted(a, RequestStart(c, startOk))
  {
    if !c.turn.live && RequestStart(c, startOk).turn.live { RequestStartStarts(a.q, c, startOk); }
  }

  lemma SubmitCause(a: Actor, e: Entry, bypass: bool, durable: bool, fault: bool, accepted: bool, startOk: bool)
    ensures SameOrStarted(a, Submit(a, e, bypass, durable, fault, accepted, startOk))
  {
    StartCause(a, a.(q := Accept(a.q, e.(rejectOnStartFailure := !bypass))), startOk);
  }

  lemma DelegateCause(a: Actor, e: Entry, fault: bool, minted: bool, accepted: bool, startOk: bool)
    ensures SameOrStarted(a, Delegate(a, e, fault, minted, accepted, startOk))
  {
    StartCause(a, a.(q := Accept(a.q, e)), startOk);
  }

  lemma RuntimeCause(a: Actor, e: Entry, conflict: bool, fault: bool, commit: CommitResult, startOk: bool)
    ensures SameOrStarted(a, Runtime(a, e, conflict, fault, commit, startOk))
  {
    StartCause(a, a.(q := Accept(a.q, e.(carryOver := true, rejectOnStartFailure := true))), startOk);
  }

  lemma AdmissionCause(a: Actor, ok: bool, minted: bool, startOk: bool)
    ensures SameOrStarted(a, Admission(a, ok, minted, startOk))
  {
  }

  lemma HandBackCause(a: Actor, t: Terminal, boundaryOk: bool, startOk: bool)
    ensures SameOrStarted(a, HandBack(a, t, boundaryOk, startOk))
  {
    var c := a.(turn := NO_TURN, status := Idle);
    StartCause(a, c, startOk);
    StartCause(a, c.(q := RetainUsers(a.q)), startOk);
  }

  lemma UnblockCause(a: Actor, resumes: bool, startOk: bool)
    ensures SameOrStarted(a, Unblock(a, resumes, startOk))
  {
    StartCause(a, a.(env := a.env.(blocked := false)), startOk);
  }

  /** A live turn goes on with its cause, unless this step started it or resumed it. */
  lemma StepCause(a: Actor, s: Step)
    requires Phase(a) && Enabled(a, s) && Apply(a, s).turn.live && Apply(a, s).exit.Open?
    ensures
      var b := Apply(a, s);
      || (a.turn.live && b.turn.causation == a.turn.causation)
      || JustStarted(a.q, b)
      || (s.ResumeStep? && b.turn.causation == s.cause)
  {
    match s
    case SubmitStep(e, bypass, durable, fault, accepted, startOk) =>
      SubmitCause(a, e, bypass, durable, fault, accepted, startOk);
    case DelegateStep(e, fault, minted, accepted, startOk) => DelegateCause(a, e, fault, minted, accepted, startOk);
    case RuntimeStep(e, conflict, fault, commit, startOk) => RuntimeCause(a, e, conflict, fault, commit, startOk);
    case AdmissionStep(ok, minted, startOk) => AdmissionCause(a, ok, minted, startOk);
    case HandBackStep(t, boundaryOk, startOk) => HandBackCause(a, t, boundaryOk, startOk);
    case UnblockStep(resumes, startOk) => UnblockCause(a, resumes, startOk);
    case _ =>
  }

  // ---------------------------------------------------------------- what is left draining when a turn ends

  /** The end of a turn that ended normally, or was cancelled by its own request, with entries it had not
      folded. */
  predicate Strands(a: Actor, s: Step) {
    s.HandBackStep? && !a.status.ShuttingDown? && s.boundaryOk && (a.turn.targeted || s.t.Done?) && a.q.draining != []
  }

  /** The steps that empty draining, by the guards of their arms. */
  predicate Clears(a: Actor, s: Step) {
    match s
    case InterruptStep =>
      !a.turn.cancel && !a.turn.targeted && ((a.status.Waiting? && a.cancelAdmission) || a.status.Idle?)
    case ShutdownStep => a.status.Idle? || a.status.Waiting?
    case CancelledStep => true
    case AdmissionStep(ok, minted, startOk) =>
      a.status.ShuttingDown? || (a.status.Waiting? && (!ok || (a.q.inbox != [] && !(minted && startOk))))
    case HandBackStep(t, boundaryOk, _) => a.status.ShuttingDown? || !boundaryOk || !(a.turn.targeted || t.Done?)
    case _ => false
  }

  /** Some entry is draining that no turn was given. */
  ghost predicate Stranded(a: Actor) { exists e :: e in a.q.draining && e.id !in a.turn.given }

  lemma RequestStartDraining(a: Actor, startOk: bool)
    ensures RequestStart(a, startOk).q.draining == a.q.draining
    ensures RequestStart(a, startOk).turn.given == a.turn.given || RequestStart(a, startOk).turn.given == {}
  {
  }

  /** A step that neither clears nor is the turn's own leaves draining as it is. */
  predicate SameDraining(a: Actor, b: Actor) {
    b.q.draining == a.q.draining && (b.turn.given == a.turn.given || b.turn.given == {})
  }

  lemma DoorsDraining(a: Actor, s: Step)
    requires s.SubmitStep? || s.DelegateStep? || s.RuntimeStep?
    ensures SameDraining(a, Apply(a, s))
  {
    var e := if s.SubmitStep? then s.e.(rejectOnStartFailure := !s.bypass)
             else if s.DelegateStep? then s.e
             else s.e.(carryOver := true, rejectOnStartFailure := true);
    RequestStartDraining(a.(q := Accept(a.q, e)), s.startOk);
  }

  lemma HandBackDraining(a: Actor, t: Terminal, boundaryOk: bool, startOk: bool)
    ensures
      var s, b := HandBackStep(t, boundaryOk, startOk), HandBack(a, t, boundaryOk, startOk);
      b.turn.given == {} && b.q.draining == if Clears(a, s) then [] else a.q.draining
  {
    var c := a.(turn := NO_TURN, status := Idle);
    RequestStartDraining(c, startOk);
    RequestStartDraining(c.(q := RetainUsers(a.q)), startOk);
  }

  lemma AdmissionDraining(a: Actor, ok: bool, minted: bool, startOk: bool)
    ensures
      var b := Admission(a, ok, minted, startOk);
      if Clears(a, AdmissionStep(ok, minted, startOk)) then b.q.draining == [] else SameDraining(a, b)
  {
  }

  lemma InterruptDraining(a: Actor)
    ensures var b := Interrupt(a); if Clears(a, InterruptStep) then b.q.draining == [] else SameDraining(a, b)
  {
  }

  lemma UnblockDraining(a: Actor, resumes: bool, startOk: bool)
    ensures SameDraining(a, Unblock(a, resumes, startOk))
  {
    RequestStartDraining(a.(env := a.env.(blocked := false)), startOk);
  }

  lemma EndsDraining(a: Actor, s: Step)
    requires Phase(a) && Enabled(a, s) && (s.ShutdownStep? || s.CancelledStep?)
    ensures Clears(a, s) ==> Apply(a, s).q.draining == []
    ensures !Clears(a, s) ==> SameDraining(a, Apply(a, s))
  {
  }

  /** What a step makes of draining: a clearing step empties it, the turn's own steps change it, and any
      other step leaves it. */
  lemma StepDraining(a: Actor, s: Step)
    requires Phase(a) && Enabled(a, s)
    ensures Clears(a, s) ==> Apply(a, s).q.draining == []
    ensures !Clears(a, s) && !s.DrainStep? && !s.FoldStep? ==> SameDraining(a, Apply(a, s))
  {
    hide RetainUsers, ReturnAll, RequestStart, Names, Without;
    match s
    case SubmitStep(_, _, _, _, _, _) => DoorsDraining(a, s);
    case DelegateStep(_, _, _, _, _) => DoorsDraining(a, s);
    case RuntimeStep(_, _, _, _, _) => DoorsDraining(a, s);
    case InterruptStep => InterruptDraining(a);
    case ShutdownStep => EndsDraining(a, s);
    case CancelledStep => EndsDraining(a, s);
    case AdmissionStep(ok, minted, startOk) => AdmissionDraining(a, ok, minted, startOk);
    case HandBackStep(t, boundaryOk, startOk) => HandBackDraining(a, t, boundaryOk, startOk);
    case UnblockStep(resumes, startOk) => UnblockDraining(a, resumes, startOk);
    case _ =>
  }

  /** No input is both draining and queued. */
  lemma Apart(q: Queues, i: nat, j: nat)
    requires Conserved(q) && i < |q.draining| && j < |q.inbox|
    ensures q.draining[i].id != q.inbox[j].id
  {
    var id, names := q.draining[i].id, Names(q.draining + q.inbox);
    assert multiset(q.seen)[id] <= 1;
    assert names[i] == id && names[|q.draining| + j] == q.inbox[j].id;
    if q.inbox[j].id == id { TwiceCounts(names, i, |q.draining| + j); }
  }

  /** A drain and a fold leave what no turn was given. */
  lemma TurnKeepsStranded(a: Actor, s: Step)
    requires Conserved(a.q) && Enabled(a, s) && (s.DrainStep? || s.FoldStep?) && Stranded(a)
    ensures Stranded(Apply(a, s))
  {
    var e :| e in a.q.draining && e.id !in a.turn.given;
    var i :| 0 <= i < |a.q.draining| && a.q.draining[i] == e;
    var b := Apply(a, s);
    if s.DrainStep? {
      if e.id in b.turn.given && !a.env.blocked {
        var f :| f in a.q.inbox[..Leading(a.q.inbox)] && f.id == e.id;
        var j :| 0 <= j < |a.q.inbox| && a.q.inbox[j] == f;
        Apart(a.q, i, j);
      }
    } else {
      WithoutKeepsEntry(a.q.draining, s.id, e);
    }
    assert e in b.q.draining && e.id !in b.turn.given;
  }

  lemma {:induction false} WithoutKeepsEntry(es: seq<Entry>, id: nat, e: Entry)
    requires e in es && e.id != id
    ensures e in Without(es, id)
  {
    if es[0].id != id && es[0] != e { WithoutKeepsEntry(es[1..], id, e); }
  }

  lemma StepKeepsStranded(a: Actor, s: Step)
    requires Inv(a) && Enabled(a, s) && !Clears(a, s) && Stranded(a)
    ensures Stranded(Apply(a, s))
  {
    if s.DrainStep? || s.FoldStep? {
      TurnKeepsStranded(a, s);
    } else {
      StepDraining(a, s);
      var e :| e in a.q.draining && e.id !in a.turn.given;
      assert e in Apply(a, s).q.draining && e.id !in Apply(a, s).turn.given;
    }
  }

  lemma StrandsStrands(a: Actor, s: Step)
    requires Strands(a, s)
    ensures Stranded(Apply(a, s)) && !Clears(a, s)
  {
    HandBackDraining(a, s.t, s.boundaryOk, s.startOk);
    assert a.q.draining[0] in Apply(a, s).q.draining;
  }

  /** Step j stranded something and nothing cleared it before step k. */
  ghost predicate StrandedSince(states: seq<Actor>, steps: seq<Step>, j: nat, k: nat)
    requires |states| == |steps| + 1 && k <= |steps|
  {
    j < k && Strands(states[j], steps[j]) && forall m :: j < m < k ==> !Clears(states[m], steps[m])
  }

  lemma RunInv(states: seq<Actor>, steps: seq<Step>, k: nat)
    requires Run(states, steps) && k < |steps|
    ensures states[k].exit.Open? && Inv(states[k]) && Phase(states[k])
  {
    RunKeeps(states, steps, k);
  }

  lemma RunKeepsStranded(states: seq<Actor>, steps: seq<Step>, k: nat)
    requires Run(states, steps) && k < |steps| && Stranded(states[k]) && !Clears(states[k], steps[k])
    ensures Stranded(states[k + 1])
  {
    RunInv(states, steps, k);
    StepKeepsStranded(states[k], steps[k]);
  }

  lemma {:induction false} StrandedStays(states: seq<Actor>, steps: seq<Step>, j: nat, k: nat)
    requires Run(states, steps) && k < |states| && StrandedSince(states, steps, j, k)
    ensures Stranded(states[k])
  {
    if k == j + 1 {
      StrandsStrands(states[j], steps[j]);
    } else {
      StrandedStays(states, steps, j, k - 1);
      RunKeepsStranded(states, steps, k - 1);
    }
  }

  /** Only its terminal ends a turn of an actor that goes on. */
  lemma StepEnds(a: Actor, s: Step)
    requires Phase(a) && Enabled(a, s) && a.turn.live && !Apply(a, s).turn.live && Apply(a, s).exit.Open?
    ensures s.HandBackStep?
  {
  }

  /** With no turn before or after, what drains after drained before. */
  lemma StepWithoutTurn(a: Actor, s: Step)
    requires Phase(a) && Enabled(a, s) && Apply(a, s).exit.Open? && !Apply(a, s).turn.live &&
      Apply(a, s).q.draining != []
    ensures !Clears(a, s) && a.q.draining != [] && (a.turn.live ==> Strands(a, s))
  {
    if a.turn.live { StepEnds(a, s); }
    StepDraining(a, s);
  }

  lemma RunWithoutTurn(states: seq<Actor>, steps: seq<Step>, k: nat)
    requires Run(states, steps) && k < |steps|
    requires states[k + 1].exit.Open? && !states[k + 1].turn.live && states[k + 1].q.draining != []
    ensures states[k].exit.Open? && states[k].q.draining != []
    ensures !Clears(states[k], steps[k]) && (states[k].turn.live ==> Strands(states[k], steps[k]))
  {
    RunInv(states, steps, k);
    StepWithoutTurn(states[k], steps[k]);
  }

  lemma {:induction false} StrandedFrom(states: seq<Actor>, steps: seq<Step>, k: nat) returns (j: nat)
    requires Run(states, steps) && k < |states| && states[k].exit.Open? && !states[k].turn.live &&
      states[k].q.draining != []
    ensures StrandedSince(states, steps, j, k)
  {
    assert k > 0;
    RunWithoutTurn(states, steps, k - 1);
    if states[k - 1].turn.live {
      j := k - 1;
    } else {
      j := StrandedFrom(states, steps, k - 1);
    }
  }

  /** "Draining is empty when no turn runs" fails in a reachable state exactly when some turn that ended
      normally, or was cancelled by its own request, left entries it had not folded, and no interrupt,
      failed turn, failed admission or end of the loop has cleared them since. */
  lemma DrainingWithoutATurn(states: seq<Actor>, steps: seq<Step>, k: nat)
    requires Run(states, steps) && k < |states| && states[k].exit.Open? && !states[k].turn.live
    ensures states[k].q.draining != [] <==> exists j :: StrandedSince(states, steps, j, k)
  {
    if states[k].q.draining != [] {
      var j := StrandedFrom(states, steps, k);
    }
    if j :| StrandedSince(states, steps, j, k) {
      StrandedStays(states, steps, j, k);
    }
  }

  function Queued(id: nat, ticket: nat, reject: bool): Entry { Entry(id, ticket, true, false, false, reject) }

  function Entering(a: Actor, id: nat): Actor { Submit(a, Queued(id, 0, false), false, false, false, true, true) }

  /** The first input's turn runs and the second is queued. */
  ghost predicate SecondQueued(a: Actor) {
    && a.status.Running? && a.exit.Open? && a.turn == Turn(true, {}, 1, true, false) &&
      a.env == Env(false, false, false)
    && a.q.inbox == [Queued(2, 1, false)] && a.q.draining == []
  }

  lemma TwoSubmits()
    ensures SecondQueued(Entering(Entering(Init(false), 1), 2))
  {
    var s1 := Entering(Init(false), 1);
    assert s1.status.Running? && s1.q.inbox == [] && s1.turn == Turn(true, {}, 1, true, false);
  }

  /** From there a drain, a cancellation of the running request and the turn's end leave the loop
      idle, with the second input draining and no turn to fold it. */
  lemma TargetedCancelStrands(a: Actor)
    requires SecondQueued(a)
    ensures
      var cancelled := CancelDelegate(Drain(a), 1);
      var ended := HandBack(cancelled, Interrupted, true, true);
      && Enabled(a, DrainStep) && Enabled(cancelled, HandBackStep(Interrupted, true, true))
      && ended.status.Idle? && !ended.turn.live && ended.q.inbox == [] && Names(ended.q.draining) == [2]
  {
    assert Leading(a.q.inbox) == 1;
    var drained := Drain(a);
    assert drained.q.draining == [Queued(2, 1, false)] && drained.q.inbox == [];
    assert Names(drained.q.inbox) == [];
  }

  // ---------------------------------------------------------------- an actor that leaves while a turn runs

  lemma LeavesByAdmission(a: Actor, ok: bool, minted: bool, startOk: bool)
    requires Phase(a) && a.exit.Open? && Admission(a, ok, minted, startOk).exit.Left?
    ensures a.status.ShuttingDown? && Admission(a, ok, minted, startOk).turn.live
  {
  }

  lemma LeavesByTurn(a: Actor, t: Terminal, boundaryOk: bool, startOk: bool)
    requires Phase(a) && a.exit.Open? && HandBack(a, t, boundaryOk, startOk).exit.Left?
    ensures !HandBack(a, t, boundaryOk, startOk).turn.live
  {
  }

  lemma LeavesByShutdown(a: Actor)
    requires Phase(a) && a.exit.Open? && Shutdown(a).exit.Left?
    ensures !Shutdown(a).turn.live
  {
  }

  lemma StepLeaves(a: Actor, s: Step)
    requires Phase(a) && Enabled(a, s) && Apply(a, s).exit.Left?
    ensures Apply(a, s).turn.live <==>
      (s.AdmissionStep? && a.status.ShuttingDown?) || (s.CancelledStep? && a.turn.live)
  {
    match s
    case AdmissionStep(ok, minted, startOk) => LeavesByAdmission(a, ok, minted, startOk);
    case HandBackStep(t, boundaryOk, startOk) => LeavesByTurn(a, t, boundaryOk, startOk);
    case ShutdownStep => LeavesByShutdown(a);
    case CancelledStep =>
    case _ => DoorsStay(a, s);
  }

  /** "A shutdown waits for the turn" fails in exactly one way: an admission result arrives while the loop
      is shutting down. Apart from that only the end of the loop's own context leaves a turn behind. */
  lemma LeavesWithTurnIff(states: seq<Actor>, steps: seq<Step>, k: nat)
    requires Run(states, steps) && k < |steps| && states[k + 1].exit.Left?
    ensures states[k + 1].turn.live <==>
      || (steps[k].AdmissionStep? && states[k].status.ShuttingDown?)
      || (steps[k].CancelledStep? && states[k].turn.live)
  {
    RunInv(states, steps, k);
    StepLeaves(states[k], steps[k]);
  }

  function Arriving(id: nat): Step { SubmitStep(Queued(id, 0, false), false, false, false, true, true) }

  const ADMITTED: Step := AdmissionStep(true, true, true)

  /** A gated loop waits to start the input of that id, which came at that place. */
  ghost predicate WaitsFor(a: Actor, id: nat, ticket: nat) {
    && a.status.Waiting? && a.cancelAdmission && a.exit.Open? && !a.turn.live && a.env == Env(true, false, false)
    && a.q.inbox == [Queued(id, ticket, true)] && a.q.draining == [] && (forall n :: n in a.q.seen ==> n <= id)
  }

  ghost predicate Resting(a: Actor, last: nat, ticket: nat) {
    && a.status.Idle? && a.exit.Open? && !a.turn.live && a.env == Env(true, false, false)
    && a.q.inbox == [] && a.q.draining == [] && a.q.nextTicket == ticket && (forall n :: n in a.q.seen ==> n <= last)
  }

  lemma SubmitWaits(a: Actor, last: nat, ticket: nat)
    requires Resting(a, last, ticket)
    ensures Enabled(a, Arriving(last + 1)) && WaitsFor(Apply(a, Arriving(last + 1)), last + 1, ticket)
    ensures Apply(a, Arriving(last + 1)).q.nextTicket == ticket + 1
  {
  }

  lemma RetractRests(a: Actor, id: nat, ticket: nat)
    requires WaitsFor(a, id, ticket)
    ensures Resting(Apply(a, CancelQueuedStep(id)), id, a.q.nextTicket)
  {
    assert Names(a.q.inbox) == [id];
  }

  lemma RunGrows(states: seq<Actor>, steps: seq<Step>, s: Step)
    requires Run(states, steps) && Enabled(states[|steps|], s)
    ensures Run(states + [Apply(states[|steps|], s)], steps + [s])
  {
    hide Apply, Enabled;
  }

  /** Submit 1, retract it, submit 2. */
  lemma SecondWaits() returns (states: seq<Actor>)
    ensures |states| == 4 && states[0] == Init(true) && Run(states, [Arriving(1), CancelQueuedStep(1), Arriving(2)])
    ensures WaitsFor(states[1], 1, 0) && Resting(states[2], 1, 1) && WaitsFor(states[3], 2, 1)
  {
    var s0 := Init(true);
    SubmitWaits(s0, 0, 0);
    var s1 := Apply(s0, Arriving(1));
    RetractRests(s1, 1, 0);
    var s2 := Apply(s1, CancelQueuedStep(1));
    SubmitWaits(s2, 1, 1);
    var s3 := Apply(s2, Arriving(2));
    states := [s0, s1, s2, s3];
    RunGrows([s0], [], Arriving(1));
    RunGrows([s0, s1], [Arriving(1)], CancelQueuedStep(1));
    RunGrows([s0, s1, s2], [Arriving(1), CancelQueuedStep(1)], Arriving(2));
  }

  /** The admission starts the turn, a shutdown waits for it, and a second result ends the actor. */
  lemma SecondResultLeaves(s3: Actor, id: nat, ticket: nat)
    requires WaitsFor(s3, id, ticket)
    ensures
      var s4 := Apply(s3, ADMITTED);
      var s5 := Apply(s4, ShutdownStep);
      var s6 := Apply(s5, ADMITTED);
      && s4.status.Running? && s4.turn.live && s4.turn.causation == id && s4.exit.Open?
      && s5.status.ShuttingDown? && s5.exit.Open? && s6.exit.Left? && s6.turn.live
  {
  }

  lemma ThreeMore(states: seq<Actor>, steps: seq<Step>)
    requires Run(states, steps) && WaitsFor(states[|steps|], 2, 1)
    ensures
      var s4 := Apply(states[|steps|], ADMITTED);
      var s5 := Apply(s4, ShutdownStep);
      && Run(states + [s4] + [s5] + [Apply(s5, ADMITTED)], steps + [ADMITTED] + [ShutdownStep] + [ADMITTED])
  {
    var s3 := states[|steps|];
    var s4 := Apply(s3, ADMITTED);
    var s5 := Apply(s4, ShutdownStep);
    SecondResultLeaves(s3, 2, 1);
    RunGrows(states, steps, ADMITTED);
    RunGrows(states + [s4], steps + [ADMITTED], ShutdownStep);
    RunGrows(states + [s4] + [s5], steps + [ADMITTED] + [ShutdownStep], ADMITTED);
  }

  /** The input that shows it, on a gated loop: submit 1, retract it, submit 2, an admission result, a
      shutdown, and the result of the other request. */
  lemma LeavesWithTurn() returns (states: seq<Actor>, steps: seq<Step>)
    ensures Run(states, steps) && |steps| == 6
    ensures steps == [Arriving(1), CancelQueuedStep(1), Arriving(2), ADMITTED, ShutdownStep, ADMITTED]
    ensures states[5].status.ShuttingDown? && states[6].exit.Left? && states[6].turn.live
  {
    var first := SecondWaits();
    steps := [Arriving(1), CancelQueuedStep(1), Arriving(2)];
    ThreeMore(first, steps);
    SecondResultLeaves(first[3], 2, 1);
    var s4 := Apply(first[3], ADMITTED);
    var s5 := Apply(s4, ShutdownStep);
    states := first + [s4] + [s5] + [Apply(s5, ADMITTED)];
    steps := steps + [ADMITTED] + [ShutdownStep] + [ADMITTED];
  }
}
