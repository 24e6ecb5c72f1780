/** The loop actor as it runs: one object whose closures update the queues and the turn in place
    (internal/loopruntime/loop.go). Every method is the arm or closure of that name, and its
    postcondition gives the new state as the function of the old one that AcceptedInput reasons about.
    Outcomes of foreign calls (an append, an id, a hook, a commit) are parameters. */
module LoopActor {
  import opened AcceptedInput

  class Loop {
    var inbox: seq<Entry>
    var draining: seq<Entry>
    var answers: seq<Answer>
    var carried: seq<Entry>
    var seen: set<nat>
    var nextTicket: nat
    var status: Status
    var cancelAdmission: bool
    var turn: Turn
    var env: Env
    var exit: Exit

    ghost function Queued(): Queues
      reads this
    {
      Queues(inbox, draining, answers, carried, seen, nextTicket)
    }

    ghost function State(): Actor
      reads this
    {
      Actor(Queued(), status, cancelAdmission, turn, env, exit)
    }

    constructor (gated: bool)
      ensures State() == Init(gated)
    {
      inbox, draining, answers, carried, seen, nextTicket := [], [], [], [], {}, 0;
      status, cancelAdmission, turn, env, exit := Idle, false, NO_TURN, Env(gated, false, false), Open;
    }

    method ReturnEntry(e: Entry)
      modifies this`answers
      ensures answers == old(answers) + [Answer(e.id, Returned)]
    {
      answers := answers + [Answer(e.id, Returned)];
    }

    /** One sweep of `returnQueuedInbox` over one of the two queues. */
    method Sweep(entries: seq<Entry>, exiting: bool)
      modifies this`answers, this`carried
      ensures carried == old(carried) + LetGo(entries, exiting)
      ensures answers == old(answers) + Replies(Returning(entries, exiting), Returned)
    {
      var i := 0;
      while i < |entries|
        invariant i <= |entries|
        invariant carried == old(carried) + LetGo(entries[..i], exiting)
        invariant answers == old(answers) + Replies(Returning(entries[..i], exiting), Returned)
      {
        SweepOne(entries, i, exiting);
        RepliesAdd(Returning(entries[..i], exiting), entries[i]);
        if exiting && entries[i].carryOver {
          carried := carried + [entries[i]];
        } else {
          ReturnEntry(entries[i]);
        }
        i := i + 1;
      }
      assert entries[..i] == entries;
    }

    method ReturnQueuedInbox()
      modifies this`answers, this`carried, this`draining, this`inbox
      ensures State() == Return(old(State()))
    {
      var exiting := status == ShuttingDown || env.killed;
      SweepBoth(draining, inbox, exiting);
      AddBoth(answers, Replies(Returning(draining, exiting), Returned), Replies(Returning(inbox, exiting), Returned));
      AddBoth(carried, LetGo(draining, exiting), LetGo(inbox, exiting));
      Sweep(draining, exiting);
      draining := [];
      Sweep(inbox, exiting);
      inbox := [];
    }

    /** `partition` of `retainUserQueuedInbox`. */
    method Partition(entries: seq<Entry>, kept: seq<Entry>) returns (retained: seq<Entry>)
      modifies this`answers
      ensures retained == kept + Filter(entries, Users, true)
      ensures answers == old(answers) + Replies(Filter(entries, Users, false), Returned)
    {
      retained := kept;
      var i := 0;
      while i < |entries|
        invariant i <= |entries|
        invariant retained == kept + Filter(entries[..i], Users, true)
        invariant answers == old(answers) + Replies(Filter(entries[..i], Users, false), Returned)
      {
        assert entries[..i + 1][..i] == entries[..i];
        RepliesAdd(Filter(entries[..i], Users, false), entries[i]);
        if entries[i].user {
          retained := retained + [entries[i]];
        } else {
          ReturnEntry(entries[i]);
        }
        i := i + 1;
      }
      assert entries[..i] == entries;
    }

    method RetainUserQueuedInbox()
      modifies this`answers, this`draining, this`inbox
      ensures State() == old(State()).(q := RetainUsers(old(Queued())))
    {
      UsersBoth(draining, inbox);
      ghost var before := answers;
      var retained := Partition(draining, []);
      retained := Partition(inbox, retained);
      AddBoth(before, Replies(Filter(draining, Users, false), Returned),
        Replies(Filter(inbox, Users, false), Returned));
      draining := [];
      inbox := retained;
    }

    method InstallActiveTurn(id: nat)
      modifies this`status, this`turn
      ensures status == Running && turn == old(turn).(live := true, given := {}, causation := id, cancel := true)
    {
      status := Running;
      turn := turn.(live := true, given := {}, causation := id, cancel := true);
    }

    /** A popped entry whose turn did not start. */
    method AnswerStartFailure(e: Entry)
      modifies this`answers
      ensures answers == old(answers) + [Answer(e.id, StartFailure(e))]
    {
      if e.rejectOnStartFailure {
        answers := answers + [Answer(e.id, Rejected)];
      } else {
        ReturnEntry(e);
      }
    }

    method RequestStartAdmission(startOk: bool) returns (requested: bool)
      modifies this
      ensures State() == RequestStart(old(State()), startOk)
      ensures requested == (old(inbox) != [] && !old(status).ShuttingDown? && !old(status).Waiting? && !env.blocked
                            && (env.gated || startOk))
    {
      if |inbox| == 0 || status == ShuttingDown || status == Waiting || env.blocked { return false; }
      if !env.gated {
        var next := inbox[0];
        inbox := inbox[1..];
        if !startOk {
          AnswerStartFailure(next);
          return false;
        }
        answers := answers + [Answer(next.id, Started)];
        InstallActiveTurn(next.id);
        return true;
      }
      status := Waiting;
      cancelAdmission := true;
      return true;
    }

    method Enqueue(e: Entry)
      modifies this`inbox, this`seen, this`nextTicket
      ensures Queued() == Accept(old(Queued()), e)
    {
      inbox := inbox + [e.(ticket := nextTicket)];
      seen := seen + {e.id};
      nextTicket := nextTicket + 1;
    }

    method Refuse(id: nat, kind: Kind)
      modifies this`seen, this`answers
      ensures Queued() == AtDoor(old(Queued()), id, kind)
    {
      seen := seen + {id};
      answers := answers + [Answer(id, kind)];
    }

    method DecideSubmit(e: Entry, bypass: bool, durable: bool, fault: bool, accepted: bool, startOk: bool)
      modifies this
      ensures State() == Submit(old(State()), e, bypass, durable, fault, accepted, startOk)
    {
      if fault {
        if bypass { Refuse(e.id, Returned); } else { Refuse(e.id, Rejected); }
        return;
      }
      if durable && !accepted {
        Refuse(e.id, Returned);
        return;
      }
      if status == ShuttingDown && !bypass {
        Refuse(e.id, Rejected);
      } else if |inbox| >= QUEUE_CAPACITY && !bypass {
        Refuse(e.id, Rejected);
      } else if status == Running || status == Waiting || env.blocked || (status == ShuttingDown && bypass) {
        Enqueue(e);
      } else {
        Enqueue(e.(rejectOnStartFailure := !bypass));
        var _ := RequestStartAdmission(startOk);
      }
    }

    method AdmitDelegate(e: Entry, fault: bool, minted: bool, accepted: bool, startOk: bool)
      modifies this
      ensures State() == Delegate(old(State()), e, fault, minted, accepted, startOk)
    {
      if fault { return; }
      if status == ShuttingDown || |inbox| >= QUEUE_CAPACITY {
        Refuse(e.id, Rejected);
      } else if status == Running || status == Waiting || env.blocked {
        if accepted { Enqueue(e); }
      } else if !minted {
        Refuse(e.id, Rejected);
      } else if accepted {
        Enqueue(e);
        var _ := RequestStartAdmission(startOk);
      }
    }

    method AdmitRuntimeInput(e: Entry, conflict: bool, fault: bool, commit: CommitResult, startOk: bool)
      returns (reply: bool)
      modifies this
      ensures State() == Runtime(old(State()), e, conflict, fault, commit, startOk)
      ensures reply <==> ReachesCommit(old(State()), conflict, fault) && !commit.CommitFailed?
    {
      if conflict || fault { return false; }
      if status == ShuttingDown || |inbox| >= QUEUE_CAPACITY { return false; }
      if commit == CommitFailed { return false; }
      if status == Running || status == Waiting || env.blocked {
        Enqueue(e.(carryOver := true));
      } else {
        Enqueue(e.(carryOver := true, rejectOnStartFailure := true));
        var _ := RequestStartAdmission(startOk);
      }
      return true;
    }

    /** The search both retractions share: the first queued entry of that id. */
    method FindQueued(entries: seq<Entry>, id: nat) returns (i: nat)
      ensures i <= |entries| && (i < |entries| <==> id in Names(entries))
      ensures i < |entries| ==> Without(entries, id) == entries[..i] + entries[i + 1..]
    {
      i := 0;
      while i < |entries| && entries[i].id != id
        invariant i <= |entries| && forall j :: 0 <= j < i ==> entries[j].id != id
      {
        i := i + 1;
      }
      if i < |entries| {
        assert Names(entries)[i] == id;
        WithoutFirst(entries, id, i);
      } else {
        assert forall j :: 0 <= j < |entries| ==> Names(entries)[j] != id;
      }
    }

    method GiveUpAdmission()
      modifies this`cancelAdmission, this`status
      ensures State() == IdleIfEmpty(old(State()))
    {
      if status == Waiting && |inbox| == 0 && cancelAdmission {
        cancelAdmission := false;
        status := Idle;
      }
    }

    method CancelQueuedInput(id: nat)
      modifies this
      ensures State() == CancelQueued(old(State()), id)
    {
      var i := FindQueued(inbox, id);
      if i < |inbox| {
        var e := inbox[i];
        inbox := inbox[..i] + inbox[i + 1..];
        answers := answers + [Answer(id, Returned)];
        GiveUpAdmission();
      }
    }

    method CancelDelegateRequest(id: nat)
      modifies this
      ensures State() == CancelDelegate(old(State()), id)
    {
      var i := FindQueued(inbox, id);
      if i < |inbox| {
        inbox := inbox[..i] + inbox[i + 1..];
        answers := answers + [Answer(id, Returned)];
        GiveUpAdmission();
      } else if status == Running && turn.causation == id && turn.cancel {
        turn := turn.(targeted := true, cancel := false);
      }
    }

    method HandleInterrupt()
      modifies this
      ensures State() == Interrupt(old(State()))
    {
      if turn.cancel {
        turn := turn.(cancel := false);
      } else if turn.targeted {
        turn := turn.(targeted := false);
      } else if status == Waiting && cancelAdmission {
        RetainUserQueuedInbox();
        GiveUpAdmission();
      } else if status == Idle && (|inbox| > 0 || |draining| > 0) {
        RetainUserQueuedInbox();
      }
    }

    method HandleShutdown() returns (left: bool)
      modifies this
      ensures State() == Shutdown(old(State()))
      ensures left <==> !old(status).ShuttingDown? && !old(status).Running?
    {
      if status == ShuttingDown { return false; }
      var wasRunning, wasWaiting := status == Running, status == Waiting;
      status := ShuttingDown;
      turn := turn.(cancel := false);
      if wasWaiting && cancelAdmission {
        cancelAdmission := false;
        ReturnQueuedInbox();
        exit := Left;
        return true;
      }
      if !wasRunning {
        ReturnQueuedInbox();
        exit := Left;
        return true;
      }
      return false;
    }

    /** The drain arm; the reply is the batch that moved. */
    method DrainInbox() returns (batch: seq<Entry>)
      modifies this
      ensures State() == Drain(old(State()))
      ensures draining == old(draining) + batch && batch + inbox == old(inbox)
      ensures (old(env).blocked ==> batch == []) && forall e :: e in batch ==> !e.noFold
    {
      if env.blocked { return []; }
      var foldable := 0;
      while foldable < |inbox| && !inbox[foldable].noFold
        invariant foldable <= |inbox| && forall i :: 0 <= i < foldable ==> !inbox[i].noFold
      {
        foldable := foldable + 1;
      }
      LeadingIs(inbox, foldable);
      batch := inbox[..foldable];
      draining := draining + batch;
      inbox := inbox[foldable..];
      turn := turn.(given := turn.given + set e | e in batch :: e.id);
    }

    /** The commit arm for a fold: a committed one leaves draining. */
    method CommitFold(id: nat, committed: bool)
      requires id in Names(draining)
      modifies this
      ensures State() == Fold(old(State()), id, committed)
    {
      if committed {
        var i := FindQueued(draining, id);
        draining := draining[..i] + draining[i + 1..];
        turn := turn.(given := turn.given - {id});
        answers := answers + [Answer(id, Folded)];
      }
    }

    method HandleAdmission(ok: bool, minted: bool, startOk: bool)
      modifies this
      ensures State() == Admission(old(State()), ok, minted, startOk)
    {
      cancelAdmission := false;
      if status == ShuttingDown {
        ReturnQueuedInbox();
        exit := Left;
        return;
      }
      if status != Waiting { return; }
      if !ok {
        status := Idle;
        ReturnQueuedInbox();
        return;
      }
      if |inbox| == 0 {
        status := Idle;
        return;
      }
      var next := inbox[0];
      inbox := inbox[1..];
      if !minted || !startOk {
        status := Idle;
        AnswerStartFailure(next);
        ReturnQueuedInbox();
        return;
      }
      answers := answers + [Answer(next.id, Started)];
      InstallActiveTurn(next.id);
    }

    method HandleTurnResult(t: Terminal, boundaryOk: bool, startOk: bool)
      modifies this
      ensures State() == HandBack(old(State()), t, boundaryOk, startOk)
    {
      var targeted, shuttingDown := turn.targeted, status == ShuttingDown;
      if !shuttingDown { status := Idle; }
      turn := NO_TURN;
      if shuttingDown {
        ReturnQueuedInbox();
        exit := Left;
        return;
      }
      if !boundaryOk {
        ReturnQueuedInbox();
      } else if targeted {
        var _ := RequestStartAdmission(startOk);
      } else if t == Interrupted {
        RetainUserQueuedInbox();
        var _ := RequestStartAdmission(startOk);
      } else if t == Done {
        var _ := RequestStartAdmission(startOk);
      } else {
        ReturnQueuedInbox();
      }
    }

    /** The arm of the loop context's end. */
    method HandleCancelled()
      requires env.killed
      modifies this
      ensures State() == Cancelled(old(State()))
    {
      cancelAdmission := false;
      turn := turn.(cancel := false);
      ReturnQueuedInbox();
      exit := Left;
    }

    /** The slot is cleared; four paths do so without running the closure `resumeQueuedAfterCompaction`. */
    method ReleaseSlot(resumes: bool, startOk: bool)
      modifies this
      ensures State() == Unblock(old(State()), resumes, startOk)
    {
      env := env.(blocked := false);
      if resumes && status == Idle {
        var _ := RequestStartAdmission(startOk);
      }
    }

    /** The start of a turn that was parked over a restart. */
    method StartParked(cause: nat)
      modifies this`status, this`turn
      ensures State() == ResumeParked(old(State()), cause)
    {
      if status == Idle { InstallActiveTurn(cause); }
    }

    /** What the object promises between two arms. */
    ghost predicate Valid()
      reads this
    {
      Inv(State())
    }

    /** One turn of the actor's select, for the commands. */
    method ServeCommand(s: Step)
      requires Valid() && Enabled(State(), s) && IsCommand(s)
      modifies this
      ensures State() == Apply(old(State()), s)
    {
      match s
      case SubmitStep(e, bypass, durable, fault, accepted, startOk) =>
        DecideSubmit(e, bypass, durable, fault, accepted, startOk);
      case DelegateStep(e, fault, minted, accepted, startOk) => AdmitDelegate(e, fault, minted, accepted, startOk);
      case RuntimeStep(e, conflict, fault, commit, startOk) =>
        var _ := AdmitRuntimeInput(e, conflict, fault, commit, startOk);
      case CancelQueuedStep(id) => CancelQueuedInput(id);
      case CancelDelegateStep(id) => CancelDelegateRequest(id);
      case InterruptStep => HandleInterrupt();
      case ShutdownStep => var _ := HandleShutdown();
    }

    /** One turn of the actor's select, for everything else. */
    method ServeEvent(s: Step)
      requires Valid() && Enabled(State(), s) && !IsCommand(s)
      modifies this
      ensures State() == Apply(old(State()), s)
    {
      match s
      case KillStep => env := env.(killed := true);
      case CancelledStep => HandleCancelled();
      case ClosedStep => exit := Closed;
      case AdmissionStep(ok, minted, startOk) => HandleAdmission(ok, minted, startOk);
      case DrainStep => var _ := DrainInbox();
      case FoldStep(id, committed) => CommitFold(id, committed);
      case HandBackStep(t, boundaryOk, startOk) => HandleTurnResult(t, boundaryOk, startOk);
      case ResumeStep(cause) => StartParked(cause);
      case BlockStep => env := env.(blocked := true);
      case UnblockStep(resumes, startOk) => ReleaseSlot(resumes, startOk);
    }

    /** One turn of the select: whichever arm is ready, the object keeps its promise. */
    method Serve(s: Step)
      requires Valid() && Enabled(State(), s)
      modifies this
      ensures State() == Apply(old(State()), s) && Valid()
    {
      StepKeeps(State(), s);
      if IsCommand(s) { ServeCommand(s); } else { ServeEvent(s); }
    }

    /** The actor's loop over any schedule of arms that the environment allows: the object goes through
        exactly that run, every input it ever took is in exactly one place at the end, and an actor that
        left by itself has answered or carried over all of them. */
    method RunLoop(schedule: seq<Step>, ghost states: seq<Actor>)
      requires Run(states, schedule) && State() == states[0]
      modifies this
      ensures State() == states[|schedule|] && Valid()
      ensures forall id: nat :: Places(Queued(), id) == if id in seen then 1 else 0
      ensures exit.Left? ==> inbox == [] && draining == [] && AllCarryOver(carried)
    {
      RunKeeps(states, schedule, 0);
      var i := 0;
      while i < |schedule|
        invariant i <= |schedule| && State() == states[i] && Valid()
      {
        Serve(schedule[i]);
        i := i + 1;
      }
      forall id: nat ensures Places(Queued(), id) == if id in seen then 1 else 0 {
        ExactlyOnePlace(states, schedule, |schedule|, id);
      }
    }
  }

  /** The arms that read a command channel. */
  predicate IsCommand(s: Step) {
    s.SubmitStep? || s.DelegateStep? || s.RuntimeStep? || s.CancelQueuedStep? || s.CancelDelegateStep?
    || s.InterruptStep? || s.ShutdownStep?
  }

  lemma RepliesAdd(es: seq<Entry>, e: Entry)
    ensures Replies(es + [e], Returned) == Replies(es, Returned) + [Answer(e.id, Returned)]
  {
  }

  lemma SweepOne(es: seq<Entry>, i: nat, exiting: bool)
    requires i < |es|
    ensures LetGo(es[..i + 1], exiting) == LetGo(es[..i], exiting) + if exiting && es[i].carryOver then [es[i]] else []
    ensures Returning(es[..i + 1], exiting) ==
      Returning(es[..i], exiting) + if exiting && es[i].carryOver then [] else [es[i]]
  {
    assert es[..i + 1][..i] == es[..i];
  }

  lemma SweepBoth(es: seq<Entry>, fs: seq<Entry>, exiting: bool)
    ensures LetGo(es + fs, exiting) == LetGo(es, exiting) + LetGo(fs, exiting)
    ensures Replies(Returning(es + fs, exiting), Returned) ==
      Replies(Returning(es, exiting), Returned) + Replies(Returning(fs, exiting), Returned)
  {
    FilterConcat(es, fs, CarryOvers);
    RepliesConcat(Returning(es, exiting), Returning(fs, exiting));
  }

  lemma RepliesConcat(es: seq<Entry>, fs: seq<Entry>)
    ensures Replies(es + fs, Returned) == Replies(es, Returned) + Replies(fs, Returned)
  {
  }

  lemma AddBoth<T>(a: seq<T>, b: seq<T>, c: seq<T>)
    ensures a + b + c == a + (b + c)
  {
  }

  lemma UsersBoth(es: seq<Entry>, fs: seq<Entry>)
    ensures Filter(es + fs, Users, true) == [] + Filter(es, Users, true) + Filter(fs, Users, true)
    ensures Replies(Filter(es + fs, Users, false), Returned) ==
      Replies(Filter(es, Users, false), Returned) + Replies(Filter(fs, Users, false), Returned)
  {
    FilterConcat(es, fs, Users);
    RepliesConcat(Filter(es, Users, false), Filter(fs, Users, false));
  }

  lemma {:induction false} FilterConcat(es: seq<Entry>, fs: seq<Entry>, w: Which)
    ensures Filter(es + fs, w, true) == Filter(es, w, true) + Filter(fs, w, true)
    ensures Filter(es + fs, w, false) == Filter(es, w, false) + Filter(fs, w, false)
  {
    if fs == [] {
      assert es + fs == es;
    } else {
      var init := fs[..|fs| - 1];
      assert (es + fs)[..|es + fs| - 1] == es + init;
      FilterConcat(es, init, w);
    }
  }

  lemma {:induction false} WithoutFirst(es: seq<Entry>, id: nat, i: nat)
    requires i < |es| && es[i].id == id && forall j :: 0 <= j < i ==> es[j].id != id
    ensures Without(es, id) == es[..i] + es[i + 1..]
  {
    if i > 0 {
      WithoutFirst(es[1..], id, i - 1);
      assert es[..i] + es[i + 1..] == [es[0]] + (es[1..][..i - 1] + es[1..][i..]);
    }
  }

  lemma {:induction false} LeadingIs(es: seq<Entry>, n: nat)
    requires n <= |es| && (forall i :: 0 <= i < n ==> !es[i].noFold) && (n < |es| ==> es[n].noFold)
    ensures Leading(es) == n
  {
    if n > 0 { LeadingIs(es[1..], n - 1); }
  }
}
