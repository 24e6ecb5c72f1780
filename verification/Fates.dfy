/** What becomes of every queued input at every step of the loop actor (internal/loopruntime/loop.go).

    The table below gives the fate of an input by the guards of the arms: who is first in line, whether it
    may fold, whether a human sent it, whether a durable acceptance owns it. It names none of the queue
    operations the arms use, and the actor is proved to follow it in every run. */
module Fates {
  import opened AcceptedInput
  import LateAdmission

  // ---------------------------------------------------------------- the fates

  /** Queued in the inbox, draining, answered in this step, carried over, or never taken. */
  datatype Fate = Kept | Drained | Resolved(kind: Kind) | CarriedOver | NotTaken

  /** The step gave this answer. */
  predicate Told(before: seq<Answer>, after: seq<Answer>, r: Answer) { before <= after && r in after[|before|..] }

  predicate Meets(p: Queues, q: Queues, e: Entry, f: Fate) {
    match f
    case Kept => e in q.inbox
    case Drained => e in q.draining
    case Resolved(kind) => Told(p.answers, q.answers, Answer(e.id, kind))
    case CarriedOver => e in q.carried
    case NotTaken => e.id !in q.seen
  }

  /** What was queued or drained. */
  function InLine(q: Queues): seq<Entry> { q.draining + q.inbox }

  /** Nobody in that line came before it. */
  predicate First(e: Entry, es: seq<Entry>) { e in es && forall f :: f in es ==> e.ticket <= f.ticket }

  predicate FirstUser(e: Entry, es: seq<Entry>) {
    e in es && e.user && forall f :: f in es && f.user ==> e.ticket <= f.ticket
  }

  /** It may fold, and so may everybody before it. */
  predicate MayFold(e: Entry, es: seq<Entry>) { e in es && forall f :: f in es && f.ticket <= e.ticket ==> !f.noFold }

  // ---------------------------------------------------------------- the table

  function Same(a: Actor, e: Entry): Fate { if e in a.q.inbox then Kept else Drained }

  /** The loop asks for a start. Without a gate the first in line starts at once, or its start fails. */
  function Asked(first: bool, env: Env, startOk: bool, e: Entry, otherwise: Fate): Fate {
    if !first || env.gated || env.blocked then otherwise
    else if startOk then Resolved(Started)
    else if e.rejectOnStartFailure then Resolved(Rejected)
    else Resolved(Returned)
  }

  /** Everything is given back; a loop that is going away lets go of what is owned elsewhere. */
  function GivenBack(e: Entry, leaving: bool): Fate {
    if leaving && e.carryOver then CarriedOver else Resolved(Returned)
  }

  predicate Full(a: Actor) { |a.q.inbox| >= QUEUE_CAPACITY }

  /** The step brings an input that the loop takes. */
  predicate Takes(a: Actor, s: Step) {
    match s
    case SubmitStep(_, bypass, durable, fault, accepted, _) =>
      !fault && (durable ==> accepted) && (bypass || (!a.status.ShuttingDown? && !Full(a)))
    case DelegateStep(_, fault, minted, accepted, _) =>
      !fault && accepted && !a.status.ShuttingDown? && !Full(a) && (minted || !a.status.Idle? || a.env.blocked)
    case RuntimeStep(_, conflict, fault, commit, _) =>
      !conflict && !fault && !commit.CommitFailed? && !a.status.ShuttingDown? && !Full(a)
    case _ => false
  }

  /** An input already in line. */
  function FateOf(a: Actor, s: Step, e: Entry): Fate {
    match s
    case SubmitStep(_, _, _, _, _, startOk) =>
      Asked(Takes(a, s) && a.status.Idle? && First(e, a.q.inbox), a.env, startOk, e, Same(a, e))
    case DelegateStep(_, _, _, _, startOk) =>
      Asked(Takes(a, s) && a.status.Idle? && First(e, a.q.inbox), a.env, startOk, e, Same(a, e))
    case RuntimeStep(_, _, _, _, startOk) =>
      Asked(Takes(a, s) && a.status.Idle? && First(e, a.q.inbox), a.env, startOk, e, Same(a, e))
    case CancelQueuedStep(id) => if e.id == id && e in a.q.inbox then Resolved(Returned) else Same(a, e)
    case CancelDelegateStep(id) => if e.id == id && e in a.q.inbox then Resolved(Returned) else Same(a, e)
    case InterruptStep => if a.turn.live then Same(a, e) else if e.user then Kept else Resolved(Returned)
    case ShutdownStep => if a.turn.live then Same(a, e) else GivenBack(e, true)
    case CancelledStep => GivenBack(e, true)
    case AdmissionStep(ok, minted, startOk) =>
      if a.status.ShuttingDown? then GivenBack(e, true)
      else if !a.status.Waiting? then Same(a, e)
      else if !ok then GivenBack(e, a.env.killed)
      else if First(e, a.q.inbox) then
        if minted && startOk then Resolved(Started)
        else if e.rejectOnStartFailure then Resolved(Rejected)
        else Resolved(Returned)
      else if a.q.inbox == [] || (minted && startOk) then Same(a, e)
      else GivenBack(e, a.env.killed)
    case DrainStep => if !a.env.blocked && MayFold(e, a.q.inbox) then Drained else Same(a, e)
    case FoldStep(id, committed) => if committed && e.id == id then Resolved(Folded) else Same(a, e)
    case HandBackStep(t, boundaryOk, startOk) =>
      if a.status.ShuttingDown? then GivenBack(e, true)
      else if !boundaryOk then GivenBack(e, a.env.killed)
      else if a.turn.targeted || t.Done? then Asked(First(e, a.q.inbox), a.env, startOk, e, Same(a, e))
      else if t.Interrupted? then
        if e.user then Asked(FirstUser(e, InLine(a.q)), a.env, startOk, e, Kept) else Resolved(Returned)
      else GivenBack(e, a.env.killed)
    case UnblockStep(resumes, startOk) =>
      Asked(resumes && a.status.Idle? && First(e, a.q.inbox), a.env.(blocked := false), startOk, e, Same(a, e))
    case _ => Same(a, e)
  }

  // ---------------------------------------------------------------- about the queue functions

  lemma {:induction false} FilterHas(es: seq<Entry>, w: Which, want: bool, e: Entry)
    ensures e in Filter(es, w, want) <==> e in es && Chosen(e, w) == want
  {
    if es != [] {
      assert es == es[..|es| - 1] + [es[|es| - 1]];
      FilterHas(es[..|es| - 1], w, want, e);
    }
  }

  lemma RepliesHave(es: seq<Entry>, kind: Kind, e: Entry)
    requires e in es
    ensures Answer(e.id, kind) in Replies(es, kind)
  {
    var i :| 0 <= i < |es| && es[i] == e;
    assert Replies(es, kind)[i] == Answer(e.id, kind);
  }

  lemma ToldMore(before: seq<Answer>, middle: seq<Answer>, more: seq<Answer>, r: Answer)
    requires before <= middle && r in more
    ensures Told(before, middle + more, r)
  {
    assert (middle + more)[|before|..] == middle[|before|..] + more;
  }

  lemma StillTold(before: seq<Answer>, middle: seq<Answer>, more: seq<Answer>, r: Answer)
    requires Told(before, middle, r)
    ensures Told(before, middle + more, r)
  {
    assert (middle + more)[|before|..] == middle[|before|..] + more;
  }

  /** `returnQueuedInbox`. */
  lemma ReturnAllMeets(p: Queues, q: Queues, leaving: bool, e: Entry)
    requires p.answers <= q.answers && e in InLine(q)
    ensures Meets(p, ReturnAll(q, leaving), e, GivenBack(e, leaving))
  {
    FilterHas(InLine(q), CarryOvers, true, e);
    FilterHas(InLine(q), CarryOvers, false, e);
    if !(leaving && e.carryOver) {
      RepliesHave(Returning(InLine(q), leaving), Returned, e);
      ToldMore(p.answers, q.answers, Replies(Returning(InLine(q), leaving), Returned), Answer(e.id, Returned));
    }
  }

  /** `retainUserQueuedInbox`. */
  lemma RetainUsersMeets(q: Queues, e: Entry)
    requires e in InLine(q)
    ensures Meets(q, RetainUsers(q), e, if e.user then Kept else Resolved(Returned))
  {
    FilterHas(InLine(q), Users, true, e);
    FilterHas(InLine(q), Users, false, e);
    if !e.user {
      RepliesHave(Filter(InLine(q), Users, false), Returned, e);
      ToldMore(q.answers, q.answers, Replies(Filter(InLine(q), Users, false), Returned), Answer(e.id, Returned));
    }
  }

  predicate Increasing(es: seq<Entry>) { forall i, j :: 0 <= i < j < |es| ==> es[i].ticket < es[j].ticket }

  lemma FirstIs(es: seq<Entry>, e: Entry)
    requires Increasing(es)
    ensures First(e, es) <==> es != [] && e == es[0]
  {
    if First(e, es) {
      assert es[0] in es;
      var i :| 0 <= i < |es| && es[i] == e;
    }
  }

  lemma OwnedLine(q: Queues)
    requires Owned(q)
    ensures Increasing(InLine(q)) && Increasing(q.inbox) && Increasing(q.draining)
  {
    var all := InLine(q);
    assert forall i :: 0 <= i < |q.inbox| ==> q.inbox[i] == all[|q.draining| + i];
    assert forall i :: 0 <= i < |q.draining| ==> q.draining[i] == all[i];
  }

  lemma FirstUserIs(q: Queues, e: Entry)
    requires Owned(q)
    ensures
      var users := Filter(InLine(q), Users, true);
      FirstUser(e, InLine(q)) <==> users != [] && e == users[0]
  {
    var users := Filter(InLine(q), Users, true);
    FilterKeeps(InLine(q), Users, true, q.nextTicket);
    forall f ensures f in users <==> f in InLine(q) && f.user {
      FilterHas(InLine(q), Users, true, f);
    }
    FirstIs(users, e);
    assert FirstUser(e, InLine(q)) <==> First(e, users);
  }

  lemma MayFoldIs(es: seq<Entry>, e: Entry)
    requires Increasing(es)
    ensures MayFold(e, es) <==> e in es[..Leading(es)]
  {
    var n := Leading(es);
    if MayFold(e, es) {
      var i :| 0 <= i < |es| && es[i] == e;
      assert n < |es| ==> es[n] in es;
      assert es[..n][i] == e;
    }
    if e in es[..n] {
      var i :| 0 <= i < n && es[i] == e;
      forall f | f in es && f.ticket <= e.ticket ensures !f.noFold {
        var j :| 0 <= j < |es| && es[j] == f;
      }
    }
  }

  /** No two in line share a name. */
  lemma NamesApart(q: Queues, e: Entry, f: Entry)
    requires Owned(q) && e in InLine(q) && f in InLine(q) && e.id == f.id
    ensures e == f
  {
    var all := InLine(q);
    var i :| 0 <= i < |all| && all[i] == e;
    var j :| 0 <= j < |all| && all[j] == f;
    if i != j {
      TwiceCounts(Names(all), if i < j then i else j, if i < j then j else i);
      var places := multiset(Names(all)) + multiset(Answered(q.answers)) + multiset(Names(q.carried));
      OneOfEach(q.seen, places, e.id);
    }
  }

  lemma {:induction false} WithoutHas(es: seq<Entry>, id: nat, e: Entry)
    requires e in es && e.id != id
    ensures e in Without(es, id)
  {
    if es[0].id != id && es[0] != e { WithoutHas(es[1..], id, e); }
  }

  /** `requestStartAdmission`. */
  lemma RequestMeets(p: Queues, a: Actor, startOk: bool, e: Entry)
    requires p.answers <= a.q.answers && e in a.q.inbox && Increasing(a.q.inbox)
    requires !a.status.ShuttingDown? && !a.status.Waiting?
    ensures Meets(p, RequestStart(a, startOk).q, e, Asked(First(e, a.q.inbox), a.env, startOk, e, Kept))
  {
    FirstIs(a.q.inbox, e);
    var kind := if startOk then Started else StartFailure(a.q.inbox[0]);
    ToldMore(p.answers, a.q.answers, [Answer(a.q.inbox[0].id, kind)], Answer(a.q.inbox[0].id, kind));
  }

  lemma RequestKeeps(p: Queues, a: Actor, startOk: bool, e: Entry, f: Fate)
    requires Meets(p, a.q, e, f) && !f.Kept?
    ensures Meets(p, RequestStart(a, startOk).q, e, f)
  {
    if f.Resolved? && a.q.inbox != [] {
      var kind := if startOk then Started else StartFailure(a.q.inbox[0]);
      StillTold(p.answers, a.q.answers, [Answer(a.q.inbox[0].id, kind)], Answer(e.id, f.kind));
    }
  }

  // ---------------------------------------------------------------- the arms follow the table

  /** The input a door lets in, as it is queued. */
  function Arrival(a: Actor, s: Step): Entry
    requires s.SubmitStep? || s.DelegateStep? || s.RuntimeStep?
  {
    var idle := a.status.Idle? && !a.env.blocked;
    match s
    case SubmitStep(e, bypass, _, _, _, _) =>
      e.(ticket := a.q.nextTicket, rejectOnStartFailure := if idle then !bypass else e.rejectOnStartFailure)
    case DelegateStep(e, _, _, _, _) => e.(ticket := a.q.nextTicket)
    case RuntimeStep(e, _, _, _, _) =>
      e.(ticket := a.q.nextTicket, carryOver := true, rejectOnStartFailure := idle || e.rejectOnStartFailure)
  }

  predicate IsDoor(s: Step) { s.SubmitStep? || s.DelegateStep? || s.RuntimeStep? }

  /** What a door does, whichever it is. */
  lemma DoorIs(a: Actor, s: Step)
    requires IsDoor(s) && Phase(a) && a.exit.Open?
    ensures
      var b, c := Apply(a, s), a.(q := Accept(a.q, Arrival(a, s)));
      if !Takes(a, s) then b.q.inbox == a.q.inbox && b.q.draining == a.q.draining && b == a.(q := b.q)
      else if a.status.Idle? && !a.env.blocked then b == RequestStart(c, s.startOk)
      else b == c
  {
    match s
    case SubmitStep(e, bypass, durable, fault, accepted, startOk) =>
    case DelegateStep(e, fault, minted, accepted, startOk) =>
    case RuntimeStep(e, conflict, fault, commit, startOk) =>
  }

  lemma Arrives(q: Queues, x: Entry)
    requires Owned(q) && x.ticket == q.nextTicket
    ensures Increasing(Accept(q, x).inbox) && Accept(q, x).inbox == q.inbox + [x]
    ensures forall e :: e in q.inbox ==> (First(e, q.inbox + [x]) <==> First(e, q.inbox))
    ensures First(x, q.inbox + [x]) <==> q.inbox == []
  {
    OwnedLine(q);
    var all := InLine(q);
    assert forall i :: 0 <= i < |q.inbox| ==> q.inbox[i] == all[|q.draining| + i];
    forall e ensures First(e, q.inbox) <==> q.inbox != [] && e == q.inbox[0] { FirstIs(q.inbox, e); }
    forall e ensures First(e, q.inbox + [x]) <==> e == (q.inbox + [x])[0] { FirstIs(q.inbox + [x], e); }
  }

  lemma DoorMeets(a: Actor, s: Step, e: Entry)
    requires Owned(a.q) && Phase(a) && a.exit.Open? && IsDoor(s) && e in InLine(a.q)
    ensures Meets(a.q, Apply(a, s).q, e, FateOf(a, s, e))
  {
    DoorIs(a, s);
    Arrives(a.q, Arrival(a, s));
    var c := a.(q := Accept(a.q, Arrival(a, s)));
    if Takes(a, s) && a.status.Idle? && !a.env.blocked {
      if e in a.q.inbox { RequestMeets(a.q, c, s.startOk, e); } else { RequestKeeps(a.q, c, s.startOk, e, Drained); }
    }
  }

  lemma RetractMeets(a: Actor, id: nat, e: Entry)
    requires Owned(a.q) && Phase(a) && a.exit.Open? && e in InLine(a.q)
    ensures Meets(a.q, CancelQueued(a, id).q, e, FateOf(a, CancelQueuedStep(id), e))
    ensures Meets(a.q, CancelDelegate(a, id).q, e, FateOf(a, CancelDelegateStep(id), e))
  {
    if id in Names(a.q.inbox) {
      var i :| 0 <= i < |a.q.inbox| && Names(a.q.inbox)[i] == id;
      if e.id == id {
        NamesApart(a.q, e, a.q.inbox[i]);
        ToldMore(a.q.answers, a.q.answers, [Answer(id, Returned)], Answer(id, Returned));
      } else if e in a.q.inbox {
        WithoutHas(a.q.inbox, id, e);
      }
    } else if e in a.q.inbox {
      var i :| 0 <= i < |a.q.inbox| && a.q.inbox[i] == e;
      assert Names(a.q.inbox)[i] == e.id;
    }
  }

  lemma InterruptMeets(a: Actor, e: Entry)
    requires Owned(a.q) && Phase(a) && a.exit.Open? && e in InLine(a.q)
    ensures Meets(a.q, Interrupt(a).q, e, FateOf(a, InterruptStep, e))
  {
    RetainUsersMeets(a.q, e);
  }

  lemma EndMeets(a: Actor, e: Entry)
    requires Phase(a) && a.exit.Open? && e in InLine(a.q)
    ensures Meets(a.q, Shutdown(a).q, e, FateOf(a, ShutdownStep, e))
    ensures Meets(a.q, Cancelled(a).q, e, FateOf(a, CancelledStep, e))
  {
    ReturnAllMeets(a.q, a.q, true, e);
  }

  lemma FailedFrontMeets(a: Actor, e: Entry)
    requires Owned(a.q) && e in InLine(a.q) && a.q.inbox != []
    ensures
      var q := Pop(a.q, StartFailure(a.q.inbox[0]));
      Meets(a.q, ReturnAll(q, a.env.killed), e,
            if e != a.q.inbox[0] then GivenBack(e, a.env.killed)
            else if e.rejectOnStartFailure then Resolved(Rejected) else Resolved(Returned))
  {
    var front := a.q.inbox[0];
    var q := Pop(a.q, StartFailure(front));
    if e == front {
      ToldMore(a.q.answers, a.q.answers, [Answer(front.id, StartFailure(front))],
        Answer(front.id, StartFailure(front)));
      StillTold(a.q.answers, q.answers, Replies(Returning(InLine(q), a.env.killed), Returned),
                Answer(front.id, StartFailure(front)));
    } else {
      assert a.q.inbox == [front] + q.inbox;
      ReturnAllMeets(a.q, q, a.env.killed, e);
    }
  }

  lemma StartedFrontMeets(a: Actor, e: Entry)
    requires Owned(a.q) && e in InLine(a.q) && a.q.inbox != []
    ensures Meets(a.q, Pop(a.q, Started), e, if e == a.q.inbox[0] then Resolved(Started) else Same(a, e))
  {
    var r := Answer(a.q.inbox[0].id, Started);
    ToldMore(a.q.answers, a.q.answers, [r], r);
    assert a.q.inbox == [a.q.inbox[0]] + a.q.inbox[1..];
  }

  lemma AdmissionMeets(a: Actor, ok: bool, minted: bool, startOk: bool, e: Entry)
    requires Owned(a.q) && Phase(a) && a.exit.Open? && e in InLine(a.q)
    ensures Meets(a.q, Admission(a, ok, minted, startOk).q, e, FateOf(a, AdmissionStep(ok, minted, startOk), e))
  {
    hide Meets, First, GivenBack;
    if a.status.ShuttingDown? {
      ReturnAllMeets(a.q, a.q, true, e);
    } else if !a.status.Waiting? {
      SameMeets(a, e);
    } else if !ok {
      ReturnAllMeets(a.q, a.q, a.env.killed, e);
    } else {
      OwnedLine(a.q);
      FirstIs(a.q.inbox, e);
      if a.q.inbox == [] {
        SameMeets(a, e);
      } else if minted && startOk {
        StartedFrontMeets(a, e);
      } else {
        FailedFrontMeets(a, e);
      }
    }
  }

  lemma SameMeets(a: Actor, e: Entry)
    requires e in InLine(a.q)
    ensures Meets(a.q, a.q, e, Same(a, e))
  {
  }

  lemma DrainMeets(a: Actor, e: Entry)
    requires Owned(a.q) && e in InLine(a.q)
    ensures Meets(a.q, Drain(a).q, e, FateOf(a, DrainStep, e))
  {
    OwnedLine(a.q);
    MayFoldIs(a.q.inbox, e);
    assert a.q.inbox == a.q.inbox[..Leading(a.q.inbox)] + a.q.inbox[Leading(a.q.inbox)..];
  }

  lemma FoldMeets(a: Actor, id: nat, committed: bool, e: Entry)
    requires Owned(a.q) && Foldable(a) && id in a.turn.given && e in InLine(a.q)
    ensures Meets(a.q, Fold(a, id, committed).q, e, FateOf(a, FoldStep(id, committed), e))
  {
    if committed && e.id == id {
      ToldMore(a.q.answers, a.q.answers, [Answer(id, Folded)], Answer(id, Folded));
    } else if committed && e !in a.q.inbox {
      WithoutHas(a.q.draining, id, e);
    }
  }

  lemma ContinueMeets(a: Actor, startOk: bool, e: Entry)
    requires Owned(a.q) && e in InLine(a.q) && !a.status.ShuttingDown? && !a.status.Waiting?
    ensures Meets(a.q, RequestStart(a, startOk).q, e, Asked(First(e, a.q.inbox), a.env, startOk, e, Same(a, e)))
  {
    OwnedLine(a.q);
    if e in a.q.inbox { RequestMeets(a.q, a, startOk, e); } else { RequestKeeps(a.q, a, startOk, e, Drained); }
  }

  lemma RetainedMeets(a: Actor, startOk: bool, e: Entry)
    requires Owned(a.q) && e in InLine(a.q) && !a.status.ShuttingDown? && !a.status.Waiting?
    ensures
      Meets(a.q, RequestStart(a.(q := RetainUsers(a.q)), startOk).q, e,
            if e.user then Asked(FirstUser(e, InLine(a.q)), a.env, startOk, e, Kept) else Resolved(Returned))
  {
    var c := a.(q := RetainUsers(a.q));
    RetainUsersMeets(a.q, e);
    if e.user {
      FilterKeeps(InLine(a.q), Users, true, a.q.nextTicket);
      FirstUserIs(a.q, e);
      FirstIs(c.q.inbox, e);
      RequestMeets(a.q, c, startOk, e);
    } else {
      RequestKeeps(a.q, c, startOk, e, Resolved(Returned));
    }
  }

  lemma HandBackMeets(a: Actor, t: Terminal, boundaryOk: bool, startOk: bool, e: Entry)
    requires Owned(a.q) && Phase(a) && a.exit.Open? && a.turn.live && e in InLine(a.q)
    ensures Meets(a.q, HandBack(a, t, boundaryOk, startOk).q, e, FateOf(a, HandBackStep(t, boundaryOk, startOk), e))
  {
    hide Meets, First, FirstUser, GivenBack, Asked;
    var c := a.(turn := NO_TURN, status := Idle);
    if a.status.ShuttingDown? {
      ReturnAllMeets(a.q, a.q, true, e);
    } else if boundaryOk && (a.turn.targeted || t.Done?) {
      ContinueMeets(c, startOk, e);
    } else if boundaryOk && t.Interrupted? {
      RetainedMeets(c, startOk, e);
    } else {
      ReturnAllMeets(a.q, a.q, a.env.killed, e);
    }
  }

  lemma UnblockMeets(a: Actor, resumes: bool, startOk: bool, e: Entry)
    requires Owned(a.q) && e in InLine(a.q)
    ensures Meets(a.q, Unblock(a, resumes, startOk).q, e, FateOf(a, UnblockStep(resumes, startOk), e))
  {
    if resumes && a.status.Idle? { ContinueMeets(a.(env := a.env.(blocked := false)), startOk, e); }
  }

  lemma StepMeets(a: Actor, s: Step, e: Entry)
    requires Inv(a) && Enabled(a, s) && e in InLine(a.q)
    ensures Meets(a.q, Apply(a, s).q, e, FateOf(a, s, e))
  {
    match s
    case SubmitStep(_, _, _, _, _, _) => DoorMeets(a, s, e);
    case DelegateStep(_, _, _, _, _) => DoorMeets(a, s, e);
    case RuntimeStep(_, _, _, _, _) => DoorMeets(a, s, e);
    case CancelQueuedStep(id) => RetractMeets(a, id, e);
    case CancelDelegateStep(id) => RetractMeets(a, id, e);
    case InterruptStep => InterruptMeets(a, e);
    case ShutdownStep => EndMeets(a, e);
    case CancelledStep => EndMeets(a, e);
    case AdmissionStep(ok, minted, startOk) => AdmissionMeets(a, ok, minted, startOk, e);
    case DrainStep => DrainMeets(a, e);
    case FoldStep(id, committed) => FoldMeets(a, id, committed, e);
    case HandBackStep(t, boundaryOk, startOk) => HandBackMeets(a, t, boundaryOk, startOk, e);
    case UnblockStep(resumes, startOk) => UnblockMeets(a, resumes, startOk, e);
    case _ =>
  }

  // ---------------------------------------------------------------- what comes in

  /** An input that a door does not take: answered at once, or left to its sender. */
  function Refused(a: Actor, s: Step): Fate
    requires IsDoor(s)
  {
    match s
    case SubmitStep(_, bypass, durable, fault, accepted, _) =>
      if fault then Resolved(if bypass then Returned else Rejected)
      else if durable && !accepted then Resolved(Returned)
      else Resolved(Rejected)
    case DelegateStep(_, fault, _, _, _) =>
      if fault then NotTaken
      else if a.status.ShuttingDown? || Full(a) ||
        (a.status.Idle? && !a.env.blocked && !s.minted) then Resolved(Rejected)
      else NotTaken
    case RuntimeStep(_, _, _, _, _) => NotTaken
  }

  /** The input a door brings. */
  function FateIn(a: Actor, s: Step): Fate
    requires IsDoor(s)
  {
    if Takes(a, s) then Asked(a.status.Idle? && a.q.inbox == [], a.env, s.startOk, Arrival(a, s), Kept)
    else Refused(a, s)
  }

  lemma RefusalMeets(a: Actor, s: Step)
    requires IsDoor(s) && Phase(a) && Enabled(a, s) && !Takes(a, s)
    ensures Meets(a.q, Apply(a, s).q, Arrival(a, s), Refused(a, s))
  {
    var e := s.e;
    ToldMore(a.q.answers, a.q.answers, [Answer(e.id, Returned)], Answer(e.id, Returned));
    ToldMore(a.q.answers, a.q.answers, [Answer(e.id, Rejected)], Answer(e.id, Rejected));
    match s
    case SubmitStep(_, bypass, durable, fault, accepted, startOk) =>
    case DelegateStep(_, fault, minted, accepted, startOk) =>
    case RuntimeStep(_, conflict, fault, commit, startOk) =>
  }

  lemma ArrivalMeets(a: Actor, s: Step)
    requires Inv(a) && IsDoor(s) && Enabled(a, s)
    ensures Meets(a.q, Apply(a, s).q, Arrival(a, s), FateIn(a, s))
  {
    if !Takes(a, s) {
      RefusalMeets(a, s);
    } else {
      DoorIs(a, s);
      var x := Arrival(a, s);
      Arrives(a.q, x);
      var c := a.(q := Accept(a.q, x));
      if a.status.Idle? && !a.env.blocked { RequestMeets(a.q, c, s.startOk, x); }
    }
  }

  // ---------------------------------------------------------------- one fate only

  lemma InNames(es: seq<Entry>, e: Entry)
    requires e in es
    ensures multiset(Names(es))[e.id] >= 1
  {
    var i :| 0 <= i < |es| && es[i] == e;
    assert Names(es)[i] == e.id;
  }

  lemma ToldIsAnswered(before: seq<Answer>, after: seq<Answer>, r: Answer) returns (i: nat)
    requires Told(before, after, r)
    ensures i < |after| && after[i] == r && multiset(Answered(after))[r.id] >= 1
  {
    var tail := after[|before|..];
    var j :| 0 <= j < |tail| && tail[j] == r;
    i := |before| + j;
    assert Answered(after)[i] == r.id;
  }

  /** How often the fate's own place holds the id. */
  ghost function PlaceOf(q: Queues, f: Fate, id: nat): nat {
    match f
    case Kept => multiset(Names(q.inbox))[id]
    case Drained => multiset(Names(q.draining))[id]
    case Resolved(_) => multiset(Answered(q.answers))[id]
    case CarriedOver => multiset(Names(q.carried))[id]
    case NotTaken => 0
  }

  lemma MeetsPlace(p: Queues, q: Queues, e: Entry, f: Fate)
    requires Meets(p, q, e, f) && !f.NotTaken?
    ensures PlaceOf(q, f, e.id) >= 1
  {
    match f
    case Kept => InNames(q.inbox, e);
    case Drained => InNames(q.draining, e);
    case Resolved(kind) => var _ := ToldIsAnswered(p.answers, q.answers, Answer(e.id, kind));
    case CarriedOver => InNames(q.carried, e);
  }

  lemma SameAnswer(rs: seq<Answer>, i: nat, j: nat)
    requires i < |rs| && j < |rs| && rs[i].id == rs[j].id && multiset(Answered(rs))[rs[i].id] <= 1
    ensures rs[i] == rs[j]
  {
    if i != j {
      assert Answered(rs)[i] == Answered(rs)[j];
      TwiceCounts(Answered(rs), if i < j then i else j, if i < j then j else i);
    }
  }

  lemma OneFate(p: Queues, q: Queues, e: Entry, f: Fate, g: Fate)
    requires Places(q, e.id) == (if e.id in q.seen then 1 else 0) && Meets(p, q, e, f) && Meets(p, q, e, g)
    ensures f == g
  {
    if !f.NotTaken? { MeetsPlace(p, q, e, f); }
    if !g.NotTaken? { MeetsPlace(p, q, e, g); }
    if f.Resolved? && g.Resolved? {
      var i := ToldIsAnswered(p.answers, q.answers, Answer(e.id, f.kind));
      var j := ToldIsAnswered(p.answers, q.answers, Answer(e.id, g.kind));
      SameAnswer(q.answers, i, j);
    }
  }

  // ---------------------------------------------------------------- over every run

  /** In every run, at every step, an input in line meets exactly the fate the table gives it. */
  lemma FateIsMet(states: seq<Actor>, steps: seq<Step>, k: nat, e: Entry, f: Fate)
    requires Run(states, steps) && k < |steps| && e in InLine(states[k].q)
    ensures Meets(states[k].q, states[k + 1].q, e, f) <==> f == FateOf(states[k], steps[k], e)
  {
    RunKeeps(states, steps, k);
    StepMeets(states[k], steps[k], e);
    ExactlyOnePlace(states, steps, k + 1, e.id);
    if Meets(states[k].q, states[k + 1].q, e, f) {
      OneFate(states[k].q, states[k + 1].q, e, f, FateOf(states[k], steps[k], e));
    }
  }

  /** And so does the input a step brings. */
  lemma ArrivalIsMet(states: seq<Actor>, steps: seq<Step>, k: nat, f: Fate)
    requires Run(states, steps) && k < |steps| && IsDoor(steps[k])
    ensures Meets(states[k].q, states[k + 1].q, Arrival(states[k], steps[k]), f) <==> f == FateIn(states[k], steps[k])
  {
    RunKeeps(states, steps, k);
    ArrivalMeets(states[k], steps[k]);
    var x := Arrival(states[k], steps[k]);
    ExactlyOnePlace(states, steps, k + 1, x.id);
    if Meets(states[k].q, states[k + 1].q, x, f) {
      OneFate(states[k].q, states[k + 1].q, x, f, FateIn(states[k], steps[k]));
    }
  }

  /** The input is in that queue after the step because the table puts it there. */
  predicate PutThere(a: Actor, s: Step, e: Entry, f: Fate) {
    (e in InLine(a.q) && FateOf(a, s, e) == f) || (IsDoor(s) && e == Arrival(a, s) && FateIn(a, s) == f)
  }

  lemma SameName(q: Queues, f: Fate, e: Entry, x: Entry)
    requires Owned(q) && (f.Kept? || f.Drained?) && Meets(q, q, e, f) && Meets(q, q, x, f) && e.id == x.id
    ensures e == x
  {
    NamesApart(q, e, x);
  }

  lemma CameIn(p: Queues, q: Queues, f: Fate, e: Entry, x: Entry, g: Fate)
    requires Owned(q) && Places(q, e.id) == (if e.id in q.seen then 1 else 0) && (f.Kept? || f.Drained?)
    requires Meets(p, q, e, f) && e.id == x.id && Meets(p, q, x, g)
    ensures e == x && f == g
  {
    MeetsPlace(p, q, e, f);
    if !g.NotTaken? { MeetsPlace(p, q, x, g); }
    SameName(q, f, e, x);
  }

  /** Inbox and draining hold exactly what the table puts there; nothing else gets in. */
  lemma QueuesAreMet(states: seq<Actor>, steps: seq<Step>, k: nat, e: Entry, f: Fate)
    requires Run(states, steps) && k < |steps| && (f.Kept? || f.Drained?)
    ensures Meets(states[k].q, states[k + 1].q, e, f) <==> PutThere(states[k], steps[k], e, f)
  {
    var a, b, s := states[k], states[k + 1], steps[k];
    RunKeeps(states, steps, k);
    RunKeeps(states, steps, k + 1);
    ExactlyOnePlace(states, steps, k + 1, e.id);
    if IsDoor(s) { ArrivalMeets(a, s); }
    if e in InLine(a.q) { FateIsMet(states, steps, k, e, f); }
    if Meets(a.q, b.q, e, f) && e !in InLine(a.q) {
      StepWithin(a, s);
      StepExtends(a, s);
      assert Holds(b.q, e);
      if e in a.q.carried {
        MeetsPlace(a.q, b.q, e, f);
        MeetsPlace(a.q, b.q, e, CarriedOver);
      } else {
        CameIn(a.q, b.q, f, e, Arrival(a, s), FateIn(a, s));
      }
    }
  }

  // ---------------------------------------------------------------- what the loop does next

  predicate HasUser(es: seq<Entry>) { exists e :: e in es && e.user }

  /** The step asks for a start, with somebody to start. */
  predicate Continues(a: Actor, s: Step) {
    match s
    case HandBackStep(t, boundaryOk, _) =>
      && !a.status.ShuttingDown? && boundaryOk && !a.env.blocked
      && if a.turn.targeted || t.Done? then a.q.inbox != [] else t.Interrupted? && HasUser(InLine(a.q))
    case UnblockStep(resumes, _) => resumes && a.status.Idle? && a.q.inbox != []
    case _ => IsDoor(s) && Takes(a, s) && a.status.Idle? && !a.env.blocked
  }

  function StatusAfter(a: Actor, s: Step): Status {
    if a.status.ShuttingDown? || s.ShutdownStep? then ShuttingDown
    else if Continues(a, s) then if a.env.gated then Waiting else if s.startOk then Running else Idle
    else match s
      case HandBackStep(_, _, _) => Idle
      case AdmissionStep(ok, minted, startOk) =>
        if !a.status.Waiting? then a.status
        else if ok && a.q.inbox != [] && minted && startOk then Running else Idle
      case ResumeStep(_) => if a.status.Idle? then Running else a.status
      case _ => if LateAdmission.GivesUp(a, s) then Idle else a.status
  }

  lemma HasUserIs(es: seq<Entry>)
    ensures HasUser(es) <==> Filter(es, Users, true) != []
  {
    var users := Filter(es, Users, true);
    if users != [] { FilterHas(es, Users, true, users[0]); }
    if e :| e in es && e.user { FilterHas(es, Users, true, e); }
  }

  lemma DoorStatus(a: Actor, s: Step)
    requires Phase(a) && a.exit.Open? && IsDoor(s)
    ensures Apply(a, s).status == StatusAfter(a, s)
  {
    DoorIs(a, s);
  }

  lemma HandBackStatus(a: Actor, s: Step)
    requires Phase(a) && s.HandBackStep?
    ensures Apply(a, s).status == StatusAfter(a, s)
  {
    hide HasUser, Filter, Replies;
    HasUserIs(InLine(a.q));
  }

  lemma EventStatus(a: Actor, s: Step)
    requires Phase(a) && Enabled(a, s) && !IsDoor(s) && !s.HandBackStep? && !a.status.Waiting?
    ensures Apply(a, s).status == StatusAfter(a, s)
  {
    match s
    case InterruptStep =>
    case ShutdownStep =>
    case AdmissionStep(ok, minted, startOk) =>
    case UnblockStep(resumes, startOk) =>
    case _ =>
  }

  lemma WaitingStatus(a: Actor, s: Step)
    requires Phase(a) && Enabled(a, s) && !IsDoor(s) && !s.HandBackStep? && a.status.Waiting?
    ensures Apply(a, s).status == StatusAfter(a, s)
  {
    if !s.AdmissionStep? { LateAdmission.WaitEndsIff(a, s); }
  }

  /** The loop is idle, waiting, running or shutting down next as the table says. */
  lemma StatusIs(states: seq<Actor>, steps: seq<Step>, k: nat)
    requires Run(states, steps) && k < |steps|
    ensures states[k + 1].status == StatusAfter(states[k], steps[k])
  {
    var a, s := states[k], steps[k];
    RunInv(states, steps, k);
    if IsDoor(s) {
      DoorStatus(a, s);
    } else if s.HandBackStep? {
      HandBackStatus(a, s);
    } else if a.status.Waiting? {
      WaitingStatus(a, s);
    } else {
      EventStatus(a, s);
    }
  }

  // ---------------------------------------------------------------- the turn and the end

  /** A turn begins with the step. */
  predicate Begins(a: Actor, s: Step) { StatusAfter(a, s).Running? && (!a.status.Running? || s.HandBackStep?) }

  /** A cancellation of the request whose turn runs. */
  predicate CancelsRequest(a: Actor, s: Step) {
    s.CancelDelegateStep? && s.id !in Names(a.q.inbox) && a.status.Running? && a.turn.causation == s.id
  }

  /** The step takes away the turn's means of being cancelled: by using it, or with the turn. */
  predicate Spends(a: Actor, s: Step) {
    || s.InterruptStep? || s.CancelledStep? || s.HandBackStep?
    || (s.ShutdownStep? && !a.status.ShuttingDown?) || CancelsRequest(a, s)
  }

  /** The flags of the turn: it can be cancelled once, and is marked as cancelled for its own request exactly
      if that request's cancellation did it and no interrupt came since. */
  ghost predicate FlagsFollow(a: Actor, s: Step, b: Actor) {
    && (b.turn.cancel <==> Begins(a, s) || (a.turn.cancel && !Spends(a, s)))
    && (b.turn.targeted <==>
      || (a.turn.cancel && CancelsRequest(a, s))
      || (a.turn.targeted && !s.HandBackStep? && !(s.InterruptStep? && !a.turn.cancel)))
  }

  lemma DoorFlags(a: Actor, s: Step)
    requires Phase(a) && a.exit.Open? && IsDoor(s)
    ensures FlagsFollow(a, s, Apply(a, s))
  {
    DoorIs(a, s);
  }

  lemma HandBackFlags(a: Actor, s: Step)
    requires Phase(a) && s.HandBackStep? && a.turn.live
    ensures FlagsFollow(a, s, Apply(a, s))
  {
    hide HasUser, Filter, Replies;
    HasUserIs(InLine(a.q));
  }

  lemma EventFlags(a: Actor, s: Step)
    requires Phase(a) && Enabled(a, s) && !IsDoor(s) && !s.HandBackStep?
    ensures FlagsFollow(a, s, Apply(a, s))
  {
    hide RetainUsers, ReturnAll, Without;
    match s
    case CancelQueuedStep(id) =>
    case CancelDelegateStep(id) =>
    case InterruptStep =>
    case ShutdownStep =>
    case AdmissionStep(ok, minted, startOk) =>
    case ResumeStep(cause) =>
    case UnblockStep(resumes, startOk) =>
    case _ =>
  }

  lemma FlagsAre(states: seq<Actor>, steps: seq<Step>, k: nat)
    requires Run(states, steps) && k < |steps|
    ensures FlagsFollow(states[k], steps[k], states[k + 1])
  {
    var a, s := states[k], steps[k];
    RunInv(states, steps, k);
    if IsDoor(s) { DoorFlags(a, s); } else if s.HandBackStep? { HandBackFlags(a, s); } else { EventFlags(a, s); }
  }

  /** The steps with which an actor leaves by itself. */
  predicate Leaves(a: Actor, s: Step) {
    || s.CancelledStep? || (s.ShutdownStep? && !a.turn.live)
    || ((s.HandBackStep? || s.AdmissionStep?) && a.status.ShuttingDown?)
  }

  lemma StepLeavesIff(a: Actor, s: Step)
    requires Phase(a) && Enabled(a, s)
    ensures Apply(a, s).exit.Left? <==> Leaves(a, s)
    ensures Apply(a, s).exit.Closed? <==> s.ClosedStep?
  {
    hide ReturnAll, RetainUsers, Names, Without;
    match s
    case SubmitStep(_, _, _, _, _, _) => DoorsStay(a, s);
    case DelegateStep(_, _, _, _, _) => DoorsStay(a, s);
    case RuntimeStep(_, _, _, _, _) => DoorsStay(a, s);
    case UnblockStep(_, _) => DoorsStay(a, s);
    case HandBackStep(t, boundaryOk, startOk) =>
    case AdmissionStep(ok, minted, startOk) =>
    case _ =>
  }

  lemma LeavesIff(states: seq<Actor>, steps: seq<Step>, k: nat)
    requires Run(states, steps) && k < |steps|
    ensures states[k + 1].exit.Left? <==> Leaves(states[k], steps[k])
    ensures states[k + 1].exit.Closed? <==> steps[k].ClosedStep?
  {
    RunInv(states, steps, k);
    StepLeavesIff(states[k], steps[k]);
  }

  // ---------------------------------------------------------------- who is started

  /** Whoever is told that its turn started is the cause of the turn that runs. */
  ghost predicate StartsItsTurn(before: seq<Answer>, b: Actor) {
    forall id: nat :: Told(before, b.q.answers, Answer(id, Started)) ==> b.turn.live && b.turn.causation == id
  }

  lemma NoStart(before: seq<Answer>, es: seq<Entry>, b: Actor)
    requires b.q.answers == before + Replies(es, Returned)
    ensures StartsItsTurn(before, b)
  {
    assert b.q.answers[|before|..] == Replies(es, Returned);
  }

  lemma OneStart(before: seq<Answer>, es: seq<Entry>, r: Answer, b: Actor)
    requires b.q.answers == before + Replies(es, Returned) + [r]
    requires r.kind.Started? ==> b.turn.live && b.turn.causation == r.id
    ensures StartsItsTurn(before, b)
  {
    assert b.q.answers[|before|..] == Replies(es, Returned) + [r];
  }

  lemma OnlyAnswer(before: seq<Answer>, r: Answer, b: Actor)
    requires b.q.answers == before + [r] && (r.kind.Started? ==> b.turn.live && b.turn.causation == r.id)
    ensures StartsItsTurn(before, b)
  {
    assert b.q.answers[|before|..] == [r];
  }

  lemma Silent(before: seq<Answer>, b: Actor)
    requires b.q.answers == before
    ensures StartsItsTurn(before, b)
  {
    assert b.q.answers[|before|..] == [];
  }

  /** A request for a start after some answers. */
  lemma RequestStarts(before: seq<Answer>, es: seq<Entry>, c: Actor, startOk: bool)
    requires c.q.answers == before + Replies(es, Returned)
    ensures StartsItsTurn(before, RequestStart(c, startOk))
  {
    var b := RequestStart(c, startOk);
    if b.q.answers == c.q.answers {
      NoStart(before, es, b);
    } else {
      OneStart(before, es, Answer(c.q.inbox[0].id, if startOk then Started else StartFailure(c.q.inbox[0])), b);
    }
  }

  lemma PlainRequest(c: Actor, startOk: bool)
    ensures StartsItsTurn(c.q.answers, RequestStart(c, startOk))
  {
    assert c.q.answers == c.q.answers + Replies([], Returned);
    RequestStarts(c.q.answers, [], c, startOk);
  }

  lemma DoorStarts(a: Actor, s: Step)
    requires Phase(a) && a.exit.Open? && IsDoor(s)
    ensures StartsItsTurn(a.q.answers, Apply(a, s))
  {
    DoorIs(a, s);
    var b := Apply(a, s);
    if Takes(a, s) {
      if a.status.Idle? && !a.env.blocked {
        PlainRequest(a.(q := Accept(a.q, Arrival(a, s))), s.startOk);
      } else {
        Silent(a.q.answers, b);
      }
    } else if b.q.answers == a.q.answers {
      Silent(a.q.answers, b);
    } else {
      RefusalAnswer(a, s);
      OnlyAnswer(a.q.answers, b.q.answers[|a.q.answers|], b);
    }
  }

  lemma RefusalAnswer(a: Actor, s: Step)
    requires Phase(a) && a.exit.Open? && IsDoor(s) && !Takes(a, s) && Apply(a, s).q.answers != a.q.answers
    ensures
      var rs := Apply(a, s).q.answers;
      |rs| == |a.q.answers| + 1 && rs == a.q.answers + [rs[|a.q.answers|]] && !rs[|a.q.answers|].kind.Started?
  {
    match s
    case SubmitStep(_, bypass, durable, fault, accepted, startOk) =>
    case DelegateStep(_, fault, minted, accepted, startOk) =>
    case RuntimeStep(_, conflict, fault, commit, startOk) =>
  }

  lemma HandBackBegins(a: Actor, t: Terminal, boundaryOk: bool, startOk: bool)
    ensures StartsItsTurn(a.q.answers, HandBack(a, t, boundaryOk, startOk))
  {
    var b, c := HandBack(a, t, boundaryOk, startOk), a.(turn := NO_TURN, status := Idle);
    if a.status.ShuttingDown? {
      NoStart(a.q.answers, Returning(InLine(a.q), true), b);
    } else if boundaryOk && (a.turn.targeted || t.Done?) {
      PlainRequest(c, startOk);
    } else if boundaryOk && t.Interrupted? {
      RequestStarts(a.q.answers, Filter(InLine(a.q), Users, false), c.(q := RetainUsers(a.q)), startOk);
    } else {
      NoStart(a.q.answers, Returning(InLine(a.q), a.env.killed), b);
    }
  }

  lemma AfterFailure(before: seq<Answer>, r: Answer, es: seq<Entry>, b: Actor)
    requires b.q.answers == before + [r] + Replies(es, Returned) && !r.kind.Started?
    ensures StartsItsTurn(before, b)
  {
    assert b.q.answers[|before|..] == [r] + Replies(es, Returned);
  }

  lemma AdmissionBegins(a: Actor, ok: bool, minted: bool, startOk: bool)
    ensures StartsItsTurn(a.q.answers, Admission(a, ok, minted, startOk))
  {
    var b := Admission(a, ok, minted, startOk);
    if a.status.ShuttingDown? {
      NoStart(a.q.answers, Returning(InLine(a.q), true), b);
    } else if !a.status.Waiting? || (ok && a.q.inbox == []) {
      Silent(a.q.answers, b);
    } else if !ok {
      NoStart(a.q.answers, Returning(InLine(a.q), a.env.killed), b);
    } else if minted && startOk {
      OnlyAnswer(a.q.answers, Answer(a.q.inbox[0].id, Started), b);
    } else {
      var front := a.q.inbox[0];
      var q := Pop(a.q, StartFailure(front));
      AfterFailure(a.q.answers, Answer(front.id, StartFailure(front)), Returning(InLine(q), a.env.killed), b);
    }
  }

  lemma EndsBegin(a: Actor, s: Step)
    requires s.ShutdownStep? || s.CancelledStep? || s.InterruptStep?
    ensures StartsItsTurn(a.q.answers, Apply(a, s))
  {
    var b := Apply(a, s);
    if b.q.answers == a.q.answers {
      Silent(a.q.answers, b);
    } else if s.InterruptStep? {
      NoStart(a.q.answers, Filter(InLine(a.q), Users, false), b);
    } else {
      NoStart(a.q.answers, Returning(InLine(a.q), true), b);
    }
  }

  lemma SmallBegins(a: Actor, s: Step)
    requires s.CancelQueuedStep? || s.CancelDelegateStep? || s.FoldStep? || s.UnblockStep?
    ensures StartsItsTurn(a.q.answers, Apply(a, s))
  {
    var b := Apply(a, s);
    if s.UnblockStep? && s.resumes && a.status.Idle? {
      PlainRequest(a.(env := a.env.(blocked := false)), s.startOk);
    } else if b.q.answers == a.q.answers {
      Silent(a.q.answers, b);
    } else {
      OnlyAnswer(a.q.answers, Answer(s.id, if s.FoldStep? then Folded else Returned), b);
    }
  }

  lemma StartedIsTheCause(states: seq<Actor>, steps: seq<Step>, k: nat)
    requires Run(states, steps) && k < |steps|
    ensures StartsItsTurn(states[k].q.answers, states[k + 1])
  {
    var a, s := states[k], steps[k];
    RunInv(states, steps, k);
    match s
    case HandBackStep(t, boundaryOk, startOk) => HandBackBegins(a, t, boundaryOk, startOk);
    case AdmissionStep(ok, minted, startOk) => AdmissionBegins(a, ok, minted, startOk);
    case InterruptStep => EndsBegin(a, s);
    case ShutdownStep => EndsBegin(a, s);
    case CancelledStep => EndsBegin(a, s);
    case CancelQueuedStep(_) => SmallBegins(a, s);
    case CancelDelegateStep(_) => SmallBegins(a, s);
    case FoldStep(_, _) => SmallBegins(a, s);
    case UnblockStep(_, _) => SmallBegins(a, s);
    case SubmitStep(_, _, _, _, _, _) => DoorStarts(a, s);
    case DelegateStep(_, _, _, _, _) => DoorStarts(a, s);
    case RuntimeStep(_, _, _, _, _) => DoorStarts(a, s);
    case _ => Silent(a.q.answers, states[k + 1]);
  }

  // ---------------------------------------------------------------- the end of a turn

  lemma SomebodyIn(es: seq<Entry>)
    requires es != []
    ensures exists e :: e in es
  {
    assert es[0] in es;
  }

  /** The turn's end is an interrupt's, committed, and neither a targeted cancellation nor a shutdown
      decides what becomes of the queue. */
  predicate EndsInterrupted(a: Actor, s: Step) {
    s.HandBackStep? && s.t.Interrupted? && s.boundaryOk && !a.turn.targeted && !a.status.ShuttingDown?
  }

  /** An interrupt does not cost a human their place: what people sent stays queued in order, and the first
      of it is started, or fails to start, or makes the loop wait for admission; only what machines sent is
      returned, once. */
  lemma InterruptKeepsHumans(states: seq<Actor>, steps: seq<Step>, k: nat, e: Entry)
    requires Run(states, steps) && k < |steps| && EndsInterrupted(states[k], steps[k]) && e in InLine(states[k].q)
    ensures
      var a, b, s := states[k], states[k + 1], steps[k];
      var first := FirstUser(e, InLine(a.q));
      && Increasing(b.q.inbox) && b.q.draining == []
      && (!e.user ==> Told(a.q.answers, b.q.answers, Answer(e.id, Returned)) && Places(b.q, e.id) == 1)
      && (e.user && (!first || a.env.blocked || a.env.gated) ==> e in b.q.inbox)
      && (first && !a.env.blocked ==>
        if a.env.gated then b.status.Waiting?
        else if s.startOk then
          b.status.Running? && b.turn.causation == e.id && Told(a.q.answers, b.q.answers, Answer(e.id, Started))
        else
          b.status.Idle? &&
          Told(a.q.answers, b.q.answers, Answer(e.id, if e.rejectOnStartFailure then Rejected else Returned)))
  {
    var a, b, s := states[k], states[k + 1], steps[k];
    RunKeeps(states, steps, k);
    RunKeeps(states, steps, k + 1);
    LeavesIff(states, steps, k);
    OwnedLine(b.q);
    FateIsMet(states, steps, k, e, FateOf(a, s, e));
    StatusIs(states, steps, k);
    StartedIsTheCause(states, steps, k);
    ExactlyOnePlace(states, steps, k + 1, e.id);
    if !e.user { var _ := ToldIsAnswered(a.q.answers, b.q.answers, Answer(e.id, Returned)); }
    forall d ensures d !in b.q.draining {
      QueuesAreMet(states, steps, k, d, Drained);
    }
    if b.q.draining != [] { SomebodyIn(b.q.draining); }
  }

  /** A turn that failed, or whose end could not be committed, gives everything back and starts nothing. */
  lemma FailureGivesBackAll(states: seq<Actor>, steps: seq<Step>, k: nat, e: Entry)
    requires Run(states, steps) && k < |steps| && steps[k].HandBackStep? && !states[k].status.ShuttingDown?
    requires !steps[k].boundaryOk || (steps[k].t.Failed? && !states[k].turn.targeted)
    ensures
      var a, b := states[k], states[k + 1];
      && b.q.inbox == [] && b.q.draining == [] && b.status.Idle? && !b.turn.live
      && (e in InLine(a.q) ==>
        if a.env.killed && e.carryOver then e in b.q.carried
        else Told(a.q.answers, b.q.answers, Answer(e.id, Returned)) && Places(b.q, e.id) == 1)
  {
    var a, b, s := states[k], states[k + 1], steps[k];
    StatusIs(states, steps, k);
    LeavesIff(states, steps, k);
    RunKeeps(states, steps, k + 1);
    if e in InLine(a.q) {
      FateIsMet(states, steps, k, e, FateOf(a, s, e));
      ExactlyOnePlace(states, steps, k + 1, e.id);
      if !(a.env.killed && e.carryOver) { var _ := ToldIsAnswered(a.q.answers, b.q.answers, Answer(e.id, Returned)); }
    }
    forall d ensures d !in b.q.draining && d !in b.q.inbox {
      QueuesAreMet(states, steps, k, d, Drained);
      QueuesAreMet(states, steps, k, d, Kept);
    }
    if b.q.draining != [] { SomebodyIn(b.q.draining); }
    if b.q.inbox != [] { SomebodyIn(b.q.inbox); }
  }
}
