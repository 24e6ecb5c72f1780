/** Recovery of Host-admitted inputs (internal/sessionruntime/admitted_input_replay.go).

    The loop's inbox is memory; the journal is what a restore has. This module gives the plan a
    restore computes from the journal, and runs the loop actor over a journal that survives crashes:
    an admitted input is never lost and never resolved twice. */
module AdmittedReplay {
  import opened AcceptedInput

  // ---------------------------------------------------------------- the journal

  /** A disposition says whether it is `applied` and whether its kind is input or create; an event
      names its cause, zero for none; a command says whether it is a user input and how many blocks
      it carries. */
  datatype Record =
    | Disposition(id: nat, applied: bool, input: bool)
    | Event(cause: nat, resolving: bool)
    | Command(id: nat, userInput: bool, loopId: nat, blocks: nat)

  datatype Intent = Intent(loopId: nat, blocks: nat)

  datatype Replay = Replay(id: nat, intent: Intent)

  predicate Applies(r: Record) { r.Disposition? && r.applied && r.input }

  /** The ids with an applied disposition, in the order of the first one. */
  function Applied(rs: seq<Record>): seq<nat> {
    if rs == [] then []
    else
      var before, r := Applied(rs[..|rs| - 1]), rs[|rs| - 1];
      if Applies(r) && r.id !in before then before + [r.id] else before
  }

  /** The ids some event names as its cause. */
  function Caused(rs: seq<Record>): set<nat> {
    if rs == [] then {}
    else
      var before, r := Caused(rs[..|rs| - 1]), rs[|rs| - 1];
      if r.Event? && r.cause != 0 then before + {r.cause} else before
  }

  /** The first user input recorded for each id. */
  function Intents(rs: seq<Record>): map<nat, Intent> {
    if rs == [] then map[]
    else
      var before, r := Intents(rs[..|rs| - 1]), rs[|rs| - 1];
      if r.Command? && r.userInput && r.id !in before then before[r.id := Intent(r.loopId, r.blocks)] else before
  }

  predicate Owed(id: nat, caused: set<nat>, intents: map<nat, Intent>) {
    id !in caused && id in intents && intents[id].blocks > 0
  }

  function Select(order: seq<nat>, caused: set<nat>, intents: map<nat, Intent>): seq<Replay> {
    if order == [] then []
    else
      var before, id := Select(order[..|order| - 1], caused, intents), order[|order| - 1];
      if Owed(id, caused, intents) then before + [Replay(id, intents[id])] else before
  }

  function Plan(rs: seq<Record>): seq<Replay> { Select(Applied(rs), Caused(rs), Intents(rs)) }

  function Ids(plan: seq<Replay>): seq<nat> { seq(|plan|, i requires 0 <= i < |plan| => plan[i].id) }

  method PlanAppliedAdmittedInputs(records: seq<Record>) returns (plan: seq<Replay>)
    ensures plan == Plan(records)
    ensures forall k :: 0 <= k < |plan| ==> AsRecorded(records, plan[k])
  {
    var order: seq<nat>, applied: set<nat>, caused: set<nat>, intents: map<nat, Intent> := [], {}, {}, map[];
    var i := 0;
    while i < |records|
      invariant i <= |records|
      invariant order == Applied(records[..i]) && (forall id :: id in applied <==> id in order)
      invariant caused == Caused(records[..i]) && intents == Intents(records[..i])
    {
      assert records[..i + 1][..i] == records[..i];
      match records[i] {
        case Disposition(id, wasApplied, isInput) =>
          if wasApplied && isInput && id !in applied {
            applied := applied + {id};
            order := order + [id];
          }
        case Event(cause, _) =>
          if cause != 0 { caused := caused + {cause}; }
        case Command(id, isUserInput, loopId, blocks) =>
          if isUserInput && id !in intents { intents := intents[id := Intent(loopId, blocks)]; }
      }
      i := i + 1;
    }
    assert records[..i] == records;
    plan := [];
    i := 0;
    while i < |order|
      invariant i <= |order| && plan == Select(order[..i], caused, intents)
    {
      assert order[..i + 1][..i] == order[..i];
      if order[i] !in caused && order[i] in intents && intents[order[i]].blocks != 0 {
        plan := plan + [Replay(order[i], intents[order[i]])];
      }
      i := i + 1;
    }
    assert order[..i] == order;
    forall k | 0 <= k < |plan| ensures AsRecorded(records, plan[k]) {
      PlanAsRecorded(records, k);
    }
  }

  // ---------------------------------------------------------------- what the plan is, from the records

  predicate AppliedIn(rs: seq<Record>, id: nat) {
    exists i :: 0 <= i < |rs| && rs[i].Disposition? && rs[i].applied && rs[i].input && rs[i].id == id
  }

  predicate CausedIn(rs: seq<Record>, id: nat) {
    exists i :: 0 <= i < |rs| && rs[i].Event? && rs[i].cause == id && id != 0
  }

  /** The record at i is the first applied disposition of its id. */
  predicate FirstApplied(rs: seq<Record>, i: int) {
    0 <= i < |rs| && Applies(rs[i]) && forall j :: 0 <= j < i ==> !(Applies(rs[j]) && rs[j].id == rs[i].id)
  }

  /** The record at i is the first user input of its id, and it carries blocks. */
  predicate FirstIntent(rs: seq<Record>, i: int, intent: Intent) {
    && 0 <= i < |rs| && rs[i].Command? && rs[i].userInput && intent == Intent(rs[i].loopId, rs[i].blocks)
    && forall j :: 0 <= j < i ==> !(rs[j].Command? && rs[j].userInput && rs[j].id == rs[i].id)
  }

  /** What is replayed is the input's first record: its loop and its blocks, of which there are some. */
  ghost predicate AsRecorded(rs: seq<Record>, r: Replay) {
    r.intent.blocks > 0 && exists i :: FirstIntent(rs, i, r.intent) && rs[i].id == r.id
  }

  lemma {:induction false} AppliedIs(rs: seq<Record>, id: nat)
    ensures id in Applied(rs) <==> AppliedIn(rs, id)
  {
    if rs != [] {
      var init, n := rs[..|rs| - 1], |rs| - 1;
      AppliedIs(init, id);
      assert forall i :: 0 <= i < n ==> init[i] == rs[i];
      if Applies(rs[n]) && rs[n].id == id { assert AppliedIn(rs, id); }
      if AppliedIn(init, id) {
        var i :| 0 <= i < n && Applies(init[i]) && init[i].id == id;
        assert Applies(rs[i]) && rs[i].id == id;
      }
    }
  }

  lemma {:induction false} CausedIs(rs: seq<Record>, id: nat)
    ensures id in Caused(rs) <==> CausedIn(rs, id)
  {
    if rs != [] {
      var init, n := rs[..|rs| - 1], |rs| - 1;
      CausedIs(init, id);
      assert forall i :: 0 <= i < n ==> init[i] == rs[i];
      if CausedIn(init, id) {
        var i :| 0 <= i < n && init[i].Event? && init[i].cause == id;
        assert rs[i].cause == id;
      }
    }
  }

  lemma {:induction false} IntentsAre(rs: seq<Record>, id: nat)
    ensures id in Intents(rs) <==> exists i :: 0 <= i < |rs| && rs[i].Command? && rs[i].userInput && rs[i].id == id
    ensures id in Intents(rs) ==> exists i :: FirstIntent(rs, i, Intents(rs)[id]) && rs[i].id == id
  {
    if rs != [] {
      var init, n := rs[..|rs| - 1], |rs| - 1;
      IntentsAre(init, id);
      assert forall i :: 0 <= i < n ==> init[i] == rs[i];
      if id in Intents(init) {
        var i :| FirstIntent(init, i, Intents(init)[id]) && init[i].id == id;
        assert FirstIntent(rs, i, Intents(rs)[id]) && rs[i].id == id;
      } else if rs[n].Command? && rs[n].userInput && rs[n].id == id {
        assert FirstIntent(rs, n, Intents(rs)[id]);
      }
    }
  }

  /** Every id of the order stands where its first applied disposition does. */
  ghost predicate OrderedBy(rs: seq<Record>, order: seq<nat>, at: seq<int>) {
    && |at| == |order|
    && (forall k :: 0 <= k < |order| ==> FirstApplied(rs, at[k]) && rs[at[k]].id == order[k])
    && forall k, l :: 0 <= k < l < |order| ==> at[k] < at[l]
  }

  lemma LongerFirst(init: seq<Record>, r: Record, i: int)
    requires FirstApplied(init, i)
    ensures FirstApplied(init + [r], i) && (init + [r])[i] == init[i]
  {
  }

  /** A longer journal leaves the order as it is. */
  lemma LongerOrdered(init: seq<Record>, r: Record, order: seq<nat>, at: seq<int>)
    requires OrderedBy(init, order, at)
    ensures OrderedBy(init + [r], order, at)
  {
    forall k | 0 <= k < |order| ensures FirstApplied(init + [r], at[k]) && (init + [r])[at[k]].id == order[k] {
      LongerFirst(init, r, at[k]);
    }
  }

  lemma NewIsFirst(init: seq<Record>, r: Record)
    requires Applies(r) && r.id !in Applied(init)
    ensures FirstApplied(init + [r], |init|)
  {
    AppliedIs(init, r.id);
    assert !AppliedIn(init, r.id);
  }

  lemma OrderGrows(rs: seq<Record>, order: seq<nat>, at: seq<int>, id: nat, i: int)
    requires OrderedBy(rs, order, at) && FirstApplied(rs, i) && rs[i].id == id
    requires forall k :: 0 <= k < |at| ==> at[k] < i
    ensures OrderedBy(rs, order + [id], at + [i])
  {
  }

  lemma {:induction false} AppliedOrdered(rs: seq<Record>) returns (at: seq<int>)
    ensures OrderedBy(rs, Applied(rs), at)
  {
    at := [];
    if rs != [] {
      var init, r := rs[..|rs| - 1], rs[|rs| - 1];
      assert rs == init + [r];
      at := AppliedOrdered(init);
      assert forall k :: 0 <= k < |at| ==> FirstApplied(init, at[k]);
      LongerOrdered(init, r, Applied(init), at);
      if Applies(r) && r.id !in Applied(init) {
        NewIsFirst(init, r);
        OrderGrows(rs, Applied(init), at, r.id, |init|);
        at := at + [|init|];
      }
    }
  }

  lemma {:induction false} SelectIs(order: seq<nat>, caused: set<nat>, intents: map<nat, Intent>, id: nat)
    ensures id in Ids(Select(order, caused, intents)) <==> id in order && Owed(id, caused, intents)
  {
    if order != [] {
      var init, last := order[..|order| - 1], order[|order| - 1];
      SelectIs(init, caused, intents, id);
      assert order == init + [last];
      var before := Select(init, caused, intents);
      if Owed(last, caused, intents) {
        assert Ids(before + [Replay(last, intents[last])]) == Ids(before) + [last];
      }
    }
  }

  /** What a restore will offer again: exactly the inputs applied, caused by no event, and recorded
      with blocks in their first intent. */
  lemma PlanIs(rs: seq<Record>, id: nat)
    ensures id in Ids(Plan(rs)) <==>
      AppliedIn(rs, id) && !CausedIn(rs, id) && id in Intents(rs) && Intents(rs)[id].blocks > 0
    ensures id in Intents(rs) ==> exists i :: FirstIntent(rs, i, Intents(rs)[id]) && rs[i].id == id
  {
    SelectIs(Applied(rs), Caused(rs), Intents(rs), id);
    AppliedIs(rs, id);
    CausedIs(rs, id);
    IntentsAre(rs, id);
  }

  lemma {:induction false} SelectKeepsIntent(order: seq<nat>, caused: set<nat>, intents: map<nat, Intent>, k: nat)
    requires k < |Select(order, caused, intents)|
    ensures
      var r := Select(order, caused, intents)[k];
      r.id in intents && r.intent == intents[r.id] && r.intent.blocks > 0
  {
    var init := order[..|order| - 1];
    if k < |Select(init, caused, intents)| { SelectKeepsIntent(init, caused, intents, k); }
  }

  /** Every entry of the plan is an input exactly as it was first recorded. */
  lemma PlanAsRecorded(rs: seq<Record>, k: nat)
    requires k < |Plan(rs)|
    ensures AsRecorded(rs, Plan(rs)[k])
  {
    SelectKeepsIntent(Applied(rs), Caused(rs), Intents(rs), k);
    IntentsAre(rs, Plan(rs)[k].id);
  }

  lemma {:induction false} SelectOrdered(rs: seq<Record>, order: seq<nat>, at: seq<int>, caused: set<nat>,
                                         intents: map<nat, Intent>)
    returns (where: seq<int>)
    requires OrderedBy(rs, order, at)
    ensures OrderedBy(rs, Ids(Select(order, caused, intents)), where) &&
      (forall k :: 0 <= k < |where| ==> where[k] in at)
  {
    where := [];
    if order != [] {
      var n := |order| - 1;
      var before := SelectOrdered(rs, order[..n], at[..n], caused, intents);
      var chosen := Select(order[..n], caused, intents);
      where := before;
      if Owed(order[n], caused, intents) {
        assert Ids(chosen + [Replay(order[n], intents[order[n]])]) == Ids(chosen) + [order[n]];
        where := before + [at[n]];
      }
    }
  }

  /** The plan follows the first applied dispositions, so it names no input twice. */
  lemma PlanOrdered(rs: seq<Record>) returns (at: seq<int>)
    ensures OrderedBy(rs, Ids(Plan(rs)), at)
    ensures forall k, l :: 0 <= k < l < |Plan(rs)| ==> Ids(Plan(rs))[k] != Ids(Plan(rs))[l]
  {
    var order := AppliedOrdered(rs);
    at := SelectOrdered(rs, Applied(rs), order, Caused(rs), Intents(rs));
    var ids := Ids(Plan(rs));
    forall k, l | 0 <= k < l < |Plan(rs)| ensures ids[k] != ids[l] {
      assert FirstApplied(rs, at[k]) && FirstApplied(rs, at[l]) && at[k] < at[l];
    }
  }

  // ---------------------------------------------------------------- the runtime over the journal

  /** How many resolving events name each id. */
  function Resolved(rs: seq<Record>): multiset<nat> {
    if rs == [] then multiset{}
    else
      var before, r := Resolved(rs[..|rs| - 1]), rs[|rs| - 1];
      if r.Event? && r.resolving then before + multiset{r.cause} else before
  }

  /** A started or folded input is committed before the actor counts it; the publication of any other
      answer may be lost. */
  predicate Durable(r: Answer, kept: set<nat>) { r.kind.Started? || r.kind.Folded? || r.id in kept }

  function Post(rs: seq<Record>, answers: seq<Answer>, kept: set<nat>): seq<Record>
    decreases |answers|
  {
    if answers == [] then rs
    else Post(if Durable(answers[0], kept) then rs + [Event(answers[0].id, true)] else rs, answers[1..], kept)
  }

  /** What the step appends before the actor answers: the applied disposition of a commit, also one
      whose outcome the actor saw as an error, and the acceptance event of the other durable doors. */
  function Before(a: Actor, s: Step, ambiguous: bool): seq<Record> {
    match s
    case RuntimeStep(e, conflict, fault, commit, _) =>
      if ReachesCommit(a, conflict, fault) && (commit.Committed? || (commit.CommitFailed? && ambiguous))
      then [Disposition(e.id, true, true)] else []
    case SubmitStep(e, _, durable, fault, accepted, _) =>
      if durable && !fault && (accepted || ambiguous) then [Event(e.id, false)] else []
    case DelegateStep(e, fault, _, accepted, _) =>
      if !fault && (accepted || ambiguous) then [Event(e.id, false)] else []
    case _ => []
  }

  datatype Host = Down | Up(actor: Actor, owed: seq<Replay>)

  datatype System = System(records: seq<Record>, host: Host)

  datatype Move =
    | Act(s: Step, ambiguous: bool, kept: set<nat>)
    | Offer(fault: bool, startOk: bool, e: Entry, kept: set<nat>)
    | Append(r: Record)
    | FollowUp
    | Crash
    | Restore(gated: bool)

  /** No disposition and no event is about this id. */
  predicate Fresh(rs: seq<Record>, id: nat) {
    id != 0 && id !in Applied(rs) && id !in Caused(rs) && Resolved(rs)[id] == 0
  }

  /** The Host delivers a command once, replay is the only admission without a commit, and a parked
      turn is one whose opening event is in the journal. Intents and refused dispositions may be
      recorded at any time. */
  predicate May(sys: System, m: Move) {
    match m
    case Act(s, _, _) =>
      && sys.host.Up? && Enabled(sys.host.actor, s)
      && (forall id :: id in NewIds(s) ==> Fresh(sys.records, id) && id !in Ids(sys.host.owed))
      && (s.RuntimeStep? ==> !s.commit.NoCommit?)
      && (s.ResumeStep? && s.cause != 0 ==> Resolved(sys.records)[s.cause] == 1)
    case Offer(fault, startOk, e, _) =>
      sys.host.Up? && sys.host.actor.exit.Open? && sys.host.owed != [] && e.id == sys.host.owed[0].id
    case Append(r) => r.Command? || (r.Disposition? && !Applies(r))
    case FollowUp => sys.host.Up? && sys.host.actor.turn.live && sys.host.actor.exit.Open?
    case Crash => true
    case Restore(_) => sys.host.Down? || !sys.host.actor.exit.Open?
  }

  function Delta(a: Actor, b: Actor): seq<Answer> {
    if |a.q.answers| <= |b.q.answers| then b.q.answers[|a.q.answers|..] else []
  }

  function Take(sys: System, m: Move): System
    requires May(sys, m)
  {
    match m
    case Act(s, ambiguous, kept) =>
      var a := sys.host.actor;
      var b := Apply(a, s);
      System(Post(sys.records + Before(a, s, ambiguous), Delta(a, b), kept), Up(b, sys.host.owed))
    case Offer(fault, startOk, e, kept) =>
      var a := sys.host.actor;
      var b := Runtime(a, e, false, fault, NoCommit, startOk);
      System(Post(sys.records, Delta(a, b), kept), Up(b, sys.host.owed[1..]))
    case Append(r) => sys.(records := sys.records + [r])
    case FollowUp => sys.(records := sys.records + [Event(sys.host.actor.turn.causation, false)])
    case Crash => sys.(host := Down)
    case Restore(gated) => sys.(host := Up(Init(gated), Plan(sys.records)))
  }

  ghost predicate Run(states: seq<System>, moves: seq<Move>) {
    && |states| == |moves| + 1 && states[0] == System([], Down)
    && forall i :: 0 <= i < |moves| ==> May(states[i], moves[i]) && states[i + 1] == Take(states[i], moves[i])
  }

  // ---------------------------------------------------------------- the invariant

  /** At most one resolving event; an applied input that any event names has exactly one. */
  predicate Settled(rs: seq<Record>, id: nat) {
    Resolved(rs)[id] <= 1 && (id in Applied(rs) && id in Caused(rs) ==> Resolved(rs)[id] == 1)
  }

  ghost predicate JournalOk(rs: seq<Record>) { 0 !in Applied(rs) && forall id :: Settled(rs, id) }

  predicate Unresolved(rs: seq<Record>, id: nat) { id != 0 && Resolved(rs)[id] == 0 }

  /** Nothing the actor holds is resolved, and what it holds as carry-over is applied. */
  ghost predicate HeldOk(rs: seq<Record>, q: Queues) {
    && (forall id :: id in Names(q.draining + q.inbox) ==> Unresolved(rs, id))
    && (forall e :: Holds(q, e) && e.carryOver ==> e.id in Applied(rs))
  }

  ghost predicate TurnOk(rs: seq<Record>, t: Turn) { t.live && t.causation != 0 ==> Resolved(rs)[t.causation] == 1 }

  predicate OwedAt(rs: seq<Record>, id: nat, q: Queues) {
    Unresolved(rs, id) && id in Applied(rs) && id !in Caused(rs) && id !in q.seen
  }

  ghost predicate OwedOk(rs: seq<Record>, owed: seq<nat>, q: Queues) {
    && (forall i :: 0 <= i < |owed| ==> OwedAt(rs, owed[i], q))
    && (forall i, j :: 0 <= i < j < |owed| ==> owed[i] != owed[j])
  }

  ghost predicate UpOk(rs: seq<Record>, a: Actor, owed: seq<nat>) {
    HeldOk(rs, a.q) && TurnOk(rs, a.turn) && OwedOk(rs, owed, a.q)
  }

  ghost predicate SysInv(sys: System) {
    && JournalOk(sys.records)
    && (sys.host.Up? ==> Inv(sys.host.actor))
    && (sys.host.Up? && sys.host.actor.exit.Open? ==> UpOk(sys.records, sys.host.actor, Ids(sys.host.owed)))
  }

  // ---------------------------------------------------------------- appending records

  lemma Appended(rs: seq<Record>, r: Record)
    ensures Applied(rs + [r]) == if Applies(r) && r.id !in Applied(rs) then Applied(rs) + [r.id] else Applied(rs)
    ensures Caused(rs + [r]) == if r.Event? && r.cause != 0 then Caused(rs) + {r.cause} else Caused(rs)
    ensures Resolved(rs + [r]) == if r.Event? && r.resolving then Resolved(rs) + multiset{r.cause} else Resolved(rs)
  {
    assert (rs + [r])[..|rs|] == rs;
  }

  lemma {:induction false} PostIs(rs: seq<Record>, answers: seq<Answer>, kept: set<nat>, id: nat)
    ensures Applied(Post(rs, answers, kept)) == Applied(rs)
    ensures Resolved(rs)[id] <= Resolved(Post(rs, answers, kept))[id]
    ensures Resolved(Post(rs, answers, kept))[id] <= Resolved(rs)[id] + multiset(Answered(answers))[id]
    ensures id in Caused(Post(rs, answers, kept)) ==>
      id in Caused(rs) || Resolved(rs)[id] < Resolved(Post(rs, answers, kept))[id]
    ensures Answer(id, Started) in answers ==> Resolved(rs)[id] < Resolved(Post(rs, answers, kept))[id]
    decreases |answers|
  {
    if answers != [] {
      var r := answers[0];
      Appended(rs, Event(r.id, true));
      PostIs(if Durable(r, kept) then rs + [Event(r.id, true)] else rs, answers[1..], kept, id);
      assert Answered(answers) == [r.id] + Answered(answers[1..]);
    }
  }

  // ---------------------------------------------------------------- one step of the actor

  lemma {:induction false} InNames(es: seq<Entry>, id: nat)
    ensures multiset(Names(es))[id] > 0 <==> id in Names(es)
  {
    assert id in multiset(Names(es)) <==> id in Names(es);
  }

  lemma Counted(q: Queues, id: nat)
    requires Conserved(q)
    ensures multiset(Names(q.draining + q.inbox))[id] + multiset(Answered(q.answers))[id] +
      multiset(Names(q.carried))[id]
      == if id in q.seen then 1 else 0
  {
    var places := multiset(Names(q.draining + q.inbox)) + multiset(Answered(q.answers)) + multiset(Names(q.carried));
    OneOfEach(q.seen, places, id);
  }

  lemma PrefixCounts(xs: seq<nat>, ys: seq<nat>, id: nat)
    requires xs <= ys
    ensures multiset(ys)[id] == multiset(xs)[id] + multiset(ys[|xs|..])[id]
  {
    assert ys == xs + ys[|xs|..];
  }

  /** Where a name can be after a step, from where it was before. */
  ghost predicate Traced(a: Actor, b: Actor, entering: set<nat>, id: nat) {
    && multiset(Answered(Delta(a, b)))[id] <= 1
    && (id in Answered(Delta(a, b)) ==> id in Names(a.q.draining + a.q.inbox) || (id in entering && id !in a.q.seen))
    && (id in Names(b.q.draining + b.q.inbox) ==>
          id !in Answered(Delta(a, b)) && (id in Names(a.q.draining + a.q.inbox) || id in entering))
    && (id in b.q.seen ==> id in a.q.seen || id in entering)
  }

  lemma StepTraced(a: Actor, s: Step, id: nat)
    requires Inv(a) && Enabled(a, s)
    ensures Traced(a, Apply(a, s), NewIds(s), id)
  {
    var b := Apply(a, s);
    StepKeeps(a, s);
    StepExtends(a, s);
    StepWithin(a, s);
    Counted(a.q, id);
    Counted(b.q, id);
    TracedBy(a, b, NewIds(s), id);
  }

  lemma TracedBy(a: Actor, b: Actor, entering: set<nat>, id: nat)
    requires Extends(a.q, b.q) && b.q.seen <= a.q.seen + entering
    requires multiset(Names(a.q.draining + a.q.inbox))[id] + multiset(Answered(a.q.answers))[id] +
      multiset(Names(a.q.carried))[id]
      == if id in a.q.seen then 1 else 0
    requires multiset(Names(b.q.draining + b.q.inbox))[id] + multiset(Answered(b.q.answers))[id] +
      multiset(Names(b.q.carried))[id]
      == if id in b.q.seen then 1 else 0
    ensures Traced(a, b, entering, id)
  {
    var delta := Delta(a, b);
    assert b.q.answers == a.q.answers + delta;
    AnsweredConcat(a.q.answers, delta);
    PrefixCounts(Answered(a.q.answers), Answered(b.q.answers), id);
    assert Answered(b.q.answers)[|Answered(a.q.answers)|..] == Answered(delta);
    assert Names(a.q.carried) <= Names(b.q.carried);
    PrefixCounts(Names(a.q.carried), Names(b.q.carried), id);
    InNames(a.q.draining + a.q.inbox, id);
    InNames(b.q.draining + b.q.inbox, id);
    assert id in multiset(Answered(delta)) <==> id in Answered(delta);
  }

  /** After a step whose own records are already appended. */
  lemma StepJournal(rs: seq<Record>, a: Actor, s: Step, kept: set<nat>)
    requires JournalOk(rs) && HeldOk(rs, a.q) && Inv(a) && Enabled(a, s)
    requires forall id :: id in NewIds(s) ==> Unresolved(rs, id)
    ensures JournalOk(Post(rs, Delta(a, Apply(a, s)), kept))
  {
    var delta := Delta(a, Apply(a, s));
    PostIs(rs, delta, kept, 0);
    forall id ensures Settled(Post(rs, delta, kept), id) {
      StepTraced(a, s, id);
      PostIs(rs, delta, kept, id);
      assert Settled(rs, id);
      assert id in multiset(Answered(delta)) <==> id in Answered(delta);
    }
  }

  lemma StepHeld(rs: seq<Record>, a: Actor, s: Step, kept: set<nat>)
    requires HeldOk(rs, a.q) && Inv(a) && Enabled(a, s)
    requires forall id :: id in NewIds(s) ==>
      Unresolved(rs, id) && (s.RuntimeStep? && Apply(a, s) != a ==> id in Applied(rs))
    ensures HeldOk(Post(rs, Delta(a, Apply(a, s)), kept), Apply(a, s).q)
  {
    var b := Apply(a, s);
    var delta := Delta(a, b);
    forall id | id in Names(b.q.draining + b.q.inbox) ensures Unresolved(Post(rs, delta, kept), id) {
      StepTraced(a, s, id);
      PostIs(rs, delta, kept, id);
      assert id in multiset(Answered(delta)) <==> id in Answered(delta);
    }
    PostIs(rs, delta, kept, 0);
    StepWithin(a, s);
  }

  lemma StartIsLast(a: Actor, b: Actor, id: nat)
    requires |a.q.answers| < |b.q.answers| && b.q.answers[|b.q.answers| - 1] == Answer(id, Started)
    ensures Delta(a, b) != [] && Delta(a, b)[|Delta(a, b)| - 1] == Answer(id, Started)
    ensures exists r :: r in Delta(a, b) && r == Answer(id, Started)
  {
    assert Delta(a, b)[|Delta(a, b)| - 1] in Delta(a, b);
  }

  lemma StepTurn(rs: seq<Record>, a: Actor, s: Step, kept: set<nat>)
    requires TurnOk(rs, a.turn) && Inv(a) && Enabled(a, s) && Apply(a, s).exit.Open?
    requires JournalOk(Post(rs, Delta(a, Apply(a, s)), kept))
    requires s.ResumeStep? && s.cause != 0 ==> Resolved(rs)[s.cause] == 1
    ensures TurnOk(Post(rs, Delta(a, Apply(a, s)), kept), Apply(a, s).turn)
  {
    if Apply(a, s).turn.live {
      StepCause(a, s);
      TurnAfter(rs, a, Apply(a, s), kept, s.ResumeStep? && Apply(a, s).turn.causation == s.cause);
    }
  }

  /** A live turn whose opening event is in the journal, before the step, by it, or before a restart. */
  lemma TurnAfter(rs: seq<Record>, a: Actor, b: Actor, kept: set<nat>, resumed: bool)
    requires TurnOk(rs, a.turn) && JournalOk(Post(rs, Delta(a, b), kept))
    requires (a.turn.live && b.turn.causation == a.turn.causation) || JustStarted(a.q, b) || resumed
    requires resumed && b.turn.causation != 0 ==> Resolved(rs)[b.turn.causation] == 1
    ensures TurnOk(Post(rs, Delta(a, b), kept), b.turn)
  {
    var id, delta := b.turn.causation, Delta(a, b);
    if b.turn.live && id != 0 {
      PostIs(rs, delta, kept, id);
      assert Settled(Post(rs, delta, kept), id);
      if JustStarted(a.q, b) { StartIsLast(a, b, id); }
    }
  }

  lemma StepOwed(rs: seq<Record>, a: Actor, s: Step, kept: set<nat>, owed: seq<nat>)
    requires OwedOk(rs, owed, a.q) && Inv(a) && Enabled(a, s)
    requires forall id :: id in NewIds(s) ==> id !in owed
    ensures OwedOk(Post(rs, Delta(a, Apply(a, s)), kept), owed, Apply(a, s).q)
  {
    var b := Apply(a, s);
    var delta := Delta(a, b);
    forall i | 0 <= i < |owed| ensures OwedAt(Post(rs, delta, kept), owed[i], b.q) {
      var id := owed[i];
      assert OwedAt(rs, id, a.q);
      StepTraced(a, s, id);
      PostIs(rs, delta, kept, id);
      QueuedIsSeen(a.q, id);
      assert id in multiset(Answered(delta)) <==> id in Answered(delta);
    }
  }

  lemma QueuedIsSeen(q: Queues, id: nat)
    requires Conserved(q)
    ensures id in Names(q.draining + q.inbox) ==> id in q.seen
  {
    Counted(q, id);
    InNames(q.draining + q.inbox, id);
  }

  lemma StepUp(rs: seq<Record>, a: Actor, s: Step, kept: set<nat>, owed: seq<Replay>)
    requires JournalOk(rs) && UpOk(rs, a, Ids(owed)) && Inv(a) && Enabled(a, s)
    requires forall id :: id in NewIds(s) ==>
      Unresolved(rs, id) && id !in Ids(owed) && (s.RuntimeStep? && Apply(a, s) != a ==> id in Applied(rs))
    requires s.ResumeStep? && s.cause != 0 ==> Resolved(rs)[s.cause] == 1
    ensures SysInv(System(Post(rs, Delta(a, Apply(a, s)), kept), Up(Apply(a, s), owed)))
  {
    StepKeeps(a, s);
    StepJournal(rs, a, s, kept);
    StepHeld(rs, a, s, kept);
    StepOwed(rs, a, s, kept, Ids(owed));
    if Apply(a, s).exit.Open? { StepTurn(rs, a, s, kept); }
  }

  // ---------------------------------------------------------------- every move

  /** Appending a record that resolves nothing, about an id nobody holds as resolved. */
  lemma AppendKeeps(rs: seq<Record>, r: Record, a: Actor, owed: seq<nat>)
    requires JournalOk(rs) && UpOk(rs, a, owed)
    requires (r.Event? ==> !r.resolving && r.cause !in Applied(rs) && r.cause !in owed)
    requires (Applies(r) ==> r.id != 0 && r.id !in Caused(rs))
    ensures JournalOk(rs + [r]) && UpOk(rs + [r], a, owed)
  {
    Appended(rs, r);
    forall id ensures Settled(rs + [r], id) {
      assert Settled(rs, id);
    }
  }

  lemma ActKeeps(sys: System, m: Move)
    requires SysInv(sys) && May(sys, m) && m.Act?
    ensures SysInv(Take(sys, m))
  {
    var a, owed := sys.host.actor, sys.host.owed;
    var before := Before(a, m.s, m.ambiguous);
    if before != [] {
      assert m.s.e.id in NewIds(m.s);
      AppendKeeps(sys.records, before[0], a, Ids(owed));
      Appended(sys.records, before[0]);
      assert before == [before[0]];
    } else {
      assert sys.records + before == sys.records;
    }
    StepUp(sys.records + before, a, m.s, m.kept, owed);
  }

  lemma OfferKeeps(sys: System, m: Move)
    requires SysInv(sys) && May(sys, m) && m.Offer?
    ensures SysInv(Take(sys, m))
  {
    var a, owed := sys.host.actor, sys.host.owed;
    var s := RuntimeStep(m.e, false, m.fault, NoCommit, m.startOk);
    assert OwedAt(sys.records, Ids(owed)[0], a.q);
    assert Ids(owed[1..]) == Ids(owed)[1..];
    assert OwedOk(sys.records, Ids(owed[1..]), a.q);
    StepUp(sys.records, a, s, m.kept, owed[1..]);
  }

  lemma RestoreKeeps(rs: seq<Record>, gated: bool)
    requires JournalOk(rs)
    ensures SysInv(System(rs, Up(Init(gated), Plan(rs))))
  {
    var ids := Ids(Plan(rs));
    var at := PlanOrdered(rs);
    forall i | 0 <= i < |ids| ensures OwedAt(rs, ids[i], Init(gated).q) {
      assert ids[i] in ids;
      SelectIs(Applied(rs), Caused(rs), Intents(rs), ids[i]);
      assert Settled(rs, ids[i]);
      UncausedUnresolved(rs, ids[i]);
    }
    assert multiset(Names([] + [])) == multiset{};
  }

  lemma {:induction false} UncausedUnresolved(rs: seq<Record>, id: nat)
    requires id != 0 && id !in Caused(rs)
    ensures Resolved(rs)[id] == 0
  {
    if rs != [] { UncausedUnresolved(rs[..|rs| - 1], id); }
  }

  lemma MoveKeeps(sys: System, m: Move)
    requires SysInv(sys) && May(sys, m)
    ensures SysInv(Take(sys, m))
  {
    match m
    case Act(_, _, _) => ActKeeps(sys, m);
    case Offer(_, _, _, _) => OfferKeeps(sys, m);
    case Append(r) => OtherAppendKeeps(sys, r);
    case FollowUp => FollowUpKeeps(sys);
    case Crash =>
    case Restore(gated) => RestoreKeeps(sys.records, gated);
  }

  lemma OtherAppendKeeps(sys: System, r: Record)
    requires SysInv(sys) && (r.Command? || (r.Disposition? && !Applies(r)))
    ensures SysInv(sys.(records := sys.records + [r]))
  {
    Appended(sys.records, r);
    forall id ensures Settled(sys.records + [r], id) {
      assert Settled(sys.records, id);
    }
  }

  lemma FollowUpKeeps(sys: System)
    requires SysInv(sys) && May(sys, FollowUp)
    ensures SysInv(Take(sys, FollowUp))
  {
    var cause := sys.host.actor.turn.causation;
    Appended(sys.records, Event(cause, false));
    forall id ensures Settled(sys.records + [Event(cause, false)], id) {
      assert Settled(sys.records, id);
    }
  }

  lemma {:induction false} RunKeepsSystem(states: seq<System>, moves: seq<Move>, k: nat)
    requires Run(states, moves) && k < |states|
    ensures SysInv(states[k])
  {
    if k > 0 {
      RunKeepsSystem(states, moves, k - 1);
      MoveKeeps(states[k - 1], moves[k - 1]);
    }
  }

  // ---------------------------------------------------------------- the main results

  /** An input whose applied disposition and non-empty intent are in the journal. */
  predicate Due(rs: seq<Record>, id: nat) { id in Applied(rs) && id in Intents(rs) && Intents(rs)[id].blocks > 0 }

  /** Over every run of admissions, ambiguous commits, starts, folds, cancels, shutdowns, crashes and
      restores: an input that is due has exactly one durable resolving event and is in no later plan,
      or it has none and the next restore offers it again, once. */
  lemma NeverLostNeverTwice(states: seq<System>, moves: seq<Move>, k: nat, id: nat)
    requires Run(states, moves) && k < |states| && Due(states[k].records, id)
    ensures
      var rs := states[k].records;
      || (Resolved(rs)[id] == 1 && id !in Ids(Plan(rs)))
      || (Resolved(rs)[id] == 0 && multiset(Ids(Plan(rs)))[id] == 1)
  {
    RunKeepsSystem(states, moves, k);
    var rs := states[k].records;
    assert Settled(rs, id);
    SelectIs(Applied(rs), Caused(rs), Intents(rs), id);
    if id !in Caused(rs) {
      UncausedUnresolved(rs, id);
      var at := PlanOrdered(rs);
      OnceIn(Ids(Plan(rs)), id);
    }
  }

  lemma {:induction false} OnceIn(ids: seq<nat>, id: nat)
    requires id in ids && forall k, l :: 0 <= k < l < |ids| ==> ids[k] != ids[l]
    ensures multiset(ids)[id] == 1
  {
    var i :| 0 <= i < |ids| && ids[i] == id;
    assert ids == ids[..i] + [id] + ids[i + 1..];
    assert id !in multiset(ids[..i]) && id !in multiset(ids[i + 1..]);
  }

  /** Whatever the actor holds as carry-over is safe to lose: were the process to crash now, the
      journal already says it is applied and unresolved, so a recorded intent brings it back. */
  lemma HeldIsRecoverable(states: seq<System>, moves: seq<Move>, k: nat, e: Entry)
    requires Run(states, moves) && k < |states| && states[k].host.Up? && states[k].host.actor.exit.Open?
    requires e in states[k].host.actor.q.draining + states[k].host.actor.q.inbox && e.carryOver
    ensures
      var rs := states[k].records;
      Resolved(rs)[e.id] == 0 && e.id in Applied(rs)
        && (e.id in Intents(rs) && Intents(rs)[e.id].blocks > 0 ==> e.id in Ids(Plan(rs)))
  {
    RunKeepsSystem(states, moves, k);
    var rs, q := states[k].records, states[k].host.actor.q;
    var all := q.draining + q.inbox;
    var i :| 0 <= i < |all| && all[i] == e;
    assert Names(all)[i] == e.id;
    assert Unresolved(rs, e.id);
    assert Holds(q, e);
    assert Settled(rs, e.id);
    SelectIs(Applied(rs), Caused(rs), Intents(rs), e.id);
  }

  /** A replay the actor takes is from then on in exactly one place: queued, draining, answered or carried
      over. One it refuses changes nothing in the actor, stays unresolved in the journal, and with a
      recorded intent is planned again by the next restore. */
  lemma OfferIsHeldOrAnswered(states: seq<System>, moves: seq<Move>, k: nat)
    requires Run(states, moves) && k < |moves| && moves[k].Offer?
    ensures
      var before, after, id := states[k].host.actor, states[k + 1], moves[k].e.id;
      if ReachesCommit(before, false, moves[k].fault) then Places(after.host.actor.q, id) == 1
      else
        && after.host.actor == before && Places(before.q, id) == 0 && Resolved(after.records)[id] == 0
        && (Due(after.records, id) ==> id in Ids(Plan(after.records)))
  {
    RunKeepsSystem(states, moves, k);
    RunKeepsSystem(states, moves, k + 1);
    var before, after, id := states[k].host.actor, states[k + 1], moves[k].e.id;
    var q := after.host.actor.q;
    NamesConcat(q.draining, q.inbox);
    Counted(q, id);
    assert OwedAt(states[k].records, Ids(states[k].host.owed)[0], before.q);
    if ReachesCommit(before, false, moves[k].fault) {
      OfferIsSeen(before, moves[k].e, moves[k].fault, moves[k].startOk);
    } else {
      assert after.records == states[k].records;
      SelectIs(Applied(after.records), Caused(after.records), Intents(after.records), id);
    }
  }

  // ---------------------------------------------------------------- what is offered

  lemma LongerAsRecorded(rs: seq<Record>, more: seq<Record>, r: Replay)
    requires AsRecorded(rs, r) && rs <= more
    ensures AsRecorded(more, r)
  {
    var i :| FirstIntent(rs, i, r.intent) && rs[i].id == r.id;
    assert FirstIntent(more, i, r.intent) && more[i].id == r.id;
  }

  lemma {:induction false} PostGrows(rs: seq<Record>, answers: seq<Answer>, kept: set<nat>)
    ensures rs <= Post(rs, answers, kept)
    decreases |answers|
  {
    if answers != [] {
      PostGrows(if Durable(answers[0], kept) then rs + [Event(answers[0].id, true)] else rs, answers[1..], kept);
    }
  }

  lemma JournalGrows(sys: System, m: Move)
    requires May(sys, m)
    ensures sys.records <= Take(sys, m).records
  {
    match m
    case Act(s, ambiguous, kept) =>
      var a := sys.host.actor;
      PostGrows(sys.records + Before(a, s, ambiguous), Delta(a, Apply(a, s)), kept);
    case Offer(fault, startOk, e, kept) =>
      var a := sys.host.actor;
      PostGrows(sys.records, Delta(a, Runtime(a, e, false, fault, NoCommit, startOk)), kept);
    case _ =>
  }

  ghost predicate AllAsRecorded(sys: System) {
    sys.host.Up? ==> forall i :: 0 <= i < |sys.host.owed| ==> AsRecorded(sys.records, sys.host.owed[i])
  }

  lemma MoveAsRecorded(sys: System, m: Move)
    requires May(sys, m) && AllAsRecorded(sys)
    ensures AllAsRecorded(Take(sys, m))
  {
    var next := Take(sys, m);
    JournalGrows(sys, m);
    if next.host.Up? {
      forall i | 0 <= i < |next.host.owed| ensures AsRecorded(next.records, next.host.owed[i]) {
        if m.Restore? {
          PlanAsRecorded(sys.records, i);
        } else {
          LongerAsRecorded(sys.records, next.records, next.host.owed[i]);
        }
      }
    }
  }

  /** Over every run, whatever a restore still has to offer, and so whatever it offers, is an input as the
      journal first recorded it, for the loop it was recorded for, however much was recorded since. */
  lemma {:induction false} OffersAsRecorded(states: seq<System>, moves: seq<Move>, k: nat)
    requires Run(states, moves) && k < |states|
    ensures AllAsRecorded(states[k])
    ensures k < |moves| && moves[k].Offer? ==>
      states[k].host.owed[0].id == moves[k].e.id && AsRecorded(states[k].records, states[k].host.owed[0])
  {
    if k > 0 {
      OffersAsRecorded(states, moves, k - 1);
      MoveAsRecorded(states[k - 1], moves[k - 1]);
    }
  }

  lemma OfferIsSeen(a: Actor, e: Entry, fault: bool, startOk: bool)
    requires ReachesCommit(a, false, fault)
    ensures e.id in Runtime(a, e, false, fault, NoCommit, startOk).q.seen
  {
  }
}
