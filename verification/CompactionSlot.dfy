/** The single compaction slot and its once-only terminal (internal/loopruntime: compaction_control.go,
    compaction_finalization.go and the rejections of loop.go).

    A command opens an attempt or joins the pending one; the attempt is rejected at a boundary or
    finalized with one terminal; either way each waiter is told. A failed append or mint is an
    infrastructure failure after which nothing more is claimed. */
module CompactionSlot {
  import opened Options

  // ---------------------------------------------------------------- the data

  /** A waiting command; `created` and then the id order them. */
  datatype Waiter = Waiter(created: nat, id: nat)

  datatype Basis = Basis(revision: nat, through: nat)

  const NO_BASIS := Basis(0, 0)

  datatype Pending = Pending(attempt: nat, waiters: seq<Waiter>, basis: Basis, inProgress: bool)

  datatype Control = Control(capacity: nat, pending: Option<Pending>, interrupting: bool, shuttingDown: bool)

  datatype Admission =
    | Opened(attempt: nat) | Joined(attempt: nat) | Duplicate(attempt: nat) | LaneFull(attempt: nat) | NoId

  // ---------------------------------------------------------------- canonical order

  predicate Before(a: Waiter, b: Waiter) { a.created < b.created || (a.created == b.created && a.id < b.id) }

  predicate Sorted(ws: seq<Waiter>) { forall i, j :: 0 <= i < j < |ws| ==> Before(ws[i], ws[j]) }

  predicate Distinct(ws: seq<Waiter>) { forall i, j :: 0 <= i < j < |ws| ==> ws[i].id != ws[j].id }

  predicate Waits(ws: seq<Waiter>, id: nat) { exists i :: 0 <= i < |ws| && ws[i].id == id }

  /** Appending and sorting, for a list already in order. */
  function Insert(ws: seq<Waiter>, w: Waiter): seq<Waiter> {
    if ws == [] then [w]
    else
      var init, last := ws[..|ws| - 1], ws[|ws| - 1];
      if Before(last, w) then ws + [w] else Insert(init, w) + [last]
  }

  lemma {:induction false} InsertHas(ws: seq<Waiter>, w: Waiter)
    ensures multiset(Insert(ws, w)) == multiset(ws) + multiset{w} && |Insert(ws, w)| == |ws| + 1
  {
    if ws != [] {
      var init, last := ws[..|ws| - 1], ws[|ws| - 1];
      assert ws == init + [last];
      if !Before(last, w) { InsertHas(init, w); }
    }
  }

  lemma InsertHolds(ws: seq<Waiter>, w: Waiter, v: Waiter)
    ensures v in Insert(ws, w) <==> v in ws || v == w
  {
    InsertHas(ws, w);
    assert v in multiset(Insert(ws, w)) <==> v in Insert(ws, w);
    assert v in multiset(ws) <==> v in ws;
  }

  lemma AppendSorted(ws: seq<Waiter>, last: Waiter)
    requires Sorted(ws) && forall i :: 0 <= i < |ws| ==> Before(ws[i], last)
    ensures Sorted(ws + [last])
  {
  }

  lemma {:induction false} InsertSorted(ws: seq<Waiter>, w: Waiter)
    requires Sorted(ws) && forall i :: 0 <= i < |ws| ==> ws[i].id != w.id
    ensures Sorted(Insert(ws, w))
  {
    if ws != [] {
      var init, last := ws[..|ws| - 1], ws[|ws| - 1];
      if Before(last, w) {
        AppendSorted(ws, w);
      } else {
        InsertSorted(init, w);
        forall i | 0 <= i < |Insert(init, w)| ensures Before(Insert(init, w)[i], last) {
          InsertHolds(init, w, Insert(init, w)[i]);
        }
        AppendSorted(Insert(init, w), last);
      }
    }
  }

  /** In this order the first element is the least. */
  lemma FirstIsLeast(a: seq<Waiter>, x: Waiter)
    requires Sorted(a) && x in a
    ensures a[0] == x || Before(a[0], x)
  {
  }

  lemma TailHas(a: seq<Waiter>)
    requires a != []
    ensures multiset(a) == multiset{a[0]} + multiset(a[1..])
  {
    assert a == [a[0]] + a[1..];
  }

  /** Two lists in this order with the same elements are the same list. */
  lemma {:induction false} SortedIsUnique(a: seq<Waiter>, b: seq<Waiter>)
    requires Sorted(a) && Sorted(b) && multiset(a) == multiset(b)
    ensures a == b
  {
    assert |multiset(a)| == |a| && |multiset(b)| == |b|;
    if a != [] {
      assert a[0] in multiset(b) && b[0] in multiset(a);
      FirstIsLeast(a, b[0]);
      FirstIsLeast(b, a[0]);
      TailHas(a);
      TailHas(b);
      assert multiset(a[1..]) == multiset(a) - multiset{a[0]} && multiset(b[1..]) == multiset(b) - multiset{a[0]};
      SortedIsUnique(a[1..], b[1..]);
    }
  }

  /** However the joined list is sorted, it is the inserted one. */
  lemma SortIsInsert(ws: seq<Waiter>, w: Waiter, sorted: seq<Waiter>)
    requires Sorted(ws) && !Waits(ws, w.id) && Sorted(sorted) && multiset(sorted) == multiset(ws + [w])
    ensures sorted == Insert(ws, w)
  {
    InsertHas(ws, w);
    InsertSorted(ws, w);
    SortedIsUnique(sorted, Insert(ws, w));
  }

  // ---------------------------------------------------------------- the slot

  function Join(c: Control, w: Waiter): (Control, Admission)
    requires c.pending.Some?
  {
    var p := c.pending.value;
    if Waits(p.waiters, w.id) then (c, Duplicate(p.attempt))
    else if |p.waiters| >= c.capacity then (c, LaneFull(p.attempt))
    else (c.(pending := Some(p.(waiters := Insert(p.waiters, w)))), Joined(p.attempt))
  }

  /** `admit`; an id of zero is a failed mint. */
  function Admit(c: Control, w: Waiter, freshId: nat): (Control, Admission) {
    if c.pending.Some? then Join(c, w)
    else if freshId == 0 then (c, NoId)
    else (c.(pending := Some(Pending(freshId, [w], NO_BASIS, false))), Opened(freshId))
  }

  function FreezeBasis(c: Control, attempt: nat, basis: Basis): Option<Control> {
    if c.pending.None? || c.pending.value.attempt != attempt || basis.revision == 0 || basis.through == 0 then None
    else if c.pending.value.basis != NO_BASIS && c.pending.value.basis != basis then None
    else Some(c.(pending := Some(c.pending.value.(basis := basis))))
  }

  datatype Disposition = Nothing | Start(p: Pending) | Reject(p: Pending)

  /** `atBoundary`: shutdown and interrupt outrank starting. */
  function AtBoundary(c: Control): (Control, Disposition) {
    if c.pending.None? || c.pending.value.inProgress then (c, Nothing)
    else if c.shuttingDown || c.interrupting then (c.(pending := None, interrupting := false), Reject(c.pending.value))
    else (c.(pending := Some(c.pending.value.(inProgress := true))), Start(c.pending.value.(inProgress := true)))
  }

  /** `abort` and `complete`. */
  function Clear(c: Control, attempt: nat): Control {
    if c.pending.None? || c.pending.value.attempt != attempt then c else c.(pending := None, interrupting := false)
  }

  // ---------------------------------------------------------------- what is published

  datatype Outcome = Outcome(attempt: nat, command: nat, resolved: bool)

  /** The durable log: terminals, waiter outcomes, and refusals for want of room. */
  datatype Log = Log(terminals: seq<(nat, bool)>, outcomes: seq<Outcome>, refusals: seq<(nat, nat)>)

  const EMPTY_LOG := Log([], [], [])

  function Told(attempt: nat, ws: seq<Waiter>, resolved: bool): seq<Outcome> {
    seq(|ws|, i requires 0 <= i < |ws| => Outcome(attempt, ws[i].id, resolved))
  }

  /** Telling the waiters in order, up to the first append that fails. */
  function TellAll(log: Log, p: Pending, resolved: bool, delivered: nat): Log {
    var told := if delivered < |p.waiters| then delivered else |p.waiters|;
    log.(outcomes := log.outcomes + Told(p.attempt, p.waiters[..told], resolved))
  }

  datatype Finalizer = Finalizer(records: map<nat, bool>, log: Log)

  /** `Finalize`: the first terminal of an attempt stands; the waiters are told after it is appended. The
      flag says whether everything was appended. */
  function Finalize(f: Finalizer, p: Pending, committed: bool, appended: bool, delivered: nat): (Finalizer, bool) {
    if p.attempt in f.records then (f, true)
    else if !appended then (f, false)
    else (Finalizer(f.records[p.attempt := committed],
                    TellAll(f.log.(terminals := f.log.terminals + [(p.attempt, committed)]), p, committed, delivered)),
          delivered >= |p.waiters|)
  }

  // ---------------------------------------------------------------- the objects

  class CompactionControl {
    const waiterCapacity: nat
    var pending: Option<Pending>
    var interrupting: bool
    var shuttingDown: bool

    ghost function State(): Control
      reads this
    {
      Control(waiterCapacity, pending, interrupting, shuttingDown)
    }

    constructor (capacity: nat)
      ensures State() == Control(if capacity == 0 then 64 else capacity, None, false, false)
    {
      waiterCapacity := if capacity == 0 then 64 else capacity;
      pending, interrupting, shuttingDown := None, false, false;
    }

    /** The search for a waiter of the same command. */
    method FindWaiter(ws: seq<Waiter>, id: nat) returns (found: bool)
      ensures found == Waits(ws, id)
    {
      var i := 0;
      while i < |ws|
        invariant i <= |ws| && forall j :: 0 <= j < i ==> ws[j].id != id
      {
        if ws[i].id == id { return true; }
        i := i + 1;
      }
      return false;
    }

    /** Sorting the list after an append, one element being out of place. */
    method SortLast(ws: seq<Waiter>, w: Waiter) returns (sorted: seq<Waiter>)
      requires Sorted(ws) && !Waits(ws, w.id)
      ensures sorted == Insert(ws, w)
    {
      var i: nat := |ws|;
      assert ws[..i] == ws && ws[i..] == [];
      while i > 0 && !Before(ws[i - 1], w)
        invariant i <= |ws| && Insert(ws, w) == Insert(ws[..i], w) + ws[i..]
      {
        assert ws[..i][..i - 1] == ws[..i - 1] && ws[i - 1..] == [ws[i - 1]] + ws[i..];
        i := i - 1;
      }
      sorted := ws[..i] + [w] + ws[i..];
      if i > 0 { assert ws[..i][i - 1] == ws[i - 1]; }
    }

    method AdmitCommand(w: Waiter, freshId: nat) returns (admission: Admission)
      requires pending.Some? ==> Sorted(pending.value.waiters)
      modifies this`pending
      ensures (State(), admission) == Admit(old(State()), w, freshId)
    {
      if pending.Some? {
        var p := pending.value;
        var duplicate := FindWaiter(p.waiters, w.id);
        if duplicate { return Duplicate(p.attempt); }
        if |p.waiters| >= waiterCapacity { return LaneFull(p.attempt); }
        var sorted := SortLast(p.waiters, w);
        pending := Some(p.(waiters := sorted));
        return Joined(p.attempt);
      }
      if freshId == 0 { return NoId; }
      pending := Some(Pending(freshId, [w], NO_BASIS, false));
      return Opened(freshId);
    }

    method ReachBoundary() returns (d: Disposition)
      modifies this`pending, this`interrupting
      ensures (State(), d) == AtBoundary(old(State()))
    {
      if pending.None? || pending.value.inProgress { return Nothing; }
      if shuttingDown || interrupting {
        d := Reject(pending.value);
        pending, interrupting := None, false;
        return;
      }
      pending := Some(pending.value.(inProgress := true));
      return Start(pending.value);
    }

    method CompleteAttempt(attempt: nat)
      modifies this`pending, this`interrupting
      ensures State() == Clear(old(State()), attempt)
    {
      if pending.Some? && pending.value.attempt == attempt {
        pending, interrupting := None, false;
      }
    }
  }

  class CompactionFinalizer {
    var records: map<nat, bool>
    var log: Log

    ghost function State(): Finalizer
      reads this
    {
      Finalizer(records, log)
    }

    constructor ()
      ensures State() == Finalizer(map[], EMPTY_LOG)
    {
      records, log := map[], EMPTY_LOG;
    }

    method PublishWaiterOutcomes(p: Pending, resolved: bool, delivered: nat) returns (ok: bool)
      modifies this`log
      ensures log == TellAll(old(log), p, resolved, delivered)
      ensures ok <==> delivered >= |p.waiters|
    {
      var i := 0;
      while i < |p.waiters|
        invariant i <= |p.waiters| && i <= delivered
        invariant log == old(log).(outcomes := old(log).outcomes + Told(p.attempt, p.waiters[..i], resolved))
      {
        if i == delivered { return false; }
        assert Told(p.attempt, p.waiters[..i + 1], resolved) ==
          Told(p.attempt, p.waiters[..i], resolved) + [Outcome(p.attempt, p.waiters[i].id, resolved)];
        log := log.(outcomes := log.outcomes + [Outcome(p.attempt, p.waiters[i].id, resolved)]);
        i := i + 1;
      }
      return true;
    }

    method FinalizeAttempt(p: Pending, committed: bool, appended: bool, delivered: nat) returns (ok: bool)
      modifies this
      ensures (State(), ok) == Finalize(old(State()), p, committed, appended, delivered)
    {
      if p.attempt in records { return true; }
      if !appended { return false; }
      log := log.(terminals := log.terminals + [(p.attempt, committed)]);
      records := records[p.attempt := committed];
      ok := PublishWaiterOutcomes(p, committed, delivered);
    }
  }

  // ---------------------------------------------------------------- runs

  /** `admitted` are the attempts and commands that opened or joined; `used` are the attempt ids minted. */
  datatype Slot = Slot(c: Control, f: Finalizer, admitted: set<(nat, nat)>, used: set<nat>, failed: bool)

  function Init(capacity: nat): Slot {
    Slot(Control(capacity, None, false, false), Finalizer(map[], EMPTY_LOG), {}, {}, false)
  }

  datatype Step =
    | AdmitStep(w: Waiter, freshId: nat, refused: bool)
    | FreezeStep(basis: Basis)
    | InterruptStep
    | ShutdownStep
    | BoundaryStep(delivered: nat)
    | FinalizeStep(committed: bool, appended: bool, delivered: nat, abort: bool)
    | AbortStep

  /** An attempt id is minted once, and only an attempt in progress can have succeeded. */
  predicate Enabled(s: Slot, t: Step) {
    match t
    case AdmitStep(_, freshId, _) => freshId !in s.used
    case FinalizeStep(committed, _, _, _) => s.c.pending.Some? && (committed ==> s.c.pending.value.inProgress)
    case _ => true
  }

  function AdmitTo(s: Slot, w: Waiter, freshId: nat, refused: bool): Slot {
    var (c, admission) := Admit(s.c, w, freshId);
    match admission
    case Opened(a) => s.(c := c, admitted := s.admitted + {(a, w.id)}, used := s.used + {a})
    case Joined(a) => s.(c := c, admitted := s.admitted + {(a, w.id)})
    case Duplicate(_) => s
    case LaneFull(a) =>
      if refused then s.(f := s.f.(log := s.f.log.(refusals := s.f.log.refusals + [(a, w.id)]))) else s.(failed := true)
    case NoId => s.(failed := true)
  }

  /** A boundary that rejects tells every waiter; there is no terminal. */
  function ReachBoundary(s: Slot, delivered: nat): Slot {
    var (c, d) := AtBoundary(s.c);
    match d
    case Nothing => s
    case Start(_) => s.(c := c)
    case Reject(p) =>
      var f := s.f.(log := TellAll(s.f.log, p, false, delivered));
      s.(c := c, f := f, failed := s.failed || delivered < |p.waiters|)
  }

  /** A control signal seen before the outcome turns it into a rejection. */
  function Conclude(s: Slot, committed: bool, appended: bool, delivered: nat, abort: bool): Slot
    requires s.c.pending.Some?
  {
    var p := s.c.pending.value;
    var (f, ok) := Finalize(s.f, p, committed && !s.c.shuttingDown && !s.c.interrupting, appended, delivered);
    s.(f := f, failed := s.failed || !ok, c := if ok || abort then Clear(s.c, p.attempt) else s.c)
  }

  function Apply(s: Slot, t: Step): Slot
    requires Enabled(s, t)
  {
    match t
    case AdmitStep(w, freshId, refused) => AdmitTo(s, w, freshId, refused)
    case FreezeStep(basis) =>
      if s.c.pending.None? then s
      else (match FreezeBasis(s.c, s.c.pending.value.attempt, basis) case Some(c) => s.(c := c) case None => s)
    case InterruptStep => s.(c := s.c.(interrupting := s.c.interrupting || s.c.pending.Some?))
    case ShutdownStep => s.(c := s.c.(shuttingDown := true))
    case BoundaryStep(delivered) => ReachBoundary(s, delivered)
    case FinalizeStep(committed, appended, delivered, abort) => Conclude(s, committed, appended, delivered, abort)
    case AbortStep => if s.c.pending.None? then s else s.(c := Clear(s.c, s.c.pending.value.attempt), failed := true)
  }

  ghost predicate Run(states: seq<Slot>, steps: seq<Step>) {
    && |states| == |steps| + 1 && states[0] == Init(states[0].c.capacity) && states[0].c.capacity > 0
    && forall i :: 0 <= i < |steps| ==> Enabled(states[i], steps[i]) && states[i + 1] == Apply(states[i], steps[i])
  }

  // ---------------------------------------------------------------- the invariant

  function Keys(os: seq<Outcome>): seq<(nat, nat)> {
    seq(|os|, i requires 0 <= i < |os| => (os[i].attempt, os[i].command))
  }

  function Finals(ts: seq<(nat, bool)>): seq<nat> { seq(|ts|, i requires 0 <= i < |ts| => ts[i].0) }

  function WaitingKeys(c: Control): seq<(nat, nat)> {
    if c.pending.None? then [] else Keys(Told(c.pending.value.attempt, c.pending.value.waiters, false))
  }

  /** Waiters are distinct, bounded and in canonical order. */
  predicate Canonical(c: Control) {
    c.pending.Some? ==>
      var ws := c.pending.value.waiters; Sorted(ws) && Distinct(ws) && |ws| <= c.capacity
  }

  /** The records are the terminals, one each. */
  ghost predicate Recorded(f: Finalizer) {
    && multiset(Finals(f.log.terminals)) == multiset(f.records.Keys)
    && forall i :: 0 <= i < |f.log.terminals| ==>
      f.log.terminals[i].0 in f.records && f.records[f.log.terminals[i].0] == f.log.terminals[i].1
  }

  predicate Always(s: Slot) {
    && Canonical(s.c) && (s.c.pending.Some? ==> s.c.pending.value.attempt in s.used) && s.c.capacity > 0
    && s.f.records.Keys <= s.used
  }

  /** Each admitted command waits or was told, once. */
  ghost predicate Accounted(s: Slot) {
    multiset(Keys(s.f.log.outcomes)) + multiset(WaitingKeys(s.c)) == multiset(s.admitted)
  }

  /** An outcome is of a past attempt and says what its terminal says; without a terminal, a rejection. */
  predicate Faithful(s: Slot, o: Outcome) {
    && o.attempt in s.used && (s.c.pending.Some? ==> o.attempt != s.c.pending.value.attempt)
    && (o.resolved <==> o.attempt in s.f.records && s.f.records[o.attempt])
  }

  ghost predicate Clean(s: Slot) {
    && Accounted(s) && (forall i :: 0 <= i < |s.f.log.outcomes| ==> Faithful(s, s.f.log.outcomes[i]))
    && (s.c.pending.Some? ==> s.c.pending.value.attempt !in s.f.records)
    && (forall a: nat, k: nat :: (a, k) in s.admitted ==> a in s.used)
  }

  ghost predicate Inv(s: Slot) { Always(s) && Recorded(s.f) && (!s.failed ==> Clean(s)) }

  lemma KeysConcat(a: seq<Outcome>, b: seq<Outcome>)
    ensures Keys(a + b) == Keys(a) + Keys(b)
  {
  }

  lemma ToldKeys(attempt: nat, ws: seq<Waiter>, x: bool, y: bool)
    ensures Keys(Told(attempt, ws, x)) == Keys(Told(attempt, ws, y))
  {
  }

  lemma ToldAdd(attempt: nat, ws: seq<Waiter>, w: Waiter)
    ensures Keys(Told(attempt, ws + [w], false)) == Keys(Told(attempt, ws, false)) + [(attempt, w.id)]
  {
  }

  lemma {:induction false} ToldInsert(attempt: nat, ws: seq<Waiter>, w: Waiter)
    ensures multiset(Keys(Told(attempt, Insert(ws, w), false))) ==
      multiset(Keys(Told(attempt, ws, false))) + multiset{(attempt, w.id)}
  {
    if ws == [] {
      ToldAdd(attempt, [], w);
      assert [] + [w] == [w];
    } else {
      var init, last := ws[..|ws| - 1], ws[|ws| - 1];
      assert ws == init + [last];
      if Before(last, w) {
        ToldAdd(attempt, ws, w);
      } else {
        ToldInsert(attempt, init, w);
        ToldAdd(attempt, Insert(init, w), last);
        ToldAdd(attempt, init, last);
      }
    }
  }

  lemma {:induction false} InsertDistinct(ws: seq<Waiter>, w: Waiter)
    requires Distinct(ws) && forall i :: 0 <= i < |ws| ==> ws[i].id != w.id
    ensures Distinct(Insert(ws, w))
  {
    if ws != [] {
      var init, last := ws[..|ws| - 1], ws[|ws| - 1];
      if !Before(last, w) {
        InsertDistinct(init, w);
        forall i | 0 <= i < |Insert(init, w)| ensures Insert(init, w)[i].id != last.id {
          InsertHolds(init, w, Insert(init, w)[i]);
        }
      }
    }
  }

  lemma JoinCanonical(c: Control, w: Waiter)
    requires Canonical(c) && c.pending.Some?
    ensures Canonical(Join(c, w).0)
  {
    var ws := c.pending.value.waiters;
    if !Waits(ws, w.id) {
      InsertHas(ws, w);
      InsertSorted(ws, w);
      InsertDistinct(ws, w);
    }
  }

  lemma Grows(all: set<(nat, nat)>, k: (nat, nat))
    requires k !in all
    ensures multiset(all + {k}) == multiset(all) + multiset{k}
  {
  }

  lemma KeyIn(xs: seq<(nat, nat)>, k: (nat, nat))
    ensures multiset(xs)[k] > 0 <==> k in xs
  {
    assert k in multiset(xs) <==> k in xs;
  }

  /** A command that neither waits nor was told for this attempt was not admitted to it. */
  lemma NotAdmitted(s: Slot, id: nat)
    requires Clean(s) && s.c.pending.Some? && !Waits(s.c.pending.value.waiters, id)
    ensures (s.c.pending.value.attempt, id) !in s.admitted
  {
    var a, k := s.c.pending.value.attempt, (s.c.pending.value.attempt, id);
    KeyIn(Keys(s.f.log.outcomes), k);
    KeyIn(WaitingKeys(s.c), k);
    assert k !in Keys(s.f.log.outcomes);
    assert k !in WaitingKeys(s.c);
    assert k in multiset(s.admitted) <==> k in s.admitted;
  }

  lemma OpenClean(s: Slot, w: Waiter, freshId: nat)
    requires Clean(s) && Always(s) && s.c.pending.None? && freshId != 0 && freshId !in s.used
    ensures Clean(AdmitTo(s, w, freshId, false))
  {
    var t := AdmitTo(s, w, freshId, false);
    Grows(s.admitted, (freshId, w.id));
    ToldAdd(freshId, [], w);
    assert [] + [w] == [w];
    forall i | 0 <= i < |s.f.log.outcomes| ensures Faithful(t, s.f.log.outcomes[i]) {
      assert Faithful(s, s.f.log.outcomes[i]);
    }
  }

  lemma JoinClean(s: Slot, w: Waiter)
    requires Clean(s) && Always(s) && s.c.pending.Some? && Join(s.c, w).1.Joined?
    ensures Clean(AdmitTo(s, w, 0, false))
  {
    var p, t := s.c.pending.value, AdmitTo(s, w, 0, false);
    NotAdmitted(s, w.id);
    Grows(s.admitted, (p.attempt, w.id));
    ToldInsert(p.attempt, p.waiters, w);
    forall i | 0 <= i < |s.f.log.outcomes| ensures Faithful(t, s.f.log.outcomes[i]) {
      assert Faithful(s, s.f.log.outcomes[i]);
    }
  }

  lemma JoinKeeps(s: Slot, w: Waiter, freshId: nat, refused: bool)
    requires Inv(s) && s.c.pending.Some?
    ensures Inv(AdmitTo(s, w, freshId, refused))
  {
    JoinCanonical(s.c, w);
    if Join(s.c, w).1.Joined? {
      if !s.failed { JoinClean(s, w); }
    } else {
      UnjoinedKeeps(s, w, freshId, refused);
    }
  }

  lemma UnjoinedKeeps(s: Slot, w: Waiter, freshId: nat, refused: bool)
    requires Inv(s) && s.c.pending.Some? && !Join(s.c, w).1.Joined?
    ensures Inv(AdmitTo(s, w, freshId, refused))
  {
    var t := AdmitTo(s, w, freshId, refused);
    assert t.c == s.c && t.f.records == s.f.records && t.f.log.outcomes == s.f.log.outcomes &&
      t.f.log.terminals == s.f.log.terminals;
    if !t.failed {
      forall i | 0 <= i < |s.f.log.outcomes| ensures Faithful(t, s.f.log.outcomes[i]) {
        assert Faithful(s, s.f.log.outcomes[i]);
      }
    }
  }

  lemma AdmitKeeps(s: Slot, w: Waiter, freshId: nat, refused: bool)
    requires Inv(s) && freshId !in s.used
    ensures Inv(AdmitTo(s, w, freshId, refused))
  {
    if s.c.pending.Some? {
      JoinKeeps(s, w, freshId, refused);
    } else if !s.failed && freshId != 0 {
      OpenClean(s, w, freshId);
    }
  }

  /** The waiters of a pending attempt become its outcomes. */
  lemma TellAccounts(log: Log, p: Pending, resolved: bool, delivered: nat, all: set<(nat, nat)>)
    requires multiset(Keys(log.outcomes)) + multiset(Keys(Told(p.attempt, p.waiters, false))) == multiset(all)
    requires delivered >= |p.waiters|
    ensures multiset(Keys(TellAll(log, p, resolved, delivered).outcomes)) == multiset(all)
  {
    assert p.waiters[..|p.waiters|] == p.waiters;
    KeysConcat(log.outcomes, Told(p.attempt, p.waiters, resolved));
    ToldKeys(p.attempt, p.waiters, resolved, false);
  }

  /** Once the waiters are told and the slot is clear, every outcome is faithful. */
  lemma TellFaithful(s: Slot, t: Slot, p: Pending, resolved: bool, delivered: nat)
    requires Clean(s) && Always(s) && s.c.pending == Some(p) && t.c.pending.None? && t.used == s.used
    requires t.f.log.outcomes == TellAll(s.f.log, p, resolved, delivered).outcomes
    requires (resolved <==> p.attempt in t.f.records && t.f.records[p.attempt])
    requires forall a :: a != p.attempt ==>
      (a in t.f.records <==> a in s.f.records) && (a in s.f.records ==> t.f.records[a] == s.f.records[a])
    ensures forall i :: 0 <= i < |t.f.log.outcomes| ==> Faithful(t, t.f.log.outcomes[i])
  {
    forall i | 0 <= i < |t.f.log.outcomes| ensures Faithful(t, t.f.log.outcomes[i]) {
      if i < |s.f.log.outcomes| { assert Faithful(s, s.f.log.outcomes[i]); }
    }
  }

  lemma BoundaryKeeps(s: Slot, delivered: nat)
    requires Inv(s)
    ensures Inv(ReachBoundary(s, delivered))
  {
    var t := ReachBoundary(s, delivered);
    if !t.failed && s.c.pending.Some? {
      var p := s.c.pending.value;
      if t.c.pending.None? {
        TellAccounts(s.f.log, p, false, delivered, s.admitted);
        TellFaithful(s, t, p, false, delivered);
      } else {
        forall i | 0 <= i < |s.f.log.outcomes| ensures Faithful(t, s.f.log.outcomes[i]) {
          assert Faithful(s, s.f.log.outcomes[i]);
        }
      }
    }
  }

  lemma FinalizeRecorded(f: Finalizer, p: Pending, committed: bool, appended: bool, delivered: nat)
    requires Recorded(f)
    ensures Recorded(Finalize(f, p, committed, appended, delivered).0)
  {
    var g := Finalize(f, p, committed, appended, delivered).0;
    if p.attempt !in f.records && appended {
      assert g.log.terminals == f.log.terminals + [(p.attempt, committed)];
      assert Finals(g.log.terminals) == Finals(f.log.terminals) + [p.attempt];
      assert g.records.Keys == f.records.Keys + {p.attempt};
      GrowsOne(f.records.Keys, p.attempt);
    }
  }

  lemma GrowsOne(all: set<nat>, k: nat)
    requires k !in all
    ensures multiset(all + {k}) == multiset(all) + multiset{k}
  {
  }

  lemma ConcludeKeeps(s: Slot, committed: bool, appended: bool, delivered: nat, abort: bool)
    requires Inv(s) && s.c.pending.Some?
    ensures Inv(Conclude(s, committed, appended, delivered, abort))
  {
    var p, verdict := s.c.pending.value, committed && !s.c.shuttingDown && !s.c.interrupting;
    var t := Conclude(s, committed, appended, delivered, abort);
    FinalizeRecorded(s.f, p, verdict, appended, delivered);
    if !t.failed {
      TellAccounts(s.f.log, p, verdict, delivered, s.admitted);
      TellFaithful(s, t, p, verdict, delivered);
    }
  }

  lemma OtherKeeps(s: Slot, t: Step)
    requires Inv(s) && Enabled(s, t) && (t.FreezeStep? || t.InterruptStep? || t.ShutdownStep? || t.AbortStep?)
    ensures Inv(Apply(s, t))
  {
    var u := Apply(s, t);
    if !u.failed {
      forall i | 0 <= i < |s.f.log.outcomes| ensures Faithful(u, s.f.log.outcomes[i]) {
        assert Faithful(s, s.f.log.outcomes[i]);
      }
    }
  }

  lemma StepKeeps(s: Slot, t: Step)
    requires Inv(s) && Enabled(s, t)
    ensures Inv(Apply(s, t))
  {
    match t
    case AdmitStep(w, freshId, refused) => AdmitKeeps(s, w, freshId, refused);
    case BoundaryStep(delivered) => BoundaryKeeps(s, delivered);
    case FinalizeStep(committed, appended, delivered, abort) => ConcludeKeeps(s, committed, appended, delivered, abort);
    case _ => OtherKeeps(s, t);
  }

  lemma {:induction false} RunKeeps(states: seq<Slot>, steps: seq<Step>, i: nat)
    requires Run(states, steps) && i < |states|
    ensures Inv(states[i])
  {
    if i > 0 {
      RunKeeps(states, steps, i - 1);
      StepKeeps(states[i - 1], steps[i - 1]);
    }
  }

  // ---------------------------------------------------------------- the main results

  lemma TwiceCounts(xs: seq<nat>, i: nat, j: nat)
    requires i < j < |xs| && xs[i] == xs[j]
    ensures multiset(xs)[xs[i]] >= 2
  {
    assert xs == xs[..j] + [xs[j]] + xs[j + 1..];
    assert xs[..j][i] == xs[i];
  }

  /** An attempt has at most one terminal, failures or not. */
  lemma AtMostOneTerminal(states: seq<Slot>, steps: seq<Step>, n: nat, i: nat, j: nat)
    requires Run(states, steps) && n < |states| && i < j < |states[n].f.log.terminals|
    ensures states[n].f.log.terminals[i].0 != states[n].f.log.terminals[j].0
  {
    RunKeeps(states, steps, n);
    var f := states[n].f;
    var ids := Finals(f.log.terminals);
    if ids[i] == ids[j] { TwiceCounts(ids, i, j); }
  }

  /** The waiters of the pending attempt are distinct, bounded and in canonical order. */
  lemma WaitersAreCanonical(states: seq<Slot>, steps: seq<Step>, n: nat)
    requires Run(states, steps) && n < |states| && states[n].c.pending.Some?
    ensures
      var ws := states[n].c.pending.value.waiters;
      Sorted(ws) && Distinct(ws) && |ws| <= states[n].c.capacity
  {
    RunKeeps(states, steps, n);
  }

  lemma OneOfEach(all: set<(nat, nat)>, k: (nat, nat))
    ensures multiset(all)[k] == if k in all then 1 else 0
  {
  }

  lemma WaitingIs(c: Control, k: (nat, nat))
    requires c.pending.None? || c.pending.value.attempt != k.0
    ensures multiset(WaitingKeys(c))[k] == 0
  {
    KeyIn(WaitingKeys(c), k);
  }

  /** Without an append or mint failure, a command admitted to an attempt that has left the slot has
      exactly one outcome; one admitted to the pending attempt has none yet. */
  lemma ExactlyOneOutcome(states: seq<Slot>, steps: seq<Step>, n: nat, attempt: nat, command: nat)
    requires Run(states, steps) && n < |states| && !states[n].failed && (attempt, command) in states[n].admitted
    ensures
      var s := states[n];
      multiset(Keys(s.f.log.outcomes))[(attempt, command)] ==
        if s.c.pending.Some? && s.c.pending.value.attempt == attempt then 0 else 1
  {
    RunKeeps(states, steps, n);
    var s, k := states[n], (attempt, command);
    OneOfEach(s.admitted, k);
    if s.c.pending.Some? && s.c.pending.value.attempt == attempt {
      KeyIn(Keys(s.f.log.outcomes), k);
      assert k !in Keys(s.f.log.outcomes);
    } else {
      WaitingIs(s.c, k);
    }
  }

  /** And its outcome says what the terminal of its attempt says; without a terminal it is a rejection. */
  lemma OutcomesAgree(states: seq<Slot>, steps: seq<Step>, n: nat, i: nat, j: nat)
    requires Run(states, steps) && n < |states| && !states[n].failed && i < |states[n].f.log.outcomes|
    ensures
      var log := states[n].f.log;
      && (j < |log.terminals| && log.terminals[j].0 == log.outcomes[i].attempt ==>
        log.outcomes[i].resolved == log.terminals[j].1)
      && (log.outcomes[i].resolved ==> (log.outcomes[i].attempt, true) in log.terminals)
  {
    RunKeeps(states, steps, n);
    var f := states[n].f;
    var o := f.log.outcomes[i];
    assert Faithful(states[n], o);
    if o.resolved {
      assert o.attempt in multiset(f.records.Keys);
      assert o.attempt in multiset(Finals(f.log.terminals));
      var k :| 0 <= k < |Finals(f.log.terminals)| && Finals(f.log.terminals)[k] == o.attempt;
      assert f.log.terminals[k] == (o.attempt, true);
    }
  }
}
