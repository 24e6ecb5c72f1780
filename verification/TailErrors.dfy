/** Which error the validation of a transcript reports (internal/loopruntime/compaction_tail.go), and which
    calls and results it sees: the first fault in the order of the messages, told without the pass itself. */
module TailErrors {
  import opened CompactionTail

  // ---------------------------------------------------------------- blocks

  predicate BlockOk(b: Block, depth: nat) {
    !b.Foreign? && (b.Nested? ==> depth < MAX_DEPTH && Known(b.content) && Shallow(b.content, MAX_DEPTH - depth - 1))
  }

  /** The first block that does not pass: foreign, or nested too deep, or with such a block first in it. */
  ghost predicate BlockFault(bs: seq<Block>, depth: nat, e: Error)
    decreases bs, 1
  {
    exists i :: 0 <= i < |bs| && PassBefore(bs, i, depth) && FaultAt(bs[i], depth, e)
  }

  ghost predicate FaultAt(b: Block, depth: nat, e: Error)
    decreases b, 0
  {
    match b
    case Foreign => e == BlockField
    case Nested(content) => if depth >= MAX_DEPTH then e == BlockDepthField else BlockFault(content, depth + 1, e)
    case _ => false
  }

  predicate PassBefore(bs: seq<Block>, i: int, depth: nat)
    requires i <= |bs|
  {
    forall j :: 0 <= j < i ==> BlockOk(bs[j], depth)
  }

  lemma NothingBefore(bs: seq<Block>, depth: nat)
    ensures PassBefore(bs, 0, depth)
  {
  }

  lemma PassShifts(bs: seq<Block>, i: int, depth: nat)
    requires 0 < i <= |bs|
    ensures PassBefore(bs, i, depth) <==> BlockOk(bs[0], depth) && PassBefore(bs[1..], i - 1, depth)
  {
    hide BlockOk;
    if BlockOk(bs[0], depth) && PassBefore(bs[1..], i - 1, depth) {
      forall j | 0 <= j < i ensures BlockOk(bs[j], depth) {
        if j > 0 { assert bs[1..][j - 1] == bs[j]; }
      }
    }
    if PassBefore(bs, i, depth) {
      forall j | 0 <= j < i - 1 ensures BlockOk(bs[1..][j], depth) {
        assert bs[1..][j] == bs[j + 1];
      }
    }
  }

  lemma FaultShifts(bs: seq<Block>, depth: nat, e: Error)
    requires bs != []
    ensures BlockFault(bs, depth, e) <==>
      FaultAt(bs[0], depth, e) || (BlockOk(bs[0], depth) && BlockFault(bs[1..], depth, e))
  {
    hide BlockOk, FaultAt, PassBefore;
    NothingBefore(bs, depth);
    if i :| 0 <= i < |bs| && PassBefore(bs, i, depth) && FaultAt(bs[i], depth, e) {
      if i > 0 {
        PassShifts(bs, i, depth);
        assert bs[1..][i - 1] == bs[i];
      }
    }
    if i :| 0 <= i < |bs[1..]| && PassBefore(bs[1..], i, depth) && FaultAt(bs[1..][i], depth, e) {
      PassShifts(bs, i + 1, depth);
      assert bs[1..][i] == bs[i + 1];
    }
  }

  lemma {:induction false} CheckFinds(bs: seq<Block>, depth: nat, e: Error)
    requires depth <= MAX_DEPTH
    ensures CheckEach(bs, depth) == Bad(e) <==> BlockFault(bs, depth, e)
    decreases bs
  {
    hide BlockFault, Known, Shallow;
    if bs == [] {
      NoBlocks(depth, e);
    } else {
      FaultShifts(bs, depth, e);
      CheckFinds(bs[1..], depth, e);
      match bs[0]
      case Nested(content) =>
        if depth < MAX_DEPTH {
          CheckFinds(content, depth + 1, e);
          CheckEachIs(content, depth + 1);
        }
      case _ =>
    }
  }

  lemma NoBlocks(depth: nat, e: Error)
    ensures !BlockFault([], depth, e)
  {
  }

  // ---------------------------------------------------------------- one message

  ghost predicate MessageFault(m: Message, e: Error) {
    if m.kind.Unknown? || !m.roleOk then e == MessageField
    else if !Known(m.blocks) || !Shallow(m.blocks, MAX_DEPTH) then BlockFault(m.blocks, 0, e)
    else m.encoded.Unencodable? && e == EncodingField
  }

  lemma MessageFaultIs(m: Message, e: Error)
    ensures CheckMessage(m) == Bad(e) <==> MessageFault(m, e)
  {
    CheckBlocksIs(m.blocks);
    CheckFinds(m.blocks, 0, e);
  }

  // ---------------------------------------------------------------- calls and results

  /** The event cannot be: a call without a name or of one that is open, a result without a name or of none
      that is open, or a pair that crosses the derived prefix. */
  ghost predicate EventFault(es: seq<Ev>, n: nat, derivedPrefix: nat, e: Error)
    requires n < |es|
  {
    var x := es[n];
    if x.open then (x.id == "" || IsOpen(es, n, x.id)) && e == ToolCallField
    else if x.id == "" || !IsOpen(es, n, x.id) then e == ToolResultField
    else e == DerivedToolPair && exists a: nat :: OpenIn(es, n, x.id, a) && es[a].at < derivedPrefix <= x.at
  }

  ghost predicate NoFaultBefore(es: seq<Ev>, n: nat, derivedPrefix: nat)
    requires n <= |es|
  {
    forall k: nat, e :: k < n ==> !EventFault(es, k, derivedPrefix, e)
  }

  lemma NoteFault(es: seq<Ev>, n: nat, derivedPrefix: nat, e: Error)
    requires n < |es| && Noted(es, n, derivedPrefix).Ok?
    ensures Noted(es, n + 1, derivedPrefix) == Err(e) <==> EventFault(es, n, derivedPrefix, e)
  {
    NotedNext(es, n, derivedPrefix);
    CallsSayOpen(es, n, derivedPrefix);
    var x, calls := es[n], Noted(es, n, derivedPrefix).value.calls;
    assert x.id in calls <==> IsOpen(es, n, x.id);
    if x.id in calls {
      var a: nat :| OpenIn(es, n, x.id, a);
      assert calls[x.id] == es[a].at;
    }
  }

  lemma {:induction false} NotedIff(es: seq<Ev>, n: nat, derivedPrefix: nat)
    requires n <= |es|
    ensures Noted(es, n, derivedPrefix).Ok? <==> NoFaultBefore(es, n, derivedPrefix)
  {
    if n > 0 {
      NotedIff(es, n - 1, derivedPrefix);
      NotedNext(es, n - 1, derivedPrefix);
      if Noted(es, n - 1, derivedPrefix).Ok? {
        if Noted(es, n, derivedPrefix).Err? {
          NoteFault(es, n - 1, derivedPrefix, Noted(es, n, derivedPrefix).error);
          assert EventFault(es, n - 1, derivedPrefix, Noted(es, n, derivedPrefix).error);
        } else {
          forall k: nat, e | k < n ensures !EventFault(es, k, derivedPrefix, e) {
            if k == n - 1 { NoteFault(es, k, derivedPrefix, e); }
          }
        }
      } else {
        var k: nat, e :| k < n - 1 && EventFault(es, k, derivedPrefix, e);
        assert k < n;
      }
    }
  }

  /** The first event that cannot be. */
  ghost predicate EventsFault(es: seq<Ev>, derivedPrefix: nat, e: Error) {
    exists k: nat :: k < |es| && NoFaultBefore(es, k, derivedPrefix) && EventFault(es, k, derivedPrefix, e)
  }

  lemma {:induction false} NotedStops(es: seq<Ev>, k: nat, n: nat, derivedPrefix: nat, e: Error)
    requires k <= n <= |es| && Noted(es, k, derivedPrefix) == Err(e)
    ensures Noted(es, n, derivedPrefix) == Err(e)
    decreases n
  {
    if k < n {
      NotedStops(es, k, n - 1, derivedPrefix, e);
      assert es[..n][..n - 1] == es[..n - 1];
    }
  }

  lemma {:induction false} FindEvent(es: seq<Ev>, n: nat, derivedPrefix: nat, e: Error) returns (k: nat)
    requires n <= |es| && Noted(es, n, derivedPrefix) == Err(e)
    ensures k < n && Noted(es, k, derivedPrefix).Ok? && Noted(es, k + 1, derivedPrefix) == Err(e)
  {
    assert n > 0;
    if Noted(es, n - 1, derivedPrefix).Ok? {
      k := n - 1;
    } else {
      var x := Noted(es, n - 1, derivedPrefix).error;
      NotedStops(es, n - 1, n, derivedPrefix, x);
      k := FindEvent(es, n - 1, derivedPrefix, e);
    }
  }

  lemma EventsFaultIs(es: seq<Ev>, derivedPrefix: nat, e: Error)
    ensures Noted(es, |es|, derivedPrefix) == Err(e) <==> EventsFault(es, derivedPrefix, e)
  {
    if Noted(es, |es|, derivedPrefix) == Err(e) {
      var k := FindEvent(es, |es|, derivedPrefix, e);
      NotedIff(es, k, derivedPrefix);
      NoteFault(es, k, derivedPrefix, e);
    }
    if EventsFault(es, derivedPrefix, e) {
      var k: nat :| k < |es| && NoFaultBefore(es, k, derivedPrefix) && EventFault(es, k, derivedPrefix, e);
      NotedIff(es, k, derivedPrefix);
      NoteFault(es, k, derivedPrefix, e);
      NotedStops(es, k + 1, |es|, derivedPrefix, e);
    }
  }

  // ---------------------------------------------------------------- the whole transcript

  /** Nothing is wrong with the first n messages. */
  ghost predicate GoodSoFar(ts: seq<Message>, n: nat, derivedPrefix: nat)
    requires n <= |ts|
  {
    MessagesOk(ts, n, derivedPrefix) && NoFaultBefore(EventsTo(ts, n), |EventsTo(ts, n)|, derivedPrefix)
  }

  /** What is wrong with the message after them, first of all. */
  ghost predicate NextFault(ts: seq<Message>, n: nat, derivedPrefix: nat, e: Error)
    requires n < |ts|
  {
    if !WellFormed(ts[n]) then MessageFault(ts[n], e)
    else if n == derivedPrefix && !ts[n].kind.User? then e == SegmentAnchor
    else EventsFault(EventsTo(ts, n + 1), derivedPrefix, e)
  }

  /** The first fault of the transcript; a call left open at the end is the last thing that can be wrong. */
  ghost predicate FirstFault(ts: seq<Message>, derivedPrefix: nat, e: Error) {
    || (exists n: nat :: n < |ts| && GoodSoFar(ts, n, derivedPrefix) && NextFault(ts, n, derivedPrefix, e))
    || (GoodSoFar(ts, |ts|, derivedPrefix) && e == OrphanToolCall &&
        exists id :: IsOpen(AllEvents(ts), |AllEvents(ts)|, id))
  }

  lemma GoodIs(ts: seq<Message>, n: nat, derivedPrefix: nat)
    requires n <= |ts|
    ensures GoodSoFar(ts, n, derivedPrefix) <==> ReadTo(ts, n, derivedPrefix).Ok?
  {
    var es := EventsTo(ts, n);
    ReadToIs(ts, derivedPrefix, n);
    NotedIff(es, |es|, derivedPrefix);
    assert es[..|es|] == es;
  }

  lemma NextFaultIs(ts: seq<Message>, n: nat, derivedPrefix: nat, e: Error)
    requires n < |ts| && ReadTo(ts, n, derivedPrefix).Ok?
    ensures ReadTo(ts, n + 1, derivedPrefix) == Err(e) <==> NextFault(ts, n, derivedPrefix, e)
  {
    var p, m := ReadTo(ts, n, derivedPrefix).value, ts[n];
    WellFormedIs(m);
    MessageFaultIs(m, e);
    ReadToOk(ts, n, derivedPrefix);
    NextEvents(ts, n, derivedPrefix, e);
  }

  lemma NextEvents(ts: seq<Message>, n: nat, derivedPrefix: nat, e: Error)
    requires n < |ts| && ReadTo(ts, n, derivedPrefix).Ok?
    ensures NoteAll(ReadTo(ts, n, derivedPrefix).value.book, EventsOf(ts[n], n), derivedPrefix) == Err(e) <==>
      EventsFault(EventsTo(ts, n + 1), derivedPrefix, e)
  {
    var es := EventsTo(ts, n + 1);
    ReadToIs(ts, derivedPrefix, n);
    NoteAllConcat(EMPTY_BOOK, EventsTo(ts, n), EventsOf(ts[n], n), derivedPrefix);
    EventsFaultIs(es, derivedPrefix, e);
    assert es[..|es|] == es;
  }

  lemma {:induction false} FindMessage(ts: seq<Message>, n: nat, derivedPrefix: nat, e: Error) returns (k: nat)
    requires n <= |ts| && ReadTo(ts, n, derivedPrefix) == Err(e)
    ensures k < n && ReadTo(ts, k, derivedPrefix).Ok? && ReadTo(ts, k + 1, derivedPrefix) == Err(e)
  {
    assert n > 0;
    if ReadTo(ts, n - 1, derivedPrefix).Ok? { k := n - 1; } else { k := FindMessage(ts, n - 1, derivedPrefix, e); }
  }

  lemma OrphanIs(ts: seq<Message>, derivedPrefix: nat)
    requires ReadTo(ts, |ts|, derivedPrefix).Ok?
    ensures ReadTo(ts, |ts|, derivedPrefix).value.book.calls != map[] <==>
      exists id :: IsOpen(AllEvents(ts), |AllEvents(ts)|, id)
  {
    var es := AllEvents(ts);
    ReadToIs(ts, derivedPrefix, |ts|);
    assert es[..|es|] == es;
    CallsSayOpen(es, |es|, derivedPrefix);
    var calls := ReadTo(ts, |ts|, derivedPrefix).value.book.calls;
    if calls != map[] {
      var id :| id in calls;
      assert IsOpen(es, |es|, id);
    }
    if id :| IsOpen(es, |es|, id) {
      var a: nat :| OpenIn(es, |es|, id, a);
      assert id in calls;
    }
  }

  /** Validation fails with an error if and only if that is the first fault of the transcript. */
  lemma ErrorIsFirstFault(ts: seq<Message>, derivedPrefix: nat, e: Error)
    ensures Validate(ts, derivedPrefix) == Err(e) <==> FirstFault(ts, derivedPrefix, e)
  {
    GoodIs(ts, |ts|, derivedPrefix);
    if ReadTo(ts, |ts|, derivedPrefix).Ok? { OrphanIs(ts, derivedPrefix); }
    if ReadTo(ts, |ts|, derivedPrefix) == Err(e) {
      var n := FindMessage(ts, |ts|, derivedPrefix, e);
      GoodIs(ts, n, derivedPrefix);
      NextFaultIs(ts, n, derivedPrefix, e);
    }
    if n: nat :| n < |ts| && GoodSoFar(ts, n, derivedPrefix) && NextFault(ts, n, derivedPrefix, e) {
      GoodIs(ts, n, derivedPrefix);
      NextFaultIs(ts, n, derivedPrefix, e);
      ReadToStops(ts, n + 1, derivedPrefix);
    }
  }

  // ---------------------------------------------------------------- which calls and results there are

  lemma {:induction false} OpensAre(bs: seq<Block>, at: nat, ev: Ev)
    ensures ev in Opens(bs, at) <==> ev.open && ev.at == at && Call(ev.id) in bs
  {
    if bs != [] {
      assert bs == bs[..|bs| - 1] + [bs[|bs| - 1]];
      OpensAre(bs[..|bs| - 1], at, ev);
    }
  }

  /** The calls are the tool-use blocks of assistant messages, the results the tool-result messages. */
  predicate Happens(ts: seq<Message>, n: nat, ev: Ev) {
    && ev.at < n <= |ts|
    && if ev.open then ts[ev.at].kind.Assistant? && Call(ev.id) in ts[ev.at].blocks
       else ts[ev.at].kind == ToolResult(ev.id)
  }

  lemma MessageEvents(m: Message, at: nat, ev: Ev)
    ensures ev in EventsOf(m, at) <==>
      ev.at == at && if ev.open then m.kind.Assistant? && Call(ev.id) in m.blocks else m.kind == ToolResult(ev.id)
  {
    OpensAre(m.blocks, at, ev);
  }

  lemma {:induction false} EventsAre(ts: seq<Message>, n: nat, ev: Ev)
    requires n <= |ts|
    ensures ev in EventsTo(ts, n) <==> Happens(ts, n, ev)
  {
    hide EventsOf;
    if n > 0 {
      EventsAre(ts, n - 1, ev);
      MessageEvents(ts[n - 1], n - 1, ev);
    }
  }

  function CallCount(bs: seq<Block>): nat {
    if bs == [] then 0 else CallCount(bs[..|bs| - 1]) + if bs[|bs| - 1].Call? then 1 else 0
  }

  lemma {:induction false} OpensCount(bs: seq<Block>, at: nat)
    ensures |Opens(bs, at)| == CallCount(bs)
  {
    if bs != [] { OpensCount(bs[..|bs| - 1], at); }
  }

  /** How many events a message is. */
  function Adds(m: Message): nat {
    if m.kind.Assistant? then CallCount(m.blocks) else if m.kind.ToolResult? then 1 else 0
  }

  /** They come in the order of the messages, one for each block or message. */
  lemma {:induction false} EventsInOrder(ts: seq<Message>, n: nat)
    requires n <= |ts|
    ensures forall i, j :: 0 <= i < j < |EventsTo(ts, n)| ==> EventsTo(ts, n)[i].at <= EventsTo(ts, n)[j].at
    ensures forall i :: 0 <= i < |EventsTo(ts, n)| ==> EventsTo(ts, n)[i].at < n
    ensures n > 0 ==> |EventsTo(ts, n)| == |EventsTo(ts, n - 1)| + Adds(ts[n - 1])
  {
    if n > 0 {
      EventsInOrder(ts, n - 1);
      OpensCount(ts[n - 1].blocks, n - 1);
      forall ev | ev in Opens(ts[n - 1].blocks, n - 1) ensures ev.at == n - 1 {
        OpensAre(ts[n - 1].blocks, n - 1, ev);
      }
    }
  }

  // ---------------------------------------------------------------- which pairs it finds

  ghost predicate IsMatch(es: seq<Ev>, p: Pair) {
    exists a: nat, b: nat :: Matched(es, a, b) && p == Pair(es[a].at, es[b].at)
  }

  lemma NewPair(es: seq<Ev>, n: nat, derivedPrefix: nat, p: Pair)
    requires n < |es| && Noted(es, n + 1, derivedPrefix).Ok? && Noted(es, n, derivedPrefix).Ok?
    requires p in Noted(es, n + 1, derivedPrefix).value.pairs && p !in Noted(es, n, derivedPrefix).value.pairs
    ensures IsMatch(es, p)
  {
    NotedNext(es, n, derivedPrefix);
    CallsSayOpen(es, n, derivedPrefix);
    var x, calls := es[n], Noted(es, n, derivedPrefix).value.calls;
    assert !x.open && x.id in calls && p == Pair(calls[x.id], x.at);
    assert IsOpen(es, n, x.id);
    var a: nat :| OpenIn(es, n, x.id, a);
    assert Matched(es, a, n);
  }

  lemma {:induction false} PairsMatch(es: seq<Ev>, n: nat, derivedPrefix: nat, p: Pair)
    requires n <= |es| && Noted(es, n, derivedPrefix).Ok? && p in Noted(es, n, derivedPrefix).value.pairs
    ensures IsMatch(es, p)
  {
    assert n > 0;
    NotedBefore(es, n - 1, n, derivedPrefix);
    if p in Noted(es, n - 1, derivedPrefix).value.pairs {
      PairsMatch(es, n - 1, derivedPrefix, p);
    } else {
      NewPair(es, n - 1, derivedPrefix, p);
    }
  }

  /** The pairs of a valid transcript are exactly its matching calls and results. */
  lemma PairsAreMatches(ts: seq<Message>, derivedPrefix: nat, p: Pair)
    requires Validate(ts, derivedPrefix).Ok?
    ensures p in Validate(ts, derivedPrefix).value <==> IsMatch(AllEvents(ts), p)
  {
    var es := AllEvents(ts);
    ReadToIs(ts, derivedPrefix, |ts|);
    assert es[..|es|] == es;
    if p in Validate(ts, derivedPrefix).value { PairsMatch(es, |es|, derivedPrefix, p); }
    if IsMatch(es, p) {
      var a: nat, b: nat :| Matched(es, a, b) && p == Pair(es[a].at, es[b].at);
      MatchedIsPaired(es, derivedPrefix, a, b);
    }
  }
}
