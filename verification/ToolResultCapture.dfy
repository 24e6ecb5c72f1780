/** The capture sink of one tool execution and its incremental UTF-8 scanner
    (internal/loopruntime/tool_result_spill.go).

    Both are streaming forms of something simple. The scanner must answer what a validity check of
    everything written would answer, and the sink must keep exactly a prefix of what was
    offered, however the producer chops its output into writes. */
module ToolResultCapture {
  import opened Options
  import opened Utf8

  function Flatten(chunks: seq<seq<Byte>>): seq<Byte> {
    if chunks == [] then [] else Flatten(chunks[..|chunks| - 1]) + chunks[|chunks| - 1]
  }

  // ---------------------------------------------------------------- the scanner

  datatype Scan = Scan(ok: bool, pending: seq<Byte>) {
    predicate IsValid() { ok && pending == [] }
  }

  const Fresh := Scan(true, [])

  /** What the scanner is left with after reading `buf` from a character boundary. */
  function Consume(buf: seq<Byte>): Scan {
    if buf == [] then Fresh
    else if !FullRune(buf) then Scan(true, buf)
    else if RuneLen(buf) == 0 then Scan(false, [])
    else Consume(buf[RuneLen(buf)..])
  }

  /** One `write`: a stream already known bad stays bad, held-back bytes are read again. */
  function ScanWrite(s: Scan, p: seq<Byte>): Scan {
    if s.ok then Consume(s.pending + p) else s
  }

  function ScanAll(chunks: seq<seq<Byte>>): Scan {
    if chunks == [] then Fresh
    else ScanWrite(ScanAll(chunks[..|chunks| - 1]), chunks[|chunks| - 1])
  }

  /** Reading in two writes is reading once. */
  lemma {:induction false} ConsumeConcat(a: seq<Byte>, b: seq<Byte>)
    ensures Consume(a + b) == ScanWrite(Consume(a), b)
    decreases |a|
  {
    hide FullRune, RuneLen;
    if a == [] {
      assert a + b == b && [] + b == b;
    } else if FullRune(a) {
      FullRuneDecides(a, b);
      var n := RuneLen(a);
      if n > 0 {
        ConsumeConcat(a[n..], b);
        assert (a + b)[n..] == a[n..] + b;
      }
    }
  }

  lemma {:induction false} ScanAllIsConsume(chunks: seq<seq<Byte>>)
    ensures ScanAll(chunks) == Consume(Flatten(chunks))
  {
    if chunks != [] {
      var last := |chunks| - 1;
      ScanAllIsConsume(chunks[..last]);
      ConsumeConcat(Flatten(chunks[..last]), chunks[last]);
    }
  }

  /** The verdict on one text, the bound on what is held back, and finality: the scanner gives
      up exactly on the texts no continuation could make valid. */
  lemma {:induction false} ConsumeVerdict(text: seq<Byte>)
    ensures Consume(text).IsValid() <==> Valid(text)
    ensures |Consume(text).pending| <= 3
    ensures Consume(text).ok <==> exists more: seq<Byte> :: Valid(text + more)
    decreases |text|
  {
    if text == [] {
      assert Valid(text + []);
    } else if !FullRune(text) {
      var more := PartialRune(text);
      assert (text + more)[RuneLen(text + more)..] == [];
      assert Valid(text + more);
    } else {
      var n := RuneLen(text);
      forall more: seq<Byte> ensures Valid(text + more) <==> n > 0 && Valid(text[n..] + more) {
        FullRuneDecides(text, more);
        assert (text + more)[n..] == text[n..] + more;
      }
      if n > 0 {
        ConsumeVerdict(text[n..]);
        if more: seq<Byte> :| Valid(text[n..] + more) { assert Valid(text + more); }
      }
    }
  }

  /** For every sequence of chunks the incremental verdict is UTF-8 validity of the
      concatenation, at most three bytes are ever held back, and the whole scanner state
      depends on the concatenation alone. */
  lemma ScannerEqualsWholeText(chunks: seq<seq<Byte>>, others: seq<seq<Byte>>)
    ensures ScanAll(chunks).IsValid() <==> Valid(Flatten(chunks))
    ensures |ScanAll(chunks).pending| <= 3
    ensures Flatten(chunks) == Flatten(others) ==> ScanAll(chunks) == ScanAll(others)
  {
    ScanAllIsConsume(chunks);
    ScanAllIsConsume(others);
    ConsumeVerdict(Flatten(chunks));
  }

  class Utf8Scanner {
    var ok: bool
    var pending: seq<Byte>

    ghost function Model(): Scan
      reads this
    {
      Scan(ok, pending)
    }

    constructor ()
      ensures Model() == Fresh
    {
      ok, pending := true, [];
    }

    method Write(p: seq<Byte>)
      modifies this
      ensures Model() == ScanWrite(old(Model()), p)
    {
      if !ok { return; }
      var buf := p;
      if |pending| > 0 {
        buf := pending + p;
        pending := [];
      }
      ghost var whole := old(pending) + p;
      assert buf == whole;
      while |buf| > 0
        invariant ok && pending == []
        invariant Consume(buf) == Consume(whole)
        decreases |buf|
      {
        if buf[0] < 0x80 {
          buf := buf[1..];
          continue;
        }
        if !FullRune(buf) {
          pending := buf;
          return;
        }
        if RuneLen(buf) == 0 {
          ok, pending := false, [];
          return;
        }
        buf := buf[RuneSize(buf)..];
      }
    }

    method IsValid(ghost text: seq<Byte>) returns (v: bool)
      requires Model() == Consume(text)
      ensures v <==> Valid(text)
    {
      ConsumeVerdict(text);
      v := ok && |pending| == 0;
    }
  }

  // ---------------------------------------------------------------- the sink

  datatype Cause = ShortWrite | Backing(code: int)

  /** What the backing answered to one write: how many bytes it took, and its error. */
  datatype Reply = Reply(accepted: nat, err: Option<Cause>)

  datatype Sink = Sink(
    ceiling: int,
    offered: nat,
    captured: nat,
    retained: nat,
    stored: seq<Byte>,    // the retained prefix, as the backing holds it
    hashed: seq<Byte>,    // the bytes fed to the digest
    scan: Scan,
    failure: Option<Cause>)
  {
    predicate Truncated() { offered > captured }
    predicate EncodedUtf8() { scan.IsValid() }
  }

  function NewSink(ceiling: int): Sink {
    Sink(ceiling, 0, 0, 0, [], [], Fresh, None)
  }

  /** The part of a write offered to the backing. */
  function Kept(s: Sink, p: seq<Byte>): seq<Byte> {
    if s.ceiling - s.retained <= 0 || s.failure.Some? then []
    else if |p| > s.ceiling - s.retained then p[..s.ceiling - s.retained]
    else p
  }

  predicate Possible(s: Sink, p: seq<Byte>, reply: Reply) { reply.accepted <= |Kept(s, p)| }

  function SinkWrite(s: Sink, p: seq<Byte>, reply: Reply): Sink
    requires Possible(s, p, reply)
  {
    var counted := s.(offered := s.offered + |p|);
    if s.ceiling - s.retained <= 0 || s.failure.Some? then counted
    else
      var took := Kept(s, p)[..reply.accepted];
      var stored := if took == [] then counted else counted.(
          stored := s.stored + took,
          hashed := s.hashed + took,
          scan := ScanWrite(s.scan, took),
          captured := s.captured + |took|,
          retained := s.retained + |took|);
      stored.(failure :=
        if reply.err.Some? then reply.err
        else if reply.accepted < |Kept(s, p)| then Some(ShortWrite)
        else None)
  }

  /** A backing that never fails takes all it is given. */
  function Healthy(s: Sink, p: seq<Byte>): Reply { Reply(|Kept(s, p)|, None) }

  function CaptureAll(ceiling: int, chunks: seq<seq<Byte>>): Sink {
    if chunks == [] then NewSink(ceiling)
    else
      var before := CaptureAll(ceiling, chunks[..|chunks| - 1]);
      var p := chunks[|chunks| - 1];
      SinkWrite(before, p, Healthy(before, p))
  }

  function Max0(n: int): nat { if n < 0 then 0 else n }
  function Min(a: nat, b: nat): nat { if a < b then a else b }

  /** What every sink state says about the bytes offered so far: it holds a prefix of them,
      counted and classified exactly, and without a failure the longest one allowed. */
  ghost predicate Describes(s: Sink, data: seq<Byte>) {
    && s.offered == |data|
    && s.retained <= Min(Max0(s.ceiling), |data|)
    && s.stored == s.hashed == data[..s.retained]
    && s.captured == s.retained
    && s.scan == Consume(s.stored)
    && (s.failure.None? ==> s.retained == Min(Max0(s.ceiling), |data|))
  }

  lemma SinkWriteDescribes(s: Sink, data: seq<Byte>, p: seq<Byte>, reply: Reply)
    requires Describes(s, data) && Possible(s, p, reply)
    ensures Describes(SinkWrite(s, p, reply), data + p)
    ensures s.failure.Some? ==> SinkWrite(s, p, reply) == s.(offered := s.offered + |p|)
  {
    if s.ceiling - s.retained > 0 && s.failure.None? {
      var took := Kept(s, p)[..reply.accepted];
      assert s.stored == data;
      assert data + took == (data + p)[..|data| + |took|];
      ConsumeConcat(s.stored, took);
      if took == [] { assert s.stored + took == s.stored; }
    } else {
      assert data[..s.retained] == (data + p)[..s.retained];
    }
  }

  lemma {:induction false} CaptureAllDescribes(ceiling: int, chunks: seq<seq<Byte>>)
    ensures Describes(CaptureAll(ceiling, chunks), Flatten(chunks))
    ensures CaptureAll(ceiling, chunks).ceiling == ceiling && CaptureAll(ceiling, chunks).failure.None?
  {
    if chunks != [] {
      var before := CaptureAll(ceiling, chunks[..|chunks| - 1]);
      var p := chunks[|chunks| - 1];
      CaptureAllDescribes(ceiling, chunks[..|chunks| - 1]);
      SinkWriteDescribes(before, Flatten(chunks[..|chunks| - 1]), p, Healthy(before, p));
    }
  }

  /** A sink whose backing never fails retains exactly the first min(ceiling, offered) bytes; its
      counts, truncation flag, digest input and encoding are functions of the concatenation. */
  lemma HealthySinkKeepsPrefix(ceiling: int, chunks: seq<seq<Byte>>)
    ensures
      var s, data := CaptureAll(ceiling, chunks), Flatten(chunks);
      var n := Min(Max0(ceiling), |data|);
      && s.stored == s.hashed == data[..n]
      && s.captured == n && s.offered == |data|
      && (s.Truncated() <==> |data| > Max0(ceiling))
      && (s.EncodedUtf8() <==> Valid(data[..n]))
  {
    CaptureAllDescribes(ceiling, chunks);
    ConsumeVerdict(CaptureAll(ceiling, chunks).stored);
  }

  /** Every run against a backing that may fail or take less: the sink still holds and
      classifies a prefix of what was offered, and the first failure is the one it reports. */
  lemma {:induction false} AnyBackingKeepsPrefix(ceiling: int, run: seq<Sink>, chunks: seq<seq<Byte>>,
                                                 replies: seq<Reply>)
    requires |run| == |chunks| + 1 && |replies| == |chunks|
    requires run[0] == NewSink(ceiling)
    requires forall i :: 0 <= i < |chunks| ==>
      Possible(run[i], chunks[i], replies[i]) && run[i + 1] == SinkWrite(run[i], chunks[i], replies[i])
    ensures Describes(run[|chunks|], Flatten(chunks)) && run[|chunks|].ceiling == ceiling
    ensures forall i :: 0 <= i <= |chunks| && run[i].failure.Some? ==>
      run[|chunks|].failure == run[i].failure && run[|chunks|].stored == run[i].stored
    decreases |chunks|
  {
    if chunks != [] {
      var last := |chunks| - 1;
      AnyBackingKeepsPrefix(ceiling, run[..last + 1], chunks[..last], replies[..last]);
      assert run[..last + 1][last] == run[last];
      SinkWriteDescribes(run[last], Flatten(chunks[..last]), chunks[last], replies[last]);
      forall i | 0 <= i <= |chunks| && run[i].failure.Some?
        ensures run[|chunks|].failure == run[i].failure && run[|chunks|].stored == run[i].stored
      {
        if i <= last { assert run[..last + 1][i] == run[i]; }
      }
    }
  }

  /** A run of writes against any backing. */
  ghost predicate Written(ceiling: int, run: seq<Sink>, chunks: seq<seq<Byte>>, replies: seq<Reply>) {
    && |run| == |chunks| + 1 && |replies| == |chunks| && run[0] == NewSink(ceiling)
    && forall i :: 0 <= i < |chunks| ==>
      Possible(run[i], chunks[i], replies[i]) && run[i + 1] == SinkWrite(run[i], chunks[i], replies[i])
  }

  /** The write asks the backing at all. */
  predicate Asks(s: Sink) { s.failure.None? && s.retained < s.ceiling }

  /** Everything the backing took. */
  ghost function Taken(run: seq<Sink>, replies: seq<Reply>, k: nat): nat
    requires k <= |replies| < |run|
  {
    if k == 0 then 0 else Taken(run, replies, k - 1) + if Asks(run[k - 1]) then replies[k - 1].accepted else 0
  }

  /** How the write failed: the backing's own error, or that it took less than what there was room for. */
  function FailsWith(s: Sink, p: seq<Byte>, reply: Reply): Option<Cause> {
    if !Asks(s) then None
    else if reply.err.Some? then reply.err
    else if reply.accepted < |p| && reply.accepted < s.ceiling - s.retained then Some(ShortWrite)
    else None
  }

  ghost predicate FirstFailure(run: seq<Sink>, chunks: seq<seq<Byte>>, replies: seq<Reply>, k: nat, c: Cause)
    requires k <= |replies| == |chunks| < |run|
  {
    exists i :: 0 <= i < k && FailsWith(run[i], chunks[i], replies[i]) == Some(c) &&
                forall j :: 0 <= j < i ==> FailsWith(run[j], chunks[j], replies[j]).None?
  }

  lemma WriteTakes(s: Sink, p: seq<Byte>, reply: Reply)
    requires Possible(s, p, reply)
    ensures
      var t := SinkWrite(s, p, reply);
      && t.ceiling == s.ceiling && t.retained == s.retained + (if Asks(s) then reply.accepted else 0)
      && t.failure == if s.failure.Some? then s.failure else FailsWith(s, p, reply)
  {
  }

  lemma FirstFailureGrows(run: seq<Sink>, chunks: seq<seq<Byte>>, replies: seq<Reply>, k: nat, c: Cause)
    requires k < |replies| == |chunks| < |run|
    ensures FirstFailure(run, chunks, replies, k + 1, c) <==>
      || FirstFailure(run, chunks, replies, k, c)
      || (FailsWith(run[k], chunks[k], replies[k]) == Some(c) &&
          forall j :: 0 <= j < k ==> FailsWith(run[j], chunks[j], replies[j]).None?)
  {
  }

  /** Whatever the backing does, the sink holds exactly the bytes it took, and reports exactly the first
      failure there was: the backing's own, or that it took less than it was given. */
  lemma {:induction false} BackingDecides(ceiling: int, run: seq<Sink>, chunks: seq<seq<Byte>>, replies: seq<Reply>,
                                          k: nat)
    requires Written(ceiling, run, chunks, replies) && k <= |chunks|
    ensures run[k].retained == Taken(run, replies, k)
    ensures forall c :: run[k].failure == Some(c) <==> FirstFailure(run, chunks, replies, k, c)
    ensures run[k].failure.None? ==> forall j :: 0 <= j < k ==> FailsWith(run[j], chunks[j], replies[j]).None?
  {
    if k > 0 {
      BackingDecides(ceiling, run, chunks, replies, k - 1);
      WriteTakes(run[k - 1], chunks[k - 1], replies[k - 1]);
      forall c ensures run[k].failure == Some(c) <==> FirstFailure(run, chunks, replies, k, c) {
        FirstFailureGrows(run, chunks, replies, k - 1, c);
      }
    }
  }

  class CaptureSink {
    const ceiling: int
    const text: Utf8Scanner
    var offered: nat
    var captured: nat
    var retained: nat
    var stored: seq<Byte>
    var hashed: seq<Byte>
    var failure: Option<Cause>

    ghost function Model(): Sink
      reads this, text
    {
      Sink(ceiling, offered, captured, retained, stored, hashed, text.Model(), failure)
    }

    constructor (ceiling: int)
      ensures Model() == NewSink(ceiling) && fresh(text)
    {
      this.ceiling := ceiling;
      text := new Utf8Scanner();
      offered, captured, retained, stored, hashed, failure := 0, 0, 0, [], [], None;
    }

    /** Accepts every byte; the producer never sees a failure of the backing. */
    method Write(p: seq<Byte>, reply: Reply) returns (n: nat)
      requires Possible(Model(), p, reply)
      modifies this, text
      ensures n == |p|
      ensures Model() == SinkWrite(old(Model()), p, reply)
    {
      hide Consume;
      offered := offered + |p|;
      n := |p|;
      var room := ceiling - retained;
      if room <= 0 || failure.Some? { return; }
      var kept := p;
      if |kept| > room {
        kept := kept[..room];
      }
      var took := kept[..reply.accepted];
      if |took| > 0 {
        stored := stored + took;
        hashed := hashed + took;
        text.Write(took);
        captured := captured + |took|;
        retained := retained + |took|;
      }
      var err := reply.err;
      if err.None? && |took| < |kept| {
        err := Some(ShortWrite);
      }
      if err.Some? {
        failure := err;
      }
    }
  }
}
