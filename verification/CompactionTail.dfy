/** Choosing the tail a compaction keeps (internal/loopruntime/compaction_tail.go): validation of the
    transcript's calls and results, user-anchored segments, a budgeted choice, and the adjustment that
    never separates a call from its result. */
module CompactionTail {

  const MAX_DEPTH: nat := 128

  // ---------------------------------------------------------------- messages

  /** A block: one of the declared kinds without further structure here, a tool call, a tool result with
      content of its own, or something nil or foreign. */
  datatype Block = Plain | Foreign | Call(id: string) | Nested(content: seq<Block>)

  datatype Kind = User | Assistant | ToolResult(toolUseId: string) | System | Unknown

  /** `roleOk` says the role agrees with the kind; `encoded` is the length of the JSON, or that it
      cannot be encoded. */
  datatype Encoding = Unencodable | Bytes(length: nat)

  datatype Message = Message(kind: Kind, roleOk: bool, blocks: seq<Block>, encoded: Encoding)

  datatype Error =
    | TranscriptField | DerivedPrefixField | MaxSegmentsField | MaxTokensField
    | MessageField | BlockField | BlockDepthField | EncodingField | SegmentAnchor
    | ToolCallField | ToolResultField | DerivedToolPair | OrphanToolCall

  datatype Result<+T> = Ok(value: T) | Err(error: Error)

  datatype Pair = Pair(call: nat, result: nat)

  /** The conservative estimate: a quarter of the encoded bytes, rounded up. */
  function Tokens(m: Message): (n: nat)
    ensures m.encoded.Bytes? ==> 4 * n - 4 < m.encoded.length <= 4 * n
  {
    if m.encoded.Bytes? then (m.encoded.length + 3) / 4 else 0
  }

  // ---------------------------------------------------------------- blocks

  /** `validateCompactionTailBlocks`; None is acceptance. */
  datatype Verdict = Fine | Bad(error: Error)

  function CheckBlocks(bs: seq<Block>, depth: nat): Verdict
    decreases bs
  {
    if depth > MAX_DEPTH then Bad(BlockDepthField)
    else CheckEach(bs, depth)
  }

  function CheckEach(bs: seq<Block>, depth: nat): Verdict
    decreases bs, 0
  {
    if bs == [] then Fine
    else
      var first := match bs[0]
        case Foreign => Bad(BlockField)
        case Nested(content) => if depth + 1 > MAX_DEPTH then Bad(BlockDepthField) else CheckEach(content, depth + 1)
        case _ => Fine;
      if first.Bad? then first else CheckEach(bs[1..], depth)
  }

  /** No foreign block at any depth. */
  predicate Known(bs: seq<Block>) {
    forall b :: b in bs ==> !b.Foreign? && (b.Nested? ==> Known(b.content))
  }

  /** Tool results nest at most that deep. */
  predicate Shallow(bs: seq<Block>, room: int) {
    forall b :: b in bs && b.Nested? ==> room > 0 && Shallow(b.content, room - 1)
  }

  lemma {:induction false} CheckEachIs(bs: seq<Block>, depth: nat)
    requires depth <= MAX_DEPTH
    ensures CheckEach(bs, depth).Fine? <==> Known(bs) && Shallow(bs, MAX_DEPTH - depth)
    decreases bs
  {
    if bs != [] {
      CheckEachIs(bs[1..], depth);
      assert bs == [bs[0]] + bs[1..];
      if bs[0].Nested? && depth < MAX_DEPTH { CheckEachIs(bs[0].content, depth + 1); }
    }
  }

  /** Blocks pass exactly when nothing in them is foreign and they nest at most MAX_DEPTH deep. */
  lemma CheckBlocksIs(bs: seq<Block>)
    ensures CheckBlocks(bs, 0).Fine? <==> Known(bs) && Shallow(bs, MAX_DEPTH)
  {
    CheckEachIs(bs, 0);
  }

  method ValidateBlocks(bs: seq<Block>, depth: nat) returns (verdict: Verdict)
    ensures verdict == CheckBlocks(bs, depth)
    decreases bs
  {
    if depth > MAX_DEPTH { return Bad(BlockDepthField); }
    var i := 0;
    while i < |bs|
      invariant i <= |bs| && CheckEach(bs, depth) == CheckEach(bs[i..], depth)
    {
      assert bs[i..][1..] == bs[i + 1..];
      match bs[i] {
        case Foreign => return Bad(BlockField);
        case Nested(content) =>
          var inner := ValidateBlocks(content, depth + 1);
          if inner.Bad? { return inner; }
        case _ =>
      }
      i := i + 1;
    }
    return Fine;
  }

  // ---------------------------------------------------------------- calls and results as events

  /** A call opens its id, a result closes it. */
  datatype Ev = Ev(at: nat, id: string, open: bool)

  function Opens(bs: seq<Block>, at: nat): seq<Ev> {
    if bs == [] then []
    else
      var init, last := bs[..|bs| - 1], bs[|bs| - 1];
      Opens(init, at) + if last.Call? then [Ev(at, last.id, true)] else []
  }

  function EventsOf(m: Message, at: nat): seq<Ev> {
    match m.kind
    case Assistant => Opens(m.blocks, at)
    case ToolResult(id) => [Ev(at, id, false)]
    case _ => []
  }

  /** The open-call map and the pairs found. */
  datatype Book = Book(calls: map<string, nat>, pairs: seq<Pair>)

  const EMPTY_BOOK := Book(map[], [])

  function Note(b: Book, e: Ev, derivedPrefix: nat): Result<Book> {
    if e.open then
      if e.id == "" || e.id in b.calls then Err(ToolCallField) else Ok(b.(calls := b.calls[e.id := e.at]))
    else if e.id == "" || e.id !in b.calls then Err(ToolResultField)
    else if b.calls[e.id] < derivedPrefix <= e.at then Err(DerivedToolPair)
    else Ok(Book(b.calls - {e.id}, b.pairs + [Pair(b.calls[e.id], e.at)]))
  }

  function NoteAll(b: Book, es: seq<Ev>, derivedPrefix: nat): Result<Book> {
    if es == [] then Ok(b)
    else match NoteAll(b, es[..|es| - 1], derivedPrefix)
      case Ok(c) => Note(c, es[|es| - 1], derivedPrefix)
      case Err(e) => Err(e)
  }

  // ---------------------------------------------------------------- validation

  function CheckMessage(m: Message): Verdict {
    if m.kind.Unknown? || !m.roleOk then Bad(MessageField)
    else if CheckBlocks(m.blocks, 0).Bad? then CheckBlocks(m.blocks, 0)
    else if m.encoded.Unencodable? then Bad(EncodingField)
    else Fine
  }

  /** Whether the message at an index is anchored, given what came before. */
  predicate Anchors(m: Message, at: nat, derivedPrefix: nat, seenUser: bool) {
    at < derivedPrefix || m.kind.User? || seenUser
  }

  datatype Progress = Progress(book: Book, seenUser: bool)

  function Read(p: Progress, m: Message, at: nat, derivedPrefix: nat): Result<Progress> {
    if CheckMessage(m).Bad? then Err(CheckMessage(m).error)
    else if !Anchors(m, at, derivedPrefix, p.seenUser) then Err(SegmentAnchor)
    else match NoteAll(p.book, EventsOf(m, at), derivedPrefix)
      case Ok(book) => Ok(Progress(book, p.seenUser || (at >= derivedPrefix && m.kind.User?)))
      case Err(e) => Err(e)
  }

  /** The first n messages. */
  function ReadTo(ts: seq<Message>, n: nat, derivedPrefix: nat): Result<Progress>
    requires n <= |ts|
    decreases n
  {
    if n == 0 then Ok(Progress(EMPTY_BOOK, false))
    else match ReadTo(ts, n - 1, derivedPrefix)
      case Ok(p) => Read(p, ts[n - 1], n - 1, derivedPrefix)
      case Err(e) => Err(e)
  }

  function Validate(ts: seq<Message>, derivedPrefix: nat): Result<seq<Pair>> {
    match ReadTo(ts, |ts|, derivedPrefix)
    case Ok(p) => if p.book.calls == map[] then Ok(p.book.pairs) else Err(OrphanToolCall)
    case Err(e) => Err(e)
  }

  method NoteCalls(b: Book, bs: seq<Block>, at: nat, derivedPrefix: nat) returns (r: Result<Book>)
    ensures r == NoteAll(b, Opens(bs, at), derivedPrefix)
  {
    var calls: map<string, nat>, i := b.calls, 0;
    while i < |bs|
      invariant i <= |bs| && NoteAll(b, Opens(bs[..i], at), derivedPrefix) == Ok(b.(calls := calls))
    {
      OpensStep(bs, i, at);
      if bs[i].Call? {
        NoteAllAdd(b, Opens(bs[..i], at), Ev(at, bs[i].id, true), derivedPrefix);
        if bs[i].id == "" || bs[i].id in calls {
          NoteAllStops(b, bs, i + 1, at, derivedPrefix);
          return Err(ToolCallField);
        }
        calls := calls[bs[i].id := at];
      }
      i := i + 1;
    }
    assert bs[..i] == bs;
    return Ok(b.(calls := calls));
  }

  lemma OpensStep(bs: seq<Block>, i: nat, at: nat)
    requires i < |bs|
    ensures Opens(bs[..i + 1], at) ==
      if bs[i].Call? then Opens(bs[..i], at) + [Ev(at, bs[i].id, true)] else Opens(bs[..i], at)
  {
    assert bs[..i + 1][..i] == bs[..i];
    assert Opens(bs[..i], at) + [] == Opens(bs[..i], at);
  }

  lemma NoteAllAdd(b: Book, es: seq<Ev>, e: Ev, derivedPrefix: nat)
    ensures NoteAll(b, es + [e], derivedPrefix) ==
      match NoteAll(b, es, derivedPrefix) case Ok(c) => Note(c, e, derivedPrefix) case Err(x) => Err(x)
  {
    assert (es + [e])[..|es|] == es;
  }

  /** An error stays. */
  lemma {:induction false} NoteAllStops(b: Book, bs: seq<Block>, i: nat, at: nat, derivedPrefix: nat)
    requires i <= |bs| && NoteAll(b, Opens(bs[..i], at), derivedPrefix).Err?
    ensures NoteAll(b, Opens(bs, at), derivedPrefix) == NoteAll(b, Opens(bs[..i], at), derivedPrefix)
    decreases |bs| - i
  {
    if i < |bs| {
      OpensStep(bs, i, at);
      if bs[i].Call? { NoteAllAdd(b, Opens(bs[..i], at), Ev(at, bs[i].id, true), derivedPrefix); }
      NoteAllStops(b, bs, i + 1, at, derivedPrefix);
    } else {
      assert bs[..i] == bs;
    }
  }

  function AllTokens(ts: seq<Message>): seq<nat> { seq(|ts|, i requires 0 <= i < |ts| => Tokens(ts[i])) }

  lemma {:induction false} ReadToStops(ts: seq<Message>, n: nat, derivedPrefix: nat)
    requires n <= |ts| && ReadTo(ts, n, derivedPrefix).Err?
    ensures ReadTo(ts, |ts|, derivedPrefix) == ReadTo(ts, n, derivedPrefix)
    decreases |ts| - n
  {
    if n < |ts| { ReadToStops(ts, n + 1, derivedPrefix); }
  }

  lemma ReadToOne(ts: seq<Message>, i: nat, derivedPrefix: nat)
    requires i < |ts| && ReadTo(ts, i, derivedPrefix).Ok?
    ensures var r := Read(ReadTo(ts, i, derivedPrefix).value, ts[i], i, derivedPrefix);
      ReadTo(ts, i + 1, derivedPrefix) == r && (r.Err? ==> ReadTo(ts, |ts|, derivedPrefix) == r)
  {
    if ReadTo(ts, i + 1, derivedPrefix).Err? { ReadToStops(ts, i + 1, derivedPrefix); }
  }

  /** One turn of the loop over the messages. */
  ghost predicate ReadSoFar(ts: seq<Message>, i: nat, derivedPrefix: nat, p: Progress) {
    i <= |ts| && ReadTo(ts, i, derivedPrefix) == Ok(p)
  }

  lemma NoneRead(ts: seq<Message>, derivedPrefix: nat)
    ensures ReadSoFar(ts, 0, derivedPrefix, Progress(EMPTY_BOOK, false))
  {
  }

  lemma OneMore(ts: seq<Message>, i: nat, derivedPrefix: nat, p: Progress, r: Result<Progress>)
    requires i < |ts| && ReadSoFar(ts, i, derivedPrefix, p) && r == Read(p, ts[i], i, derivedPrefix)
    ensures if r.Ok? then ReadSoFar(ts, i + 1, derivedPrefix, r.value) else Validate(ts, derivedPrefix) == Err(r.error)
  {
    ReadToOne(ts, i, derivedPrefix);
  }

  lemma AllRead(ts: seq<Message>, derivedPrefix: nat, p: Progress)
    requires ReadSoFar(ts, |ts|, derivedPrefix, p)
    ensures Validate(ts, derivedPrefix) == if p.book.calls == map[] then Ok(p.book.pairs) else Err(OrphanToolCall)
  {
  }

  method ReadMessage(p: Progress, m: Message, at: nat, derivedPrefix: nat) returns (r: Result<Progress>)
    ensures r == Read(p, m, at, derivedPrefix)
    ensures r.Ok? ==> m.encoded.Bytes?
  {
    if m.kind == Unknown || !m.roleOk { return Err(MessageField); }
    var verdict := ValidateBlocks(m.blocks, 0);
    if verdict.Bad? { return Err(verdict.error); }
    if m.encoded == Unencodable { return Err(EncodingField); }
    if at >= derivedPrefix && !m.kind.User? && !p.seenUser { return Err(SegmentAnchor); }
    var noted := NoteMessage(p.book, m, at, derivedPrefix);
    if noted.Err? { return Err(noted.error); }
    return Ok(Progress(noted.value, p.seenUser || (at >= derivedPrefix && m.kind.User?)));
  }

  /** `validateCompactionTailTranscript`: it fills the caller's estimates as it reads. */
  method ValidateTranscript(ts: seq<Message>, derivedPrefix: nat,
                            messageTokens: array<nat>) returns (r: Result<seq<Pair>>)
    requires messageTokens.Length == |ts|
    modifies messageTokens
    ensures r == Validate(ts, derivedPrefix)
    ensures r.Ok? ==> messageTokens[..] == AllTokens(ts)
  {
    var book, seenUser := EMPTY_BOOK, false;
    NoneRead(ts, derivedPrefix);
    var i := 0;
    while i < |ts|
      invariant i <= |ts| && ReadSoFar(ts, i, derivedPrefix, Progress(book, seenUser))
      invariant forall j :: 0 <= j < i ==> messageTokens[j] == Tokens(ts[j])
    {
      var next := ReadMessage(Progress(book, seenUser), ts[i], i, derivedPrefix);
      OneMore(ts, i, derivedPrefix, Progress(book, seenUser), next);
      if next.Err? { return Err(next.error); }
      messageTokens[i] := Tokens(ts[i]);
      book, seenUser := next.value.book, next.value.seenUser;
      i := i + 1;
    }
    AllRead(ts, derivedPrefix, Progress(book, seenUser));
    assert messageTokens[..] == AllTokens(ts);
    if book.calls != map[] { return Err(OrphanToolCall); }
    return Ok(book.pairs);
  }

  method NoteMessage(b: Book, m: Message, at: nat, derivedPrefix: nat) returns (r: Result<Book>)
    ensures r == NoteAll(b, EventsOf(m, at), derivedPrefix)
  {
    match m.kind {
      case Assistant => r := NoteCalls(b, m.blocks, at, derivedPrefix);
      case ToolResult(id) =>
        NoteAllAdd(b, [], Ev(at, id, false), derivedPrefix);
        assert [] + [Ev(at, id, false)] == [Ev(at, id, false)];
        if id == "" || id !in b.calls { return Err(ToolResultField); }
        if b.calls[id] < derivedPrefix && at >= derivedPrefix { return Err(DerivedToolPair); }
        r := Ok(Book(b.calls - {id}, b.pairs + [Pair(b.calls[id], at)]));
      case _ => r := Ok(b);
    }
  }

  // ---------------------------------------------------------------- segments

  /** `content.TokenCount`, an unsigned 64-bit number; sums wrap around. */
  type TokenCount = n: int | 0 <= n < 0x1_0000_0000_0000_0000

  function Wrap(n: nat): TokenCount { n % 0x1_0000_0000_0000_0000 }

  datatype Segment = Segment(start: nat, end: nat, tokens: TokenCount)

  /** The user messages from `at` on. */
  function Starts(ts: seq<Message>, at: nat): seq<nat>
    decreases |ts| - at
  {
    if at >= |ts| then [] else (if ts[at].kind.User? then [at] else []) + Starts(ts, at + 1)
  }

  function Sum(xs: seq<nat>): nat { if xs == [] then 0 else Sum(xs[..|xs| - 1]) + xs[|xs| - 1] }

  function EndOf(starts: seq<nat>, k: nat, n: nat): nat
    requires k < |starts|
  {
    if k + 1 < |starts| then starts[k + 1] else n
  }

  /** Each segment runs from its user message to the next. */
  ghost predicate AreSegments(segments: seq<Segment>, ts: seq<Message>, derivedPrefix: nat) {
    var starts := Starts(ts, derivedPrefix);
    && |segments| == |starts|
    && forall k :: 0 <= k < |segments| ==>
         && segments[k].start == starts[k] && segments[k].end == EndOf(starts, k, |ts|)
         && segments[k].start < segments[k].end <= |ts|
         && segments[k].tokens == Wrap(Sum(AllTokens(ts)[segments[k].start..segments[k].end]))
  }

  lemma {:induction false} StartsAre(ts: seq<Message>, at: nat)
    ensures forall k :: 0 <= k < |Starts(ts, at)| ==> at <= Starts(ts, at)[k] < |ts| && ts[Starts(ts, at)[k]].kind.User?
    ensures forall k, l :: 0 <= k < l < |Starts(ts, at)| ==> Starts(ts, at)[k] < Starts(ts, at)[l]
    ensures forall i :: at <= i < |ts| && ts[i].kind.User? ==> i in Starts(ts, at)
    decreases |ts| - at
  {
    if at < |ts| { StartsAre(ts, at + 1); }
  }

  lemma StartsNext(ts: seq<Message>, at: nat, starts: seq<nat>)
    requires at < |ts|
    ensures ts[at].kind.User? ==> starts + Starts(ts, at) == starts + [at] + Starts(ts, at + 1)
    ensures !ts[at].kind.User? ==> Starts(ts, at) == Starts(ts, at + 1)
  {
  }

  method FindStarts(ts: seq<Message>, derivedPrefix: nat) returns (starts: seq<nat>)
    ensures starts == Starts(ts, derivedPrefix)
  {
    starts := [];
    if derivedPrefix >= |ts| { return; }
    var index := derivedPrefix;
    while index < |ts|
      invariant derivedPrefix <= index <= |ts| && starts + Starts(ts, index) == Starts(ts, derivedPrefix)
    {
      StartsNext(ts, index, starts);
      if ts[index].kind == User { starts := starts + [index]; }
      index := index + 1;
    }
  }

  method SumTokens(messageTokens: array<nat>, start: nat, end: nat) returns (tokens: TokenCount)
    requires start <= end <= messageTokens.Length
    ensures tokens == Wrap(Sum(messageTokens[start..end]))
  {
    tokens := 0;
    var i := start;
    while i < end
      invariant start <= i <= end && tokens == Wrap(Sum(messageTokens[start..i]))
    {
      assert messageTokens[start..i + 1][..i - start] == messageTokens[start..i];
      WrapAdds(Sum(messageTokens[start..i]), messageTokens[i]);
      tokens := Wrap(tokens + messageTokens[i]);
      i := i + 1;
    }
  }

  lemma WrapAdds(a: nat, b: nat)
    ensures Wrap(Wrap(a) + b) == Wrap(a + b)
  {
  }

  method BuildSegments(ts: seq<Message>, derivedPrefix: nat, messageTokens: array<nat>) returns (segments: seq<Segment>)
    requires messageTokens.Length == |ts| && messageTokens[..] == AllTokens(ts)
    ensures AreSegments(segments, ts, derivedPrefix)
  {
    var starts := FindStarts(ts, derivedPrefix);
    StartsAre(ts, derivedPrefix);
    segments := [];
    var k := 0;
    while k < |starts|
      invariant k <= |starts| && |segments| == k
      invariant forall j :: 0 <= j < k ==> segments[j].start == starts[j] && segments[j].end == EndOf(starts, j, |ts|)
      invariant forall j :: 0 <= j < k ==> segments[j].start < segments[j].end <= |ts|
      invariant forall j :: 0 <= j < k ==>
        segments[j].tokens == Wrap(Sum(AllTokens(ts)[segments[j].start..segments[j].end]))
    {
      var end := |ts|;
      if k + 1 < |starts| { end := starts[k + 1]; }
      var tokens := SumTokens(messageTokens, starts[k], end);
      assert messageTokens[starts[k]..end] == AllTokens(ts)[starts[k]..end];
      segments := segments + [Segment(starts[k], end, tokens)];
      k := k + 1;
    }
  }

  // ---------------------------------------------------------------- the budgeted choice

  function TokensFrom(segments: seq<Segment>, k: nat): nat
    requires k <= |segments|
    decreases |segments| - k
  {
    if k == |segments| then 0 else segments[k].tokens + TokensFrom(segments, k + 1)
  }

  predicate Within(segments: seq<Segment>, k: nat, maxSegments: nat, maxTokens: nat)
    requires k <= |segments|
  {
    |segments| - k <= maxSegments && TokensFrom(segments, k) <= maxTokens
  }

  /** The longest suffix within both limits, except that the newest segment is always kept. */
  predicate IsBudgeted(segments: seq<Segment>, k: nat, maxSegments: nat, maxTokens: nat) {
    && k < |segments| && (k == |segments| - 1 || Within(segments, k, maxSegments, maxTokens))
    && forall j :: 0 <= j < k ==> !Within(segments, j, maxSegments, maxTokens)
  }

  lemma {:induction false} TokensFromShrink(segments: seq<Segment>, j: nat, k: nat)
    requires j <= k <= |segments|
    ensures TokensFrom(segments, k) <= TokensFrom(segments, j)
    decreases k - j
  {
    if j < k { TokensFromShrink(segments, j + 1, k); }
  }

  /** Once a suffix is out of bounds, every longer one is. */
  lemma NothingLonger(segments: seq<Segment>, k: nat, maxSegments: nat, maxTokens: nat)
    requires k <= |segments| && (k > 0 ==> !Within(segments, k - 1, maxSegments, maxTokens))
    ensures forall j :: 0 <= j < k ==> !Within(segments, j, maxSegments, maxTokens)
  {
    forall j | 0 <= j < k ensures !Within(segments, j, maxSegments, maxTokens) {
      TokensFromShrink(segments, j, k - 1);
    }
  }

  /** The guards keep the running sum within the limit, so that it never wraps around. */
  method ChooseSegments(segments: seq<Segment>, maxSegments: nat, maxTokens: TokenCount) returns (start: nat)
    requires segments != [] && maxSegments > 0
    ensures IsBudgeted(segments, start, maxSegments, maxTokens)
  {
    start := |segments| - 1;
    var retainedTokens: TokenCount, retainedSegments := segments[start].tokens, 1;
    while start > 0 && retainedSegments < maxSegments
      invariant start < |segments| && retainedSegments == |segments| - start <= maxSegments
      invariant retainedTokens == TokensFrom(segments, start)
      invariant start == |segments| - 1 || retainedTokens <= maxTokens
    {
      if retainedTokens > maxTokens { break; }
      var candidate := segments[start - 1].tokens;
      if candidate > maxTokens - retainedTokens { break; }
      start := start - 1;
      retainedSegments := retainedSegments + 1;
      retainedTokens := Wrap(retainedTokens + candidate);
    }
    NothingLonger(segments, start, maxSegments, maxTokens);
  }

  /** There is only one such choice. */
  lemma BudgetedIsUnique(segments: seq<Segment>, j: nat, k: nat, maxSegments: nat, maxTokens: nat)
    requires IsBudgeted(segments, j, maxSegments, maxTokens) && IsBudgeted(segments, k, maxSegments, maxTokens)
    ensures j == k
  {
  }

  // ---------------------------------------------------------------- keeping calls with their results

  predicate Splits(p: Pair, cut: nat) { p.call < cut <= p.result }

  predicate SplitsNone(pairs: seq<Pair>, cut: nat) { forall i :: 0 <= i < |pairs| ==> !Splits(pairs[i], cut) }

  ghost predicate Ordered(segments: seq<Segment>) {
    forall j, k :: 0 <= j < k < |segments| ==> segments[j].start < segments[k].start
  }

  /** The newest segment a message is in or after, or -1. */
  ghost predicate IsSegmentIndex(segments: seq<Segment>, message: nat, k: int) {
    -1 <= k < |segments| && forall j :: 0 <= j < |segments| ==> (segments[j].start <= message <==> j <= k)
  }

  method SegmentIndex(segments: seq<Segment>, message: nat) returns (k: int)
    requires Ordered(segments)
    ensures IsSegmentIndex(segments, message, k)
  {
    k := |segments| - 1;
    while k >= 0
      invariant -1 <= k < |segments| && forall j :: k < j < |segments| ==> message < segments[j].start
    {
      if message >= segments[k].start { return; }
      k := k - 1;
    }
  }

  /** The greatest segment at or before `chosen` whose start splits no pair. */
  ghost predicate IsAdjusted(segments: seq<Segment>, pairs: seq<Pair>, chosen: nat, k: nat) {
    && k <= chosen < |segments| && SplitsNone(pairs, segments[k].start)
    && forall j :: 0 <= j <= chosen && SplitsNone(pairs, segments[j].start) ==> j <= k
  }

  /** No pair begins before the first segment and ends in one. */
  ghost predicate Enclosed(segments: seq<Segment>, pairs: seq<Pair>) {
    segments != [] ==> SplitsNone(pairs, segments[0].start)
  }

  /** One pass over the pairs. */
  method AdjustOnce(segments: seq<Segment>, pairs: seq<Pair>, start: nat) returns (adjusted: nat)
    requires Ordered(segments) && start < |segments| && Enclosed(segments, pairs)
    ensures adjusted <= start && (adjusted == start ==> SplitsNone(pairs, segments[start].start))
    ensures forall j :: 0 <= j <= start && SplitsNone(pairs, segments[j].start) ==> j <= adjusted
  {
    adjusted := start;
    var i := 0;
    while i < |pairs|
      invariant i <= |pairs| && adjusted <= start
      invariant adjusted == start ==> SplitsNone(pairs[..i], segments[start].start)
      invariant forall j :: 0 <= j <= start && SplitsNone(pairs, segments[j].start) ==> j <= adjusted
    {
      var callSegment := SegmentIndex(segments, pairs[i].call);
      var resultSegment := SegmentIndex(segments, pairs[i].result);
      if callSegment < adjusted && resultSegment >= adjusted {
        assert !Splits(pairs[i], segments[0].start);
        assert segments[0].start <= segments[adjusted].start;
        forall j | 0 <= j <= start && SplitsNone(pairs, segments[j].start) ensures j <= callSegment {
          assert !Splits(pairs[i], segments[j].start);
        }
        adjusted := callSegment;
      }
      i := i + 1;
    }
    assert pairs[..i] == pairs;
  }

  method AdjustCut(segments: seq<Segment>, pairs: seq<Pair>, chosen: nat) returns (startSegment: nat)
    requires Ordered(segments) && chosen < |segments| && Enclosed(segments, pairs)
    ensures IsAdjusted(segments, pairs, chosen, startSegment)
  {
    startSegment := chosen;
    while true
      invariant startSegment <= chosen
      invariant forall j :: 0 <= j <= chosen && SplitsNone(pairs, segments[j].start) ==> j <= startSegment
      decreases startSegment
    {
      var adjusted := AdjustOnce(segments, pairs, startSegment);
      if adjusted == startSegment { break; }
      startSegment := adjusted;
    }
  }

  // ---------------------------------------------------------------- what validation establishes

  /** The facts the cut needs: pairs lie in the transcript, and none crosses the derived prefix. */
  predicate PairsOk(pairs: seq<Pair>, n: nat, derivedPrefix: nat) {
    forall i :: 0 <= i < |pairs| ==> pairs[i].call <= pairs[i].result < n && !Splits(pairs[i], derivedPrefix)
  }

  ghost predicate BookOk(b: Book, n: nat, derivedPrefix: nat) {
    PairsOk(b.pairs, n, derivedPrefix) && forall id :: id in b.calls ==> b.calls[id] < n
  }

  lemma BookGrows(b: Book, n: nat, derivedPrefix: nat)
    requires BookOk(b, n, derivedPrefix)
    ensures BookOk(b, n + 1, derivedPrefix)
  {
  }

  lemma {:induction false} NoteAllOk(b: Book, es: seq<Ev>, at: nat, derivedPrefix: nat)
    requires BookOk(b, at + 1, derivedPrefix) && (forall i :: 0 <= i < |es| ==> es[i].at == at) &&
      NoteAll(b, es, derivedPrefix).Ok?
    ensures BookOk(NoteAll(b, es, derivedPrefix).value, at + 1, derivedPrefix)
  {
    if es != [] { NoteAllOk(b, es[..|es| - 1], at, derivedPrefix); }
  }

  lemma {:induction false} OpensAt(bs: seq<Block>, at: nat)
    ensures forall i :: 0 <= i < |Opens(bs, at)| ==> Opens(bs, at)[i].at == at && Opens(bs, at)[i].open
  {
    if bs != [] { OpensAt(bs[..|bs| - 1], at); }
  }

  /** What is known of the progress before a message. */
  ghost predicate ProgressOk(p: Progress, n: nat, derivedPrefix: nat) {
    BookOk(p.book, n, derivedPrefix) && (p.seenUser <==> derivedPrefix < n)
  }

  lemma ReadOk(p: Progress, m: Message, at: nat, derivedPrefix: nat)
    requires ProgressOk(p, at, derivedPrefix) && Read(p, m, at, derivedPrefix).Ok?
    ensures ProgressOk(Read(p, m, at, derivedPrefix).value, at + 1, derivedPrefix)
    ensures at == derivedPrefix ==> m.kind.User?
  {
    BookGrows(p.book, at, derivedPrefix);
    OpensAt(m.blocks, at);
    NoteAllOk(p.book, EventsOf(m, at), at, derivedPrefix);
  }

  lemma {:induction false} ReadToOk(ts: seq<Message>, n: nat, derivedPrefix: nat)
    requires n <= |ts| && ReadTo(ts, n, derivedPrefix).Ok?
    ensures ProgressOk(ReadTo(ts, n, derivedPrefix).value, n, derivedPrefix)
    ensures derivedPrefix < n ==> ts[derivedPrefix].kind.User?
  {
    if n > 0 {
      ReadToOk(ts, n - 1, derivedPrefix);
      ReadOk(ReadTo(ts, n - 1, derivedPrefix).value, ts[n - 1], n - 1, derivedPrefix);
    }
  }

  // ---------------------------------------------------------------- the selection

  datatype Selection = Selection(head: seq<Message>, retained: seq<Message>)

  /** What the limits have to be. */
  predicate LimitsOk(ts: seq<Message>, derivedPrefix: int, maxSegments: int, maxTokens: nat) {
    ts != [] && 0 <= derivedPrefix <= |ts| && maxSegments > 0 && maxTokens > 0
  }

  /** The cut is the start of the greatest segment, at or before the budgeted one, that splits no pair. */
  ghost predicate IsCut(segments: seq<Segment>, pairs: seq<Pair>, maxSegments: nat, maxTokens: nat, cut: nat) {
    exists chosen: nat, k: nat :: IsBudgeted(segments, chosen, maxSegments, maxTokens) &&
      IsAdjusted(segments, pairs, chosen, k)
      && cut == segments[k].start
  }

  ghost predicate IsSelection(ts: seq<Message>, derivedPrefix: nat, pairs: seq<Pair>, maxSegments: nat, maxTokens: nat,
                              sel: Selection) {
    && sel.head + sel.retained == ts
    && exists segments ::
      AreSegments(segments, ts, derivedPrefix) && CutsSo(segments, pairs, maxSegments, maxTokens, sel)
  }

  ghost predicate CutsSo(segments: seq<Segment>, pairs: seq<Pair>, maxSegments: nat, maxTokens: nat, sel: Selection) {
    if segments == [] then sel.retained == [] else IsCut(segments, pairs, maxSegments, maxTokens, |sel.head|)
  }

  lemma SegmentsOrdered(segments: seq<Segment>, ts: seq<Message>, derivedPrefix: nat)
    requires AreSegments(segments, ts, derivedPrefix)
    ensures Ordered(segments)
    ensures forall k :: 0 <= k < |segments| ==>
      derivedPrefix <= segments[k].start < |ts| && ts[segments[k].start].kind.User?
  {
    StartsAre(ts, derivedPrefix);
  }

  /** In a valid transcript the first segment begins where the derived prefix ends. */
  lemma FirstSegment(segments: seq<Segment>, ts: seq<Message>, derivedPrefix: nat)
    requires AreSegments(segments, ts, derivedPrefix) && Validate(ts, derivedPrefix).Ok?
    ensures derivedPrefix < |ts| ==> segments != [] && segments[0].start == derivedPrefix
    ensures Enclosed(segments, Validate(ts, derivedPrefix).value)
  {
    ReadToOk(ts, |ts|, derivedPrefix);
    StartsAre(ts, derivedPrefix);
  }

  lemma CutIsSelection(ts: seq<Message>, derivedPrefix: nat, pairs: seq<Pair>, maxSegments: nat, maxTokens: nat,
                       segments: seq<Segment>, cut: nat)
    requires AreSegments(segments, ts, derivedPrefix) && segments != [] && cut <= |ts|
    requires IsCut(segments, pairs, maxSegments, maxTokens, cut)
    ensures IsSelection(ts, derivedPrefix, pairs, maxSegments, maxTokens, Selection(ts[..cut], ts[cut..]))
  {
    var sel := Selection(ts[..cut], ts[cut..]);
    assert sel.head + sel.retained == ts;
    CutsThere(segments, pairs, maxSegments, maxTokens, cut, sel);
  }

  lemma CutsThere(segments: seq<Segment>, pairs: seq<Pair>, maxSegments: nat, maxTokens: nat, cut: nat, sel: Selection)
    requires segments != [] && IsCut(segments, pairs, maxSegments, maxTokens, cut) && |sel.head| == cut
    ensures CutsSo(segments, pairs, maxSegments, maxTokens, sel)
  {
  }

  lemma AllIsSelection(ts: seq<Message>, derivedPrefix: nat, pairs: seq<Pair>, maxSegments: nat, maxTokens: nat)
    requires AreSegments([], ts, derivedPrefix)
    ensures IsSelection(ts, derivedPrefix, pairs, maxSegments, maxTokens, Selection(ts, []))
  {
    assert ts + [] == ts;
  }

  /** The budgeted choice and its adjustment. */
  method FindCut(ghost ts: seq<Message>, ghost derivedPrefix: nat, pairs: seq<Pair>, maxSegments: nat,
                 maxTokens: TokenCount, segments: seq<Segment>)
    returns (cut: nat)
    requires Validate(ts, derivedPrefix) == Ok(pairs) && maxSegments > 0 &&
      AreSegments(segments, ts, derivedPrefix) && segments != []
    ensures cut <= |ts| && IsCut(segments, pairs, maxSegments, maxTokens, cut)
  {
    SegmentsOrdered(segments, ts, derivedPrefix);
    FirstSegment(segments, ts, derivedPrefix);
    var chosen := ChooseSegments(segments, maxSegments, maxTokens);
    var startSegment := AdjustCut(segments, pairs, chosen);
    cut := segments[startSegment].start;
  }

  /** The part of `selectCompactionTail` after validation. */
  method CutTail(ts: seq<Message>, derivedPrefix: nat, pairs: seq<Pair>, maxSegments: nat, maxTokens: TokenCount,
                 messageTokens: array<nat>)
    returns (sel: Selection)
    requires Validate(ts, derivedPrefix) == Ok(pairs) && maxSegments > 0
    requires messageTokens.Length == |ts| && messageTokens[..] == AllTokens(ts)
    ensures IsSelection(ts, derivedPrefix, pairs, maxSegments, maxTokens, sel)
  {
    var segments := BuildSegments(ts, derivedPrefix, messageTokens);
    if |segments| == 0 {
      AllIsSelection(ts, derivedPrefix, pairs, maxSegments, maxTokens);
      return Selection(ts, []);
    }
    var cut := FindCut(ts, derivedPrefix, pairs, maxSegments, maxTokens, segments);
    CutIsSelection(ts, derivedPrefix, pairs, maxSegments, maxTokens, segments, cut);
    return Selection(ts[..cut], ts[cut..]);
  }

  /** `selectCompactionTail`. */
  method SelectTail(ts: seq<Message>, derivedPrefix: int, maxSegments: int,
                    maxTokens: TokenCount) returns (r: Result<Selection>)
    ensures ts == [] ==> r == Err(TranscriptField)
    ensures ts != [] && !(0 <= derivedPrefix <= |ts|) ==> r == Err(DerivedPrefixField)
    ensures ts != [] && 0 <= derivedPrefix <= |ts| && maxSegments <= 0 ==> r == Err(MaxSegmentsField)
    ensures ts != [] && 0 <= derivedPrefix <= |ts| && maxSegments > 0 && maxTokens == 0 ==> r == Err(MaxTokensField)
    ensures LimitsOk(ts, derivedPrefix, maxSegments, maxTokens) && Validate(ts, derivedPrefix).Err? ==>
      r == Err(Validate(ts, derivedPrefix).error)
    ensures LimitsOk(ts, derivedPrefix, maxSegments, maxTokens) && Validate(ts, derivedPrefix).Ok? ==>
      r.Ok? && IsSelection(ts, derivedPrefix, Validate(ts, derivedPrefix).value, maxSegments, maxTokens, r.value)
  {
    if |ts| == 0 { return Err(TranscriptField); }
    if derivedPrefix < 0 || derivedPrefix > |ts| { return Err(DerivedPrefixField); }
    if maxSegments <= 0 { return Err(MaxSegmentsField); }
    if maxTokens == 0 { return Err(MaxTokensField); }
    var messageTokens := new nat[|ts|](_ => 0);
    var validated := ValidateTranscript(ts, derivedPrefix, messageTokens);
    if validated.Err? { return Err(validated.error); }
    var sel := CutTail(ts, derivedPrefix, validated.value, maxSegments, maxTokens, messageTokens);
    return Ok(sel);
  }

  /** What a selection keeps: it starts at a user message past the derived prefix and splits no pair. */
  lemma SelectionKeepsPairs(ts: seq<Message>, derivedPrefix: nat, pairs: seq<Pair>, maxSegments: nat, maxTokens: nat,
                            sel: Selection)
    requires Validate(ts, derivedPrefix) == Ok(pairs) && derivedPrefix <= |ts|
    requires IsSelection(ts, derivedPrefix, pairs, maxSegments, maxTokens, sel)
    ensures SplitsNone(pairs, |sel.head|) && derivedPrefix <= |sel.head|
    ensures sel.retained == [] <==> derivedPrefix == |ts|
    ensures sel.retained != [] ==> sel.retained[0].kind.User?
  {
    ReadToOk(ts, |ts|, derivedPrefix);
    var segments :| AreSegments(segments, ts, derivedPrefix) &&
      if segments == [] then sel.retained == [] else IsCut(segments, pairs, maxSegments, maxTokens, |sel.head|);
    SegmentsOrdered(segments, ts, derivedPrefix);
    FirstSegment(segments, ts, derivedPrefix);
    assert sel.retained == ts[|sel.head|..];
  }

  // ---------------------------------------------------------------- a call that is open is paired later

  lemma {:induction false} NoteAllTracks(b: Book, es: seq<Ev>, derivedPrefix: nat, at: nat, id: string)
    requires NoteAll(b, es, derivedPrefix).Ok? && (forall i :: 0 <= i < |es| ==> es[i].at == at)
    ensures b.pairs <= NoteAll(b, es, derivedPrefix).value.pairs
    ensures
      var c := NoteAll(b, es, derivedPrefix).value;
      id in b.calls ==> (id in c.calls && c.calls[id] == b.calls[id]) || Pair(b.calls[id], at) in c.pairs
  {
    if es != [] { NoteAllTracks(b, es[..|es| - 1], derivedPrefix, at, id); }
  }

  lemma EventsAt(m: Message, at: nat)
    ensures forall i :: 0 <= i < |EventsOf(m, at)| ==> EventsOf(m, at)[i].at == at
  {
    OpensAt(m.blocks, at);
  }

  /** The state after n messages. */
  function ReadAt(ts: seq<Message>, n: nat, derivedPrefix: nat): Progress {
    if n <= |ts| && ReadTo(ts, n, derivedPrefix).Ok?
    then ReadTo(ts, n, derivedPrefix).value
    else Progress(EMPTY_BOOK, false)
  }

  lemma ReadStep(ts: seq<Message>, n: nat, derivedPrefix: nat)
    requires ReadTo(ts, |ts|, derivedPrefix).Ok? && n <= |ts|
    ensures ReadTo(ts, n, derivedPrefix) == Ok(ReadAt(ts, n, derivedPrefix))
    ensures n < |ts| ==>
      Read(ReadAt(ts, n, derivedPrefix), ts[n], n, derivedPrefix) == Ok(ReadAt(ts, n + 1, derivedPrefix))
  {
    ReadAlong(ts, n, derivedPrefix);
    if n < |ts| { ReadAlong(ts, n + 1, derivedPrefix); }
  }

  lemma ReadAlong(ts: seq<Message>, n: nat, derivedPrefix: nat)
    requires ReadTo(ts, |ts|, derivedPrefix).Ok? && n <= |ts|
    ensures ReadTo(ts, n, derivedPrefix).Ok?
  {
    if ReadTo(ts, n, derivedPrefix).Err? { ReadToStops(ts, n, derivedPrefix); }
  }

  /** A call at index c is still open, or was paired with a result between m and n. */
  ghost predicate Tracked(b: Book, id: string, c: nat, m: nat, n: nat) {
    (id in b.calls && b.calls[id] == c) || exists r: nat :: m <= r < n && Pair(c, r) in b.pairs
  }

  lemma TrackedStep(b: Book, es: seq<Ev>, derivedPrefix: nat, id: string, c: nat, m: nat, n: nat)
    requires NoteAll(b, es, derivedPrefix).Ok? && (forall i :: 0 <= i < |es| ==> es[i].at == n) && m <= n
    requires Tracked(b, id, c, m, n)
    ensures Tracked(NoteAll(b, es, derivedPrefix).value, id, c, m, n + 1)
  {
    NoteAllTracks(b, es, derivedPrefix, n, id);
    if !(id in b.calls && b.calls[id] == c) {
      var r: nat :| m <= r < n && Pair(c, r) in b.pairs;
      var pairs := NoteAll(b, es, derivedPrefix).value.pairs;
      var i :| 0 <= i < |b.pairs| && b.pairs[i] == Pair(c, r);
      assert pairs[i] == Pair(c, r);
    }
  }

  lemma TrackedNext(ts: seq<Message>, m: nat, n: nat, derivedPrefix: nat, id: string, c: nat)
    requires m <= n < |ts| && ReadTo(ts, |ts|, derivedPrefix).Ok? &&
      Tracked(ReadAt(ts, n, derivedPrefix).book, id, c, m, n)
    ensures Tracked(ReadAt(ts, n + 1, derivedPrefix).book, id, c, m, n + 1)
  {
    ReadStep(ts, n, derivedPrefix);
    EventsAt(ts[n], n);
    TrackedStep(ReadAt(ts, n, derivedPrefix).book, EventsOf(ts[n], n), derivedPrefix, id, c, m, n);
  }

  lemma {:induction false} OpenOrPaired(ts: seq<Message>, m: nat, n: nat, derivedPrefix: nat, id: string, c: nat)
    requires m <= n <= |ts| && ReadTo(ts, |ts|, derivedPrefix).Ok?
    requires Tracked(ReadAt(ts, m, derivedPrefix).book, id, c, m, m)
    ensures Tracked(ReadAt(ts, n, derivedPrefix).book, id, c, m, n)
    decreases n
  {
    if m < n {
      OpenOrPaired(ts, m, n - 1, derivedPrefix, id, c);
      TrackedNext(ts, m, n - 1, derivedPrefix, id, c);
    }
  }

  /** A call open at a cut is separated by it from its result. */
  lemma OpenIsSplit(ts: seq<Message>, derivedPrefix: nat, cut: nat, id: string)
    requires Validate(ts, derivedPrefix).Ok? && cut <= |ts| && id in ReadAt(ts, cut, derivedPrefix).book.calls
    ensures !SplitsNone(Validate(ts, derivedPrefix).value, cut)
  {
    var pairs, c := Validate(ts, derivedPrefix).value, ReadAt(ts, cut, derivedPrefix).book.calls[id];
    OpenOrPaired(ts, cut, |ts|, derivedPrefix, id, c);
    var r: nat :| cut <= r < |ts| && Pair(c, r) in pairs;
    var i :| 0 <= i < |pairs| && pairs[i] == Pair(c, r);
    ReadStep(ts, cut, derivedPrefix);
    ReadToOk(ts, cut, derivedPrefix);
    assert Splits(pairs[i], cut);
  }

  /** At a cut that splits no pair of a valid transcript, no call is open. */
  lemma ClosedAtCut(ts: seq<Message>, derivedPrefix: nat, cut: nat)
    requires Validate(ts, derivedPrefix).Ok? && cut <= |ts|
    ensures SplitsNone(Validate(ts, derivedPrefix).value, cut) ==> ReadAt(ts, cut, derivedPrefix).book.calls == map[]
  {
    var calls := ReadAt(ts, cut, derivedPrefix).book.calls;
    if calls != map[] {
      var id :| id in calls;
      OpenIsSplit(ts, derivedPrefix, cut, id);
    }
  }

  // ---------------------------------------------------------------- a kept tail is valid again

  /** The same open calls, counted from the new beginning. */
  ghost predicate Shifted(calls: map<string, nat>, shifted: map<string, nat>, cut: nat) {
    calls.Keys == shifted.Keys && forall id :: id in calls ==> calls[id] >= cut && shifted[id] == calls[id] - cut + 1
  }

  lemma {:induction false} OpensShift(bs: seq<Block>, at: nat, to: nat)
    ensures |Opens(bs, to)| == |Opens(bs, at)|
    ensures forall i :: 0 <= i < |Opens(bs, at)| ==> Opens(bs, to)[i] == Opens(bs, at)[i].(at := to)
  {
    if bs != [] { OpensShift(bs[..|bs| - 1], at, to); }
    OpensAt(bs, at);
  }

  lemma EventsShift(m: Message, at: nat, to: nat)
    ensures |EventsOf(m, to)| == |EventsOf(m, at)|
    ensures forall i :: 0 <= i < |EventsOf(m, at)| ==> EventsOf(m, to)[i] == EventsOf(m, at)[i].(at := to)
  {
    OpensShift(m.blocks, at, to);
  }

  lemma {:induction false} NoteAllShift(b: Book, c: Book, es: seq<Ev>, fs: seq<Ev>, derivedPrefix: nat, at: nat,
                                        cut: nat)
    requires NoteAll(b, es, derivedPrefix).Ok? && Shifted(b.calls, c.calls, cut) && at >= cut
    requires |fs| == |es| && forall i :: 0 <= i < |es| ==> es[i].at == at && fs[i] == es[i].(at := at - cut + 1)
    ensures NoteAll(c, fs, 1).Ok? &&
      Shifted(NoteAll(b, es, derivedPrefix).value.calls, NoteAll(c, fs, 1).value.calls, cut)
  {
    if es != [] { NoteAllShift(b, c, es[..|es| - 1], fs[..|fs| - 1], derivedPrefix, at, cut); }
  }

  lemma ReadShift(p: Progress, q: Progress, m: Message, at: nat, derivedPrefix: nat, cut: nat)
    requires Read(p, m, at, derivedPrefix).Ok? && Shifted(p.book.calls, q.book.calls, cut) && at >= cut
    requires q.seenUser || m.kind.User?
    ensures
      var r := Read(q, m, at - cut + 1, 1);
      r.Ok? && r.value.seenUser && Shifted(Read(p, m, at, derivedPrefix).value.book.calls, r.value.book.calls, cut)
  {
    EventsAt(m, at);
    EventsShift(m, at, at - cut + 1);
    NoteAllShift(p.book, q.book, EventsOf(m, at), EventsOf(m, at - cut + 1), derivedPrefix, at, cut);
  }

  /** A summary: a well-formed user message. */
  predicate IsSummary(m: Message) { m.kind.User? && CheckMessage(m).Fine? }

  /** The kept tail read so far agrees with the transcript read so far. */
  ghost predicate TailAgrees(r: Result<Progress>, p: Progress, started: bool, cut: nat) {
    r.Ok? && (started ==> r.value.seenUser) && Shifted(p.book.calls, r.value.book.calls, cut)
  }

  lemma TailStep(r: Result<Progress>, r': Result<Progress>, p: Progress, p': Progress, m: Message, n: nat,
                 derivedPrefix: nat, cut: nat)
    requires TailAgrees(r, p, n > cut, cut) && n >= cut && (n == cut ==> m.kind.User?)
    requires r' == Read(r.value, m, n - cut + 1, 1) && Ok(p') == Read(p, m, n, derivedPrefix)
    ensures TailAgrees(r', p', true, cut)
  {
    ReadShift(p, r.value, m, n, derivedPrefix, cut);
  }

  lemma SummaryReads(us: seq<Message>, p: Progress, cut: nat)
    requires us != [] && IsSummary(us[0]) && p.book.calls == map[]
    ensures TailAgrees(ReadTo(us, 1, 1), p, false, cut)
  {
    assert ReadTo(us, 0, 1) == Ok(Progress(EMPTY_BOOK, false));
  }

  /** The kept tail agrees after n messages of the transcript. */
  ghost predicate TailAt(ts: seq<Message>, us: seq<Message>, derivedPrefix: nat, cut: nat, n: nat) {
    cut <= n <= |ts| && n - cut + 1 <= |us|
      && TailAgrees(ReadTo(us, n - cut + 1, 1), ReadAt(ts, n, derivedPrefix), n > cut, cut)
  }

  lemma TailNext(ts: seq<Message>, us: seq<Message>, derivedPrefix: nat, cut: nat, m: nat)
    requires ReadTo(ts, |ts|, derivedPrefix).Ok? && cut <= m < |ts| && m - cut + 1 < |us| && us[m - cut + 1] == ts[m]
    requires TailAt(ts, us, derivedPrefix, cut, m) && (m == cut ==> ts[m].kind.User?)
    ensures TailAt(ts, us, derivedPrefix, cut, m + 1)
  {
    var k := m - cut + 1;
    ReadStep(ts, m, derivedPrefix);
    TailStep(ReadTo(us, k, 1), ReadTo(us, k + 1, 1), ReadAt(ts, m, derivedPrefix), ReadAt(ts, m + 1, derivedPrefix),
             ts[m], m, derivedPrefix, cut);
  }

  lemma SameMessage(ts: seq<Message>, us: seq<Message>, cut: nat, m: nat)
    requires us != [] && cut <= m < |ts| && us[1..] == ts[cut..]
    ensures m - cut + 1 < |us| && us[m - cut + 1] == ts[m]
  {
    assert us[1..][m - cut] == us[m - cut + 1];
    assert ts[cut..][m - cut] == ts[m];
  }

  /** Compaction keeps transcripts valid: the summary and the retained tail, with a derived prefix of
      one, pass the same validation. */
  lemma TailIsValidAgain(ts: seq<Message>, derivedPrefix: nat, cut: nat, summary: Message)
    requires Validate(ts, derivedPrefix).Ok? && SplitsNone(Validate(ts, derivedPrefix).value, cut) && cut <= |ts|
    requires IsSummary(summary) && (cut < |ts| ==> ts[cut].kind.User?)
    ensures Validate([summary] + ts[cut..], 1).Ok?
  {
    var us := [summary] + ts[cut..];
    ClosedAtCut(ts, derivedPrefix, cut);
    SummaryReads(us, ReadAt(ts, cut, derivedPrefix), cut);
    TailReads(ts, us, derivedPrefix, cut, cut);
    TailEnds(ts, us, derivedPrefix, cut);
  }

  /** The two transcripts whose readings are compared. */
  ghost predicate Compared(ts: seq<Message>, us: seq<Message>, derivedPrefix: nat, cut: nat) {
    && ReadTo(ts, |ts|, derivedPrefix).Ok? && cut <= |ts| && (cut < |ts| ==> ts[cut].kind.User?)
    && us != [] && us[1..] == ts[cut..]
  }

  lemma TailGoesOn(ts: seq<Message>, us: seq<Message>, derivedPrefix: nat, cut: nat, m: nat)
    requires Compared(ts, us, derivedPrefix, cut) && cut <= m < |ts| && TailAt(ts, us, derivedPrefix, cut, m)
    ensures TailAt(ts, us, derivedPrefix, cut, m + 1)
  {
    SameMessage(ts, us, cut, m);
    TailNext(ts, us, derivedPrefix, cut, m);
  }

  lemma {:induction false} TailReads(ts: seq<Message>, us: seq<Message>, derivedPrefix: nat, cut: nat, n: nat)
    requires Compared(ts, us, derivedPrefix, cut) && cut <= n <= |ts| && TailAt(ts, us, derivedPrefix, cut, n)
    ensures TailAt(ts, us, derivedPrefix, cut, |ts|)
    decreases |ts| - n
  {
    if n < |ts| {
      TailGoesOn(ts, us, derivedPrefix, cut, n);
      TailReads(ts, us, derivedPrefix, cut, n + 1);
    }
  }

  lemma TailEnds(ts: seq<Message>, us: seq<Message>, derivedPrefix: nat, cut: nat)
    requires Validate(ts, derivedPrefix).Ok? && |us| == |ts| - cut + 1 && TailAt(ts, us, derivedPrefix, cut, |ts|)
    ensures Validate(us, 1).Ok?
  {
  }

  // ---------------------------------------------------------------- any number of compactions

  /** What a loop holds: its messages, of which the first `derived` are summaries. */
  datatype History = History(messages: seq<Message>, derived: nat)

  predicate WellPaired(h: History) { h.derived <= |h.messages| && Validate(h.messages, h.derived).Ok? }

  /** `selectCompactionExecutionCandidate` accepts a selection whose head reaches past the derived prefix,
      and the replacement puts the summary before what was retained. */
  ghost predicate Compacts(h: History, g: History, summary: Message, maxSegments: nat, maxTokens: nat) {
    exists sel, pairs ::
      && Validate(h.messages, h.derived) == Ok(pairs)
      && IsSelection(h.messages, h.derived, pairs, maxSegments, maxTokens, sel)
      && |sel.head| > h.derived && g == History([summary] + sel.retained, 1)
  }

  function Genuine(h: History): int { |h.messages| - h.derived }

  /** One compaction keeps a well-paired history well-paired, keeps an untouched suffix of the genuine
      messages, and leaves strictly fewer of them. */
  lemma CompactionShrinks(h: History, g: History, summary: Message, maxSegments: nat, maxTokens: nat)
    requires WellPaired(h) && IsSummary(summary) && Compacts(h, g, summary, maxSegments, maxTokens)
    ensures Reduced(h, g, 1)
  {
    var sel, pairs :| Validate(h.messages, h.derived) == Ok(pairs)
      && IsSelection(h.messages, h.derived, pairs, maxSegments, maxTokens, sel)
      && |sel.head| > h.derived && g == History([summary] + sel.retained, 1);
    SelectionKeepsPairs(h.messages, h.derived, pairs, maxSegments, maxTokens, sel);
    assert sel.retained == h.messages[|sel.head|..];
    TailIsValidAgain(h.messages, h.derived, |sel.head|, summary);
  }

  /** What is left of the genuine messages is a suffix of them. */
  ghost predicate KeepsSuffix(h: History, g: History) {
    && g.derived <= |g.messages| && Genuine(g) <= |h.messages|
    && g.messages[g.derived..] == h.messages[|h.messages| - Genuine(g)..]
  }

  /** Well-paired, a suffix of the genuine messages, and at least k of them fewer. */
  ghost predicate Reduced(h: History, g: History, k: nat) {
    WellPaired(g) && 0 <= Genuine(g) <= Genuine(h) - k && KeepsSuffix(h, g)
  }

  // ---------------------------------------------------------------- validation, without the open-call map

  function EventsTo(ts: seq<Message>, n: nat): seq<Ev>
    requires n <= |ts|
    decreases n
  {
    if n == 0 then [] else EventsTo(ts, n - 1) + EventsOf(ts[n - 1], n - 1)
  }

  function AllEvents(ts: seq<Message>): seq<Ev> { EventsTo(ts, |ts|) }

  /** The event at a opens an id, the one at b closes it, and no event between is about it. */
  predicate Matched(es: seq<Ev>, a: nat, b: nat) {
    && a < b < |es| && es[a].open && !es[b].open && es[a].id == es[b].id
    && forall k :: a < k < b ==> es[k].id != es[a].id
  }

  /** Every call has its result and every result its call, under a name, and no pair crosses the prefix. */
  ghost predicate CompletelyPaired(es: seq<Ev>, derivedPrefix: nat) {
    && (forall i :: 0 <= i < |es| ==> es[i].id != "")
    && (forall a: nat :: a < |es| && es[a].open ==> exists b: nat :: Matched(es, a, b))
    && (forall b: nat :: b < |es| && !es[b].open ==> exists a: nat :: Matched(es, a, b))
    && (forall a: nat, b: nat :: Matched(es, a, b) ==> !Splits(Pair(es[a].at, es[b].at), derivedPrefix))
  }

  predicate OpenIn(es: seq<Ev>, n: nat, id: string, a: nat) {
    a < n <= |es| && es[a].open && es[a].id == id && forall k :: a < k < n ==> es[k].id != id
  }

  ghost predicate IsOpen(es: seq<Ev>, n: nat, id: string) { exists a: nat :: OpenIn(es, n, id, a) }

  /** The open-call map after n events is what the events say. */
  ghost predicate SaysOpen(es: seq<Ev>, n: nat, calls: map<string, nat>) {
    && (forall id :: id in calls ==> IsOpen(es, n, id))
    && (forall id, a: nat :: OpenIn(es, n, id, a) ==> id in calls && calls[id] == es[a].at)
  }

  function Noted(es: seq<Ev>, n: nat, derivedPrefix: nat): Result<Book>
    requires n <= |es|
  {
    NoteAll(EMPTY_BOOK, es[..n], derivedPrefix)
  }

  lemma NotedNext(es: seq<Ev>, n: nat, derivedPrefix: nat)
    requires n < |es|
    ensures Noted(es, n, derivedPrefix).Err? ==> Noted(es, n + 1, derivedPrefix).Err?
    ensures Noted(es, n, derivedPrefix).Ok? ==>
      Noted(es, n + 1, derivedPrefix) == Note(Noted(es, n, derivedPrefix).value, es[n], derivedPrefix)
  {
    assert es[..n + 1][..n] == es[..n];
  }

  lemma {:induction false} NotedBefore(es: seq<Ev>, n: nat, m: nat, derivedPrefix: nat)
    requires n <= m <= |es| && Noted(es, m, derivedPrefix).Ok?
    ensures Noted(es, n, derivedPrefix).Ok? &&
      Noted(es, n, derivedPrefix).value.pairs <= Noted(es, m, derivedPrefix).value.pairs
    decreases m
  {
    if n < m {
      NotedNext(es, m - 1, derivedPrefix);
      NotedBefore(es, n, m - 1, derivedPrefix);
    }
  }

  lemma SaysOpenNext(es: seq<Ev>, n: nat, calls: map<string, nat>)
    requires n < |es| && SaysOpen(es, n, calls)
    ensures es[n].open ==> SaysOpen(es, n + 1, calls[es[n].id := es[n].at])
    ensures !es[n].open ==> SaysOpen(es, n + 1, calls - {es[n].id})
  {
    var e := es[n];
    forall id, a: nat
      ensures OpenIn(es, n + 1, id, a) <==> (if id == e.id then a == n && e.open else OpenIn(es, n, id, a))
    {
    }
    forall id | id in calls && id != e.id ensures IsOpen(es, n + 1, id) {
      assert IsOpen(es, n, id);
      var a: nat :| OpenIn(es, n, id, a);
      assert OpenIn(es, n + 1, id, a);
    }
    if e.open { assert OpenIn(es, n + 1, e.id, n); }
  }

  lemma {:induction false} CallsSayOpen(es: seq<Ev>, n: nat, derivedPrefix: nat)
    requires n <= |es| && Noted(es, n, derivedPrefix).Ok?
    ensures SaysOpen(es, n, Noted(es, n, derivedPrefix).value.calls)
    decreases n
  {
    if n > 0 {
      NotedNext(es, n - 1, derivedPrefix);
      CallsSayOpen(es, n - 1, derivedPrefix);
      SaysOpenNext(es, n - 1, Noted(es, n - 1, derivedPrefix).value.calls);
    }
  }

  /** A call that was noted is closed by the next event about it, or still open. */
  lemma {:induction false} NextCloses(es: seq<Ev>, derivedPrefix: nat, a: nat, n: nat)
    requires a < n <= |es| && es[a].open && Noted(es, |es|, derivedPrefix).Ok?
    ensures OpenIn(es, n, es[a].id, a) || exists b: nat :: b < n && Matched(es, a, b)
    decreases n
  {
    if n > a + 1 {
      NextCloses(es, derivedPrefix, a, n - 1);
      NotedBefore(es, n - 1, |es|, derivedPrefix);
      NotedBefore(es, n, |es|, derivedPrefix);
      NotedNext(es, n - 1, derivedPrefix);
      CallsSayOpen(es, n - 1, derivedPrefix);
      if OpenIn(es, n - 1, es[a].id, a) && es[n - 1].id == es[a].id { assert Matched(es, a, n - 1); }
    }
  }

  lemma ResultHasCall(es: seq<Ev>, derivedPrefix: nat, b: nat)
    requires b < |es| && !es[b].open && Noted(es, |es|, derivedPrefix).Ok?
    ensures exists a: nat :: Matched(es, a, b)
  {
    NotedBefore(es, b, |es|, derivedPrefix);
    NotedBefore(es, b + 1, |es|, derivedPrefix);
    NotedNext(es, b, derivedPrefix);
    CallsSayOpen(es, b, derivedPrefix);
    assert IsOpen(es, b, es[b].id);
    var a: nat :| OpenIn(es, b, es[b].id, a);
    assert Matched(es, a, b);
  }

  /** A matched pair is one of the pairs validation returns, and does not cross the prefix. */
  lemma MatchedIsPaired(es: seq<Ev>, derivedPrefix: nat, a: nat, b: nat)
    requires Matched(es, a, b) && Noted(es, |es|, derivedPrefix).Ok?
    ensures Pair(es[a].at, es[b].at) in Noted(es, |es|, derivedPrefix).value.pairs
    ensures !Splits(Pair(es[a].at, es[b].at), derivedPrefix)
  {
    NotedBefore(es, b, |es|, derivedPrefix);
    NotedBefore(es, b + 1, |es|, derivedPrefix);
    NotedNext(es, b, derivedPrefix);
    CallsSayOpen(es, b, derivedPrefix);
    assert OpenIn(es, b, es[b].id, a);
    var some, all := Noted(es, b + 1, derivedPrefix).value.pairs, Noted(es, |es|, derivedPrefix).value.pairs;
    assert some[|some| - 1] == Pair(es[a].at, es[b].at) && all[|some| - 1] == some[|some| - 1];
  }

  lemma NamesAreNoted(es: seq<Ev>, derivedPrefix: nat, i: nat)
    requires i < |es| && Noted(es, |es|, derivedPrefix).Ok?
    ensures es[i].id != ""
  {
    NotedBefore(es, i + 1, |es|, derivedPrefix);
    NotedBefore(es, i, |es|, derivedPrefix);
    NotedNext(es, i, derivedPrefix);
  }

  lemma NotedIsPaired(es: seq<Ev>, derivedPrefix: nat)
    requires Noted(es, |es|, derivedPrefix).Ok? && Noted(es, |es|, derivedPrefix).value.calls == map[]
    ensures CompletelyPaired(es, derivedPrefix)
  {
    CallsSayOpen(es, |es|, derivedPrefix);
    forall i | 0 <= i < |es| ensures es[i].id != "" { NamesAreNoted(es, derivedPrefix, i); }
    forall a: nat | a < |es| && es[a].open ensures exists b: nat :: Matched(es, a, b) {
      NextCloses(es, derivedPrefix, a, |es|);
    }
    forall b: nat | b < |es| && !es[b].open ensures exists a: nat :: Matched(es, a, b) {
      ResultHasCall(es, derivedPrefix, b);
    }
    forall a: nat, b: nat | Matched(es, a, b) ensures !Splits(Pair(es[a].at, es[b].at), derivedPrefix) {
      MatchedIsPaired(es, derivedPrefix, a, b);
    }
  }

  /** In completely paired events an open call is never opened again. */
  lemma NeverReopened(es: seq<Ev>, derivedPrefix: nat, n: nat)
    requires n < |es| && es[n].open && Noted(es, n, derivedPrefix).Ok?
    ensures CompletelyPaired(es, derivedPrefix) ==> es[n].id !in Noted(es, n, derivedPrefix).value.calls
  {
    if es[n].id in Noted(es, n, derivedPrefix).value.calls {
      CallsSayOpen(es, n, derivedPrefix);
      assert IsOpen(es, n, es[n].id);
      var a: nat :| OpenIn(es, n, es[n].id, a);
      NoMatch(es, n, a);
      assert es[a].open;
    }
  }

  lemma NoMatch(es: seq<Ev>, n: nat, a: nat)
    requires n <= |es| && a < |es| && OpenIn(es, n, es[a].id, a) && (n < |es| ==> es[n].open && es[n].id == es[a].id)
    ensures forall b: nat :: !Matched(es, a, b)
  {
  }

  /** A matched result finds its call open. */
  lemma ResultIsNoted(es: seq<Ev>, derivedPrefix: nat, a: nat, n: nat)
    requires Matched(es, a, n) && Noted(es, n, derivedPrefix).Ok? && es[n].id != ""
    requires !Splits(Pair(es[a].at, es[n].at), derivedPrefix)
    ensures Note(Noted(es, n, derivedPrefix).value, es[n], derivedPrefix).Ok?
  {
    CallsSayOpen(es, n, derivedPrefix);
    assert OpenIn(es, n, es[n].id, a);
  }

  lemma EventIsNoted(es: seq<Ev>, derivedPrefix: nat, n: nat)
    requires CompletelyPaired(es, derivedPrefix) && n < |es| && Noted(es, n, derivedPrefix).Ok?
    ensures Note(Noted(es, n, derivedPrefix).value, es[n], derivedPrefix).Ok?
  {
    if es[n].open {
      NeverReopened(es, derivedPrefix, n);
    } else {
      var a: nat :| Matched(es, a, n);
      ResultIsNoted(es, derivedPrefix, a, n);
    }
  }

  ghost predicate NotesNext(es: seq<Ev>, derivedPrefix: nat, m: nat) {
    m < |es| && Noted(es, m, derivedPrefix).Ok? ==> Note(Noted(es, m, derivedPrefix).value, es[m], derivedPrefix).Ok?
  }

  lemma {:induction false} NotedByStep(es: seq<Ev>, derivedPrefix: nat, n: nat)
    requires n <= |es| && forall m: nat :: NotesNext(es, derivedPrefix, m)
    ensures Noted(es, n, derivedPrefix).Ok?
    decreases n
  {
    if n > 0 {
      NotedByStep(es, derivedPrefix, n - 1);
      NotedNext(es, n - 1, derivedPrefix);
      assert NotesNext(es, derivedPrefix, n - 1);
    }
  }

  lemma PairedIsNoted(es: seq<Ev>, derivedPrefix: nat)
    requires CompletelyPaired(es, derivedPrefix)
    ensures Noted(es, |es|, derivedPrefix).Ok?
  {
    forall m: nat ensures NotesNext(es, derivedPrefix, m) {
      if m < |es| && Noted(es, m, derivedPrefix).Ok? { EventIsNoted(es, derivedPrefix, m); }
    }
    NotedByStep(es, derivedPrefix, |es|);
  }

  /** A call left open at the end has no result. */
  lemma LeftOpenIsUnpaired(es: seq<Ev>, derivedPrefix: nat, id: string)
    requires Noted(es, |es|, derivedPrefix).Ok? && id in Noted(es, |es|, derivedPrefix).value.calls
    ensures !CompletelyPaired(es, derivedPrefix)
  {
    CallsSayOpen(es, |es|, derivedPrefix);
    assert IsOpen(es, |es|, id);
    var a: nat :| OpenIn(es, |es|, id, a);
    NoMatch(es, |es|, a);
    assert es[a].open;
  }

  lemma NoneLeftOpen(es: seq<Ev>, derivedPrefix: nat)
    requires Noted(es, |es|, derivedPrefix).Ok?
    ensures CompletelyPaired(es, derivedPrefix) ==> Noted(es, |es|, derivedPrefix).value.calls == map[]
  {
    var calls := Noted(es, |es|, derivedPrefix).value.calls;
    if calls != map[] {
      var id :| id in calls;
      LeftOpenIsUnpaired(es, derivedPrefix, id);
    }
  }

  // ---------------------------------------------------------------- validation is complete pairing

  lemma {:induction false} NoteAllConcat(b: Book, es: seq<Ev>, fs: seq<Ev>, derivedPrefix: nat)
    ensures NoteAll(b, es, derivedPrefix).Err? ==> NoteAll(b, es + fs, derivedPrefix).Err?
    ensures NoteAll(b, es, derivedPrefix).Ok? ==>
      NoteAll(b, es + fs, derivedPrefix) == NoteAll(NoteAll(b, es, derivedPrefix).value, fs, derivedPrefix)
  {
    if fs == [] {
      assert es + fs == es;
    } else {
      var init := fs[..|fs| - 1];
      NoteAllConcat(b, es, init, derivedPrefix);
      assert (es + fs)[..|es + fs| - 1] == es + init;
    }
  }

  /** The first n messages are well-formed, and the first one past the derived prefix is a user's. */
  predicate MessagesOk(ts: seq<Message>, n: nat, derivedPrefix: nat)
    requires n <= |ts|
  {
    && (forall i :: 0 <= i < n ==> WellFormed(ts[i]))
    && (derivedPrefix < n ==> ts[derivedPrefix].kind.User?)
  }

  /** A known kind under its own role, blocks that pass, and an encoding. */
  predicate WellFormed(m: Message) {
    !m.kind.Unknown? && m.roleOk && Known(m.blocks) && Shallow(m.blocks, MAX_DEPTH) && m.encoded.Bytes?
  }

  lemma WellFormedIs(m: Message)
    ensures CheckMessage(m).Fine? <==> WellFormed(m)
  {
    CheckBlocksIs(m.blocks);
  }

  /** What reading one message more asks of it. */
  lemma ReadAsks(ts: seq<Message>, n: nat, derivedPrefix: nat)
    requires n < |ts| && ReadTo(ts, n, derivedPrefix).Ok?
    ensures
      var p := ReadTo(ts, n, derivedPrefix).value;
      Read(p, ts[n], n, derivedPrefix).Ok? <==>
        WellFormed(ts[n]) && (n == derivedPrefix ==> ts[n].kind.User?) &&
          NoteAll(p.book, EventsOf(ts[n], n), derivedPrefix).Ok?
  {
    ReadToOk(ts, n, derivedPrefix);
    WellFormedIs(ts[n]);
  }

  ghost predicate ReadsAs(ts: seq<Message>, n: nat, derivedPrefix: nat)
    requires n <= |ts|
  {
    var noted := NoteAll(EMPTY_BOOK, EventsTo(ts, n), derivedPrefix);
    && (ReadTo(ts, n, derivedPrefix).Ok? <==> MessagesOk(ts, n, derivedPrefix) && noted.Ok?)
    && (ReadTo(ts, n, derivedPrefix).Ok? ==> noted == Ok(ReadTo(ts, n, derivedPrefix).value.book))
  }

  lemma ReadsAsNext(ts: seq<Message>, n: nat, derivedPrefix: nat)
    requires n < |ts| && ReadsAs(ts, n, derivedPrefix)
    ensures ReadsAs(ts, n + 1, derivedPrefix)
  {
    NoteAllConcat(EMPTY_BOOK, EventsTo(ts, n), EventsOf(ts[n], n), derivedPrefix);
    if ReadTo(ts, n, derivedPrefix).Ok? { ReadAsks(ts, n, derivedPrefix); }
  }

  lemma {:induction false} ReadToIs(ts: seq<Message>, derivedPrefix: nat, n: nat)
    requires n <= |ts|
    ensures ReadsAs(ts, n, derivedPrefix)
  {
    if n > 0 {
      ReadToIs(ts, derivedPrefix, n - 1);
      ReadsAsNext(ts, n - 1, derivedPrefix);
    }
  }

  /** A transcript validates exactly when its messages are well-formed, its tail is anchored and its calls
      and results are completely paired. */
  lemma ValidIffCompletelyPaired(ts: seq<Message>, derivedPrefix: nat)
    ensures Validate(ts, derivedPrefix).Ok? <==>
      MessagesOk(ts, |ts|, derivedPrefix) && CompletelyPaired(AllEvents(ts), derivedPrefix)
  {
    var es := AllEvents(ts);
    ReadToIs(ts, derivedPrefix, |ts|);
    assert es[..|es|] == es;
    if Validate(ts, derivedPrefix).Ok? { NotedIsPaired(es, derivedPrefix); }
    if CompletelyPaired(es, derivedPrefix) {
      PairedIsNoted(es, derivedPrefix);
      NoneLeftOpen(es, derivedPrefix);
    }
  }

  lemma SameSide(ts: seq<Message>, derivedPrefix: nat, pairs: seq<Pair>, cut: nat, a: nat, b: nat)
    requires Validate(ts, derivedPrefix) == Ok(pairs) && SplitsNone(pairs, cut) && Matched(AllEvents(ts), a, b)
    ensures AllEvents(ts)[a].at < cut <==> AllEvents(ts)[b].at < cut
  {
    var es := AllEvents(ts);
    ReadToIs(ts, derivedPrefix, |ts|);
    assert es[..|es|] == es;
    MatchedIsPaired(es, derivedPrefix, a, b);
    ReadToOk(ts, |ts|, derivedPrefix);
    var i :| 0 <= i < |pairs| && pairs[i] == Pair(es[a].at, es[b].at);
    assert !Splits(pairs[i], cut);
  }

  /** The cut of a selection leaves every call of a valid transcript on the same side as its result. */
  lemma NoCallLosesItsResult(ts: seq<Message>, derivedPrefix: nat, pairs: seq<Pair>, maxSegments: nat, maxTokens: nat,
                             sel: Selection, a: nat, b: nat)
    requires Validate(ts, derivedPrefix) == Ok(pairs) && derivedPrefix <= |ts|
    requires IsSelection(ts, derivedPrefix, pairs, maxSegments, maxTokens, sel) && Matched(AllEvents(ts), a, b)
    ensures AllEvents(ts)[a].at < |sel.head| <==> AllEvents(ts)[b].at < |sel.head|
  {
    SelectionKeepsPairs(ts, derivedPrefix, pairs, maxSegments, maxTokens, sel);
    SameSide(ts, derivedPrefix, pairs, |sel.head|, a, b);
  }

  // ---------------------------------------------------------------- a history that grows and is compacted

  function Later(es: seq<Ev>, d: nat): seq<Ev> { seq(|es|, i requires 0 <= i < |es| => es[i].(at := es[i].at + d)) }

  lemma LaterConcat(es: seq<Ev>, fs: seq<Ev>, d: nat)
    ensures Later(es + fs, d) == Later(es, d) + Later(fs, d)
  {
  }

  lemma LaterAdds(es: seq<Ev>, fs: seq<Ev>, gs: seq<Ev>, before: seq<Ev>, after: seq<Ev>, d: nat)
    requires before == es + Later(fs, d) && after == before + Later(gs, d)
    ensures after == es + Later(fs + gs, d)
  {
    LaterConcat(fs, gs, d);
  }

  lemma {:induction false} OpensLater(bs: seq<Block>, at: nat, d: nat)
    ensures Opens(bs, at + d) == Later(Opens(bs, at), d)
  {
    if bs != [] {
      var init, last := bs[..|bs| - 1], bs[|bs| - 1];
      OpensLater(init, at, d);
      LaterConcat(Opens(init, at), if last.Call? then [Ev(at, last.id, true)] else [], d);
    }
  }

  lemma EventsLater(m: Message, at: nat, d: nat)
    ensures EventsOf(m, at + d) == Later(EventsOf(m, at), d)
  {
    OpensLater(m.blocks, at, d);
  }

  /** The whole is the first transcript followed by more. */
  predicate Joins(ts: seq<Message>, more: seq<Message>, whole: seq<Message>) {
    && |whole| == |ts| + |more| && (forall i :: 0 <= i < |ts| ==> whole[i] == ts[i])
    && forall i :: 0 <= i < |more| ==> whole[|ts| + i] == more[i]
  }

  lemma {:induction false} EventsOfPrefix(ts: seq<Message>, more: seq<Message>, whole: seq<Message>, n: nat)
    requires Joins(ts, more, whole) && n <= |ts|
    ensures EventsTo(whole, n) == EventsTo(ts, n)
  {
    if n > 0 { EventsOfPrefix(ts, more, whole, n - 1); }
  }

  ghost predicate EventsJoin(ts: seq<Message>, more: seq<Message>, whole: seq<Message>, n: nat) {
    && n <= |more| && |whole| == |ts| + |more|
    && EventsTo(whole, |ts| + n) == AllEvents(ts) + Later(EventsTo(more, n), |ts|)
  }

  lemma EventsJoinFirst(ts: seq<Message>, more: seq<Message>, whole: seq<Message>)
    requires Joins(ts, more, whole)
    ensures EventsJoin(ts, more, whole, 0)
  {
    EventsOfPrefix(ts, more, whole, |ts|);
    assert Later([], |ts|) == [];
  }

  lemma EventsAdd(ts: seq<Message>, n: nat)
    requires n < |ts|
    ensures EventsTo(ts, n + 1) == EventsTo(ts, n) + EventsOf(ts[n], n)
  {
  }

  lemma EventsJoinNext(ts: seq<Message>, more: seq<Message>, whole: seq<Message>, n: nat)
    requires Joins(ts, more, whole) && n < |more| && EventsJoin(ts, more, whole, n)
    ensures EventsJoin(ts, more, whole, n + 1)
  {
    var d, last := |ts|, EventsOf(more[n], n);
    EventsAdd(whole, d + n);
    EventsAdd(more, n);
    EventsLater(more[n], n, d);
    LaterAdds(AllEvents(ts), EventsTo(more, n), last, EventsTo(whole, d + n), EventsTo(whole, d + n + 1), d);
  }

  lemma {:induction false} EventsOfBoth(ts: seq<Message>, more: seq<Message>, whole: seq<Message>, n: nat)
    requires Joins(ts, more, whole) && n <= |more| && EventsJoin(ts, more, whole, n)
    ensures EventsJoin(ts, more, whole, |more|)
    decreases |more| - n
  {
    if n < |more| {
      EventsJoinNext(ts, more, whole, n);
      EventsOfBoth(ts, more, whole, n + 1);
    }
  }

  /** A match of the first part is one of the whole, and so is a match of the second, further on. */
  lemma MatchedFirst(es: seq<Ev>, fs: seq<Ev>, a: nat, b: nat)
    requires b < |es|
    ensures Matched(es, a, b) <==> Matched(es + fs, a, b)
  {
    if a < b {
      assert forall k :: a <= k <= b ==> (es + fs)[k] == es[k];
    }
  }

  lemma MatchedSecond(es: seq<Ev>, fs: seq<Ev>, a: nat, b: nat, d: nat)
    requires b < |fs|
    ensures Matched(fs, a, b) <==> Matched(es + Later(fs, d), |es| + a, |es| + b)
  {
    var all := es + Later(fs, d);
    if a < b {
      assert forall k :: a <= k <= b ==> all[|es| + k] == fs[k].(at := fs[k].at + d);
      if Matched(all, |es| + a, |es| + b) {
        forall k | a < k < b ensures fs[k].id != fs[a].id {
          assert all[|es| + k].id != all[|es| + a].id;
        }
      }
      if Matched(fs, a, b) {
        forall k | |es| + a < k < |es| + b ensures all[k].id != all[|es| + a].id {
          assert all[k] == fs[k - |es|].(at := fs[k - |es|].at + d);
        }
      }
    }
  }

  /** A call that has its result is not matched by a later one. */
  lemma NoMatchAcross(es: seq<Ev>, fs: seq<Ev>, a: nat, b: nat)
    requires a < |es| <= b && HasPartner(es, a)
    ensures !Matched(es + fs, a, b)
  {
    assert (es + fs)[a] == es[a];
    if es[a].open {
      var c: nat :| Matched(es, a, c);
      assert (es + fs)[c].id == es[a].id;
    }
  }

  /** The event at i has a name and a partner. */
  ghost predicate HasPartner(es: seq<Ev>, i: nat) {
    && i < |es| && es[i].id != ""
    && (if es[i].open then exists b: nat :: Matched(es, i, b) else exists a: nat :: Matched(es, a, i))
  }

  lemma PartnerFirst(es: seq<Ev>, fs: seq<Ev>, i: nat)
    requires HasPartner(es, i)
    ensures HasPartner(es + fs, i)
  {
    assert (es + fs)[i] == es[i];
    if es[i].open {
      var b: nat :| Matched(es, i, b);
      MatchedFirst(es, fs, i, b);
    } else {
      var a: nat :| Matched(es, a, i);
      MatchedFirst(es, fs, a, i);
    }
  }

  lemma PartnerSecond(es: seq<Ev>, fs: seq<Ev>, d: nat, i: nat)
    requires HasPartner(fs, i)
    ensures HasPartner(es + Later(fs, d), |es| + i)
  {
    var all := es + Later(fs, d);
    assert all[|es| + i] == fs[i].(at := fs[i].at + d);
    if fs[i].open {
      var b: nat :| Matched(fs, i, b);
      MatchedSecond(es, fs, i, b, d);
      assert Matched(all, |es| + i, |es| + b);
    } else {
      var a: nat :| Matched(fs, a, i);
      MatchedSecond(es, fs, a, i, d);
      assert Matched(all, |es| + a, |es| + i);
    }
  }

  /** No match crosses the prefix. */
  ghost predicate NoneSplit(es: seq<Ev>, derivedPrefix: nat) {
    forall a: nat, b: nat :: Matched(es, a, b) ==> !Splits(Pair(es[a].at, es[b].at), derivedPrefix)
  }

  lemma PartnersAre(es: seq<Ev>, derivedPrefix: nat)
    ensures CompletelyPaired(es, derivedPrefix) <==>
      (forall i: nat :: i < |es| ==> HasPartner(es, i)) && NoneSplit(es, derivedPrefix)
  {
    if forall i: nat :: i < |es| ==> HasPartner(es, i) {
      assert forall i :: 0 <= i < |es| ==> HasPartner(es, i) ==> es[i].id != "";
      forall a: nat | a < |es| && es[a].open ensures exists b: nat :: Matched(es, a, b) {
        assert HasPartner(es, a);
      }
      forall b: nat | b < |es| && !es[b].open ensures exists a: nat :: Matched(es, a, b) {
        assert HasPartner(es, b);
      }
    }
  }

  lemma MatchesDoNotSplit(es: seq<Ev>, fs: seq<Ev>, d: nat, derivedPrefix: nat, a: nat, b: nat)
    requires NoneSplit(es, derivedPrefix) && (a < |es| ==> HasPartner(es, a)) && derivedPrefix <= d
    requires Matched(es + Later(fs, d), a, b)
    ensures !Splits(Pair((es + Later(fs, d))[a].at, (es + Later(fs, d))[b].at), derivedPrefix)
  {
    if b < |es| {
      MatchedFirst(es, Later(fs, d), a, b);
    } else if a >= |es| {
      assert (es + Later(fs, d))[a] == Later(fs, d)[a - |es|];
    } else {
      NoMatchAcross(es, Later(fs, d), a, b);
    }
  }

  lemma PairedBoth(es: seq<Ev>, fs: seq<Ev>, d: nat, derivedPrefix: nat)
    requires CompletelyPaired(es, derivedPrefix) && CompletelyPaired(fs, 0) && derivedPrefix <= d
    ensures CompletelyPaired(es + Later(fs, d), derivedPrefix)
  {
    PartnersAre(es, derivedPrefix);
    PartnersAre(fs, 0);
    BothPartners(es, fs, d, derivedPrefix);
    PartnersAre(es + Later(fs, d), derivedPrefix);
  }

  lemma BothPartners(es: seq<Ev>, fs: seq<Ev>, d: nat, derivedPrefix: nat)
    requires (forall i: nat :: i < |es| ==> HasPartner(es, i)) && (forall i: nat :: i < |fs| ==> HasPartner(fs, i))
    requires NoneSplit(es, derivedPrefix) && derivedPrefix <= d
    ensures var all := es + Later(fs, d);
      (forall i: nat :: i < |all| ==> HasPartner(all, i)) && NoneSplit(all, derivedPrefix)
  {
    var all := es + Later(fs, d);
    forall i: nat | i < |all| ensures HasPartner(all, i) {
      if i < |es| { PartnerFirst(es, Later(fs, d), i); } else { PartnerSecond(es, fs, d, i - |es|); }
    }
    forall a: nat, b: nat | Matched(all, a, b) ensures !Splits(Pair(all[a].at, all[b].at), derivedPrefix) {
      MatchesDoNotSplit(es, fs, d, derivedPrefix, a, b);
    }
  }

  /** What a turn appends: well-formed messages whose calls and results are complete among themselves. */
  ghost predicate WholeTurn(more: seq<Message>) {
    (forall i :: 0 <= i < |more| ==> WellFormed(more[i])) && CompletelyPaired(AllEvents(more), 0)
  }

  /** `state.msgs` grows at its end; the first genuine message is a user's. */
  ghost predicate Appends(h: History, g: History, more: seq<Message>) {
    && g == History(h.messages + more, h.derived) && WholeTurn(more)
    && (|h.messages| == h.derived && more != [] ==> more[0].kind.User?)
  }

  /** Appending a whole turn keeps a history well-paired. */
  lemma AppendKeepsPairs(h: History, g: History, more: seq<Message>)
    requires WellPaired(h) && Appends(h, g, more)
    ensures WellPaired(g)
  {
    ValidIffCompletelyPaired(h.messages, h.derived);
    ValidIffCompletelyPaired(g.messages, g.derived);
    AppendedOk(h, more);
    AppendedEvents(h.messages, more);
    PairedBoth(AllEvents(h.messages), AllEvents(more), |h.messages|, h.derived);
  }

  lemma AppendedEvents(ts: seq<Message>, more: seq<Message>)
    ensures AllEvents(ts + more) == AllEvents(ts) + Later(AllEvents(more), |ts|)
  {
    var whole := ts + more;
    EventsJoinFirst(ts, more, whole);
    EventsOfBoth(ts, more, whole, 0);
  }

  lemma AppendedOk(h: History, more: seq<Message>)
    requires h.derived <= |h.messages| && MessagesOk(h.messages, |h.messages|, h.derived)
    requires forall i :: 0 <= i < |more| ==> WellFormed(more[i])
    requires |h.messages| == h.derived && more != [] ==> more[0].kind.User?
    ensures MessagesOk(h.messages + more, |h.messages + more|, h.derived)
  {
  }

  datatype Change = Compaction(summary: Message, maxSegments: nat, maxTokens: nat) | Turn(more: seq<Message>)

  ghost predicate Changes(h: History, g: History, c: Change) {
    match c
    case Compaction(summary, maxSegments, maxTokens) =>
      IsSummary(summary) && Compacts(h, g, summary, maxSegments, maxTokens)
    case Turn(more) => Appends(h, g, more)
  }

  /** The life of a history: turns and compactions in any order, each compaction under limits of its own. */
  ghost predicate Life(hs: seq<History>, changes: seq<Change>) {
    && |hs| == |changes| + 1 && WellPaired(hs[0])
    && forall i :: 0 <= i < |changes| ==> Changes(hs[i], hs[i + 1], changes[i])
  }

  function GenuineMessages(h: History): seq<Message>
    requires h.derived <= |h.messages|
  {
    h.messages[h.derived..]
  }

  /** Everything that was ever said, from the start of this life. */
  function Said(first: seq<Message>, changes: seq<Change>, k: nat): seq<Message>
    requires k <= |changes|
  {
    if k == 0 then first
    else Said(first, changes, k - 1) + if changes[k - 1].Turn? then changes[k - 1].more else []
  }

  function CompactionCount(changes: seq<Change>, k: nat): nat
    requires k <= |changes|
  {
    if k == 0 then 0 else CompactionCount(changes, k - 1) + if changes[k - 1].Compaction? then 1 else 0
  }

  predicate IsSuffix<T(==)>(xs: seq<T>, ys: seq<T>) { |xs| <= |ys| && ys[|ys| - |xs|..] == xs }

  lemma SuffixTransitive<T>(xs: seq<T>, ys: seq<T>, zs: seq<T>)
    requires IsSuffix(xs, ys) && IsSuffix(ys, zs)
    ensures IsSuffix(xs, zs)
  {
    assert zs[|zs| - |xs|..] == zs[|zs| - |ys|..][|ys| - |xs|..];
  }

  lemma SuffixGrows<T>(xs: seq<T>, ys: seq<T>, more: seq<T>)
    requires IsSuffix(xs, ys)
    ensures IsSuffix(xs + more, ys + more)
  {
    assert (ys + more)[|ys + more| - |xs + more|..] == ys[|ys| - |xs|..] + more;
  }

  lemma ReducedSuffix(h: History, g: History)
    requires WellPaired(h) && Reduced(h, g, 1)
    ensures IsSuffix(GenuineMessages(g), GenuineMessages(h)) && |GenuineMessages(g)| < |GenuineMessages(h)|
  {
    var m, n := |GenuineMessages(h)|, |GenuineMessages(g)|;
    assert h.messages[|h.messages| - n..] == h.messages[h.derived..][m - n..];
  }

  /** Well-paired, and what is left of everything said is a suffix of it, at least k messages shorter. */
  ghost predicate Remembers(h: History, said: seq<Message>, k: nat) {
    WellPaired(h) && IsSuffix(GenuineMessages(h), said) && |GenuineMessages(h)| + k <= |said|
  }

  lemma CompactionRemembers(h: History, g: History, c: Change, said: seq<Message>, k: nat)
    requires Remembers(h, said, k) && Changes(h, g, c) && c.Compaction?
    ensures Remembers(g, said, k + 1)
  {
    CompactionShrinks(h, g, c.summary, c.maxSegments, c.maxTokens);
    ReducedSuffix(h, g);
    SuffixTransitive(GenuineMessages(g), GenuineMessages(h), said);
  }

  lemma TurnRemembers(h: History, g: History, c: Change, said: seq<Message>, k: nat)
    requires Remembers(h, said, k) && Changes(h, g, c) && c.Turn?
    ensures Remembers(g, said + c.more, k)
  {
    AppendKeepsPairs(h, g, c.more);
    assert GenuineMessages(g) == GenuineMessages(h) + c.more;
    SuffixGrows(GenuineMessages(h), said, c.more);
  }

  ghost predicate RemembersAt(hs: seq<History>, changes: seq<Change>, k: nat) {
    && k <= |changes| && k < |hs| && hs[0].derived <= |hs[0].messages|
    && Remembers(hs[k], Said(GenuineMessages(hs[0]), changes, k), CompactionCount(changes, k))
  }

  lemma ChangeRemembers(h: History, g: History, c: Change, said: seq<Message>, k: nat)
    requires Remembers(h, said, k) && Changes(h, g, c)
    ensures Remembers(g, said + if c.Turn? then c.more else [], k + if c.Compaction? then 1 else 0)
  {
    if c.Turn? {
      TurnRemembers(h, g, c, said, k);
    } else {
      CompactionRemembers(h, g, c, said, k);
      assert said + [] == said;
    }
  }

  lemma LifeGoesOn(hs: seq<History>, changes: seq<Change>, k: nat)
    requires Life(hs, changes) && k < |changes| && RemembersAt(hs, changes, k)
    ensures RemembersAt(hs, changes, k + 1)
  {
    ChangeRemembers(hs[k], hs[k + 1], changes[k], Said(GenuineMessages(hs[0]), changes, k),
      CompactionCount(changes, k));
  }

  ghost predicate GoesOnRemembering(hs: seq<History>, changes: seq<Change>, k: nat) {
    k < |changes| && RemembersAt(hs, changes, k) ==> RemembersAt(hs, changes, k + 1)
  }

  lemma LifeAlwaysGoesOn(hs: seq<History>, changes: seq<Change>)
    requires Life(hs, changes)
    ensures forall k: nat :: GoesOnRemembering(hs, changes, k)
  {
    forall k: nat ensures GoesOnRemembering(hs, changes, k) {
      if k < |changes| && RemembersAt(hs, changes, k) { LifeGoesOn(hs, changes, k); }
    }
  }

  lemma {:induction false} RemembersThrough(hs: seq<History>, changes: seq<Change>, k: nat)
    requires RemembersAt(hs, changes, 0) && k <= |changes| && forall m: nat :: GoesOnRemembering(hs, changes, m)
    ensures RemembersAt(hs, changes, k)
  {
    if k > 0 {
      RemembersThrough(hs, changes, k - 1);
      assert GoesOnRemembering(hs, changes, k - 1);
    }
  }

  lemma LifeBegins(hs: seq<History>, changes: seq<Change>)
    requires Life(hs, changes)
    ensures RemembersAt(hs, changes, 0)
  {
  }

  /** Through any sequence of turns and compactions the history stays well-paired, and its genuine messages
      are, untouched and in order, the end of everything that was said, shorter by at least one message for
      each compaction. */
  lemma CompactionsKeepPairs(hs: seq<History>, changes: seq<Change>, k: nat)
    requires Life(hs, changes) && k <= |changes|
    ensures Remembers(hs[k], Said(GenuineMessages(hs[0]), changes, k), CompactionCount(changes, k))
  {
    LifeBegins(hs, changes);
    LifeAlwaysGoesOn(hs, changes);
    RemembersThrough(hs, changes, k);
  }
}
