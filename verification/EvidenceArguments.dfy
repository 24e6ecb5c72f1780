/** The structural check of evidence-tool arguments (internal/hustleruntime/tool_response.go,
    `validEvidenceArguments`): an explicit stack machine over the tokens of a JSON decoder.

    The reference is a tree: sections 4 and 5 of RFC 8259 build a value from objects, arrays and
    scalars, and writing the tree out gives its token stream. */
module EvidenceArguments {
  import opened Options

  const MAX_DEPTH: nat := 64
  const MAX_MEMBERS: nat := 65536
  const MAX_TOKENS: nat := 262144

  datatype Token =
    | ObjectOpen | ObjectClose | ArrayOpen | ArrayClose
    | Str(text: string) | Number(literal: string) | Boolean(b: bool) | Null

  predicate IsDelim(t: Token) { t.ObjectOpen? || t.ObjectClose? || t.ArrayOpen? || t.ArrayClose? }

  /** What the decoder delivers: tokens, and then either a clean end of input or an error. */
  datatype Stream = Stream(tokens: seq<Token>, cleanEnd: bool)

  // ---------------------------------------------------------------- the stack machine

  datatype Frame = Obj(wantKey: bool, keys: set<string>) | Arr

  datatype Stack = Empty | Push(top: Frame, below: Stack)

  function Height(s: Stack): nat { if s.Empty? then 0 else 1 + Height(s.below) }

  datatype Machine = Machine(stack: Stack, members: nat, tokens: nat)

  /** The frame once a value has been read in it. */
  function Filled(f: Frame): Frame { if f.Obj? then f.(wantKey := true) else f }

  function ChildOf(t: Token): Frame { if t.ObjectOpen? then Obj(true, {}) else Arr }

  /** One turn of the loop; None is a rejection. */
  function Step(m: Machine, t: Token): (r: Option<Machine>)
    requires m.stack.Push?
  {
    var Push(top, below) := m.stack;
    if m.tokens >= MAX_TOKENS then None
    else if top.Obj? && top.wantKey then
      if t.ObjectClose? then Some(Machine(below, m.members, m.tokens + 1))
      else if !t.Str? || m.members >= MAX_MEMBERS || t.text in top.keys then None
      else Some(Machine(Push(Obj(false, top.keys + {t.text}), below), m.members + 1, m.tokens + 1))
    else if top.Arr? && t.ArrayClose? then Some(Machine(below, m.members, m.tokens + 1))
    else if IsDelim(t) then
      if (!t.ObjectOpen? && !t.ArrayOpen?) || Height(m.stack) >= MAX_DEPTH then None
      else Some(Machine(Push(ChildOf(t), Push(Filled(top), below)), m.members, m.tokens + 1))
    else Some(Machine(Push(Filled(top), below), m.members, m.tokens + 1))
  }

  function Run(m: Machine, ts: seq<Token>): (r: Option<Machine>)
    decreases |ts|
  {
    if ts == [] then Some(m)
    else if m.stack.Empty? then None
    else match Step(m, ts[0])
      case Some(next) => Run(next, ts[1..])
      case None => None
  }

  const Start := Machine(Push(Obj(true, {}), Empty), 0, 1)

  /** The whole check: one open brace, a run that empties the stack on the last token, a clean end. */
  predicate Accepts(s: Stream) {
    && s.cleanEnd && s.tokens != [] && s.tokens[0].ObjectOpen?
    && Run(Start, s.tokens[1..]).Some? && Run(Start, s.tokens[1..]).value.stack.Empty?
  }

  /** A slice used as a stack, its last element on top. */
  function AsStack(frames: seq<Frame>): (s: Stack)
    ensures Height(s) == |frames|
  {
    if frames == [] then Empty else Push(frames[|frames| - 1], AsStack(frames[..|frames| - 1]))
  }

  lemma AsStackPush(frames: seq<Frame>, f: Frame)
    ensures AsStack(frames + [f]) == Push(f, AsStack(frames))
  {
    assert (frames + [f])[..|frames|] == frames;
  }

  /** The body of the loop, for a token that was read within the limit. */
  method Turn(stack: seq<Frame>, memberCount: nat, token: Token, ghost tokenCount: nat)
    returns (ok: bool, after: seq<Frame>, members: nat)
    requires stack != [] && tokenCount < MAX_TOKENS
    ensures Step(Machine(AsStack(stack), memberCount, tokenCount), token) ==
      if ok then Some(Machine(AsStack(after), members, tokenCount + 1)) else None
  {
    ok, after, members := true, stack, memberCount;
    var last := |stack| - 1;
    var top := stack[last];
    if top.Obj? && top.wantKey {
      if token == ObjectClose {
        after := stack[..last];
        return;
      }
      if !token.Str? || memberCount >= MAX_MEMBERS { return false, stack, memberCount; }
      if token.text in top.keys { return false, stack, memberCount; }
      AsStackPush(stack[..last], Obj(false, top.keys + {token.text}));
      after := stack[..last] + [Obj(false, top.keys + {token.text})];
      members := memberCount + 1;
      return;
    }
    if top.Arr? && token == ArrayClose {
      after := stack[..last];
      return;
    }
    AsStackPush(stack[..last], Obj(true, if top.Obj? then top.keys else {}));
    if IsDelim(token) {
      if (token != ObjectOpen && token != ArrayOpen) || |stack| >= MAX_DEPTH { return false, stack, memberCount; }
      if top.Obj? {
        after := stack[..last] + [Obj(true, top.keys)];
      }
      var child := if token == ObjectOpen then Obj(true, {}) else Arr;
      AsStackPush(after, child);
      after := after + [child];
      return;
    }
    if top.Obj? {
      after := stack[..last] + [Obj(true, top.keys)];
    }
  }

  lemma RunFrom(m: Machine, ts: seq<Token>, at: nat)
    requires at < |ts| && m.stack.Push?
    ensures Run(m, ts[at..]) == match Step(m, ts[at]) case Some(next) => Run(next, ts[at + 1..]) case None => None
  {
    assert ts[at..][1..] == ts[at + 1..];
  }

  method ValidEvidenceArguments(s: Stream) returns (accepted: bool)
    ensures accepted == Accepts(s)
  {
    if |s.tokens| == 0 || s.tokens[0] != ObjectOpen { return false; }
    var tokenCount: nat, memberCount: nat, next: nat := 1, 0, 1;
    AsStackPush([], Obj(true, {}));
    var stack := [] + [Obj(true, {})];
    ghost var m := Start;
    while |stack| > 0
      invariant 1 <= next <= |s.tokens|
      invariant m == Machine(AsStack(stack), memberCount, tokenCount)
      invariant Run(Start, s.tokens[1..]) == Run(m, s.tokens[next..])
      decreases |s.tokens| - next
    {
      if next == |s.tokens| { return false; }
      RunFrom(m, s.tokens, next);
      if tokenCount >= MAX_TOKENS { return false; }
      var ok, after, members := Turn(stack, memberCount, s.tokens[next], tokenCount);
      if !ok { return false; }
      stack, memberCount := after, members;
      next := next + 1;
      tokenCount := tokenCount + 1;
      m := Machine(AsStack(stack), memberCount, tokenCount);
    }
    accepted := s.cleanEnd && next == |s.tokens|;
  }

  // ---------------------------------------------------------------- trees

  datatype Json = Scalar(token: Token) | Array(items: seq<Json>) | Object(members: seq<Member>)
  datatype Member = Member(key: string, value: Json)

  function Write(j: Json): (ts: seq<Token>)
    ensures |ts| > 0
    decreases j, 1
  {
    match j
    case Scalar(t) => [t]
    case Array(items) => [ArrayOpen] + WriteItems(items) + [ArrayClose]
    case Object(members) => [ObjectOpen] + WriteMembers(members) + [ObjectClose]
  }

  function WriteItems(items: seq<Json>): seq<Token>
    decreases items, 0
  {
    if items == [] then [] else Write(items[0]) + WriteItems(items[1..])
  }

  function WriteMembers(ms: seq<Member>): seq<Token>
    decreases ms, 0
  {
    if ms == [] then [] else [Str(ms[0].key)] + Write(ms[0].value) + WriteMembers(ms[1..])
  }

  function Keys(ms: seq<Member>): set<string> { set m | m in ms :: m.key }

  predicate Distinct(ms: seq<Member>) {
    forall i, j :: 0 <= i < j < |ms| ==> ms[i].key != ms[j].key
  }

  /** Scalars are scalars, and no object, at any depth, repeats a key. */
  predicate WellFormed(j: Json) {
    match j
    case Scalar(t) => !IsDelim(t)
    case Array(items) => forall v :: v in items ==> WellFormed(v)
    case Object(members) => Distinct(members) && forall m :: m in members ==> WellFormed(m.value)
  }

  function Max(a: nat, b: nat): nat { if a < b then b else a }

  function Depth(j: Json): nat
    decreases j, 1
  {
    match j
    case Scalar(_) => 0
    case Array(items) => 1 + DepthItems(items)
    case Object(members) => 1 + DepthMembers(members)
  }

  function DepthItems(items: seq<Json>): nat
    decreases items, 0
  {
    if items == [] then 0 else Max(Depth(items[0]), DepthItems(items[1..]))
  }

  function DepthMembers(ms: seq<Member>): nat
    decreases ms, 0
  {
    if ms == [] then 0 else Max(Depth(ms[0].value), DepthMembers(ms[1..]))
  }

  function Members(j: Json): nat
    decreases j, 1
  {
    match j
    case Scalar(_) => 0
    case Array(items) => MembersItems(items)
    case Object(members) => MembersIn(members)
  }

  function MembersItems(items: seq<Json>): nat
    decreases items, 0
  {
    if items == [] then 0 else Members(items[0]) + MembersItems(items[1..])
  }

  function MembersIn(ms: seq<Member>): nat
    decreases ms, 0
  {
    if ms == [] then 0 else 1 + Members(ms[0].value) + MembersIn(ms[1..])
  }

  /** The streams the check is for. */
  ghost predicate IsArgumentObject(ts: seq<Token>, j: Json) {
    && j.Object? && WellFormed(j) && Write(j) == ts
    && Depth(j) <= MAX_DEPTH && Members(j) <= MAX_MEMBERS && |ts| <= MAX_TOKENS
  }

  // ---------------------------------------------------------------- every tree within limits is accepted

  predicate WantsValue(m: Machine) { m.stack.Push? && (m.stack.top.Arr? || !m.stack.top.wantKey) }

  /** The machine after reading a value of that many members and tokens in its top frame. */
  function After(m: Machine, members: nat, tokens: nat): Machine
    requires m.stack.Push?
  {
    Machine(Push(Filled(m.stack.top), m.stack.below), m.members + members, m.tokens + tokens)
  }

  predicate Fits(m: Machine, depth: nat, members: nat, tokens: nat) {
    Height(m.stack) + depth <= MAX_DEPTH && m.members + members <= MAX_MEMBERS && m.tokens + tokens <= MAX_TOKENS
  }

  lemma RunStep(m: Machine, t: Token, ts: seq<Token>)
    requires m.stack.Push?
    ensures Run(m, [t] + ts) == match Step(m, t) case Some(next) => Run(next, ts) case None => None
  {
    assert ([t] + ts)[1..] == ts;
  }

  lemma Bracketed(open: Token, body: seq<Token>, close: Token, rest: seq<Token>)
    ensures [open] + body + [close] + rest == [open] + (body + ([close] + rest))
  {
  }

  lemma {:induction false} ReadsValue(m: Machine, j: Json, rest: seq<Token>)
    requires WantsValue(m) && WellFormed(j) && Fits(m, Depth(j), Members(j), |Write(j)|)
    ensures Run(m, Write(j) + rest) == Run(After(m, Members(j), |Write(j)|), rest)
    decreases j, 1
  {
    match j
    case Scalar(t) =>
      RunStep(m, t, rest);
    case Array(items) =>
      ReadsArray(m, items, rest);
    case Object(members) =>
      ReadsObject(m, members, rest);
  }

  /** The machine inside a value that opens with that token. */
  function Inside(m: Machine, open: Token): Machine
    requires m.stack.Push?
  {
    Machine(Push(ChildOf(open), Push(Filled(m.stack.top), m.stack.below)), m.members, m.tokens + 1)
  }

  lemma {:induction false} ReadsArray(m: Machine, items: seq<Json>, rest: seq<Token>)
    requires WantsValue(m) && (forall v :: v in items ==> WellFormed(v))
    requires Fits(m, 1 + DepthItems(items), MembersItems(items), |WriteItems(items)| + 2)
    ensures Run(m, [ArrayOpen] + WriteItems(items) + [ArrayClose] + rest) ==
      Run(After(m, MembersItems(items), |WriteItems(items)| + 2), rest)
    decreases items, 1
  {
    var body, inner := WriteItems(items), Inside(m, ArrayOpen);
    Bracketed(ArrayOpen, body, ArrayClose, rest);
    RunStep(m, ArrayOpen, body + ([ArrayClose] + rest));
    ReadsItems(inner, items, [ArrayClose] + rest);
    RunStep(Read(inner, MembersItems(items), |body|), ArrayClose, rest);
  }

  lemma {:induction false} ReadsObject(m: Machine, ms: seq<Member>, rest: seq<Token>)
    requires WantsValue(m) && Distinct(ms) && (forall p :: p in ms ==> WellFormed(p.value))
    requires Fits(m, 1 + DepthMembers(ms), MembersIn(ms), |WriteMembers(ms)| + 2)
    ensures Run(m, [ObjectOpen] + WriteMembers(ms) + [ObjectClose] + rest) ==
      Run(After(m, MembersIn(ms), |WriteMembers(ms)| + 2), rest)
    decreases ms, 1
  {
    var body, inner := WriteMembers(ms), Inside(m, ObjectOpen);
    assert Height(inner.stack) == Height(m.stack) + 1;
    Bracketed(ObjectOpen, body, ObjectClose, rest);
    RunStep(m, ObjectOpen, body + ([ObjectClose] + rest));
    ReadsMembers(inner, ms, [ObjectClose] + rest);
    RunStep(Read(WithKeys(inner, Keys(ms)), MembersIn(ms), |body|), ObjectClose, rest);
  }

  function Read(m: Machine, members: nat, tokens: nat): Machine {
    m.(members := m.members + members, tokens := m.tokens + tokens)
  }

  function WithKeys(m: Machine, keys: set<string>): Machine
    requires m.stack.Push? && m.stack.top.Obj?
  {
    m.(stack := Push(Obj(true, m.stack.top.keys + keys), m.stack.below))
  }

  lemma {:induction false} ReadsItems(m: Machine, items: seq<Json>, rest: seq<Token>)
    requires m.stack.Push? && m.stack.top.Arr? && forall v :: v in items ==> WellFormed(v)
    requires Fits(m, DepthItems(items), MembersItems(items), |WriteItems(items)|)
    ensures Run(m, WriteItems(items) + rest) == Run(Read(m, MembersItems(items), |WriteItems(items)|), rest)
    decreases items, 0
  {
    if items != [] {
      var first, others := Write(items[0]), WriteItems(items[1..]);
      assert first + others + rest == first + (others + rest);
      ReadsValue(m, items[0], others + rest);
      ReadsItems(After(m, Members(items[0]), |first|), items[1..], rest);
    } else {
      assert WriteItems(items) + rest == rest;
    }
  }

  lemma {:induction false} ReadsMember(m: Machine, p: Member, rest: seq<Token>)
    requires m.stack.Push? && m.stack.top.Obj? && m.stack.top.wantKey && p.key !in m.stack.top.keys
    requires WellFormed(p.value) && Fits(m, Depth(p.value), 1 + Members(p.value), 1 + |Write(p.value)|)
    ensures Run(m, [Str(p.key)] + Write(p.value) + rest) ==
      Run(Read(WithKeys(m, {p.key}), 1 + Members(p.value), 1 + |Write(p.value)|), rest)
    decreases p, 2
  {
    assert [Str(p.key)] + Write(p.value) + rest == [Str(p.key)] + (Write(p.value) + rest);
    RunStep(m, Str(p.key), Write(p.value) + rest);
    ReadsValue(Step(m, Str(p.key)).value, p.value, rest);
  }

  lemma ReadTwice(m: Machine, k: string, keys: set<string>, a: nat, b: nat, c: nat, d: nat)
    requires m.stack.Push? && m.stack.top.Obj?
    ensures Read(WithKeys(Read(WithKeys(m, {k}), a, b), keys), c, d) == Read(WithKeys(m, {k} + keys), a + c, b + d)
  {
    assert m.stack.top.keys + {k} + keys == m.stack.top.keys + ({k} + keys);
  }

  lemma {:induction false} ReadsMembers(m: Machine, ms: seq<Member>, rest: seq<Token>)
    requires m.stack.Push? && m.stack.top.Obj? && m.stack.top.wantKey
    requires Distinct(ms) && m.stack.top.keys !! Keys(ms) && forall p :: p in ms ==> WellFormed(p.value)
    requires Fits(m, DepthMembers(ms), MembersIn(ms), |WriteMembers(ms)|)
    ensures Run(m, WriteMembers(ms) + rest) ==
      Run(Read(WithKeys(m, Keys(ms)), MembersIn(ms), |WriteMembers(ms)|), rest)
    decreases ms, 0
  {
    hide Run;
    if ms != [] {
      var p, first, others := ms[0], [Str(ms[0].key)] + Write(ms[0].value), WriteMembers(ms[1..]);
      var next := Read(WithKeys(m, {p.key}), 1 + Members(p.value), |first|);
      KeysSplit(ms);
      assert first + others + rest == first + (others + rest);
      ReadsMember(m, p, others + rest);
      ReadsMembers(next, ms[1..], rest);
      ReadTwice(m, p.key, Keys(ms[1..]), 1 + Members(p.value), |first|, MembersIn(ms[1..]), |others|);
    } else {
      assert WriteMembers(ms) + rest == rest;
      assert m.stack.top.keys + Keys(ms) == m.stack.top.keys;
    }
  }

  lemma KeysSplit(ms: seq<Member>)
    requires ms != []
    ensures Keys(ms) == {ms[0].key} + Keys(ms[1..])
    ensures Distinct(ms) <==> ms[0].key !in Keys(ms[1..]) && Distinct(ms[1..])
    ensures ms[0] in ms
  {
    assert ms == [ms[0]] + ms[1..];
  }

  lemma Complete(ts: seq<Token>, j: Json)
    requires IsArgumentObject(ts, j)
    ensures Accepts(Stream(ts, true))
  {
    var body := WriteMembers(j.members);
    assert ts[1..] == body + [ObjectClose];
    ReadsMembers(Start, j.members, [ObjectClose]);
    RunStep(Read(WithKeys(Start, Keys(j.members)), MembersIn(j.members), |body|), ObjectClose, []);
    assert [ObjectClose] + [] == [ObjectClose];
  }

  // ---------------------------------------------------------------- every accepted stream is such a tree

  predicate InLimits(m: Machine) {
    Height(m.stack) <= MAX_DEPTH && m.members <= MAX_MEMBERS && m.tokens <= MAX_TOKENS
  }

  /** The run from here ends with an empty stack. */
  predicate Ends(m: Machine, ts: seq<Token>) {
    InLimits(m) && Run(m, ts).Some? && Run(m, ts).value.stack.Empty?
  }

  lemma FirstToken(m: Machine, ts: seq<Token>)
    requires m.stack.Push? && Ends(m, ts)
    ensures ts != [] && Step(m, ts[0]).Some? && Ends(Step(m, ts[0]).value, ts[1..])
    ensures Run(m, ts) == Run(Step(m, ts[0]).value, ts[1..])
  {
  }

  lemma Splice(ts: seq<Token>, k: nat, l: nat)
    requires k + l <= |ts|
    ensures ts[..k + l] == ts[..k] + ts[k..][..l] && ts[k..][l..] == ts[k + l..]
  {
  }

  /** The run reads k tokens and goes on from `after`. */
  predicate Reaches(m: Machine, ts: seq<Token>, k: nat, after: Machine) {
    k <= |ts| && Run(m, ts) == Run(after, ts[k..]) && InLimits(after)
  }

  lemma ReachesEnds(m: Machine, ts: seq<Token>, k: nat, after: Machine)
    requires Reaches(m, ts, k, after) && Ends(m, ts)
    ensures Ends(after, ts[k..])
  {
  }

  lemma ReachesOn(m: Machine, ts: seq<Token>, k: nat, middle: Machine, l: nat, after: Machine)
    requires Reaches(m, ts, k, middle) && Reaches(middle, ts[k..], l, after)
    ensures Reaches(m, ts, k + l, after) && ts[..k + l] == ts[..k] + ts[k..][..l]
  {
    Splice(ts, k, l);
  }

  lemma ConsItems(j: Json, others: seq<Json>)
    ensures WriteItems([j] + others) == Write(j) + WriteItems(others)
    ensures MembersItems([j] + others) == Members(j) + MembersItems(others)
    ensures DepthItems([j] + others) == Max(Depth(j), DepthItems(others))
  {
    assert ([j] + others)[1..] == others;
  }

  lemma ConsMembers(p: Member, others: seq<Member>)
    ensures WriteMembers([p] + others) == [Str(p.key)] + Write(p.value) + WriteMembers(others)
    ensures MembersIn([p] + others) == 1 + Members(p.value) + MembersIn(others)
    ensures DepthMembers([p] + others) == Max(Depth(p.value), DepthMembers(others))
    ensures Keys([p] + others) == {p.key} + Keys(others)
    ensures Distinct([p] + others) <==> p.key !in Keys(others) && Distinct(others)
  {
    assert ([p] + others)[1..] == others;
    KeysSplit([p] + others);
  }

  lemma {:induction false} SplitValue(m: Machine, ts: seq<Token>) returns (j: Json, k: nat, after: Machine)
    requires WantsValue(m) && Ends(m, ts) && !(ts[0].ArrayClose? && m.stack.top.Arr?)
    ensures 0 < k <= |ts| && ts[..k] == Write(j) && WellFormed(j) && Height(m.stack) + Depth(j) <= MAX_DEPTH
    ensures after == After(m, Members(j), k) && Reaches(m, ts, k, after)
    decreases |ts|, 0
  {
    hide Run;
    FirstToken(m, ts);
    if ts[0].ArrayOpen? {
      var items, l, closed := SplitItems(Inside(m, ArrayOpen), ts[1..]);
      j, k, after := Array(items), l + 1, closed;
      StepIn(m, ts, WriteItems(items), ArrayClose, l, closed);
    } else if ts[0].ObjectOpen? {
      var ms, l, closed := SplitMembers(Inside(m, ObjectOpen), ts[1..]);
      j, k, after := Object(ms), l + 1, closed;
      StepIn(m, ts, WriteMembers(ms), ObjectClose, l, closed);
    } else {
      j, k, after := Scalar(ts[0]), 1, Step(m, ts[0]).value;
    }
  }

  lemma StepIn(m: Machine, ts: seq<Token>, body: seq<Token>, close: Token, l: nat, after: Machine)
    requires WantsValue(m) && ts != [] && (ts[0].ArrayOpen? || ts[0].ObjectOpen?) && Step(m, ts[0]).Some?
    requires Reaches(Inside(m, ts[0]), ts[1..], l, after) && ts[1..][..l] == body + [close]
    ensures Reaches(m, ts, l + 1, after) && ts[..l + 1] == [ts[0]] + body + [close]
  {
    Splice(ts, 1, l);
    assert ts[..l + 1] == [ts[0]] + ts[1..][..l];
  }

  lemma {:induction false} SplitItems(m: Machine, ts: seq<Token>) returns (items: seq<Json>, k: nat, after: Machine)
    requires m.stack.Push? && m.stack.top.Arr? && Ends(m, ts)
    ensures 0 < k <= |ts| && ts[..k] == WriteItems(items) + [ArrayClose]
    ensures (forall v :: v in items ==> WellFormed(v)) && Height(m.stack) + DepthItems(items) <= MAX_DEPTH
    ensures after == Machine(m.stack.below, m.members + MembersItems(items), m.tokens + k) && Reaches(m, ts, k, after)
    decreases |ts|, 1
  {
    hide Run;
    FirstToken(m, ts);
    if ts[0].ArrayClose? {
      items, k, after := [], 1, Step(m, ts[0]).value;
    } else {
      var j, i, next := SplitValue(m, ts);
      ReachesEnds(m, ts, i, next);
      var others, l, closed := SplitItems(next, ts[i..]);
      items, k, after := [j] + others, i + l, closed;
      ReachesOn(m, ts, i, next, l, closed);
      ConsItems(j, others);
      AllWritten(ts, i, l, Write(j), WriteItems(others), [ArrayClose], WriteItems(items));
    }
  }

  /** A key and its value. */
  lemma {:induction false} SplitMember(m: Machine, ts: seq<Token>) returns (p: Member, k: nat, after: Machine)
    requires m.stack.Push? && m.stack.top.Obj? && m.stack.top.wantKey && Ends(m, ts) && !ts[0].ObjectClose?
    ensures 0 < k <= |ts| && ts[..k] == [Str(p.key)] + Write(p.value) && p.key !in m.stack.top.keys
    ensures WellFormed(p.value) && Height(m.stack) + Depth(p.value) <= MAX_DEPTH
    ensures after == Read(WithKeys(m, {p.key}), 1 + Members(p.value), k) && Reaches(m, ts, k, after)
    decreases |ts|, 0
  {
    hide Run;
    FirstToken(m, ts);
    var keyed := Step(m, ts[0]).value;
    FirstToken(keyed, ts[1..]);
    var j, i, next := SplitValue(keyed, ts[1..]);
    p, k, after := Member(ts[0].text, j), i + 1, next;
    ReachesOn(m, ts, 1, keyed, i, next);
    assert ts[..1] == [ts[0]];
  }

  lemma Assoc(a: seq<Token>, b: seq<Token>, c: seq<Token>)
    ensures a + (b + c) == a + b + c
  {
  }

  /** Members an object may still take below that height, with those keys used. */
  predicate Admissible(ms: seq<Member>, keys: set<string>, height: nat) {
    && Distinct(ms) && Keys(ms) !! keys && height + DepthMembers(ms) <= MAX_DEPTH
    && forall p :: p in ms ==> WellFormed(p.value)
  }

  lemma ConsAdmissible(p: Member, others: seq<Member>, keys: set<string>, height: nat)
    requires p.key !in keys && WellFormed(p.value) && height + Depth(p.value) <= MAX_DEPTH
    requires Admissible(others, keys + {p.key}, height)
    ensures Admissible([p] + others, keys, height) &&
      MembersIn([p] + others) == 1 + Members(p.value) + MembersIn(others)
    ensures WriteMembers([p] + others) == [Str(p.key)] + Write(p.value) + WriteMembers(others)
  {
    ConsMembers(p, others);
  }

  /** Two stretches of the stream, written one after the other. */
  lemma AllWritten(ts: seq<Token>, i: nat, l: nat, a: seq<Token>, b: seq<Token>, c: seq<Token>, ab: seq<Token>)
    requires i + l <= |ts| && ts[..i + l] == ts[..i] + ts[i..][..l] && ts[..i] == a && ts[i..][..l] == b + c &&
      ab == a + b
    ensures ts[..i + l] == ab + c
  {
    Assoc(a, b, c);
  }

  lemma ObjectEnds(m: Machine, ts: seq<Token>, after: Machine)
    requires m.stack.Push? && m.stack.top.Obj? && m.stack.top.wantKey && Ends(m, ts) && |ts| > 0 && ts[0].ObjectClose?
    requires Step(m, ts[0]).Some? && after == Step(m, ts[0]).value && Reaches(m, ts, 1, after)
    ensures ts[..1] == WriteMembers([]) + [ObjectClose] && Admissible([], m.stack.top.keys, Height(m.stack))
    ensures after == Machine(m.stack.below, m.members + MembersIn([]), m.tokens + 1)
  {
  }

  /** A member and the members after it. */
  lemma MemberFirst(m: Machine, ts: seq<Token>, p: Member, i: nat, next: Machine, others: seq<Member>, l: nat,
                    closed: Machine)
    requires m.stack.Push? && m.stack.top.Obj? && Reaches(m, ts, i, next) && Reaches(next, ts[i..], l, closed)
    requires next == Read(WithKeys(m, {p.key}), 1 + Members(p.value), i)
    requires closed == Machine(next.stack.below, next.members + MembersIn(others), next.tokens + l)
    requires i + l <= |ts| && ts[..i] == [Str(p.key)] + Write(p.value) &&
      ts[i..][..l] == WriteMembers(others) + [ObjectClose]
    requires p.key !in m.stack.top.keys && WellFormed(p.value) && Height(m.stack) + Depth(p.value) <= MAX_DEPTH
    requires Admissible(others, m.stack.top.keys + {p.key}, Height(m.stack))
    ensures ts[..i + l] == WriteMembers([p] + others) + [ObjectClose] && Reaches(m, ts, i + l, closed)
    ensures Admissible([p] + others, m.stack.top.keys, Height(m.stack))
    ensures closed == Machine(m.stack.below, m.members + MembersIn([p] + others), m.tokens + i + l)
  {
    assert ts[..i + l] == ts[..i] + ts[i..][..l];
    ReachesOn(m, ts, i, next, l, closed);
    ConsAdmissible(p, others, m.stack.top.keys, Height(m.stack));
    AllWritten(ts, i, l, [Str(p.key)] + Write(p.value), WriteMembers(others), [ObjectClose],
      WriteMembers([p] + others));
  }

  lemma {:induction false} SplitMembers(m: Machine, ts: seq<Token>) returns (ms: seq<Member>, k: nat, after: Machine)
    requires m.stack.Push? && m.stack.top.Obj? && m.stack.top.wantKey && Ends(m, ts)
    ensures 0 < k <= |ts| && ts[..k] == WriteMembers(ms) + [ObjectClose]
    ensures Admissible(ms, m.stack.top.keys, Height(m.stack))
    ensures after == Machine(m.stack.below, m.members + MembersIn(ms), m.tokens + k) && Reaches(m, ts, k, after)
    decreases |ts|, 1
  {
    hide Run;
    FirstToken(m, ts);
    if ts[0].ObjectClose? {
      ms, k, after := [], 1, Step(m, ts[0]).value;
      ObjectEnds(m, ts, after);
    } else {
      var p, i, next := SplitMember(m, ts);
      ReachesEnds(m, ts, i, next);
      var others, l, closed := SplitMembers(next, ts[i..]);
      ms, k, after := [p] + others, i + l, closed;
      MemberFirst(m, ts, p, i, next, others, l, closed);
    }
  }

  lemma Sound(ts: seq<Token>) returns (j: Json)
    requires Accepts(Stream(ts, true))
    ensures IsArgumentObject(ts, j)
  {
    var ms, k, after := SplitMembers(Start, ts[1..]);
    j := Object(ms);
    assert k == |ts[1..]|;
    assert ts == [ObjectOpen] + ts[1..][..k];
  }

  /** The checker accepts exactly the streams that are one object within the limits, read whole. */
  lemma AcceptsIffArgumentObject(s: Stream)
    ensures Accepts(s) <==> s.cleanEnd && exists j :: IsArgumentObject(s.tokens, j)
  {
    if s.cleanEnd {
      assert s == Stream(s.tokens, true);
      if Accepts(s) {
        var j := Sound(s.tokens);
      } else if j :| IsArgumentObject(s.tokens, j) {
        Complete(s.tokens, j);
      }
    }
  }
}
