/** The text on which shaping (internal/loopruntime/tool_result_shape.go) prints a wrong number: ill-formed
    runs so large, and placed so, that each of the eight rounds makes the number one digit shorter or more
    and the room the last one gains still moves a cut. The text has exactly 10^13 bytes, which a Go `int`
    can count, and no text is shorter on which this happens (`MarkerRounds.MarkerCountIsExact`). */
module MarkerMiscount {
  import opened Utf8
  import opened Decimal
  import opened ToolResultShape

  /** An ill-formed run of n bytes, and n letters. */
  function Bad(n: nat): seq<Byte> { seq(n, i => 0x80) }

  function Letters(n: nat): seq<Byte> { seq(n, i => 0x61) }

  const FIRST: nat := 999_989_999_999
  const SECOND: nat := 9_899
  const THIRD: nat := 9_989_999
  const FOURTH: nat := 8_999_999_999_999

  const LIMIT: nat := 79

  function Ending(): seq<Byte> { Bad(THIRD) + (Letters(1) + Bad(FOURTH)) }

  function Text(): seq<Byte> {
    Letters(1) + (Bad(FIRST) + (Letters(1) + (Bad(SECOND) + (Letters(101) + Ending()))))
  }

  // ---------------------------------------------------------------- its spans and its normalization

  predicate GoodStart(s: seq<Byte>) { s == [] || RuneLen(s) > 0 }

  lemma {:induction false} BadRunIs(n: nat, rest: seq<Byte>)
    requires GoodStart(rest)
    ensures BadRun(Bad(n) + rest) == n
  {
    if n == 0 {
      assert Bad(0) + rest == rest;
    } else {
      var s := Bad(n) + rest;
      assert s[1..] == Bad(n - 1) + rest;
      assert RuneLen(s) == 0;
      BadRunIs(n - 1, rest);
    }
  }

  lemma AfterBad(n: nat, rest: seq<Byte>)
    requires n > 0 && GoodStart(rest)
    ensures var s := Bad(n) + rest;
      Spans(s) == [Span(n, 3)] + Spans(rest) && Normalize(s) == Replacement() + Normalize(rest) && RuneLen(s) == 0
  {
    var s := Bad(n) + rest;
    BadRunIs(n, rest);
    assert s[0] == 0x80;
    assert s[n..] == rest;
  }

  function Ones(n: nat): seq<Span> { seq(n, i => Span(1, 1)) }

  lemma Glue<T>(x: T, a: seq<T>, longer: seq<T>, b: seq<T>)
    requires |longer| == |a| + 1 && longer[0] == x && forall i :: 0 <= i < |a| ==> longer[i + 1] == a[i]
    ensures [x] + (a + b) == longer + b
  {
  }

  lemma AfterLetter(rest: seq<Byte>)
    ensures var s := [0x61] + rest;
      Spans(s) == [Span(1, 1)] + Spans(rest) && Normalize(s) == [0x61] + Normalize(rest) && RuneLen(s) == 1
  {
    var s := [0x61] + rest;
    assert s[1..] == rest && s[..1] == [0x61];
  }

  lemma {:induction false} AfterLetters(n: nat, rest: seq<Byte>)
    ensures var s := Letters(n) + rest;
      Spans(s) == Ones(n) + Spans(rest) && Normalize(s) == Letters(n) + Normalize(rest) && (n > 0 ==> RuneLen(s) == 1)
  {
    var s := Letters(n) + rest;
    if n == 0 {
      assert s == rest;
    } else {
      var more := Letters(n - 1) + rest;
      assert s == [0x61] + more;
      AfterLetters(n - 1, rest);
      AfterLetter(more);
      Glue(Span(1, 1), Ones(n - 1), Ones(n), Spans(rest));
      Glue(0x61, Letters(n - 1), Letters(n), Normalize(rest));
    }
  }

  /** The spans up to the last letter that is never shown, and those after it. */
  const HEAD := [Span(1, 1), Span(FIRST, 3), Span(1, 1), Span(SECOND, 3)]

  function FrontSpans(): seq<Span> { HEAD + Ones(99) }

  function BackSpans(): seq<Span> { [Span(1, 1), Span(1, 1), Span(THIRD, 3), Span(1, 1), Span(FOURTH, 3)] }

  function Shown(): seq<Byte> {
    Letters(1) + (Replacement() + (Letters(1) +
      (Replacement() + (Letters(101) + (Replacement() + (Letters(1) + Replacement()))))))
  }

  /** An ill-formed run, a letter or more, and what follows. */
  lemma AfterBoth(n: nat, k: nat, rest: seq<Byte>)
    requires n > 0 && k > 0
    ensures var s := Bad(n) + (Letters(k) + rest);
      && Spans(s) == [Span(n, 3)] + (Ones(k) + Spans(rest)) && RuneLen(s) == 0
      && Normalize(s) == Replacement() + (Letters(k) + Normalize(rest))
  {
    AfterLetters(k, rest);
    AfterBad(n, Letters(k) + rest);
  }

  lemma EndIs(n: nat)
    requires n > 0
    ensures Spans(Bad(n)) == [Span(n, 3)] && Normalize(Bad(n)) == Replacement() && RuneLen(Bad(n)) == 0
  {
    AfterBad(n, []);
    assert Bad(n) + [] == Bad(n) && Replacement() + [] == Replacement();
  }

  lemma BackIs()
    ensures Spans(Ending()) == BackSpans()[2..] && Normalize(Ending()) == Replacement() + (Letters(1) + Replacement())
  {
    EndIs(FOURTH);
    AfterBoth(THIRD, 1, Bad(FOURTH));
    assert [Span(THIRD, 3)] + (Ones(1) + [Span(FOURTH, 3)]) == BackSpans()[2..];
  }

  lemma Regroup(back: seq<Span>)
    ensures Ones(1) + ([Span(FIRST, 3)] + (Ones(1) + ([Span(SECOND, 3)] + (Ones(101) + back)))) ==
      FrontSpans() + ([Span(1, 1), Span(1, 1)] + back)
  {
    assert Ones(1) == [Span(1, 1)];
    assert Ones(101) == Ones(99) + [Span(1, 1), Span(1, 1)];
  }

  lemma BackAgain()
    ensures [Span(1, 1), Span(1, 1)] + BackSpans()[2..] == BackSpans()
  {
  }

  lemma TextIs()
    ensures Spans(Text()) == FrontSpans() + BackSpans() && Normalize(Text()) == Shown() && !Valid(Text())
  {
    BackIs();
    var rest := Bad(SECOND) + (Letters(101) + Ending());
    var runs := Bad(FIRST) + (Letters(1) + rest);
    AfterBoth(SECOND, 101, Ending());
    AfterBoth(FIRST, 1, rest);
    AfterLetters(1, runs);
    Regroup(BackSpans()[2..]);
    BackAgain();
    NotValid(runs);
  }

  lemma NotValid(rest: seq<Byte>)
    requires rest != [] && RuneLen(rest) == 0
    ensures !Valid(Letters(1) + rest)
  {
    var s := Letters(1) + rest;
    assert s[0] == 0x61 && s[1..] == rest;
  }

  // ---------------------------------------------------------------- the cuts

  /** Where characters begin in what is shown. */
  lemma Starts()
    ensures |Shown()| == 116
    ensures var v := Shown();
      forall i :: 0 <= i < 116 ==> (RuneStart(v[i]) <==> i !in {2, 3, 6, 7, 110, 111, 114, 115})
  {
    var v := Shown();
    assert v[0] == 0x61 && v[1] == 0xEF && v[2] == 0xBF && v[3] == 0xBD && v[4] == 0x61;
    assert v[5] == 0xEF && v[6] == 0xBF && v[7] == 0xBD;
    assert forall i :: 8 <= i < 109 ==> v[i] == 0x61;
    assert v[109] == 0xEF && v[110] == 0xBF && v[111] == 0xBD && v[112] == 0x61;
    assert v[113] == 0xEF && v[114] == 0xBF && v[115] == 0xBD;
  }

  lemma HeadCuts()
    ensures var v := Shown();
      && HeadEnd(v, 3) == 1 && HeadEnd(v, 4) == 4 && HeadEnd(v, 6) == 5
      && HeadEnd(v, 7) == 5 && HeadEnd(v, 8) == 8 && HeadEnd(v, 9) == 9
  {
    Starts();
    var v := Shown();
    assert Back(v, 1) == 1;
    assert Back(v, 2) == Back(v, 1);
    assert Back(v, 5) == 5;
    assert Back(v, 6) == Back(v, 5);
  }

  lemma TailCuts()
    ensures var v := Shown();
      && TailStart(v, 3) == 113 && TailStart(v, 4) == 112 && TailStart(v, 6) == 112
      && TailStart(v, 7) == 109 && TailStart(v, 8) == 108 && TailStart(v, 9) == 107
  {
    Starts();
    var v := Shown();
    assert Ahead(v, 112) == 112 && Ahead(v, 111) == Ahead(v, 112);
  }

  // ---------------------------------------------------------------- what is behind them

  lemma RangeCons(p: Span, ps: seq<Span>, offset: nat, start: int, end: int)
    requires offset < end
    ensures RangeFrom([p] + ps, offset, start, end) ==
      (if offset >= start then p.source else 0) + RangeFrom(ps, offset + p.text, start, end)
  {
    assert ([p] + ps)[1..] == ps;
  }

  /** Spans before the range do not count. */
  lemma {:induction false} RangeSkips(ps: seq<Span>, qs: seq<Span>, offset: nat, start: int, end: int)
    requires offset + TextTotal(ps) <= start < end && forall p :: p in ps ==> p.text > 0
    ensures RangeFrom(ps + qs, offset, start, end) == RangeFrom(qs, offset + TextTotal(ps), start, end)
    decreases |ps|
  {
    if ps == [] {
      assert ps + qs == qs;
    } else {
      assert ps + qs == [ps[0]] + (ps[1..] + qs) && ps[0] in ps;
      RangeCons(ps[0], ps[1..] + qs, offset, start, end);
      RangeSkips(ps[1..], qs, offset + ps[0].text, start, end);
    }
  }

  lemma {:induction false} OnesTotal(n: nat)
    ensures TextTotal(Ones(n)) == n
  {
    if n > 0 {
      assert Ones(n)[1..] == Ones(n - 1);
      OnesTotal(n - 1);
    }
  }

  lemma {:induction false} TotalsAdd(ps: seq<Span>, qs: seq<Span>)
    ensures TextTotal(ps + qs) == TextTotal(ps) + TextTotal(qs)
  {
    if ps == [] {
      assert ps + qs == qs;
    } else {
      assert (ps + qs)[1..] == ps[1..] + qs;
      TotalsAdd(ps[1..], qs);
    }
  }

  lemma HeadTotal()
    ensures TextTotal(HEAD) == 8
  {
    assert HEAD == [Span(1, 1)] + ([Span(FIRST, 3)] + ([Span(1, 1)] + [Span(SECOND, 3)]));
    TotalsAdd([Span(1, 1)], [Span(FIRST, 3)] + ([Span(1, 1)] + [Span(SECOND, 3)]));
    TotalsAdd([Span(FIRST, 3)], [Span(1, 1)] + [Span(SECOND, 3)]);
    TotalsAdd([Span(1, 1)], [Span(SECOND, 3)]);
    OneTotal(Span(FIRST, 3));
    OneTotal(Span(1, 1));
    OneTotal(Span(SECOND, 3));
  }

  lemma OneTotal(p: Span)
    ensures TextTotal([p]) == p.text
  {
    assert [p][1..] == [];
  }

  /** The five spans a shown head can reach. */
  lemma HeadRanges(tail: seq<Span>)
    ensures
      var ps := [Span(1, 1)] + ([Span(FIRST, 3)] + ([Span(1, 1)] + ([Span(SECOND, 3)] + ([Span(1, 1)] + tail))));
      && RangeFrom(ps, 0, 0, 1) == 1 && RangeFrom(ps, 0, 0, 4) == FIRST + 1 && RangeFrom(ps, 0, 0, 5) == FIRST + 2
      && RangeFrom(ps, 0, 0, 8) == FIRST + SECOND + 2 && RangeFrom(ps, 0, 0, 9) == FIRST + SECOND + 3
  {
    var p4 := [Span(1, 1)] + tail;
    var p3 := [Span(SECOND, 3)] + p4;
    var p2 := [Span(1, 1)] + p3;
    var p1 := [Span(FIRST, 3)] + p2;
    forall e | e in {1, 4, 5, 8, 9} ensures RangeFrom([Span(1, 1)] + p1, 0, 0, e) == 1 + RangeFrom(p1, 1, 0, e) {
      RangeCons(Span(1, 1), p1, 0, 0, e);
    }
    forall e | e in {4, 5, 8, 9} ensures RangeFrom(p1, 1, 0, e) == FIRST + RangeFrom(p2, 4, 0, e) {
      RangeCons(Span(FIRST, 3), p2, 1, 0, e);
    }
    forall e | e in {5, 8, 9} ensures RangeFrom(p2, 4, 0, e) == 1 + RangeFrom(p3, 5, 0, e) {
      RangeCons(Span(1, 1), p3, 4, 0, e);
    }
    forall e | e in {8, 9} ensures RangeFrom(p3, 5, 0, e) == SECOND + RangeFrom(p4, 8, 0, e) {
      RangeCons(Span(SECOND, 3), p4, 5, 0, e);
    }
    RangeCons(Span(1, 1), tail, 8, 0, 9);
  }

  lemma SpansFromHead()
    ensures FrontSpans() + BackSpans() ==
      [Span(1, 1)] + ([Span(FIRST, 3)] + ([Span(1, 1)] + ([Span(SECOND, 3)] +
        ([Span(1, 1)] + (Ones(98) + BackSpans())))))
  {
    assert Ones(99) == [Span(1, 1)] + Ones(98);
  }

  /** The five spans a shown tail can reach, from the right end of what is never shown. */
  lemma TailRanges()
    ensures
      var b := BackSpans();
      && RangeFrom(b, 107, 113, 116) == FOURTH && RangeFrom(b, 107, 112, 116) == FOURTH + 1
      && RangeFrom(b, 107, 109, 116) == THIRD + FOURTH + 1 && RangeFrom(b, 107, 108, 116) == THIRD + FOURTH + 2
      && RangeFrom(b, 107, 107, 116) == THIRD + FOURTH + 3
  {
    var p4 := [Span(FOURTH, 3)] + [];
    var p3 := [Span(1, 1)] + p4;
    var p2 := [Span(THIRD, 3)] + p3;
    var p1 := [Span(1, 1)] + p2;
    assert BackSpans() == [Span(1, 1)] + p1;
    forall s: int | s in {107, 108, 109, 112, 113}
      ensures RangeFrom(BackSpans(), 107, s, 116) == (if s <= 107 then 1 else 0) + (if s <= 108 then 1 else 0)
        + (if s <= 109 then THIRD else 0) + (if s <= 112 then 1 else 0) + FOURTH
    {
      RangeCons(Span(1, 1), p1, 107, s, 116);
      RangeCons(Span(1, 1), p2, 108, s, 116);
      RangeCons(Span(THIRD, 3), p3, 109, s, 116);
      RangeCons(Span(1, 1), p4, 112, s, 116);
      RangeCons(Span(FOURTH, 3), [], 113, s, 116);
    }
  }

  lemma FrontTotal()
    ensures TextTotal(FrontSpans()) == 107
    ensures forall p :: p in FrontSpans() ==> p.text > 0
  {
    HeadTotal();
    OnesTotal(99);
    TotalsAdd(HEAD, Ones(99));
  }

  // ---------------------------------------------------------------- the guesses

  const ORIGINAL: nat := 10_000_000_000_000

  lemma Length()
    ensures |Text()| == ORIGINAL
  {
    assert |Bad(FIRST)| == FIRST && |Bad(SECOND)| == SECOND && |Bad(THIRD)| == THIRD && |Bad(FOURTH)| == FOURTH;
  }

  function Work(): Job { JobOf(Text(), LIMIT) }

  lemma WorkIs()
    ensures Work() == Job(Shown(), false, FrontSpans() + BackSpans(), ORIGINAL, LIMIT) && Work().Proper()
  {
    TextIs();
    Length();
    Starts();
    JobIsProper(Text(), LIMIT);
  }

  lemma HeadRange()
    ensures var j := Work();
      && j.Range(0, 1) == 1 && j.Range(0, 4) == FIRST + 1 && j.Range(0, 5) == FIRST + 2
      && j.Range(0, 8) == FIRST + SECOND + 2 && j.Range(0, 9) == FIRST + SECOND + 3
  {
    WorkIs();
    SpansFromHead();
    HeadRanges(Ones(98) + BackSpans());
  }

  lemma TailRangeAt(front: seq<Span>, back: seq<Span>, start: int)
    requires TextTotal(front) == 107 && (forall p :: p in front ==> p.text > 0) && 107 <= start < 116
    ensures RangeFrom(front + back, 0, start, 116) == RangeFrom(back, 107, start, 116)
  {
    RangeSkips(front, back, 0, start, 116);
  }

  lemma TailRange()
    ensures var j := Work();
      && j.Range(113, 116) == FOURTH && j.Range(112, 116) == FOURTH + 1 && j.Range(109, 116) == THIRD + FOURTH + 1
      && j.Range(108, 116) == THIRD + FOURTH + 2 && j.Range(107, 116) == THIRD + FOURTH + 3
  {
    WorkIs();
    FrontTotal();
    TailRanges();
    TailRangeAt(FrontSpans(), BackSpans(), 113);
    TailRangeAt(FrontSpans(), BackSpans(), 112);
    TailRangeAt(FrontSpans(), BackSpans(), 109);
    TailRangeAt(FrontSpans(), BackSpans(), 108);
    TailRangeAt(FrontSpans(), BackSpans(), 107);
  }

  /** What each amount of room leaves out. */
  lemma Omissions()
    ensures var j := Work();
      && j.Omitted(6) == 1_000_000_000_000 && j.Omitted(7) == 999_999_999_999 && j.Omitted(8) == 10_000_000
      && j.Omitted(12) == 9_999_999 && j.Omitted(13) == 10_000 && j.Omitted(15) == 9_999
      && j.Omitted(16) == 100 && j.Omitted(17) == 99 && j.Omitted(18) == 98
  {
    WorkIs();
    HeadCuts();
    TailCuts();
    HeadRange();
    TailRange();
    Starts();
  }

  /** A number of d digits. */
  lemma DigitsAre(n: nat, d: nat)
    requires d >= 1 && Pow10(d - 1) <= n < Pow10(d)
    ensures Digits(n) == d
  {
    AtLeastDigits(n, d);
    DigitsBound(n);
    if Digits(n) > d { Pow10Monotone(d, Digits(n) - 1); }
  }

  lemma Powers()
    ensures Pow10(1) == 10 && Pow10(2) == 100 && Pow10(3) == 1000 && Pow10(4) == 10_000 && Pow10(5) == 100_000
    ensures Pow10(6) == 1_000_000 && Pow10(7) == 10_000_000 && Pow10(8) == 100_000_000
    ensures Pow10(11) == 100_000_000_000 && Pow10(12) == 1_000_000_000_000 && Pow10(13) == 10_000_000_000_000
    ensures Pow10(14) == 100_000_000_000_000
  {
    assert Pow10(2) == 10 * Pow10(1);
    assert Pow10(3) == 10 * Pow10(2);
    assert Pow10(4) == 10 * Pow10(3);
    assert Pow10(5) == 10 * Pow10(4);
    assert Pow10(6) == 10 * Pow10(5);
    assert Pow10(7) == 10 * Pow10(6);
    assert Pow10(8) == 10 * Pow10(7);
    assert Pow10(9) == 10 * Pow10(8);
    assert Pow10(10) == 10 * Pow10(9);
    assert Pow10(11) == 10 * Pow10(10);
    assert Pow10(12) == 10 * Pow10(11);
    assert Pow10(13) == 10 * Pow10(12);
    assert Pow10(14) == 10 * Pow10(13);
  }

  lemma Lengths()
    ensures Digits(ORIGINAL) == 14 && Digits(1_000_000_000_000) == 13 && Digits(999_999_999_999) == 12
    ensures Digits(10_000_000) == 8 && Digits(9_999_999) == 7 && Digits(10_000) == 5 && Digits(9_999) == 4
    ensures Digits(100) == 3 && Digits(99) == 2
  {
    Powers();
    DigitsAre(ORIGINAL, 14);
    DigitsAre(1_000_000_000_000, 13);
    DigitsAre(999_999_999_999, 12);
    DigitsAre(10_000_000, 8);
    DigitsAre(9_999_999, 7);
    DigitsAre(10_000, 5);
    DigitsAre(9_999, 4);
    DigitsAre(100, 3);
    DigitsAre(99, 2);
  }

  /** The room the marker of each guess leaves. */
  lemma Rooms()
    ensures var j := Work();
      && j.Room(ORIGINAL) == 6 && j.Room(1_000_000_000_000) == 7 && j.Room(999_999_999_999) == 8
      && j.Room(10_000_000) == 12 && j.Room(9_999_999) == 13 && j.Room(10_000) == 15
      && j.Room(9_999) == 16 && j.Room(100) == 17 && j.Room(99) == 18
  {
    WorkIs();
    Lengths();
  }

  /** Guess m leaves this room, which makes guess n true. */
  ghost predicate Follows(j: Job, m: nat, room: int, n: nat) { room > 0 && j.Room(m) == room && j.Omitted(room) == n }

  /** Ten guesses, each from the one before, all but the last shorter. */
  ghost predicate Chain(j: Job, g: seq<nat>, r: seq<int>) {
    && |g| == 10 && |r| == 9 && g[0] == j.original && g[9] != g[8]
    && (forall k: nat :: k < 9 ==> Follows(j, g[k], r[k], g[k + 1]))
    && forall k: nat :: k < 8 ==> Digits(g[k + 1]) < Digits(g[k])
  }

  lemma GuessStep(j: Job, i: nat, m: nat, room: int, n: nat)
    requires j.Proper() && Guess(j, i) == m && Follows(j, m, room, n)
    ensures Guess(j, i + 1) == n
  {
  }

  lemma {:induction false} GuessIs(j: Job, g: seq<nat>, r: seq<int>, i: nat)
    requires i < 10 && j.Proper() && Chain(j, g, r)
    ensures Guess(j, i) == g[i]
  {
    if i > 0 {
      GuessIs(j, g, r, i - 1);
      GuessStep(j, i - 1, g[i - 1], r[i - 1], g[i]);
    }
  }

  lemma ChainKeepsFalling(j: Job, g: seq<nat>, r: seq<int>)
    requires Markable(j) && Chain(j, g, r)
    ensures KeepsFalling(j) && Guess(j, MARKER_ROUNDS) == g[8] && Guess(j, MARKER_ROUNDS + 1) == g[9]
  {
    forall i | 0 <= i < MARKER_ROUNDS ensures Digits(Guess(j, i + 1)) < Digits(Guess(j, i)) {
      GuessIs(j, g, r, i);
      GuessIs(j, g, r, i + 1);
    }
    GuessIs(j, g, r, MARKER_ROUNDS);
    GuessIs(j, g, r, MARKER_ROUNDS + 1);
    LastRound(j, MARKER_ROUNDS - 1);
  }

  lemma LinkChain(j: Job, g: seq<nat>, r: seq<int>)
    requires |g| == 10 && |r| == 9 && g[0] == j.original && g[9] != g[8]
    requires Follows(j, g[0], r[0], g[1]) && Follows(j, g[1], r[1], g[2]) && Follows(j, g[2], r[2], g[3])
    requires Follows(j, g[3], r[3], g[4]) && Follows(j, g[4], r[4], g[5]) && Follows(j, g[5], r[5], g[6])
    requires Follows(j, g[6], r[6], g[7]) && Follows(j, g[7], r[7], g[8]) && Follows(j, g[8], r[8], g[9])
    requires Digits(g[8]) < Digits(g[7]) < Digits(g[6]) < Digits(g[5]) < Digits(g[4])
    requires Digits(g[4]) < Digits(g[3]) < Digits(g[2]) < Digits(g[1]) < Digits(g[0])
    ensures Chain(j, g, r)
  {
  }

  lemma TenFall(j: Job, g0: nat, g1: nat, g2: nat, g3: nat, g4: nat, g5: nat, g6: nat, g7: nat, g8: nat, g9: nat,
                r0: int, r1: int, r2: int, r3: int, r4: int, r5: int, r6: int, r7: int, r8: int)
    requires Markable(j) && g0 == j.original && g9 != g8
    requires Follows(j, g0, r0, g1) && Follows(j, g1, r1, g2) && Follows(j, g2, r2, g3) && Follows(j, g3, r3, g4)
    requires Follows(j, g4, r4, g5) && Follows(j, g5, r5, g6) && Follows(j, g6, r6, g7) && Follows(j, g7, r7, g8)
    requires Follows(j, g8, r8, g9) && Digits(g8) < Digits(g7) < Digits(g6) < Digits(g5) < Digits(g4)
    requires Digits(g4) < Digits(g3) < Digits(g2) < Digits(g1) < Digits(g0)
    ensures KeepsFalling(j) && Guess(j, MARKER_ROUNDS) == g8 && Guess(j, MARKER_ROUNDS + 1) == g9
  {
    var g, r := [g0, g1, g2, g3, g4, g5, g6, g7, g8, g9], [r0, r1, r2, r3, r4, r5, r6, r7, r8];
    LinkChain(j, g, r);
    ChainKeepsFalling(j, g, r);
  }

  ghost predicate AllFollow(j: Job) {
    && Follows(j, ORIGINAL, 6, 1_000_000_000_000) && Follows(j, 1_000_000_000_000, 7, 999_999_999_999)
    && Follows(j, 999_999_999_999, 8, 10_000_000) && Follows(j, 10_000_000, 12, 9_999_999)
    && Follows(j, 9_999_999, 13, 10_000) && Follows(j, 10_000, 15, 9_999) && Follows(j, 9_999, 16, 100)
    && Follows(j, 100, 17, 99) && Follows(j, 99, 18, 98)
  }

  lemma WorkFollows()
    ensures AllFollow(Work())
  {
    Rooms();
    Omissions();
  }

  lemma NeverSettles()
    ensures Work().Proper() && KeepsFalling(Work())
    ensures Guess(Work(), MARKER_ROUNDS) == 99 && Guess(Work(), MARKER_ROUNDS + 1) == 98
  {
    WorkIs();
    Lengths();
    WorkFollows();
    TenFall(Work(), ORIGINAL, 1_000_000_000_000, 999_999_999_999, 10_000_000, 9_999_999, 10_000, 9_999, 100, 99, 98,
            6, 7, 8, 12, 13, 15, 16, 17, 18);
  }

  lemma Fits()
    ensures |Text()| == ORIGINAL && LIMIT < |Normalize(Text())| && |Marker(|Text()|, |Text()|)| < LIMIT
  {
    TextIs();
    Length();
    Starts();
    Lengths();
  }

  /** The input that shows it: on this text the marker fits and says 99 where 98 bytes are left out. */
  lemma CountCanBeWrong() returns (h: nat, t: nat, printed: nat)
    ensures |Text()| == 10_000_000_000_000 && LIMIT < |Normalize(Text())|
    ensures Printed(Text(), LIMIT, h, t, printed) && printed == 99 && Dropped(Text(), h, t) == 98
  {
    Fits();
    NeverSettles();
    h, t, printed := MarkerCountIsExactIff(Text(), LIMIT);
  }
}
