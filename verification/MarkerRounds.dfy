/** How many rounds the marker of a shaped tool result needs (internal/loopruntime/tool_result_shape.go).
    A byte of room shows at most one character more, and an ill-formed run, the only thing that can take
    many bytes off the number at once, needs three bytes of room on one side. */
module MarkerRounds {
  import opened Utf8
  import opened Decimal
  import opened ToolResultShape

  // ---------------------------------------------------------------- one byte more on one side

  /** The head cut moves to the end of its budget or not at all. */
  lemma HeadStep(v: seq<Byte>, b: nat)
    requires Boundary(v, 0) && b < |v|
    ensures HeadEnd(v, b + 1) == HeadEnd(v, b) || HeadEnd(v, b + 1) == b + 1
    ensures Boundary(v, HeadEnd(v, b)) && Boundary(v, HeadEnd(v, b + 1))
    ensures forall k :: HeadEnd(v, b) < k <= b ==> !Boundary(v, k)
  {
    CutsAreBoundaries(v, b);
    CutsAreBoundaries(v, b + 1);
    forall k | HeadEnd(v, b) < k <= b ensures !Boundary(v, k) {
      if Boundary(v, k) { BackFinds(v, b, k); }
    }
    if b > 0 && b + 1 < |v| && HeadEnd(v, b + 1) <= b { BackFinds(v, b, HeadEnd(v, b + 1)); }
  }

  lemma TailStep(v: seq<Byte>, b: nat)
    requires Boundary(v, 0) && b < |v|
    ensures TailStart(v, b + 1) == TailStart(v, b) || TailStart(v, b + 1) == |v| - b - 1
    ensures Boundary(v, TailStart(v, b)) && Boundary(v, TailStart(v, b + 1))
    ensures forall k :: |v| - b <= k < TailStart(v, b) ==> !Boundary(v, k)
  {
    CutsAreBoundaries(v, b);
    CutsAreBoundaries(v, b + 1);
    forall k | |v| - b <= k < TailStart(v, b) ensures !Boundary(v, k) {
      if Boundary(v, k) { AheadFinds(v, |v| - b, k); }
    }
    if 0 < b && TailStart(v, b + 1) >= |v| - b { AheadFinds(v, |v| - b, TailStart(v, b + 1)); }
  }

  /** Behind a stretch with no character start inside is one span. */
  lemma {:induction false} OneSpan(ps: seq<Span>, offset: nat, a: int, b: int)
    requires StartsAt(ps, offset, a) && a < b && (StartsAt(ps, offset, b) || b == offset + TextTotal(ps))
    requires (forall k :: a < k < b ==> !StartsAt(ps, offset, k)) && forall p :: p in ps ==> ProperSpan(p)
    ensures exists p :: p in ps && p.text == b - a && RangeFrom(ps, offset, a, b) == p.source
  {
    var p, rest, next := ps[0], ps[1..], offset + ps[0].text;
    assert p in ps;
    if a == offset {
      NextStart(ps, offset, b);
      assert next == b;
      RangeBeyond(rest, next, a, b);
      RangeUnfolds(ps, offset, a, b);
    } else {
      StartsNotBefore(rest, next, a);
      forall k | a < k < b ensures !StartsAt(rest, next, k) {
        assert !StartsAt(ps, offset, k);
      }
      OneSpan(rest, next, a, b);
      var q :| q in rest && q.text == b - a && RangeFrom(rest, next, a, b) == q.source;
      assert q in ps;
    }
  }

  /** The span after the first begins where the first ends, and nothing begins between. */
  lemma NextStart(ps: seq<Span>, offset: nat, b: int)
    requires ps != [] && offset < b && (StartsAt(ps, offset, b) || b == offset + TextTotal(ps)) && ProperSpan(ps[0])
    ensures offset + ps[0].text <= b
    ensures offset + ps[0].text == b || StartsAt(ps, offset, offset + ps[0].text)
  {
    var rest, next := ps[1..], offset + ps[0].text;
    if rest == [] {
      assert !StartsAt(rest, next, b) && TextTotal(ps) == ps[0].text;
    } else {
      assert StartsAt(rest, next, next);
      if StartsAt(ps, offset, b) { StartsNotBefore(rest, next, b); } else { TotalNotNegative(rest); }
    }
  }

  lemma RangeUnfolds(ps: seq<Span>, offset: nat, a: int, b: int)
    requires ps != [] && a <= offset < b
    ensures RangeFrom(ps, offset, a, b) == ps[0].source + RangeFrom(ps[1..], offset + ps[0].text, a, b)
  {
  }

  lemma StartsNotBefore(ps: seq<Span>, offset: nat, k: int)
    requires StartsAt(ps, offset, k)
    ensures k >= offset
  {
  }

  lemma TotalNotNegative(ps: seq<Span>)
    ensures TextTotal(ps) >= 0
  {
  }

  /** One character of the normalized text: four source bytes at most, or an ill-formed run shown in three. */
  lemma OneCharacter(j: Job, a: int, b: int)
    requires j.Proper() && 0 <= a < b <= |j.normalized| && Boundary(j.normalized, a) && Boundary(j.normalized, b)
    requires forall k :: a < k < b ==> !Boundary(j.normalized, k)
    ensures j.Range(a, b) <= 4 || (b - a == 3 && !j.plain)
  {
    var v := j.normalized;
    if j.plain {
      assert NearBoundary(v, b - 1);
    } else {
      forall k | a < k < b ensures !StartsAt(j.spans, 0, k) {
        assert !Boundary(v, k);
      }
      OneSpan(j.spans, 0, a, b);
    }
  }

  // ---------------------------------------------------------------- one byte of room

  /** What byte r of room takes off the number: odd bytes go to the head, even ones to the tail. */
  function Gain(j: Job, r: int): int {
    var v, q := j.normalized, r / 2;
    if r % 2 == 1 then j.Range(HeadEnd(v, q), HeadEnd(v, q + 1)) else j.Range(TailStart(v, q + 1), TailStart(v, q))
  }

  lemma GainIs(j: Job, r: int)
    requires j.Proper() && 0 < r < j.limit
    ensures Gain(j, r) == j.Omitted(r) - j.Omitted(r + 1) >= 0
  {
    ChangesIffCutsMove(j, r, r + 1);
    OmittedMonotone(j, r, r + 1);
    RangeAddsUp(j, j.HeadOf(r), j.HeadOf(r), j.HeadOf(r));
    RangeAddsUp(j, j.TailOf(r), j.TailOf(r), j.TailOf(r));
  }

  lemma BigHead(j: Job, b: nat)
    requires j.Proper() && b < |j.normalized| && j.Range(HeadEnd(j.normalized, b), HeadEnd(j.normalized, b + 1)) > 4
    ensures !j.plain && b >= 2
    ensures HeadEnd(j.normalized, b - 1) == HeadEnd(j.normalized, b) == HeadEnd(j.normalized, b - 2)
  {
    var v := j.normalized;
    HeadStep(v, b);
    var h := HeadEnd(v, b);
    RangeAddsUp(j, h, h, h);
    OneCharacter(j, h, b + 1);
    HeadStep(v, b - 1);
    HeadStep(v, b - 2);
  }

  lemma BigTail(j: Job, b: nat)
    requires j.Proper() && b < |j.normalized| && j.Range(TailStart(j.normalized, b + 1), TailStart(j.normalized, b)) > 4
    ensures !j.plain && b >= 2
    ensures TailStart(j.normalized, b - 1) == TailStart(j.normalized, b) == TailStart(j.normalized, b - 2)
  {
    var v := j.normalized;
    TailStep(v, b);
    var t := TailStart(v, b);
    RangeAddsUp(j, t, t, t);
    OneCharacter(j, |v| - b - 1, t);
    TailStep(v, b - 1);
    TailStep(v, b - 2);
  }

  /** Byte r of room moves no cut. */
  predicate Still(j: Job, r: int) {
    var v, q := j.normalized, r / 2;
    if r % 2 == 1 then HeadEnd(v, q) == HeadEnd(v, q + 1) else TailStart(v, q) == TailStart(v, q + 1)
  }

  lemma StillNoGain(j: Job, r: int)
    requires j.Proper() && 0 < r < j.limit && Still(j, r)
    ensures Gain(j, r) == 0
  {
    var h, t := HeadEnd(j.normalized, r / 2), TailStart(j.normalized, r / 2);
    RangeAddsUp(j, h, h, h);
    RangeAddsUp(j, t, t, t);
  }

  lemma StillBefore(j: Job, r: int)
    requires j.Proper() && 0 < r < j.limit && Gain(j, r) > 4
    ensures !j.plain && Still(j, r - 2) && Still(j, r - 4)
  {
    assert (r - 2) / 2 == r / 2 - 1 && (r - 4) / 2 == r / 2 - 2 && (r - 2) % 2 == r % 2 == (r - 4) % 2;
    if r % 2 == 1 { BigHead(j, r / 2); } else { BigTail(j, r / 2); }
  }

  /** A byte of room that takes more than four off the number completes a run, and the two bytes before it
      on the same side took nothing. */
  lemma BigGain(j: Job, r: int)
    requires j.Proper() && 0 < r < j.limit && Gain(j, r) > 4
    ensures !j.plain && (r > 2 ==> Gain(j, r - 2) == 0) && (r > 4 ==> Gain(j, r - 4) == 0)
  {
    StillBefore(j, r);
    if r > 2 { StillNoGain(j, r - 2); }
    if r > 4 { StillNoGain(j, r - 4); }
  }

  // ---------------------------------------------------------------- all the bytes of room

  function Gains(j: Job): seq<int> { seq(j.limit, r => Gain(j, r)) }

  /** A gain above four stands behind two bytes on its side that gained nothing. */
  ghost predicate Sparse(g: seq<int>) {
    forall r :: 0 < r < |g| && g[r] > 4 ==> (r > 2 ==> g[r - 2] == 0) && (r > 4 ==> g[r - 4] == 0)
  }

  lemma GainsAreSparse(j: Job)
    requires j.Proper()
    ensures Sparse(Gains(j))
  {
    forall r | 0 < r < j.limit && Gain(j, r) > 4
      ensures (r > 2 ==> Gain(j, r - 2) == 0) && (r > 4 ==> Gain(j, r - 4) == 0)
    {
      BigGain(j, r);
    }
  }

  function Sum(g: seq<int>, lo: int, hi: int): int
    requires 0 <= lo <= hi <= |g|
    decreases hi - lo
  {
    if lo == hi then 0 else g[lo] + Sum(g, lo + 1, hi)
  }

  lemma {:induction false} GainsAddUp(j: Job, r: int, r': int)
    requires j.Proper() && 0 < r <= r' <= j.limit
    ensures Sum(Gains(j), r, r') == j.Omitted(r) - j.Omitted(r')
    decreases r' - r
  {
    if r < r' {
      GainIs(j, r);
      GainsAddUp(j, r + 1, r');
    }
  }

  lemma GainsNotNegative(j: Job)
    requires j.Proper()
    ensures forall r :: 0 < r < j.limit ==> Gains(j)[r] >= 0
  {
    forall r | 0 < r < j.limit ensures Gains(j)[r] >= 0 {
      GainIs(j, r);
    }
  }

  /** A byte that gained something, and something big if the bytes together gained much. */
  ghost predicate Hit(g: seq<int>, r: int, r': int, p: int)
    requires 0 < r <= r' <= |g|
  {
    r <= p < r' && g[p] > 0 && (Sum(g, r, r') > 4 * (r' - r) ==> g[p] > 4)
  }

  lemma {:induction false} FindGain(g: seq<int>, r: int, r': int) returns (p: int)
    requires 0 < r <= r' <= |g| && Sum(g, r, r') != 0 && forall k :: 0 < k < |g| ==> g[k] >= 0
    ensures Hit(g, r, r', p)
    decreases r' - r
  {
    if g[r] > 4 || Sum(g, r + 1, r') == 0 {
      p := r;
    } else {
      p := FindGain(g, r + 1, r');
    }
  }

  // ---------------------------------------------------------------- eight rounds

  /** A big gain at q excludes a gain two or four bytes below it. */
  predicate Clear(big: bool, p: int, q: int) { big ==> p != q - 2 && p != q - 4 }

  lemma Spread(p1: int, p2: int, p3: int, p4: int, p5: int, p6: int, p7: int, p8: int,
               b1: bool, b2: bool, b3: bool, b4: bool, b5: bool, b6: bool, b7: bool)
    requires p1 < p2 < p3 < p4 < p5 < p6 < p7 < p8
    requires (b1 || b2) && (b2 || b3) && (b3 || b4) && (b4 || b5) && (b5 || b6) && (b6 || b7)
    requires Clear(b3, p1, p3) && Clear(b3, p2, p3)
    requires Clear(b4, p1, p4) && Clear(b4, p2, p4) && Clear(b4, p3, p4)
    requires Clear(b5, p1, p5) && Clear(b5, p2, p5) && Clear(b5, p3, p5) && Clear(b5, p4, p5)
    requires Clear(b6, p1, p6) && Clear(b6, p2, p6) && Clear(b6, p3, p6) && Clear(b6, p4, p6) && Clear(b6, p5, p6)
    requires Clear(b7, p1, p7) && Clear(b7, p2, p7) && Clear(b7, p3, p7)
    requires Clear(b7, p4, p7) && Clear(b7, p5, p7) && Clear(b7, p6, p7)
    ensures p8 - p1 >= 11
  {
  }

  /** Eight gains, no two of the first seven that follow each other both small. */
  ghost predicate Hits(g: seq<int>, p: seq<int>) {
    && |p| == 8 && (forall i :: 0 <= i < 8 ==> 0 < p[i] < |g|)
    && (forall i :: 0 <= i < 8 ==> g[p[i]] > 0)
    && (forall i, k :: 0 <= i < k < 8 ==> p[i] < p[k])
    && forall i :: 0 <= i < 6 ==> g[p[i]] > 4 || g[p[i + 1]] > 4
  }

  lemma HitsSpread(g: seq<int>, p: seq<int>)
    requires Sparse(g) && Hits(g, p)
    ensures p[7] - p[0] >= 11
  {
    forall i, k | 0 <= i < k < 8 ensures Clear(g[p[k]] > 4, p[i], p[k]) {
    }
    Spread(p[0], p[1], p[2], p[3], p[4], p[5], p[6], p[7],
           g[p[0]] > 4, g[p[1]] > 4, g[p[2]] > 4, g[p[3]] > 4, g[p[4]] > 4, g[p[5]] > 4, g[p[6]] > 4);
  }

  /** The room before and after: something is gained, and much of it. */
  ghost predicate Gained(g: seq<int>, r: int, r': int) { 0 < r < r' <= |g| && Sum(g, r, r') != 0 }

  ghost predicate GainedMuch(g: seq<int>, r: int, r': int) { 0 < r < r' <= |g| && Sum(g, r, r') > 4 * (r' - r) }

  /** Nine rooms, something gained from each to the next, and in the first seven never little twice running. */
  ghost predicate Rising(g: seq<int>, r: seq<int>) {
    && |r| == 9 && (forall i :: 0 <= i < 8 ==> Gained(g, r[i], r[i + 1]))
    && forall i :: 0 <= i < 6 ==> GainedMuch(g, r[i], r[i + 1]) || GainedMuch(g, r[i + 1], r[i + 2])
  }

  lemma {:induction false} FindHits(g: seq<int>, r: seq<int>, n: nat) returns (p: seq<int>)
    requires Rising(g, r) && n <= 8 && forall k :: 0 < k < |g| ==> g[k] >= 0
    ensures |p| == n && forall i :: 0 <= i < n ==> Hit(g, r[i], r[i + 1], p[i])
  {
    p := [];
    if n > 0 {
      p := FindHits(g, r, n - 1);
      assert Gained(g, r[n - 1], r[n]);
      var q := FindGain(g, r[n - 1], r[n]);
      p := p + [q];
    }
  }

  lemma {:induction false} Ordered(g: seq<int>, r: seq<int>, p: seq<int>, i: nat, k: nat)
    requires Rising(g, r) && |p| == 8 && (forall i :: 0 <= i < 8 ==> Hit(g, r[i], r[i + 1], p[i])) && i < k < 8
    ensures p[i] < r[i + 1] <= p[k]
    decreases k
  {
    assert Hit(g, r[i], r[i + 1], p[i]) && Hit(g, r[k], r[k + 1], p[k]);
    if i + 1 < k { Ordered(g, r, p, i, k - 1); }
  }

  lemma RisingHits(g: seq<int>, r: seq<int>, p: seq<int>)
    requires Rising(g, r) && |p| == 8 && forall i :: 0 <= i < 8 ==> Hit(g, r[i], r[i + 1], p[i])
    ensures Hits(g, p)
  {
    forall i | 0 <= i < 8 ensures 0 < p[i] < |g| && g[p[i]] > 0 {
      assert Gained(g, r[i], r[i + 1]) && Hit(g, r[i], r[i + 1], p[i]);
    }
    forall i, k | 0 <= i < k < 8 ensures p[i] < p[k] {
      Ordered(g, r, p, i, k);
    }
    forall i | 0 <= i < 6 ensures g[p[i]] > 4 || g[p[i + 1]] > 4 {
      assert GainedMuch(g, r[i], r[i + 1]) || GainedMuch(g, r[i + 1], r[i + 2]);
      assert Hit(g, r[i], r[i + 1], p[i]) && Hit(g, r[i + 1], r[i + 2], p[i + 1]);
    }
  }

  /** Such rooms lie twelve bytes apart at least, and some byte between them gained more than four. */
  lemma RisingIsFar(g: seq<int>, r: seq<int>) returns (big: int)
    requires Sparse(g) && Rising(g, r) && forall k :: 0 < k < |g| ==> g[k] >= 0
    ensures r[8] - r[0] >= 12 && 0 < big < |g| && g[big] > 4
  {
    var p := FindHits(g, r, 8);
    RisingHits(g, r, p);
    HitsSpread(g, p);
    assert Hit(g, r[0], r[1], p[0]) && Hit(g, r[7], r[8], p[7]);
    big := if g[p[0]] > 4 then p[0] else p[1];
  }

  // ---------------------------------------------------------------- the numbers of the rounds

  /** Two digits fewer is at least 900 less. */
  lemma TwoDigitsFewer(m: nat, n: nat)
    requires Digits(n) + 2 <= Digits(m) && n >= 10
    ensures m - n >= 900
  {
    DigitsBound(m);
    DigitsBound(n);
    assert Pow10(1) == 10 && Pow10(2) == 100;
    AtLeastDigits(n, 2);
    Pow10Monotone(2, Digits(n));
    Pow10Monotone(Digits(n), Digits(m) - 1);
  }

  /** Round i: number m[i] leaves room r[i], which makes m[i + 1] true, shorter by what the room grows. */
  ghost predicate Round(g: seq<int>, m: seq<nat>, r: seq<int>, i: nat)
    requires |m| == 10 && |r| == 9 && i < 8
  {
    && 0 < r[i] < r[i + 1] <= |g| && r[i + 1] - r[i] == Digits(m[i]) - Digits(m[i + 1])
    && Sum(g, r[i], r[i + 1]) + m[i + 2] == m[i + 1] && m[i + 1] >= 14
  }

  ghost predicate Rounds(g: seq<int>, m: seq<nat>, r: seq<int>) {
    |m| == 10 && |r| == 9 && m[9] != m[8] && forall i: nat :: i < 8 ==> Round(g, m, r, i)
  }

  lemma GainedAt(g: seq<int>, m: seq<nat>, r: seq<int>, i: nat)
    requires Rounds(g, m, r) && i < 8
    ensures Gained(g, r[i], r[i + 1])
  {
    assert Round(g, m, r, i);
    if i < 7 { assert Round(g, m, r, i + 1); }
  }

  lemma NeverLittleTwice(g: seq<int>, m: seq<nat>, r: seq<int>, i: nat)
    requires Rounds(g, m, r) && i < 6 && Digits(m[i]) <= 20
    ensures GainedMuch(g, r[i], r[i + 1]) || GainedMuch(g, r[i + 1], r[i + 2])
  {
    assert Round(g, m, r, i) && Round(g, m, r, i + 1) && Round(g, m, r, i + 2);
    TwoDigitsFewer(m[i + 1], m[i + 3]);
  }

  lemma {:induction false} NoneIsLonger(g: seq<int>, m: seq<nat>, r: seq<int>, i: nat)
    requires Rounds(g, m, r) && i < 9
    ensures Digits(m[i]) <= Digits(m[0]) && Digits(m[0]) - Digits(m[i]) == r[i] - r[0]
  {
    if i > 0 {
      NoneIsLonger(g, m, r, i - 1);
      assert Round(g, m, r, i - 1);
    }
  }

  /** A number that falls in all eight rounds, and once more, began with fourteen digits. */
  lemma RoundsNeedFourteen(g: seq<int>, m: seq<nat>, r: seq<int>) returns (big: int)
    requires Sparse(g) && (forall k :: 0 < k < |g| ==> g[k] >= 0) && Rounds(g, m, r) && Digits(m[0]) <= 20
    ensures Digits(m[0]) >= 14 && 0 < big < |g| && g[big] > 4
  {
    forall i | 0 <= i < 8 ensures Gained(g, r[i], r[i + 1]) {
      GainedAt(g, m, r, i);
    }
    forall i | 0 <= i < 6 ensures GainedMuch(g, r[i], r[i + 1]) || GainedMuch(g, r[i + 1], r[i + 2]) {
      NoneIsLonger(g, m, r, i);
      NeverLittleTwice(g, m, r, i);
    }
    big := RisingIsFar(g, r);
    NoneIsLonger(g, m, r, 8);
    assert Round(g, m, r, 7);
    AtLeastDigits(m[8], 2);
  }

  // ---------------------------------------------------------------- the rounds of a job

  ghost function Guesses(j: Job): seq<nat>
    requires j.Proper()
  {
    seq(10, i requires 0 <= i < 10 => Guess(j, i))
  }

  ghost function Rooms(j: Job): seq<int>
    requires j.Proper()
  {
    seq(9, i requires 0 <= i < 9 => j.Room(Guess(j, i)))
  }

  lemma RoundGains(j: Job, i: nat)
    requires Markable(j) && Digits(Guess(j, i + 1)) < Digits(Guess(j, i))
    ensures 0 < j.Room(Guess(j, i)) < j.Room(Guess(j, i + 1)) <= j.limit && Guess(j, i + 1) >= 14
    ensures Sum(Gains(j), j.Room(Guess(j, i)), j.Room(Guess(j, i + 1))) == Guess(j, i + 1) - Guess(j, i + 2)
  {
    GuessesFall(j, i);
    GuessesFall(j, i + 1);
    GainsAddUp(j, j.Room(Guess(j, i)), j.Room(Guess(j, i + 1)));
  }

  lemma JobRound(j: Job, i: nat)
    requires Markable(j) && i < 8 && Digits(Guess(j, i + 1)) < Digits(Guess(j, i))
    ensures Round(Gains(j), Guesses(j), Rooms(j), i)
  {
    RoundGains(j, i);
    var m, r := Guesses(j), Rooms(j);
    assert r[i] == j.Room(Guess(j, i)) && r[i + 1] == j.Room(Guess(j, i + 1));
    assert m[i + 1] == Guess(j, i + 1) && m[i + 2] == Guess(j, i + 2);
  }

  lemma JobRounds(j: Job)
    requires Markable(j) && KeepsFalling(j)
    ensures Rounds(Gains(j), Guesses(j), Rooms(j))
  {
    forall i: nat | i < 8 ensures Round(Gains(j), Guesses(j), Rooms(j), i) {
      JobRound(j, i);
    }
    LastRound(j, MARKER_ROUNDS - 1);
  }

  lemma FallingNeedsFourteen(j: Job)
    requires Markable(j) && KeepsFalling(j) && Digits(j.original) <= 20
    ensures !j.plain && Digits(j.original) >= 14
  {
    JobRounds(j);
    GainsAreSparse(j);
    GainsNotNegative(j);
    assert Guesses(j)[0] == j.original;
    var big := RoundsNeedFourteen(Gains(j), Guesses(j), Rooms(j));
    BigGain(j, big);
  }

  /** The number is exact on every well-formed text, and on every byte string below 10^13 bytes. */
  lemma MarkerCountIsExact(text: seq<Byte>, limit: int) returns (h: nat, t: nat, printed: nat)
    requires 0 < limit < |Normalize(text)| && |Marker(|text|, |text|)| < limit
    requires |text| < 0x8000_0000_0000_0000 && (Valid(text) || |text| < 10_000_000_000_000)
    ensures Printed(text, limit, h, t, printed) && printed == Dropped(text, h, t)
    ensures Valid(text) ==> printed == t - h
  {
    h, t, printed := MarkerCountIsExactIff(text, limit);
    var j := JobOf(text, limit);
    DigitsOfInt64(|text|);
    if KeepsFalling(j) {
      FallingNeedsFourteen(j);
      BelowFourteen(|text|);
    }
  }

  lemma BelowFourteen(n: nat)
    ensures n < 10_000_000_000_000 ==> Digits(n) < 14
  {
    assert Pow10(13) == 10_000_000_000_000 by {
      PowersOfTen();
      assert Pow10(13) == 1000 * Pow10(10);
    }
    DigitsBound(n);
    if Digits(n) >= 14 { Pow10Monotone(13, Digits(n) - 1); }
  }
}
