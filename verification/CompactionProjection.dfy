/** The text projection a summarization request is built from
    (internal/loopruntime/compaction_projection.go): one tool result is capped at 2000 runes, with a
    marker in the middle that says how many runes were left out.

    The cap exists twice in the source, as a function of a whole string and as an accumulator that keeps
    only the first 2000 and a ring of the last 2000 rune fragments. Both are modelled here
    over byte strings, invalid UTF-8 included. */
module CompactionProjection {
  import opened Utf8
  import opened Decimal
  import opened Options

  /** The bytes of one decoded rune, or one ill-formed byte. */
  type Fragment = seq<Byte>

  const CAP: nat := 2000
  const MAX_DEPTH: nat := 128
  const MARKER_ROUNDS: nat := 8

  function Replacement(): (f: Fragment) { [0xEF, 0xBF, 0xBD] }

  /** How Go's `range` walks a string. */
  function Fragments(s: seq<Byte>): (fs: seq<Fragment>)
    ensures |fs| <= |s|
  {
    if s == [] then [] else [s[..RuneSize(s)]] + Fragments(s[RuneSize(s)..])
  }

  function Join(fs: seq<Fragment>): (s: seq<Byte>) {
    if fs == [] then [] else fs[0] + Join(fs[1..])
  }

  predicate WellFormed(f: Fragment) { |f| > 0 && RuneLen(f) > 0 }

  /** `string([]rune(...))` on one fragment: an ill-formed byte becomes U+FFFD. */
  function CleanOne(f: Fragment): Fragment { if WellFormed(f) then f else Replacement() }

  function Clean(fs: seq<Fragment>): (c: seq<Fragment>)
    ensures |c| == |fs|
    ensures forall i :: 0 <= i < |fs| ==> c[i] == CleanOne(fs[i])
  {
    seq(|fs|, i requires 0 <= i < |fs| => CleanOne(fs[i]))
  }

  // ---------------------------------------------------------------- the marker

  function MarkerHead(): (b: seq<Byte>)
    ensures |b| == 47 && forall i :: 0 <= i < |b| ==> b[i] < 0x80
  {
    Ascii("[tool result truncated for compaction: omitted ")
  }

  function MarkerTail(): (b: seq<Byte>)
    ensures |b| == 7 && forall i :: 0 <= i < |b| ==> b[i] < 0x80
  {
    Ascii(" runes]")
  }

  function Marker(omitted: nat): (b: seq<Byte>)
    ensures |b| == 54 + Digits(omitted)
    ensures forall i :: 0 <= i < |b| ==> b[i] < 0x80
  {
    MarkerHead() + Numeral(omitted) + MarkerTail()
  }

  /** The marker states its number: equal markers, equal numbers. */
  lemma MarkerInjective(m: nat, n: nat)
    requires Marker(m) == Marker(n)
    ensures m == n
  {
    var b := Marker(m);
    assert b[47..|b| - 7] == Numeral(m);
    assert b[47..|b| - 7] == Numeral(n);
    ValueOfNumeral(m);
    ValueOfNumeral(n);
  }

  // ---------------------------------------------------------------- the cap as a function

  /** Runes of the original text a marker of this number leaves room for. */
  function Available(m: nat): (a: int)
    ensures a == CAP - |Marker(m)|
  {
    CAP - 54 - Digits(m)
  }

  function Shown(fs: seq<Fragment>, m: nat): (s: seq<Byte>)
    requires 0 < Available(m) <= |fs|
  {
    var h := Available(m) / 2;
    Join(fs[..h]) + Marker(m) + Join(fs[|fs| - (Available(m) - h)..])
  }

  /** The guess the marker loop ends with, starting from `m` with `rounds` left: a guess that
      confirms itself, one whose marker leaves no room, or the last one when the rounds run out. */
  function FinalGuess(total: nat, m: nat, rounds: nat): (g: nat)
    requires total > CAP
    decreases rounds
  {
    if rounds == 0 || Available(m) <= 0 then m
    else
      var omitted := total - Available(m);
      if Marker(omitted) == Marker(m) then m else FinalGuess(total, omitted, rounds - 1)
  }

  function ShowGuess(fs: seq<Fragment>, m: nat): (s: seq<Byte>)
    requires |fs| > CAP
  {
    if Available(m) <= 0 then Marker(m)[..CAP] else Shown(fs, m)
  }

  function CapLong(fs: seq<Fragment>): (s: seq<Byte>)
    requires |fs| > CAP
  {
    ShowGuess(fs, FinalGuess(|fs|, |fs|, MARKER_ROUNDS))
  }

  function CapFragments(fs: seq<Fragment>): (s: seq<Byte>) {
    if |fs| <= CAP then Join(fs) else CapLong(fs)
  }

  /** `capCompactionToolResult`: a short value is returned as it is, a long one rebuilt from runes. */
  function CapText(value: seq<Byte>): (s: seq<Byte>) {
    var fs := Fragments(value);
    if |fs| <= CAP then value else CapLong(Clean(fs))
  }

  /** A Go `int` counts the runes. */
  predicate FitsInt(n: nat) { n < 0x8000_0000_0000_0000 }

  /** The number the marker settles on. */
  predicate Settled(total: nat, m: nat) {
    Available(m) > 0 && m == total - Available(m)
  }

  /** The number the iteration stops on, starting from the total itself. */
  function Settle(total: nat): (m: nat)
    requires total > CAP
  {
    var m1 := total - Available(total);
    var m2 := total - Available(m1);
    if m2 == m1 then m1 else total - Available(m2)
  }

  lemma SettleSettled(n: nat)
    requires n > CAP && FitsInt(n)
    ensures Settled(n, Settle(n))
  {
    var m1, m2, m3 := ThreeGuesses(n);
  }

  /** For every over-long result the marker iteration reaches its fixed point in the first four
      of its eight rounds, so the fallback is never taken. */
  lemma GuessSettles(n: nat)
    requires n > CAP && FitsInt(n)
    ensures FinalGuess(n, n, MARKER_ROUNDS) == Settle(n)
  {
    var m1, m2, m3 := ThreeGuesses(n);
    RoundOrStop(n, n, m1, 8);
    RoundOrStop(n, m1, m2, 7);
    RoundOrStop(n, m2, m3, 6);
    RoundOrStop(n, m3, m3, 5);
  }

  /** The guesses of the first three rounds; the third repeats itself. */
  lemma ThreeGuesses(n: nat) returns (m1: nat, m2: nat, m3: nat)
    requires n > CAP && FitsInt(n)
    ensures m1 == n - Available(n) && m2 == n - Available(m1) && m3 == n - Available(m2) == n - Available(m3)
    ensures Available(n) > 0 && Available(m1) > 0 && Available(m2) > 0 && Available(m3) > 0
    ensures m1 < n && Settle(n) == if m2 == m1 then m1 else m3
  {
    DigitsOfInt64(n);
    m1 := n - Available(n);
    DigitsMonotone(m1, n);
    m2 := n - Available(m1);
    DigitsMonotone(m2, m1);
    m3 := n - Available(m2);
    DigitsMonotone(m3, m2);
    MarkerSettles(n, m1, m2, m3, n - Available(m3));
  }

  lemma CapSettles(fs: seq<Fragment>)
    requires |fs| > CAP && FitsInt(|fs|)
    ensures Settled(|fs|, Settle(|fs|))
    ensures CapFragments(fs) == Shown(fs, Settle(|fs|))
  {
    GuessSettles(|fs|);
    SettleSettled(|fs|);
  }

  /** One round either stops on the guess it confirms or goes on with the corrected one. */
  lemma RoundOrStop(total: nat, m: nat, omitted: nat, rounds: nat)
    requires total > CAP && rounds > 0 && Available(m) > 0 && omitted == total - Available(m)
    ensures FinalGuess(total, m, rounds) == if omitted == m then m else FinalGuess(total, omitted, rounds - 1)
  {
    if Marker(omitted) == Marker(m) { MarkerInjective(omitted, m); }
  }

  // ---------------------------------------------------------------- fragments and concatenation

  lemma CutConcat(a: seq<Byte>, b: seq<Byte>, n: nat)
    requires n <= |a|
    ensures (a + b)[n..] == a[n..] + b && (a + b)[..n] == a[..n]
  {
  }

  lemma Assoc<T>(a: seq<T>, b: seq<T>, c: seq<T>)
    ensures a + (b + c) == (a + b) + c
  {
  }

  lemma {:induction false} JoinFragments(s: seq<Byte>)
    ensures Join(Fragments(s)) == s
  {
    if s != [] {
      var n := RuneSize(s);
      JoinFragments(s[n..]);
      FragmentAndRest(s, n);
      JoinCons(s[..n], Fragments(s[n..]));
    }
  }

  lemma FragmentAndRest(s: seq<Byte>, n: nat)
    requires s != [] && n == RuneSize(s)
    ensures Fragments(s) == [s[..n]] + Fragments(s[n..]) && s == s[..n] + s[n..]
  {
  }

  lemma JoinCons(f: Fragment, rest: seq<Fragment>)
    ensures Join([f] + rest) == f + Join(rest)
  {
    assert ([f] + rest)[1..] == rest;
  }

  lemma {:induction false} JoinConcat(a: seq<Fragment>, b: seq<Fragment>)
    ensures Join(a + b) == Join(a) + Join(b)
  {
    if a == [] {
      assert a + b == b;
    } else {
      JoinConcat(a[1..], b);
      assert (a + b)[1..] == a[1..] + b;
      Assoc(a[0], Join(a[1..]), Join(b));
    }
  }

  /** A character found in `a + b` but not in `a` reaches into `b`, at a continuation byte. */
  lemma RuneLenAcross(a: seq<Byte>, b: seq<Byte>)
    requires |a| > 0
    requires RuneLen(a) > 0 || b == [] || RuneStart(b[0])
    ensures RuneLen(a + b) == RuneLen(a)
  {
    if RuneLen(a) > 0 {
      RuneLenLocal(a, b);
    } else if b == [] {
      assert a + b == a;
    } else {
      CharacterInside(a + b, |a|);
      assert (a + b)[|a|] == b[0];
    }
  }

  /** Text that does not start inside a character never changes how earlier text decodes. */
  lemma {:induction false} FragmentsConcat(a: seq<Byte>, b: seq<Byte>)
    requires Valid(a) || b == [] || RuneStart(b[0])
    ensures Fragments(a + b) == Fragments(a) + Fragments(b)
    decreases |a|
  {
    if a == [] {
      assert a + b == b;
    } else {
      var n := RuneSize(a);
      RuneLenAcross(a, b);
      FragmentsConcat(a[n..], b);
      CutConcat(a, b, n);
    }
  }

  /** A prefix that reaches past the first fragment starts with that fragment. */
  lemma RuneLenOfPrefix(s: seq<Byte>, k: nat)
    requires 0 < k <= |s| && RuneSize(s) <= k
    ensures RuneLen(s[..k]) == RuneLen(s)
  {
    assert s == s[..k] + s[k..];
    if RuneLen(s[..k]) > 0 { RuneLenLocal(s[..k], s[k..]); }
  }

  /** The first fragment of a text comes off any prefix that contains it. */
  lemma FirstFragment(s: seq<Byte>, rest: seq<Byte>)
    requires |s| > 0 && rest <= s[RuneSize(s)..]
    ensures s[..RuneSize(s)] + rest <= s
    ensures Fragments(s[..RuneSize(s)] + rest) == [s[..RuneSize(s)]] + Fragments(rest)
  {
    var n := RuneSize(s);
    var p := s[..n] + rest;
    assert p == s[..n + |rest|];
    RuneLenOfPrefix(s, |p|);
    CutConcat(s[..n], rest, n);
    assert s[..n][n..] + rest == rest && s[..n][..n] == s[..n];
  }

  /** Cutting the fragments of a text and walking the pieces again finds the same fragments. */
  lemma {:induction false} FragmentsOfPrefix(s: seq<Byte>, k: nat)
    requires k <= |Fragments(s)|
    ensures Fragments(Join(Fragments(s)[..k])) == Fragments(s)[..k]
    ensures Join(Fragments(s)[..k]) <= s
    decreases k
  {
    var fs := Fragments(s);
    if k > 0 {
      var n := RuneSize(s);
      FragmentsOfPrefix(s[n..], k - 1);
      assert fs[..k] == [s[..n]] + Fragments(s[n..])[..k - 1];
      FirstFragment(s, Join(Fragments(s[n..])[..k - 1]));
    }
  }

  lemma {:induction false} FragmentsOfSuffix(s: seq<Byte>, k: nat)
    requires k <= |Fragments(s)|
    ensures Fragments(Join(Fragments(s)[k..])) == Fragments(s)[k..]
    decreases k
  {
    if k == 0 {
      JoinFragments(s);
      assert Fragments(s)[0..] == Fragments(s);
    } else {
      var n := RuneSize(s);
      FragmentsOfSuffix(s[n..], k - 1);
      assert Fragments(s)[k..] == Fragments(s[n..])[k - 1..];
    }
  }

  /** In valid text every fragment is a character, so rebuilding from runes changes nothing. */
  lemma {:induction false} ValidFragments(s: seq<Byte>)
    requires Valid(s)
    ensures forall i :: 0 <= i < |Fragments(s)| ==> WellFormed(Fragments(s)[i])
  {
    if s != [] {
      RuneLenLocal(s, []);
      ValidFragments(s[RuneSize(s)..]);
    }
  }

  lemma {:induction false} AsciiFragments(s: seq<Byte>)
    requires forall i :: 0 <= i < |s| ==> s[i] < 0x80
    ensures |Fragments(s)| == |s| && Valid(s)
  {
    if s != [] { AsciiFragments(s[1..]); }
  }

  // ---------------------------------------------------------------- what the cap shows

  /** What a capped text is: the settled marker between a prefix and a suffix of the original
      runes, 2000 runes in all, and the printed number is exactly the number of runes left out. */
  ghost predicate IsCapOf(out: seq<Byte>, text: seq<Byte>, m: nat, h: nat, t: nat) {
    var fs := Fragments(text);
    && h + t <= |fs| && m == |fs| - h - t
    && (t == h || t == h + 1)
    && out == Join(fs[..h]) + Marker(m) + Join(fs[|fs| - t..])
    && Fragments(out) == fs[..h] + Fragments(Marker(m)) + fs[|fs| - t..]
    && |Fragments(out)| == CAP
  }

  /** ASCII between two texts keeps their fragments apart. */
  lemma FragmentsAround(left: seq<Byte>, mark: seq<Byte>, right: seq<Byte>)
    requires |mark| > 0 && forall i :: 0 <= i < |mark| ==> mark[i] < 0x80
    ensures Fragments(left + mark + right) == Fragments(left) + Fragments(mark) + Fragments(right)
    ensures |Fragments(mark)| == |mark|
  {
    AsciiFragments(mark);
    assert left + mark + right == left + (mark + right);
    FragmentsConcat(mark, right);
    FragmentsConcat(left, mark + right);
  }

  lemma ShownFragments(text: seq<Byte>, mark: seq<Byte>, h: nat, k: nat)
    requires h <= k <= |Fragments(text)|
    requires |mark| > 0 && forall i :: 0 <= i < |mark| ==> mark[i] < 0x80
    ensures
      var fs := Fragments(text);
      && Fragments(Join(fs[..h]) + mark + Join(fs[k..])) == fs[..h] + Fragments(mark) + fs[k..]
      && |Fragments(mark)| == |mark|
  {
    var fs := Fragments(text);
    FragmentsOfPrefix(text, h);
    FragmentsOfSuffix(text, k);
    FragmentsAround(Join(fs[..h]), mark, Join(fs[k..]));
  }

  lemma ShownIsCap(text: seq<Byte>, m: nat)
    requires |Fragments(text)| > CAP && Settled(|Fragments(text)|, m)
    ensures
      var h := Available(m) / 2;
      IsCapOf(Shown(Fragments(text), m), text, m, h, Available(m) - h)
  {
    hide Fragments, Join;
    var fs := Fragments(text);
    var h := Available(m) / 2;
    var k := |fs| - (Available(m) - h);
    ShownFragments(text, Marker(m), h, k);
  }

  /** Every over-long text, valid or not: the streaming cap is exactly 2000 runes, states exactly
      what it omits, and capping its output again changes nothing. */
  lemma CapIsExact(text: seq<Byte>) returns (m: nat, h: nat, t: nat)
    requires |Fragments(text)| > CAP && FitsInt(|Fragments(text)|)
    ensures IsCapOf(CapFragments(Fragments(text)), text, m, h, t)
    ensures CapText(CapFragments(Fragments(text))) == CapFragments(Fragments(text))
  {
    hide Fragments, Join;
    var total, out := |Fragments(text)|, CapFragments(Fragments(text));
    CapSettles(Fragments(text));
    m := Settle(total);
    h := Available(m) / 2;
    t := Available(m) - h;
    ShownIsCap(text, m);
    CapStays(out, text, m, h, t);
  }

  lemma CapStays(out: seq<Byte>, text: seq<Byte>, m: nat, h: nat, t: nat)
    requires IsCapOf(out, text, m, h, t)
    ensures CapText(out) == out
  {
  }

  /** Whole-string cap and fragment cap agree on every text that is short or whose shown runes
      are well-formed, and on no other: an ill-formed byte that is shown comes out of the
      whole-string cap as U+FFFD. */
  lemma CapsAgreeIff(text: seq<Byte>)
    requires FitsInt(|Fragments(text)|)
    ensures CapText(text) == CapFragments(Fragments(text)) <==>
      |Fragments(text)| <= CAP || ShownWellFormed(Fragments(text), Settle(|Fragments(text)|))
  {
    var fs := Fragments(text);
    if |fs| <= CAP {
      JoinFragments(text);
    } else {
      CapSettles(fs);
      CapSettles(Clean(fs));
      ShownCleanIff(text, Settle(|fs|));
    }
  }

  /** So they differ on every over-long text that begins with an ill-formed byte. */
  lemma CapsDifferAtFront(text: seq<Byte>)
    requires CAP < |Fragments(text)| && FitsInt(|Fragments(text)|) && RuneLen(text) == 0
    ensures CapText(text) != CapFragments(Fragments(text))
  {
    var fs := Fragments(text);
    CapsAgreeIff(text);
    CapSettles(fs);
    RoomOnBothSides(|fs|);
    assert fs[0] == text[..1];
    OneBadByte(text);
  }

  /** The settled marker leaves room for a rune before it and one after it. */
  lemma RoomOnBothSides(n: nat)
    requires n > CAP && FitsInt(n)
    ensures Available(Settle(n)) >= 2
  {
    SettleSettled(n);
    DigitsMonotone(Settle(n), n);
    DigitsOfInt64(n);
  }

  lemma OneBadByte(text: seq<Byte>)
    requires text != [] && RuneLen(text) == 0
    ensures !WellFormed(text[..1])
  {
  }

  function Letters(n: nat): seq<Byte> { seq(n, i => 0x61) }

  lemma BadThenLetters(n: nat)
    ensures |Fragments([0xFF] + Letters(n))| == n + 1 && RuneLen([0xFF] + Letters(n)) == 0
  {
    var text := [0xFF] + Letters(n);
    assert text[1..] == Letters(n);
    AsciiFragments(Letters(n));
  }

  /** Texts that show it: one ill-formed byte before 2000 letters or more. */
  lemma CapsCanDiffer(n: nat)
    requires CAP <= n && FitsInt(n + 1)
    ensures CapText([0xFF] + Letters(n)) != CapFragments(Fragments([0xFF] + Letters(n)))
  {
    BadThenLetters(n);
    CapsDifferAtFront([0xFF] + Letters(n));
  }

  /** Two shown texts around the same marker, one at least as long on each side, are equal exactly when
      both sides are. */
  lemma SameIff(a: seq<Byte>, a': seq<Byte>, mark: seq<Byte>, b: seq<Byte>, b': seq<Byte>, wellA: bool, wellB: bool)
    requires |a'| >= |a| && |b'| >= |b| && (|a'| == |a| ==> wellA) && (|b'| == |b| ==> wellB)
    requires (wellA ==> a' == a) && (wellB ==> b' == b)
    ensures a' + mark + b' == a + mark + b <==> wellA && wellB
  {
    SameParts(a, a', mark, b, b');
  }

  predicate EndsWellFormed(fs: seq<Fragment>, h: nat, k: nat) {
    (forall i :: 0 <= i < h && i < |fs| ==> WellFormed(fs[i])) && (forall i :: k <= i < |fs| ==> WellFormed(fs[i]))
  }

  lemma EndsCleanIff(text: seq<Byte>, h: nat, k: nat, mark: seq<Byte>)
    requires h <= |Fragments(text)| && k <= |Fragments(text)|
    ensures
      var fs := Fragments(text);
      var c := Clean(fs);
      Join(c[..h]) + mark + Join(c[k..]) == Join(fs[..h]) + mark + Join(fs[k..]) <==> EndsWellFormed(fs, h, k)
  {
    var fs := Fragments(text);
    CleanEnds(text, h, k);
    SameIff(Join(fs[..h]), Join(Clean(fs)[..h]), mark, Join(fs[k..]), Join(Clean(fs)[k..]),
            forall i :: 0 <= i < h && i < |fs| ==> WellFormed(fs[i]), forall i :: k <= i < |fs| ==> WellFormed(fs[i]));
  }

  lemma ShownCleanIff(text: seq<Byte>, m: nat)
    requires 0 < Available(m) <= |Fragments(text)|
    ensures
      var fs := Fragments(text);
      Shown(Clean(fs), m) == Shown(fs, m) <==> ShownWellFormed(fs, m)
  {
    var fs := Fragments(text);
    var h := Available(m) / 2;
    EndsCleanIff(text, h, |fs| - (Available(m) - h), Marker(m));
  }

  lemma CleanEnds(text: seq<Byte>, h: nat, k: nat)
    requires h <= |Fragments(text)| && k <= |Fragments(text)|
    ensures
      var fs := Fragments(text);
      var c := Clean(fs);
      && |Join(c[..h])| >= |Join(fs[..h])| && |Join(c[k..])| >= |Join(fs[k..])|
      && (|Join(c[..h])| == |Join(fs[..h])| ==> forall i :: 0 <= i < h ==> WellFormed(fs[i]))
      && (|Join(c[k..])| == |Join(fs[k..])| ==> forall i :: k <= i < |fs| ==> WellFormed(fs[i]))
      && ((forall i :: 0 <= i < h ==> WellFormed(fs[i])) ==> Join(c[..h]) == Join(fs[..h]))
      && ((forall i :: k <= i < |fs| ==> WellFormed(fs[i])) ==> Join(c[k..]) == Join(fs[k..]))
  {
    var fs := Fragments(text);
    CleanPart(text, 0, h);
    CleanPart(text, k, |fs|);
    assert fs[0..h] == fs[..h] && Clean(fs)[0..h] == Clean(fs)[..h];
    assert fs[k..|fs|] == fs[k..] && Clean(fs)[k..|fs|] == Clean(fs)[k..];
  }

  lemma SameParts(a: seq<Byte>, a': seq<Byte>, mark: seq<Byte>, b: seq<Byte>, b': seq<Byte>)
    requires |a'| >= |a| && |b'| >= |b|
    ensures a' + mark + b' == a + mark + b ==> |a'| == |a| && |b'| == |b|
  {
    assert |a' + mark + b'| == |a'| + |mark| + |b'|;
    assert |a + mark + b| == |a| + |mark| + |b|;
  }

  /** Rebuilding a stretch of fragments from runes keeps it exactly when all are well-formed, and
      otherwise makes it longer. */
  lemma CleanPart(text: seq<Byte>, lo: nat, hi: nat)
    requires lo <= hi <= |Fragments(text)|
    ensures
      var fs := Fragments(text);
      var before, after := Join(fs[lo..hi]), Join(Clean(fs)[lo..hi]);
      && |after| >= |before|
      && (|after| == |before| ==> forall i :: lo <= i < hi ==> WellFormed(fs[i]))
      && ((forall i :: lo <= i < hi ==> WellFormed(fs[i])) ==> after == before)
  {
    var fs := Fragments(text);
    assert Clean(fs)[lo..hi] == Clean(fs[lo..hi]);
    OneByteOrCharacter(text);
    CleanGrows(fs[lo..hi]);
    if forall i :: lo <= i < hi ==> WellFormed(fs[i]) { assert Clean(fs[lo..hi]) == fs[lo..hi]; }
    if |Join(Clean(fs[lo..hi]))| == |Join(fs[lo..hi])| {
      forall i | lo <= i < hi ensures WellFormed(fs[i]) { assert fs[lo..hi][i - lo] == fs[i]; }
    }
  }

  lemma {:induction false} OneByteOrCharacter(s: seq<Byte>)
    ensures forall i :: 0 <= i < |Fragments(s)| ==> |Fragments(s)[i]| == 1 || WellFormed(Fragments(s)[i])
  {
    if s != [] {
      if RuneLen(s) > 0 { RuneLenLocal(s, []); }
      OneByteOrCharacter(s[RuneSize(s)..]);
    }
  }

  /** The runes shown on both sides of the marker `m` are characters, not stray bytes. */
  predicate ShownWellFormed(fs: seq<Fragment>, m: nat) {
    var h := Available(m) / 2;
    && (forall i :: 0 <= i < h && i < |fs| ==> WellFormed(fs[i]))
    && (forall i :: 0 <= i < |fs| && |fs| - (Available(m) - h) <= i ==> WellFormed(fs[i]))
  }

  /** Cleaning never shortens, and lengthens exactly when something was ill-formed. */
  lemma {:induction false} CleanGrows(fs: seq<Fragment>)
    requires forall i :: 0 <= i < |fs| ==> |fs[i]| == 1 || WellFormed(fs[i])
    ensures |Join(Clean(fs))| >= |Join(fs)|
    ensures |Join(Clean(fs))| == |Join(fs)| <==> forall i :: 0 <= i < |fs| ==> WellFormed(fs[i])
  {
    if fs != [] {
      CleanGrows(fs[1..]);
      assert Clean(fs)[1..] == Clean(fs[1..]);
      assert forall i :: 0 < i < |fs| ==> fs[i] == fs[1..][i - 1];
    }
  }

  // ---------------------------------------------------------------- the cap as code

  lemma JoinSnoc(fs: seq<Fragment>, lo: nat, i: nat)
    requires lo <= i < |fs|
    ensures Join(fs[lo..i + 1]) == Join(fs[lo..i]) + fs[i]
  {
    var one: seq<Fragment> := [fs[i]];
    assert fs[lo..i + 1] == fs[lo..i] + one;
    JoinConcat(fs[lo..i], one);
    assert Join(one) == fs[i] + Join(one[1..]) == fs[i];
  }

  method WriteFragments(fragments: seq<Fragment>, start: nat, count: nat) returns (out: seq<Byte>)
    requires start + count <= |fragments|
    ensures out == Join(fragments[start..start + count])
  {
    out := [];
    for index := start to start + count
      invariant out == Join(fragments[start..index])
    {
      JoinSnoc(fragments, start, index);
      out := out + fragments[index];
    }
  }

  /** One turn of the marker loop. */
  lemma OneRound(total: nat, m: nat, omitted: nat, rounds: nat)
    requires total > CAP && rounds > 0
    ensures Available(m) <= 0 ==> FinalGuess(total, m, rounds) == m
    ensures Available(m) > 0 && omitted == total - Available(m) ==>
      FinalGuess(total, m, rounds) == if Marker(omitted) == Marker(m) then m else FinalGuess(total, omitted, rounds - 1)
  {
  }

  /** The marker loop that `string` and `capCompactionToolResult` both contain. */
  method SettleMarker(total: nat) returns (marker: seq<Byte>)
    requires total > CAP
    ensures marker == Marker(FinalGuess(total, total, MARKER_ROUNDS))
  {
    ghost var m: nat := total;
    marker := Marker(total);
    for iteration := 0 to MARKER_ROUNDS
      invariant marker == Marker(m)
      invariant FinalGuess(total, total, MARKER_ROUNDS) == FinalGuess(total, m, MARKER_ROUNDS - iteration)
    {
      var available := CAP - |marker|;
      OneRound(total, m, if available > 0 then total - available else 0, MARKER_ROUNDS - iteration);
      if available <= 0 { return; }
      var headCount := available / 2;
      var tailCount := available - headCount;
      var omitted := total - headCount - tailCount;
      var updated := Marker(omitted);
      if updated == marker { return; }
      marker := updated;
      m := omitted;
    }
  }

  /** What remains to be written once the marker is known. */
  lemma ShowGuessIs(fs: seq<Fragment>, m: nat, h: int, t: int)
    requires |fs| > CAP && h == Available(m) / 2 && t == Available(m) - h
    ensures Available(m) <= 0 ==> ShowGuess(fs, m) == Marker(m)[..CAP]
    ensures Available(m) > 0 ==> ShowGuess(fs, m) == Join(fs[..h]) + Marker(m) + Join(fs[|fs| - t..])
  {
  }

  /** `capCompactionToolResult`. */
  method CapToolResult(value: seq<Byte>) returns (out: seq<Byte>)
    ensures out == CapText(value)
  {
    var runes := Clean(Fragments(value));
    if |runes| <= CAP { return value; }
    var marker := SettleMarker(|runes|);
    var available := CAP - |marker|;
    var headCount := available / 2;
    var tailCount := available - headCount;
    ShowGuessIs(runes, FinalGuess(|runes|, |runes|, MARKER_ROUNDS), headCount, tailCount);
    if available <= 0 { return marker[..CAP]; }
    out := Join(runes[..headCount]) + marker + Join(runes[|runes| - tailCount..]);
  }

  function Min(a: nat, b: nat): nat { if a < b then a else b }

  /** The ring after `fs`: slot `j mod 2000` holds fragment `j`, for the last 2000. */
  ghost predicate Ring(tail: seq<Fragment>, fs: seq<Fragment>) {
    |tail| == Min(CAP, |fs|) && forall j :: |fs| - |tail| <= j < |fs| ==> tail[j % CAP] == fs[j]
  }

  lemma RingFills(tail: seq<Fragment>, fs: seq<Fragment>, fragment: Fragment)
    requires Ring(tail, fs) && |fs| < CAP
    ensures Ring(tail + [fragment], fs + [fragment])
  {
    forall j | 0 <= j < |fs| ensures tail[j] == fs[j] {
      assert j % CAP == j;
    }
  }

  lemma RingTurns(tail: seq<Fragment>, fs: seq<Fragment>, fragment: Fragment)
    requires Ring(tail, fs) && |fs| >= CAP
    ensures Ring(tail[|fs| % CAP := fragment], fs + [fragment])
  {
    var all := fs + [fragment];
    forall j | |all| - CAP <= j < |all| ensures tail[|fs| % CAP := fragment][j % CAP] == all[j] {
      if j < |fs| { SlotsDiffer(j, |fs|); }
    }
  }

  /** `compactionRuneAccumulator`: the first 2000 fragments and a ring of the last 2000. */
  class RuneAccumulator {
    var head: seq<Fragment>
    var tail: seq<Fragment>
    var tailStart: nat
    var tailCount: nat
    var total: nat

    /** The accumulator has been fed `fs`. */
    ghost predicate Holds(fs: seq<Fragment>)
      reads this
    {
      && total == |fs|
      && head == fs[..Min(CAP, |fs|)]
      && Ring(tail, fs) && tailCount == |tail|
      && tailStart == if |fs| < CAP then 0 else |fs| % CAP
    }

    constructor ()
      ensures Holds([])
    {
      head, tail, tailStart, tailCount, total := [], [], 0, 0, 0;
    }

    method Append(fragment: Fragment, ghost fs: seq<Fragment>)
      requires Holds(fs)
      modifies this
      ensures Holds(fs + [fragment])
    {
      ghost var all := fs + [fragment];
      total := total + 1;
      if |head| < CAP {
        head := head + [fragment];
      }
      assert head == all[..Min(CAP, |all|)];
      if |tail| < CAP {
        RingFills(tail, fs, fragment);
        tail := tail + [fragment];
        tailCount := tailCount + 1;
        return;
      }
      RingTurns(tail, fs, fragment);
      tail := tail[tailStart := fragment];
      tailStart := (tailStart + 1) % CAP;
    }

    method AppendString(value: seq<Byte>, ghost fs: seq<Fragment>)
      requires Holds(fs)
      modifies this
      ensures Holds(fs + Fragments(value))
    {
      var offset := 0;
      ghost var fed := fs;
      while offset < |value|
        invariant offset <= |value|
        invariant Holds(fed)
        invariant fs + Fragments(value) == fed + Fragments(value[offset..])
        decreases |value| - offset
      {
        var rest := value[offset..];
        var size := RuneSize(rest);
        var fragment := rest[..size];
        Append(fragment, fed);
        Assoc(fed, [fragment], Fragments(rest[size..]));
        fed := fed + [fragment];
        assert value[offset + size..] == rest[size..];
        offset := offset + size;
      }
      assert fed + Fragments(value[offset..]) == fed;
    }

    /** The fragment a number of slots after `start`, around the ring. */
    method RingAt(start: nat, count: nat, index: nat, ghost fs: seq<Fragment>) returns (fragment: Fragment)
      requires Holds(fs) && |fs| > CAP && index < count <= CAP
      requires start == (tailStart + tailCount - count) % CAP
      ensures fragment == fs[|fs| - count + index]
    {
      SlotOf(|fs|, count, index);
      fragment := tail[(start + index) % CAP];
    }

    method WriteFragmentsRing(start: nat, count: nat, ghost fs: seq<Fragment>) returns (out: seq<Byte>)
      requires Holds(fs) && |fs| > CAP && count <= CAP
      requires start == (tailStart + tailCount - count) % CAP
      ensures out == Join(fs[|fs| - count..])
    {
      out := [];
      ghost var from := |fs| - count;
      for index := 0 to count
        invariant out == Join(fs[from..from + index])
      {
        var fragment := RingAt(start, count, index, fs);
        JoinSnoc(fs, from, from + index);
        out := out + fragment;
      }
      assert fs[from..] == fs[from..from + count];
    }

    method FragmentsStringWithMarker(headCount: nat, marker: seq<Byte>, wanted: nat, ghost fs: seq<Fragment>)
      returns (out: seq<Byte>)
      requires Holds(fs) && |fs| > CAP && headCount <= CAP && wanted <= CAP
      ensures out == Join(fs[..headCount]) + marker + Join(fs[|fs| - wanted..])
    {
      var left := WriteFragments(head, 0, headCount);
      assert head[0..headCount] == fs[..headCount];
      var right := WriteFragmentsRing((tailStart + tailCount - wanted) % CAP, wanted, fs);
      out := left + marker + right;
    }

    /** `string`: the accumulated text, capped. */
    method Text(ghost fs: seq<Fragment>) returns (out: seq<Byte>)
      requires Holds(fs)
      ensures out == CapFragments(fs)
    {
      if total <= CAP {
        out := WriteFragments(head, 0, |head|);
        assert head[0..|head|] == fs;
        return;
      }
      var marker := SettleMarker(total);
      var available := CAP - |marker|;
      var headCount := available / 2;
      ShowGuessIs(fs, FinalGuess(total, total, MARKER_ROUNDS), headCount, available - headCount);
      if available <= 0 { return marker[..CAP]; }
      out := FragmentsStringWithMarker(headCount, marker, available - headCount, fs);
    }
  }

  /** The last 2000 positions before `n` use slots other than that of `n`. */
  lemma SlotsDiffer(j: nat, n: nat)
    requires n - CAP < j < n
    ensures j % CAP != n % CAP
  {
  }

  lemma SlotOf(n: nat, count: nat, index: nat)
    requires n > CAP && index < count <= CAP
    ensures ((n % CAP + CAP - count) % CAP + index) % CAP == (n - count + index) % CAP
  {
  }

  // ---------------------------------------------------------------- block trees

  /** A content block. `Bad` stands for a nil pointer or a foreign implementation. */
  datatype Block =
    | Text(text: seq<Byte>)
    | ToolUse(id: seq<Byte>, name: seq<Byte>)
    | Refusal(text: seq<Byte>)
    | Thinking
    | Image
    | Audio
    | Document
    | ToolResult(content: seq<Block>)
    | Bad

  /** The text `appendBlock` feeds into the accumulator. */
  function BlockText(b: Block, depth: nat): (r: Option<seq<Byte>>)
    decreases b, 2
  {
    if depth > MAX_DEPTH then None
    else match b
      case Text(text) => Some(text)
      case ToolUse(_, name) => Some(Ascii("[called tool: ") + name + Ascii("]"))
      case Refusal(text) => Some(Ascii("[model refused: ") + text + Ascii("]"))
      case Thinking => Some(Ascii("[thinking omitted for compaction]"))
      case Image => Some(Ascii("[image omitted for compaction]"))
      case Audio => Some(Ascii("[audio omitted for compaction]"))
      case Document => Some(Ascii("[document omitted for compaction]"))
      case ToolResult(content) => Body(content, depth + 1)
      case Bad => None
  }

  function BodyFragments(blocks: seq<Block>, depth: nat): (r: Option<seq<Fragment>>)
    decreases blocks, 0
  {
    if blocks == [] then Some([])
    else match (BlockText(blocks[0], depth), BodyFragments(blocks[1..], depth))
      case (Some(text), Some(rest)) => Some(Fragments(text) + rest)
      case _ => None
  }

  /** `projectCompactionToolResultBody`. */
  function Body(blocks: seq<Block>, depth: nat): (r: Option<seq<Byte>>)
    decreases blocks, 1
  {
    if depth > MAX_DEPTH then None
    else match BodyFragments(blocks, depth)
      case Some(fs) => Some(CapFragments(fs))
      case None => None
  }

  /** `projectCompactionBlock`: the same text, except that a tool result is capped once more. */
  function ProjectBlock(b: Block, depth: nat): (r: Option<seq<Byte>>) {
    if depth <= MAX_DEPTH && b.ToolResult? then
      match Body(b.content, depth + 1)
      case Some(body) => Some(CapText(body))
      case None => None
    else BlockText(b, depth)
  }

  predicate Good(b: Block)
  {
    match b
    case ToolResult(content) => forall c :: c in content ==> Good(c)
    case Bad => false
    case _ => true
  }

  function Max(a: nat, b: nat): nat { if a < b then b else a }

  /** How many tool results are nested inside each other. */
  function Height(b: Block): nat
    decreases b, 1
  {
    if b.ToolResult? then 1 + HeightOf(b.content) else 0
  }

  function HeightOf(blocks: seq<Block>): nat
    decreases blocks, 0
  {
    if blocks == [] then 0 else Max(Height(blocks[0]), HeightOf(blocks[1..]))
  }

  /** A block projects exactly when nothing in it is nil or foreign and it is nested no deeper than
      128 tool results. */
  lemma {:induction false} ProjectsIff(b: Block, depth: nat)
    ensures BlockText(b, depth).Some? <==> Good(b) && depth + Height(b) <= MAX_DEPTH
    decreases b, 1
  {
    if b.ToolResult? && depth <= MAX_DEPTH { BodyIff(b.content, depth + 1); }
  }

  lemma {:induction false} BodyIff(blocks: seq<Block>, depth: nat)
    ensures BodyFragments(blocks, depth).Some? && depth <= MAX_DEPTH <==>
      (forall b :: b in blocks ==> Good(b)) && depth + HeightOf(blocks) <= MAX_DEPTH
    decreases blocks, 0
  {
    if blocks != [] {
      ProjectsIff(blocks[0], depth);
      BodyIff(blocks[1..], depth);
      assert blocks == [blocks[0]] + blocks[1..];
    }
  }

  /** Joining texts never makes more runes: bytes that were ill-formed apart may become one rune. */
  lemma {:induction false} FragmentsSubadditive(a: seq<Byte>, b: seq<Byte>)
    ensures |Fragments(a + b)| <= |Fragments(a)| + |Fragments(b)|
    decreases |a|
  {
    if a == [] {
      assert a + b == b;
    } else if RuneLen(a + b) <= |a| {
      var n := RuneSize(a);
      assert RuneLen(a + b) == RuneLen(a) by { RuneLenInside(a, b); }
      FragmentsSubadditive(a[n..], b);
      CutConcat(a, b, n);
    } else {
      var j := RuneLen(a + b) - |a|;
      forall i | 0 <= i < j ensures IsCont(b[i]) {
        CharacterInside(a + b, |a| + i);
        assert (a + b)[|a| + i] == b[i];
      }
      ContinuationsAreApart(b, j);
      assert (a + b)[|a| + j..] == b[j..];
    }
  }

  lemma RuneLenInside(a: seq<Byte>, b: seq<Byte>)
    requires |a| > 0 && RuneLen(a + b) <= |a|
    ensures RuneLen(a + b) == RuneLen(a)
  {
    if RuneLen(a) > 0 { RuneLenLocal(a, b); }
  }

  /** Continuation bytes at the front of a text are one fragment each. */
  lemma {:induction false} ContinuationsAreApart(b: seq<Byte>, j: nat)
    requires j <= |b| && forall i :: 0 <= i < j ==> IsCont(b[i])
    ensures |Fragments(b)| == j + |Fragments(b[j..])|
    decreases j
  {
    if j == 0 {
      assert b[0..] == b;
    } else {
      ContinuationsAreApart(b[1..], j - 1);
      assert b[1..][j - 1..] == b[j..];
    }
  }

  lemma {:induction false} JoinedCount(fs: seq<Fragment>)
    requires forall f :: f in fs ==> |Fragments(f)| == 1
    ensures |Fragments(Join(fs))| <= |fs|
  {
    if fs != [] {
      JoinedCount(fs[1..]);
      FragmentsSubadditive(fs[0], Join(fs[1..]));
    }
  }

  lemma {:induction false} FragmentsAreSingle(s: seq<Byte>)
    ensures forall f :: f in Fragments(s) ==> |Fragments(f)| == 1
  {
    if s != [] {
      var n := RuneSize(s);
      FragmentsAreSingle(s[n..]);
      FirstFragment(s, []);
      assert s[..n] + [] == s[..n];
    }
  }

  lemma {:induction false} BodyFragmentsAreSingle(blocks: seq<Block>, depth: nat)
    requires BodyFragments(blocks, depth).Some?
    ensures forall f :: f in BodyFragments(blocks, depth).value ==> |Fragments(f)| == 1
  {
    if blocks != [] {
      FragmentsAreSingle(BlockText(blocks[0], depth).value);
      BodyFragmentsAreSingle(blocks[1..], depth);
    }
  }

  /** A capped body never exceeds 2000 runes, however its pieces were cut. */
  lemma CappedCount(fs: seq<Fragment>)
    requires FitsInt(|fs|) && forall f :: f in fs ==> |Fragments(f)| == 1
    ensures |Fragments(CapFragments(fs))| <= CAP
  {
    if |fs| <= CAP {
      JoinedCount(fs);
    } else {
      CapSettles(fs);
      var m := Settle(|fs|);
      var h := Available(m) / 2;
      var k := |fs| - (Available(m) - h);
      CountAround(fs[..h], Marker(m), fs[k..]);
    }
  }

  lemma CountAround(a: seq<Fragment>, mark: seq<Byte>, b: seq<Fragment>)
    requires forall f :: f in a || f in b ==> |Fragments(f)| == 1
    requires |mark| > 0 && forall i :: 0 <= i < |mark| ==> mark[i] < 0x80
    ensures |Fragments(Join(a) + mark + Join(b))| <= |a| + |mark| + |b|
  {
    JoinedCount(a);
    JoinedCount(b);
    FragmentsAround(Join(a), mark, Join(b));
  }

  /** The second cap on a nested tool result is never felt: for every block tree, projecting a block
      gives what the accumulator would be fed for it. */
  lemma ProjectIsBlockText(b: Block, depth: nat)
    requires b.ToolResult? && BodyFragments(b.content, depth + 1).Some? ==>
      FitsInt(|BodyFragments(b.content, depth + 1).value|)
    ensures ProjectBlock(b, depth) == BlockText(b, depth)
  {
    if depth <= MAX_DEPTH && b.ToolResult? && BodyFragments(b.content, depth + 1).Some? {
      BodyFragmentsAreSingle(b.content, depth + 1);
      CappedCount(BodyFragments(b.content, depth + 1).value);
    }
  }

  function TextsOf(blocks: seq<Block>, depth: nat): (r: Option<seq<Byte>>) {
    if blocks == [] then Some([])
    else match (BlockText(blocks[0], depth), TextsOf(blocks[1..], depth))
      case (Some(text), Some(rest)) => Some(text + rest)
      case _ => None
  }

  /** Every text carried in the tree is valid UTF-8. */
  predicate TextsValid(b: Block) {
    match b
    case Text(text) => Valid(text)
    case ToolUse(_, name) => Valid(name)
    case Refusal(text) => Valid(text)
    case ToolResult(content) => forall c :: c in content ==> TextsValid(c)
    case _ => true
  }

  predicate Whole(f: Fragment) { |f| > 0 && RuneLen(f) == |f| }

  lemma {:induction false} JoinWhole(fs: seq<Fragment>)
    requires forall f :: f in fs ==> Whole(f)
    ensures Valid(Join(fs))
  {
    if fs != [] {
      JoinWhole(fs[1..]);
      assert fs[0] in fs;
      ValidCons(fs[0], Join(fs[1..]));
    }
  }

  lemma {:induction false} ValidFragmentsWhole(s: seq<Byte>)
    requires Valid(s)
    ensures forall f :: f in Fragments(s) ==> Whole(f)
  {
    if s != [] {
      RuneLenLocal(s, []);
      ValidFragmentsWhole(s[RuneSize(s)..]);
    }
  }

  lemma ValidSandwich(left: seq<Byte>, mark: seq<Byte>, right: seq<Byte>)
    requires Valid(left) && Valid(right) && forall i :: 0 <= i < |mark| ==> mark[i] < 0x80
    ensures Valid(left + mark + right)
  {
    AsciiFragments(mark);
    ValidConcat(left, mark);
    ValidConcat(left + mark, right);
  }

  lemma CapFragmentsValid(fs: seq<Fragment>)
    requires forall f :: f in fs ==> Whole(f)
    ensures Valid(CapFragments(fs))
  {
    if |fs| <= CAP {
      JoinWhole(fs);
    } else {
      ShowGuessValid(fs, FinalGuess(|fs|, |fs|, MARKER_ROUNDS));
    }
  }

  lemma ShowGuessValid(fs: seq<Fragment>, m: nat)
    requires |fs| > CAP && forall f :: f in fs ==> Whole(f)
    ensures Valid(ShowGuess(fs, m))
  {
    if Available(m) <= 0 {
      AsciiFragments(Marker(m)[..CAP]);
    } else {
      var h := Available(m) / 2;
      var k := |fs| - (Available(m) - h);
      JoinWhole(fs[..h]);
      JoinWhole(fs[k..]);
      ValidSandwich(Join(fs[..h]), Marker(m), Join(fs[k..]));
    }
  }

  /** Valid texts project to valid text at every level. */
  lemma {:induction false} ProjectionIsValid(b: Block, depth: nat)
    requires TextsValid(b)
    ensures Valid(BlockText(b, depth).GetOr([]))
    decreases b, 1
  {
    match b
    case ToolUse(_, name) => ValidFramed("[called tool: ", name);
    case Refusal(text) => ValidFramed("[model refused: ", text);
    case ToolResult(content) =>
      BodyIsWhole(content, depth + 1);
      if Body(content, depth + 1).Some? {
        CapFragmentsValid(BodyFragments(content, depth + 1).value);
      }
    case Text(_) =>
    case Bad =>
    case _ => AsciiFragments(BlockText(b, 0).value);
  }

  lemma ValidFramed(prefix: string, text: seq<Byte>)
    requires Valid(text)
    ensures Valid(Ascii(prefix) + text + Ascii("]"))
  {
    AsciiFragments(Ascii(prefix));
    AsciiFragments(Ascii("]"));
    ValidConcat(Ascii(prefix), text);
    ValidConcat(Ascii(prefix) + text, Ascii("]"));
  }

  lemma {:induction false} BodyIsWhole(blocks: seq<Block>, depth: nat)
    requires forall b :: b in blocks ==> TextsValid(b)
    ensures forall f :: f in BodyFragments(blocks, depth).GetOr([]) ==> Whole(f)
    decreases blocks, 0
  {
    if BodyFragments(blocks, depth).Some? && blocks != [] {
      ProjectionIsValid(blocks[0], depth);
      ValidFragmentsWhole(BlockText(blocks[0], depth).value);
      BodyIsWhole(blocks[1..], depth);
    }
  }

  /** Fed piece by piece, split on rune boundaries, the accumulator has seen the fragments of the whole. */
  lemma {:induction false} PiecesAreWhole(blocks: seq<Block>, depth: nat)
    requires TextsOf(blocks, depth).Some?
    requires forall b :: b in blocks ==> TextsValid(b)
    ensures BodyFragments(blocks, depth) == Some(Fragments(TextsOf(blocks, depth).value))
    ensures Valid(TextsOf(blocks, depth).value)
  {
    if blocks != [] {
      PiecesAreWhole(blocks[1..], depth);
      var text, rest := BlockText(blocks[0], depth).value, TextsOf(blocks[1..], depth).value;
      ProjectionIsValid(blocks[0], depth);
      FragmentsConcat(text, rest);
      ValidConcat(text, rest);
    }
  }

  /** For every list of blocks with valid texts, what the accumulator renders is the whole-string cap of
      their concatenation. */
  lemma StreamingEqualsWhole(blocks: seq<Block>, depth: nat)
    requires depth <= MAX_DEPTH && TextsOf(blocks, depth).Some?
    requires forall b :: b in blocks ==> TextsValid(b)
    requires FitsInt(|TextsOf(blocks, depth).value|)
    ensures Body(blocks, depth) == Some(CapText(TextsOf(blocks, depth).value))
  {
    PiecesAreWhole(blocks, depth);
    var text := TextsOf(blocks, depth).value;
    ValidFragments(text);
    CapsAgreeIff(text);
  }
}
