/** Byte strings and the UTF-8 decoding that Go's `unicode/utf8` package performs,
    beside the definition of the encoding in sections 3 and 4 of RFC 3629.

    A Go `string` or `[]byte` is a `seq<Byte>`. Decoding at a position yields either the
    length of one well-formed character (1 to 4) or 0, which stands for Go's
    `(RuneError, 1)`: an ill-formed byte that is consumed on its own. */
module Utf8 {

  type Byte = b: int | 0 <= b < 256

  predicate IsCont(b: Byte) { 0x80 <= b <= 0xBF }

  /** `utf8.RuneStart`: the byte could begin a character. */
  predicate RuneStart(b: Byte) { !IsCont(b) }

  /** Bytes announced by a lead byte; 0 for a byte that can lead no character. */
  function LeadWidth(b: Byte): (n: nat)
    ensures n <= 4
  {
    if b < 0x80 then 1
    else if b < 0xC2 then 0
    else if b < 0xE0 then 2
    else if b < 0xF0 then 3
    else if b < 0xF5 then 4
    else 0
  }

  /** The accept range of the second byte, which excludes overlong forms, surrogates and
      values above 0x10FFFF. */
  predicate SecondOk(lead: Byte, b: Byte) {
    if lead == 0xE0 then 0xA0 <= b <= 0xBF
    else if lead == 0xED then 0x80 <= b <= 0x9F
    else if lead == 0xF0 then 0x90 <= b <= 0xBF
    else if lead == 0xF4 then 0x80 <= b <= 0x8F
    else IsCont(b)
  }

  /** Length of the well-formed character at the front of `s`, or 0 when `utf8.DecodeRune`
      reports an error of width 1. */
  function RuneLen(s: seq<Byte>): (n: nat)
    requires |s| > 0
    ensures n <= 4 && n <= |s|
  {
    var w := LeadWidth(s[0]);
    if w <= 1 then w
    else if |s| < w then 0
    else if !SecondOk(s[0], s[1]) then 0
    else if w >= 3 && !IsCont(s[2]) then 0
    else if w == 4 && !IsCont(s[3]) then 0
    else w
  }

  /** Bytes `utf8.DecodeRune` consumes. */
  function RuneSize(s: seq<Byte>): (n: nat)
    requires |s| > 0
    ensures 1 <= n <= 4 && n <= |s|
  {
    if RuneLen(s) == 0 then 1 else RuneLen(s)
  }

  /** `utf8.FullRune`: what follows `s` cannot change how its first character decodes. */
  predicate FullRune(s: seq<Byte>)
    requires |s| > 0
  {
    var w := LeadWidth(s[0]);
    if |s| >= w then true
    else if |s| > 1 && !SecondOk(s[0], s[1]) then true
    else |s| > 2 && !IsCont(s[2])
  }

  /** `utf8.Valid`. */
  predicate Valid(s: seq<Byte>) {
    |s| == 0 || (RuneLen(s) > 0 && Valid(s[RuneLen(s)..]))
  }

  // ---------------------------------------------------------------- the reference encoding

  /** Unicode scalar values: code points other than the surrogates. */
  predicate IsScalar(c: int) { 0 <= c < 0xD800 || 0xE000 <= c <= 0x10FFFF }

  type Scalar = c: int | 0 <= c < 0xD800 || 0xE000 <= c <= 0x10FFFF

  /** Section 3 of RFC 3629: the octets of one character number, six bits at a time. */
  function Encode(c: Scalar): (s: seq<Byte>)
    ensures 1 <= |s| <= 4
  {
    var q := c / 0x40;
    var p := q / 0x40;
    if c < 0x80 then [c as Byte]
    else if c < 0x800 then [0xC0 + q, Low(c)]
    else if c < 0x10000 then [0xE0 + p, Low(q), Low(c)]
    else [0xF0 + p / 0x40, Low(p), Low(q), Low(c)]
  }

  function Low(n: nat): (b: Byte)
    ensures IsCont(b)
  {
    0x80 + n % 0x40
  }

  function SixBits(high: int, b: Byte): int { high * 0x40 + (b as int - 0x80) }

  lemma SixBitsSplit(high: nat, b: Byte)
    requires IsCont(b)
    ensures SixBits(high, b) / 0x40 == high && Low(SixBits(high, b)) == b
  {
  }

  lemma SplitSixBits(n: nat)
    ensures SixBits(n / 0x40, Low(n)) == n
  {
  }

  function EncodeAll(cs: seq<Scalar>): seq<Byte> {
    if cs == [] then [] else Encode(cs[0]) + EncodeAll(cs[1..])
  }

  /** The character number the well-formed octets at the front of `s` stand for. */
  function DecodeValue(s: seq<Byte>): int
    requires |s| > 0
  {
    var n := RuneLen(s);
    if n == 0 then 0xFFFD
    else if n == 1 then s[0] as int
    else if n == 2 then SixBits(s[0] as int - 0xC0, s[1])
    else if n == 3 then SixBits(SixBits(s[0] as int - 0xE0, s[1]), s[2])
    else SixBits(SixBits(SixBits(s[0] as int - 0xF0, s[1]), s[2]), s[3])
  }

  /** Decoding looks at no byte beyond the character it accepts. */
  lemma RuneLenLocal(s: seq<Byte>, t: seq<Byte>)
    requires |s| > 0 && RuneLen(s) > 0
    ensures RuneLen(s + t) == RuneLen(s)
    ensures RuneLen(s[..RuneLen(s)]) == RuneLen(s)
  {
  }

  /** Decoding inverts encoding, whatever follows. */
  lemma DecodeEncoded(c: Scalar, t: seq<Byte>)
    ensures RuneLen(Encode(c) + t) == |Encode(c)|
    ensures DecodeValue(Encode(c) + t) == c
  {
    var s, q := Encode(c), c / 0x40;
    SplitSixBits(c);
    SplitSixBits(q);
    SplitSixBits(q / 0x40);
    assert RuneLen(s) == |s| && DecodeValue(s) == c;
    RuneLenLocal(s, t);
    assert forall k :: 0 <= k < |s| ==> (s + t)[k] == s[k];
  }

  /** Every accepted character is the encoding of a scalar value. */
  lemma EncodeDecoded(s: seq<Byte>)
    requires |s| > 0 && RuneLen(s) > 0
    ensures IsScalar(DecodeValue(s))
    ensures Encode(DecodeValue(s)) == s[..RuneLen(s)]
  {
    var n := RuneLen(s);
    if n == 2 {
      SixBitsSplit(s[0] as int - 0xC0, s[1]);
    } else if n == 3 {
      var q := SixBits(s[0] as int - 0xE0, s[1]);
      SixBitsSplit(s[0] as int - 0xE0, s[1]);
      SixBitsSplit(q, s[2]);
    } else if n == 4 {
      var p := SixBits(s[0] as int - 0xF0, s[1]);
      var q := SixBits(p, s[2]);
      SixBitsSplit(s[0] as int - 0xF0, s[1]);
      SixBitsSplit(p, s[2]);
      SixBitsSplit(q, s[3]);
    }
  }

  /** The byte strings the decoder accepts are exactly the encodings of scalar sequences:
      the production UTF8-octets of section 4 of RFC 3629. */
  lemma ValidIffEncoded(s: seq<Byte>)
    ensures Valid(s) <==> exists cs: seq<Scalar> :: EncodeAll(cs) == s
  {
    if Valid(s) { var _ := ValidHasEncoding(s); }
    if cs: seq<Scalar> :| EncodeAll(cs) == s { EncodedIsValid(cs); }
  }

  lemma {:induction false} EncodedIsValid(cs: seq<Scalar>)
    ensures Valid(EncodeAll(cs))
  {
    if cs != [] {
      EncodedIsValid(cs[1..]);
      DecodeEncoded(cs[0], EncodeAll(cs[1..]));
      assert EncodeAll(cs)[|Encode(cs[0])|..] == EncodeAll(cs[1..]);
    }
  }

  lemma {:induction false} ValidHasEncoding(s: seq<Byte>) returns (cs: seq<Scalar>)
    requires Valid(s)
    ensures EncodeAll(cs) == s
  {
    if s == [] {
      cs := [];
    } else {
      var rest := ValidHasEncoding(s[RuneLen(s)..]);
      EncodeDecoded(s);
      cs := [DecodeValue(s)] + rest;
      assert cs[1..] == rest;
      assert s == s[..RuneLen(s)] + s[RuneLen(s)..];
    }
  }

  // ---------------------------------------------------------------- concatenation and cuts

  /** A valid prefix neither helps nor hurts what follows it. */
  lemma {:induction false} ValidConcat(a: seq<Byte>, b: seq<Byte>)
    requires Valid(a)
    ensures Valid(a + b) <==> Valid(b)
    decreases |a|
  {
    if a == [] {
      assert a + b == b;
    } else {
      var n := RuneLen(a);
      RuneLenLocal(a, b);
      ValidConcat(a[n..], b);
      assert (a + b)[n..] == a[n..] + b;
    }
  }

  /** `FullRune` decides: the verdict on a full rune survives every continuation. */
  lemma FullRuneDecides(s: seq<Byte>, t: seq<Byte>)
    requires |s| > 0 && FullRune(s)
    ensures RuneLen(s + t) == RuneLen(s)
    ensures FullRune(s + t)
  {
    var st := s + t;
    assert st[0] == s[0];
    assert |s| > 1 ==> st[1] == s[1];
    assert |s| > 2 ==> st[2] == s[2];
    if RuneLen(s) > 0 { RuneLenLocal(s, t); }
  }

  /** An incomplete rune is at most three bytes, not yet a character, and the start of one. */
  lemma PartialRune(s: seq<Byte>) returns (t: seq<Byte>)
    requires |s| > 0 && !FullRune(s)
    ensures |s| <= 3 && RuneLen(s) == 0
    ensures RuneLen(s + t) == |s + t| > |s|
  {
    var w := LeadWidth(s[0]);
    var second: Byte := if |s| > 1 then s[1] else if s[0] == 0xE0 then 0xA0 else if s[0] == 0xF0 then 0x90 else 0x80;
    var third: Byte := if |s| > 2 then s[2] else 0x80;
    var whole := [s[0], second, third, 0x80][..w];
    t := whole[|s|..];
    assert s + t == whole;
  }

  /** One character in front of valid text is valid text. */
  lemma ValidCons(s: seq<Byte>, t: seq<Byte>)
    requires |s| > 0 && RuneLen(s) == |s| && Valid(t)
    ensures Valid(s + t)
  {
    RuneLenLocal(s, t);
    assert (s + t)[|s|..] == t;
  }

  lemma {:induction false} PrefixAtRuneStart(s: seq<Byte>, k: nat)
    requires Valid(s) && k < |s| && RuneStart(s[k])
    ensures Valid(s[..k])
    decreases |s|
  {
    if k > 0 {
      var n := RuneLen(s);
      CharacterInside(s, k);
      PrefixAtRuneStart(s[n..], k - n);
      PrefixCons(s, n, k);
    }
  }

  lemma PrefixCons(s: seq<Byte>, n: nat, k: nat)
    requires |s| > 0 && n == RuneLen(s) > 0 && n <= k <= |s| && Valid(s[n..][..k - n])
    ensures Valid(s[..k])
  {
    RuneLenLocal(s, []);
    ValidCons(s[..n], s[n..][..k - n]);
    assert s[..k] == s[..n] + s[n..][..k - n];
  }

  /** A position of valid text that is not a continuation byte is a character boundary, so
      cutting there keeps both sides valid. */
  lemma CutAtRuneStart(s: seq<Byte>, k: nat)
    requires Valid(s) && k <= |s|
    requires k == |s| || RuneStart(s[k])
    ensures Valid(s[..k]) && Valid(s[k..])
  {
    if k == |s| {
      assert s[..k] == s;
    } else {
      PrefixAtRuneStart(s, k);
      ValidConcat(s[..k], s[k..]);
      assert s[..k] + s[k..] == s;
    }
  }

  /** Bytes after the first of a character are continuation bytes. */
  lemma CharacterInside(s: seq<Byte>, k: nat)
    requires 0 < k < |s|
    ensures k < RuneLen(s) ==> IsCont(s[k])
  {
  }

  /** A maximal run of continuation bytes in valid text is shorter than a character. */
  lemma {:induction false} BoundaryNear(s: seq<Byte>, k: nat) returns (j: nat)
    requires Valid(s) && k <= |s|
    ensures j <= k <= j + 3
    ensures j == |s| || RuneStart(s[j])
    decreases |s|
  {
    if k == |s| {
      j := k;
    } else {
      var n := RuneLen(s);
      if k < n {
        j := 0;
      } else {
        j := BoundaryNear(s[n..], k - n);
        j := j + n;
      }
    }
  }
}
