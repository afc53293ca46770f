/** UTF-16 code units, their UTF-8 encoding as `Buffer.from(text, "utf8")` computes it, and a reference
    decoder after section 3 of RFC 3629. */
module Utf8 {
  import opened Prelude

  type Unit = u: int | 0 <= u < 0x1_0000
  type Byte = b: int | 0 <= b < 0x100
  type Text = seq<Unit>

  predicate IsHigh(u: Unit) { 0xD800 <= u <= 0xDBFF }

  predicate IsLow(u: Unit) { 0xDC00 <= u <= 0xDFFF }

  predicate IsSurrogate(u: Unit) { 0xD800 <= u <= 0xDFFF }

  /** The text begins with a surrogate pair. */
  predicate PairAt(s: Text, i: nat) { i + 1 < |s| && IsHigh(s[i]) && IsLow(s[i + 1]) }

  function Narrow(u: Unit): (r: seq<Byte>)
    ensures 1 <= |r| <= 3
  {
    if u <= 0x7F then [u]
    else if u <= 0x7FF then [0xC0 + u / 0x40, 0x80 + u % 0x40]
    else if IsSurrogate(u) then [0xEF, 0xBF, 0xBD]
    else [0xE0 + u / 0x1000, 0x80 + u / 0x40 % 0x40, 0x80 + u % 0x40]
  }

  function CodePoint(high: Unit, low: Unit): (r: int)
    requires IsHigh(high) && IsLow(low)
    ensures 0x1_0000 <= r <= 0x10_FFFF
  {
    0x1_0000 + (high - 0xD800) * 0x400 + (low - 0xDC00)
  }

  function Pair(high: Unit, low: Unit): (r: seq<Byte>)
    requires IsHigh(high) && IsLow(low)
    ensures |r| == 4
  {
    var c := CodePoint(high, low);
    [0xF0 + c / 0x4_0000, 0x80 + c / 0x1000 % 0x40, 0x80 + c / 0x40 % 0x40, 0x80 + c % 0x40]
  }

  /** An unpaired surrogate becomes the replacement character. */
  function Encode(s: Text): seq<Byte> {
    if s == [] then []
    else if PairAt(s, 0) then Pair(s[0], s[1]) + Encode(s[2..])
    else Narrow(s[0]) + Encode(s[1..])
  }

  /** No surrogate pair straddles the boundary. */
  predicate Separable(a: Text, b: Text) { !(a != [] && b != [] && IsHigh(a[|a| - 1]) && IsLow(b[0])) }

  lemma {:induction false} EncodeConcat(a: Text, b: Text)
    requires Separable(a, b)
    ensures Encode(a + b) == Encode(a) + Encode(b)
  {
    if a == [] {
      assert a + b == b;
    } else if PairAt(a, 0) {
      assert (a + b)[2..] == a[2..] + b;
      EncodeConcat(a[2..], b);
    } else {
      assert (a + b)[1..] == a[1..] + b;
      assert !PairAt(a + b, 0);
      EncodeConcat(a[1..], b);
    }
  }

  // ---------------------------------------------------------------- the reference decoder

  predicate IsTail(b: Byte) { 0x80 <= b <= 0xBF }

  function Two(b0: int, b1: int): int { (b0 - 0xC0) * 0x40 + (b1 - 0x80) }

  function Three(b0: int, b1: int, b2: int): int { (b0 - 0xE0) * 0x1000 + (b1 - 0x80) * 0x40 + (b2 - 0x80) }

  function Four(b0: int, b1: int, b2: int, b3: int): int {
    (b0 - 0xF0) * 0x4_0000 + (b1 - 0x80) * 0x1000 + (b2 - 0x80) * 0x40 + (b3 - 0x80)
  }

  /** Strict decoding: no overlong form, no surrogate, nothing above U+10FFFF. */
  function Decode(b: seq<Byte>): Option<Text> {
    if b == [] then Some([])
    else if b[0] <= 0x7F then Before([b[0]], Decode(b[1..]))
    else if 0xC2 <= b[0] <= 0xDF && |b| >= 2 && IsTail(b[1]) then
      Before([Two(b[0], b[1])], Decode(b[2..]))
    else if 0xE0 <= b[0] <= 0xEF && |b| >= 3 && IsTail(b[1]) && IsTail(b[2]) then
      var u := Three(b[0], b[1], b[2]);
      if u < 0x800 || IsSurrogate(u) then None else Before([u], Decode(b[3..]))
    else if 0xF0 <= b[0] <= 0xF4 && |b| >= 4 && IsTail(b[1]) && IsTail(b[2]) && IsTail(b[3]) then
      var c := Four(b[0], b[1], b[2], b[3]);
      if c < 0x1_0000 || c > 0x10_FFFF then None
      else Before([0xD800 + (c - 0x1_0000) / 0x400, 0xDC00 + (c - 0x1_0000) % 0x400], Decode(b[4..]))
    else None
  }

  function Before(s: Text, rest: Option<Text>): Option<Text> {
    if rest.Some? then Some(s + rest.value) else None
  }

  function Replaced(s: Text): Text {
    if s == [] then []
    else if PairAt(s, 0) then s[..2] + Replaced(s[2..])
    else [if IsSurrogate(s[0]) then 0xFFFD else s[0]] + Replaced(s[1..])
  }

  predicate Paired(s: Text, i: nat) { PairAt(s, i) || (i > 0 && PairAt(s, i - 1)) }

  /** Every surrogate is half of a pair. */
  predicate WellFormed(s: Text) {
    forall i :: 0 <= i < |s| && IsSurrogate(s[i]) ==> Paired(s, i)
  }

  lemma DecodeNarrow(u: Unit, rest: seq<Byte>)
    ensures Decode(Narrow(u) + rest) == Before([if IsSurrogate(u) then 0xFFFD else u], Decode(rest))
  {
    var b := Narrow(u) + rest;
    assert b[|Narrow(u)|..] == rest;
    if u <= 0x7F {
    } else if u <= 0x7FF {
      assert b[0] == 0xC0 + u / 0x40 && b[1] == 0x80 + u % 0x40;
    } else if IsSurrogate(u) {
      assert b[0] == 0xEF && b[1] == 0xBF && b[2] == 0xBD;
    } else {
      assert b[0] == 0xE0 + u / 0x1000 && b[1] == 0x80 + u / 0x40 % 0x40 && b[2] == 0x80 + u % 0x40;
      assert u == u / 0x1000 * 0x1000 + u / 0x40 % 0x40 * 0x40 + u % 0x40;
    }
  }

  lemma DecodePair(high: Unit, low: Unit, rest: seq<Byte>)
    requires IsHigh(high) && IsLow(low)
    ensures Decode(Pair(high, low) + rest) == Before([high, low], Decode(rest))
  {
    hide Pair, CodePoint, Four;
    var b := Pair(high, low) + rest;
    PairDigits(high, low);
    PairHalves(high, low);
    assert b[4..] == rest;
    assert b[0] == Pair(high, low)[0] && b[1] == Pair(high, low)[1] && b[2] == Pair(high, low)[2] &&
      b[3] == Pair(high, low)[3];
  }

  lemma PairDigits(high: Unit, low: Unit)
    requires IsHigh(high) && IsLow(low)
    ensures var p := Pair(high, low);
            && Four(p[0], p[1], p[2], p[3]) == CodePoint(high, low)
            && 0xF0 <= p[0] <= 0xF4 && IsTail(p[1]) && IsTail(p[2]) && IsTail(p[3])
  {
    SextetsOf(CodePoint(high, low));
  }

  lemma SextetsOf(c: int)
    requires 0 <= c
    ensures c == c / 0x4_0000 * 0x4_0000 + c / 0x1000 % 0x40 * 0x1000 + c / 0x40 % 0x40 * 0x40 + c % 0x40
  {
    var b := c / 0x40;
    var a := b / 0x40;
    assert a == c / 0x1000 && a / 0x40 == c / 0x4_0000;
    assert c == b * 0x40 + c % 0x40 && b == a * 0x40 + b % 0x40 && a == a / 0x40 * 0x40 + a % 0x40;
  }

  lemma PairHalves(high: Unit, low: Unit)
    requires IsHigh(high) && IsLow(low)
    ensures 0xD800 + (CodePoint(high, low) - 0x1_0000) / 0x400 == high
    ensures 0xDC00 + (CodePoint(high, low) - 0x1_0000) % 0x400 == low
  {
  }

  /** Decoding what was encoded gives the text back, with unpaired surrogates replaced. */
  lemma {:induction false} DecodeEncode(s: Text)
    ensures Decode(Encode(s)) == Some(Replaced(s))
  {
    if s == [] {
    } else if PairAt(s, 0) {
      DecodeEncode(s[2..]);
      DecodePair(s[0], s[1], Encode(s[2..]));
      assert s[..2] == [s[0], s[1]];
    } else {
      DecodeEncode(s[1..]);
      DecodeNarrow(s[0], Encode(s[1..]));
    }
  }

  lemma {:induction false} ReplacedSame(s: Text)
    ensures |Replaced(s)| == |s|
    ensures Replaced(s) == s <==> WellFormed(s)
  {
    if s == [] {
    } else if PairAt(s, 0) {
      ReplacedSame(s[2..]);
      assert s == s[..2] + s[2..];
      TailWellFormed(s, 2);
    } else {
      ReplacedSame(s[1..]);
      assert s == [s[0]] + s[1..];
      if IsSurrogate(s[0]) { assert Replaced(s)[0] == 0xFFFD && !Paired(s, 0); } else { TailWellFormed(s, 1); }
    }
  }

  /** Well-formedness ignores a complete prefix. */
  lemma TailWellFormed(s: Text, k: nat)
    requires (k == 1 && s != [] && !IsSurrogate(s[0])) || (k == 2 && PairAt(s, 0))
    ensures WellFormed(s) <==> WellFormed(s[k..])
  {
    var t := s[k..];
    assert !PairAt(s, k - 1);
    if WellFormed(s) {
      forall i | 0 <= i < |t| && IsSurrogate(t[i]) ensures Paired(t, i) {
        assert s[i + k] == t[i];
        assert Paired(s, i + k);
      }
    }
    if WellFormed(t) {
      forall i | 0 <= i < |s| && IsSurrogate(s[i]) ensures Paired(s, i) {
        if i >= k {
          var j := i - k;
          assert t[j] == s[i] && IsSurrogate(t[j]);
          assert Paired(t, j);
        } else if k == 2 && i == 1 {
          assert PairAt(s, 0);
        }
      }
    }
  }

  /** Text survives the encoding exactly when it has no unpaired surrogate. */
  lemma RoundTripIff(s: Text)
    ensures Decode(Encode(s)) == Some(s) <==> WellFormed(s)
  {
    DecodeEncode(s);
    ReplacedSame(s);
  }
}
