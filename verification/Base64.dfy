/** Canonical base64 (sections 3.5 and 4 of RFC 4648): the externalizer's check accepts exactly the encodings
    of non-empty byte strings, and measures them. */
module Base64 {
  import opened Prelude
  import opened Utf8

  type Sextet = s: int | 0 <= s < 64

  const PAD: Unit := 0x3D

  function Letter(s: Sextet): (u: Unit)
    ensures u != PAD
  {
    if s < 26 then 65 + s else if s < 52 then 71 + s else if s < 62 then s - 4 else if s == 62 then 43 else 47
  }

  predicate IsLetter(u: Unit) { 65 <= u <= 90 || 97 <= u <= 122 || 48 <= u <= 57 || u == 43 || u == 47 }

  /** `base64Sextet`. */
  function SextetOf(u: Unit): (s: Sextet)
    requires IsLetter(u)
    ensures Letter(s) == u
  {
    if 65 <= u <= 90 then u - 65 else if 97 <= u <= 122 then u - 71 else if 48 <= u <= 57 then u + 4
    else if u == 43 then 62 else 63
  }

  lemma LetterRoundTrip(s: Sextet)
    ensures IsLetter(Letter(s)) && SextetOf(Letter(s)) == s
  {
  }

  // ---------------------------------------------------------------- encoding and decoding

  function Quad(a: Byte, b: Byte, c: Byte): (r: Text)
    ensures |r| == 4
  {
    [Letter(a / 4), Letter(a % 4 * 16 + b / 16), Letter(b % 16 * 4 + c / 64), Letter(c % 64)]
  }

  function Encode64(b: seq<Byte>): Text {
    if b == [] then []
    else if |b| == 1 then [Letter(b[0] / 4), Letter(b[0] % 4 * 16), PAD, PAD]
    else if |b| == 2 then [Letter(b[0] / 4), Letter(b[0] % 4 * 16 + b[1] / 16), Letter(b[1] % 16 * 4), PAD]
    else Quad(b[0], b[1], b[2]) + Encode64(b[3..])
  }

  function Bytes3(p: Sextet, q: Sextet, r: Sextet, s: Sextet): seq<Byte> {
    [p * 4 + q / 16, q % 16 * 16 + r / 4, r % 4 * 64 + s]
  }

  /** `Buffer.from(text, "base64")` on texts of the right form. */
  function Decode64(t: Text): seq<Byte> {
    if |t| < 4 || !IsLetter(t[0]) || !IsLetter(t[1]) then []
    else if !IsLetter(t[2]) then [SextetOf(t[0]) * 4 + SextetOf(t[1]) / 16]
    else if !IsLetter(t[3]) then
      [SextetOf(t[0]) * 4 + SextetOf(t[1]) / 16, SextetOf(t[1]) % 16 * 16 + SextetOf(t[2]) / 4]
    else Bytes3(SextetOf(t[0]), SextetOf(t[1]), SextetOf(t[2]), SextetOf(t[3])) + Decode64(t[4..])
  }

  // ---------------------------------------------------------------- the externalizer's check

  /** `^(?:L{4})*(?:L{2}==|L{3}=)?$` on a length that is a multiple of four. */
  predicate Grouped(t: Text) {
    || t == []
    || (|t| >= 4 && IsLetter(t[0]) && IsLetter(t[1])
        && if |t| == 4 && t[3] == PAD then t[2] == PAD || IsLetter(t[2])
           else IsLetter(t[2]) && IsLetter(t[3]) && Grouped(t[4..]))
  }

  function Padding(t: Text): nat
    requires t != []
  {
    if |t| >= 2 && t[|t| - 1] == PAD && t[|t| - 2] == PAD then 2 else if t[|t| - 1] == PAD then 1 else 0
  }

  /** `canonicalBase64DecodedLength`: `None` is a thrown error. */
  function CanonicalLength(t: Text): Option<nat> {
    if t == [] || |t| % 4 != 0 || !Grouped(t) then None
    else
      var padding := Padding(t);
      if |t| < 4 || !IsLetter(t[|t| - padding - 1]) then None
      else
        var final := SextetOf(t[|t| - padding - 1]);
        if (padding == 2 && final % 16 != 0) || (padding == 1 && final % 4 != 0) then None
        else Some(|t| / 4 * 3 - padding)
  }

  lemma JoinSplit(p: Sextet, q: Sextet, r: Sextet, s: Sextet)
    ensures var b := Bytes3(p, q, r, s);
            && b[0] / 4 == p && b[0] % 4 * 16 + b[1] / 16 == q && b[1] % 16 * 4 + b[2] / 64 == r && b[2] % 64 == s
  {
  }

  lemma SplitJoin(a: Byte, b: Byte, c: Byte)
    ensures Bytes3(a / 4, a % 4 * 16 + b / 16, b % 16 * 4 + c / 64, c % 64) == [a, b, c]
  {
  }

  lemma QuadRoundTrip(t: Text)
    requires |t| >= 4 && IsLetter(t[0]) && IsLetter(t[1]) && IsLetter(t[2]) && IsLetter(t[3])
    ensures var b := Bytes3(SextetOf(t[0]), SextetOf(t[1]), SextetOf(t[2]), SextetOf(t[3]));
      Quad(b[0], b[1], b[2]) == t[..4]
  {
    hide Letter, SextetOf, IsLetter;
    JoinSplit(SextetOf(t[0]), SextetOf(t[1]), SextetOf(t[2]), SextetOf(t[3]));
  }

  /** The last group decides about the tail of a longer text. */
  lemma TailCanonical(t: Text)
    requires |t| > 4 && IsLetter(t[0]) && IsLetter(t[1]) && IsLetter(t[2]) && IsLetter(t[3])
    ensures Padding(t) == Padding(t[4..])
    ensures CanonicalLength(t) == match CanonicalLength(t[4..]) case Some(n) => Some(n + 3) case None => None
  {
    var u := t[4..];
    assert u[|u| - 1] == t[|t| - 1];
    if |u| >= 2 { assert u[|u| - 2] == t[|t| - 2]; }
    if |u| >= 4 && |u| % 4 == 0 { assert u[|u| - Padding(u) - 1] == t[|t| - Padding(t) - 1]; }
  }

  /** An accepted text is the encoding of what it decodes to, and the measured length is the decoded one. */
  lemma {:induction false} AcceptedIsCanonical(t: Text)
    requires CanonicalLength(t).Some?
    ensures Encode64(Decode64(t)) == t && |Decode64(t)| == CanonicalLength(t).value > 0
  {
    hide Letter, SextetOf, Bytes3, Quad;
    if |t| > 4 {
      TailCanonical(t);
      AcceptedIsCanonical(t[4..]);
      FullGroup(t);
    } else if IsLetter(t[2]) && IsLetter(t[3]) {
      FullGroup(t);
      assert t[4..] == [];
    } else {
      LastGroup(t);
    }
  }

  lemma FullGroup(t: Text)
    requires |t| >= 4 && IsLetter(t[0]) && IsLetter(t[1]) && IsLetter(t[2]) && IsLetter(t[3])
    ensures |Decode64(t)| == 3 + |Decode64(t[4..])|
    ensures Encode64(Decode64(t[4..])) == t[4..] ==> Encode64(Decode64(t)) == t
  {
    QuadRoundTrip(t);
    hide Letter, IsLetter;
    var head := Bytes3(SextetOf(t[0]), SextetOf(t[1]), SextetOf(t[2]), SextetOf(t[3]));
    var rest := Decode64(t[4..]);
    assert Decode64(t) == head + rest;
    assert (head + rest)[3..] == rest;
    assert t == t[..4] + t[4..];
  }

  lemma LastGroup(t: Text)
    requires |t| == 4 && CanonicalLength(t).Some? && !(IsLetter(t[2]) && IsLetter(t[3]))
    ensures Encode64(Decode64(t)) == t && |Decode64(t)| == CanonicalLength(t).value > 0
  {
    hide Letter;
    if t[2] == PAD {
      PadTwo(SextetOf(t[0]), SextetOf(t[1]));
    } else {
      PadOne(SextetOf(t[0]), SextetOf(t[1]), SextetOf(t[2]));
    }
  }

  lemma PadTwo(p: Sextet, q: Sextet)
    requires q % 16 == 0
    ensures (p * 4 + q / 16) / 4 == p && (p * 4 + q / 16) % 4 * 16 == q
  {
  }

  lemma PadOne(p: Sextet, q: Sextet, r: Sextet)
    requires r % 4 == 0
    ensures (p * 4 + q / 16) / 4 == p && (p * 4 + q / 16) % 4 * 16 + (q % 16 * 16 + r / 4) / 16 == q
    ensures (q % 16 * 16 + r / 4) % 16 * 4 == r
  {
  }

  lemma GroupRoundTrip(a: Byte, b: Byte, c: Byte)
    ensures var q := Quad(a, b, c);
            && IsLetter(q[0]) && IsLetter(q[1]) && IsLetter(q[2]) && IsLetter(q[3])
            && Bytes3(SextetOf(q[0]), SextetOf(q[1]), SextetOf(q[2]), SextetOf(q[3])) == [a, b, c]
  {
    hide Letter, SextetOf, IsLetter, Bytes3;
    LetterRoundTrip(a / 4);
    LetterRoundTrip(a % 4 * 16 + b / 16);
    LetterRoundTrip(b % 16 * 4 + c / 64);
    LetterRoundTrip(c % 64);
    SplitJoin(a, b, c);
  }

  /** Every encoding of a non-empty byte string is accepted, with its length. */
  lemma {:induction false} EncodingIsAccepted(b: seq<Byte>)
    requires b != []
    ensures Decode64(Encode64(b)) == b && CanonicalLength(Encode64(b)) == Some(|b|)
  {
    if |b| <= 2 {
      ShortRoundTrip(b);
    } else {
      var t := Encode64(b);
      GroupRoundTrip(b[0], b[1], b[2]);
      assert t[..4] == Quad(b[0], b[1], b[2]) && t[4..] == Encode64(b[3..]);
      assert t[0] == t[..4][0] && t[1] == t[..4][1] && t[2] == t[..4][2] && t[3] == t[..4][3];
      hide Letter, SextetOf, IsLetter, Bytes3, Quad, Padding;
      DecodeFull(t, b);
      if |b| > 3 {
        EncodingIsAccepted(b[3..]);
        TailCanonical(t);
      } else {
        assert b[3..] == [] && t[4..] == [];
        FullCanonical(t);
      }
      assert b == [b[0], b[1], b[2]] + b[3..];
    }
  }

  lemma DecodeFull(t: Text, b: seq<Byte>)
    requires |t| >= 4 && |b| >= 3 && IsLetter(t[0]) && IsLetter(t[1]) && IsLetter(t[2]) && IsLetter(t[3])
    requires Bytes3(SextetOf(t[0]), SextetOf(t[1]), SextetOf(t[2]), SextetOf(t[3])) == [b[0], b[1], b[2]]
    ensures Decode64(t) == [b[0], b[1], b[2]] + Decode64(t[4..])
  {
    hide Letter, SextetOf, IsLetter, Bytes3;
  }

  lemma FullCanonical(t: Text)
    requires |t| == 4 && IsLetter(t[0]) && IsLetter(t[1]) && IsLetter(t[2]) && IsLetter(t[3])
    ensures CanonicalLength(t) == Some(3) && Decode64(t[4..]) == []
  {
    assert t[4..] == [];
    assert Grouped(t[4..]);
    assert t[3] != PAD;
    assert Grouped(t) && Padding(t) == 0 && |t| / 4 * 3 == 3;
  }

  lemma ShortRoundTrip(b: seq<Byte>)
    requires 1 <= |b| <= 2
    ensures Decode64(Encode64(b)) == b && CanonicalLength(Encode64(b)) == Some(|b|)
  {
    hide Encode64, Decode64, CanonicalLength;
    if |b| == 1 { OneByte(b[0]); assert b == [b[0]]; } else { TwoBytes(b[0], b[1]); assert b == [b[0], b[1]]; }
  }

  lemma OneByte(a: Byte)
    ensures Decode64(Encode64([a])) == [a] && CanonicalLength(Encode64([a])) == Some(1)
  {
    var p, q: Sextet := a / 4, a % 4 * 16;
    LetterRoundTrip(p);
    LetterRoundTrip(q);
    OneBack(a);
    hide Letter, SextetOf;
    var t := [Letter(p), Letter(q), PAD, PAD];
    assert Encode64([a]) == t && Padding(t) == 2 && t[|t| - 2 - 1] == Letter(q);
  }

  lemma OneBack(a: Byte)
    ensures a / 4 * 4 + a % 4 * 16 / 16 == a && a % 4 * 16 % 16 == 0
  {
  }

  lemma TwoBytes(a: Byte, b: Byte)
    ensures Decode64(Encode64([a, b])) == [a, b] && CanonicalLength(Encode64([a, b])) == Some(2)
  {
    var p, q, r: Sextet := a / 4, a % 4 * 16 + b / 16, b % 16 * 4;
    LetterRoundTrip(p);
    LetterRoundTrip(q);
    LetterRoundTrip(r);
    TwoBack(a, b);
    hide Letter, SextetOf;
    var t := [Letter(p), Letter(q), Letter(r), PAD];
    assert Encode64([a, b]) == t && Padding(t) == 1 && t[|t| - 1 - 1] == Letter(r);
  }

  lemma TwoBack(a: Byte, b: Byte)
    ensures a / 4 * 4 + (a % 4 * 16 + b / 16) / 16 == a && (a % 4 * 16 + b / 16) % 16 * 16 + b % 16 * 4 / 4 == b
    ensures b % 16 * 4 % 4 == 0
  {
  }

  /** The check accepts a text if and only if it is the canonical encoding of some non-empty byte string. */
  lemma CanonicalIff(t: Text)
    ensures CanonicalLength(t).Some? <==> exists b: seq<Byte> :: b != [] && Encode64(b) == t
  {
    if CanonicalLength(t).Some? {
      AcceptedIsCanonical(t);
      assert Decode64(t) != [];
    }
    if b: seq<Byte> :| b != [] && Encode64(b) == t { EncodingIsAccepted(b); }
  }
}
