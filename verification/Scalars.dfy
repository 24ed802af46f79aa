/** UTF-8 by its encoding table (section 3 of RFC 3629), against which the
decoder's case analysis on bytes is checked. */
module Scalars {
  import opened Utf8

  /** A Unicode scalar value: a code point that is not a surrogate. */
  predicate Scalar(c: int) { 0 <= c < 0xD800 || 0xE000 <= c <= 0x10FFFF }

  function Encode(c: int): (s: seq<Byte>)
    requires Scalar(c)
    ensures 1 <= |s| <= 4
  {
    if c < 0x80 then [c]
    else if c < 0x800 then [0xC0 + c / 0x40, 0x80 + c % 0x40]
    else if c < 0x10000 then [0xE0 + c / 0x1000, 0x80 + c / 0x40 % 0x40, 0x80 + c % 0x40]
    else [0xF0 + c / 0x40000, 0x80 + c / 0x1000 % 0x40, 0x80 + c / 0x40 % 0x40, 0x80 + c % 0x40]
  }

  predicate AllScalars(cs: seq<int>) { forall i | 0 <= i < |cs| :: Scalar(cs[i]) }

  function EncodeAll(cs: seq<int>): seq<Byte>
    requires AllScalars(cs)
  {
    if cs == [] then [] else Encode(cs[0]) + EncodeAll(cs[1..])
  }

  /** An encoded scalar value is taken for one whole piece, whatever follows it. */
  lemma EncodedIsPiece(c: int, rest: seq<Byte>)
    requires Scalar(c)
    ensures FirstPiece(Encode(c) + rest) == Piece(|Encode(c)|, true)
  {
    var s := Encode(c) + rest;
    assert forall i | 0 <= i < |Encode(c)| :: At(s, i) == Encode(c)[i];
  }

  /** A whole piece is the encoding of a scalar value. */
  lemma PieceIsEncoded(s: seq<Byte>) returns (c: int)
    requires s != [] && FirstPiece(s).ok
    ensures Scalar(c) && s[..FirstPiece(s).len] == Encode(c)
  {
    var n := FirstPiece(s).len;
    if n == 1 {
      c := s[0];
    } else if n == 2 {
      c := TwoBytes(s[0], s[1]);
    } else if n == 3 {
      c := ThreeBytes(s[0], s[1], s[2]);
    } else {
      c := FourBytes(s[0], s[1], s[2], s[3]);
    }
    assert forall i | 0 <= i < n :: s[..n][i] == s[i];
  }

  lemma TwoBytes(a: Byte, b: Byte) returns (c: int)
    requires 0xC2 <= a <= 0xDF && Continuation(b)
    ensures Scalar(c) && Encode(c) == [a, b]
  {
    c := (a - 0xC0) * 0x40 + (b - 0x80);
  }

  lemma ThreeBytes(a: Byte, b: Byte, d: Byte) returns (c: int)
    requires 0xE0 <= a <= 0xEF && SecondOfThree(a, b) && Continuation(d)
    ensures Scalar(c) && Encode(c) == [a, b, d]
  {
    c := (a - 0xE0) * 0x1000 + (b - 0x80) * 0x40 + (d - 0x80);
    assert c / 0x40 == (a - 0xE0) * 0x40 + (b - 0x80);
  }

  lemma FourBytes(a: Byte, b: Byte, d: Byte, e: Byte) returns (c: int)
    requires 0xF0 <= a <= 0xF4 && SecondOfFour(a, b) && Continuation(d) && Continuation(e)
    ensures Scalar(c) && Encode(c) == [a, b, d, e]
  {
    c := (a - 0xF0) * 0x40000 + (b - 0x80) * 0x1000 + (d - 0x80) * 0x40 + (e - 0x80);
    assert c / 0x40 == (a - 0xF0) * 0x1000 + (b - 0x80) * 0x40 + (d - 0x80);
    assert c / 0x1000 == (a - 0xF0) * 0x40 + (b - 0x80);
  }

  lemma {:induction false} EncodedIsValid(cs: seq<int>)
    requires AllScalars(cs)
    ensures ValidUtf8(EncodeAll(cs))
  {
    hide FirstPiece, Encode;
    if cs != [] {
      var rest := EncodeAll(cs[1..]);
      EncodedIsValid(cs[1..]);
      EncodedIsPiece(cs[0], rest);
      assert EncodeAll(cs)[|Encode(cs[0])|..] == rest;
    }
  }

  lemma {:induction false} ValidIsEncoded(s: seq<Byte>) returns (cs: seq<int>)
    requires ValidUtf8(s)
    ensures AllScalars(cs) && EncodeAll(cs) == s
  {
    hide FirstPiece, Encode;
    cs := [];
    if s != [] {
      var n := FirstPiece(s).len;
      var c := PieceIsEncoded(s);
      var rest := ValidIsEncoded(s[n..]);
      cs := [c] + rest;
      assert cs[1..] == rest && s == s[..n] + s[n..];
    }
  }

  ghost predicate Encoded(s: seq<Byte>) { exists cs: seq<int> :: AllScalars(cs) && EncodeAll(cs) == s }

  /** A byte string is accepted exactly when it is an encoding of scalar values. */
  lemma ValidExactly(s: seq<Byte>)
    ensures ValidUtf8(s) <==> Encoded(s)
  {
    if ValidUtf8(s) {
      var cs := ValidIsEncoded(s);
    }
    if Encoded(s) {
      var cs :| AllScalars(cs) && EncodeAll(cs) == s;
      EncodedIsValid(cs);
    }
  }

  lemma ReplacementEncoded()
    ensures REPLACEMENT == Encode(0xFFFD)
  {
  }

  // ---- Ill-formed pieces

  /** The bytes begin the encoding of some scalar value. */
  ghost predicate Begins(p: seq<Byte>) { exists c: int :: Scalar(c) && p <= Encode(c) }

  lemma BeginsBy(p: seq<Byte>, c: int)
    requires Scalar(c) && p <= Encode(c)
    ensures Begins(p)
  {
  }

  /** What one replacement character stands for: as many bytes as begin an encoding,
      and at least one. */
  lemma BrokenPieceExactly(s: seq<Byte>)
    requires s != [] && !FirstPiece(s).ok
    ensures var n := FirstPiece(s).len;
      (n == 1 || Begins(s[..n])) && (n < |s| ==> !Begins(s[..n + 1]))
  {
    var n := FirstPiece(s).len;
    if n == 2 {
      var c: int;
      if s[0] < 0xF0 {
        c := ThreeBytes(s[0], s[1], 0x80);
      } else {
        c := FourBytes(s[0], s[1], 0x80, 0x80);
      }
      assert s[..2] == [s[0], s[1]];
      BeginsBy(s[..2], c);
    } else if n == 3 {
      var c := FourBytes(s[0], s[1], s[2], 0x80);
      assert s[..3] == [s[0], s[1], s[2]];
      BeginsBy(s[..3], c);
    }
    if n < |s| && Begins(s[..n + 1]) {
      var c: int :| Scalar(c) && s[..n + 1] <= Encode(c);
      NotBegun(s, c);
    }
  }

  lemma NotBegun(s: seq<Byte>, c: int)
    requires s != [] && !FirstPiece(s).ok && FirstPiece(s).len < |s| && Scalar(c)
    ensures !(s[..FirstPiece(s).len + 1] <= Encode(c))
  {
    var n := FirstPiece(s).len;
    var e := Encode(c);
    EncodedIsPiece(c, []);
    assert e + [] == e;
    if s[..n + 1] <= e {
      assert forall i | 0 <= i <= n :: At(s, i) == s[i] == s[..n + 1][i] == e[i] == At(e, i);
    }
  }
}
