/** Lossy UTF-8 decoding as Rust's `String::from_utf8_lossy` performs it, kept as
bytes: the result is the UTF-8 encoding of the decoded string. */
module Utf8 {
  import opened Sequences

  type Byte = b: int | 0 <= b < 256

  /** U+FFFD, the replacement character. */
  const REPLACEMENT: seq<Byte> := [0xEF, 0xBF, 0xBD]

  /** The first decoded unit of a byte string: one scalar value, or one maximal
      ill-formed subpart (which decodes to a single replacement character). */
  datatype Piece = Piece(len: nat, ok: bool)

  predicate Continuation(b: int) { 0x80 <= b <= 0xBF }

  function At(s: seq<Byte>, i: nat): int { if i < |s| then s[i] else -1 }

  predicate SecondOfThree(a: int, b: int) {
    || (a == 0xE0 && 0xA0 <= b <= 0xBF)
    || (0xE1 <= a <= 0xEC && Continuation(b))
    || (a == 0xED && 0x80 <= b <= 0x9F)
    || (0xEE <= a <= 0xEF && Continuation(b))
  }

  predicate SecondOfFour(a: int, b: int) {
    || (a == 0xF0 && 0x90 <= b <= 0xBF)
    || (0xF1 <= a <= 0xF3 && Continuation(b))
    || (a == 0xF4 && 0x80 <= b <= 0x8F)
  }

  function FirstPiece(s: seq<Byte>): (p: Piece)
    requires s != []
    ensures 1 <= p.len <= |s| && p.len <= if p.ok then 4 else 3
    ensures forall i | 0 < i < p.len :: Continuation(s[i])
    ensures p.ok ==> !Continuation(s[0])
  {
    var a := s[0];
    if a < 0x80 then Piece(1, true)
    else if 0xC2 <= a <= 0xDF then
      if Continuation(At(s, 1)) then Piece(2, true) else Piece(1, false)
    else if 0xE0 <= a <= 0xEF then
      if !SecondOfThree(a, At(s, 1)) then Piece(1, false)
      else if !Continuation(At(s, 2)) then Piece(2, false)
      else Piece(3, true)
    else if 0xF0 <= a <= 0xF4 then
      if !SecondOfFour(a, At(s, 1)) then Piece(1, false)
      else if !Continuation(At(s, 2)) then Piece(2, false)
      else if !Continuation(At(s, 3)) then Piece(3, false)
      else Piece(4, true)
    else Piece(1, false)
  }

  function Lossy(s: seq<Byte>): seq<Byte> {
    if s == [] then []
    else
      var p := FirstPiece(s);
      (if p.ok then s[..p.len] else REPLACEMENT) + Lossy(s[p.len..])
  }

  predicate ValidUtf8(s: seq<Byte>) {
    s != [] ==> FirstPiece(s).ok && ValidUtf8(s[FirstPiece(s).len..])
  }

  /** A cut at `k` does not fall inside a multi-byte character. */
  predicate CharBoundary(s: seq<Byte>, k: nat)
    requires k <= |s|
  {
    k == |s| || !Continuation(s[k])
  }

  /** Decoding never shortens the text, and leaves it alone exactly when it was well formed. */
  lemma {:induction false} LossyGrows(s: seq<Byte>)
    ensures |Lossy(s)| >= |s|
    ensures Lossy(s) == s <==> ValidUtf8(s)
  {
    if s != [] {
      var p := FirstPiece(s);
      var rest := s[p.len..];
      LossyGrows(rest);
      assert s == s[..p.len] + rest;
      if p.ok {
        assert Lossy(s)[p.len..] == Lossy(rest);
      } else {
        assert s[..p.len] != REPLACEMENT by {
          assert p.len == 3 ==> REPLACEMENT[0] == 0xEF && REPLACEMENT[1] == 0xBF && REPLACEMENT[2] == 0xBD;
          assert p.len == 3 ==> s[..p.len][0] == s[0] && s[..p.len][1] == s[1] && s[..p.len][2] == s[2];
        }
        assert Lossy(s)[..3] == REPLACEMENT;
      }
    }
  }

  lemma {:induction false} AsciiValid(s: seq<Byte>)
    requires forall i | 0 <= i < |s| :: s[i] < 0x80
    ensures ValidUtf8(s)
  {
    if s != [] {
      AsciiValid(s[1..]);
    }
  }

  lemma {:induction false} ValidConcat(a: seq<Byte>, b: seq<Byte>)
    requires ValidUtf8(a) && ValidUtf8(b)
    ensures ValidUtf8(a + b)
  {
    if a == [] {
      assert a + b == b;
    } else {
      var p := FirstPiece(a);
      assert FirstPiece(a + b) == p;
      ValidConcat(a[p.len..], b);
      assert (a + b)[p.len..] == a[p.len..] + b;
    }
  }

  lemma TruncatedPiece(s: seq<Byte>, k: nat)
    requires s != [] && FirstPiece(s).ok && 0 < k < FirstPiece(s).len
    ensures !FirstPiece(s[..k]).ok
  {
    var c := s[..k];
    assert c[0] == s[0] && At(c, 3) == -1;
    assert At(c, 1) == if k > 1 then s[1] else -1;
    assert At(c, 2) == if k > 2 then s[2] else -1;
  }

  lemma WholePiece(s: seq<Byte>, k: nat)
    requires s != [] && FirstPiece(s).len <= k <= |s| && FirstPiece(s).ok
    ensures FirstPiece(s[..k]) == FirstPiece(s)
  {
    var c := s[..k];
    assert forall j: nat | j < k :: At(c, j) == At(s, j);
  }

  /** In a well-formed text either side of a cut is well formed exactly when the
      cut is a character boundary. */
  lemma {:induction false} ValidCut(s: seq<Byte>, k: nat)
    requires ValidUtf8(s) && k <= |s|
    ensures ValidUtf8(s[..k]) <==> CharBoundary(s, k)
    ensures ValidUtf8(s[k..]) <==> CharBoundary(s, k)
  {
    if s == [] || k == 0 {
      assert s[0..] == s;
    } else {
      var p := FirstPiece(s);
      if p.len <= k {
        ValidCut(s[p.len..], k - p.len);
        WholePiece(s, k);
        assert s[..k][p.len..] == s[p.len..][..k - p.len];
        assert s[k..] == s[p.len..][k - p.len..];
      } else {
        assert Continuation(s[k]);
        assert s[k..][0] == s[k];
        TruncatedPiece(s, k);
      }
    }
  }

  // ---- Text received in pieces

  /** What a reader that decodes each chunk on its own accumulates. */
  function JoinedLossy(chunks: seq<seq<Byte>>): seq<Byte> {
    if chunks == [] then [] else Lossy(chunks[0]) + JoinedLossy(chunks[1..])
  }

  lemma {:induction false} JoinedLossyGrows(chunks: seq<seq<Byte>>)
    ensures |JoinedLossy(chunks)| >= |Flatten(chunks)|
  {
    if chunks != [] {
      JoinedLossyGrows(chunks[1..]);
      LossyGrows(chunks[0]);
    }
  }

  /** Decoding chunk by chunk reproduces the bytes exactly when no chunk is ill
      formed: a character split across two chunks is never repaired later. */
  lemma {:induction false} ChunkedDecodingExact(chunks: seq<seq<Byte>>)
    ensures JoinedLossy(chunks) == Flatten(chunks) <==> forall i | 0 <= i < |chunks| :: ValidUtf8(chunks[i])
  {
    hide Lossy, ValidUtf8;
    if chunks != [] {
      var first, rest := chunks[0], chunks[1..];
      ChunkedDecodingExact(rest);
      JoinedLossyGrows(rest);
      LossyGrows(first);
      if JoinedLossy(chunks) == Flatten(chunks) {
        assert Lossy(first) == JoinedLossy(chunks)[..|Lossy(first)|];
        assert first == Flatten(chunks)[..|first|];
        assert JoinedLossy(rest) == JoinedLossy(chunks)[|Lossy(first)|..];
        assert Flatten(rest) == Flatten(chunks)[|first|..];
      }
      if forall i | 0 <= i < |chunks| :: ValidUtf8(chunks[i]) {
        assert forall i | 0 <= i < |rest| :: rest[i] == chunks[i + 1];
      } else {
        assert !ValidUtf8(first) || exists i | 0 <= i < |rest| :: !ValidUtf8(rest[i]) by {
          var i :| 0 <= i < |chunks| && !ValidUtf8(chunks[i]);
          assert i > 0 ==> rest[i - 1] == chunks[i];
        }
      }
    }
  }
}
