/** Splitting newline-delimited text into records that carry the byte offset at
which they start. This is the reference the incremental readers are measured against. */
module Lines {
  import opened Sequences
  import opened Utf8

  const NL: Byte := 10
  const CR: Byte := 13

  datatype Record = Record(pos: nat, line: seq<Byte>)

  /** How the bytes of one line become the record's text: the transcript reader
      decodes before it splits, the rollout reader after. */
  datatype Decode = DecodedBefore | DecodedAfter

  function TrimCr(s: seq<Byte>): seq<Byte> {
    if s != [] && s[|s| - 1] == CR then TrimCr(s[..|s| - 1]) else s
  }

  /** Exactly the carriage returns at the end are cut off. */
  lemma {:induction false} TrimmedExactly(s: seq<Byte>)
    ensures var r := TrimCr(s);
      r <= s && (r == [] || r[|r| - 1] != 13) && forall i | |r| <= i < |s| :: s[i] == 13
  {
    if s != [] && s[|s| - 1] == CR {
      TrimmedExactly(s[..|s| - 1]);
    }
  }

  function LineText(f: Decode, raw: seq<Byte>): seq<Byte> {
    TrimCr(if f.DecodedBefore? then raw else Lossy(raw))
  }

  /** A line is its bytes, decoded where the reader has not done so before, less the
      carriage returns at its end. */
  lemma LineTextExactly(f: Decode, raw: seq<Byte>)
    ensures var text, r := if f == DecodedAfter then Lossy(raw) else raw, LineText(f, raw);
      r <= text && (r == [] || r[|r| - 1] != 13) && forall i | |r| <= i < |text| :: text[i] == 13
  {
    hide Lossy, TrimCr;
    TrimmedExactly(if f == DecodedAfter then Lossy(raw) else raw);
  }

  predicate NoNl(s: seq<Byte>) { forall k | 0 <= k < |s| :: s[k] != NL }

  /** Index of the first newline, or the length when there is none. */
  function FirstNl(s: seq<Byte>): (i: nat)
    ensures i <= |s|
    ensures forall k | 0 <= k < i :: s[k] != NL
    ensures i < |s| ==> s[i] == NL
  {
    if s == [] || s[0] == NL then 0 else 1 + FirstNl(s[1..])
  }

  lemma FirstNlUnique(s: seq<Byte>, i: nat)
    requires i <= |s| && (forall k | 0 <= k < i :: s[k] != NL) && (i < |s| ==> s[i] == NL)
    ensures FirstNl(s) == i
  {
  }

  function Emitted(pos: nat, line: seq<Byte>): seq<Record> {
    if line == [] then [] else [Record(pos, line)]
  }

  /** The non-empty lines of `s`, read as starting at file offset `base`. */
  function Records(base: nat, s: seq<Byte>, f: Decode): seq<Record>
    decreases |s|
  {
    var i := FirstNl(s);
    if i == |s| then []
    else Emitted(base, LineText(f, s[..i])) + Records(base + i + 1, s[i + 1..], f)
  }

  /** The unterminated tail: everything after the last newline. */
  function Rest(s: seq<Byte>): (r: seq<Byte>)
    ensures |r| <= |s|
  {
    var i := FirstNl(s);
    if i == |s| then s else Rest(s[i + 1..])
  }

  lemma {:induction false} RestIsSuffix(s: seq<Byte>)
    ensures Rest(s) == s[|s| - |Rest(s)|..] && NoNl(Rest(s))
    decreases |s|
  {
    var i := FirstNl(s);
    if i < |s| {
      RestIsSuffix(s[i + 1..]);
    }
  }

  lemma Unfold(base: nat, s: seq<Byte>, f: Decode, i: nat, raw: seq<Byte>, next: nat, tail: seq<Byte>)
    requires i < |s| && s[i] == NL && (forall k | 0 <= k < i :: s[k] != NL)
    requires raw == s[..i] && next == base + i + 1 && tail == s[i + 1..]
    ensures Records(base, s, f) == Emitted(base, LineText(f, raw)) + Records(next, tail, f)
    ensures Rest(s) == Rest(tail)
  {
    hide LineText, FirstNl;
    FirstNlUnique(s, i);
  }

  /** Reading in two steps, holding the unterminated tail in between, is reading once. */
  lemma {:induction false} RecordsConcat(base: nat, a: seq<Byte>, b: seq<Byte>, f: Decode, held: seq<Byte>, at: nat)
    requires held == Rest(a) && at == base + |a| - |held|
    ensures Records(base, a + b, f) == Records(base, a, f) + Records(at, held + b, f)
    ensures Rest(a + b) == Rest(held + b)
    decreases |a|
  {
    hide Records, Rest;
    var i := FirstNl(a);
    if i == |a| {
      NoLineLeft(base, a, f);
    } else {
      var c := a[i + 1..];
      ConcatStep(base, a, b, f, i, base + i + 1, c, Records(at, held + b, f));
      RecordsConcat(base + i + 1, c, b, f, held, at);
    }
  }

  lemma ConcatStep(base: nat, a: seq<Byte>, b: seq<Byte>, f: Decode, i: nat, next: nat, c: seq<Byte>, tail: seq<Record>)
    requires i < |a| && a[i] == NL && (forall k | 0 <= k < i :: a[k] != NL)
    requires next == base + i + 1 && c == a[i + 1..]
    ensures Rest(a) == Rest(c) && Rest(a + b) == Rest(c + b)
    ensures Records(next, c + b, f) == Records(next, c, f) + tail
      ==> Records(base, a + b, f) == Records(base, a, f) + tail
  {
    var ab := a + b;
    assert ab[..i] == a[..i] && ab[i + 1..] == c + b;
    Unfold(base, a, f, i, a[..i], next, c);
    Unfold(base, ab, f, i, a[..i], next, c + b);
    AppendAssociates(Emitted(base, LineText(f, a[..i])), Records(next, c, f), tail);
  }

  /** `s[p..q]` is a whole line of `s` whose text is not empty. */
  ghost predicate LineAt(s: seq<Byte>, f: Decode, p: nat, q: nat) {
    && p <= q < |s| && s[q] == NL && (p == 0 || s[p - 1] == NL)
    && (forall k | p <= k < q :: s[k] != NL) && LineText(f, s[p..q]) != []
  }

  ghost predicate Increasing(rs: seq<Record>) {
    forall i, j | 0 <= i < j < |rs| :: rs[i].pos < rs[j].pos
  }

  ghost predicate RecordOf(base: nat, s: seq<Byte>, f: Decode, r: Record) {
    exists p: nat, q: nat :: LineAt(s, f, p, q) && r == Record(base + p, LineText(f, s[p..q]))
  }

  /** `Records` lists exactly the whole non-empty lines, each at its true start, in file order. */
  lemma {:induction false} RecordsExact(base: nat, s: seq<Byte>, f: Decode)
    ensures Increasing(Records(base, s, f))
    ensures forall r | r in Records(base, s, f) :: base <= r.pos
    ensures forall r :: r in Records(base, s, f) <==> RecordOf(base, s, f, r)
    decreases |s|
  {
    var i := FirstNl(s);
    if i < |s| {
      var tail := s[i + 1..];
      RecordsExact(base + i + 1, tail, f);
      var hd, tl := Emitted(base, LineText(f, s[..i])), Records(base + i + 1, tail, f);
      assert Records(base, s, f) == hd + tl;
      forall r ensures r in hd + tl <==> RecordOf(base, s, f, r) {
        if r in hd {
          assert s[0..i] == s[..i];
          assert LineAt(s, f, 0, i);
        }
        if r in tl {
          TailToWhole(base, s, f, r, i);
        }
        if RecordOf(base, s, f, r) {
          WholeToTail(base, s, f, r, i);
        }
      }
    }
  }

  lemma TailToWhole(base: nat, s: seq<Byte>, f: Decode, r: Record, i: nat)
    requires i < |s| && s[i] == NL
    requires RecordOf(base + i + 1, s[i + 1..], f, r)
    ensures RecordOf(base, s, f, r)
  {
    hide LineText;
    var tail := s[i + 1..];
    var p: nat, q: nat :| LineAt(tail, f, p, q) && r == Record(base + i + 1 + p, LineText(f, tail[p..q]));
    assert s[i + 1 + p..i + 1 + q] == tail[p..q];
    assert LineAt(s, f, i + 1 + p, i + 1 + q);
  }

  lemma WholeToTail(base: nat, s: seq<Byte>, f: Decode, r: Record, i: nat)
    requires i == FirstNl(s) && RecordOf(base, s, f, r)
    ensures i < |s|
    ensures r in Emitted(base, LineText(f, s[..i])) || RecordOf(base + i + 1, s[i + 1..], f, r)
  {
    hide LineText, FirstNl;
    var p: nat, q: nat :| LineAt(s, f, p, q) && r == Record(base + p, LineText(f, s[p..q]));
    LineOfTail(s, f, p, q);
    if p == 0 {
      assert s[0..i] == s[..i];
    } else {
      LineShift(s, f, p, q, i);
      assert r == Record((base + i + 1) + (p - i - 1), LineText(f, s[i + 1..][p - i - 1..q - i - 1]));
    }
  }

  lemma LineShift(s: seq<Byte>, f: Decode, p: nat, q: nat, i: nat)
    requires LineAt(s, f, p, q) && i < p
    ensures s[i + 1..][p - i - 1..q - i - 1] == s[p..q]
    ensures LineAt(s[i + 1..], f, p - i - 1, q - i - 1)
  {
    hide LineText, FirstNl;
    var tail := s[i + 1..];
    assert tail[p - i - 1..q - i - 1] == s[p..q];
  }

  /** A whole line of `s` is its first line or a whole line of what follows it. */
  lemma LineOfTail(s: seq<Byte>, f: Decode, p: nat, q: nat)
    requires LineAt(s, f, p, q)
    ensures FirstNl(s) <= q
    ensures p == 0 ==> q == FirstNl(s)
    ensures p > 0 ==> p > FirstNl(s)
  {
    hide LineText, FirstNl;
  }

  lemma ValidAroundNewline(s: seq<Byte>, i: nat)
    requires ValidUtf8(s) && i < |s| && s[i] == NL
    ensures ValidUtf8(s[..i]) && Lossy(s[..i]) == s[..i] && ValidUtf8(s[i + 1..])
  {
    ValidCut(s, i);
    LossyGrows(s[..i]);
    assert s[i..][1..] == s[i + 1..];
    assert FirstPiece(s[i..]) == Piece(1, true);
  }

  /** On well-formed text decoding line by line and decoding beforehand give the same records. */
  lemma {:induction false} DecodersAgree(base: nat, s: seq<Byte>)
    requires ValidUtf8(s)
    ensures Records(base, s, DecodedBefore) == Records(base, s, DecodedAfter)
    decreases |s|
  {
    hide Records, FirstNl, Lossy, ValidUtf8, TrimCr;
    var i := FirstNl(s);
    if i == |s| {
      NoLineLeft(base, s, DecodedBefore);
      NoLineLeft(base, s, DecodedAfter);
    } else {
      ValidAroundNewline(s, i);
      DecodersAgree(base + i + 1, s[i + 1..]);
      Unfold(base, s, DecodedBefore, i, s[..i], base + i + 1, s[i + 1..]);
      Unfold(base, s, DecodedAfter, i, s[..i], base + i + 1, s[i + 1..]);
    }
  }

  /** Taking one line off the front of what is left to split. */
  lemma LineTaken(base: nat, s: seq<Byte>, consumed: nat, index: nat, f: Decode, whole: seq<Record>, out: seq<Record>,
                  raw: seq<Byte>, at: nat, next: nat, tail: seq<Byte>)
    requires consumed <= index < |s| && s[index] == NL && (forall k | consumed <= k < index :: s[k] != NL)
    requires raw == s[consumed..index] && at == base + consumed && next == base + index + 1 && tail == s[index + 1..]
    requires whole == out + Records(at, s[consumed..], f)
    ensures whole == (out + Emitted(at, LineText(f, raw))) + Records(next, tail, f)
    ensures Rest(s[consumed..]) == Rest(tail)
  {
    hide Records, Rest, LineText, FirstNl;
    var left := s[consumed..];
    assert left[..index - consumed] == raw && left[index - consumed + 1..] == tail;
    Unfold(at, left, f, index - consumed, raw, next, tail);
    AppendAssociates(out, Emitted(at, LineText(f, raw)), Records(next, tail, f));
  }

  lemma NoLineLeft(base: nat, s: seq<Byte>, f: Decode)
    requires NoNl(s)
    ensures Records(base, s, f) == [] && Rest(s) == s
  {
  }

  // ---- Following a growing file

  /** A reader at `offset` holds exactly the unreturned bytes just before it. */
  predicate Holds(data: seq<Byte>, offset: nat, partial: seq<Byte>) {
    |partial| <= offset <= |data| && partial == data[offset - |partial|..offset]
  }

  /** What a reader that has consumed `seen` up to `at` still owes of `whole` is
      the records it returns now plus what it owes after holding the tail. */
  lemma FollowStep(seen: seq<Byte>, whole: seq<Byte>, at: nat, f: Decode, held: seq<Byte>, rest: seq<Byte>, next: nat)
    requires seen <= whole && at <= |seen| && held == seen[at..]
    requires rest == Rest(held) && next == |seen| - |rest|
    ensures Records(at, whole[at..], f) == Records(at, held, f) + Records(next, whole[next..], f)
    ensures Rest(whole[at..]) == Rest(whole[next..])
    ensures Holds(seen, |seen|, rest) && NoNl(rest)
  {
    hide Records, Rest, FirstNl;
    RestIsSuffix(held);
    var more := whole[|seen|..];
    ExtendedSuffix(seen, whole, at);
    ExtendedSuffix(seen, whole, next);
    assert held[|held| - |rest|..] == seen[next..];
    RecordsConcat(at, held, more, f, rest, next);
  }

  lemma ExtendedSuffix<T>(seen: seq<T>, whole: seq<T>, at: nat)
    requires seen <= whole && at <= |seen|
    ensures whole[at..] == seen[at..] + whole[|seen|..]
  {
    assert whole == seen + whole[|seen|..];
  }

  // ---- The bytes that splitting keeps

  /** Everything but newlines and carriage returns. */
  function Solid(s: seq<Byte>): seq<Byte> {
    if s == [] then [] else (if s[0] == NL || s[0] == CR then [] else [s[0]]) + Solid(s[1..])
  }

  lemma {:induction false} SolidConcat(a: seq<Byte>, b: seq<Byte>)
    ensures Solid(a + b) == Solid(a) + Solid(b)
  {
    if a == [] {
      assert a + b == b;
    } else {
      assert (a + b)[1..] == a[1..] + b;
      SolidConcat(a[1..], b);
      AppendAssociates(if a[0] == NL || a[0] == CR then [] else [a[0]], Solid(a[1..]), Solid(b));
    }
  }

  lemma {:induction false} SolidAlready(s: seq<Byte>)
    requires forall i | 0 <= i < |s| :: s[i] != NL && s[i] != CR
    ensures Solid(s) == s
  {
    if s != [] {
      SolidAlready(s[1..]);
    }
  }

  lemma {:induction false} SolidTrimmed(s: seq<Byte>)
    ensures Solid(TrimCr(s)) == Solid(s)
  {
    if s != [] && s[|s| - 1] == CR {
      var front := s[..|s| - 1];
      SolidTrimmed(front);
      SolidConcat(front, [CR]);
      assert s == front + [CR] && [CR][1..] == [];
    }
  }

  /** An ill-formed piece holds no newline or carriage return, and is not the replacement character. */
  lemma BrokenPiece(s: seq<Byte>)
    requires s != [] && !FirstPiece(s).ok
    ensures var piece := s[..FirstPiece(s).len];
      Solid(piece) == piece && piece != REPLACEMENT && |piece| <= |REPLACEMENT| && Solid(REPLACEMENT) == REPLACEMENT
  {
    var piece := s[..FirstPiece(s).len];
    assert s[0] >= 0x80;
    assert forall i | 0 <= i < |piece| :: piece[i] == s[i];
    SolidAlready(piece);
    SolidAlready(REPLACEMENT);
    assert |piece| == 3 ==> piece[0] != REPLACEMENT[0];
  }

  /** Decoding changes the solid bytes exactly when the text is ill formed, and never to fewer. */
  lemma {:induction false} SolidDecoded(s: seq<Byte>)
    ensures |Solid(Lossy(s))| >= |Solid(s)|
    ensures Solid(Lossy(s)) == Solid(s) <==> ValidUtf8(s)
  {
    hide FirstPiece, Solid;
    if s != [] {
      var p := FirstPiece(s);
      var piece, rest := s[..p.len], s[p.len..];
      var shown := if p.ok then piece else REPLACEMENT;
      SolidDecoded(rest);
      assert s == piece + rest;
      SolidConcat(piece, rest);
      SolidConcat(shown, Lossy(rest));
      if !p.ok {
        BrokenPiece(s);
      }
      SameHalves(Solid(piece), Solid(rest), Solid(shown), Solid(Lossy(rest)));
    }
  }

  /** Two concatenations of parts that are pairwise no shorter are equal only part by part. */
  lemma SameHalves<T>(a: seq<T>, b: seq<T>, a1: seq<T>, b1: seq<T>)
    requires |a| <= |a1| && |b| <= |b1|
    ensures a + b == a1 + b1 <==> a == a1 && b == b1
  {
    if a + b == a1 + b1 {
      assert |a + b| == |a1 + b1|;
      assert a == (a + b)[..|a|] && b == (a + b)[|a|..];
      assert a1 == (a1 + b1)[..|a|] && b1 == (a1 + b1)[|a|..];
    }
  }

  /** The same for text decoded chunk by chunk. */
  lemma {:induction false} SolidChunks(chunks: seq<seq<Byte>>)
    ensures |Solid(JoinedLossy(chunks))| >= |Solid(Flatten(chunks))|
    ensures Solid(JoinedLossy(chunks)) == Solid(Flatten(chunks)) <==>
      forall i | 0 <= i < |chunks| :: ValidUtf8(chunks[i])
  {
    hide Lossy, ValidUtf8, Solid;
    if chunks != [] {
      var first, rest := chunks[0], chunks[1..];
      SolidChunks(rest);
      SolidDecoded(first);
      SolidConcat(first, Flatten(rest));
      SolidConcat(Lossy(first), JoinedLossy(rest));
      SameHalves(Solid(first), Solid(Flatten(rest)), Solid(Lossy(first)), Solid(JoinedLossy(rest)));
      assert forall i | 0 <= i < |rest| :: rest[i] == chunks[i + 1];
      assert forall i | 0 < i < |chunks| :: chunks[i] == rest[i - 1];
    }
  }
}
