/**
 Splitting a payload's UTF-8 bytes below a byte limit, without cutting a character, so that joining the
 pieces gives the payload back.
 */
module Chunker {
  import opened Options

  type Bytes = seq<bv8>

  // ---------------------------------------------------------------- UTF-8 (RFC 3629, section 4)

  predicate Tail(b: bv8) { b & 0xC0 == 0x80 }

  predicate Within(b: bv8, low: bv8, high: bv8) { low <= b <= high }

  /** The length of the well-formed character `s` begins with, or 0. */
  function CharLength(s: Bytes): (n: nat)
    ensures n <= 4 && n <= |s|
  {
    if |s| >= 1 && s[0] <= 0x7F then 1
    else if |s| >= 2 && Within(s[0], 0xC2, 0xDF) && Tail(s[1]) then 2
    else if |s| >= 3 && Tail(s[1]) && Tail(s[2])
            && (   (s[0] == 0xE0 && s[1] >= 0xA0)
                || Within(s[0], 0xE1, 0xEC)
                || (s[0] == 0xED && s[1] <= 0x9F)
                || Within(s[0], 0xEE, 0xEF)) then 3
    else if |s| >= 4 && Tail(s[1]) && Tail(s[2]) && Tail(s[3])
            && (   (s[0] == 0xF0 && s[1] >= 0x90)
                || Within(s[0], 0xF1, 0xF3)
                || (s[0] == 0xF4 && s[1] <= 0x8F)) then 4
    else 0
  }

  predicate Valid(s: Bytes) {
    s == [] || (CharLength(s) > 0 && Valid(s[CharLength(s)..]))
  }

  /** No character of `s` is longer than the limit. */
  predicate Fits(s: Bytes, limit: nat)
    requires Valid(s)
  {
    s == [] || (CharLength(s) <= limit && Fits(s[CharLength(s)..], limit))
  }

  // ---------------------------------------------------------------- the split, as a function

  /** The inner loop: back from `k` to the nearest byte that is no continuation byte. */
  function BackUp(s: Bytes, k: nat): (j: nat)
    requires k < |s|
    ensures j <= k
  {
    if k > 0 && Tail(s[k]) then BackUp(s, k - 1) else k
  }

  /** Where the first chunk of `s` ends. */
  function Cut(s: Bytes, limit: nat): (k: nat)
    ensures k <= |s|
  {
    if |s| <= limit then |s| else BackUp(s, limit)
  }

  /** The chunks, or None when the code raises: an empty cut, or a chunk that does not decode. */
  function Split(s: Bytes, limit: nat): Option<seq<Bytes>> {
    if s == [] then Some([])
    else
      var k := Cut(s, limit);
      if k == 0 || !Valid(s[..k]) then None
      else
        match Split(s[k..], limit)
        case None => None
        case Some(rest) => Some([s[..k]] + rest)
  }

  function Join(chunks: seq<Bytes>): Bytes {
    if chunks == [] then [] else chunks[0] + Join(chunks[1..])
  }

  // ---------------------------------------------------------------- characters

  lemma CharIsLeadThenTails(s: Bytes)
    requires CharLength(s) > 0
    ensures !Tail(s[0])
    ensures forall j :: 0 < j < CharLength(s) ==> Tail(s[j])
  {
  }

  lemma CharLengthOfPrefix(s: Bytes, k: nat)
    requires 0 < CharLength(s) <= k <= |s|
    ensures CharLength(s[..k]) == CharLength(s)
  {
  }

  lemma ValidFromRest(s: Bytes, n: nat)
    requires 0 < n == CharLength(s) && Valid(s[n..])
    ensures Valid(s)
  {
  }

  /** A valid string may be cut at its end and before any byte that is no continuation byte. */
  lemma {:induction false} CutAtLead(s: Bytes, k: nat)
    requires Valid(s) && k <= |s| && (k == |s| || !Tail(s[k]))
    ensures Valid(s[..k]) && Valid(s[k..])
  {
    if k == 0 {
      assert s[0..] == s;
    } else {
      var n := CharLength(s);
      CharIsLeadThenTails(s);
      hide CharLength, Tail, Valid;
      assert n <= k;
      CharLengthOfPrefix(s, k);
      CutAtLead(s[n..], k - n);
      assert s[..k][n..] == s[n..][..k - n];
      assert s[n..][k - n..] == s[k..];
      ValidFromRest(s[..k], n);
    }
  }

  /** Going back from any byte of a valid string meets a lead byte within three steps. */
  lemma {:induction false} LeadIsNear(s: Bytes, k: nat)
    requires Valid(s) && k < |s|
    ensures !Tail(s[BackUp(s, k)]) && BackUp(s, k) + 3 >= k
  {
    var n := CharLength(s);
    CharIsLeadThenTails(s);
    if k < n {
      BackUpToStart(s, k);
    } else {
      LeadIsNear(s[n..], k - n);
      BackUpInRest(s, n, k);
    }
  }

  lemma {:induction false} BackUpToStart(s: Bytes, k: nat)
    requires k < |s| && !Tail(s[0]) && forall j :: 0 < j <= k ==> Tail(s[j])
    ensures BackUp(s, k) == 0
  {
    if k > 0 {
      BackUpToStart(s, k - 1);
    }
  }

  lemma {:induction false} BackUpInRest(s: Bytes, n: nat, k: nat)
    requires n <= k < |s| && !Tail(s[n..][BackUp(s[n..], k - n)])
    ensures BackUp(s, k) == n + BackUp(s[n..], k - n)
  {
    if Tail(s[k]) && k > n {
      BackUpInRest(s, n, k - 1);
    }
  }

  lemma FirstCharacter(s: Bytes)
    requires Valid(s) && s != []
    ensures 0 < CharLength(s) <= |s| && Valid(s[CharLength(s)..])
    ensures !Tail(s[0]) && forall j :: 0 < j < CharLength(s) ==> Tail(s[j])
  {
    CharIsLeadThenTails(s);
  }

  /** Going back from the limit passes the first character, or arrives at its start. */
  lemma BackUpPastFirst(s: Bytes, limit: nat)
    requires Valid(s) && limit < |s|
    ensures BackUp(s, limit) == 0 || BackUp(s, limit) >= CharLength(s)
    ensures BackUp(s, limit) == 0 <==> limit < CharLength(s)
  {
    FirstCharacter(s);
    hide CharLength, Tail, Valid, BackUp;
    var n := CharLength(s);
    if limit < n {
      BackUpToStart(s, limit);
    } else {
      LeadIsNear(s[n..], limit - n);
      BackUpInRest(s, n, limit);
    }
  }

  /** A cut of a valid string lies past its first character exactly when that character fits. */
  lemma CutIsPositive(s: Bytes, limit: nat)
    requires Valid(s) && s != []
    ensures Cut(s, limit) > 0 <==> CharLength(s) <= limit || |s| <= limit
    ensures Cut(s, limit) > 0 ==> Cut(s, limit) >= CharLength(s)
    ensures Valid(s[..Cut(s, limit)]) && Valid(s[Cut(s, limit)..])
    ensures |s| > limit ==> Cut(s, limit) + 3 >= limit
    ensures Cut(s, limit) <= limit
  {
    FirstCharacter(s);
    hide CharLength, Tail, Valid, BackUp;
    if |s| > limit {
      BackUpPastFirst(s, limit);
      LeadIsNear(s, limit);
      CutAtLead(s, BackUp(s, limit));
    } else {
      CutAtLead(s, |s|);
    }
  }

  /** Valid strings join to a valid string. */
  lemma {:induction false} ValidAppend(a: Bytes, b: Bytes)
    requires Valid(a) && Valid(b)
    ensures Valid(a + b)
  {
    if a == [] {
      assert a + b == b;
    } else {
      var n := CharLength(a);
      CharLengthOfLonger(a, b);
      assert (a + b)[n..] == a[n..] + b;
      hide CharLength;
      ValidAppend(a[n..], b);
    }
  }

  lemma CharLengthOfLonger(a: Bytes, b: Bytes)
    requires CharLength(a) > 0
    ensures CharLength(a + b) == CharLength(a)
  {
  }

  // ---------------------------------------------------------------- the split

  lemma {:induction false} FitsAfterCut(s: Bytes, k: nat, limit: nat)
    requires Valid(s) && k <= |s| && (k == |s| || !Tail(s[k])) && k <= limit
    ensures Valid(s[k..]) && (Fits(s, limit) <==> Fits(s[k..], limit))
  {
    hide CharLength, Tail;
    CutAtLead(s, k);
    if k == 0 {
      assert s[0..] == s;
    } else {
      var n := CharLength(s);
      FirstCharacter(s);
      hide Valid;
      FitsAfterCut(s[n..], k - n, limit);
      assert s[n..][k - n..] == s[k..];
    }
  }

  lemma CutEndsAtLead(s: Bytes, limit: nat)
    requires Valid(s) && s != []
    ensures Cut(s, limit) == |s| || !Tail(s[Cut(s, limit)])
  {
    if |s| > limit {
      LeadIsNear(s, limit);
    }
  }

  /** On valid UTF-8 the split succeeds if and only if every character fits the limit. */
  lemma {:induction false} SplitSucceedsWhenFitting(s: Bytes, limit: nat)
    requires Valid(s)
    ensures Split(s, limit).Some? <==> Fits(s, limit)
  {
    if s != [] {
      var k := Cut(s, limit);
      CutIsPositive(s, limit);
      CutEndsAtLead(s, limit);
      if k > 0 {
        FitsAfterCut(s, k, limit);
        SplitSucceedsWhenFitting(s[k..], limit);
      }
    }
  }

  /** Whatever the bytes, the split succeeds only if they are valid. */
  lemma {:induction false} SplitMeansValid(s: Bytes, limit: nat)
    requires Split(s, limit).Some?
    ensures Valid(s) && Fits(s, limit)
  {
    if s != [] {
      var k := Cut(s, limit);
      SplitMeansValid(s[k..], limit);
      ValidAppend(s[..k], s[k..]);
      assert s == s[..k] + s[k..];
    }
    SplitSucceedsWhenFitting(s, limit);
  }

  lemma {:induction false} FourIsEnough(s: Bytes, limit: nat)
    requires Valid(s) && limit >= 4
    ensures Fits(s, limit)
  {
    if s != [] {
      FourIsEnough(s[CharLength(s)..], limit);
    }
  }

  /** Chunks are non-empty, within the limit, valid; all but the last come within three bytes of the limit. */
  ghost predicate WellCut(chunks: seq<Bytes>, limit: nat) {
    && (forall c :: c in chunks ==> 0 < |c| <= limit && Valid(c))
    && (forall i :: 0 <= i < |chunks| - 1 ==> |chunks[i]| + 3 >= limit)
  }

  lemma NothingIsWellCut(limit: nat)
    ensures WellCut([], limit)
  {
  }

  lemma JoinPrepend(chunk: Bytes, rest: seq<Bytes>)
    ensures Join([chunk] + rest) == chunk + Join(rest)
  {
    assert ([chunk] + rest)[1..] == rest;
  }

  lemma WellCutPrepend(chunk: Bytes, rest: seq<Bytes>, limit: nat)
    requires WellCut(rest, limit) && 0 < |chunk| <= limit && Valid(chunk) && (rest != [] ==> |chunk| + 3 >= limit)
    ensures WellCut([chunk] + rest, limit)
  {
    var chunks := [chunk] + rest;
    forall c | c in chunks ensures 0 < |c| <= limit && Valid(c) {
      assert c == chunk || c in rest;
    }
  }

  /** Whatever the bytes, chunks that come out join to what went in; on valid bytes they are well cut too. */
  lemma {:induction false} SplitJoins(s: Bytes, limit: nat)
    requires Split(s, limit).Some?
    ensures Join(Split(s, limit).value) == s
    ensures s != [] ==> Split(s, limit).value != []
    ensures Valid(s) ==> WellCut(Split(s, limit).value, limit)
  {
    hide CharLength, Tail, Valid, WellCut;
    if s == [] {
      assert Split(s, limit).value == [];
      NothingIsWellCut(limit);
    } else {
      var k := Cut(s, limit);
      SplitJoins(s[k..], limit);
      var rest := Split(s[k..], limit).value;
      JoinPrepend(s[..k], rest);
      if Valid(s) {
        CutIsPositive(s, limit);
        assert |s| <= limit ==> rest == [];
        WellCutPrepend(s[..k], rest, limit);
      }
    }
  }

  /** The round trip: valid UTF-8 and a limit of at least four always split, well cut, and join back. */
  lemma RoundTrip(s: Bytes, limit: nat)
    requires Valid(s) && limit >= 4
    ensures Split(s, limit).Some?
    ensures WellCut(Split(s, limit).value, limit) && Join(Split(s, limit).value) == s
  {
    FourIsEnough(s, limit);
    SplitSucceedsWhenFitting(s, limit);
    SplitJoins(s, limit);
  }

  /** Four is the least limit with that property: below it a single four-byte character cannot be split. */
  lemma FourIsNeeded(limit: nat)
    requires limit < 4
    ensures var s: Bytes := [0xF0, 0x9F, 0x98, 0x80]; Valid(s) && Split(s, limit) == None
  {
    var s: Bytes := [0xF0, 0x9F, 0x98, 0x80];
    assert CharLength(s) == 4 && s[4..] == [];
    assert !Fits(s, limit);
    SplitSucceedsWhenFitting(s, limit);
  }

  // ---------------------------------------------------------------- the fewest chunks

  /** A byte string may be cut here: at its ends, or before a byte that is no continuation byte. */
  predicate Boundary(s: Bytes, k: nat) { k == |s| || (k < |s| && !Tail(s[k])) }

  lemma {:induction false} BackUpIsLast(s: Bytes, k: nat, j: nat)
    requires k < |s| && BackUp(s, k) < j <= k
    ensures Tail(s[j])
  {
    if j < k {
      BackUpIsLast(s, k - 1, j);
    }
  }

  /** A cut goes to the last boundary within the limit. */
  lemma CutIsLastBoundary(s: Bytes, limit: nat, j: nat)
    requires j <= limit && Boundary(s, j)
    ensures j <= Cut(s, limit)
    ensures Valid(s) ==> Boundary(s, Cut(s, limit)) && Cut(s, limit) <= limit
  {
    if |s| > limit {
      if j > BackUp(s, limit) {
        BackUpIsLast(s, limit, j);
      }
      if Valid(s) {
        LeadIsNear(s, limit);
      }
    }
  }

  /** Some way of cutting into valid pieces within the limit. */
  ghost predicate Pieces(chunks: seq<Bytes>, limit: nat) {
    forall c :: c in chunks ==> |c| <= limit && Valid(c)
  }

  lemma {:induction false} PiecesJoinToValid(chunks: seq<Bytes>, limit: nat)
    requires Pieces(chunks, limit)
    ensures Valid(Join(chunks))
  {
    if chunks != [] {
      assert chunks[0] in chunks && forall c :: c in chunks[1..] ==> c in chunks;
      PiecesJoinToValid(chunks[1..], limit);
      ValidAppend(chunks[0], Join(chunks[1..]));
    }
  }

  lemma StartsAtLead(s: Bytes)
    requires Valid(s)
    ensures s == [] || !Tail(s[0])
  {
    if s != [] { CharIsLeadThenTails(s); }
  }

  lemma PieceEndsAtBoundary(s: Bytes, chunks: seq<Bytes>, limit: nat)
    requires chunks != [] && Pieces(chunks, limit) && Join(chunks) == s
    ensures |chunks[0]| <= |s| && Boundary(s, |chunks[0]|) && s[|chunks[0]|..] == Join(chunks[1..])
    ensures Pieces(chunks[1..], limit) && Valid(s)
  {
    PiecesJoinToValid(chunks, limit);
    assert forall c :: c in chunks[1..] ==> c in chunks;
    PiecesJoinToValid(chunks[1..], limit);
    StartsAtLead(Join(chunks[1..]));
  }

  /** Every character of the joined bytes lies within one piece. */
  lemma {:induction false} PiecesFit(chunks: seq<Bytes>, limit: nat)
    requires Pieces(chunks, limit)
    ensures Valid(Join(chunks)) && Fits(Join(chunks), limit)
  {
    PiecesJoinToValid(chunks, limit);
    if chunks != [] {
      assert chunks[0] in chunks && forall c :: c in chunks[1..] ==> c in chunks;
      PiecesFit(chunks[1..], limit);
      PieceEndsAtBoundary(Join(chunks), chunks, limit);
      FitsAfterCut(Join(chunks), |chunks[0]|, limit);
    }
  }

  /** What is left of `s` after `n` bytes, seen from a later position. */
  lemma RestIsTail(s: Bytes, n: nat, k: nat)
    requires n <= k <= |s|
    ensures s[n..][k - n..] == s[k..] && (Boundary(s, k) <==> Boundary(s[n..], k - n))
  {
  }

  lemma BoundaryCuts(s: Bytes, k: nat)
    requires Valid(s) && Boundary(s, k)
    ensures Valid(s[..k]) && Valid(s[k..])
  {
    CutAtLead(s, k);
  }

  /** The next cut from `ahead` goes at least as far as a boundary `n` within the limit of an earlier position. */
  lemma NextCutIsAhead(s: Bytes, limit: nat, ahead: nat, n: nat)
    requires Valid(s) && ahead < n <= |s| && n <= limit && Boundary(s, ahead) && Boundary(s, n)
    requires Split(s[ahead..], limit).Some?
    ensures var k := Cut(s[ahead..], limit);
            && n <= ahead + k <= |s| && Boundary(s, ahead + k)
            && Split(s[ahead + k..], limit).Some?
            && |Split(s[ahead..], limit).value| == 1 + |Split(s[ahead + k..], limit).value|
  {
    hide CharLength, Tail, Valid, Cut, Boundary;
    var left, k := s[ahead..], Cut(s[ahead..], limit);
    BoundaryCuts(s, ahead);
    RestIsTail(s, ahead, n);
    CutIsLastBoundary(left, limit, n - ahead);
    RestIsTail(s, ahead, ahead + k);
    assert left[k..] == s[ahead + k..];
  }

  /** A split that is ahead of some other pieces stays ahead, and so needs no more of them. */
  lemma {:induction false} SplitStaysAhead(s: Bytes, limit: nat, ahead: nat, chunks: seq<Bytes>)
    requires Pieces(chunks, limit) && Join(chunks) == s && ahead <= |s| && Boundary(s, ahead)
    requires Split(s[ahead..], limit).Some?
    ensures |Split(s[ahead..], limit).value| <= |chunks|
    decreases |chunks|
  {
    hide Valid, Tail, CharLength, Cut, Boundary;
    if ahead == |s| {
      assert s[ahead..] == [];
    } else {
      PieceEndsAtBoundary(s, chunks, limit);
      assert chunks[0] in chunks;
      var n, rest := |chunks[0]|, s[|chunks[0]|..];
      if n <= ahead {
        RestIsTail(s, n, ahead);
        SplitStaysAhead(rest, limit, ahead - n, chunks[1..]);
      } else {
        hide Split;
        var next := ahead + Cut(s[ahead..], limit);
        NextCutIsAhead(s, limit, ahead, n);
        RestIsTail(s, n, next);
        SplitStaysAhead(rest, limit, next - n, chunks[1..]);
      }
    }
  }

  /** No other way of cutting the payload into valid pieces within the limit gets by with fewer. */
  lemma SplitIsShortest(s: Bytes, limit: nat, chunks: seq<Bytes>)
    requires Pieces(chunks, limit) && Join(chunks) == s
    ensures Split(s, limit).Some? && |Split(s, limit).value| <= |chunks|
  {
    PiecesFit(chunks, limit);
    SplitSucceedsWhenFitting(s, limit);
    StartsAtLead(s);
    assert s[0..] == s;
    SplitStaysAhead(s, limit, 0, chunks);
  }

  // ---------------------------------------------------------------- the loops

  /** The inner loop: the end of the chunk that begins at `start`. */
  method ChunkEnd(encoded: Bytes, start: nat, limit: nat) returns (end: nat)
    requires start < |encoded|
    ensures start <= end <= |encoded| && end - start == Cut(encoded[start..], limit)
  {
    end := if start + limit < |encoded| then start + limit else |encoded|;
    ghost var rest := encoded[start..];
    if end < |encoded| {
      while end > start && encoded[end] & 0xC0 == 0x80
        invariant start <= end < |encoded| && start + limit < |encoded|
        invariant BackUp(rest, limit) == BackUp(rest, end - start)
      {
        assert rest[end - start] == encoded[end];
        end := end - 1;
      }
      assert rest[end - start] == encoded[end];
    }
  }

  function Prepend(done: seq<Bytes>, rest: Option<seq<Bytes>>): Option<seq<Bytes>> {
    match rest
    case None => None
    case Some(chunks) => Some(done + chunks)
  }

  lemma PrependNothing(rest: Option<seq<Bytes>>)
    ensures Prepend([], rest) == rest
  {
    if rest.Some? {
      assert [] + rest.value == rest.value;
    }
  }

  lemma SplitStep(encoded: Bytes, start: nat, end: nat, limit: nat, done: seq<Bytes>)
    requires start < |encoded| && start <= end <= |encoded| && end - start == Cut(encoded[start..], limit)
    ensures Prepend(done, Split(encoded[start..], limit)) ==
            if end == start || !Valid(encoded[start..end]) then None
            else Prepend(done + [encoded[start..end]], Split(encoded[end..], limit))
  {
    var rest := encoded[start..];
    assert rest[..end - start] == encoded[start..end];
    assert rest[end - start..] == encoded[end..];
    if Split(encoded[end..], limit).Some? {
      var tail := Split(encoded[end..], limit).value;
      assert done + ([encoded[start..end]] + tail) == done + [encoded[start..end]] + tail;
    }
  }

  /** `payload_json_chunks` on the encoded payload. */
  method PayloadChunks(encoded: Bytes, limit: nat) returns (reply: Option<seq<Bytes>>)
    ensures reply == Split(encoded, limit)
  {
    var chunks: seq<Bytes> := [];
    var start := 0;
    assert encoded[0..] == encoded;
    PrependNothing(Split(encoded, limit));
    while start < |encoded|
      invariant 0 <= start <= |encoded|
      invariant Split(encoded, limit) == Prepend(chunks, Split(encoded[start..], limit))
      decreases |encoded| - start
    {
      var end := ChunkEnd(encoded, start, limit);
      SplitStep(encoded, start, end, limit, chunks);
      if end == start || !Valid(encoded[start..end]) {
        return None;
      }
      chunks := chunks + [encoded[start..end]];
      start := end;
    }
    assert encoded[start..] == [] && chunks + [] == chunks;
    reply := Some(chunks);
  }
}
