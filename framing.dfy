/** Telegram framing on the RS-485 bus: 0x7E, a length byte n, n - 2 bytes of telegram, a
    checksum byte, 0x7E. `Receive` is the reassembler that consumes one byte at a time;
    `Frame` is what the sender puts on the wire. */
module Framing {
  import opened Bytes
  import opened CircularBuffer
  import opened Crc

  const DELIMITER: byte := 0x7E
  /** The template parameter of both queues. */
  const QUEUE_SIZE: nat := 100

  datatype Outcome =
    | Dropped          // no start delimiter yet: the queue is cleared
    | DoubleDelimiter  // the second byte is a delimiter: the last byte is removed, the new one lost
    | Stored           // appended, telegram not complete
    | CrcMismatch      // complete, but the checksum does not match: the queue is cleared
    | Accepted(frame: seq<byte>)  // complete and checksummed: `frame` is dispatched, then cleared

  datatype RxStep = RxStep(queue: seq<byte>, outcome: Outcome)

  /** The completion test, applied to the queue after the byte `b` has been appended. */
  predicate Completes(q: seq<byte>, b: byte)
  {
    b == DELIMITER && |q| > 2 && |q| >= At(q, 1) as int + 2
  }

  /** The checksum over everything between the leading delimiter and the last two bytes
      equals the byte the length byte points at. */
  predicate CrcMatches(q: seq<byte>)
  {
    Crc8(Window(q, true)) == At(q, At(q, 1) as int)
  }

  /** `read_serial` on the input queue `q` and a received byte `b`. A front read of an empty
      queue is taken as "not a delimiter". */
  function Receive(q: seq<byte>, b: byte): (r: RxStep)
    ensures |q| <= QUEUE_SIZE + 1 ==> |r.queue| <= QUEUE_SIZE + 1
    ensures r.outcome.Accepted? || r.outcome == CrcMismatch || r.outcome == Dropped ==> r.queue == []
    ensures r.outcome.Accepted? || r.outcome == CrcMismatch ==> b == DELIMITER
    ensures r.outcome.Accepted? ==> CrcMatches(r.outcome.frame)
  {
    if (q == [] || q[0] != DELIMITER) && b != DELIMITER then RxStep([], Dropped)
    else if |q| >= 2 && q[1] == DELIMITER then RxStep(q[..|q| - 1], DoubleDelimiter)
    else
      var pushed := Pushed(q, b, QUEUE_SIZE);
      PushedKeepsNewest(q, b, QUEUE_SIZE);
      if !Completes(pushed, b) then RxStep(pushed, Stored)
      else if !CrcMatches(pushed) then RxStep([], CrcMismatch)
      else RxStep([], Accepted(pushed))
  }

  /** The queue after feeding `bs`, one byte after the other. */
  function Feed(q: seq<byte>, bs: seq<byte>): seq<byte>
  {
    if bs == [] then q else Receive(Feed(q, bs[..|bs| - 1]), bs[|bs| - 1]).queue
  }

  lemma {:induction false} FeedConcat(q: seq<byte>, a: seq<byte>, b: seq<byte>)
    ensures Feed(q, a + b) == Feed(Feed(q, a), b)
    decreases |b|
  {
    if b == [] {
      assert a + b == a;
    } else {
      assert (a + b)[..|a + b| - 1] == a + b[..|b| - 1];
      FeedConcat(q, a, b[..|b| - 1]);
    }
  }

  // ---------------------------------------------------------------------------
  // The reassembler's rules.

  /** A byte other than the delimiter is never stored in an empty queue. */
  lemma NonDelimiterAtEmptyQueueDropped(b: byte)
    requires b != DELIMITER
    ensures Receive([], b) == RxStep([], Dropped)
  {
  }

  /** Completion happens only on a delimiter, with more than two bytes, once the length byte
      is covered; the queue then holds at least `length + 2` bytes, so the "incomplete
      packet" test that follows can never succeed. */
  lemma CompletionRequiresLength(q: seq<byte>, b: byte)
    requires var o := Receive(q, b).outcome; o.Accepted? || o == CrcMismatch
    ensures var f := Pushed(q, b, QUEUE_SIZE);
      && b == DELIMITER && |f| > 2 && |f| >= At(f, 1) as int + 2
      && !(|f| - 2 < At(f, 1) as int)
      && (Receive(q, b).outcome.Accepted? ==> Receive(q, b).outcome.frame == f)
  {
  }

  /** A truncated telegram followed by a delimiter is not cleared: the delimiter is stored and
      the reassembler keeps waiting for the declared length. */
  lemma TruncatedFrameKept(q: seq<byte>)
    requires 2 <= |q| <= QUEUE_SIZE && q[0] == DELIMITER && q[1] != DELIMITER
    requires |q| + 1 < q[1] as int + 2
    ensures Receive(q, DELIMITER) == RxStep(q + [DELIMITER], Stored)
  {
    PushedKeepsNewest(q, DELIMITER, QUEUE_SIZE);
  }

  /** After a doubled delimiter the next byte, whatever it is, is lost. */
  lemma DoubleDelimiterLosesNextByte(x: byte)
    ensures Receive([DELIMITER], DELIMITER) == RxStep([DELIMITER, DELIMITER], Stored)
    ensures Receive([DELIMITER, DELIMITER], x) == RxStep([DELIMITER], DoubleDelimiter)
    ensures Feed([], [DELIMITER, DELIMITER, x]) == [DELIMITER]
  {
    assert [DELIMITER, DELIMITER, x][..2] == [DELIMITER, DELIMITER];
    assert [DELIMITER, DELIMITER][..1] == [DELIMITER];
    assert [DELIMITER][..0] == [];
    assert Feed([], [DELIMITER]) == [DELIMITER];
    assert Feed([], [DELIMITER, DELIMITER]) == [DELIMITER, DELIMITER];
  }

  function Delimiters(n: nat): (s: seq<byte>)
    ensures |s| == n && forall i :: 0 <= i < n ==> s[i] == DELIMITER
  {
    if n == 0 then [] else Delimiters(n - 1) + [DELIMITER]
  }

  lemma FeedLast(q: seq<byte>, bs: seq<byte>, b: byte)
    ensures Feed(q, bs + [b]) == Receive(Feed(q, bs), b).queue
  {
    assert (bs + [b])[..|bs|] == bs;
  }

  /** Behind a delimiter, a run of an even number of further delimiters leaves a single
      delimiter; an odd run leaves two, so the byte after it (in a telegram, the length)
      is lost. */
  lemma {:induction false} DelimiterRuns(n: nat)
    ensures Feed([DELIMITER], Delimiters(2 * n)) == [DELIMITER]
    ensures Feed([DELIMITER], Delimiters(2 * n + 1)) == [DELIMITER, DELIMITER]
  {
    if n > 0 {
      DelimiterRuns(n - 1);
      FeedLast([DELIMITER], Delimiters(2 * n - 1), DELIMITER);
      DoubleDelimiterLosesNextByte(DELIMITER);
    }
    FeedLast([DELIMITER], Delimiters(2 * n), DELIMITER);
    DoubleDelimiterLosesNextByte(DELIMITER);
  }

  // ---------------------------------------------------------------------------
  // Well-formed telegrams.

  /** A telegram as it appears on the wire: delimiters at both ends, at most 101 bytes (what
      the input queue can hold) and a length byte that counts everything but the
      delimiters. */
  predicate WellFramed(g: seq<byte>)
  {
    4 <= |g| <= QUEUE_SIZE + 1 && g[0] == DELIMITER && g[1] as int == |g| - 2
    && g[|g| - 1] == DELIMITER
  }

  /** Every byte of a well-framed telegram but the last is stored. */
  lemma WellFramedStored(g: seq<byte>, i: nat)
    requires WellFramed(g) && i < |g| - 1
    ensures Receive(g[..i], g[i]) == RxStep(g[..i + 1], Stored)
  {
    PushedKeepsNewest(g[..i], g[i], QUEUE_SIZE);
    assert g[..i] + [g[i]] == g[..i + 1];
    if i >= 2 {
      assert g[..i][1] == g[1];
    }
    assert At(g[..i + 1], 1) == if i >= 1 then g[1] else 0;
  }

  /** The closing delimiter of a well-framed telegram completes it; it is accepted exactly
      when its checksum byte matches. */
  lemma WellFramedLast(g: seq<byte>)
    requires WellFramed(g)
    ensures var n := |g|;
      Receive(g[..n - 1], DELIMITER)
      == RxStep([], if Crc8(g[1..n - 2]) == g[n - 2] then Accepted(g) else CrcMismatch)
  {
    var n := |g|;
    PushedKeepsNewest(g[..n - 1], DELIMITER, QUEUE_SIZE);
    assert g[..n - 1] + [DELIMITER] == g;
    WindowInbound(g);
  }

  lemma {:induction false} FeedWellFramedPrefix(g: seq<byte>, i: nat)
    requires WellFramed(g) && i < |g|
    ensures Feed([], g[..i]) == g[..i]
  {
    if i > 0 {
      FeedWellFramedPrefix(g, i - 1);
      assert g[..i][..i - 1] == g[..i - 1];
      WellFramedStored(g, i - 1);
    }
  }

  /** `rs485_send`'s wire image of a telegram `p`: delimiters, the length `|p| + 2`, `p`, and
      the checksum of the length and `p`. */
  function Frame(p: seq<byte>): (f: seq<byte>)
    requires |p| <= QUEUE_SIZE - 3
    ensures |f| == |p| + 4 && WellFramed(f) && f[2..|f| - 2] == p
    ensures Crc8(f[1..|f| - 2]) == f[|f| - 2]
  {
    var len := (|p| + 2) as byte;
    ByteOfNat(|p| + 2);
    var f := [DELIMITER, len] + p + [Crc8([len] + p), DELIMITER];
    assert f[1..|f| - 2] == [len] + p;
    assert f[2..|f| - 2] == p;
    f
  }

  /** The wire image byte by byte. */
  lemma FrameLayout(p: seq<byte>)
    requires |p| <= QUEUE_SIZE - 3
    ensures var len := (|p| + 2) as byte;
      Frame(p) == [DELIMITER] + ([len] + p + [Crc8([len] + p)]) + [DELIMITER]
  {
  }

  /** Fed into an empty queue, the wire image of any telegram is stored byte by byte and
      accepted, as itself, on its closing delimiter. */
  lemma FrameAccepted(p: seq<byte>)
    requires |p| <= QUEUE_SIZE - 3
    ensures var f := Frame(p);
      && Feed([], f[..|f| - 1]) == f[..|f| - 1]
      && Receive(f[..|f| - 1], DELIMITER) == RxStep([], Accepted(f))
      && Feed([], f) == []
  {
    var f := Frame(p);
    FeedWellFramedPrefix(f, |f| - 1);
    WellFramedLast(f);
    assert f[..|f|][..|f| - 1] == f[..|f| - 1];
    assert f[..|f|] == f;
  }

  /** Altering one byte of a telegram between its length byte and its closing delimiter
      keeps it well framed and breaks its checksum. */
  lemma CorruptedChecksum(p: seq<byte>, k: nat, x: byte)
    requires |p| <= QUEUE_SIZE - 3
    requires 2 <= k <= |p| + 2 && x != 0
    ensures var g := Frame(p)[k := Frame(p)[k] ^ x];
      WellFramed(g) && Crc8(g[1..|g| - 2]) != g[|g| - 2]
  {
    CorruptedTelegram(Frame(p), k, x);
  }

  lemma CorruptedTelegram(f: seq<byte>, k: nat, x: byte)
    requires WellFramed(f) && Crc8(f[1..|f| - 2]) == f[|f| - 2]
    requires 2 <= k <= |f| - 2 && x != 0
    ensures var g := f[k := f[k] ^ x];
      WellFramed(g) && Crc8(g[1..|g| - 2]) != g[|g| - 2]
  {
    StillFramed(f, k, f[k] ^ x);
    if k < |f| - 2 {
      CorruptedData(f, k, x);
    } else {
      CorruptedCrcByte(f, x);
    }
  }

  /** Only the delimiters and the length byte make a telegram well framed. */
  lemma StillFramed(f: seq<byte>, k: nat, v: byte)
    requires WellFramed(f) && 2 <= k < |f| - 1
    ensures WellFramed(f[k := v])
  {
    var g := f[k := v];
    assert g[1] == f[1];
  }

  lemma CorruptedData(f: seq<byte>, k: nat, x: byte)
    requires 4 <= |f| && 2 <= k < |f| - 2 && x != 0
    requires Crc8(f[1..|f| - 2]) == f[|f| - 2]
    ensures var g := f[k := f[k] ^ x]; Crc8(g[1..|g| - 2]) != g[|g| - 2]
  {
    var w := f[1..|f| - 2];
    SliceOfUpdate(f, k, f[k] ^ x, 1, |f| - 2);
    ByteErrorDetected(w, k - 1, x);
  }

  /** Updating a position inside a slice commutes with taking the slice. */
  lemma SliceOfUpdate(f: seq<byte>, k: nat, v: byte, lo: nat, hi: nat)
    requires lo <= k < hi <= |f|
    ensures f[k := v][lo..hi] == f[lo..hi][k - lo := v]
  {
  }

  lemma CorruptedCrcByte(f: seq<byte>, x: byte)
    requires 4 <= |f| && x != 0
    requires Crc8(f[1..|f| - 2]) == f[|f| - 2]
    ensures var g := f[|f| - 2 := f[|f| - 2] ^ x]; Crc8(g[1..|g| - 2]) != g[|g| - 2]
  {
    var n := |f|;
    var g := f[n - 2 := f[n - 2] ^ x];
    assert g[1..n - 2] == f[1..n - 2];
  }

  /** A telegram with any one of its bytes from position 2 to `|f| - 2` altered (any non-zero
      error pattern `x`) is received completely and rejected: the queue is cleared and
      nothing is dispatched. */
  lemma CorruptedFrameRejected(p: seq<byte>, k: nat, x: byte)
    requires |p| <= QUEUE_SIZE - 3
    requires 2 <= k <= |p| + 2 && x != 0
    ensures var g := Frame(p)[k := Frame(p)[k] ^ x];
      && Feed([], g[..|g| - 1]) == g[..|g| - 1]
      && Receive(g[..|g| - 1], DELIMITER) == RxStep([], CrcMismatch)
  {
    var g := Frame(p)[k := Frame(p)[k] ^ x];
    CorruptedChecksum(p, k, x);
    FeedWellFramedPrefix(g, |g| - 1);
    WellFramedLast(g);
  }

  /** Fed into an empty queue, anything that opens with a delimiter is fed as the rest
      behind a stored delimiter. */
  lemma FeedAfterOpening(g: seq<byte>)
    requires |g| >= 1 && g[0] == DELIMITER
    ensures Feed([], g) == Feed([DELIMITER], g[1..])
  {
    assert g[..1] == [DELIMITER];
    assert g[..1] + g[1..] == g;
    assert Feed([], [DELIMITER]) == [DELIMITER] by {
      assert [DELIMITER][..0] == [];
    }
    FeedConcat([], g[..1], g[1..]);
  }

  /** Two extra delimiters before a telegram are absorbed: the telegram is received as if
      they were not there. */
  lemma LeadingDelimiterPair(g: seq<byte>)
    requires WellFramed(g)
    ensures Feed([], [DELIMITER, DELIMITER] + g) == Feed([], g)
  {
    var h := [DELIMITER, DELIMITER] + g;
    assert h[0] == DELIMITER;
    assert h[1..] == [DELIMITER, DELIMITER] + g[1..];
    FeedAfterOpening(h);
    DelimiterRuns(1);
    assert Delimiters(2) == [DELIMITER, DELIMITER];
    FeedConcat([DELIMITER], [DELIMITER, DELIMITER], g[1..]);
    FeedAfterOpening(g);
  }

  /** A single extra delimiter before a telegram costs the telegram its length byte. */
  lemma LeadingDelimiterSingle(g: seq<byte>)
    requires WellFramed(g)
    ensures Feed([], [DELIMITER] + g[..2]) == [DELIMITER]
  {
    assert [DELIMITER] + g[..2] == [DELIMITER, DELIMITER, g[1]];
    DoubleDelimiterLosesNextByte(g[1]);
  }
}
