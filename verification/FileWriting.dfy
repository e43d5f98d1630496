/**
 Writing to an open file in pieces that fit the log: the loop is one write of all the bytes, up to the first piece
 that the inode refuses or does not take in full. The inode itself may take all, a part or nothing of a piece.
 */
module FileWriting {

  const LOGSIZE := 10
  const BLOCK := 512

  /** What a byte is does not matter here. */
  type byte = int

  /** The longest piece that is written in one transaction. */
  function MaxPiece(logSize: nat): int {
    (logSize - 1 - 1 - 2) / 2 * BLOCK
  }

  /** The length of the next piece, if `rest` bytes are still to be written. */
  function PieceSize(rest: nat): (n: nat)
    ensures n <= rest && n <= MaxPiece(LOGSIZE) && (rest > 0 ==> n > 0) && (n < rest ==> n == MaxPiece(LOGSIZE))
  {
    if rest > MaxPiece(LOGSIZE) then MaxPiece(LOGSIZE) else rest
  }

  /** The bytes of a file after `data` was written to it at `off`. */
  function Written(content: seq<byte>, off: nat, data: seq<byte>): (r: seq<byte>)
    requires off <= |content|
  {
    content[..off] + data + if off + |data| <= |content| then content[off + |data|..] else []
  }

  lemma WrittenAt(content: seq<byte>, off: nat, data: seq<byte>, i: nat)
    requires off <= |content|
    ensures |Written(content, off, data)| == if off + |data| <= |content| then |content| else off + |data|
    ensures i < |Written(content, off, data)| ==>
      Written(content, off, data)[i] == if off <= i < off + |data| then data[i - off] else content[i]
  {}

  /** Two writes one after the other are one write. */
  lemma WrittenTwice(content: seq<byte>, off: nat, a: seq<byte>, b: seq<byte>)
    requires off <= |content|
    ensures off + |a| <= |Written(content, off, a)|
    ensures Written(Written(content, off, a), off + |a|, b) == Written(content, off, a + b)
  {
    var one, two := Written(content, off, a + b), Written(Written(content, off, a), off + |a|, b);
    WrittenAt(content, off, a, 0);
    WrittenAt(content, off, a + b, 0);
    WrittenAt(Written(content, off, a), off + |a|, b, 0);
    forall i | 0 <= i < |one| ensures one[i] == two[i] {
      WrittenAt(content, off, a + b, i);
      WrittenAt(Written(content, off, a), off + |a|, b, i);
      WrittenAt(content, off, a, i);
    }
  }

  /** Blocks that `n` bytes at offset `off` lie in. */
  function Blocks(off: nat, n: nat): int
    requires n > 0
  {
    (off + n - 1) / BLOCK - off / BLOCK + 1
  }

  /**
   A piece fits the log wherever it starts: its data blocks, as many allocation blocks, the inode and the indirect
   block. For any log with room for more than the overhead.
   */
  lemma PieceFitsLog(logSize: nat, off: nat, n: nat)
    requires logSize >= 4 && 0 < n <= MaxPiece(logSize)
    ensures 2 * Blocks(off, n) + 2 <= logSize
    ensures logSize == LOGSIZE ==> Blocks(off, n) <= 4
  {
    var k := (logSize - 4) / 2;
    var first, rest := off / BLOCK, off % BLOCK;
    assert off + n - 1 < (first + k + 1) * BLOCK;
    assert (off + n - 1) / BLOCK <= first + k;
  }

  /** No longer piece of whole blocks would do: one block more, started inside a block, overruns the log. */
  lemma PieceIsLongest(logSize: nat)
    requires logSize >= 4
    ensures MaxPiece(logSize) % BLOCK == 0 && 2 * Blocks(1, MaxPiece(logSize) + BLOCK) + 2 > logSize
  {
    var k := (logSize - 4) / 2;
    assert MaxPiece(logSize) == k * BLOCK;
    assert (1 + (k * BLOCK + BLOCK) - 1) / BLOCK == k + 1;
  }

  // ---------------------------------------------------------------- the inode

  /** What writei answers to `n` bytes at `off`: refusal, or how many it takes; it never leaves a hole. */
  type Writer = (seq<byte>, nat, nat) -> int

  function Amount(writer: Writer, content: seq<byte>, off: nat, n: nat): (r: int)
    ensures -1 <= r <= n && (r >= 0 ==> off <= |content|)
  {
    if off > |content| || writer(content, off, n) < 0 then -1
    else if writer(content, off, n) > n then n
    else writer(content, off, n)
  }

  class Disk {
    var content: seq<byte>
    const writer: Writer

    constructor (content: seq<byte>, writer: Writer)
      ensures this.content == content && this.writer == writer
    {
      this.content := content;
      this.writer := writer;
    }

    /** writei, for reasons of its own: all of `data`, a part of it, or nothing. */
    method WriteI(data: seq<byte>, off: nat) returns (r: int)
      modifies this
      ensures r == Amount(writer, old(content), off, |data|)
      ensures content == if r >= 0 then Written(old(content), off, data[..r]) else old(content)
    {
      r := Amount(writer, content, off, |data|);
      if r >= 0 {
        content := Written(content, off, data[..r]);
      }
    }
  }

  // ---------------------------------------------------------------- what the loop amounts to

  /** How many of the bytes get written: pieces until all are, or until one is refused or falls short. */
  ghost function Accepted(writer: Writer, content: seq<byte>, off: nat, data: seq<byte>): (k: nat)
    ensures k <= |data|
    decreases |data|
  {
    var n := PieceSize(|data|);
    var r := Amount(writer, content, off, n);
    if data == [] || r < 0 then 0
    else if r != n then r
    else n + Accepted(writer, Written(content, off, data[..n]), off + n, data[n..])
  }

  /** A piece falls short before one is refused. */
  ghost predicate FallsShort(writer: Writer, content: seq<byte>, off: nat, data: seq<byte>)
    decreases |data|
  {
    var n := PieceSize(|data|);
    var r := Amount(writer, content, off, n);
    data != [] && r >= 0 && (r != n || FallsShort(writer, Written(content, off, data[..n]), off + n, data[n..]))
  }

  ghost predicate TakesAll(writer: Writer) {
    forall c, o, n :: writer(c, o, n) >= n
  }

  lemma {:induction false} AllAccepted(writer: Writer, content: seq<byte>, off: nat, data: seq<byte>)
    requires off <= |content| && TakesAll(writer)
    ensures Accepted(writer, content, off, data) == |data| && !FallsShort(writer, content, off, data)
    decreases |data|
  {
    hide MaxPiece;
    if data != [] {
      var n := PieceSize(|data|);
      WrittenAt(content, off, data[..n], 0);
      AllAccepted(writer, Written(content, off, data[..n]), off + n, data[n..]);
    }
  }

  /** The first `k` bytes of `data` have been written, as if at once. */
  ghost predicate Wrote(c0: seq<byte>, o0: nat, data: seq<byte>, k: nat, content: seq<byte>) {
    && k <= |data|
    && if k == 0 then content == c0 else o0 <= |c0| && content == Written(c0, o0, data[..k])
  }

  /** After `i` bytes in full pieces, the rest is up to the loop. */
  ghost predicate Progress(writer: Writer, c0: seq<byte>, o0: nat, data: seq<byte>, i: nat, content: seq<byte>) {
    && Wrote(c0, o0, data, i, content)
    && Accepted(writer, c0, o0, data) == i + Accepted(writer, content, o0 + i, data[i..])
    && FallsShort(writer, c0, o0, data) == FallsShort(writer, content, o0 + i, data[i..])
  }

  lemma ProgressStarts(writer: Writer, c0: seq<byte>, o0: nat, data: seq<byte>)
    ensures Progress(writer, c0, o0, data, 0, c0)
  {
    assert data[0..] == data;
  }

  lemma ProgressEnds(writer: Writer, c0: seq<byte>, o0: nat, data: seq<byte>, content: seq<byte>)
    requires Progress(writer, c0, o0, data, |data|, content)
    ensures Accepted(writer, c0, o0, data) == |data| && !FallsShort(writer, c0, o0, data)
    ensures Wrote(c0, o0, data, |data|, content)
  {}

  lemma WroteMore(c0: seq<byte>, o0: nat, data: seq<byte>, i: nat, content: seq<byte>, r: nat)
    requires Wrote(c0, o0, data, i, content) && i + r <= |data| && o0 + i <= |content|
    ensures Wrote(c0, o0, data, i + r, Written(content, o0 + i, data[i..i + r]))
  {
    if r == 0 {
      assert data[i..i] == [] && Written(content, o0 + i, []) == content;
    } else if i > 0 {
      WrittenTwice(c0, o0, data[..i], data[i..i + r]);
      hide Written;
      assert data[..i] + data[i..i + r] == data[..i + r];
    } else {
      assert data[0..r] == data[..r];
    }
  }

  lemma PieceTaken(writer: Writer, c0: seq<byte>, o0: nat, data: seq<byte>, i: nat, content: seq<byte>, n: nat)
    requires Progress(writer, c0, o0, data, i, content) && i < |data| && n == PieceSize(|data| - i)
    requires Amount(writer, content, o0 + i, n) == n
    ensures Progress(writer, c0, o0, data, i + n, Written(content, o0 + i, data[i..i + n]))
  {
    WroteMore(c0, o0, data, i, content, n);
    hide Written, MaxPiece, PieceSize, Wrote;
    assert data[i..][..n] == data[i..i + n] && data[i..][n..] == data[i + n..];
  }

  lemma PieceShort(writer: Writer, c0: seq<byte>, o0: nat, data: seq<byte>, i: nat, content: seq<byte>, n: nat, r: nat)
    requires Progress(writer, c0, o0, data, i, content) && i < |data| && n == PieceSize(|data| - i)
    requires Amount(writer, content, o0 + i, n) == r < n
    ensures Accepted(writer, c0, o0, data) == i + r && FallsShort(writer, c0, o0, data)
    ensures Wrote(c0, o0, data, i + r, Written(content, o0 + i, data[i..i + r]))
  {
    WroteMore(c0, o0, data, i, content, r);
    hide Written, MaxPiece, PieceSize, Wrote;
  }

  lemma PieceRefused(writer: Writer, c0: seq<byte>, o0: nat, data: seq<byte>, i: nat, content: seq<byte>, n: nat)
    requires Progress(writer, c0, o0, data, i, content) && i < |data| && n == PieceSize(|data| - i)
    requires Amount(writer, content, o0 + i, n) < 0
    ensures Accepted(writer, c0, o0, data) == i && !FallsShort(writer, c0, o0, data) && Wrote(c0, o0, data, i, content)
  {}

  /** One piece: where it begins, and its length. */
  datatype Transaction = Transaction(at: nat, size: nat)

  /**
   Transactions that all fit the log, and follow one another without gaps from byte `since` to byte `upto`; all but the
   last are as long as possible.
   */
  ghost predicate Pieces(log: seq<Transaction>, since: nat, upto: nat) {
    && (forall j :: 0 <= j < |log| ==> log[j].size > 0 && 2 * Blocks(log[j].at, log[j].size) + 2 <= LOGSIZE)
    && (forall j :: 0 < j < |log| ==> log[j].at == log[j - 1].at + log[j - 1].size)
    && (forall j :: 0 <= j < |log| - 1 ==> log[j].size == MaxPiece(LOGSIZE))
    && (if log == [] then since == upto else log[0].at == since && log[|log| - 1].at + log[|log| - 1].size == upto)
  }

  lemma NoPieces(since: nat)
    ensures Pieces([], since, since)
  {}

  lemma OnePieceMore(log: seq<Transaction>, since: nat, upto: nat, n: nat)
    requires Pieces(log, since, upto) && 0 < n <= MaxPiece(LOGSIZE)
    requires log != [] ==> log[|log| - 1].size == MaxPiece(LOGSIZE)
    ensures Pieces(log + [Transaction(upto, n)], since, upto + n)
  {
    PieceFitsLog(LOGSIZE, upto, n);
  }

  /** The bytes of the file once the first `i` bytes of `data` are written. */
  ghost function After(c0: seq<byte>, o0: nat, data: seq<byte>, i: nat): seq<byte>
    requires i <= |data|
  {
    if i == 0 || o0 > |c0| then c0 else Written(c0, o0, data[..i])
  }

  /** What the inode answers to the piece of `data` from `i` on. */
  ghost function AnswerAt(writer: Writer, c0: seq<byte>, o0: nat, data: seq<byte>, i: nat): int
    requires i <= |data|
  {
    Amount(writer, After(c0, o0, data, i), o0 + i, PieceSize(|data| - i))
  }

  /** Each transaction offers the inode the next piece, and is as long as what the inode takes of it. */
  ghost predicate Follows(writer: Writer, c0: seq<byte>, o0: nat, data: seq<byte>, log: seq<Transaction>) {
    && (forall j :: 0 <= j < |log| ==>
          o0 <= log[j].at < o0 + |data| && log[j].size == AnswerAt(writer, c0, o0, data, log[j].at - o0))
    && (forall j :: 0 <= j < |log| - 1 ==> log[j].size == PieceSize(o0 + |data| - log[j].at))
  }

  /** The last transaction took its whole piece. */
  ghost predicate EndsFull(o0: nat, data: seq<byte>, log: seq<Transaction>) {
    log != [] ==>
      var last := log[|log| - 1];
      o0 <= last.at < o0 + |data| && last.size == PieceSize(o0 + |data| - last.at)
  }

  /**
   Why the loop stopped after `k` bytes with the answer `r`: all are written; or the inode refused the next piece; or
   it took a part of a piece only, or nothing, without refusing.
   */
  ghost predicate StoppedAt(writer: Writer, c0: seq<byte>, o0: nat, data: seq<byte>, k: nat, log: seq<Transaction>,
      r: Answer) {
    k <= |data| &&
    if r == Panic then
      if EndsFull(o0, data, log) then k < |data| && AnswerAt(writer, c0, o0, data, k) == 0 else true
    else if k == |data| then r == Count(k) && EndsFull(o0, data, log)
    else r == Count(-1) && EndsFull(o0, data, log) && AnswerAt(writer, c0, o0, data, k) < 0
  }

  /**
   What a call has done when it answers `r`: the bytes before the first refusal or short piece are written, the offset
   is behind them, a short piece has stopped the kernel, and the transactions are those that the inode's answers ask
   for.
   */
  ghost predicate Does(writer: Writer, c0: seq<byte>, o0: nat, data: seq<byte>, content: seq<byte>, off: nat,
                       log: seq<Transaction>, r: Answer)
  {
    var k := Accepted(writer, c0, o0, data);
    && off == o0 + k && Wrote(c0, o0, data, k, content)
    && (r == Panic <==> FallsShort(writer, c0, o0, data))
    && Traced(writer, c0, o0, data, log, k)
    && StoppedAt(writer, c0, o0, data, k, log, r)
  }

  lemma StopsRefused(writer: Writer, c0: seq<byte>, o0: nat, data: seq<byte>, i: nat, content: seq<byte>,
                     log: seq<Transaction>)
    requires i < |data| && Accepted(writer, c0, o0, data) == i && !FallsShort(writer, c0, o0, data)
    requires Wrote(c0, o0, data, i, content) && AnswerAt(writer, c0, o0, data, i) < 0
    requires Traced(writer, c0, o0, data, log, i) && EndsFull(o0, data, log)
    ensures Does(writer, c0, o0, data, content, o0 + i, log, Count(-1))
  {
    hide Traced, EndsFull, Wrote, Accepted, FallsShort, AnswerAt;
  }

  lemma StopsShort(writer: Writer, c0: seq<byte>, o0: nat, data: seq<byte>, k: nat, content: seq<byte>,
                   log: seq<Transaction>)
    requires k <= |data| && Accepted(writer, c0, o0, data) == k && FallsShort(writer, c0, o0, data)
    requires Wrote(c0, o0, data, k, content) && Traced(writer, c0, o0, data, log, k)
    requires !EndsFull(o0, data, log) || (k < |data| && AnswerAt(writer, c0, o0, data, k) == 0)
    ensures Does(writer, c0, o0, data, content, o0 + k, log, Panic)
  {
    hide Traced, EndsFull, Wrote, Accepted, FallsShort, AnswerAt;
  }

  /** The transactions so far, up to byte `i` of `data`. */
  ghost predicate Traced(writer: Writer, c0: seq<byte>, o0: nat, data: seq<byte>, log: seq<Transaction>, i: nat) {
    Pieces(log, o0, o0 + i) && Follows(writer, c0, o0, data, log)
  }

  /** While bytes are left, a last transaction that took its whole piece is as long as any can be. */
  lemma LastIsLongest(writer: Writer, c0: seq<byte>, o0: nat, data: seq<byte>, log: seq<Transaction>, i: nat)
    requires Traced(writer, c0, o0, data, log, i) && EndsFull(o0, data, log) && i < |data| && log != []
    ensures log[|log| - 1].size == MaxPiece(LOGSIZE)
  {
    var last := log[|log| - 1];
    PieceBounds(o0 + |data| - last.at);
    hide PieceSize, MaxPiece, Blocks, AnswerAt;
  }

  lemma FollowsMore(writer: Writer, c0: seq<byte>, o0: nat, data: seq<byte>, log: seq<Transaction>, i: nat, r: nat)
    requires Follows(writer, c0, o0, data, log) && EndsFull(o0, data, log) && i < |data|
    requires r == AnswerAt(writer, c0, o0, data, i)
    ensures Follows(writer, c0, o0, data, log + [Transaction(o0 + i, r)])
    ensures EndsFull(o0, data, log + [Transaction(o0 + i, r)]) <==> r == PieceSize(|data| - i)
  {
    hide AnswerAt, PieceSize;
  }

  lemma TraceMore(writer: Writer, c0: seq<byte>, o0: nat, data: seq<byte>, log: seq<Transaction>, i: nat, r: int)
    returns (log': seq<Transaction>)
    requires Traced(writer, c0, o0, data, log, i) && EndsFull(o0, data, log) && i < |data|
    requires r == AnswerAt(writer, c0, o0, data, i) && r <= PieceSize(|data| - i)
    ensures r > 0 ==> Traced(writer, c0, o0, data, log', i + r)
    ensures r > 0 ==> (EndsFull(o0, data, log') <==> r == PieceSize(|data| - i))
    ensures r <= 0 ==> log' == log
  {
    hide AnswerAt, PieceSize, MaxPiece, Pieces, Follows, EndsFull, Blocks;
    log' := log;
    if r > 0 {
      PieceBounds(|data| - i);
      if log != [] {
        LastIsLongest(writer, c0, o0, data, log, i);
      }
      OnePieceMore(log, o0, o0 + i, r);
      FollowsMore(writer, c0, o0, data, log, i, r);
      log' := log + [Transaction(o0 + i, r)];
    }
  }

  lemma PieceBounds(rest: nat)
    ensures PieceSize(rest) <= MaxPiece(LOGSIZE) && (PieceSize(rest) < rest ==> PieceSize(rest) == MaxPiece(LOGSIZE))
  {}

  /** Where the loop stands once `i` bytes are written in full pieces. */
  ghost predicate LoopAt(writer: Writer, c0: seq<byte>, o0: nat, data: seq<byte>, i: nat, content: seq<byte>,
                         log: seq<Transaction>)
  {
    && i <= |data|
    && Progress(writer, c0, o0, data, i, content)
    && Traced(writer, c0, o0, data, log, i)
    && EndsFull(o0, data, log)
  }

  lemma LoopSplits(writer: Writer, c0: seq<byte>, o0: nat, data: seq<byte>, i: nat, content: seq<byte>,
                   log: seq<Transaction>)
    requires LoopAt(writer, c0, o0, data, i, content, log)
    ensures Progress(writer, c0, o0, data, i, content)
    ensures Traced(writer, c0, o0, data, log, i) && EndsFull(o0, data, log)
  {}

  lemma LoopJoins(writer: Writer, c0: seq<byte>, o0: nat, data: seq<byte>, i: nat, content: seq<byte>,
                  log: seq<Transaction>)
    requires i <= |data| && Progress(writer, c0, o0, data, i, content)
    requires Traced(writer, c0, o0, data, log, i) && EndsFull(o0, data, log)
    ensures LoopAt(writer, c0, o0, data, i, content, log)
  {}

  lemma LoopStarts(writer: Writer, c0: seq<byte>, o0: nat, data: seq<byte>)
    ensures LoopAt(writer, c0, o0, data, 0, c0, [])
  {
    ProgressStarts(writer, c0, o0, data);
  }

  lemma LoopEnds(writer: Writer, c0: seq<byte>, o0: nat, data: seq<byte>, content: seq<byte>, log: seq<Transaction>)
    requires LoopAt(writer, c0, o0, data, |data|, content, log)
    ensures Does(writer, c0, o0, data, content, o0 + |data|, log, Count(|data|))
  {
    hide Traced, EndsFull, Wrote;
    ProgressEnds(writer, c0, o0, data, content);
  }

  lemma AnswerNow(writer: Writer, c0: seq<byte>, o0: nat, data: seq<byte>, i: nat, content: seq<byte>,
                  log: seq<Transaction>)
    requires LoopAt(writer, c0, o0, data, i, content, log)
    ensures AnswerAt(writer, c0, o0, data, i) == Amount(writer, content, o0 + i, PieceSize(|data| - i))
  {
    hide Traced, EndsFull, Amount, Accepted, FallsShort, PieceSize;
  }

  lemma Turn(writer: Writer, c0: seq<byte>, o0: nat, data: seq<byte>, i: nat, content: seq<byte>,
             log: seq<Transaction>, r: int)
    returns (log': seq<Transaction>)
    requires LoopAt(writer, c0, o0, data, i, content, log) && i < |data|
    requires r == Amount(writer, content, o0 + i, PieceSize(|data| - i))
    ensures r < 0 ==> Does(writer, c0, o0, data, content, o0 + i, log', Count(-1))
    ensures r == PieceSize(|data| - i) ==>
      LoopAt(writer, c0, o0, data, i + r, Written(content, o0 + i, data[i..i + r]), log')
    ensures 0 <= r < PieceSize(|data| - i) ==>
      Does(writer, c0, o0, data, Written(content, o0 + i, data[i..i + r]), o0 + i + r, log', Panic)
  {
    hide *;
    LoopSplits(writer, c0, o0, data, i, content, log);
    AnswerNow(writer, c0, o0, data, i, content, log);
    log' := TraceMore(writer, c0, o0, data, log, i, r);
    if r == PieceSize(|data| - i) {
      PieceTaken(writer, c0, o0, data, i, content, r);
      LoopJoins(writer, c0, o0, data, i + r, Written(content, o0 + i, data[i..i + r]), log');
    } else if r >= 0 {
      PieceShort(writer, c0, o0, data, i, content, PieceSize(|data| - i), r);
      StopsShort(writer, c0, o0, data, i + r, Written(content, o0 + i, data[i..i + r]), log');
    } else {
      PieceRefused(writer, c0, o0, data, i, content, PieceSize(|data| - i));
      StopsRefused(writer, c0, o0, data, i, content, log');
    }
  }

  // ---------------------------------------------------------------- the open file

  datatype Kind = FD_NONE | FD_PIPE | FD_INODE

  /** A result for the caller, or the end of the kernel. */
  datatype Answer = Count(n: int) | Panic

  class OpenFile {
    const kind: Kind
    const ip: Disk
    const writable: bool
    var off: nat

    constructor (kind: Kind, ip: Disk, writable: bool)
      ensures this.kind == kind && this.ip == ip && this.writable == writable && off == 0
    {
      this.kind := kind;
      this.ip := ip;
      this.writable := writable;
      off := 0;
    }

    /** One transaction: the piece of `data` from `i` on. */
    method WritePiece(piece: seq<byte>, ghost c0: seq<byte>, ghost o0: nat, ghost data: seq<byte>, ghost i: nat,
                      ghost log: seq<Transaction>)
      returns (r: int, ghost log': seq<Transaction>)
      requires off == o0 + i && LoopAt(ip.writer, c0, o0, data, i, ip.content, log) && i < |data|
      requires piece == data[i..i + PieceSize(|data| - i)]
      modifies this`off, ip
      ensures -1 <= r <= |piece| && off == old(off) + (if r > 0 then r else 0)
      ensures r == AnswerAt(ip.writer, c0, o0, data, i)
      ensures r == |piece| ==> LoopAt(ip.writer, c0, o0, data, i + |piece|, ip.content, log')
      ensures r < |piece| ==>
        Does(ip.writer, c0, o0, data, ip.content, off, log', if r < 0 then Count(-1) else Panic)
    {
      hide MaxPiece, PieceSize, Amount, After, Written, LoopAt, Does, AnswerAt;
      AnswerNow(ip.writer, c0, o0, data, i, ip.content, log);
      ghost var content := ip.content;
      r := ip.WriteI(piece, off);
      log' := Turn(ip.writer, c0, o0, data, i, content, log, r);
      if r > 0 {
        off := off + r;
      }
      if r >= 0 {
        assert piece[..r] == data[i..i + r];
      }
    }

    /** The loop: all of `data`, the bytes the caller asked for. */
    method WritePieces(data: seq<byte>, ghost c0: seq<byte>, ghost o0: nat)
        returns (r: Answer, ghost log: seq<Transaction>)
      requires off == o0 && ip.content == c0
      modifies this`off, ip
      ensures Does(ip.writer, c0, o0, data, ip.content, off, log, r)
    {
      hide *;
      LoopStarts(ip.writer, c0, o0, data);
      log := [];
      var n, i := |data|, 0;
      while i < n
        invariant i <= n && off == o0 + i && LoopAt(ip.writer, c0, o0, data, i, ip.content, log)
      {
        var n1 := PieceSize(n - i);
        var done;
        done, log := WritePiece(data[i..i + n1], c0, o0, data, i, log);
        if done < 0 {
          return Count(-1), log;
        }
        if done != n1 {
          return Panic, log;
        }
        i := i + n1;
      }
      LoopEnds(ip.writer, c0, o0, data, ip.content, log);
      r := Count(n);
    }

    /**
     The first `n` bytes of `addr`; `piped` is what writing to the pipe returns, if the file is one. `log` lists where
     each transaction began and its length.
     */
    method FileWrite(addr: seq<byte>, n: int, piped: int) returns (r: Answer, ghost log: seq<Transaction>)
      requires n <= |addr|
      modifies this`off, ip
      ensures !writable || kind != FD_INODE || n <= 0 ==> ip.content == old(ip.content) && off == old(off)
      ensures !writable ==> r == Count(-1)
      ensures writable && kind == FD_PIPE ==> r == Count(piped)
      ensures writable && kind == FD_NONE ==> r == Panic
      ensures writable && kind == FD_INODE && n <= 0 ==> r == Count(if n == 0 then 0 else -1)
      ensures writable && kind == FD_INODE && n > 0 ==>
        Does(ip.writer, old(ip.content), old(off), addr[..n], ip.content, off, log, r)
      ensures writable && kind == FD_INODE && n > 0 && old(off) <= |old(ip.content)| && TakesAll(ip.writer) ==>
        r == Count(n) && off == old(off) + n && ip.content == Written(old(ip.content), old(off), addr[..n])
      ensures Pieces(log, old(off), off)
    {
      log := [];
      NoPieces(off);
      if !writable {
        return Count(-1), log;
      }
      if kind == FD_PIPE {
        return Count(piped), log;
      }
      if kind == FD_INODE {
        hide Accepted, FallsShort, Progress, Wrote, Pieces, TakesAll;
        if n <= 0 {
          return Count(if n == 0 then 0 else -1), log;
        }
        ghost var c0, o0 := ip.content, off;
        r, log := WritePieces(addr[..n], c0, o0);
        if o0 <= |c0| && TakesAll(ip.writer) {
          OneWrite(ip.writer, c0, o0, addr[..n], ip.content);
        }
        return;
      }
      return Panic, log;
    }
  }

  /** If the inode takes all it is given, what the loop has written is one write of all the bytes. */
  lemma OneWrite(writer: Writer, c0: seq<byte>, o0: nat, data: seq<byte>, content: seq<byte>)
    requires o0 <= |c0| && data != [] && TakesAll(writer)
      && Wrote(c0, o0, data, Accepted(writer, c0, o0, data), content)
    ensures Accepted(writer, c0, o0, data) == |data| && !FallsShort(writer, c0, o0, data)
    ensures content == Written(c0, o0, data)
  {
    AllAccepted(writer, c0, o0, data);
    assert data[..|data|] == data;
  }
}
