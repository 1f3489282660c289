/**
 Sending a stored object in pieces: ranged reads, retried sends, and the loops of the TikTok and
 reel publishers (sau/storage.py, sau/platforms/tiktok/publisher.py,
 sau/platforms/facebook/publisher.py).

 A receiver stores the bytes of a piece at the offset it is sent with.
 */
module Uploads {
  import opened Options
  import opened Retries
  import opened ChunkPlan

  type Byte = bv8

  // ---- ranged reads ----------------------------------------------------------------------

  /**
   A GET with `Range: bytes=start-end`. A range past the end of the file is not satisfiable; one
   that ends before it starts is invalid and is ignored (sections 14.1.1 and 14.2 of RFC 9110).
   */
  function ReadRange(file: seq<Byte>, start: nat, length: nat): Option<seq<Byte>> {
    if length == 0 then Some(file)
    else if start >= |file| then None
    else Some(file[start..Min(start + length, |file|)])
  }

  /** A range inside the file is read as far as the file goes; one past its end fails; an empty one reads it all. */
  lemma RangedReads(file: seq<Byte>, start: nat, length: nat)
    ensures ReadRange(file, start, length).None? <==> length > 0 && start >= |file|
    ensures length == 0 ==> ReadRange(file, start, length) == Some(file)
    ensures length > 0 && start < |file| ==>
              var data := ReadRange(file, start, length);
              && data.Some?
              && |data.value| == (if length < |file| - start then length else |file| - start)
              && forall i :: 0 <= i < |data.value| ==> data.value[i] == file[start + i]
  {
  }

  datatype Piece = Piece(offset: nat, data: seq<Byte>)

  /** The pieces are the object's bytes from `from` to `to`, in order, none empty. */
  predicate Cover(pieces: seq<Piece>, file: seq<Byte>, from: nat, to: nat) {
    if pieces == [] then from == to
    else
      var last := pieces[|pieces| - 1];
      && last.data != [] && last.offset + |last.data| == to <= |file| && last.offset >= from
      && last.data == file[last.offset..to]
      && Cover(pieces[..|pieces| - 1], file, from, last.offset)
  }

  function Payload(pieces: seq<Piece>): seq<Byte> {
    if pieces == [] then [] else Payload(pieces[..|pieces| - 1]) + pieces[|pieces| - 1].data
  }

  lemma {:induction false} CoverPayload(pieces: seq<Piece>, file: seq<Byte>, from: nat, to: nat)
    requires Cover(pieces, file, from, to) && to <= |file|
    ensures from <= to && Payload(pieces) == file[from..to] && |pieces| <= to - from
    decreases |pieces|
  {
    if pieces != [] {
      var last := pieces[|pieces| - 1];
      CoverPayload(pieces[..|pieces| - 1], file, from, last.offset);
      assert file[from..last.offset] + file[last.offset..to] == file[from..to];
    }
  }

  lemma {:induction false} CoverAt(pieces: seq<Piece>, file: seq<Byte>, from: nat, to: nat, k: nat)
    requires Cover(pieces, file, from, to) && k < |pieces|
    ensures var p := pieces[k];
            && p.data != [] && from <= p.offset && p.offset + |p.data| <= to && p.offset + |p.data| <= |file|
            && p.data == file[p.offset..p.offset + |p.data|]
            && p.offset == (if k == 0 then from else pieces[k - 1].offset + |pieces[k - 1].data|)
            && (k == |pieces| - 1 ==> p.offset + |p.data| == to)
    decreases |pieces|
  {
    var front, last := pieces[..|pieces| - 1], pieces[|pieces| - 1];
    if k < |front| {
      CoverAt(front, file, from, last.offset, k);
    } else if k > 0 {
      CoverAt(front, file, from, last.offset, k - 1);
    }
  }

  lemma CoverGrows(pieces: seq<Piece>, file: seq<Byte>, from: nat, offset: nat, to: nat)
    requires Cover(pieces, file, from, offset) && from <= offset < to <= |file|
    ensures Cover(pieces + [Piece(offset, file[offset..to])], file, from, to)
  {
    assert (pieces + [Piece(offset, file[offset..to])])[..|pieces|] == pieces;
  }

  /** Every piece is a whole chunk; but for the last, which is no longer than one. */
  predicate AllWhole(pieces: seq<Piece>, chunk: nat) {
    forall i :: 0 <= i < |pieces| ==> |pieces[i].data| == chunk
  }

  predicate WholeChunks(pieces: seq<Piece>, chunk: nat) {
    pieces == [] || (AllWhole(pieces[..|pieces| - 1], chunk) && |pieces[|pieces| - 1].data| <= chunk)
  }

  lemma {:induction false} AllWholeSpan(pieces: seq<Piece>, file: seq<Byte>, from: nat, to: nat, chunk: nat)
    requires Cover(pieces, file, from, to) && AllWhole(pieces, chunk)
    ensures to == from + |pieces| * chunk
    decreases |pieces|
  {
    if pieces != [] {
      var n := |pieces| - 1;
      AllWholeSpan(pieces[..n], file, from, pieces[n].offset, chunk);
      assert n * chunk + chunk == (n + 1) * chunk;
    }
  }

  lemma WholeSpan(pieces: seq<Piece>, file: seq<Byte>, from: nat, to: nat, chunk: nat) returns (last: nat)
    requires Cover(pieces, file, from, to) && WholeChunks(pieces, chunk) && pieces != []
    ensures 0 < last <= chunk && to == from + (|pieces| - 1) * chunk + last
  {
    var n := |pieces| - 1;
    last := |pieces[n].data|;
    AllWholeSpan(pieces[..n], file, from, pieces[n].offset, chunk);
  }

  /** So a stretch in whole chunks is as many of them as go into it, rounded up. */
  lemma ChunkCount(pieces: seq<Piece>, file: seq<Byte>, from: nat, to: nat, chunk: nat)
    requires Cover(pieces, file, from, to) && WholeChunks(pieces, chunk) && chunk > 0
    ensures from <= to && |pieces| == CeilDiv(to - from, chunk)
  {
    if pieces == [] {
      assert (chunk - 1) / chunk == 0;
    } else {
      var last := WholeSpan(pieces, file, from, to, chunk);
      ProductNotNegative(|pieces| - 1, chunk);
      CountOf(to - from, chunk, |pieces| - 1, last);
    }
  }

  lemma ProductNotNegative(a: nat, b: nat)
    ensures a * b >= 0
  {
  }

  lemma CountOf(length: nat, chunk: nat, n: nat, last: nat)
    requires chunk > 0 && 0 < last <= chunk && length == n * chunk + last
    ensures CeilDiv(length, chunk) == n + 1
  {
    assert (n + 1) * chunk == n * chunk + chunk && (n + 2) * chunk == n * chunk + 2 * chunk;
    QuotientAtLeast(length + chunk - 1, chunk, n + 1);
    QuotientAtLeast(length + chunk - 1, chunk, n + 2);
  }

  /** The object from `from` to `to` in chunks, all of them whole unless this is the end of it. */
  predicate Chunked(pieces: seq<Piece>, file: seq<Byte>, from: nat, to: nat, chunk: nat) {
    Cover(pieces, file, from, to) && if to < |file| then AllWhole(pieces, chunk) else WholeChunks(pieces, chunk)
  }

  lemma ChunkedGrows(pieces: seq<Piece>, file: seq<Byte>, from: nat, offset: nat, chunk: nat)
    requires chunk > 0 && from <= offset < |file| && Chunked(pieces, file, from, offset, chunk)
    ensures var to := offset + Min(chunk, |file| - offset);
            && ReadRange(file, offset, to - offset) == Some(file[offset..to])
            && Chunked(pieces + [Piece(offset, file[offset..to])], file, from, to, chunk)
  {
    var to := offset + Min(chunk, |file| - offset);
    CoverGrows(pieces, file, from, offset, to);
    WholeGrows(pieces, chunk, Piece(offset, file[offset..to]));
  }

  /** `iter_chunks`: the rest of the object, in chunks of the given size but for the last. */
  method IterChunks(file: seq<Byte>, chunkSize: nat, start: nat) returns (pieces: seq<Piece>)
    requires chunkSize > 0
    ensures Cover(pieces, file, Min(start, |file|), |file|) && WholeChunks(pieces, chunkSize)
    ensures |pieces| == CeilDiv(|file| - Min(start, |file|), chunkSize)
  {
    pieces := [];
    var total, offset := |file|, start;
    while offset < total
      invariant start <= offset && (offset <= total || (pieces == [] && start > total))
      invariant offset <= total ==> Chunked(pieces, file, start, offset, chunkSize)
    {
      var length := Min(chunkSize, total - offset);
      ChunkedGrows(pieces, file, start, offset, chunkSize);
      pieces := pieces + [Piece(offset, ReadRange(file, offset, length).value)];
      offset := offset + length;
    }
    ChunkCount(pieces, file, Min(start, total), total, chunkSize);
  }

  lemma WholeGrows(pieces: seq<Piece>, chunk: nat, p: Piece)
    requires AllWhole(pieces, chunk) && |p.data| <= chunk
    ensures WholeChunks(pieces + [p], chunk) && (|p.data| == chunk ==> AllWhole(pieces + [p], chunk))
  {
    assert (pieces + [p])[..|pieces|] == pieces;
  }

  // ---- what a receiver holds -------------------------------------------------------------

  function Write(held: map<nat, Byte>, offset: nat, data: seq<Byte>): map<nat, Byte> {
    held + map i: nat | i < offset + |data| && Within(i, offset, |data|) :: data[i - offset]
  }

  predicate Within(i: nat, from: nat, length: nat) {
    from <= i < from + length
  }

  /** The object's bytes from `from` to `to`. */
  function Bytes(file: seq<Byte>, from: nat, to: nat): map<nat, Byte>
  {
    map i | from <= i < to && i < |file| :: file[i]
  }

  ghost predicate Complete(held: map<nat, Byte>, file: seq<Byte>) {
    forall i :: 0 <= i < |file| ==> i in held && held[i] == file[i]
  }

  /** A piece sent again at its offset changes nothing. */
  lemma SendingAgainChangesNothing(held: map<nat, Byte>, offset: nat, data: seq<Byte>)
    ensures Write(Write(held, offset, data), offset, data) == Write(held, offset, data)
  {
  }

  lemma WriteNext(base: map<nat, Byte>, file: seq<Byte>, from: nat, offset: nat, to: nat)
    requires from <= offset <= to <= |file|
    ensures Write(base + Bytes(file, from, offset), offset, file[offset..to]) == base + Bytes(file, from, to)
  {
  }

  /**
   A session that holds the first n bytes and is sent everything from `start` on ends up with the
   whole object exactly when `start` was not beyond what it held.
   */
  lemma CompleteIffNoGap(file: seq<Byte>, n: nat, start: nat)
    requires n <= |file|
    ensures var from := Min(start, |file|);
            Complete(Bytes(file, 0, n) + Bytes(file, from, |file|), file) <==> from <= n
  {
    var from := Min(start, |file|);
    var held := Bytes(file, 0, n) + Bytes(file, from, |file|);
    if from > n {
      assert n !in held;
    }
  }

  /** One try of a send: whether the bytes got there, and how the call ended. */
  datatype Attempt = Attempt(arrives: bool, answer: Try<()>)

  function Answers(script: seq<Attempt>): (answers: seq<Try<()>>)
    ensures |answers| == |script|
  {
    seq(|script|, i requires 0 <= i < |script| => script[i].answer)
  }

  /** A receiver that reports success has the bytes. */
  predicate Honest(script: seq<Attempt>) {
    |script| >= ATTEMPTS && forall a :: a in script ==> a.answer.Success? ==> a.arrives
  }

  /** The retried send succeeds: the last call made, of five at most, does. */
  predicate Delivers(script: seq<Attempt>) {
    |script| >= ATTEMPTS && Outcome(Answers(script)).Success?
  }

  /** Try n is made: one of the first five, and all before it failed retryably. */
  predicate Tried(script: seq<Attempt>, n: int) {
    && 0 <= n < 5 <= |script|
    && forall i :: 0 <= i < n ==>
         script[i].answer.TransportFailure? || (script[i].answer.PlatformFailure? && script[i].answer.retryable)
  }

  predicate AllHonest(world: seq<seq<Attempt>>) {
    forall script :: script in world ==> Honest(script)
  }

  class Session {
    var held: map<nat, Byte>
    var progress: seq<nat>

    constructor ()
      ensures held == map[] && progress == []
    {
      held, progress := map[], [];
    }

    /** One piece, retried: it is stored once it has arrived once, whatever the answers said. */
    method Send(offset: nat, data: seq<Byte>, script: seq<Attempt>) returns (ok: bool)
      requires Honest(script)
      modifies this`held
      ensures ok ==> held == Write(old(held), offset, data)
      ensures held == if exists n :: Tried(script, n) && script[n].arrives then Write(old(held), offset, data)
                      else old(held)
      ensures ok == Delivers(script)
      ensures ok <==> exists n :: Tried(script, n) && script[n].answer.Success?
    {
      var n := 0;
      while n < ATTEMPTS
        invariant 0 <= n <= ATTEMPTS
        invariant held == if exists i :: 0 <= i < n && script[i].arrives then Write(old(held), offset, data)
                          else old(held)
        invariant forall i :: 0 <= i < n ==> Again(script[i].answer)
      {
        if script[n].arrives {
          SendingAgainChangesNothing(old(held), offset, data);
          held := Write(held, offset, data);
        }
        if !Again(script[n].answer) {
          CallsCharacterised(ATTEMPTS, Answers(script), n + 1);
          return script[n].answer.Success?;
        }
        n := n + 1;
      }
      CallsCharacterised(ATTEMPTS, Answers(script), ATTEMPTS);
      return false;
    }

    /**
     The loop both publishers share: send each piece, then report how far it reaches. A report
     follows every piece that was sent; the first send that fails stops the loop.
     */
    method SendAll(pieces: seq<Piece>, ghost file: seq<Byte>, ghost from: nat, ghost to: nat, world: seq<seq<Attempt>>)
      returns (ok: bool, sent: nat)
      requires Cover(pieces, file, from, to) && from <= to <= |file| && |world| >= |pieces| && AllHonest(world)
      modifies this
      ensures ok <==> forall k :: 0 <= k < |pieces| ==> Delivers(world[k])
      ensures sent <= |pieces| && (forall k :: 0 <= k < sent ==> Delivers(world[k]))
      ensures if ok then sent == |pieces| else sent < |pieces| && !Delivers(world[sent])
      ensures held == With(old(held), file, pieces, from, sent)
              || (sent < |pieces| && held == With(old(held), file, pieces, from, sent + 1) && !ok)
      ensures progress == old(progress) + Reaches(pieces[..sent])
    {
      sent := 0;
      assert With(old(held), file, pieces, from, 0) == old(held);
      while sent < |pieces|
        invariant sent <= |pieces|
        invariant held == With(old(held), file, pieces, from, sent)
        invariant progress == old(progress) + Reaches(pieces[..sent])
        invariant forall k :: 0 <= k < sent ==> Delivers(world[k])
      {
        ok := SendPiece(pieces, sent, old(held), file, from, to, world);
        if !ok {
          return;
        }
        ReachesGrow(pieces, sent);
        sent := sent + 1;
      }
      ok := true;
    }

    /** The body of that loop: one piece and, if it was sent, its report. */
    method SendPiece(pieces: seq<Piece>, k: nat, ghost base: map<nat, Byte>, ghost file: seq<Byte>, ghost from: nat,
          ghost to: nat, world: seq<seq<Attempt>>) returns (ok: bool)
      requires Cover(pieces, file, from, to) && k < |pieces| <= |world| && AllHonest(world)
      requires held == With(base, file, pieces, from, k)
      modifies this
      ensures if ok then held == With(base, file, pieces, from, k + 1)
              else held == old(held) || held == With(base, file, pieces, from, k + 1)
      ensures ok == Delivers(world[k])
      ensures progress == old(progress) + if ok then [pieces[k].offset + |pieces[k].data|] else []
    {
      PieceExtends(base, pieces, file, from, to, k);
      assert world[k] in world;
      ok := Send(pieces[k].offset, pieces[k].data, world[k]);
      if ok {
        progress := progress + [pieces[k].offset + |pieces[k].data|];
      }
    }
  }

  /** How far the first k pieces reach. */
  function EndOf(pieces: seq<Piece>, from: nat, k: nat): nat
    requires k <= |pieces|
  {
    if k == 0 then from else pieces[k - 1].offset + |pieces[k - 1].data|
  }

  /** What a receiver that held `base` holds after the first k pieces. */
  function With(base: map<nat, Byte>, file: seq<Byte>, pieces: seq<Piece>, from: nat, k: nat): map<nat, Byte>
    requires k <= |pieces|
  {
    base + Bytes(file, from, EndOf(pieces, from, k))
  }

  lemma ReachesGrow(pieces: seq<Piece>, k: nat)
    requires k < |pieces|
    ensures Reaches(pieces[..k + 1]) == Reaches(pieces[..k]) + [pieces[k].offset + |pieces[k].data|]
  {
    assert pieces[..k + 1][..k] == pieces[..k];
  }

  lemma PieceIsNext(pieces: seq<Piece>, file: seq<Byte>, from: nat, to: nat, k: nat)
    requires Cover(pieces, file, from, to) && k < |pieces|
    ensures var at, end := EndOf(pieces, from, k), EndOf(pieces, from, k + 1);
            && pieces[k].offset == at && from <= at <= end <= |file| && pieces[k].data == file[at..end]
  {
  }

  lemma PieceExtends(base: map<nat, Byte>, pieces: seq<Piece>, file: seq<Byte>, from: nat, to: nat, k: nat)
    requires Cover(pieces, file, from, to) && k < |pieces|
    ensures Write(With(base, file, pieces, from, k), pieces[k].offset, pieces[k].data)
            == With(base, file, pieces, from, k + 1)
  {
    PieceIsNext(pieces, file, from, to, k);
    WriteNext(base, file, from, EndOf(pieces, from, k), EndOf(pieces, from, k + 1));
  }

  lemma EndIsInside(pieces: seq<Piece>, file: seq<Byte>, from: nat, to: nat, k: nat)
    requires Cover(pieces, file, from, to) && to <= |file| && k <= |pieces|
    ensures from <= EndOf(pieces, from, k) <= to && (k == |pieces| ==> EndOf(pieces, from, k) == to)
  {
  }

  function Reaches(pieces: seq<Piece>): seq<nat> {
    if pieces == [] then []
    else
      var last := pieces[|pieces| - 1];
      Reaches(pieces[..|pieces| - 1]) + [last.offset + |last.data|]
  }

  predicate Increasing(s: seq<nat>) {
    forall i :: 0 < i < |s| ==> s[i - 1] < s[i]
  }

  /** The reported offsets rise strictly and end at the end of what was sent. */
  lemma {:induction false} ReportsRise(pieces: seq<Piece>, file: seq<Byte>, from: nat, to: nat)
    requires Cover(pieces, file, from, to)
    ensures var r := Reaches(pieces); |r| == |pieces| && Increasing(r) && (r != [] ==> r[|r| - 1] == to && r[0] > from)
    decreases |pieces|
  {
    if pieces != [] {
      ReportsRise(pieces[..|pieces| - 1], file, from, pieces[|pieces| - 1].offset);
    }
  }

  // ---- TikTok ----------------------------------------------------------------------------

  /** Each range of a plan, read from the object. */
  function Read(file: seq<Byte>, ranges: seq<Range>): seq<Piece> {
    if ranges == [] then []
    else
      var last := ranges[|ranges| - 1];
      var data := ReadRange(file, last.offset, last.length);
      Read(file, ranges[..|ranges| - 1]) + [Piece(last.offset, if data.Some? then data.value else [])]
  }

  lemma {:induction false} TilesCover(file: seq<Byte>, ranges: seq<Range>, from: nat, to: nat)
    requires Tile(ranges, from, to) && to <= |file|
    ensures Cover(Read(file, ranges), file, from, to) && |Read(file, ranges)| == |ranges|
    decreases |ranges|
  {
    if ranges != [] {
      TilesCover(file, ranges[..|ranges| - 1], from, ranges[|ranges| - 1].offset);
      var pieces := Read(file, ranges);
      assert pieces[..|pieces| - 1] == Read(file, ranges[..|ranges| - 1]);
    }
  }

  /**
   `_publish_by_upload`: it succeeds exactly when there is a plan, the upload opens and every chunk
   is delivered. Then the receiver holds the object and no byte besides, the payloads sent are the
   object, and the reports rose strictly to its size.
   */
  method PublishByUpload(file: seq<Byte>, preferred: int, opening: seq<Try<()>>, world: seq<seq<Attempt>>)
    returns (ok: bool, session: Session, pieces: seq<Piece>)
    requires |opening| >= ATTEMPTS && |world| >= MAX_CHUNKS && AllHonest(world)
    ensures fresh(session)
    ensures PlanChunks(|file|, preferred).Ok? ==> PlanChunks(|file|, preferred).value.totalChunks <= |world|
    ensures ok <==> && PlanChunks(|file|, preferred).Ok? && Outcome(opening).Success?
                    && forall k :: 0 <= k < PlanChunks(|file|, preferred).value.totalChunks ==> Delivers(world[k])
    ensures PlanChunks(|file|, preferred).Err? || !Outcome(opening).Success? ==>
              !ok && session.held == map[] && session.progress == []
    ensures ok ==>
              && Payload(pieces) == file && session.held == map[] + Bytes(file, 0, |file|)
              && Complete(session.held, file)
    ensures ok ==> session.progress == Reaches(pieces) && Increasing(session.progress) && session.progress != []
                   && session.progress[|session.progress| - 1] == |file|
    ensures !ok ==> exists n :: 0 <= n <= |file| && session.held == map[] + Bytes(file, 0, n)
  {
    session := new Session();
    pieces := [];
    var plan := PlanChunks(|file|, preferred);
    if plan.Err? {
      assert session.held == map[] + Bytes(file, 0, 0);
      return false, session, [];
    }
    PlanIsWithinLimits(|file|, preferred);
    var init := Retried(opening);
    if !init.Success? {
      assert session.held == map[] + Bytes(file, 0, 0);
      return false, session, [];
    }
    pieces := ReadChunks(file, preferred, plan.value);
    var sent: nat;
    ok, sent := session.SendAll(pieces, file, 0, |file|, world);
    if ok {
      Delivered(file, pieces, session.held, session.progress);
    } else {
      ghost var n := Interrupted(file, pieces, session.held, sent);
    }
  }

  /** The plan's ranges, read one after the other. */
  method ReadChunks(file: seq<Byte>, preferred: int, plan: Plan) returns (pieces: seq<Piece>)
    requires PlanChunks(|file|, preferred) == Ok(plan)
    ensures Cover(pieces, file, 0, |file|) && |pieces| == plan.totalChunks && pieces != []
  {
    RangesTileTheFile(|file|, preferred);
    var ranges := IterRanges(|file|, plan);
    pieces := Read(file, ranges);
    TilesCover(file, ranges, 0, |file|);
  }

  lemma Delivered(file: seq<Byte>, pieces: seq<Piece>, held: map<nat, Byte>, progress: seq<nat>)
    requires Cover(pieces, file, 0, |file|) && pieces != []
    requires held == map[] + Bytes(file, 0, EndOf(pieces, 0, |pieces|)) && progress == [] + Reaches(pieces[..|pieces|])
    ensures Payload(pieces) == file && held == map[] + Bytes(file, 0, |file|) && Complete(held, file)
    ensures progress == Reaches(pieces) && Increasing(progress) && progress != [] && progress[|progress| - 1] == |file|
  {
    CoverPayload(pieces, file, 0, |file|);
    EndIsInside(pieces, file, 0, |file|, |pieces|);
    ReportsRise(pieces, file, 0, |file|);
    assert pieces[..|pieces|] == pieces && file[0..|file|] == file;
  }

  lemma Interrupted(file: seq<Byte>, pieces: seq<Piece>, held: map<nat, Byte>, sent: nat) returns (n: nat)
    requires Cover(pieces, file, 0, |file|) && sent <= |pieces|
    requires held == map[] + Bytes(file, 0, EndOf(pieces, 0, sent))
             || (sent < |pieces| && held == map[] + Bytes(file, 0, EndOf(pieces, 0, sent + 1)))
    ensures n <= |file| && held == map[] + Bytes(file, 0, n)
  {
    n := EndOf(pieces, 0, sent);
    EndIsInside(pieces, file, 0, |file|, sent);
    if held != map[] + Bytes(file, 0, n) {
      n := EndOf(pieces, 0, sent + 1);
      EndIsInside(pieces, file, 0, |file|, sent + 1);
    }
  }

  // ---- reels -----------------------------------------------------------------------------

  /** What asking for the session's status comes to: a count, no count, or a PlatformError. */
  datatype Transferred = Count(bytes: nat) | NoCount | StatusFails

  function ServerOffset(t: Transferred, fallback: nat): nat {
    if t.Count? then t.bytes else fallback
  }

  /**
   `_push_bytes`: it succeeds exactly when every chunk from the chosen offset on is delivered, and
   then everything from there on was sent. A session that held the first n bytes then holds the
   whole object if and only if the offset leaves no gap.
   */
  method PushBytes(session: Session, file: seq<Byte>, chunkSize: nat, status: Transferred, fallback: nat,
        world: seq<seq<Attempt>>)
    returns (ok: bool)
    requires chunkSize > 0 && |world| >= |file| && AllHonest(world)
    modifies session
    ensures var from := Min(if status.Count? then status.bytes else fallback, |file|);
            && CeilDiv(|file| - from, chunkSize) <= |world|
            && (ok <==> forall k :: 0 <= k < CeilDiv(|file| - from, chunkSize) ==> Delivers(world[k]))
            && (ok ==> session.held == old(session.held) + Bytes(file, from, |file|))
            && (!ok ==> exists n :: from <= n <= |file| && session.held == old(session.held) + Bytes(file, from, n))
    ensures forall n :: ok && 0 <= n <= |file| && old(session.held) == Bytes(file, 0, n) ==>
                          (Complete(session.held, file) <==> NoGap(file, n, status, fallback))
  {
    var offset := ServerOffset(status, fallback);
    var pieces := IterChunks(file, chunkSize, offset);
    var from := Min(offset, |file|);
    CoverPayload(pieces, file, from, |file|);
    ghost var before := session.held;
    var sent: nat;
    ok, sent := session.SendAll(pieces, file, from, |file|, world);
    EndIsInside(pieces, file, from, |file|, sent);
    if !ok {
      EndIsInside(pieces, file, from, |file|, sent + 1);
    }
    forall n | 0 <= n <= |file| && before == Bytes(file, 0, n)
      ensures Complete(before + Bytes(file, from, |file|), file) <==> NoGap(file, n, status, fallback)
    {
      ReelCompletesIffNoGap(file, n, status, fallback);
    }
  }

  /** The server's count, or without one the fallback, is at most n, or n is everything. */
  predicate NoGap(file: seq<Byte>, n: nat, status: Transferred, fallback: nat) {
    n == |file| || (if status.Count? then status.bytes else fallback) <= n
  }

  /** What a session with the first n bytes holds after such a push is the object if and only if there is no gap. */
  lemma ReelCompletesIffNoGap(file: seq<Byte>, n: nat, status: Transferred, fallback: nat)
    requires n <= |file|
    ensures var from := Min(if status.Count? then status.bytes else fallback, |file|);
            Complete(Bytes(file, 0, n) + Bytes(file, from, |file|), file) <==> NoGap(file, n, status, fallback)
  {
    CompleteIffNoGap(file, n, ServerOffset(status, fallback));
  }

  /** A new session, no count from the server, and an earlier attempt's offset: the push succeeds without the object. */
  method FallbackLeavesAGap(file: seq<Byte>, chunkSize: nat, fallback: nat) returns (ok: bool, session: Session)
    requires file != [] && chunkSize > 0 && fallback > 0
    ensures ok && fresh(session) && !Complete(session.held, file)
  {
    session := new Session();
    var script := seq(ATTEMPTS, i => Attempt(true, Success(())));
    var world := seq(|file|, i => script);
    assert session.held == Bytes(file, 0, 0);
    ok := PushBytes(session, file, chunkSize, NoCount, fallback, world);
  }

  /** For one: two bytes, of which an earlier attempt had sent the first. */
  method SecondByteOnly() returns (ok: bool, session: Session)
    ensures ok && fresh(session) && !Complete(session.held, [0x4D, 0x4F])
  {
    ok, session := FallbackLeavesAGap([0x4D, 0x4F], 5 * 1024 * 1024, 1);
  }
}
