/**
 The phased feed-video upload (sau/platforms/facebook/publisher.py, `_chunked_publish`), in which
 every answer of the server says which window to send next.

 The next start a server answers with is the number of bytes it holds. Nothing else is asked of
 it: it may take any part of a chunk or none, and end its window anywhere, before the start or past
 the file. Against some such servers the loop never ends, so the loop is run here for as many
 rounds as there are replies.
 */
module PhasedUpload {
  import opened Options
  import opened Retries
  import opened ChunkPlan
  import opened Uploads

  /** One try of a transfer: how many bytes the server takes, where it ends its next window, the answer. */
  datatype Reply = Reply(take: nat, end: int, answer: Try<()>)

  /** The tries of one retried transfer. */
  type Replies = r: seq<Reply> | |r| >= ATTEMPTS witness seq(ATTEMPTS, i => Reply(0, 0, Success(())))

  function AnswersTo(replies: Replies): (answers: seq<Try<()>>)
    ensures |answers| == |replies|
  {
    seq(|replies|, i requires 0 <= i < |replies| => replies[i].answer)
  }

  /** The reply that ends a retried transfer. */
  function LastReply(replies: Replies): Reply {
    replies[Calls(ATTEMPTS, AnswersTo(replies)) - 1]
  }

  /** What a server that holds `held` holds once it has taken `take` bytes of a chunk sent at `start`. */
  function Absorb(held: seq<Byte>, start: nat, chunk: seq<Byte>, take: nat): seq<Byte>
    requires start <= |held|
  {
    var n := Min(take, |chunk|);
    if start + n <= |held| then held else held[..start] + chunk[..n]
  }

  /** The same chunk sent once for each reply. */
  function AbsorbAll(held: seq<Byte>, start: nat, chunk: seq<Byte>, replies: seq<Reply>): (held': seq<Byte>)
    requires start <= |held|
    ensures |held| <= |held'|
  {
    if replies == [] then held
    else Absorb(AbsorbAll(held, start, chunk, replies[..|replies| - 1]), start, chunk, replies[|replies| - 1].take)
  }

  /** What the server holds after a retried transfer. */
  function AfterTransfer(held: seq<Byte>, chunk: seq<Byte>, replies: Replies): seq<Byte> {
    AbsorbAll(held, |held|, chunk, replies[..Calls(ATTEMPTS, AnswersTo(replies))])
  }

  /** The most that one of these tries takes of a chunk of this length. */
  function Most(replies: seq<Reply>, length: nat): (most: nat)
    ensures most <= length
  {
    if replies == [] then 0
    else
      var before, take := Most(replies[..|replies| - 1], length), Min(replies[|replies| - 1].take, length);
      if take > before then take else before
  }

  lemma {:induction false} MostIsTheMost(replies: seq<Reply>, length: nat)
    ensures forall i :: 0 <= i < |replies| ==> Min(replies[i].take, length) <= Most(replies, length)
    ensures Most(replies, length) == 0
            || exists i :: 0 <= i < |replies| && Most(replies, length) == Min(replies[i].take, length)
    decreases |replies|
  {
    if replies != [] {
      var front := replies[..|replies| - 1];
      MostIsTheMost(front, length);
      assert forall i :: 0 <= i < |front| ==> front[i] == replies[i];
    }
  }

  /** A chunk sent again and again from where the server was leaves it with the most any try took. */
  lemma {:induction false} AbsorbsTheMost(held: seq<Byte>, chunk: seq<Byte>, replies: seq<Reply>)
    ensures AbsorbAll(held, |held|, chunk, replies) == held + chunk[..Most(replies, |chunk|)]
    decreases |replies|
  {
    if replies != [] {
      AbsorbsTheMost(held, chunk, replies[..|replies| - 1]);
    } else {
      assert held + [] == held;
    }
  }

  /** The first n tries are made: all before the last failed retryably, and the last did only if it is the fifth. */
  predicate Tries(replies: Replies, n: nat) {
    && 1 <= n <= 5
    && (forall i :: 0 <= i < n - 1 ==>
          replies[i].answer.TransportFailure? || (replies[i].answer.PlatformFailure? && replies[i].answer.retryable))
    && (n < 5 ==>
          var last := replies[n - 1].answer;
          last.Success? || last.OtherFailure? || (last.PlatformFailure? && !last.retryable))
  }

  /** What one retried chunk comes to. */
  lemma TransferInFull(held: seq<Byte>, chunk: seq<Byte>, replies: Replies) returns (n: nat)
    ensures Tries(replies, n) && LastReply(replies) == replies[n - 1]
    ensures AfterTransfer(held, chunk, replies) == held + chunk[..Most(replies[..n], |chunk|)]
  {
    n := Calls(ATTEMPTS, AnswersTo(replies));
    CallsCharacterised(ATTEMPTS, AnswersTo(replies), n);
    forall i | 0 <= i < n - 1 ensures Again(replies[i].answer) {
      assert Again(AnswersTo(replies)[i]);
    }
    AbsorbsTheMost(held, chunk, replies[..n]);
  }

  // ---- rounds of the loop ----------------------------------------------------------------

  /** The loop between rounds; `|held|` and `end` are its `start` and `end`. */
  datatype Loop = Loop(held: seq<Byte>, end: int, raised: bool, reports: seq<nat>)

  /** The loop goes on. */
  predicate Going(l: Loop) {
    !l.raised && |l.held| < l.end
  }

  /** The loop has ended by its own condition, and the session will be finished. */
  predicate Closed(l: Loop) {
    !l.raised && |l.held| >= l.end
  }

  function Round(file: seq<Byte>, l: Loop, replies: Replies): Loop {
    if !Going(l) then l
    else
      match ReadRange(file, |l.held|, l.end - |l.held|)
      case None => l.(raised := true)
      case Some(chunk) =>
        var held := AfterTransfer(l.held, chunk, replies);
        if LastReply(replies).answer.Success?
        then Loop(held, LastReply(replies).end, false, l.reports + [|held|])
        else l.(held := held, raised := true)
  }

  function Rounds(file: seq<Byte>, l: Loop, world: seq<Replies>): Loop {
    if world == [] then l else Round(file, Rounds(file, l, world[..|world| - 1]), world[|world| - 1])
  }

  /** A session just opened, with the first window's end. */
  function Opened(end: int): Loop {
    Loop([], end, false, [])
  }

  // ---- what every server keeps -----------------------------------------------------------

  predicate IsPrefix(held: seq<Byte>, file: seq<Byte>) {
    |held| <= |file| && held == file[..|held|]
  }

  lemma AbsorbKeepsPrefix(held: seq<Byte>, file: seq<Byte>, start: nat, to: nat, take: nat)
    requires IsPrefix(held, file) && start <= |held| && start <= to <= |file|
    ensures IsPrefix(Absorb(held, start, file[start..to], take), file)
  {
    var n := Min(take, to - start);
    if start + n > |held| {
      assert held[..start] + file[start..to][..n] == file[..start + n];
    }
  }

  lemma {:induction false} AbsorbAllKeepsPrefix(held: seq<Byte>, file: seq<Byte>, start: nat, to: nat,
        replies: seq<Reply>)
    requires IsPrefix(held, file) && start <= |held| && start <= to <= |file|
    ensures IsPrefix(AbsorbAll(held, start, file[start..to], replies), file)
    decreases |replies|
  {
    if replies != [] {
      var before := replies[..|replies| - 1];
      AbsorbAllKeepsPrefix(held, file, start, to, before);
      AbsorbKeepsPrefix(AbsorbAll(held, start, file[start..to], before), file, start, to, replies[|replies| - 1].take);
    }
  }

  /** A chunk sent from where the server is adds what the server takes in one of the tries, or nothing. */
  lemma {:induction false} TakesAByteIffSomeTryDoes(held: seq<Byte>, chunk: seq<Byte>, replies: seq<Reply>)
    requires chunk != []
    ensures |AbsorbAll(held, |held|, chunk, replies)| > |held| <==>
            exists i :: 0 <= i < |replies| && replies[i].take > 0
    ensures AbsorbAll(held, |held|, chunk, replies) == held <==> forall i :: 0 <= i < |replies| ==> replies[i].take == 0
    decreases |replies|
  {
    if replies != [] {
      TakesAByteIffSomeTryDoes(held, chunk, replies[..|replies| - 1]);
    }
  }

  lemma RoundKeepsPrefix(file: seq<Byte>, l: Loop, replies: Replies)
    requires IsPrefix(l.held, file)
    ensures IsPrefix(Round(file, l, replies).held, file) && |l.held| <= |Round(file, l, replies).held|
  {
    if Going(l) && |l.held| < |file| {
      AbsorbAllKeepsPrefix(l.held, file, |l.held|, Min(l.end, |file|), replies[..Calls(ATTEMPTS, AnswersTo(replies))]);
    }
  }

  /** Whatever the server does, it holds a beginning of the file. */
  lemma {:induction false} RoundsKeepPrefix(file: seq<Byte>, end: int, world: seq<Replies>)
    ensures IsPrefix(Rounds(file, Opened(end), world).held, file)
    decreases |world|
  {
    if world != [] {
      RoundsKeepPrefix(file, end, world[..|world| - 1]);
      RoundKeepsPrefix(file, Rounds(file, Opened(end), world[..|world| - 1]), world[|world| - 1]);
    }
  }

  // ---- when the file is complete ---------------------------------------------------------

  /**
   A loop that has ended by its own condition has sent the whole file if and only if the last start
   it was answered is the file's size; where the server's last window does not end before it starts,
   if and only if that window ends at the file's size.
   */
  lemma CompleteIffClosedAtTheEnd(file: seq<Byte>, end: int, world: seq<Replies>)
    ensures var l := Rounds(file, Opened(end), world);
            Closed(l) ==>
              && (l.held == file <==> |l.held| == |file|)
              && (|l.held| <= l.end ==> (l.held == file <==> l.end == |file|))
  {
    RoundsKeepPrefix(file, end, world);
    var l := Rounds(file, Opened(end), world);
    assert |l.held| == |file| ==> file[..|l.held|] == file;
  }

  /** The first answer can already close the window: no round is made, and no byte is sent. */
  lemma EmptyFirstWindowSendsNothing(file: seq<Byte>, end: int, world: seq<Replies>)
    requires end <= 0
    ensures var l := Rounds(file, Opened(end), world); Closed(l) && l == Opened(end) && (l.held == file <==> file == [])
  {
    ClosedStays(file, Opened(end), world);
  }

  lemma {:induction false} ClosedStays(file: seq<Byte>, l: Loop, world: seq<Replies>)
    requires !Going(l)
    ensures Rounds(file, l, world) == l
    decreases |world|
  {
    if world != [] {
      ClosedStays(file, l, world[..|world| - 1]);
    }
  }

  /** A window past the file is read as one that ends with it. */
  lemma WindowPastTheFileIsCut(file: seq<Byte>, l: Loop, replies: Replies)
    requires |l.held| < |file| <= l.end
    ensures Round(file, l, replies).held == Round(file, l.(end := |file|), replies).held
    ensures Round(file, l, replies).reports == Round(file, l.(end := |file|), replies).reports
    ensures Round(file, l, replies).raised == Round(file, l.(end := |file|), replies).raised
  {
    assert ReadRange(file, |l.held|, l.end - |l.held|) == ReadRange(file, |l.held|, |file| - |l.held|);
  }

  /** But one asked for when the server holds the whole file cannot be read: the publish raises. */
  lemma WindowAfterTheLastByteRaises(file: seq<Byte>, l: Loop, replies: Replies)
    requires Going(l)
    ensures |l.held| >= |file| ==> Round(file, l, replies) == l.(raised := true)
    ensures |l.held| < |file| ==> (Round(file, l, replies).raised <==> !LastReply(replies).answer.Success?)
  {
  }

  /**
   A round in full: the window is read up to the file's end at most, and sent in up to five tries.
   The server then holds what the try that took most left there; the answer's end is the next
   window's, and what is held is reported. A read past the end, or a failed last try, raises.
   */
  lemma RoundFollowsTheAnswer(file: seq<Byte>, l: Loop, replies: Replies) returns (n: nat)
    requires Going(l) && IsPrefix(l.held, file)
    ensures Tries(replies, n)
    ensures var l' := Round(file, l, replies);
            if |l.held| == |file| then l' == Loop(l.held, l.end, true, l.reports)
            else
              var window := if l.end < |file| then l.end - |l.held| else |file| - |l.held|;
              var held := file[..|l.held| + Most(replies[..n], window)];
              if replies[n - 1].answer.Success? then l' == Loop(held, replies[n - 1].end, false, l.reports + [|held|])
              else l' == Loop(held, l.end, true, l.reports)
  {
    if |l.held| < |file| {
      var to := Min(l.end, |file|);
      var chunk := file[|l.held|..to];
      n := TransferInFull(l.held, chunk, replies);
      assert l.held + chunk[..Most(replies[..n], |chunk|)] == file[..|l.held| + Most(replies[..n], |chunk|)];
    } else {
      n := TransferInFull(l.held, [], replies);
    }
  }

  // ---- how many rounds there can be ------------------------------------------------------

  /** The rounds in which the server took no byte. */
  function IdleRounds(file: seq<Byte>, l: Loop, world: seq<Replies>): nat {
    if world == [] then 0
    else
      var before := Rounds(file, l, world[..|world| - 1]);
      IdleRounds(file, l, world[..|world| - 1])
      + if Going(before) && |Round(file, before, world[|world| - 1]).held| == |before.held| then 1 else 0
  }

  /**
   A loop that still goes on after n rounds has had n - |file| idle ones or more: at most |file| of
   its rounds took a byte.
   */
  lemma {:induction false} OnlyIdleRoundsProlong(file: seq<Byte>, end: int, world: seq<Replies>)
    ensures var l := Rounds(file, Opened(end), world);
            && (Going(l) ==> |world| <= |l.held| + IdleRounds(file, Opened(end), world)) && |l.held| <= |file|
    decreases |world|
  {
    RoundsKeepPrefix(file, end, world);
    if world != [] {
      var before := world[..|world| - 1];
      OnlyIdleRoundsProlong(file, end, before);
      RoundsKeepPrefix(file, end, before);
      RoundKeepsPrefix(file, Rounds(file, Opened(end), before), world[|world| - 1]);
    }
  }

  /** So against a server that takes a byte in every round, the loop has ended after |file| + 1 rounds. */
  lemma TakingServersEndTheLoop(file: seq<Byte>, end: int, world: seq<Replies>)
    requires IdleRounds(file, Opened(end), world) == 0 && |world| > |file|
    ensures !Going(Rounds(file, Opened(end), world))
  {
    OnlyIdleRoundsProlong(file, end, world);
  }

  /**
   And it has sent the whole file by then, after |file| rounds already, if nothing was raised and
   the server has kept its window open short of the file's end.
   */
  lemma TakingServersGetTheFile(file: seq<Byte>, end: int, world: seq<Replies>)
    requires IdleRounds(file, Opened(end), world) == 0 && |world| >= |file|
    ensures var l := Rounds(file, Opened(end), world);
            !l.raised && (|l.held| < |file| ==> |l.held| < l.end) ==> l.held == file
  {
    OnlyIdleRoundsProlong(file, end, world);
    RoundsKeepPrefix(file, end, world);
    var l := Rounds(file, Opened(end), world);
    assert |l.held| == |file| ==> file[..|l.held|] == file;
  }

  /** A successful round in which no try takes a byte leaves the server where it was, and only reports it again. */
  lemma IdleRoundStaysPut(file: seq<Byte>, l: Loop, replies: Replies)
    requires Going(l) && |l.held| < |file| && LastReply(replies).answer.Success?
    requires forall i :: 0 <= i < |replies| ==> replies[i].take == 0
    ensures Round(file, l, replies) == Loop(l.held, LastReply(replies).end, false, l.reports + [|l.held|])
  {
    var chunk := ReadRange(file, |l.held|, l.end - |l.held|).value;
    TakesAByteIffSomeTryDoes(l.held, chunk, replies[..Calls(ATTEMPTS, AnswersTo(replies))]);
  }

  /** A server that answers every transfer with success and the same window, and takes nothing. */
  function IdleReplies(end: int): Replies {
    seq(ATTEMPTS, i => Reply(0, end, Success(())))
  }

  /** Such a server keeps the loop going for ever: after any number of rounds it still asks for the same window. */
  lemma {:induction false} IdleServerNeverLetsGo(file: seq<Byte>, end: int, n: nat)
    requires file != [] && end > 0
    ensures var l := Rounds(file, Opened(end), seq(n, i => IdleReplies(end)));
            Going(l) && l.held == [] && l.end == end && l.reports == seq(n, i => 0)
  {
    var world := seq(n, i => IdleReplies(end));
    if n > 0 {
      IdleServerNeverLetsGo(file, end, n - 1);
      assert world[..n - 1] == seq(n - 1, i => IdleReplies(end));
      var l := Rounds(file, Opened(end), world[..n - 1]);
      IdleReplySucceeds(end);
      IdleRoundStaysPut(file, l, world[n - 1]);
      assert seq(n - 1, i => 0) + [0] == seq(n, i => 0);
    } else {
      assert world == [];
    }
  }

  lemma IdleReplySucceeds(end: int)
    ensures LastReply(IdleReplies(end)) == Reply(0, end, Success(()))
  {
  }

  // ---- what is reported ------------------------------------------------------------------

  predicate NeverFalls(s: seq<nat>) {
    forall i :: 0 < i < |s| ==> s[i - 1] <= s[i]
  }

  /** The reported offsets never fall; they rise strictly when no round was idle. */
  lemma {:induction false} ReportsNeverFall(file: seq<Byte>, end: int, world: seq<Replies>)
    ensures var l := Rounds(file, Opened(end), world);
            && NeverFalls(l.reports) && |l.reports| <= |world|
            && (if l.reports == [] then l.raised || l.held == [] else l.reports[|l.reports| - 1] <= |l.held|)
            && (!l.raised && l.reports != [] ==> l.reports[|l.reports| - 1] == |l.held|)
            && (IdleRounds(file, Opened(end), world) == 0 ==> Increasing(l.reports))
    decreases |world|
  {
    if world != [] {
      var before := world[..|world| - 1];
      ReportsNeverFall(file, end, before);
      RoundsKeepPrefix(file, end, before);
      RoundKeepsPrefix(file, Rounds(file, Opened(end), before), world[|world| - 1]);
    }
  }

  // ---- the method ------------------------------------------------------------------------

  class Server {
    var held: seq<Byte>
    var end: int

    constructor (end: int)
      ensures held == [] && this.end == end
    {
      this.held, this.end := [], end;
    }

    /** One chunk, retried: a repeated chunk is taken at its offset. */
    method Transfer(start: nat, chunk: seq<Byte>, replies: Replies) returns (ok: bool, ghost tries: nat)
      requires start == |held|
      modifies this
      ensures Tries(replies, tries) && ok == replies[tries - 1].answer.Success?
      ensures held == old(held) + chunk[..Most(replies[..tries], |chunk|)]
      ensures end == if ok then replies[tries - 1].end else old(end)
      ensures held == AfterTransfer(old(held), chunk, replies)
      ensures ok == LastReply(replies).answer.Success?
      ensures end == if ok then LastReply(replies).end else old(end)
    {
      tries := TransferInFull(held, chunk, replies);
      var n := 0;
      while n < ATTEMPTS
        invariant 0 <= n <= ATTEMPTS && start <= |held| && end == old(end)
        invariant held == AbsorbAll(old(held), start, chunk, replies[..n])
        invariant forall i :: 0 <= i < n ==> Again(replies[i].answer)
      {
        assert replies[..n + 1][..n] == replies[..n];
        held := Absorb(held, start, chunk, replies[n].take);
        n := n + 1;
        if !Again(replies[n - 1].answer) {
          CallsCharacterised(ATTEMPTS, AnswersTo(replies), n);
          ok := replies[n - 1].answer.Success?;
          if ok {
            end := replies[n - 1].end;
          }
          return;
        }
      }
      CallsCharacterised(ATTEMPTS, AnswersTo(replies), ATTEMPTS);
      ok := false;
    }
  }

  /** How a publish has ended, if it has. */
  datatype Ending = Published | Raised | StillGoing

  /**
   `_chunked_publish`, for as many rounds as there are replies. It reports success exactly when the
   session opens, the loop ends by its own condition and the session is finished -- whether or not
   the server holds the file.
   */
  method ChunkedPublish(file: seq<Byte>, opening: seq<Try<int>>, world: seq<Replies>, finishing: seq<Try<()>>)
    returns (ending: Ending, server: Server, progress: seq<nat>)
    requires |opening| >= ATTEMPTS && |finishing| >= ATTEMPTS
    ensures fresh(server)
    ensures !Outcome(opening).Success? ==> ending == Raised && server.held == [] && progress == []
    ensures Outcome(opening).Success? ==>
              var l := Rounds(file, Opened(Outcome(opening).value), world);
              && server.held == l.held && server.end == l.end && progress == l.reports
              && ending == if Going(l) then StillGoing
                           else if l.raised || !Outcome(finishing).Success? then Raised
                           else Published
    ensures IsPrefix(server.held, file)
    ensures ending == Published ==>
              && (server.held == file <==> |server.held| == |file|)
              && (|server.held| <= server.end ==> (server.held == file <==> server.end == |file|))
  {
    var session := Retried(opening);
    if !session.Success? {
      server := new Server(0);
      return Raised, server, [];
    }
    server := new Server(session.value);
    RoundsKeepPrefix(file, session.value, world);
    CompleteIffClosedAtTheEnd(file, session.value, world);
    var raised: bool;
    raised, progress := FollowWindows(file, server, world);
    if raised {
      return Raised, server, progress;
    }
    if |server.held| < server.end {
      return StillGoing, server, progress;
    }
    var finished := Retried(finishing);
    return if finished.Success? then Published else Raised, server, progress;
  }

  /** The loop itself. */
  method FollowWindows(file: seq<Byte>, server: Server, world: seq<Replies>) returns (raised: bool, progress: seq<nat>)
    requires server.held == []
    modifies server
    ensures Loop(server.held, server.end, raised, progress) == Rounds(file, Opened(old(server.end)), world)
  {
    raised, progress := false, [];
    var round := 0;
    while !raised && |server.held| < server.end && round < |world|
      invariant round <= |world|
      invariant Rounds(file, Opened(old(server.end)), world[..round]) == Loop(server.held, server.end, raised, progress)
      decreases |world| - round
    {
      assert world[..round + 1][..round] == world[..round];
      raised, progress := FollowWindow(file, server, progress, world[round]);
      round := round + 1;
    }
    LaterRoundsChangeNothing(file, Opened(old(server.end)), world, round);
  }

  /** One round: read the window, send it, go where the answer says and report it. */
  method FollowWindow(file: seq<Byte>, server: Server, progress: seq<nat>, replies: Replies)
    returns (raised: bool, reported: seq<nat>)
    requires |server.held| < server.end
    modifies server
    ensures Loop(server.held, server.end, raised, reported)
            == Round(file, Loop(old(server.held), old(server.end), false, progress), replies)
  {
    var start, end := |server.held|, server.end;
    var chunk := ReadRange(file, start, end - start);
    if chunk.None? {
      return true, progress;
    }
    var sent, _ := server.Transfer(start, chunk.value, replies);
    if !sent {
      return true, progress;
    }
    start := |server.held|;
    return false, progress + [start];
  }

  /** A session whose first window is empty is finished and published without a byte of the file. */
  method PublishedWithoutAByte(file: seq<Byte>) returns (ending: Ending, server: Server)
    requires file != []
    ensures ending == Published && server.held == [] && server.held != file
  {
    var opening: seq<Try<int>> := seq(ATTEMPTS, i => Success(0));
    var finishing: seq<Try<()>> := seq(ATTEMPTS, i => Success(()));
    EmptyFirstWindowSendsNothing(file, 0, []);
    var progress: seq<nat>;
    ending, server, progress := ChunkedPublish(file, opening, [], finishing);
  }

  /** Once the loop has ended, it does not matter what the server would have answered. */
  lemma {:induction false} LaterRoundsChangeNothing(file: seq<Byte>, l: Loop, world: seq<Replies>, n: nat)
    requires n <= |world|
    ensures !Going(Rounds(file, l, world[..n])) || n == |world| ==>
              Rounds(file, l, world) == Rounds(file, l, world[..n])
    decreases |world|
  {
    if n == |world| {
      assert world[..n] == world;
    } else {
      assert world[..|world| - 1][..n] == world[..n];
      LaterRoundsChangeNothing(file, l, world[..|world| - 1], n);
    }
  }
}
