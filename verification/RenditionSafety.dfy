/**
 What every run of the rendition protocol keeps.
 */
module RenditionSafety {
  import opened Options
  import opened RenditionRows
  import opened RenditionProtocol

  // ---- the invariant ---------------------------------------------------------------------

  /** The program points before a claim is made. */
  predicate BeforeClaim(pc: Pc) {
    pc.Sampled? || pc.Inserting? || pc.SawReady? || pc.Refused?
  }

  /** The program points at which a worker's output is known to be in the store. */
  predicate OutputStored(x: Worker) {
    x.pc.Uploaded? || x.pc.Finalising? || (x.committed && (x.pc.Committed? || x.pc.Returned? || x.pc.Discarding?))
  }

  /** The program points after the handler's delete. */
  predicate AfterDelete(pc: Pc) {
    pc.Failing? || pc.FailStamped? || pc.Raised?
  }

  /** A worker the object under its key may belong to. */
  predicate MayHold(x: Worker) {
    x.token.Some? && (OutputStored(x) || x.pc.Discarding? || (AfterDelete(x.pc) && x.deleteFailed))
  }

  predicate ClockOk(pc: Pc, clock: int) {
    match pc
    case Sampled(now) => now <= clock
    case Inserting(now) => now <= clock
    case Finalising(now) => now <= clock
    case FailStamped(now) => now <= clock
    case _ => true
  }

  predicate PastCommit(pc: Pc) {
    pc.Committed? || pc.Returned? || pc == Discarding(true) || AfterDelete(pc)
  }

  /** What a worker's own fields say about it. */
  predicate LocalOk(s: State, x: Worker) {
    && ClockOk(x.pc, s.clock)
    && (BeforeClaim(x.pc) ==> x.token.None?)
    && (x.pc.Returned? ==> (x.committed <==> x.token.Some?))
    && (!BeforeClaim(x.pc) && !x.pc.Returned? ==> x.token.Some?)
    && (x.token.Some? ==> x.token.value in s.used)
    && (x.committed ==> x.token.Some? && x.media.Some? && PastCommit(x.pc))
    && (x.pc.Committed? ==> x.committed)
    && (x.pc.Accepted? || x.pc.Uploaded? || x.pc.Finalising? ==> x.media.Some?)
    && (x.media.Some? ==> 0 < x.media.value.size <= MEDIA_SIZE_LIMIT)
    && (x.deleteFailed ==> AfterDelete(x.pc))
  }

  predicate Shows(row: Row, key: string, size: nat) {
    row.state == Ready && row.storageKey == key && row.sizeBytes == size
  }

  /** What a worker's progress says about its row and its object. */
  predicate SharedOk(s: State, w: nat, x: Worker) {
    && (x.committed ==> x.id in s.rows && s.rows[x.id].state == Ready && x.id in s.holder && s.holder[x.id] == w)
    && (x.pc.SawReady? ==> x.id in s.rows && s.rows[x.id].state == Ready)
    && (x.pc.Returned? ==> x.id in s.rows && Shows(s.rows[x.id], x.pc.key, x.pc.size))
    && (x.committed && AfterDelete(x.pc) ==> (x.key in s.objects <==> x.deleteFailed))
    && (OutputStored(x) ==> x.media.Some? && x.key in s.objects && s.objects[x.key] == Stored(x.media.value, w))
  }

  predicate RowOk(s: State, id: RowId, row: Row) {
    && id in s.holder && s.holder[id] in s.workers
    && var h := s.workers[s.holder[id]];
    && h.id == id && h.token.Some? && row.storageKey == h.key
    && match row.state
       case Pending => false
       case Processing => row.token == h.token && row.lease.Some? && row.lease.value <= s.clock + LEASE && !h.committed
       case Ready =>
         && row.token.None? && h.committed && h.media.Some? && row.output == h.media
         && row.sizeBytes == h.media.value.size
       case Failed => row.token.None? && !h.committed
  }

  predicate ObjectOk(s: State, key: string, o: Stored) {
    o.owner in s.workers && var x := s.workers[o.owner]; MayHold(x) && x.key == key && x.media == Some(o.media)
  }

  /** A claim's key is the one derived from its token. */
  predicate KeyOk(x: Worker) {
    x.token.Some? ==> IsToken(x.token.value) && x.key == ClaimKey(x.id, x.token.value)
  }

  ghost predicate Inv(s: State) {
    && (forall w :: w in s.workers ==> KeyOk(s.workers[w]))
    && (forall w :: w in s.workers ==> LocalOk(s, s.workers[w]))
    && (forall w :: w in s.workers ==> SharedOk(s, w, s.workers[w]))
    && (forall v, w :: v in s.workers && w in s.workers && v != w ==> TokensDiffer(s.workers[v], s.workers[w]))
    && (forall id :: id in s.rows ==> RowOk(s, id, s.rows[id]))
    && (forall key :: key in s.objects ==> ObjectOk(s, key, s.objects[key]))
  }

  predicate TokensDiffer(x: Worker, y: Worker) {
    x.token.Some? && y.token.Some? ==> x.token != y.token
  }

  lemma KeysDiffer(x: Worker, y: Worker)
    requires x.token.Some? && y.token.Some? && x.token != y.token && KeyOk(x) && KeyOk(y)
    ensures x.key != y.key
  {
    if x.key == y.key {
      ClaimKeyDeterminesToken(x.id, x.token.value, y.id, y.token.value);
    }
  }

  // ---- what a step by one worker may leave alone -----------------------------------------

  /** Every other worker is as it was; the clock and the used tokens only grow. */
  ghost predicate OthersSame(s: State, s': State, w: nat) {
    && w in s'.workers && s.clock <= s'.clock && s.used <= s'.used
    && (forall v :: v != w ==> (v in s.workers <==> v in s'.workers))
    && (forall v :: v != w && v in s.workers ==> s'.workers[v] == s.workers[v])
  }

  /** Rows other than `id` are as they were, and so is row `id` if it was READY. */
  ghost predicate RowsSame(s: State, s': State, id: RowId) {
    && (forall i :: i != id ==> (i in s.rows <==> i in s'.rows) && (i in s.holder <==> i in s'.holder))
    && (forall i :: i != id && i in s.rows ==> s'.rows[i] == s.rows[i])
    && (forall i :: i != id && i in s.holder ==> s'.holder[i] == s.holder[i])
    && (id in s.rows && s.rows[id].state == Ready && id in s.holder ==>
          id in s'.rows && s'.rows[id] == s.rows[id] && id in s'.holder && s'.holder[id] == s.holder[id])
  }

  /** The objects under other workers' keys are as they were. */
  ghost predicate ObjectsSame(s: State, s': State, w: nat) {
    && (forall v :: v != w && v in s.workers && s.workers[v].token.Some? ==> SameAt(s, s', s.workers[v].key))
    && (forall key :: key in s'.objects && s'.objects[key].owner != w ==> SameAt(s, s', key))
  }

  predicate SameAt(s: State, s': State, key: string) {
    (key in s.objects <==> key in s'.objects) && (key in s.objects ==> s'.objects[key] == s.objects[key])
  }

  /** What a step by worker w has to establish about w itself, its row and its object. */
  ghost predicate OwnOk(s: State, s': State, w: nat) {
    && w in s'.workers
    && var y := s'.workers[w];
    && KeyOk(y) && LocalOk(s', y) && SharedOk(s', w, y)
    && (y.token.Some? ==> (w in s.workers && y.token == s.workers[w].token) || y.token.value !in s.used)
    && (y.id in s'.rows ==> RowOk(s', y.id, s'.rows[y.id]))
    && (forall key :: key in s'.objects && s'.objects[key].owner == w ==> ObjectOk(s', key, s'.objects[key]))
  }

  lemma OtherWorkersOk(s: State, s': State, w: nat, v: nat)
    requires Inv(s) && OthersSame(s, s', w) && ObjectsSame(s, s', w)
    requires RowsSame(s, s', s'.workers[w].id)
    requires v in s'.workers && v != w
    ensures KeyOk(s'.workers[v]) && LocalOk(s', s'.workers[v]) && SharedOk(s', v, s'.workers[v])
  {
    var x := s.workers[v];
    assert KeyOk(x) && LocalOk(s, x) && SharedOk(s, v, x);
    assert x.token.Some? ==> SameAt(s, s', x.key);
    if x.id in s.rows {
      assert RowOk(s, x.id, s.rows[x.id]);
    }
  }

  lemma TokensStayDifferent(s: State, s': State, w: nat, u: nat, v: nat)
    requires Inv(s) && OthersSame(s, s', w) && OwnOk(s, s', w)
    requires u in s'.workers && v in s'.workers && u != v
    ensures TokensDiffer(s'.workers[u], s'.workers[v])
  {
  }

  lemma OtherRowsOk(s: State, s': State, w: nat, id: RowId)
    requires Inv(s) && OthersSame(s, s', w) && RowsSame(s, s', s'.workers[w].id)
    requires w in s.workers ==> s.workers[w].id == s'.workers[w].id
    requires id in s'.rows && id != s'.workers[w].id
    ensures RowOk(s', id, s'.rows[id])
  {
  }

  lemma OtherObjectsOk(s: State, s': State, w: nat, key: string)
    requires Inv(s) && OthersSame(s, s', w) && ObjectsSame(s, s', w)
    requires key in s'.objects && s'.objects[key].owner != w
    ensures ObjectOk(s', key, s'.objects[key])
  {
  }

  /** A step by worker w keeps the invariant once it is right about w's own things. */
  lemma Assemble(s: State, s': State, w: nat)
    requires Inv(s) && OthersSame(s, s', w) && ObjectsSame(s, s', w) && OwnOk(s, s', w)
    requires RowsSame(s, s', s'.workers[w].id)
    requires w in s.workers ==> s.workers[w].id == s'.workers[w].id
    ensures Inv(s')
  {
    forall v | v in s'.workers
      ensures KeyOk(s'.workers[v]) && LocalOk(s', s'.workers[v]) && SharedOk(s', v, s'.workers[v])
    {
      if v != w {
        OtherWorkersOk(s, s', w, v);
      }
    }
    forall u, v | u in s'.workers && v in s'.workers && u != v ensures TokensDiffer(s'.workers[u], s'.workers[v]) {
      TokensStayDifferent(s, s', w, u, v);
    }
    forall id | id in s'.rows ensures RowOk(s', id, s'.rows[id]) {
      if id != s'.workers[w].id {
        OtherRowsOk(s, s', w, id);
      }
    }
    forall key | key in s'.objects ensures ObjectOk(s', key, s'.objects[key]) {
      if s'.objects[key].owner != w {
        OtherObjectsOk(s, s', w, key);
      }
    }
  }

  // ---- every step keeps it ---------------------------------------------------------------

  /** Every object belongs to a worker that may hold one, under its key. */
  lemma OwnerFacts(s: State, w: nat)
    requires Inv(s)
    ensures forall key :: key in s.objects && s.objects[key].owner == w ==>
      w in s.workers && MayHold(s.workers[w]) && s.workers[w].key == key
        && s.workers[w].media == Some(s.objects[key].media)
  {
  }

  /** Another worker's object is under another key. */
  lemma OthersElsewhere(s: State, w: nat, v: nat)
    requires Inv(s) && w in s.workers && v in s.workers && v != w
    requires s.workers[w].token.Some? && s.workers[v].token.Some?
    ensures s.workers[v].key != s.workers[w].key
  {
    assert TokensDiffer(s.workers[v], s.workers[w]);
    assert KeyOk(s.workers[v]) && KeyOk(s.workers[w]);
    KeysDiffer(s.workers[v], s.workers[w]);
  }

  /** The worker whose token a row carries is the row's holder. */
  lemma HolderIs(s: State, w: nat)
    requires Inv(s) && w in s.workers
    requires var x := s.workers[w]; x.token.Some? && x.id in s.rows && s.rows[x.id].token == x.token
    ensures s.workers[w].id in s.holder && s.holder[s.workers[w].id] == w
    ensures s.rows[s.workers[w].id].state == Processing
  {
  }

  /** Worker w keeps what its row and its object rely on. */
  predicate Keeps(x: Worker, y: Worker) {
    && x.id == y.id && x.token == y.token && x.key == y.key && x.committed == y.committed
    && (x.media == y.media || (!x.committed && !MayHold(x)))
    && (MayHold(x) ==> MayHold(y))
  }

  /** The objects worker w owns stay its own. */
  lemma OwnObjectsStay(s: State, s': State, w: nat)
    requires Inv(s) && w in s.workers && w in s'.workers && s'.objects == s.objects
    requires var x, y := s.workers[w], s'.workers[w];
             x.key == y.key && (MayHold(x) ==> MayHold(y) && x.media == y.media)
    ensures forall key :: key in s'.objects && s'.objects[key].owner == w ==> ObjectOk(s', key, s'.objects[key])
  {
  }

  /** Adding or replacing one worker leaves the others, the objects and the rows alone. */
  lemma WorkerFrame(s: State, w: nat, y: Worker)
    ensures var s' := s.(workers := s.workers[w := y]);
            OthersSame(s, s', w) && ObjectsSame(s, s', w) && RowsSame(s, s', y.id)
  {
  }

  /** A row does not notice a move of its holder that keeps what the row relies on. */
  lemma RowSurvivesMove(s: State, w: nat, y: Worker, row: Row)
    requires w in s.workers && RowOk(s, y.id, row)
    requires s.workers[w].id == y.id && Keeps(s.workers[w], y)
    ensures RowOk(s.(workers := s.workers[w := y]), y.id, row)
  {
  }

  /** A step that only moves one worker to another program point. */
  lemma WorkerMoves(s: State, w: nat, y: Worker)
    requires Inv(s) && w in s.workers && Keeps(s.workers[w], y)
    requires var s' := s.(workers := s.workers[w := y]); LocalOk(s', y) && SharedOk(s', w, y)
    ensures Inv(s.(workers := s.workers[w := y]))
  {
    var s' := s.(workers := s.workers[w := y]);
    assert OwnOk(s, s', w) by {
      OwnObjectsStay(s, s', w);
      assert KeyOk(s.workers[w]);
      if y.id in s.rows {
        RowSurvivesMove(s, w, y, s.rows[y.id]);
      }
    }
    WorkerFrame(s, w, y);
    Assemble(s, s', w);
  }

  /** Time passing or a new asset. */
  lemma QuietStep(s: State, e: Event)
    requires Inv(s) && Enabled(s, e) && (e.Pass? || e.Register?)
    ensures Inv(Apply(s, e))
  {
    var s' := Apply(s, e);
    forall id | id in s'.rows ensures RowOk(s', id, s'.rows[id]) {
      assert RowOk(s, id, s.rows[id]);
    }
    forall key | key in s'.objects ensures ObjectOk(s', key, s'.objects[key]) {
      assert ObjectOk(s, key, s.objects[key]);
    }
    forall v | v in s'.workers ensures KeyOk(s'.workers[v]) && LocalOk(s', s'.workers[v]) {
      assert KeyOk(s.workers[v]) && LocalOk(s, s.workers[v]);
    }
    forall v | v in s'.workers ensures SharedOk(s', v, s'.workers[v]) {
      assert SharedOk(s, v, s.workers[v]);
    }
    forall u, v | u in s'.workers && v in s'.workers && u != v ensures TokensDiffer(s'.workers[u], s'.workers[v]) {
      assert TokensDiffer(s.workers[u], s.workers[v]);
    }
  }

  /** A row's holder is a worker that exists already. */
  lemma RowSurvivesCall(s: State, w: nat, y: Worker, id: RowId, row: Row)
    requires w !in s.workers && RowOk(s, id, row)
    ensures RowOk(s.(workers := s.workers[w := y]), id, row)
  {
  }

  lemma CallKeeps(s: State, w: nat, id: RowId)
    requires Inv(s) && Enabled(s, Call(w, id))
    ensures Inv(Apply(s, Call(w, id)))
  {
    var s' := Apply(s, Call(w, id));
    var y := s'.workers[w];
    assert OwnOk(s, s', w) by {
      if id in s.rows {
        RowSurvivesCall(s, w, y, id, s.rows[id]);
      }
      OwnerFacts(s, w);
    }
    WorkerFrame(s, w, y);
    Assemble(s, s', w);
  }

  /** What the invariant says about one worker and its row. */
  ghost predicate OwnFacts(s: State, w: nat) {
    && w in s.workers && KeyOk(s.workers[w]) && LocalOk(s, s.workers[w]) && SharedOk(s, w, s.workers[w])
    && (s.workers[w].id in s.rows ==> RowOk(s, s.workers[w].id, s.rows[s.workers[w].id]))
  }

  lemma OwnFactsHold(s: State, w: nat)
    requires Inv(s) && w in s.workers
    ensures OwnFacts(s, w)
  {
  }

  /** What a worker's move must show, short of anything about the others. */
  ghost predicate MoveOk(s: State, s': State, w: nat) {
    && w in s.workers && w in s'.workers && s' == s.(workers := s.workers[w := s'.workers[w]])
    && Keeps(s.workers[w], s'.workers[w])
    && LocalOk(s', s'.workers[w]) && SharedOk(s', w, s'.workers[w])
  }

  lemma ReadReadyMoves(s: State, w: nat)
    requires OwnFacts(s, w) && Enabled(s, ReadReady(w))
    ensures MoveOk(s, Apply(s, ReadReady(w)), w)
  {
  }

  lemma AcceptMoves(s: State, w: nat, media: Media)
    requires OwnFacts(s, w) && Enabled(s, Accept(w, media))
    ensures MoveOk(s, Apply(s, Accept(w, media)), w)
  {
  }

  lemma ReadClockMoves(s: State, w: nat)
    requires OwnFacts(s, w) && Enabled(s, ReadClock(w))
    ensures MoveOk(s, Apply(s, ReadClock(w)), w)
  {
  }

  lemma LeaveMoves(s: State, w: nat)
    requires OwnFacts(s, w) && Enabled(s, Leave(w)) && s.workers[w].id in s.holder
    ensures MoveOk(s, Apply(s, Leave(w)), w)
  {
  }

  lemma HandlerMoves(s: State, w: nat, e: Event)
    requires OwnFacts(s, w) && Enabled(s, e) && (e == LeaveRaises(w) || e == Fail(w) || e == UploadFails(w, false))
    ensures MoveOk(s, Apply(s, e), w)
  {
  }

  lemma CrashMoves(s: State, w: nat)
    requires OwnFacts(s, w) && Enabled(s, Crash(w))
    ensures MoveOk(s, Apply(s, Crash(w)), w)
  {
  }

  lemma DeleteFailsMoves(s: State, w: nat)
    requires OwnFacts(s, w) && Enabled(s, Delete(w, false))
    ensures MoveOk(s, Apply(s, Delete(w, false)), w)
  {
  }

  lemma SelectMoves(s: State, w: nat, pc: Pc)
    requires OwnFacts(s, w) && (s.workers[w].pc.Sampled? || s.workers[w].pc.Inserting?)
    requires pc == Refused || pc == Inserting(s.workers[w].pc.now)
             || (pc == SawReady && s.workers[w].id in s.rows && s.rows[s.workers[w].id].state == Ready)
    ensures MoveOk(s, At(s, w, pc), w)
  {
  }

  lemma MarkFailStaleMoves(s: State, w: nat)
    requires OwnFacts(s, w) && s.workers[w].pc.FailStamped?
    ensures MoveOk(s, At(s, w, Raised), w)
  {
  }

  lemma FinaliseStaleMoves(s: State, w: nat)
    requires OwnFacts(s, w) && s.workers[w].pc.Finalising?
    ensures MoveOk(s, At(s, w, Discarding(false)), w)
  {
  }

  /** A step that only moves one worker, and rightly so. */
  lemma MovesKeep(s: State, s': State, w: nat)
    requires Inv(s) && MoveOk(s, s', w)
    ensures Inv(s')
  {
    WorkerMoves(s, w, s'.workers[w]);
  }

  // The claim transaction takes the row: nobody had finished with it.

  lemma ClaimOwn(s: State, w: nat, token: string, now: int)
    requires OwnFacts(s, w) && (s.workers[w].pc.Sampled? || s.workers[w].pc.Inserting?) && now <= s.clock
    requires IsToken(token) && token !in s.used
    requires Decide(RowAt(s, s.workers[w].id), s.workers[w].id, token, now).Claimed?
    ensures var s', id := ClaimStep(s, w, token, now), s.workers[w].id;
            && w in s'.workers && KeyOk(s'.workers[w]) && LocalOk(s', s'.workers[w]) && SharedOk(s', w, s'.workers[w])
            && id in s'.rows && RowOk(s', id, s'.rows[id])
            && s'.workers[w].token == Some(token) && s'.workers[w].id == id && s'.objects == s.objects
            && (id in s.rows ==> s.rows[id].state != Ready)
  {
  }

  lemma ClaimFrame(s: State, w: nat, token: string, now: int)
    requires w in s.workers && Decide(RowAt(s, s.workers[w].id), s.workers[w].id, token, now).Claimed?
    requires s.workers[w].id in s.rows ==> s.rows[s.workers[w].id].state != Ready
    ensures var s' := ClaimStep(s, w, token, now);
            OthersSame(s, s', w) && ObjectsSame(s, s', w) && RowsSame(s, s', s.workers[w].id)
  {
  }

  lemma ClaimStepKeeps(s: State, w: nat, token: string, now: int)
    requires Inv(s) && w in s.workers && now <= s.clock
    requires s.workers[w].pc.Sampled? || s.workers[w].pc.Inserting?
    requires IsToken(token) && token !in s.used
    ensures Inv(ClaimStep(s, w, token, now))
  {
    var s', x := ClaimStep(s, w, token, now), s.workers[w];
    OwnFactsHold(s, w);
    match Decide(RowAt(s, x.id), x.id, token, now) {
      case Claimed(_) =>
        ClaimOwn(s, w, token, now);
        ClaimFrame(s, w, token, now);
        OwnerFacts(s, w);
        Assemble(s, s', w);
      case AlreadyReady =>
        SelectMoves(s, w, SawReady);
        MovesKeep(s, s', w);
      case InProgress =>
        SelectMoves(s, w, Refused);
        MovesKeep(s, s', w);
    }
  }

  // A finalising worker that still holds the row makes it READY with its own stored object; a
  // failing worker that still holds it makes it FAILED.

  predicate StillHolds(s: State, w: nat, now: int) {
    && w in s.workers && s.workers[w].token.Some? && s.workers[w].id in s.rows
    && HoldsClaim(s.rows[s.workers[w].id], s.workers[w].token.value, now)
  }

  lemma FinaliseOwn(s: State, w: nat, now: int)
    requires OwnFacts(s, w) && s.workers[w].pc == Finalising(now) && StillHolds(s, w, now)
    requires s.workers[w].id in s.holder && s.holder[s.workers[w].id] == w
    ensures var s', id := FinaliseStep(s, w, now), s.workers[w].id;
            && w in s'.workers && KeyOk(s'.workers[w]) && LocalOk(s', s'.workers[w]) && SharedOk(s', w, s'.workers[w])
            && id in s'.rows && RowOk(s', id, s'.rows[id])
            && s'.workers[w].token == s.workers[w].token && s'.workers[w].id == id && s'.objects == s.objects
            && s'.workers[w].media == s.workers[w].media && s'.workers[w].key == s.workers[w].key
            && MayHold(s'.workers[w])
  {
  }

  lemma MarkFailOwn(s: State, w: nat, now: int, message: string)
    requires OwnFacts(s, w) && s.workers[w].pc == FailStamped(now) && StillHolds(s, w, now)
    requires s.workers[w].id in s.holder && s.holder[s.workers[w].id] == w
    ensures var s', id := MarkFailStep(s, w, now, message), s.workers[w].id;
            && w in s'.workers && KeyOk(s'.workers[w]) && LocalOk(s', s'.workers[w]) && SharedOk(s', w, s'.workers[w])
            && id in s'.rows && RowOk(s', id, s'.rows[id])
            && s'.workers[w].token == s.workers[w].token && s'.workers[w].id == id && s'.objects == s.objects
            && s'.workers[w].media == s.workers[w].media && s'.workers[w].key == s.workers[w].key
            && (MayHold(s.workers[w]) ==> MayHold(s'.workers[w]))
  {
  }

  lemma HolderFrame(s: State, w: nat, y: Worker, row: Row)
    requires w in s.workers && y.id in s.rows && s.rows[y.id].state == Processing
    ensures var s' := s.(rows := s.rows[y.id := row], workers := s.workers[w := y]);
            OthersSame(s, s', w) && ObjectsSame(s, s', w) && RowsSame(s, s', y.id)
  {
  }

  /** A step by the holder of a PROCESSING row, leaving objects alone. */
  lemma HolderUpdates(s: State, w: nat, y: Worker, row: Row)
    requires Inv(s) && w in s.workers && y.id in s.rows && s.rows[y.id].state == Processing
    requires var x, s' := s.workers[w], s.(rows := s.rows[y.id := row], workers := s.workers[w := y]);
             && x.id == y.id && x.token == y.token && x.key == y.key && x.media == y.media
             && (MayHold(x) ==> MayHold(y))
             && KeyOk(y) && LocalOk(s', y) && SharedOk(s', w, y) && RowOk(s', y.id, row)
    ensures Inv(s.(rows := s.rows[y.id := row], workers := s.workers[w := y]))
  {
    var s' := s.(rows := s.rows[y.id := row], workers := s.workers[w := y]);
    assert OwnOk(s, s', w) by {
      OwnObjectsStay(s, s', w);
    }
    HolderFrame(s, w, y, row);
    Assemble(s, s', w);
  }

  lemma FinaliseKeeps(s: State, w: nat)
    requires Inv(s) && Enabled(s, Finalise(w))
    ensures Inv(Apply(s, Finalise(w)))
  {
    var s', now := Apply(s, Finalise(w)), s.workers[w].pc.now;
    OwnFactsHold(s, w);
    if StillHolds(s, w, now) {
      HolderIs(s, w);
      FinaliseOwn(s, w, now);
      HolderUpdates(s, w, s'.workers[w], s'.rows[s.workers[w].id]);
    } else {
      FinaliseStaleMoves(s, w);
      MovesKeep(s, s', w);
    }
  }

  lemma MarkFailKeeps(s: State, w: nat, message: string)
    requires Inv(s) && Enabled(s, MarkFail(w, message))
    ensures Inv(Apply(s, MarkFail(w, message)))
  {
    var s', now := Apply(s, MarkFail(w, message)), s.workers[w].pc.now;
    OwnFactsHold(s, w);
    if StillHolds(s, w, now) {
      HolderIs(s, w);
      MarkFailOwn(s, w, now, message);
      HolderUpdates(s, w, s'.workers[w], s'.rows[s.workers[w].id]);
    } else {
      MarkFailStaleMoves(s, w);
      MovesKeep(s, s', w);
    }
  }

  /** What a step on w's own object must show. */
  ghost predicate ObjectStepOk(s: State, s': State, w: nat) {
    && w in s.workers && w in s'.workers && s.workers[w].token.Some?
    && s' == s.(workers := s.workers[w := s'.workers[w]], objects := s'.objects)
    && s'.workers[w].id == s.workers[w].id && s'.workers[w].token == s.workers[w].token
    && s'.workers[w].key == s.workers[w].key
    && s'.workers[w].committed == s.workers[w].committed && s'.workers[w].media == s.workers[w].media
    && (forall key :: key != s.workers[w].key ==> SameAt(s, s', key))
    && LocalOk(s', s'.workers[w]) && SharedOk(s', w, s'.workers[w])
    && var key := s.workers[w].key;
    key in s'.objects ==> ObjectOk(s', key, s'.objects[key]) && s'.objects[key].owner == w
  }

  /** A step that changes the object under w's own key and nothing else but w. */
  lemma OwnObjectChanges(s: State, s': State, w: nat)
    requires Inv(s) && ObjectStepOk(s, s', w)
    ensures Inv(s')
  {
    forall v | v != w && v in s.workers && s.workers[v].token.Some? ensures SameAt(s, s', s.workers[v].key) {
      OthersElsewhere(s, w, v);
    }
    OwnerFacts(s, w);
    forall key | key in s'.objects && s'.objects[key].owner == w ensures key == s.workers[w].key {
      assert key != s.workers[w].key ==> SameAt(s, s', key);
    }
    OwnFactsHold(s, w);
    Assemble(s, s', w);
  }

  lemma UploadOwn(s: State, w: nat, e: Event)
    requires OwnFacts(s, w) && Enabled(s, e) && (e == Upload(w) || e == UploadFails(w, true))
    ensures ObjectStepOk(s, Apply(s, e), w)
  {
  }

  lemma DeleteOwn(s: State, w: nat)
    requires OwnFacts(s, w) && Enabled(s, Delete(w, true))
    ensures ObjectStepOk(s, Apply(s, Delete(w, true)), w)
  {
  }

  predicate Moving(e: Event, w: nat) {
    e == ReadReady(w) || (e.Accept? && e.w == w) || e == ReadClock(w) || e == Leave(w) || e == LeaveRaises(w)
    || e == Fail(w) || e == Crash(w) || e == UploadFails(w, false) || e == Delete(w, false)
  }

  lemma MovingStepMoves(s: State, w: nat, e: Event)
    requires OwnFacts(s, w) && Enabled(s, e) && Moving(e, w)
    ensures MoveOk(s, Apply(s, e), w)
  {
    match e {
      case ReadReady(_) => ReadReadyMoves(s, w);
      case Accept(_, media) => AcceptMoves(s, w, media);
      case ReadClock(_) => ReadClockMoves(s, w);
      case Leave(_) => LeaveMoves(s, w);
      case Crash(_) => CrashMoves(s, w);
      case Delete(_, _) => DeleteFailsMoves(s, w);
      case _ => HandlerMoves(s, w, e);
    }
  }

  /** Steps that only move one worker. */
  lemma MovingStepKeeps(s: State, w: nat, e: Event)
    requires Inv(s) && Enabled(s, e) && Moving(e, w)
    ensures Inv(Apply(s, e))
  {
    OwnFactsHold(s, w);
    MovingStepMoves(s, w, e);
    MovesKeep(s, Apply(s, e), w);
  }

  lemma SelectKeeps(s: State, w: nat, token: string)
    requires Inv(s) && Enabled(s, Select(w, token))
    ensures Inv(Apply(s, Select(w, token)))
  {
    OwnFactsHold(s, w);
    if s.workers[w].id in s.rows {
      ClaimStepKeeps(s, w, token, s.workers[w].pc.now);
    } else {
      SelectMoves(s, w, Inserting(s.workers[w].pc.now));
      MovesKeep(s, Apply(s, Select(w, token)), w);
    }
  }

  /** Whatever happens next, the invariant holds. */
  lemma StepKeeps(s: State, e: Event)
    requires Inv(s) && Enabled(s, e)
    ensures Inv(Apply(s, e))
  {
    match e {
      case Pass(_) => QuietStep(s, e);
      case Register(_, _) => QuietStep(s, e);
      case Call(w, id) => CallKeeps(s, w, id);
      case Select(w, token) => SelectKeeps(s, w, token);
      case Insert(w, token) =>
        OwnFactsHold(s, w);
        ClaimStepKeeps(s, w, token, s.workers[w].pc.now);
      case Upload(w) =>
        OwnFactsHold(s, w);
        UploadOwn(s, w, e);
        OwnObjectChanges(s, Apply(s, e), w);
      case UploadFails(w, stored) =>
        if stored {
          OwnFactsHold(s, w);
          UploadOwn(s, w, e);
          OwnObjectChanges(s, Apply(s, e), w);
        } else {
          MovingStepKeeps(s, w, e);
        }
      case Delete(w, gone) =>
        if gone {
          OwnFactsHold(s, w);
          DeleteOwn(s, w);
          OwnObjectChanges(s, Apply(s, e), w);
        } else {
          MovingStepKeeps(s, w, e);
        }
      case Finalise(w) => FinaliseKeeps(s, w);
      case MarkFail(w, message) => MarkFailKeeps(s, w, message);
      case _ => MovingStepKeeps(s, e.w, e);
    }
  }

  lemma {:induction false} RunKeeps(es: seq<Event>)
    requires ValidRun(es)
    ensures Inv(After(es))
  {
    if es != [] {
      RunKeeps(es[..|es| - 1]);
      StepKeeps(After(es[..|es| - 1]), es[|es| - 1]);
    }
  }
}
