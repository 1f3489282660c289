/**
 What the rendition protocol promises, for every run of it: any number of workers, any
 interleaving, any crashes, any lapse of leases.
 */
module RenditionResults {
  import opened Options
  import opened RenditionRows
  import opened RenditionProtocol
  import opened RenditionSafety

  // ---- what a worker's state says about the run behind it --------------------------------

  predicate By(e: Event, w: nat) {
    match e
    case Pass(_) => false
    case Register(_, _) => false
    case _ => e.w == w
  }

  /** The steps that touch rows or objects. */
  predicate Writes(e: Event) {
    e.Select? || e.Insert? || e.Finalise? || e.MarkFail? || e.Upload? || e.UploadFails? || e.Delete?
  }

  lemma ClaimStepLeavesOthers(s: State, v: nat, token: string, now: int, w: nat)
    requires v in s.workers && v != w
    ensures w in s.workers <==> w in ClaimStep(s, v, token, now).workers
    ensures w in s.workers ==> ClaimStep(s, v, token, now).workers[w] == s.workers[w]
  {
  }

  lemma ClaimantsLeaveOthers(s: State, e: Event, w: nat)
    requires Enabled(s, e) && (e.Select? || e.Insert?) && e.w != w
    ensures w in s.workers <==> w in Apply(s, e).workers
    ensures w in s.workers ==> Apply(s, e).workers[w] == s.workers[w]
  {
    ClaimStepLeavesOthers(s, e.w, e.token, s.workers[e.w].pc.now, w);
  }

  lemma WritersLeaveOthers(s: State, e: Event, w: nat)
    requires Enabled(s, e) && Writes(e) && !e.Select? && !e.Insert? && e.w != w
    ensures w in s.workers <==> w in Apply(s, e).workers
    ensures w in s.workers ==> Apply(s, e).workers[w] == s.workers[w]
  {
  }

  lemma OthersStay(s: State, e: Event, w: nat)
    requires Enabled(s, e) && !By(e, w)
    ensures w in s.workers <==> w in Apply(s, e).workers
    ensures w in s.workers ==> Apply(s, e).workers[w] == s.workers[w]
  {
    if e.Select? || e.Insert? {
      ClaimantsLeaveOthers(s, e, w);
    } else if Writes(e) {
      WritersLeaveOthers(s, e, w);
    }
  }

  predicate Accepts(es: seq<Event>, w: nat, x: Worker) {
    x.media.Some? ==> Accept(w, x.media.value) in es
  }

  predicate Uploads(es: seq<Event>, w: nat, x: Worker) {
    OutputStored(x) || x.committed ==> Upload(w) in es
  }

  predicate Finalises(es: seq<Event>, w: nat, x: Worker) {
    x.committed ==> Finalise(w) in es
  }

  predicate Deletes(es: seq<Event>, w: nat, x: Worker) {
    Delete(w, true) in es <==> x.token.Some? && AfterDelete(x.pc) && !x.deleteFailed
  }

  predicate Cleanups(es: seq<Event>, w: nat, x: Worker) {
    LeaveRaises(w) in es <==> x.committed && (x.pc.Discarding? || AfterDelete(x.pc))
  }

  predicate History(es: seq<Event>, w: nat, x: Worker) {
    Accepts(es, w, x) && Uploads(es, w, x) && Finalises(es, w, x) && Deletes(es, w, x) && Cleanups(es, w, x)
  }

  /** What w's step did to the worker, as far as its history is concerned. */
  predicate Told(x: Worker, e: Event, w: nat, y: Worker) {
    && (y.media.Some? ==> y.media == x.media || e == Accept(w, y.media.value))
    && (OutputStored(y) || y.committed ==> OutputStored(x) || x.committed || e == Upload(w))
    && (y.committed ==> x.committed || e == Finalise(w))
  }

  predicate ToldDelete(x: Worker, e: Event, w: nat, y: Worker) {
    y.token.Some? && AfterDelete(y.pc) && !y.deleteFailed
    <==> (x.token.Some? && AfterDelete(x.pc) && !x.deleteFailed) || e == Delete(w, true)
  }

  predicate ToldCleanup(x: Worker, e: Event, w: nat, y: Worker) {
    y.committed && (y.pc.Discarding? || AfterDelete(y.pc))
    <==> (x.committed && (x.pc.Discarding? || AfterDelete(x.pc))) || e == LeaveRaises(w)
  }

  predicate ToldAll(x: Worker, e: Event, w: nat, y: Worker) {
    Told(x, e, w, y) && ToldDelete(x, e, w, y) && ToldCleanup(x, e, w, y)
  }

  lemma MoverTold(s: State, e: Event, w: nat)
    requires Enabled(s, e) && (e.ReadReady? || e.Accept? || e.ReadClock? || e.Leave? || e.Crash?)
    requires e.w == w && OwnFacts(s, w)
    ensures w in Apply(s, e).workers && ToldAll(s.workers[w], e, w, Apply(s, e).workers[w])
  {
  }

  lemma RaiserTold(s: State, e: Event, w: nat)
    requires Enabled(s, e) && (e.LeaveRaises? || e.Fail?) && e.w == w && OwnFacts(s, w)
    ensures w in Apply(s, e).workers && ToldAll(s.workers[w], e, w, Apply(s, e).workers[w])
  {
  }

  lemma StoreTold(s: State, e: Event, w: nat)
    requires Enabled(s, e) && (e.Upload? || e.UploadFails? || e.Delete?) && e.w == w && OwnFacts(s, w)
    ensures w in Apply(s, e).workers && ToldAll(s.workers[w], e, w, Apply(s, e).workers[w])
  {
  }

  lemma ClaimStepTold(s: State, e: Event, w: nat, token: string, now: int)
    requires OwnFacts(s, w) && (s.workers[w].pc.Sampled? || s.workers[w].pc.Inserting?)
    requires e.Select? || e.Insert?
    ensures var s' := ClaimStep(s, w, token, now); w in s'.workers && ToldAll(s.workers[w], e, w, s'.workers[w])
  {
  }

  lemma ClaimTold(s: State, e: Event, w: nat)
    requires Enabled(s, e) && (e.Select? || e.Insert?) && e.w == w && OwnFacts(s, w)
    ensures w in Apply(s, e).workers && ToldAll(s.workers[w], e, w, Apply(s, e).workers[w])
  {
    ClaimStepTold(s, e, w, e.token, s.workers[w].pc.now);
  }

  lemma FinaliseTold(s: State, e: Event, w: nat)
    requires Enabled(s, e) && e.Finalise? && e.w == w && OwnFacts(s, w)
    ensures w in Apply(s, e).workers && ToldAll(s.workers[w], e, w, Apply(s, e).workers[w])
  {
  }

  lemma MarkFailTold(s: State, e: Event, w: nat)
    requires Enabled(s, e) && e.MarkFail? && e.w == w && OwnFacts(s, w)
    ensures w in Apply(s, e).workers && ToldAll(s.workers[w], e, w, Apply(s, e).workers[w])
  {
  }

  lemma StepTold(s: State, e: Event, w: nat)
    requires Enabled(s, e) && By(e, w) && !e.Call? && OwnFacts(s, w)
    ensures w in Apply(s, e).workers && ToldAll(s.workers[w], e, w, Apply(s, e).workers[w])
  {
    if e.Select? || e.Insert? {
      ClaimTold(s, e, w);
    } else if e.Finalise? {
      FinaliseTold(s, e, w);
    } else if e.MarkFail? {
      MarkFailTold(s, e, w);
    } else if e.Upload? || e.UploadFails? || e.Delete? {
      StoreTold(s, e, w);
    } else if e.LeaveRaises? || e.Fail? {
      RaiserTold(s, e, w);
    } else {
      MoverTold(s, e, w);
    }
  }

  lemma InExtended(es: seq<Event>, e: Event, f: Event)
    ensures f in es + [e] <==> f in es || f == e
  {
  }

  lemma HistoryExtends(es: seq<Event>, e: Event, w: nat, x: Worker, y: Worker)
    requires History(es, w, x) && ToldAll(x, e, w, y)
    ensures History(es + [e], w, y)
  {
  }

  lemma HistoryStep(es: seq<Event>, s: State, e: Event, w: nat)
    requires Enabled(s, e) && By(e, w)
    requires if e.Call? then Delete(w, true) !in es && LeaveRaises(w) !in es
             else OwnFacts(s, w) && History(es, w, s.workers[w])
    ensures w in Apply(s, e).workers && History(es + [e], w, Apply(s, e).workers[w])
  {
    var y := Apply(s, e).workers[w];
    if e.Call? {
      InExtended(es, e, Delete(w, true));
      InExtended(es, e, LeaveRaises(w));
    } else {
      StepTold(s, e, w);
      HistoryExtends(es, e, w, s.workers[w], y);
    }
  }

  lemma HistoryUntouched(es: seq<Event>, e: Event, w: nat, x: Worker)
    requires History(es, w, x) && !By(e, w)
    ensures History(es + [e], w, x)
  {
  }

  lemma {:induction false} WorkerHistory(es: seq<Event>, w: nat)
    requires ValidRun(es)
    ensures var s := After(es);
            if w in s.workers then History(es, w, s.workers[w]) else Delete(w, true) !in es && LeaveRaises(w) !in es
  {
    if es != [] {
      var fs, e := es[..|es| - 1], es[|es| - 1];
      var s := After(fs);
      assert es == fs + [e];
      WorkerHistory(fs, w);
      if By(e, w) {
        RunKeeps(fs);
        if !e.Call? {
          ActorExists(s, e, w);
          OwnFactsHold(s, w);
        }
        HistoryStep(fs, s, e, w);
      } else {
        OthersStay(s, e, w);
        if w in s.workers {
          HistoryUntouched(fs, e, w, s.workers[w]);
        } else {
          InExtended(fs, e, Delete(w, true));
          InExtended(fs, e, LeaveRaises(w));
        }
      }
    }
  }

  lemma ActorExists(s: State, e: Event, w: nat)
    requires Enabled(s, e) && By(e, w)
    ensures w in s.workers <==> !e.Call?
  {
  }

  // ---- a READY row and its object --------------------------------------------------------

  predicate IsReady(s: State, id: RowId) {
    id in s.rows && s.rows[id].state == Ready
  }

  /**
   A READY row was finalised by one worker, whose claim its key names, whose accepted output it
   describes. Its object is that worker's upload, unless the worker raised on its way out after
   the commit and its handler then deleted the object: exactly then the object is missing.
   */
  lemma ReadyRowNamesItsObject(es: seq<Event>, id: RowId)
    requires ValidRun(es) && IsReady(After(es), id)
    ensures var s, row := After(es), After(es).rows[id];
            && id in s.holder && s.holder[id] in s.workers
            && var h, x := s.holder[id], s.workers[s.holder[id]];
            && x.id == id && x.token.Some? && row.storageKey == ClaimKey(id, x.token.value)
            && x.media.Some? && row.output == x.media && row.sizeBytes == x.media.value.size
            && 1 <= row.sizeBytes <= 8_589_934_592
            && Accept(h, x.media.value) in es && Upload(h) in es && Finalise(h) in es
            && (row.storageKey in s.objects ==> s.objects[row.storageKey] == Stored(x.media.value, h))
            && (row.storageKey !in s.objects <==> LeaveRaises(h) in es && Delete(h, true) in es)
  {
    var s := After(es);
    RunKeeps(es);
    assert RowOk(s, id, s.rows[id]);
    var h := s.holder[id];
    OwnFactsHold(s, h);
    WorkerHistory(es, h);
    HoldersObject(s, h);
  }

  /** The object under a worker's key, if there is one, is that worker's. */
  lemma HoldersObject(s: State, w: nat)
    requires Inv(s) && w in s.workers && s.workers[w].token.Some?
    ensures var x := s.workers[w];
            x.key in s.objects ==> s.objects[x.key].owner == w && MayHold(x) && x.media == Some(s.objects[x.key].media)
  {
    var x := s.workers[w];
    if x.key in s.objects {
      var o := s.objects[x.key];
      assert ObjectOk(s, x.key, o);
      if o.owner != w {
        OthersElsewhere(s, w, o.owner);
      }
    }
  }

  /** Without a raise between commit and return, every READY row's object is there. */
  lemma ReadyObjectsAreStored(es: seq<Event>, id: RowId)
    requires ValidRun(es) && IsReady(After(es), id) && (forall w: nat :: LeaveRaises(w) !in es)
    ensures var s, row := After(es), After(es).rows[id];
            row.storageKey in s.objects && s.objects[row.storageKey].media.size == row.sizeBytes
  {
    ReadyRowNamesItsObject(es, id);
    assert LeaveRaises(After(es).holder[id]) !in es;
  }

  // ---- agreement -------------------------------------------------------------------------

  lemma OthersKeepRows(s: State, e: Event)
    requires Enabled(s, e) && !(e.Select? || e.Insert? || e.Finalise? || e.MarkFail?)
    ensures Apply(s, e).rows == s.rows
  {
  }

  lemma ReadyOutlastsClaims(s: State, e: Event, id: RowId)
    requires Enabled(s, e) && IsReady(s, id) && (e.Select? || e.Insert?)
    ensures id in Apply(s, e).rows && Apply(s, e).rows[id] == s.rows[id]
  {
  }

  lemma ReadyOutlastsEnds(s: State, e: Event, id: RowId)
    requires Enabled(s, e) && IsReady(s, id) && (e.Finalise? || e.MarkFail?)
    ensures id in Apply(s, e).rows && Apply(s, e).rows[id] == s.rows[id]
  {
  }

  lemma ReadyStays(s: State, e: Event, id: RowId)
    requires Enabled(s, e) && IsReady(s, id)
    ensures id in Apply(s, e).rows && Apply(s, e).rows[id] == s.rows[id]
  {
    if e.Select? || e.Insert? {
      ReadyOutlastsClaims(s, e, id);
    } else if e.Finalise? || e.MarkFail? {
      ReadyOutlastsEnds(s, e, id);
    } else {
      OthersKeepRows(s, e);
    }
  }

  lemma RunPrefix(es: seq<Event>, n: nat)
    requires ValidRun(es) && n <= |es|
    ensures ValidRun(es[..n])
    decreases |es|
  {
    if n < |es| {
      RunPrefix(es[..|es| - 1], n);
      assert es[..|es| - 1][..n] == es[..n];
    } else {
      assert es[..n] == es;
    }
  }

  /** Once READY, a row never changes again. */
  lemma {:induction false} ReadyIsFinal(es: seq<Event>, n: nat, id: RowId)
    requires ValidRun(es) && n <= |es|
    requires ValidRun(es[..n]) && IsReady(After(es[..n]), id)
    ensures IsReady(After(es), id) && After(es).rows[id] == After(es[..n]).rows[id]
    decreases |es|
  {
    if n == |es| {
      assert es[..n] == es;
    } else {
      var fs := es[..|es| - 1];
      assert fs[..n] == es[..n];
      ReadyIsFinal(fs, n, id);
      ReadyStays(After(fs), es[|es| - 1], id);
    }
  }

  /** Whatever a call returned, and whenever, is what the READY row says now. */
  lemma ReturnsTheReadyRow(es: seq<Event>, n: nat, w: nat)
    requires ValidRun(es) && n <= |es| && ValidRun(es[..n])
    requires w in After(es[..n]).workers && After(es[..n]).workers[w].pc.Returned?
    ensures var x := After(es[..n]).workers[w];
            IsReady(After(es), x.id) && Shows(After(es).rows[x.id], x.pc.key, x.pc.size)
  {
    RunKeeps(es[..n]);
    assert SharedOk(After(es[..n]), w, After(es[..n]).workers[w]);
    ReadyIsFinal(es, n, After(es[..n]).workers[w].id);
  }

  /** Any two calls for the same asset, platform and profile return the same key and size. */
  lemma CallsAgree(es: seq<Event>, m: nat, v: nat, n: nat, w: nat)
    requires ValidRun(es) && m <= |es| && n <= |es| && ValidRun(es[..m]) && ValidRun(es[..n])
    requires v in After(es[..m]).workers && After(es[..m]).workers[v].pc.Returned?
    requires w in After(es[..n]).workers && After(es[..n]).workers[w].pc.Returned?
    requires After(es[..m]).workers[v].id == After(es[..n]).workers[w].id
    ensures After(es[..m]).workers[v].pc == After(es[..n]).workers[w].pc
  {
    ReturnsTheReadyRow(es, m, v);
    ReturnsTheReadyRow(es, n, w);
  }

  /** The second transaction of a call that found the row READY finds it READY still. */
  lemma SecondReadFindsReady(es: seq<Event>, w: nat)
    requires ValidRun(es) && Enabled(After(es), ReadReady(w))
    ensures var s, x := After(es), After(es).workers[w];
            && IsReady(s, x.id)
            && Apply(s, ReadReady(w)).workers[w].pc == Returned(s.rows[x.id].storageKey, s.rows[x.id].sizeBytes)
  {
    RunKeeps(es);
    OwnFactsHold(After(es), w);
  }

  // ---- fencing ---------------------------------------------------------------------------

  /** Only one worker holds a claim on a row, and it made the latest one. */
  lemma OneClaimant(es: seq<Event>, v: nat, w: nat, now: int, now': int)
    requires ValidRun(es) && StillHolds(After(es), v, now) && StillHolds(After(es), w, now')
    requires After(es).workers[v].id == After(es).workers[w].id
    ensures v == w
  {
    RunKeeps(es);
    HolderIs(After(es), v);
    HolderIs(After(es), w);
  }

  predicate RowSame(s: State, s': State, id: RowId) {
    (id in s.rows <==> id in s'.rows) && (id in s.rows ==> s'.rows[id] == s.rows[id])
  }

  /** A claim by w of row `id`, with a clock reading by which the row was neither READY nor held. */
  predicate ClaimsRow(s: State, s': State, e: Event, id: RowId, now: int) {
    && (e.Select? || e.Insert?) && (id in s.rows ==> s.rows[id].state != Ready && !LiveAt(s.rows[id], now))
    && id in s'.rows && HoldsClaim(s'.rows[id], e.token, now)
  }

  /** The holder of row `id`, its lease live by the reading it finishes with, ends its claim. */
  predicate EndsClaim(s: State, s': State, e: Event, id: RowId, now: int) {
    && (e.Finalise? || e.MarkFail?) && StillHolds(s, e.w, now)
    && id in s'.rows && s'.rows[id].state == (if e.Finalise? then Ready else RowState.Failed)
    && s'.rows[id].storageKey == (if e.Finalise? || id !in s.rows then s.workers[e.w].key else s.rows[id].storageKey)
  }

  /** A change to row `id` made by a claim or by the end of one, on a clock reading in the past. */
  predicate Fenced(s: State, s': State, e: Event, id: RowId) {
    && (e.Select? || e.Insert? || e.Finalise? || e.MarkFail?)
    && Enabled(s, e) && s.workers[e.w].id == id
    && var now := s.workers[e.w].pc.now;
    && now <= s.clock
    && (ClaimsRow(s, s', e, id, now) || (EndsClaim(s, s', e, id, now) && id in s.holder && s.holder[id] == e.w))
  }

  lemma ClaimsAreFenced(s: State, e: Event, id: RowId)
    requires Enabled(s, e) && (e.Select? || e.Insert?) && OwnFacts(s, e.w) && !RowSame(s, Apply(s, e), id)
    ensures Fenced(s, Apply(s, e), e, id)
  {
  }

  lemma FinaliseNeedsTheClaim(s: State, e: Event, id: RowId)
    requires Enabled(s, e) && e.Finalise? && !RowSame(s, Apply(s, e), id)
    ensures s.workers[e.w].id == id && EndsClaim(s, Apply(s, e), e, id, s.workers[e.w].pc.now)
  {
  }

  lemma MarkFailNeedsTheClaim(s: State, e: Event, id: RowId)
    requires Enabled(s, e) && e.MarkFail? && !RowSame(s, Apply(s, e), id)
    ensures s.workers[e.w].id == id && EndsClaim(s, Apply(s, e), e, id, s.workers[e.w].pc.now)
  {
  }

  /** Ending a claim is fenced when it is the holder that ends it, on a reading of the past. */
  lemma HoldersEndIsFenced(s: State, s': State, e: Event, id: RowId)
    requires Inv(s) && Enabled(s, e) && (e.Finalise? || e.MarkFail?)
    requires s.workers[e.w].id == id && EndsClaim(s, s', e, id, s.workers[e.w].pc.now)
    ensures Fenced(s, s', e, id)
  {
    assert LocalOk(s, s.workers[e.w]);
    HolderIs(s, e.w);
  }

  lemma StepIsFenced(s: State, e: Event, id: RowId)
    requires Inv(s) && Enabled(s, e) && !RowSame(s, Apply(s, e), id)
    ensures Fenced(s, Apply(s, e), e, id)
  {
    if e.Select? || e.Insert? {
      OwnFactsHold(s, e.w);
      ClaimsAreFenced(s, e, id);
    } else if e.Finalise? {
      FinaliseNeedsTheClaim(s, e, id);
      HoldersEndIsFenced(s, Apply(s, e), e, id);
    } else if e.MarkFail? {
      MarkFailNeedsTheClaim(s, e, id);
      HoldersEndIsFenced(s, Apply(s, e), e, id);
    } else {
      OthersKeepRows(s, e);
    }
  }

  /**
   A row changes only by a claim, taken when the row was neither READY nor under a lease live by
   the claimant's clock reading, or by the worker that made the latest claim, whose lease was live
   by the reading it finishes with.
   */
  lemma RowChangesAreFenced(es: seq<Event>, e: Event, id: RowId)
    requires ValidRun(es) && Enabled(After(es), e) && !RowSame(After(es), Apply(After(es), e), id)
    ensures Fenced(After(es), Apply(After(es), e), e, id)
  {
    RunKeeps(es);
    StepIsFenced(After(es), e, id);
  }

  /** An object appears, changes or goes only by a step of the worker whose claim its key names. */
  lemma ObjectChangesAreOwn(es: seq<Event>, e: Event, key: string)
    requires ValidRun(es) && Enabled(After(es), e) && !SameAt(After(es), Apply(After(es), e), key)
    ensures (e.Upload? || e.UploadFails? || e.Delete?) && e.w in After(es).workers
    ensures var x := After(es).workers[e.w]; x.token.Some? && key == ClaimKey(x.id, x.token.value)
  {
    var s := After(es);
    RunKeeps(es);
    ObjectChangers(s, e, key);
    OwnFactsHold(s, e.w);
  }

  lemma ObjectChangers(s: State, e: Event, key: string)
    requires Enabled(s, e) && !SameAt(s, Apply(s, e), key)
    ensures (e.Upload? || e.UploadFails? || e.Delete?) && e.w in s.workers && s.workers[e.w].key == key
  {
  }

  lemma RowsSamePointwise(s: State, s': State)
    requires forall id :: RowSame(s, s', id)
    ensures s'.rows == s.rows
  {
    forall id | id in s.rows || id in s'.rows ensures id in s.rows && id in s'.rows && s'.rows[id] == s.rows[id] {
      assert RowSame(s, s', id);
    }
  }

  /** What a worker with a claim changes, it changes by ending that claim as the holder of its row. */
  lemma ChangesNeedTheLatestClaim(es: seq<Event>, e: Event, w: nat, id: RowId)
    requires ValidRun(es) && Enabled(After(es), e) && By(e, w) && w in After(es).workers
             && After(es).workers[w].token.Some?
    requires !RowSame(After(es), Apply(After(es), e), id)
    ensures var s := After(es);
            && (e.Finalise? || e.MarkFail?) && s.workers[w].id == id && id in s.holder && s.holder[id] == w
            && StillHolds(s, w, s.workers[w].pc.now)
  {
    RowChangesAreFenced(es, e, id);
    RunKeeps(es);
    OwnFactsHold(After(es), w);
  }

  /** A worker whose claim was superseded changes no row, whatever clock reading it has. */
  lemma SupersededWorkerChangesNoRow(es: seq<Event>, e: Event, w: nat)
    requires ValidRun(es) && Enabled(After(es), e) && By(e, w) && w in After(es).workers
             && After(es).workers[w].token.Some?
    requires var s, id := After(es), After(es).workers[w].id; id in s.holder ==> s.holder[id] != w
    ensures Apply(After(es), e).rows == After(es).rows
  {
    var s := After(es);
    forall id ensures RowSame(s, Apply(s, e), id) {
      if !RowSame(s, Apply(s, e), id) {
        ChangesNeedTheLatestClaim(es, e, w, id);
      }
    }
    RowsSamePointwise(s, Apply(s, e));
  }

  /** Nor does one whose lease has lapsed by the clock reading it ends its claim with. */
  lemma StaleWorkerChangesNoRow(es: seq<Event>, e: Event, w: nat)
    requires ValidRun(es) && Enabled(After(es), e) && By(e, w) && w in After(es).workers
    requires After(es).workers[w].token.Some?
    requires (e.Finalise? || e.MarkFail?) ==> !StillHolds(After(es), w, After(es).workers[w].pc.now)
    ensures Apply(After(es), e).rows == After(es).rows
  {
    var s := After(es);
    forall id ensures RowSame(s, Apply(s, e), id) {
      if !RowSame(s, Apply(s, e), id) {
        ChangesNeedTheLatestClaim(es, e, w, id);
      }
    }
    RowsSamePointwise(s, Apply(s, e));
  }

  // ---- object accounting -----------------------------------------------------------------

  /** Why an object is in the store. */
  predicate Accounted(s: State, key: string, o: Stored) {
    && o.owner in s.workers
    && var x := s.workers[o.owner];
    || (IsReady(s, x.id) && s.rows[x.id].storageKey == key)
    || x.pc.Uploaded? || x.pc.Finalising? || x.pc.Discarding?
    || x.deleteFailed
  }

  lemma EveryObjectAccounted(es: seq<Event>, key: string)
    requires ValidRun(es) && key in After(es).objects
    ensures Accounted(After(es), key, After(es).objects[key])
  {
    var s := After(es);
    RunKeeps(es);
    assert ObjectOk(s, key, s.objects[key]);
    var w := s.objects[key].owner;
    OwnFactsHold(s, w);
  }

  /** Every call ended by itself, every delete worked and nothing raised after a commit. */
  ghost predicate EndedCleanly(es: seq<Event>)
    requires ValidRun(es)
  {
    && (forall w :: w in After(es).workers ==>
          Ended(After(es).workers[w].pc) && !After(es).workers[w].deleteFailed)
    && (forall w: nat :: LeaveRaises(w) !in es)
  }

  /** Once every worker has ended cleanly the store holds the READY rows' objects and no others. */
  lemma CleanEndLeavesReadyObjects(es: seq<Event>, key: string)
    requires ValidRun(es) && EndedCleanly(es)
    ensures key in After(es).objects <==> exists id :: IsReady(After(es), id) && After(es).rows[id].storageKey == key
  {
    var s := After(es);
    if key in s.objects {
      EveryObjectAccounted(es, key);
      var x := s.workers[s.objects[key].owner];
      assert IsReady(s, x.id) && s.rows[x.id].storageKey == key;
    }
    forall id | IsReady(s, id) && s.rows[id].storageKey == key ensures key in s.objects {
      ReadyObjectsAreStored(es, id);
    }
  }

  /** Two rows never name the same object. */
  lemma RowsNameDifferentObjects(es: seq<Event>, id: RowId, id': RowId)
    requires ValidRun(es) && id in After(es).rows && id' in After(es).rows && id != id'
    ensures After(es).rows[id].storageKey != After(es).rows[id'].storageKey
  {
    var s := After(es);
    RunKeeps(es);
    assert RowOk(s, id, s.rows[id]) && RowOk(s, id', s.rows[id']);
    OthersElsewhere(s, s.holder[id], s.holder[id']);
  }

  /** So a FAILED row's key names nothing once every worker has ended cleanly. */
  lemma FailedRowsHaveNoObject(es: seq<Event>, id: RowId)
    requires ValidRun(es) && EndedCleanly(es) && id in After(es).rows && After(es).rows[id].state == Failed
    ensures After(es).rows[id].storageKey !in After(es).objects
  {
    var s, key := After(es), After(es).rows[id].storageKey;
    CleanEndLeavesReadyObjects(es, key);
    forall id' | IsReady(s, id') ensures s.rows[id'].storageKey != key {
      RowsNameDifferentObjects(es, id, id');
    }
  }

  // ---- no row is stuck -------------------------------------------------------------------

  lemma LapsedRowIsClaimed(s: State, id: RowId, w: nat, token: string, now: int)
    requires id in s.rows && s.rows[id].state != Ready && !LiveAt(s.rows[id], now)
    requires Enabled(s, Select(w, token)) && s.workers[w].id == id && s.workers[w].pc == Sampled(now)
    ensures StillHolds(Apply(s, Select(w, token)), w, now)
  {
  }

  lemma CallAfterLease(s: State, id: RowId, w: nat, later: int)
    requires s.clock <= later && id.asset in s.assets && w !in s.workers
    ensures var s1 := Apply(s, Pass(later));
            && Enabled(s1, Call(w, id))
            && var s2 := Apply(s1, Call(w, id));
            && s2 == s.(clock := later,
                        workers := s.workers[w := Worker(id, None, "", None, Sampled(later), false, false, false)])
  {
  }

  /** Whoever crashed holding a row, a new call gets it once a lease's length has passed. */
  lemma RowsCanBeReclaimed(es: seq<Event>, id: RowId, w: nat, token: string, later: int)
    requires ValidRun(es) && id in After(es).rows && !IsReady(After(es), id) && id.asset in After(es).assets
    requires w !in After(es).workers && IsToken(token) && token !in After(es).used
    requires later - After(es).clock >= 7200
    ensures var run := es + [Pass(later)] + [Call(w, id)] + [Select(w, token)];
            ValidRun(run) && StillHolds(After(run), w, later)
  {
    var s := After(es);
    RunKeeps(es);
    assert RowOk(s, id, s.rows[id]);
    CallAfterLease(s, id, w, later);
    RunExtends(es, Pass(later));
    var es1 := es + [Pass(later)];
    RunExtends(es1, Call(w, id));
    var es2 := es1 + [Call(w, id)];
    LapsedRowIsClaimed(After(es2), id, w, token, later);
    RunExtends(es2, Select(w, token));
  }

  lemma RunExtends(es: seq<Event>, e: Event)
    requires ValidRun(es) && Enabled(After(es), e)
    ensures ValidRun(es + [e]) && After(es + [e]) == Apply(After(es), e)
  {
  }

  // ---- both ends of a claim are reachable ------------------------------------------------

  lemma StepsToCommit(s: State, w: nat, media: Media)
    requires Runs(s, w) && s.workers[w].pc.Working? && StillHolds(s, w, s.clock)
    requires s.workers[w].id.asset in s.assets && Acceptable(media, s.assets[s.workers[w].id.asset])
    ensures Enabled(s, Accept(w, media))
    ensures var s1 := Apply(s, Accept(w, media));
            && Enabled(s1, Upload(w))
            && var s2 := Apply(s1, Upload(w));
            && Enabled(s2, ReadClock(w)) && StillHolds(s2, w, s2.clock)
            && var s3 := Apply(s2, ReadClock(w));
            && Enabled(s3, Finalise(w)) && StillHolds(s3, w, s3.workers[w].pc.now) && s3.workers[w].media.Some?
            && s3.workers[w].id == s.workers[w].id
  {
  }

  lemma FinaliseCommits(s: State, w: nat)
    requires Enabled(s, Finalise(w)) && StillHolds(s, w, s.workers[w].pc.now) && s.workers[w].media.Some?
    ensures var s', id := Apply(s, Finalise(w)), s.workers[w].id;
            Runs(s', w) && s'.workers[w].pc.Committed? && s'.workers[w].id == id && IsReady(s', id)
  {
  }

  /** A worker that keeps its lease and gets an acceptable output makes its row READY. */
  lemma ClaimFinishes(es: seq<Event>, w: nat, media: Media)
    requires ValidRun(es) && Runs(After(es), w) && After(es).workers[w].pc.Working?
             && StillHolds(After(es), w, After(es).clock)
    requires var s := After(es); s.workers[w].id.asset in s.assets && Acceptable(media, s.assets[s.workers[w].id.asset])
    ensures var run := es + [Accept(w, media)] + [Upload(w)] + [ReadClock(w)] + [Finalise(w)];
            && ValidRun(run) && Runs(After(run), w) && After(run).workers[w].pc.Committed?
            && After(run).workers[w].id == After(es).workers[w].id && IsReady(After(run), After(es).workers[w].id)
  {
    StepsToCommit(After(es), w, media);
    RunExtends(es, Accept(w, media));
    var es1 := es + [Accept(w, media)];
    RunExtends(es1, Upload(w));
    var es2 := es1 + [Upload(w)];
    RunExtends(es2, ReadClock(w));
    var es3 := es2 + [ReadClock(w)];
    FinaliseCommits(After(es3), w);
    RunExtends(es3, Finalise(w));
  }

  lemma StepsToFailure(s: State, w: nat, gone: bool)
    requires Runs(s, w) && s.workers[w].pc.Working? && StillHolds(s, w, s.clock)
    ensures Enabled(s, Fail(w))
    ensures var s1 := Apply(s, Fail(w));
            && Enabled(s1, Delete(w, gone))
            && var s2 := Apply(s1, Delete(w, gone));
            && Enabled(s2, ReadClock(w))
            && var s3 := Apply(s2, ReadClock(w));
            && Runs(s3, w) && s3.workers[w].pc.FailStamped? && StillHolds(s3, w, s3.workers[w].pc.now)
            && s3.workers[w].id == s.workers[w].id
  {
  }

  lemma FailureIsRecorded(s: State, w: nat, message: string)
    requires Runs(s, w) && s.workers[w].pc.FailStamped? && StillHolds(s, w, s.workers[w].pc.now)
    ensures Enabled(s, MarkFail(w, message))
    ensures var s', id := Apply(s, MarkFail(w, message)), s.workers[w].id;
            && s'.workers[w].pc.Raised? && id in s'.rows && s'.rows[id].state == RowState.Failed
            && s'.rows[id].error == Some(if |message| > 2000 then message[..2000] else message)
            && s'.rows[id].token == None && s'.rows[id].lease == None
  {
  }

  /** A worker that keeps its lease and fails marks its row FAILED, with the message. */
  lemma ClaimFails(es: seq<Event>, w: nat, gone: bool, message: string)
    requires ValidRun(es) && Runs(After(es), w) && After(es).workers[w].pc.Working?
    requires StillHolds(After(es), w, After(es).clock)
    ensures var run := es + [Fail(w)] + [Delete(w, gone)] + [ReadClock(w)] + [MarkFail(w, message)];
            var id := After(es).workers[w].id;
            && ValidRun(run) && After(run).workers[w].pc.Raised? && id in After(run).rows
            && After(run).rows[id].state == RowState.Failed
            && After(run).rows[id].error == Some(if |message| > 2000 then message[..2000] else message)
  {
    StepsToFailure(After(es), w, gone);
    RunExtends(es, Fail(w));
    var es1 := es + [Fail(w)];
    RunExtends(es1, Delete(w, gone));
    var es2 := es1 + [Delete(w, gone)];
    RunExtends(es2, ReadClock(w));
    var es3 := es2 + [ReadClock(w)];
    FailureIsRecorded(After(es3), w, message);
    RunExtends(es3, MarkFail(w, message));
  }

  /** A claim on a row under a live lease is refused, and one on a READY row leads to its second read. */
  lemma ClaimsAreRefused(s: State, w: nat, token: string)
    requires Enabled(s, Select(w, token)) && s.workers[w].id in s.rows
    ensures var s', row, now := Apply(s, Select(w, token)), s.rows[s.workers[w].id], s.workers[w].pc.now;
            && (s'.workers[w].pc.SawReady? <==> row.state == Ready)
            && (s'.workers[w].pc.Refused? <==>
                  row.state == Processing && row.lease.Some? && row.lease.value > now)
            && (s'.workers[w].pc.Working? <==>
                  row.state != Ready && !(row.state == Processing && row.lease.Some? && row.lease.value > now))
            && (!s'.workers[w].pc.Working? ==> s'.rows == s.rows)
  {
  }

  lemma CleanupSteps(s: State, w: nat)
    requires Runs(s, w) && s.workers[w].pc.Committed?
    ensures Enabled(s, LeaveRaises(w))
    ensures var s1 := Apply(s, LeaveRaises(w));
            && Enabled(s1, Delete(w, true))
            && var s2 := Apply(s1, Delete(w, true));
            s2.rows == s.rows && s.workers[w].key !in s2.objects
  {
  }

  /** From every commit, a raise before the return can lose the READY row's object. */
  lemma CleanupCanLoseAnyReadyObject(es: seq<Event>, w: nat)
    requires ValidRun(es) && Runs(After(es), w) && After(es).workers[w].pc.Committed?
    ensures var run, id := es + [LeaveRaises(w)] + [Delete(w, true)], After(es).workers[w].id;
            ValidRun(run) && IsReady(After(run), id) && After(run).rows[id].storageKey !in After(run).objects
  {
    var s := After(es);
    RunKeeps(es);
    OwnFactsHold(s, w);
    CleanupSteps(s, w);
    RunExtends(es, LeaveRaises(w));
    RunExtends(es + [LeaveRaises(w)], Delete(w, true));
  }

  lemma FirstClaimSteps(id: RowId, size: nat, token: string)
    requires IsToken(token)
    ensures var s1 := Apply(Init(), Register(id.asset, size));
            && Enabled(s1, Call(0, id))
            && var s2 := Apply(s1, Call(0, id));
            && Enabled(s2, Select(0, token))
            && var s3 := Apply(s2, Select(0, token));
            && Enabled(s3, Insert(0, token))
            && var s4 := Apply(s3, Insert(0, token));
            && Runs(s4, 0) && s4.workers[0].pc.Working? && s4.workers[0].id == id && StillHolds(s4, 0, s4.clock)
            && s4.assets == map[id.asset := size]
  {
  }

  /** Any row can be claimed, finished, and lose its object: the condition above is not idle. */
  lemma ReadyRowCanLoseItsObject(id: RowId, media: Media, token: string) returns (run: seq<Event>)
    requires IsToken(token) && Acceptable(media, 1)
    ensures ValidRun(run) && IsReady(After(run), id) && After(run).rows[id].storageKey !in After(run).objects
  {
    FirstClaimSteps(id, 1, token);
    var e0, e1, e2, e3 := Register(id.asset, 1), Call(0, id), Select(0, token), Insert(0, token);
    RunExtends([], e0);
    RunExtends([] + [e0], e1);
    RunExtends([] + [e0] + [e1], e2);
    RunExtends([] + [e0] + [e1] + [e2], e3);
    var es := [] + [e0] + [e1] + [e2] + [e3];
    ClaimFinishes(es, 0, media);
    var committed := es + [Accept(0, media)] + [Upload(0)] + [ReadClock(0)] + [Finalise(0)];
    CleanupCanLoseAnyReadyObject(committed, 0);
    run := committed + [LeaveRaises(0)] + [Delete(0, true)];
  }
}
