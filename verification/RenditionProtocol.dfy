/**
 Any number of workers preparing renditions at once (sau/renditions.py, `prepare_rendition`).

 Every database transaction and every object-store call is one step. A clock reading is a step of
 its own: each transaction compares against a time read before it took the row lock. A worker may
 crash between any two steps. Tokens, `holder` and the provenance of stored objects record who did
 what; no step's effect on rows or objects depends on them.
 */
module RenditionProtocol {
  import opened Options
  import opened RenditionRows

  datatype Pc =
    | Sampled(now: int)             // clock read, row not yet selected
    | Inserting(now: int)           // the select found no row
    | SawReady                      // the claim found the row READY; its second read is to come
    | Working                       // claim committed: download, probe, transcode
    | Accepted                      // validate_output has accepted the output
    | Uploaded                      // the output is in the store
    | Finalising(now: int)          // _mark_ready has read the clock
    | Committed                     // _mark_ready has committed; leaving the temporary directory
    | Discarding(mark: bool)        // an exception handler is about to delete the claim's object
    | Failing                       // object discarded, _mark_failed to come
    | FailStamped(now: int)         // _mark_failed has read the clock
    | Returned(key: string, size: nat)
    | Raised
    | Refused                       // raised before any claim was made

  /** One call of `prepare_rendition`; `key` is the storage key of its claim. */
  datatype Worker = Worker(id: RowId, token: Option<string>, key: string, media: Option<Media>, pc: Pc,
                           committed: bool, deleteFailed: bool, crashed: bool)

  datatype Stored = Stored(media: Media, owner: nat)

  datatype State = State(clock: int, assets: map<string, nat>, rows: map<RowId, Row>, objects: map<string, Stored>,
                         workers: map<nat, Worker>, used: set<string>, holder: map<RowId, nat>)

  datatype Event =
    | Pass(to: int)
    | Register(asset: string, size: nat)
    | Call(w: nat, id: RowId)
    | Select(w: nat, token: string)
    | Insert(w: nat, token: string)
    | ReadReady(w: nat)
    | Accept(w: nat, media: Media)
    | Upload(w: nat)
    | UploadFails(w: nat, stored: bool)
    | ReadClock(w: nat)
    | Finalise(w: nat)
    | Leave(w: nat)
    | LeaveRaises(w: nat)
    | Fail(w: nat)
    | Delete(w: nat, gone: bool)
    | MarkFail(w: nat, message: string)
    | Crash(w: nat)

  function Init(): State {
    State(0, map[], map[], map[], map[], {}, map[])
  }

  predicate Runs(s: State, w: nat) {
    w in s.workers && !s.workers[w].crashed
  }

  predicate Acceptable(media: Media, sourceSize: nat) {
    0 < media.size <= MEDIA_SIZE_LIMIT && sourceSize <= MEDIA_SIZE_LIMIT
  }

  predicate Ended(pc: Pc) {
    pc.Returned? || pc.Raised? || pc.Refused?
  }

  predicate Enabled(s: State, e: Event) {
    match e
    case Pass(to) => s.clock <= to
    case Register(asset, size) => asset !in s.assets
    case Call(w, id) => w !in s.workers
    case Select(w, token) => Runs(s, w) && s.workers[w].pc.Sampled? && IsToken(token) && token !in s.used
    case Insert(w, token) => Runs(s, w) && s.workers[w].pc.Inserting? && IsToken(token) && token !in s.used
    case ReadReady(w) => Runs(s, w) && s.workers[w].pc.SawReady?
    case Accept(w, media) =>
      Runs(s, w) && s.workers[w].pc.Working? && s.workers[w].id.asset in s.assets
        && Acceptable(media, s.assets[s.workers[w].id.asset])
    case Upload(w) => Runs(s, w) && s.workers[w].pc.Accepted?
    case UploadFails(w, stored) => Runs(s, w) && s.workers[w].pc.Accepted?
    case ReadClock(w) => Runs(s, w) && (s.workers[w].pc.Uploaded? || s.workers[w].pc.Failing?)
    case Finalise(w) => Runs(s, w) && s.workers[w].pc.Finalising?
    case Leave(w) => Runs(s, w) && s.workers[w].pc.Committed?
    case LeaveRaises(w) => Runs(s, w) && s.workers[w].pc.Committed?
    case Fail(w) =>
      Runs(s, w) && (s.workers[w].pc.Working? || s.workers[w].pc.Uploaded? || s.workers[w].pc.Finalising?
                     || s.workers[w].pc == Discarding(false))
    case Delete(w, gone) => Runs(s, w) && s.workers[w].pc.Discarding?
    case MarkFail(w, message) => Runs(s, w) && s.workers[w].pc.FailStamped?
    case Crash(w) => Runs(s, w) && !Ended(s.workers[w].pc)
  }

  function At(s: State, w: nat, pc: Pc): State
    requires w in s.workers
  {
    s.(workers := s.workers[w := s.workers[w].(pc := pc)])
  }

  function RowAt(s: State, id: RowId): Option<Row> {
    if id in s.rows then Some(s.rows[id]) else None
  }

  /** The claim transaction, with the clock reading it was entered with. */
  function ClaimStep(s: State, w: nat, token: string, now: int): State
    requires w in s.workers
  {
    var x := s.workers[w];
    match Decide(RowAt(s, x.id), x.id, token, now)
    case AlreadyReady => At(s, w, SawReady)
    case InProgress => At(s, w, Refused)
    case Claimed(row) =>
      s.(rows := s.rows[x.id := row],
         workers := s.workers[w := x.(pc := Working, token := Some(token), key := row.storageKey)],
         used := s.used + {token}, holder := s.holder[x.id := w])
  }

  function Apply(s: State, e: Event): State
    requires Enabled(s, e)
  {
    match e
    case Pass(to) => s.(clock := to)
    case Register(asset, size) => s.(assets := s.assets[asset := size])
    case Call(w, id) =>
      var pc := if id.asset in s.assets then Sampled(s.clock) else Refused;
      s.(workers := s.workers[w := Worker(id, None, "", None, pc, false, false, false)])
    case Select(w, token) =>
      if s.workers[w].id in s.rows then ClaimStep(s, w, token, s.workers[w].pc.now)
      else At(s, w, Inserting(s.workers[w].pc.now))
    case Insert(w, token) => ClaimStep(s, w, token, s.workers[w].pc.now)
    case ReadReady(w) =>
      var id := s.workers[w].id;
      At(s, w, if id in s.rows then Returned(s.rows[id].storageKey, s.rows[id].sizeBytes) else Raised)
    case Accept(w, media) => s.(workers := s.workers[w := s.workers[w].(pc := Accepted, media := Some(media))])
    case Upload(w) => StoreObject(At(s, w, Uploaded), w)
    case UploadFails(w, stored) =>
      var s' := At(s, w, Discarding(true));
      if stored then StoreObject(s', w) else s'
    case ReadClock(w) => At(s, w, if s.workers[w].pc.Uploaded? then Finalising(s.clock) else FailStamped(s.clock))
    case Finalise(w) => FinaliseStep(s, w, s.workers[w].pc.now)
    case Leave(w) =>
      var x := s.workers[w];
      At(s, w, Returned(x.key, if x.media.Some? then x.media.value.size else 0))
    case LeaveRaises(w) => At(s, w, Discarding(true))
    case Fail(w) => At(s, w, Discarding(true))
    case Delete(w, gone) =>
      var x := s.workers[w];
      var x' := x.(pc := if x.pc.mark then Failing else Raised, deleteFailed := !gone);
      s.(workers := s.workers[w := x'], objects := if gone then s.objects - {x.key} else s.objects)
    case MarkFail(w, message) => MarkFailStep(s, w, s.workers[w].pc.now, message)
    case Crash(w) => s.(workers := s.workers[w := s.workers[w].(crashed := true)])
  }

  function StoreObject(s: State, w: nat): State
    requires w in s.workers
  {
    var x := s.workers[w];
    if x.media.Some? then s.(objects := s.objects[x.key := Stored(x.media.value, w)]) else s
  }

  function FinaliseStep(s: State, w: nat, now: int): State
    requires w in s.workers
  {
    var x := s.workers[w];
    var updated := if x.id in s.rows && x.token.Some? && x.media.Some?
                   then MarkReady(s.rows[x.id], x.token.value, now, x.key, x.media.value) else None;
    match updated
    case None => At(s, w, Discarding(false))
    case Some(row) => s.(rows := s.rows[x.id := row], workers := s.workers[w := x.(pc := Committed, committed := true)])
  }

  function MarkFailStep(s: State, w: nat, now: int, message: string): State
    requires w in s.workers
  {
    var x := s.workers[w];
    var updated := if x.id in s.rows && x.token.Some? then MarkFailed(s.rows[x.id], x.token.value, now, message)
                   else None;
    match updated
    case None => At(s, w, Raised)
    case Some(row) => At(s.(rows := s.rows[x.id := row]), w, Raised)
  }

  /** A run: events each enabled in the state the earlier ones lead to. */
  predicate ValidRun(es: seq<Event>)
    decreases |es|, 0
  {
    es == [] || (ValidRun(es[..|es| - 1]) && Enabled(After(es[..|es| - 1]), es[|es| - 1]))
  }

  function After(es: seq<Event>): State
    requires ValidRun(es)
    decreases |es|, 1
  {
    if es == [] then Init() else Apply(After(es[..|es| - 1]), es[|es| - 1])
  }
}
