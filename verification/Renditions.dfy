/**
 One call of `prepare_rendition` (sau/renditions.py), with nobody else at work but for the insert
 race. Each transaction is a method; the protocol in RenditionProtocol interleaves the same ones.
 */
module Renditions {
  import opened Options
  import opened RenditionRows

  /** An asset: its size, and what the last probe of its source found. */
  datatype Asset = Asset(size: nat, probed: Option<string>)

  /** What another worker does between a select that finds no row and the insert after it. */
  datatype Race = Quiet | Inserted(row: Row) | InsertedAndGone

  datatype Claim = Claim(sourceSize: nat, state: RowState, key: string, token: Option<string>)

  datatype Prepared = Prepared(key: string, size: nat)

  /** The PreparationErrors, by what distinguishes them; `Invalid` carries a validation error's code. */
  datatype Error = AssetNotFound | ClaimRace | AlreadyRunning | StaleClaim | Invalid(code: string) | Unprepared

  /** Whether the caller is told to try again. */
  predicate Retryable(e: Error) {
    !e.AssetNotFound? && !e.Invalid?
  }

  /** How downloading, probing and transcoding end. */
  datatype Work =
    | Encoded(media: Media, source: string)
    | Unfit(code: string, message: string)     // a MediaValidationError
    | Broken(message: string)                  // any other exception

  /** How the part of a call inside its try block ends. */
  datatype Attempt = Done(prepared: Prepared) | Stale | Failure(error: Error, message: string)

  /** What the world decides during one call. */
  datatype Chance = Chance(claimNow: int, race: Race, work: Work, uploadRaises: bool, readyNow: int,
                           cleanupRaises: bool, deleteWorks: bool, failNow: int)

  /** The row as a claim finds it, at its first look or, after a lost insert, at its second. */
  function FoundRow(rows: map<RowId, Row>, id: RowId, race: Race): Option<Row> {
    if id in rows then Some(rows[id]) else if race.Inserted? then Some(race.row) else None
  }

  /** The table with the row another worker inserted in between. */
  function AfterRace(rows: map<RowId, Row>, id: RowId, race: Race): map<RowId, Row> {
    match FoundRow(rows, id, race)
    case Some(row) => rows[id := row]
    case None => rows
  }

  /** The work gets as far as asking for the row to be made READY. */
  predicate Produces(sourceSize: nat, c: Chance) {
    && sourceSize <= MEDIA_SIZE_LIMIT && c.work.Encoded? && 0 < c.work.media.size <= MEDIA_SIZE_LIMIT
    && !c.uploadRaises
  }

  predicate InLease(c: Chance, now: int) {
    now < c.claimNow + LEASE
  }

  /** A call with a claim returns normally. */
  predicate Finishes(sourceSize: nat, c: Chance) {
    Produces(sourceSize, c) && InLease(c, c.readyNow) && !c.cleanupRaises
  }

  /** A call with a claim ends because the claim turned out stale. */
  predicate EndsStale(sourceSize: nat, c: Chance) {
    Produces(sourceSize, c) && !InLease(c, c.readyNow) && !c.cleanupRaises
  }

  /** A call with a claim ends with a validation error of this code. */
  predicate FailsValidation(sourceSize: nat, c: Chance, code: string) {
    if sourceSize > MEDIA_SIZE_LIMIT then code == "source_too_large"
    else
      match c.work
      case Unfit(found, _) => code == found
      case Encoded(media, _) =>
        || (media.size == 0 && code == "invalid_output_size")
        || (media.size > MEDIA_SIZE_LIMIT && code == "output_too_large")
      case Broken(_) => false
  }

  /** The state such a call leaves the row in. */
  function EndState(sourceSize: nat, c: Chance): RowState {
    if Produces(sourceSize, c) && InLease(c, c.readyNow) then Ready
    else if !EndsStale(sourceSize, c) && InLease(c, c.failNow) then RowState.Failed
    else Processing
  }

  /** What such a call leaves in the store. */
  function StoreAfter(objects: map<string, Media>, key: string, sourceSize: nat, c: Chance): map<string, Media> {
    var stored := if Produces(sourceSize, c) then objects[key := c.work.media] else objects;
    if !Finishes(sourceSize, c) && c.deleteWorks then objects - {key} else stored
  }

  /** A row that is READY, or under a lease that is live, is not claimed. */
  predicate Claimable(row: Option<Row>, now: int) {
    row.Some? ==> row.value.state != Ready && !LiveAt(row.value, now)
  }

  /** The claim transaction makes a claim. */
  predicate Claims(assets: map<string, Asset>, rows: map<RowId, Row>, id: RowId, c: Chance) {
    && id.asset in assets && !(id !in rows && c.race.InsertedAndGone?)
    && Claimable(FoundRow(rows, id, c.race), c.claimNow)
  }

  /**
   The predicates above in numbers: files of up to 8 GiB, a lease of two hours, and the state and
   the store each kind of call leaves behind.
   */
  lemma WhatACallComesTo(sourceSize: nat, c: Chance, objects: map<string, Media>, key: string)
    ensures Produces(sourceSize, c) <==>
              && sourceSize <= 8_589_934_592 && c.work.Encoded? && 1 <= c.work.media.size <= 8_589_934_592
              && !c.uploadRaises
    ensures Finishes(sourceSize, c) <==>
              Produces(sourceSize, c) && !c.cleanupRaises && c.readyNow - c.claimNow < 7200
    ensures EndsStale(sourceSize, c) <==>
              Produces(sourceSize, c) && !c.cleanupRaises && c.readyNow - c.claimNow >= 7200
    ensures EndState(sourceSize, c) == Ready <==> Produces(sourceSize, c) && c.readyNow - c.claimNow < 7200
    ensures EndState(sourceSize, c) == RowState.Failed <==>
              && !(Produces(sourceSize, c) && (c.readyNow - c.claimNow < 7200 || !c.cleanupRaises))
              && c.failNow - c.claimNow < 7200
    ensures EndState(sourceSize, c) != Pending
    ensures StoreAfter(objects, key, sourceSize, c) ==
            if Produces(sourceSize, c) && ((!c.cleanupRaises && c.readyNow - c.claimNow < 7200) || !c.deleteWorks)
            then objects[key := c.work.media]
            else if c.deleteWorks then objects - {key}
            else objects
    ensures forall e :: Retryable(e) <==> e in {ClaimRace, AlreadyRunning, StaleClaim, Unprepared}
  {
  }

  class RenditionTable {
    var assets: map<string, Asset>
    var rows: map<RowId, Row>
    var objects: map<string, Media>

    method ClaimPreparation(id: RowId, token: string, now: int, race: Race) returns (r: Result<Claim, Error>)
      modifies this`rows
      ensures r == Err(AssetNotFound) <==> id.asset !in assets
      ensures r == Err(ClaimRace) <==> id.asset in assets && id !in old(rows) && race.InsertedAndGone?
      ensures r == Err(AlreadyRunning) <==>
                var row := FoundRow(old(rows), id, race);
                && id.asset in assets && row.Some? && row.value.state == Processing
                && row.value.lease.Some? && row.value.lease.value > now
      ensures r.Err? ==> r.error in {AssetNotFound, ClaimRace, AlreadyRunning}
      ensures r.Err? ==> rows == if id.asset in assets then AfterRace(old(rows), id, race) else old(rows)
      ensures r.Ok? && r.value.state == Ready ==>
                var row := FoundRow(old(rows), id, race);
                && row.Some? && row.value.state == Ready && rows == AfterRace(old(rows), id, race)
                && r.value == Claim(assets[id.asset].size, Ready, row.value.storageKey, None)
                && Decide(row, id, token, now) == AlreadyReady
      ensures r == Err(AlreadyRunning) ==> Decide(FoundRow(old(rows), id, race), id, token, now) == InProgress
      ensures r.Ok? && r.value.state != Ready ==>
                var row := FoundRow(old(rows), id, race);
                && (row.Some? ==> row.value.state != Ready)
                && r.value == Claim(assets[id.asset].size, Processing, ClaimKey(id, token), Some(token))
                && id in rows && rows == old(rows)[id := rows[id]]
                && rows[id].state == Processing && rows[id].token == Some(token) && rows[id].lease == Some(now + 7200)
                && rows[id].storageKey == ClaimKey(id, token) && rows[id].error == None && rows[id].completedAt == None
                && rows[id].sizeBytes == (if row.Some? then row.value.sizeBytes else 0)
                && rows[id].output == (if row.Some? then row.value.output else None)
                && Decide(row, id, token, now) == Claimed(rows[id])
    {
      if id.asset !in assets {
        return Err(AssetNotFound);
      }
      var size := assets[id.asset].size;
      if id in rows {
        if rows[id].state == Ready {
          return Ok(Claim(size, Ready, rows[id].storageKey, None));
        }
        if LiveAt(rows[id], now) {
          return Err(AlreadyRunning);
        }
      } else {
        match race {
          case Quiet =>
            rows := rows[id := Row(Pending, ClaimKey(id, token), 0, None, None, None, None, None)];
          case Inserted(other) =>
            rows := rows[id := other];
            if other.state == Ready {
              return Ok(Claim(size, Ready, other.storageKey, None));
            }
            if LiveAt(other, now) {
              return Err(AlreadyRunning);
            }
          case InsertedAndGone =>
            return Err(ClaimRace);
        }
      }
      rows := rows[id := rows[id].(state := Processing, token := Some(token), lease := Some(now + LEASE),
                                   storageKey := ClaimKey(id, token), error := None, completedAt := None)];
      return Ok(Claim(size, Processing, ClaimKey(id, token), Some(token)));
    }

    /** False when no row matched: the claim was superseded or its lease is over. */
    method MarkReady(id: RowId, token: string, now: int, key: string, media: Media, source: string) returns (ok: bool)
      modifies this`rows, this`assets
      ensures ok <==> && id in old(rows) && old(rows)[id].state == Processing && old(rows)[id].token == Some(token)
                      && old(rows)[id].lease.Some? && old(rows)[id].lease.value > now
      ensures !ok ==> rows == old(rows) && assets == old(assets)
      ensures ok ==> rows == old(rows)[id := Row(Ready, key, media.size, None, None, Some(media), None, Some(now))]
                     && Some(rows[id]) == RenditionRows.MarkReady(old(rows)[id], token, now, key, media)
      ensures ok ==> assets.Keys == old(assets).Keys
                     && forall a :: a in assets ==>
                          assets[a] == if a == id.asset then Asset(old(assets)[a].size, Some(source))
                                       else old(assets)[a]
    {
      if id !in rows || !HoldsClaim(rows[id], token, now) {
        return false;
      }
      rows := rows[id := rows[id].(state := Ready, storageKey := key, sizeBytes := media.size, error := None,
                                   token := None, lease := None, output := Some(media), completedAt := Some(now))];
      if id.asset in assets {
        assets := assets[id.asset := assets[id.asset].(probed := Some(source))];
      }
      return true;
    }

    /** Whether a row matched; the message is cut to 2000 characters. */
    method MarkFailed(id: RowId, token: string, now: int, message: string) returns (ok: bool)
      modifies this`rows
      ensures ok <==> && id in old(rows) && old(rows)[id].state == Processing && old(rows)[id].token == Some(token)
                      && old(rows)[id].lease.Some? && old(rows)[id].lease.value > now
      ensures !ok ==> rows == old(rows)
      ensures ok ==>
                var was := old(rows)[id];
                && id in rows && rows == old(rows)[id := rows[id]]
                && rows[id] == Row(RowState.Failed, was.storageKey, was.sizeBytes, None, None, was.output,
                                   rows[id].error, Some(now))
                && rows[id].error.Some? && rows[id].error.value <= message
                && |rows[id].error.value| == (if |message| > 2000 then 2000 else |message|)
                && Some(rows[id]) == RenditionRows.MarkFailed(was, token, now, message)
    {
      if id !in rows || !HoldsClaim(rows[id], token, now) {
        return false;
      }
      var cut := if |message| <= 2000 then message else message[..2000];
      rows := rows[id := rows[id].(state := Failed, error := Some(cut), token := None, lease := None,
                                   completedAt := Some(now))];
      return true;
    }

    /** An error of the store is swallowed. */
    method DiscardClaimObject(key: string, works: bool)
      modifies this`objects
      ensures objects == if works then old(objects) - {key} else old(objects)
    {
      if works {
        objects := objects - {key};
      }
    }

    /** From the claim to the end of the temporary directory. */
    method Produce(id: RowId, token: string, claim: Claim, c: Chance) returns (r: Attempt)
      requires id in rows && HoldsClaim(rows[id], token, c.claimNow) && rows[id].lease == Some(c.claimNow + LEASE)
      modifies this
      ensures assets.Keys == old(assets).Keys && id in rows && rows == old(rows)[id := rows[id]]
      ensures r.Done? <==> Finishes(claim.sourceSize, c)
      ensures r.Stale? <==> EndsStale(claim.sourceSize, c)
      ensures r.Done? ==> r.prepared == Prepared(claim.key, c.work.media.size)
      ensures r.Failure? ==> r.error == Unprepared || r.error.Invalid?
      ensures r.Failure? && claim.sourceSize <= MEDIA_SIZE_LIMIT && !c.work.Encoded? ==> r.message == c.work.message
      ensures forall code :: r.Failure? && r.error == Invalid(code) <==> FailsValidation(claim.sourceSize, c, code)
      ensures objects == if Produces(claim.sourceSize, c) then old(objects)[claim.key := c.work.media] else old(objects)
      ensures if Produces(claim.sourceSize, c) && InLease(c, c.readyNow)
              then Some(rows[id]) == RenditionRows.MarkReady(old(rows)[id], token, c.readyNow, claim.key, c.work.media)
              else rows == old(rows)
    {
      if claim.sourceSize > MEDIA_SIZE_LIMIT {
        return Failure(Invalid("source_too_large"), "source exceeds the profile size limit");
      }
      match c.work {
        case Unfit(code, message) => return Failure(Invalid(code), message);
        case Broken(message) => return Failure(Unprepared, message);
        case Encoded(media, source) =>
          if media.size <= 0 {
            return Failure(Invalid("invalid_output_size"), "output size must be positive");
          }
          if media.size > MEDIA_SIZE_LIMIT {
            return Failure(Invalid("output_too_large"), "output exceeds the profile size limit");
          }
          if c.uploadRaises {
            return Failure(Unprepared, "upload failed");
          }
          objects := objects[claim.key := media];
          var ok := MarkReady(id, token, c.readyNow, claim.key, media, source);
          if c.cleanupRaises {
            return Failure(Unprepared, "cleanup failed");
          }
          return if ok then Done(Prepared(claim.key, media.size)) else Stale;
      }
    }

    /** The exception handlers: a stale claim is not marked failed. */
    method Recover(id: RowId, token: string, key: string, attempt: Attempt, c: Chance) returns (error: Error)
      requires !attempt.Done?
      modifies this`rows, this`objects
      ensures objects == if c.deleteWorks then old(objects) - {key} else old(objects)
      ensures if attempt.Failure? && id in old(rows) && HoldsClaim(old(rows)[id], token, c.failNow)
              then id in rows && rows == old(rows)[id := rows[id]]
                   && Some(rows[id]) == RenditionRows.MarkFailed(old(rows)[id], token, c.failNow, attempt.message)
              else rows == old(rows)
      ensures error == if attempt.Stale? then StaleClaim else attempt.error
    {
      DiscardClaimObject(key, c.deleteWorks);
      if attempt.Stale? {
        return StaleClaim;
      }
      var marked := MarkFailed(id, token, c.failNow, attempt.message);
      return attempt.error;
    }

    /** Everything after a claim has been made. */
    method FinishClaim(id: RowId, token: string, claim: Claim, c: Chance) returns (r: Result<Prepared, Error>)
      requires id in rows && HoldsClaim(rows[id], token, c.claimNow) && rows[id].lease == Some(c.claimNow + LEASE)
      modifies this
      ensures assets.Keys == old(assets).Keys && id in rows && rows == old(rows)[id := rows[id]]
      ensures r.Ok? <==> Finishes(claim.sourceSize, c)
      ensures r.Ok? ==> r.value == Prepared(claim.key, c.work.media.size)
      ensures r == Err(StaleClaim) <==> EndsStale(claim.sourceSize, c)
      ensures forall code :: r == Err(Invalid(code)) <==> FailsValidation(claim.sourceSize, c, code)
      ensures r.Err? ==> r.error == StaleClaim || r.error.Invalid? || r.error == Unprepared
      ensures rows[id].state == EndState(claim.sourceSize, c)
      ensures rows[id].storageKey == if rows[id].state == Ready then claim.key else old(rows)[id].storageKey
      ensures rows[id].state == Ready ==> rows[id].sizeBytes == c.work.media.size
      ensures rows[id].state == Processing ==> rows == old(rows)
      ensures rows[id].state == RowState.Failed ==>
                && rows[id].error.Some? && rows[id].token == None && rows[id].lease == None
                && (claim.sourceSize <= MEDIA_SIZE_LIMIT && !c.work.Encoded? ==> rows[id].error.value <= c.work.message)
      ensures objects == StoreAfter(old(objects), claim.key, claim.sourceSize, c)
    {
      var attempt := Produce(id, token, claim, c);
      if attempt.Done? {
        return Ok(attempt.prepared);
      }
      var error := Recover(id, token, claim.key, attempt, c);
      return Err(error);
    }

    /**
     A call returns normally exactly when it finds the row READY, or makes a claim and finishes it;
     then the row is READY with the returned key and size. Each error has its exact condition. With
     a claim the row ends in the state `EndState` gives it, and the store as `StoreAfter` says;
     without one both stay as they were, but for the row another worker inserted.
     */
    method PrepareRendition(id: RowId, token: string, c: Chance) returns (r: Result<Prepared, Error>)
      modifies this
      ensures assets.Keys == old(assets).Keys
      ensures r.Ok? <==>
                || (id.asset in old(assets)
                    && var row := FoundRow(old(rows), id, c.race); row.Some? && row.value.state == Ready)
                || (Claims(old(assets), old(rows), id, c) && Finishes(old(assets)[id.asset].size, c))
      ensures r.Ok? ==>
                && id in rows && rows[id].state == Ready
                && r.value == Prepared(rows[id].storageKey, rows[id].sizeBytes)
      ensures r == Err(AssetNotFound) <==> id.asset !in old(assets)
      ensures r == Err(ClaimRace) <==> id.asset in old(assets) && id !in old(rows) && c.race.InsertedAndGone?
      ensures r == Err(AlreadyRunning) <==>
                var row := FoundRow(old(rows), id, c.race);
                && id.asset in old(assets) && row.Some? && row.value.state == Processing
                && row.value.lease.Some? && row.value.lease.value > c.claimNow
      ensures r == Err(StaleClaim) <==>
                Claims(old(assets), old(rows), id, c) && EndsStale(old(assets)[id.asset].size, c)
      ensures forall code :: r == Err(Invalid(code)) <==>
                Claims(old(assets), old(rows), id, c) && FailsValidation(old(assets)[id.asset].size, c, code)
      ensures !Claims(old(assets), old(rows), id, c) ==>
                && rows == (if id.asset in old(assets) then AfterRace(old(rows), id, c.race) else old(rows))
                && objects == old(objects)
      ensures Claims(old(assets), old(rows), id, c) ==>
                && id in rows && rows == old(rows)[id := rows[id]]
                && rows[id].state == EndState(old(assets)[id.asset].size, c)
                && rows[id].storageKey == ClaimKey(id, token)
                && (rows[id].state == Ready ==> rows[id].sizeBytes == c.work.media.size)
                && objects == StoreAfter(old(objects), ClaimKey(id, token), old(assets)[id.asset].size, c)
    {
      var claimed := ClaimPreparation(id, token, c.claimNow, c.race);
      if claimed.Err? {
        return Err(claimed.error);
      }
      var claim := claimed.value;
      if claim.state == Ready {
        return Ok(Prepared(rows[id].storageKey, rows[id].sizeBytes));
      }
      r := FinishClaim(id, token, claim, c);
    }
  }
}
