/**
 The life of a publish job: where its work is, how its runs end, and how long they can be.
 */
module JobLife {
  import opened Options
  import opened Platforms
  import opened JobMachine

  datatype Kind = Claims | Looks | HandOvers | Retries | Losses | Steps

  predicate Is(kind: Kind, a: Act) {
    match kind
    case Claims => a.Do? && a.outcome.Claim?
    case Looks => a.Do? && a.outcome.Look?
    case HandOvers => a.Do? && a.outcome.Started?
    case Retries => a.Retry?
    case Losses => a.Lose?
    case Steps => a.Do? && !a.outcome.Progress?
  }

  function Count(tr: seq<Act>, kind: Kind): nat {
    if tr == [] then 0 else Count(tr[..|tr| - 1], kind) + (if Is(kind, tr[|tr| - 1]) then 1 else 0)
  }

  function One(b: bool): nat {
    if b then 1 else 0
  }

  predicate IsActive(x: Solo) {
    x.row.Some? && Active(x.row.value.state)
  }

  // ---- conservation of work --------------------------------------------------------------

  /** Work is in hand exactly for an active job; or work was lost, and the job has none. */
  predicate Balanced(x: Solo, losses: nat) {
    if losses == 0 then (IsActive(x) <==> |x.items| == 1) && (!IsActive(x) <==> x.items == [])
    else losses == 1 && IsActive(x) && x.items == []
  }

  lemma ActKeepsBalance(x: Solo, a: Act, losses: nat)
    requires Sound(x) && Balanced(x, losses) && Can(x, a)
    ensures Balanced(Next(x, a), losses + (if a.Lose? then 1 else 0))
  {
    match a {
      case Do(k, o) => DoOnOnlyItem(x, k, o);
      case _ =>
    }
  }

  /**
   In every run without losses a PENDING, UPLOADING or PROCESSING job has exactly one unit of
   work outstanding and any other job has none. A loss leaves the job active with none.
   */
  lemma {:induction false} WorkIsConserved(tr: seq<Act>)
    requires Legal(tr)
    ensures Balanced(Reached(tr), Count(tr, Losses))
  {
    if tr != [] {
      var before := tr[..|tr| - 1];
      WorkIsConserved(before);
      RunKeepsSound(before);
      ActKeepsBalance(Reached(before), tr[|tr| - 1], Count(before, Losses));
    }
  }

  /** A job is stranded -- active with nothing outstanding -- exactly when its work was lost. */
  lemma StrandedIffLost(tr: seq<Act>)
    requires Legal(tr)
    ensures IsActive(Reached(tr)) && Reached(tr).items == [] <==> Count(tr, Losses) > 0
  {
    WorkIsConserved(tr);
  }

  /** And then nothing can ever happen to it again: not a worker, not an operator's retry. */
  lemma StrandedForever(tr: seq<Act>, a: Act)
    requires Legal(tr) && Count(tr, Losses) > 0
    ensures !Can(Reached(tr), a)
  {
    WorkIsConserved(tr);
  }

  lemma LegalExtends(tr: seq<Act>, a: Act)
    requires Legal(tr) && Can(Reached(tr), a)
    ensures Legal(tr + [a]) && Reached(tr + [a]) == Next(Reached(tr), a)
    ensures forall kind :: Count(tr + [a], kind) == Count(tr, kind) + One(Is(kind, a))
  {
    assert (tr + [a])[..|tr|] == tr;
  }

  lemma StepsIntoTheTransfer(asset: string, platform: Platform)
    ensures var x1 := Next(NOTHING, Create(asset, platform, false));
            && Can(x1, Do(0, Enqueue))
            && var x2 := Next(x1, Do(0, Enqueue));
            && Can(x2, Do(0, Claim))
            && var x3 := Next(x2, Do(0, Claim));
            && Can(x3, Do(0, Begin))
            && var x4 := Next(x3, Do(0, Begin));
            x4 == Solo(Some(NewJob(asset, platform, false).(state := Uploading, attempts := 1)), [Transferring(1)])
  {
  }

  /** For one: the worker dies inside the first of three attempts, and the job stays UPLOADING for ever. */
  lemma WorkerDeathStrandsTheJob(asset: string, platform: Platform) returns (tr: seq<Act>)
    ensures tr == [Create(asset, platform, false), Do(0, Enqueue), Do(0, Claim), Do(0, Begin), Lose(0)]
    ensures Legal(tr) && Count(tr, Losses) == 1 && Count(tr, Claims) == 1
    ensures IsActive(Reached(tr)) && Reached(tr).row.value.attempts == 1 < MAX_ATTEMPTS && Reached(tr).items == []
    ensures forall a :: !Can(Reached(tr), a)
  {
    StepsIntoTheTransfer(asset, platform);
    tr := [];
    LegalExtends(tr, Create(asset, platform, false));
    tr := tr + [Create(asset, platform, false)];
    LegalExtends(tr, Do(0, Enqueue));
    tr := tr + [Do(0, Enqueue)];
    LegalExtends(tr, Do(0, Claim));
    tr := tr + [Do(0, Claim)];
    LegalExtends(tr, Do(0, Begin));
    tr := tr + [Do(0, Begin)];
    LegalExtends(tr, Lose(0));
    tr := tr + [Lose(0)];
    forall a ensures !Can(Reached(tr), a) {
      StrandedForever(tr, a);
    }
  }

  /** Until then an active job always has a step to take, and a step is all it can take. */
  lemma ActiveJobsCanMove(tr: seq<Act>)
    requires Legal(tr) && IsActive(Reached(tr)) && Count(tr, Losses) == 0
    ensures Can(Reached(tr), Do(0, Onward(Reached(tr).items[0])))
    ensures !Onward(Reached(tr).items[0]).Progress?
    ensures forall a :: Can(Reached(tr), a) ==> a.Do? || a.Lose?
  {
    WorkIsConserved(tr);
  }

  /** One thing that can happen next to a unit of work. */
  function Onward(item: Item): Outcome {
    match item
    case Dispatch => Enqueue
    case Queued => Claim
    case Claimed(_) => Begin
    case Transferring(_) => Fails(true, "")
    case Requeue => Enqueue
    case SchedulePoll => Enqueue
    case PollQueued(_) => Look
    case Polling(_) => StillProcessing
  }

  // ---- branches that are never taken -----------------------------------------------------

  lemma SoundClaimSucceeds(x: Solo, k: nat)
    requires Sound(x) && Can(x, Do(k, Claim))
    ensures x.row.Some? && x.row.value.state == Pending && x.row.value.attempts < MAX_ATTEMPTS
    ensures var job := x.row.value;
            ClaimJob(x.row) ==
            (Some(job.(attempts := job.attempts + 1, state := Uploading)), [Claimed(job.attempts + 1)])
  {
  }

  /** A claim always succeeds: the row is there, PENDING, with an attempt left. */
  lemma ClaimsSucceed(tr: seq<Act>, k: nat)
    requires Legal(tr) && Can(Reached(tr), Do(k, Claim))
    ensures var row := Reached(tr).row;
            && row.Some? && row.value.state == Pending && row.value.attempts < MAX_ATTEMPTS
            && ClaimJob(row) ==
               (Some(row.value.(attempts := row.value.attempts + 1, state := Uploading)),
                [Claimed(row.value.attempts + 1)])
  {
    RunKeepsSound(tr);
    SoundClaimSucceeds(Reached(tr), k);
  }

  /** A dispatched job is there to be queued. */
  lemma DispatchFindsTheJob(tr: seq<Act>, k: nat)
    requires Legal(tr) && k < |Reached(tr).items|
    ensures Reached(tr).row.Some?
  {
    RunKeepsSound(tr);
  }

  lemma LookFindsAnExternalId(x: Solo, k: nat)
    requires Sound(x) && Can(x, Do(k, Look))
    ensures x.row.Some? && x.row.value.state == Processing && x.row.value.externalId.Some?
    ensures Work(x.row, x.items[k], Look).1 == [] <==> x.row.value.externalId == Some("")
  {
  }

  /** A poll finds its job PROCESSING, and with an external id unless the platform's was empty. */
  lemma PollsFindAnExternalId(tr: seq<Act>, k: nat)
    requires Legal(tr) && Can(Reached(tr), Do(k, Look))
    ensures var x := Reached(tr);
            && x.row.Some? && x.row.value.state == Processing && x.row.value.externalId.Some?
            && (Work(x.row, x.items[k], Look).1 == [] <==> x.row.value.externalId == Some(""))
  {
    RunKeepsSound(tr);
    LookFindsAnExternalId(Reached(tr), k);
  }

  // ---- how long a run can be -------------------------------------------------------------

  function Attempts(x: Solo): nat {
    if x.row.Some? then x.row.value.attempts else 0
  }

  /** Polls a job may have behind it since it was last released or retried. */
  function PollsSoFar(x: Solo): nat {
    if x.items != [] && x.items[0].PollQueued? then x.items[0].count - (if x.items[0].count > 0 then 1 else 0)
    else if x.items != [] && x.items[0].Polling? then x.items[0].count
    else if x.row.Some?
            && (Terminal(x.row.value.state) || (x.row.value.state == Processing && x.items == [])) then MAX_POLLS
    else 0
  }

  function HandedOver(x: Solo): nat {
    if x.row.Some? && (Terminal(x.row.value.state) || x.row.value.state == Processing) then 1 else 0
  }

  /** The steps an item can still lead to, for a job with so many attempts behind it. */
  function StepsLeft(item: Item, attempts: nat): int {
    match item
    case Dispatch => 165 + 4 * (2 - attempts)
    case Requeue => 165 + 4 * (2 - attempts)
    case Queued => 164 + 4 * (2 - attempts)
    case Claimed(_) => 163 + 4 * (3 - attempts)
    case Transferring(_) => 162 + 4 * (3 - attempts)
    case SchedulePoll => 161
    case PollQueued(count) => 2 * (MAX_POLLS - count) + 2
    case Polling(count) => 2 * (MAX_POLLS - count) + 1
  }

  const FULL := 173

  function Left(x: Solo): int {
    if x.items == [] then 0 else StepsLeft(x.items[0], Attempts(x))
  }

  function Opened(x: Solo): nat {
    if x.row.Some? && x.row.value.state != Scheduled then 1 else 0
  }

  /** Every step but a progress report brings the job nearer to its end. */
  lemma StepsUseUpTheMeasure(x: Solo, k: nat, o: Outcome)
    requires Sound(x) && Can(x, Do(k, o))
    ensures 0 <= Left(Next(x, Do(k, o)))
    ensures if o.Progress? then Left(Next(x, Do(k, o))) == Left(x) else Left(Next(x, Do(k, o))) < Left(x)
  {
    DoOnOnlyItem(x, k, o);
    WorkKeepsSound(x, o);
  }

  lemma MeasureIsBounded(x: Solo)
    requires Sound(x)
    ensures 0 <= Left(x) <= FULL
  {
  }

  /** Between two retries: three claims, eighty polls, one hand-over and 173 steps in all. */
  predicate WithinBounds(x: Solo, claims: nat, looks: nat, handOvers: nat, steps: nat, retries: nat) {
    && claims <= MAX_ATTEMPTS * retries + Attempts(x)
    && looks <= MAX_POLLS * retries + PollsSoFar(x)
    && handOvers <= retries + HandedOver(x)
    && steps + Left(x) <= FULL * (retries + Opened(x))
  }

  lemma WorkStaysWithinBounds(x: Solo, k: nat, o: Outcome, claims: nat, looks: nat, handOvers: nat, steps: nat,
        retries: nat)
    requires Sound(x) && Can(x, Do(k, o)) && WithinBounds(x, claims, looks, handOvers, steps, retries)
    ensures WithinBounds(Next(x, Do(k, o)), claims + One(o.Claim?), looks + One(o.Look?), handOvers + One(o.Started?),
                         steps + One(!o.Progress?), retries)
  {
    DoOnOnlyItem(x, k, o);
    StepsUseUpTheMeasure(x, k, o);
  }

  lemma OtherActsStayWithinBounds(x: Solo, a: Act, claims: nat, looks: nat, handOvers: nat, steps: nat, retries: nat)
    requires Sound(x) && Can(x, a) && !a.Do? && WithinBounds(x, claims, looks, handOvers, steps, retries)
    ensures WithinBounds(Next(x, a), claims, looks, handOvers, steps, retries + One(a.Retry?))
  {
  }

  lemma {:induction false} RunStaysWithinBounds(tr: seq<Act>)
    requires Legal(tr)
    ensures WithinBounds(Reached(tr), Count(tr, Claims), Count(tr, Looks), Count(tr, HandOvers), Count(tr, Steps),
            Count(tr, Retries))
  {
    if tr != [] {
      var before := tr[..|tr| - 1];
      RunStaysWithinBounds(before);
      RunKeepsSound(before);
      var x, a := Reached(before), tr[|tr| - 1];
      var claims, looks, handOvers := Count(before, Claims), Count(before, Looks), Count(before, HandOvers);
      var steps, retries := Count(before, Steps), Count(before, Retries);
      if a.Do? {
        WorkStaysWithinBounds(x, a.k, a.outcome, claims, looks, handOvers, steps, retries);
      } else {
        OtherActsStayWithinBounds(x, a, claims, looks, handOvers, steps, retries);
      }
    }
  }

  /**
   Whatever the platform answers and however often work is retried: with n operator retries a job
   is run at most 3(n + 1) times, polled at most 80(n + 1) times and handed over to the platform
   at most n + 1 times, and takes at most 173(n + 1) steps besides progress reports.
   */
  lemma RunsAreBounded(tr: seq<Act>)
    requires Legal(tr)
    ensures var rounds := Count(tr, Retries) + 1;
            && Count(tr, Claims) <= MAX_ATTEMPTS * rounds && Count(tr, Looks) <= MAX_POLLS * rounds
            && Count(tr, HandOvers) <= rounds && Count(tr, Steps) <= FULL * rounds
  {
    RunStaysWithinBounds(tr);
    RunKeepsSound(tr);
    MeasureIsBounded(Reached(tr));
  }

  /** A run that cannot go on by itself has settled its job, unless the job's work was lost. */
  lemma RunsEndSettled(tr: seq<Act>)
    requires Legal(tr) && (forall k, o :: !Can(Reached(tr), Do(k, o))) && Count(tr, Losses) == 0
    ensures !IsActive(Reached(tr))
  {
    if IsActive(Reached(tr)) {
      ActiveJobsCanMove(tr);
    }
  }

  /** Polling never goes back to transferring: only a retry leads from PROCESSING to a new hand-over. */
  lemma ProcessingStaysHandedOver(tr: seq<Act>, a: Act)
    requires Legal(tr) && HandedOver(Reached(tr)) == 1 && Can(Reached(tr), a) && !a.Retry?
    ensures HandedOver(Next(Reached(tr), a)) == 1 && !Is(Claims, a) && !Is(HandOvers, a)
  {
    RunKeepsSound(tr);
    match a {
      case Do(k, o) => DoOnOnlyItem(Reached(tr), k, o);
      case _ =>
    }
  }
}
