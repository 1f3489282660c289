/**
 One publish job and the work outstanding for it (sau/queue/tasks.py, and the endpoints of
 sau/api/main.py that change a job).

 Every `session_scope` transaction is one step, and so is every call that puts work on a queue:
 the process may be lost between the two. What the platform answers is part of the step.
 */
module JobMachine {
  import opened Options
  import opened Platforms

  datatype JobState = Scheduled | Pending | Uploading | Processing | Published | Failed

  datatype Job = Job(asset: string, platform: Platform, state: JobState, attempts: nat, externalId: Option<string>,
                     url: Option<string>, uploaded: nat, error: Option<string>)

  /** A unit of outstanding work, and how far it has got. */
  datatype Item =
    | Dispatch                      // a background task that will put the job on its queue
    | Queued                        // run_publish_job, on the queue
    | Claimed(attempts: nat)        // run_publish_job, after _claim
    | Transferring(attempts: nat)   // run_publish_job, inside publish
    | Requeue                       // run_publish_job, about to put itself on the queue again
    | SchedulePoll                  // run_publish_job, about to put the first poll on the queue
    | PollQueued(count: nat)        // poll_publish_job, on the queue
    | Polling(count: nat)           // poll_publish_job, inside check_status

  /** What happens to a unit of work next. */
  datatype Outcome =
    | Enqueue
    | Claim
    | Begin
    | Progress(uploaded: nat)
    | Started(externalId: string, state: JobState, url: Option<string>)
    | Fails(retryable: bool, message: string)
    | Breaks(message: string)
    | Look
    | Settles(state: JobState, url: Option<string>, error: Option<string>)
    | StillProcessing
    | Rejects(message: string)

  const MAX_ATTEMPTS := 3
  const MAX_POLLS := 80

  predicate Terminal(state: JobState) {
    state == Published || state == Failed
  }

  /** The states in which something is due to happen to a job without an operator. */
  predicate Active(state: JobState) {
    state == Pending || state == Uploading || state == Processing
  }

  predicate Fits(item: Item, o: Outcome) {
    match o
    case Enqueue => item.Dispatch? || item.Requeue? || item.SchedulePoll?
    case Claim => item.Queued?
    case Begin => item.Claimed?
    case Progress(_) => item.Transferring?
    case Started(_, state, _) => item.Transferring? && (state == Processing || state == Published)
    case Fails(_, _) => item.Transferring?
    case Breaks(_) => item.Transferring? || item.Claimed?
    case Look => item.PollQueued?
    case Settles(state, _, _) => item.Polling? && Terminal(state)
    case StillProcessing => item.Polling?
    case Rejects(_) => item.Polling?
  }

  function Cut(message: string): string {
    if |message| <= 2000 then message else message[..2000]
  }

  function MarkFailed(job: Job, message: string): Job {
    job.(state := Failed, error := Some(Cut(message)))
  }

  /** A step that sets columns of the row, if the row still exists. */
  function Update(row: Option<Job>, f: Job -> Job): Option<Job> {
    if row.Some? then Some(f(row.value)) else None
  }

  /** An empty URL counts as none. */
  function UrlOr(url: Option<string>, known: Option<string>): Option<string> {
    if url.Some? && url.value != "" then url else known
  }

  /** What one step of a unit of work makes of the row, and what work takes its place. */
  function Work(row: Option<Job>, item: Item, o: Outcome): (Option<Job>, seq<Item>)
    requires Fits(item, o)
  {
    match o
    case Enqueue =>
      if item.SchedulePoll? then (row, [PollQueued(1)])
      else if item.Requeue? || row.Some? then (row, [Queued])
      else (row, [])
    case Claim => ClaimJob(row)
    case Begin =>
      (Update(row, (job: Job) => job.(state := Uploading)),
       if row.Some? then [Transferring(item.attempts)] else [])
    case Progress(uploaded) => (Update(row, (job: Job) => job.(uploaded := uploaded)), [item])
    case Started(id, state, url) =>
      (Update(row, (job: Job) => job.(externalId := Some(id), url := url, state := state, error := None)),
       if state == Processing then [SchedulePoll] else [])
    case Fails(retryable, message) =>
      var retry := retryable && item.attempts < MAX_ATTEMPTS;
      (Update(row, (job: Job) => if retry then job.(state := Pending, error := Some(Cut(message)))
                                 else MarkFailed(job, message)),
       if retry && row.Some? then [Requeue] else [])
    case Breaks(message) => (Update(row, (job: Job) => MarkFailed(job, message)), [])
    case Look => LookAtJob(row, item.count)
    case Settles(state, url, error) =>
      (Update(row, (job: Job) => job.(state := state, url := UrlOr(url, job.url), error := error)), [])
    case StillProcessing =>
      if item.count >= MAX_POLLS
      then (Update(row, (job: Job) => MarkFailed(job, "still processing after 80 polls")), [])
      else (row, [PollQueued(item.count + 1)])
    case Rejects(message) => (Update(row, (job: Job) => MarkFailed(job, message)), [])
  }

  /** `_claim`. */
  function ClaimJob(row: Option<Job>): (Option<Job>, seq<Item>) {
    if row.None? || Terminal(row.value.state) || row.value.state == Scheduled then (row, [])
    else
      var job := row.value.(attempts := row.value.attempts + 1);
      if job.attempts > MAX_ATTEMPTS then (Some(MarkFailed(job, "exhausted 3 attempts")), [])
      else (Some(job.(state := Uploading)), [Claimed(job.attempts)])
  }

  /** The first transaction of `poll_publish_job`; an empty external id counts as none. */
  function LookAtJob(row: Option<Job>, count: nat): (Option<Job>, seq<Item>) {
    if row.None? || Terminal(row.value.state) then (row, [])
    else if row.value.externalId.None? || row.value.externalId.value == ""
    then (Some(MarkFailed(row.value, "polled a job with no external id")), [])
    else (row, [Polling(count)])
  }

  // ---- runs of one job -------------------------------------------------------------------

  datatype Solo = Solo(row: Option<Job>, items: seq<Item>)

  datatype Act =
    | Create(asset: string, platform: Platform, scheduled: bool)
    | Release
    | Drop
    | Retry
    | Do(k: nat, outcome: Outcome)
    | Lose(k: nat)                  // the process or the queue loses a unit of work

  function NewJob(asset: string, platform: Platform, scheduled: bool): Job {
    Job(asset, platform, if scheduled then Scheduled else Pending, 0, None, None, 0, None)
  }

  predicate Can(x: Solo, a: Act) {
    match a
    case Create(_, _, _) => x.row.None?
    case Release => x.row.Some? && x.row.value.state == Scheduled
    case Drop => x.row.Some? && x.row.value.state == Scheduled
    case Retry => x.row.Some? && x.row.value.state == Failed
    case Do(k, o) => k < |x.items| && Fits(x.items[k], o)
    case Lose(k) => k < |x.items|
  }

  function Without<T>(s: seq<T>, k: nat): seq<T>
    requires k < |s|
  {
    s[..k] + s[k + 1..]
  }

  function Next(x: Solo, a: Act): Solo
    requires Can(x, a)
  {
    match a
    case Create(asset, platform, scheduled) =>
      Solo(Some(NewJob(asset, platform, scheduled)), if scheduled then x.items else x.items + [Dispatch])
    case Release => Solo(Some(x.row.value.(state := Pending)), x.items + [Dispatch])
    case Drop => x.(row := None)
    case Retry => Solo(Some(x.row.value.(state := Pending, attempts := 0, error := None)), x.items + [Dispatch])
    case Do(k, o) =>
      var result := Work(x.row, x.items[k], o);
      Solo(result.0, Without(x.items, k) + result.1)
    case Lose(k) => x.(items := Without(x.items, k))
  }

  const NOTHING := Solo(None, [])

  predicate Legal(tr: seq<Act>)
    decreases |tr|, 0
  {
    tr == [] || (Legal(tr[..|tr| - 1]) && Can(Reached(tr[..|tr| - 1]), tr[|tr| - 1]))
  }

  function Reached(tr: seq<Act>): Solo
    requires Legal(tr)
    decreases |tr|, 1
  {
    if tr == [] then NOTHING else Next(Reached(tr[..|tr| - 1]), tr[|tr| - 1])
  }

  // ---- what every run keeps --------------------------------------------------------------

  /** The row says what the work in hand is for. */
  predicate Matches(job: Job, item: Item) {
    match item
    case Dispatch => job.state == Pending && job.attempts < MAX_ATTEMPTS
    case Queued => job.state == Pending && job.attempts < MAX_ATTEMPTS
    case Requeue => job.state == Pending && job.attempts < MAX_ATTEMPTS
    case Claimed(attempts) => job.state == Uploading && attempts == job.attempts >= 1
    case Transferring(attempts) => job.state == Uploading && attempts == job.attempts >= 1
    case SchedulePoll => job.state == Processing && job.externalId.Some?
    case PollQueued(count) => job.state == Processing && job.externalId.Some? && 1 <= count <= MAX_POLLS
    case Polling(count) =>
      job.state == Processing && job.externalId.Some? && job.externalId.value != "" && 1 <= count <= MAX_POLLS
  }

  predicate Sound(x: Solo) {
    && |x.items| <= 1
    && (|x.items| == 1 ==> x.row.Some? && Matches(x.row.value, x.items[0]))
    && (x.row.Some? ==> x.row.value.attempts <= MAX_ATTEMPTS)
    && (x.row.Some? && x.row.value.state == Scheduled ==> x.row.value.attempts == 0)
  }

  lemma WorkKeepsSound(x: Solo, o: Outcome)
    requires Sound(x) && |x.items| == 1 && Fits(x.items[0], o)
    ensures Sound(Solo(Work(x.row, x.items[0], o).0, Work(x.row, x.items[0], o).1))
  {
  }

  lemma DoOnOnlyItem(x: Solo, k: nat, o: Outcome)
    requires Sound(x) && Can(x, Do(k, o))
    ensures k == 0 && |x.items| == 1
    ensures Next(x, Do(k, o)) == Solo(Work(x.row, x.items[0], o).0, Work(x.row, x.items[0], o).1)
  {
  }

  lemma ActKeepsSound(x: Solo, a: Act)
    requires Sound(x) && Can(x, a)
    ensures Sound(Next(x, a))
  {
    match a {
      case Do(k, o) =>
        DoOnOnlyItem(x, k, o);
        WorkKeepsSound(x, o);
      case _ =>
    }
  }

  lemma {:induction false} RunKeepsSound(tr: seq<Act>)
    requires Legal(tr)
    ensures Sound(Reached(tr))
  {
    if tr != [] {
      RunKeepsSound(tr[..|tr| - 1]);
      ActKeepsSound(Reached(tr[..|tr| - 1]), tr[|tr| - 1]);
    }
  }
}
