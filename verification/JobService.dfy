/**
 The requests and tasks as the program runs them, each proved to do what the steps of JobMachine
 and JobSystem say (sau/api/main.py, sau/queue/tasks.py).
 */
module JobService {
  import opened Options
  import opened Platforms
  import opened JobMachine
  import opened JobSystem

  function First(s: string, n: nat): (r: string)
    ensures r <= s && |r| == if |s| < n then |s| else n
  {
    if |s| <= n then s else s[..n]
  }

  /** The end of a transfer, as `run_publish_job` sees it. */
  predicate EndsTransfer(o: Outcome) {
    o.Fails? || o.Breaks? || (o.Started? && (o.state == Processing || o.state == Published))
  }

  /** What `check_status` comes to; a transport error is not one of these. */
  datatype Answer =
    | Status(state: JobState, url: Option<string>, error: Option<string>)
    | Refusal(retryable: bool, message: string)

  function AnswerOutcome(a: Answer): Outcome {
    match a
    case Status(state, url, error) => if state == Processing then StillProcessing else Settles(state, url, error)
    case Refusal(retryable, message) => if retryable then StillProcessing else Rejects(message)
  }

  // ---- tasks as sequences of steps -------------------------------------------------------

  function Reports(row: Option<Job>, progress: seq<nat>): Option<Job> {
    if progress == [] then row
    else Update(Reports(row, progress[..|progress| - 1]), (job: Job) => job.(uploaded := progress[|progress| - 1]))
  }

  /** The steps of one `run_publish_job`: the row it leaves and the work it has put on a queue. */
  function RunOnce(row: Option<Job>, progress: seq<nat>, end: Outcome): (Option<Job>, seq<Item>)
    requires EndsTransfer(end)
  {
    var claimed := Work(row, Queued, Claim);
    if claimed.1 == [] then claimed
    else
      var begun := Work(claimed.0, claimed.1[0], Begin);
      if begun.1 == [] then begun
      else
        Ending(Reports(begun.0, progress), begun.1[0].attempts, end)
  }

  /** What is recorded of the transfer's end, and what is put on a queue because of it. */
  function Ending(row: Option<Job>, attempt: nat, end: Outcome): (Option<Job>, seq<Item>)
    requires EndsTransfer(end)
  {
    var ended := Work(row, Transferring(attempt), end);
    if ended.1 == [] then ended else Work(ended.0, ended.1[0], Enqueue)
  }

  lemma RunOnceAfterClaim(row: Option<Job>, progress: seq<nat>, end: Outcome)
    requires EndsTransfer(end) && ClaimJob(row).1 != []
    ensures var claimed := ClaimJob(row).0;
            && claimed.Some?
            && RunOnce(row, progress, end) ==
               Ending(Reports(Some(claimed.value.(state := Uploading)), progress), claimed.value.attempts, end)
  {
  }

  /** The steps of one `poll_publish_job`. */
  function PollOnce(row: Option<Job>, count: nat, a: Answer): (Option<Job>, seq<Item>)
    requires a.Status? ==> a.state == Processing || Terminal(a.state)
  {
    var looked := Work(row, PollQueued(count), Look);
    if looked.1 == [] then looked else Work(looked.0, looked.1[0], AnswerOutcome(a))
  }

  lemma {:induction false} ReportsTouchOnlyTheOffset(job: Job, progress: seq<nat>)
    ensures var r := Reports(Some(job), progress);
            r.Some? && r.value == job.(uploaded := if progress == [] then job.uploaded else progress[|progress| - 1])
    decreases |progress|
  {
    if progress != [] {
      ReportsTouchOnlyTheOffset(job, progress[..|progress| - 1]);
    }
  }

  /**
   One run of a job with attempts left: a delivered job is PROCESSING with its first poll queued, or
   PUBLISHED; a retryable error puts it back on its queue unless this was the third attempt;
   anything else fails it. What the platform said and the last offset are recorded.
   */
  lemma RunOnceSettlesOrRequeues(job: Job, progress: seq<nat>, end: Outcome)
    requires !Terminal(job.state) && job.state != Scheduled && job.attempts < 3 && EndsTransfer(end)
    ensures var r := RunOnce(Some(job), progress, end);
            var run := job.(attempts := job.attempts + 1,
                            uploaded := if progress == [] then job.uploaded else progress[|progress| - 1]);
            match end
            case Started(id, state, url) =>
              && r.0 == Some(run.(state := state, externalId := Some(id), url := url, error := None))
              && r.1 == (if state == Processing then [PollQueued(1)] else [])
            case Fails(retryable, message) =>
              && r.0 == Some(run.(state := if retryable && job.attempts < 2 then Pending else Failed,
                                  error := Some(First(message, 2000))))
              && r.1 == (if retryable && job.attempts < 2 then [Queued] else [])
            case Breaks(message) =>
              r.0 == Some(run.(state := Failed, error := Some(First(message, 2000)))) && r.1 == []
            case _ => true
  {
    ReportsTouchOnlyTheOffset(job.(attempts := job.attempts + 1, state := Uploading), progress);
  }

  /** No row, a settled job and one still in the backlog are left alone; a fourth attempt fails the job. */
  lemma RunOnceDeclines(row: Option<Job>, progress: seq<nat>, end: Outcome)
    requires EndsTransfer(end)
    requires row.Some? ==> Terminal(row.value.state) || row.value.state == Scheduled || row.value.attempts >= 3
    ensures var r := RunOnce(row, progress, end);
            && r.1 == []
            && r.0 == if row.None? || row.value.state in {Scheduled, Published, Failed} then row
                      else Some(row.value.(attempts := row.value.attempts + 1, state := Failed,
                                           error := Some("exhausted 3 attempts")))
  {
  }

  /**
   One poll of a job that has been handed over: the platform's verdict is recorded as it is, with
   the URL if it has one; a lasting error fails the job; otherwise the next poll is queued, up to
   the eightieth.
   */
  lemma PollOnceRecordsTheAnswer(job: Job, count: nat, a: Answer)
    requires !Terminal(job.state) && job.externalId.Some? && job.externalId.value != ""
    requires a.Status? ==> a.state == Processing || Terminal(a.state)
    ensures var r := PollOnce(Some(job), count, a);
            match a
            case Status(state, url, error) =>
              state != Processing ==>
                && r.0 == Some(job.(state := state, error := error,
                                    url := if url == None || url == Some("") then job.url else url))
                && r.1 == []
            case Refusal(retryable, message) =>
              !retryable ==> r.0 == Some(job.(state := Failed, error := Some(First(message, 2000)))) && r.1 == []
    ensures a == Refusal(true, if a.Refusal? then a.message else "") || (a.Status? && a.state == Processing) ==>
              PollOnce(Some(job), count, a) ==
              if count < 80 then (Some(job), [PollQueued(count + 1)])
              else (Some(job.(state := Failed, error := Some("still processing after 80 polls"))), [])
  {
  }

  // ---- dispatch --------------------------------------------------------------------------

  /** The ids that name a job, each once, in the order first seen. */
  function Found(ids: seq<JobId>, jobs: map<JobId, Job>): seq<JobId> {
    if ids == [] then []
    else
      var rest, last := Found(ids[..|ids| - 1], jobs), ids[|ids| - 1];
      if last in jobs && last !in rest then rest + [last] else rest
  }

  function Missing(ids: seq<JobId>, jobs: map<JobId, Job>): seq<JobId> {
    if ids == [] then []
    else
      var rest, last := Missing(ids[..|ids| - 1], jobs), ids[|ids| - 1];
      if last in jobs then rest else rest + [last]
  }

  function QueuedFor(ids: seq<JobId>): seq<Entry> {
    if ids == [] then [] else QueuedFor(ids[..|ids| - 1]) + [Entry(ids[|ids| - 1], Queued)]
  }

  lemma {:induction false} QueuedForAt(ids: seq<JobId>)
    ensures |QueuedFor(ids)| == |ids|
    ensures forall i :: 0 <= i < |ids| ==> QueuedFor(ids)[i] == Entry(ids[i], Queued)
    decreases |ids|
  {
    if ids != [] {
      QueuedForAt(ids[..|ids| - 1]);
    }
  }

  lemma {:induction false} QueuedOnce(ids: seq<JobId>, j: JobId)
    requires NoRepeats(ids)
    ensures multiset(QueuedFor(ids))[Entry(j, Queued)] == if j in ids then 1 else 0
    decreases |ids|
  {
    if ids != [] {
      var front, last := ids[..|ids| - 1], ids[|ids| - 1];
      QueuedOnce(front, j);
      assert ids == front + [last] && last !in front;
    }
  }

  /** Every job there is gets queued exactly once, and the rest are exactly those reported. */
  lemma {:induction false} DispatchSplitsIds(ids: seq<JobId>, jobs: map<JobId, Job>)
    ensures NoRepeats(Found(ids, jobs))
    ensures forall j :: j in Found(ids, jobs) <==> j in ids && j in jobs
    ensures forall j :: j in Missing(ids, jobs) <==> j in ids && j !in jobs
    decreases |ids|
  {
    if ids != [] {
      DispatchSplitsIds(ids[..|ids| - 1], jobs);
      assert ids == ids[..|ids| - 1] + [ids[|ids| - 1]];
    }
  }

  /** There is a job to poll: its row is there and not settled. */
  predicate Polls(jobs: map<JobId, Job>, j: JobId) {
    j in jobs && jobs[j].state != Published && jobs[j].state != Failed
  }

  /** There is a job to run: its row is there, neither settled nor waiting for its release. */
  predicate Runs(jobs: map<JobId, Job>, j: JobId) {
    Polls(jobs, j) && jobs[j].state != Scheduled
  }

  /** The queue has grown by one unit of work of this kind for each of these jobs, in order. */
  predicate Adds(before: seq<Entry>, after: seq<Entry>, ids: seq<JobId>, item: Item) {
    && |after| == |before| + |ids| && before <= after
    && forall i :: 0 <= i < |ids| ==> after[|before| + i] == Entry(ids[i], item)
  }

  lemma IdAtEach(targets: seq<Target>)
    ensures |Ids(targets)| == |targets| && forall i :: 0 <= i < |targets| ==> Ids(targets)[i] == targets[i].id
  {
    forall i | 0 <= i < |targets| ensures |Ids(targets)| == |targets| && Ids(targets)[i] == targets[i].id {
      IdAt(targets, i);
    }
  }

  /** Each target has a new job, with no attempt, no id, no error and nothing uploaded; no other job has changed. */
  predicate NewJobAt(after: map<JobId, Job>, asset: string, t: Target, scheduled: bool) {
    RowOf(after, t.id) == Some(Job(asset, t.platform, if scheduled then Scheduled else Pending, 0, None, None, 0, None))
  }

  ghost predicate NewJobs(before: map<JobId, Job>, after: map<JobId, Job>, asset: string, targets: seq<Target>,
        scheduled: bool)
  {
    && (forall i :: 0 <= i < |targets| ==> NewJobAt(after, asset, targets[i], scheduled))
    && (forall j :: (forall i :: 0 <= i < |targets| ==> targets[i].id != j) ==> RowOf(after, j) == RowOf(before, j))
  }

  lemma NewJobsAdded(jobs: map<JobId, Job>, asset: string, targets: seq<Target>, scheduled: bool)
    requires forall i, k :: 0 <= i < k < |targets| ==> targets[i].id != targets[k].id
    ensures NewJobs(jobs, AddJobs(jobs, asset, targets, scheduled), asset, targets, scheduled)
  {
    var after := AddJobs(jobs, asset, targets, scheduled);
    forall i | 0 <= i < |targets| ensures NewJobAt(after, asset, targets[i], scheduled) {
      AddedJobAt(jobs, asset, targets, scheduled, i);
    }
    forall j | forall i :: 0 <= i < |targets| ==> targets[i].id != j ensures RowOf(after, j) == RowOf(jobs, j) {
      OtherJobsStay(jobs, asset, targets, scheduled, j);
    }
  }

  lemma DispatchesAdded(queue: seq<Entry>, ids: seq<JobId>)
    ensures Adds(queue, queue + Dispatches(ids), ids, Item.Dispatch) && Adds(queue, queue, [], Item.Dispatch)
  {
    DispatchesAt(ids);
  }

  lemma PublishInFull(jobs: map<JobId, Job>, queue: seq<Entry>, asset: string, targets: seq<Target>, scheduled: bool)
    requires forall i, k :: 0 <= i < k < |targets| ==> targets[i].id != targets[k].id
    ensures NewJobs(jobs, AddJobs(jobs, asset, targets, scheduled), asset, targets, scheduled)
    ensures Adds(queue, queue + Dispatches(Ids(targets)), Ids(targets), Item.Dispatch)
    ensures Adds(queue, queue, [], Item.Dispatch)
    ensures |Ids(targets)| == |targets| && forall i :: 0 <= i < |targets| ==> Ids(targets)[i] == targets[i].id
  {
    NewJobsAdded(jobs, asset, targets, scheduled);
    DispatchesAdded(queue, Ids(targets));
    IdAtEach(targets);
  }

  /** Each job there is has one more run on its queue, and every id of no job is reported. */
  lemma DispatchInFull(ids: seq<JobId>, jobs: map<JobId, Job>, queue: seq<Entry>)
    ensures Adds(queue, queue + QueuedFor(Found(ids, jobs)), Found(ids, jobs), Queued)
    ensures forall j :: RunsQueued(queue + QueuedFor(Found(ids, jobs)), j)
                        == RunsQueued(queue, j) + if j in ids && j in jobs then 1 else 0
    ensures forall j :: j in Missing(ids, jobs) <==> j in ids && j !in jobs
  {
    var found := Found(ids, jobs);
    DispatchSplitsIds(ids, jobs);
    QueuedForAt(found);
    forall j
      ensures RunsQueued(queue + QueuedFor(found), j) == RunsQueued(queue, j) + if j in ids && j in jobs then 1 else 0
    {
      QueuedOnce(found, j);
    }
  }

  /** How many runs of job j are on its queue. */
  function RunsQueued(queue: seq<Entry>, j: JobId): nat {
    multiset(queue)[Entry(j, Queued)]
  }

  /** A dispatch of n jobs as the steps it consists of: each takes up the entry at `at`. */
  function Enqueues(es: seq<Event>, at: nat, n: nat): seq<Event> {
    if n == 0 then es else Enqueues(es, at, n - 1) + [Step(at, Enqueue)]
  }

  lemma EnqueueAmid(s: Sys, before: seq<Entry>, j: JobId, rest: seq<Entry>)
    requires s.queue == before + ([Entry(j, Item.Dispatch)] + rest)
    ensures Possible(s, Step(|before|, Enqueue))
    ensures Apply(s, Step(|before|, Enqueue)) ==
            s.(queue := before + rest + if j in s.jobs then [Entry(j, Queued)] else [])
  {
    assert Put(s.jobs, j, RowOf(s.jobs, j)) == s.jobs;
    EntriesAt(j, [Queued]);
    assert Entries(j, [Queued]) == [Entry(j, Queued)];
    assert Without(s.queue, |before|) == before + rest;
  }

  lemma FoundGrows(front: seq<JobId>, last: JobId, jobs: map<JobId, Job>)
    requires last !in front
    ensures QueuedFor(Found(front + [last], jobs)) ==
            QueuedFor(Found(front, jobs)) + if last in jobs then [Entry(last, Queued)] else []
  {
    DispatchSplitsIds(front, jobs);
    assert (front + [last])[..|front|] == front;
  }

  lemma Regroup<T>(a: seq<T>, b: seq<T>, c: seq<T>, d: seq<T>)
    ensures a + (b + c) + d == a + (b + (c + d)) == a + b + (c + d)
  {
  }

  lemma OneMoreStep(steps: seq<Event>, s: Sys, before: seq<Entry>, front: seq<JobId>, last: JobId, rest: seq<Entry>)
    requires Valid(steps) && last !in front
    requires After(steps) ==
             s.(queue := before + ([Entry(last, Item.Dispatch)] + rest) + QueuedFor(Found(front, s.jobs)))
    ensures Valid(steps + [Step(|before|, Enqueue)])
    ensures After(steps + [Step(|before|, Enqueue)]) ==
            s.(queue := before + rest + QueuedFor(Found(front + [last], s.jobs)))
  {
    var dispatch, found := [Entry(last, Item.Dispatch)], QueuedFor(Found(front, s.jobs));
    Regroup(before, dispatch, rest, found);
    EnqueueAmid(After(steps), before, last, rest + found);
    ValidExtends(steps, Step(|before|, Enqueue));
    FoundGrows(front, last, s.jobs);
    Regroup(before, rest, found, if last in s.jobs then [Entry(last, Queued)] else []);
  }

  /** In any run, taking up the dispatches of these jobs one by one queues exactly what `Dispatch` queues. */
  lemma {:induction false} DispatchTakesItsSteps(es: seq<Event>, before: seq<Entry>, ids: seq<JobId>, rest: seq<Entry>)
    requires Valid(es) && NoRepeats(ids) && After(es).queue == before + (Dispatches(ids) + rest)
    ensures Valid(Enqueues(es, |before|, |ids|))
    ensures var s := After(es);
            After(Enqueues(es, |before|, |ids|)) == s.(queue := before + rest + QueuedFor(Found(ids, s.jobs)))
    decreases |ids|
  {
    var s := After(es);
    if ids == [] {
      assert [] + rest == rest;
      assert before + rest + [] == before + rest;
    } else {
      var front, last := ids[..|ids| - 1], ids[|ids| - 1];
      var dispatch := [Entry(last, Item.Dispatch)];
      assert Dispatches(ids) + rest == Dispatches(front) + (dispatch + rest);
      DispatchTakesItsSteps(es, before, front, dispatch + rest);
      assert ids == front + [last];
      OneMoreStep(Enqueues(es, |before|, |front|), s, before, front, last, rest);
    }
  }

  lemma RunOnceInFull(jobs: map<JobId, Job>, j: JobId, progress: seq<nat>, end: Outcome)
    requires EndsTransfer(end)
    ensures !Runs(jobs, j) ==> RunOnce(RowOf(jobs, j), progress, end) == (RowOf(jobs, j), [])
    ensures Runs(jobs, j) ==>
              var r := RunOnce(RowOf(jobs, j), progress, end);
              && r.0.Some? && r.0.value.attempts == jobs[j].attempts + 1
              && (jobs[j].attempts >= 3 ==> r.0.value.state == Failed && r.1 == [])
              && (jobs[j].attempts < 3 ==>
                    match end
                    case Started(id, state, url) =>
                      && r.0.value.state == state && r.0.value.externalId == Some(id) && r.0.value.url == url
                      && r.0.value.error == None && r.1 == (if state == Processing then [PollQueued(1)] else [])
                    case Fails(retryable, message) =>
                      && r.0.value.error == Some(First(message, 2000))
                      && (if retryable && jobs[j].attempts < 2 then r.0.value.state == Pending && r.1 == [Queued]
                          else r.0.value.state == Failed && r.1 == [])
                    case Breaks(message) =>
                      r.0.value.state == Failed && r.0.value.error == Some(First(message, 2000)) && r.1 == []
                    case _ => true)
    ensures forall item :: Entries(j, [item]) == [Entry(j, item)]
  {
    if Runs(jobs, j) && jobs[j].attempts < 3 {
      RunOnceSettlesOrRequeues(jobs[j], progress, end);
    } else {
      RunOnceDeclines(RowOf(jobs, j), progress, end);
    }
    forall item ensures Entries(j, [item]) == [Entry(j, item)] {
      EntriesAt(j, [item]);
    }
  }

  class Service {
    var assets: set<string>
    var jobs: map<JobId, Job>
    var queue: seq<Entry>

    function State(): Sys
      reads this
    {
      Sys(assets, jobs, queue)
    }

    // -- requests

    /** Ids are fresh UUIDs. The last error is the database refusing two jobs for one platform. */
    method Publish(asset: string, targets: seq<Target>, scheduled: bool) returns (r: Result<seq<JobId>, string>)
      requires targets != [] && (forall t :: t in targets ==> t.id !in jobs)
      requires forall i, k :: 0 <= i < k < |targets| ==> targets[i].id != targets[k].id
      modifies this
      ensures r.Ok? <==> Acceptable(old(State()), asset, targets)
      ensures r.Ok? ==>
                && r.value == Ids(targets)
                && State() == Apply(old(State()), Event.Publish(asset, targets, scheduled))
      ensures r.Ok? ==>
                && assets == old(assets) && NewJobs(old(jobs), jobs, asset, targets, scheduled)
                && Adds(old(queue), queue, if scheduled then [] else r.value, Item.Dispatch)
                && |r.value| == |targets| && (forall i :: 0 <= i < |targets| ==> r.value[i] == targets[i].id)
      ensures r.Err? ==> State() == old(State())
      ensures r == Err("404") <==> asset !in assets
      ensures r == Err("409") <==>
                && asset in assets
                && exists t :: t in targets && exists j ::
                     j in old(jobs) && old(jobs)[j].asset == asset && old(jobs)[j].platform == t.platform
    {
      var error := Refused(asset, targets);
      if error.Some? {
        return Err(error.value);
      }
      var ids := AddAll(asset, targets, scheduled);
      if !scheduled {
        queue := queue + Dispatches(ids);
      }
      PublishInFull(old(jobs), old(queue), asset, targets, scheduled);
      return Ok(ids);
    }

    /** Why a request is refused, if it is. */
    method Refused(asset: string, targets: seq<Target>) returns (error: Option<string>)
      requires targets != [] && (forall t :: t in targets ==> t.id !in jobs)
      requires forall i, k :: 0 <= i < k < |targets| ==> targets[i].id != targets[k].id
      ensures error.None? <==> Acceptable(State(), asset, targets)
      ensures error == Some("404") <==> asset !in assets
      ensures error == Some("409") <==>
                && asset in assets
                && exists t :: t in targets && exists j ::
                     j in jobs && jobs[j].asset == asset && jobs[j].platform == t.platform
      ensures error == Some("500") <==>
                && asset in assets && !(exists t :: t in targets && HasJobFor(jobs, asset, t.platform))
                && exists i, n :: 0 <= i < n < |targets| && targets[i].platform == targets[n].platform
    {
      if asset !in assets {
        return Some("404");
      }
      var duplicate := AnyDuplicate(asset, targets);
      if duplicate {
        return Some("409");
      }
      if exists i, n :: 0 <= i < n < |targets| && targets[i].platform == targets[n].platform {
        return Some("500");
      }
      return None;
    }

    /** Whether the asset already has a job for one of the targets. */
    method AnyDuplicate(asset: string, targets: seq<Target>) returns (duplicate: bool)
      ensures duplicate <==>
                exists t :: t in targets && exists j ::
                  j in jobs && jobs[j].asset == asset && jobs[j].platform == t.platform
      ensures duplicate <==> exists t :: t in targets && HasJobFor(jobs, asset, t.platform)
    {
      var existing := set j | j in jobs && jobs[j].asset == asset :: jobs[j].platform;
      for k := 0 to |targets|
        invariant forall t :: t in targets[..k] ==> !HasJobFor(jobs, asset, t.platform)
      {
        ExistingPlatform(jobs, asset, targets[k].platform);
        if targets[k].platform in existing {
          assert targets[k] in targets;
          return true;
        }
      }
      assert targets[..|targets|] == targets;
      return false;
    }

    method AddAll(asset: string, targets: seq<Target>, scheduled: bool) returns (ids: seq<JobId>)
      modifies this`jobs
      ensures jobs == AddJobs(old(jobs), asset, targets, scheduled) && ids == Ids(targets)
    {
      ids := [];
      for k := 0 to |targets|
        invariant jobs == AddJobs(old(jobs), asset, targets[..k], scheduled) && ids == Ids(targets[..k])
      {
        assert targets[..k + 1][..k] == targets[..k];
        jobs := jobs[targets[k].id := NewJob(asset, targets[k].platform, scheduled)];
        ids := ids + [targets[k].id];
      }
      assert targets[..|targets|] == targets;
    }

    /** `rows` is the asset's jobs, as the database lists them. */
    method ReleaseAsset(asset: string, rows: seq<JobId>) returns (r: Result<seq<JobId>, string>)
      requires NoRepeats(rows) && (forall j :: j in rows <==> j in jobs && jobs[j].asset == asset)
      modifies this
      ensures r == Err("404") <==> asset !in assets
      ensures r == Err("409") <==>
                && asset in assets
                && forall j :: j in old(jobs) && old(jobs)[j].asset == asset ==> old(jobs)[j].state != Scheduled
      ensures r.Ok? ==>
                && NoRepeats(r.value) && assets == old(assets) && jobs.Keys == old(jobs).Keys
                && (forall j :: j in r.value <==>
                      j in old(jobs) && old(jobs)[j].asset == asset && old(jobs)[j].state == Scheduled)
                && (forall j :: j in jobs ==>
                      jobs[j] == if j in r.value then old(jobs)[j].(state := Pending) else old(jobs)[j])
                && Adds(old(queue), queue, r.value, Item.Dispatch)
      ensures r.Ok? ==> Possible(old(State()), Event.ReleaseAsset(asset, r.value))
                        && State() == Apply(old(State()), Event.ReleaseAsset(asset, r.value))
      ensures r.Err? ==> State() == old(State())
    {
      if asset !in assets {
        return Err("404");
      }
      var scheduled := ScheduledOf(rows);
      if scheduled == [] {
        return Err("409");
      }
      assert scheduled[0] in scheduled;
      var n := 0;
      while n < |scheduled|
        invariant 0 <= n <= |scheduled| && assets == old(assets) && queue == old(queue) && jobs.Keys == old(jobs).Keys
        invariant forall j :: j in jobs ==>
          jobs[j] == if j in scheduled[..n] then old(jobs)[j].(state := Pending) else old(jobs)[j]
      {
        jobs := jobs[scheduled[n] := jobs[scheduled[n]].(state := Pending)];
        n := n + 1;
      }
      assert scheduled[..n] == scheduled;
      assert jobs == Released(old(jobs), asset);
      queue := queue + Dispatches(scheduled);
      DispatchesAt(scheduled);
      return Ok(scheduled);
    }

    /** The backlog jobs among `rows`, in that order. */
    method ScheduledOf(rows: seq<JobId>) returns (scheduled: seq<JobId>)
      requires NoRepeats(rows) && (forall j :: j in rows ==> j in jobs)
      ensures NoRepeats(scheduled) && (forall j :: j in scheduled <==> j in rows && jobs[j].state == Scheduled)
    {
      scheduled := [];
      for n := 0 to |rows|
        invariant NoRepeats(scheduled)
        invariant forall j :: j in scheduled <==> j in rows[..n] && jobs[j].state == Scheduled
      {
        if jobs[rows[n]].state == Scheduled {
          assert rows[n] !in rows[..n];
          scheduled := scheduled + [rows[n]];
        }
      }
    }

    method UnscheduleAsset(asset: string, rows: seq<JobId>) returns (ok: bool)
      requires NoRepeats(rows) && (forall j :: j in rows <==> j in jobs && jobs[j].asset == asset)
      modifies this`jobs
      ensures ok == (asset in assets)
      ensures if ok then State() == Apply(old(State()), Unschedule(asset)) else jobs == old(jobs)
      ensures ok ==> forall j :: RowOf(jobs, j) ==
                       if j in old(jobs) && old(jobs)[j].asset == asset && old(jobs)[j].state == Scheduled then None
                       else RowOf(old(jobs), j)
    {
      if asset !in assets {
        return false;
      }
      for n := 0 to |rows|
        invariant forall j :: j in jobs <==> j in old(jobs) && !(j in rows[..n] && old(jobs)[j].state == Scheduled)
        invariant forall j :: j in jobs ==> jobs[j] == old(jobs)[j]
      {
        assert rows[n] !in rows[..n];
        if jobs[rows[n]].state == Scheduled {
          jobs := jobs - {rows[n]};
        }
      }
      assert jobs == Unscheduled(old(jobs), asset);
      return true;
    }

    method RetryJob(j: JobId) returns (r: Result<(), string>)
      modifies this
      ensures r == Err("404") <==> j !in old(jobs)
      ensures r == Err("409") <==> j in old(jobs) && old(jobs)[j].state != Failed
      ensures if r.Ok? then State() == Apply(old(State()), Event.RetryJob(j)) else State() == old(State())
      ensures r.Ok? ==>
                && j in jobs && assets == old(assets) && jobs == old(jobs)[j := jobs[j]]
                && var was := old(jobs)[j];
                && jobs[j] == Job(was.asset, was.platform, Pending, 0, was.externalId, was.url, was.uploaded, None)
                && queue == old(queue) + [Entry(j, Item.Dispatch)]
    {
      if j !in jobs {
        return Err("404");
      }
      if jobs[j].state != Failed {
        return Err("409");
      }
      jobs := jobs[j := jobs[j].(state := Pending, attempts := 0, error := None)];
      queue := queue + [Entry(j, Item.Dispatch)];
      return Ok(());
    }

    // -- tasks

    /** Queues every job it finds, then raises if some were not there. */
    method Dispatch(ids: seq<JobId>) returns (missing: seq<JobId>)
      modifies this`queue
      ensures queue == old(queue) + QueuedFor(Found(ids, jobs))
      ensures missing == Missing(ids, jobs)
      ensures Adds(old(queue), queue, Found(ids, jobs), Queued)
      ensures forall j :: RunsQueued(queue, j) == RunsQueued(old(queue), j) + if j in ids && j in jobs then 1 else 0
      ensures forall j :: j in missing <==> j in ids && j !in jobs
    {
      var found: seq<JobId> := [];
      missing := [];
      for n := 0 to |ids|
        invariant found == Found(ids[..n], jobs) && missing == Missing(ids[..n], jobs)
      {
        assert ids[..n + 1][..n] == ids[..n];
        if ids[n] !in jobs {
          missing := missing + [ids[n]];
        } else if ids[n] !in found {
          found := found + [ids[n]];
        }
      }
      assert ids[..|ids|] == ids;
      for n := 0 to |found|
        invariant queue == old(queue) + QueuedFor(found[..n])
      {
        assert found[..n + 1][..n] == found[..n];
        queue := queue + [Entry(found[n], Queued)];
      }
      assert found[..|found|] == found;
      DispatchInFull(ids, jobs, old(queue));
    }

    /** The attempt this claim is, or none when the job is not to be run. */
    method Claim(j: JobId) returns (attempt: Option<nat>)
      modifies this`jobs
      ensures jobs == Put(old(jobs), j, ClaimJob(RowOf(old(jobs), j)).0)
      ensures ClaimJob(RowOf(old(jobs), j)).1 == if attempt.Some? then [Claimed(attempt.value)] else []
      ensures attempt.Some? <==>
                && j in old(jobs) && old(jobs)[j].state !in {Scheduled, Published, Failed} && old(jobs)[j].attempts < 3
      ensures attempt.Some? ==>
                && attempt.value == old(jobs)[j].attempts + 1
                && jobs == old(jobs)[j := old(jobs)[j].(attempts := attempt.value, state := Uploading)]
      ensures attempt.None? ==>
                if j in old(jobs) && old(jobs)[j].state !in {Scheduled, Published, Failed}
                then jobs == old(jobs)[j := old(jobs)[j].(attempts := old(jobs)[j].attempts + 1, state := Failed,
                                                          error := Some("exhausted 3 attempts"))]
                else jobs == old(jobs)
    {
      if j !in jobs || Terminal(jobs[j].state) || jobs[j].state == Scheduled {
        return None;
      }
      jobs := jobs[j := jobs[j].(attempts := jobs[j].attempts + 1)];
      if jobs[j].attempts > MAX_ATTEMPTS {
        SetFailed(j, "exhausted 3 attempts");
        return None;
      }
      jobs := jobs[j := jobs[j].(state := Uploading)];
      return Some(jobs[j].attempts);
    }

    method SetFailed(j: JobId, message: string)
      requires j in jobs
      modifies this`jobs
      ensures jobs == old(jobs)[j := MarkFailed(old(jobs)[j], message)]
      ensures jobs == old(jobs)[j := old(jobs)[j].(state := Failed, error := Some(First(message, 2000)))]
    {
      jobs := jobs[j := jobs[j].(state := Failed, error := Some(Cut(message)))];
    }

    method RecordProgress(j: JobId, uploaded: nat)
      modifies this`jobs
      ensures jobs == Put(old(jobs), j, Update(RowOf(old(jobs), j), (job: Job) => job.(uploaded := uploaded)))
      ensures jobs == if j in old(jobs) then old(jobs)[j := old(jobs)[j].(uploaded := uploaded)] else old(jobs)
    {
      if j in jobs {
        jobs := jobs[j := jobs[j].(uploaded := uploaded)];
      }
    }

    /** Whether the job is to be queued again. */
    method RecordFailure(j: JobId, attempt: nat, retryable: bool, message: string) returns (retry: bool)
      modifies this`jobs
      ensures var r := Work(RowOf(old(jobs), j), Transferring(attempt), Fails(retryable, message));
              jobs == Put(old(jobs), j, r.0) && r.1 == if retry then [Requeue] else []
      ensures retry <==> j in old(jobs) && retryable && attempt < 3
      ensures jobs == if j in old(jobs)
                      then old(jobs)[j := old(jobs)[j].(state := if retry then Pending else Failed,
                                                        error := Some(First(message, 2000)))]
                      else old(jobs)
    {
      retry := retryable && attempt < MAX_ATTEMPTS;
      if j !in jobs {
        return false;
      }
      if retry {
        jobs := jobs[j := jobs[j].(state := Pending, error := Some(Cut(message)))];
      } else {
        SetFailed(j, message);
      }
    }

    method RecordStarted(j: JobId, externalId: string, state: JobState, url: Option<string>)
      requires state == Processing || state == Published
      modifies this`jobs
      ensures jobs == Put(old(jobs), j, Work(RowOf(old(jobs), j), Transferring(1), Started(externalId, state, url)).0)
      ensures jobs == if j in old(jobs)
                      then old(jobs)[j := old(jobs)[j].(externalId := Some(externalId), url := url, state := state,
                                                        error := None)]
                      else old(jobs)
    {
      if j in jobs {
        jobs := jobs[j := jobs[j].(externalId := Some(externalId), url := url, state := state, error := None)];
      }
    }

    /** One whole task, undisturbed: the steps one after the other. */
    method RunPublishJob(j: JobId, progress: seq<nat>, end: Outcome)
      requires EndsTransfer(end)
      modifies this
      ensures assets == old(assets)
      ensures var r := RunOnce(RowOf(old(jobs), j), progress, end);
              jobs == Put(old(jobs), j, r.0) && queue == old(queue) + Entries(j, r.1)
      ensures !Runs(old(jobs), j) ==> jobs == old(jobs) && queue == old(queue)
      ensures Runs(old(jobs), j) ==>
                && j in jobs && jobs == old(jobs)[j := jobs[j]] && jobs[j].attempts == old(jobs)[j].attempts + 1
                && (old(jobs)[j].attempts >= 3 ==> jobs[j].state == Failed && queue == old(queue))
      ensures Runs(old(jobs), j) && old(jobs)[j].attempts < 3 ==>
                match end
                case Started(id, state, url) =>
                  && jobs[j].state == state && jobs[j].externalId == Some(id)
                  && jobs[j].url == url && jobs[j].error == None
                  && queue == old(queue) + (if state == Processing then [Entry(j, PollQueued(1))] else [])
                case Fails(retryable, message) =>
                  && jobs[j].error == Some(First(message, 2000))
                  && (if retryable && old(jobs)[j].attempts < 2
                      then jobs[j].state == Pending && queue == old(queue) + [Entry(j, Queued)]
                      else jobs[j].state == Failed && queue == old(queue))
                case Breaks(message) =>
                  jobs[j].state == Failed && jobs[j].error == Some(First(message, 2000)) && queue == old(queue)
                case _ => true
    {
      RunOnceInFull(old(jobs), j, progress, end);
      var attempt := Claim(j);
      if attempt.None? {
        return;
      }
      ghost var claimed := jobs[j];
      jobs := jobs[j := jobs[j].(state := Uploading)];
      Transfer(j, progress);
      ReportsTouchOnlyTheOffset(claimed, progress);
      RunOnceAfterClaim(RowOf(old(jobs), j), progress, end);
      Finish(j, attempt.value, end);
    }

    /** After the transfer: record how it ended, then queue what follows. */
    method Finish(j: JobId, attempt: nat, end: Outcome)
      requires EndsTransfer(end) && j in jobs
      modifies this
      ensures assets == old(assets)
      ensures var r := Ending(RowOf(old(jobs), j), attempt, end);
              jobs == Put(old(jobs), j, r.0) && queue == old(queue) + Entries(j, r.1)
    {
      match end {
        case Fails(retryable, message) =>
          var retry := RecordFailure(j, attempt, retryable, message);
          if retry {
            queue := queue + [Entry(j, Queued)];
          }
        case Breaks(message) =>
          SetFailed(j, message);
        case Started(externalId, state, url) =>
          RecordStarted(j, externalId, state, url);
          if state == Processing {
            queue := queue + [Entry(j, PollQueued(1))];
          }
      }
    }

    /** The transfer reports each offset as it goes. */
    method Transfer(j: JobId, progress: seq<nat>)
      modifies this`jobs
      ensures jobs == Put(old(jobs), j, Reports(RowOf(old(jobs), j), progress))
    {
      for n := 0 to |progress|
        invariant jobs == Put(old(jobs), j, Reports(RowOf(old(jobs), j), progress[..n]))
      {
        assert progress[..n + 1][..n] == progress[..n];
        RecordProgress(j, progress[n]);
      }
      assert progress[..|progress|] == progress;
    }

    method PollPublishJob(j: JobId, count: nat, answer: Answer)
      requires answer.Status? ==> answer.state == Processing || Terminal(answer.state)
      modifies this
      ensures assets == old(assets)
      ensures var r := PollOnce(RowOf(old(jobs), j), count, answer);
              jobs == Put(old(jobs), j, r.0) && queue == old(queue) + Entries(j, r.1)
      ensures !Polls(old(jobs), j) ==> jobs == old(jobs) && queue == old(queue)
      ensures Polls(old(jobs), j) && old(jobs)[j].externalId in {None, Some("")} ==>
                && jobs == old(jobs)[j := old(jobs)[j].(state := Failed,
                                                        error := Some("polled a job with no external id"))]
                && queue == old(queue)
      ensures Polls(old(jobs), j) && old(jobs)[j].externalId !in {None, Some("")} ==>
                var was := old(jobs)[j];
                if answer.Status? && answer.state != Processing
                then && queue == old(queue)
                     && var url := if answer.url in {None, Some("")} then was.url else answer.url;
                     jobs == old(jobs)[j := was.(state := answer.state, error := answer.error, url := url)]
                else if answer.Refusal? && !answer.retryable
                then && queue == old(queue)
                     && jobs == old(jobs)[j := was.(state := Failed, error := Some(First(answer.message, 2000)))]
                else if count >= 80
                then && queue == old(queue)
                     && jobs == old(jobs)[j := was.(state := Failed, error := Some("still processing after 80 polls"))]
                else jobs == old(jobs) && queue == old(queue) + [Entry(j, PollQueued(count + 1))]
    {
      if j !in jobs || Terminal(jobs[j].state) {
        return;
      }
      if jobs[j].externalId.None? || jobs[j].externalId.value == "" {
        SetFailed(j, "polled a job with no external id");
        return;
      }
      if answer.Refusal? && !answer.retryable {
        SetFailed(j, answer.message);
        return;
      }
      if answer.Status? && answer.state != Processing {
        jobs := jobs[j := jobs[j].(state := answer.state, url := UrlOr(answer.url, jobs[j].url),
                                       error := answer.error)];
        return;
      }
      if count >= MAX_POLLS {
        SetFailed(j, "still processing after 80 polls");
        return;
      }
      queue := queue + [Entry(j, PollQueued(count + 1))];
    }
  }

  lemma ExistingPlatform(jobs: map<JobId, Job>, asset: string, p: Platform)
    ensures HasJobFor(jobs, asset, p) <==> p in (set j | j in jobs && jobs[j].asset == asset :: jobs[j].platform)
  {
  }
}
