/**
 What every run of the publishing system keeps, job by job and for the queues as a whole.
 */
module JobResults {
  import opened Options
  import opened Platforms
  import opened JobMachine
  import opened JobLife
  import opened JobSystem
  import opened JobFanOut

  predicate IsActiveJob(s: Sys, j: JobId) {
    j in s.jobs && Active(s.jobs[j].state)
  }

  /** Some unit of this job's work was lost on the way. */
  ghost predicate Loses(es: seq<Event>, j: JobId)
    requires Valid(es)
    decreases |es|
  {
    es != [] && (Loses(es[..|es| - 1], j) || LosesNow(After(es[..|es| - 1]), es[|es| - 1], j))
  }

  predicate LosesNow(s: Sys, e: Event, j: JobId) {
    e.LoseAt? && e.i < |s.queue| && s.queue[e.i].job == j
  }

  lemma {:induction false} CountConcat(a: seq<Act>, b: seq<Act>, kind: Kind)
    requires |b| <= 1
    ensures Count(a + b, kind) == Count(a, kind) + Count(b, kind)
  {
    if b == [] {
      assert a + b == a;
    } else {
      assert (a + b)[..|a + b| - 1] == a;
      assert b[..0] == [];
    }
  }

  lemma OneActAtATime(s: Sys, e: Event, j: JobId)
    ensures |ActsOn(s, e, j)| <= 1
    ensures Count(ActsOn(s, e, j), Losses) == One(LosesNow(s, e, j))
  {
    if e.Publish? {
      OneCreate(e.asset, e.targets, e.scheduled, j);
    }
    var acts := ActsOn(s, e, j);
    if |acts| == 1 {
      assert acts[..0] == [];
    }
  }

  lemma {:induction false} OneCreate(asset: string, targets: seq<Target>, scheduled: bool, j: JobId)
    ensures var acts := CreatesIn(asset, targets, scheduled, j); |acts| <= 1 && (acts != [] ==> acts[0].Create?)
    decreases |targets|
  {
    if targets != [] {
      OneCreate(asset, targets[..|targets| - 1], scheduled, j);
    }
  }

  lemma {:induction false} LossesAreCounted(es: seq<Event>, j: JobId)
    requires Valid(es)
    ensures Loses(es, j) <==> Count(Trace(es, j), Losses) > 0
    decreases |es|
  {
    if es != [] {
      var before := es[..|es| - 1];
      LossesAreCounted(before, j);
      OneActAtATime(After(before), es[|es| - 1], j);
      CountConcat(Trace(before, j), ActsOn(After(before), es[|es| - 1], j), Losses);
    }
  }

  // ---- where the work is -----------------------------------------------------------------

  /**
   Job by job: at most one unit of work, for the state the job is in; none and yet active exactly
   when its work was lost.
   */
  lemma WorkOfEachJob(es: seq<Event>, j: JobId)
    requires Valid(es)
    ensures var s, items := After(es), ItemsOf(After(es).queue, j);
            && |items| <= 1
            && (items != [] ==> j in s.jobs && Matches(s.jobs[j], items[0]))
            && (!Loses(es, j) ==> (IsActiveJob(s, j) <==> |items| == 1))
            && (Loses(es, j) <==> IsActiveJob(s, j) && items == [])
  {
    HistoryIsARunOfOneJob(es, j);
    LossesAreCounted(es, j);
    RunKeepsSound(Trace(es, j));
    WorkIsConserved(Trace(es, j));
  }

  lemma {:induction false} ItemsCountEntries(queue: seq<Entry>, i: nat, k: nat)
    requires i <= k < |queue| && queue[i].job == queue[k].job
    ensures |ItemsOf(queue, queue[i].job)| >= if i < k then 2 else 1
    decreases |queue|
  {
    var front := queue[..|queue| - 1];
    if k < |front| {
      ItemsCountEntries(front, i, k);
    } else if i < k {
      ItemsCountEntries(front, i, i);
    }
  }

  lemma {:induction false} ItemsComeFromEntries(queue: seq<Entry>, j: JobId)
    requires ItemsOf(queue, j) != []
    ensures exists i :: 0 <= i < |queue| && queue[i].job == j
    decreases |queue|
  {
    var front := queue[..|queue| - 1];
    if queue[|queue| - 1].job != j {
      ItemsComeFromEntries(front, j);
      var i :| 0 <= i < |front| && front[i].job == j;
      assert queue[i].job == j;
    }
  }

  /** Without losses the queues hold exactly the active jobs, each of them once. */
  lemma QueuesHoldEachActiveJobOnce(es: seq<Event>)
    requires Valid(es) && (forall j :: !Loses(es, j))
    ensures forall i, k :: 0 <= i < k < |After(es).queue| ==> After(es).queue[i].job != After(es).queue[k].job
    ensures forall j :: IsActiveJob(After(es), j) <==>
                          exists i :: 0 <= i < |After(es).queue| && After(es).queue[i].job == j
  {
    var queue := After(es).queue;
    forall i, k | 0 <= i < k < |queue| ensures queue[i].job != queue[k].job {
      WorkOfEachJob(es, queue[i].job);
      if queue[i].job == queue[k].job {
        ItemsCountEntries(queue, i, k);
      }
    }
    forall j ensures IsActiveJob(After(es), j) <==> exists i :: 0 <= i < |queue| && queue[i].job == j {
      WorkOfEachJob(es, j);
      if ItemsOf(queue, j) != [] {
        ItemsComeFromEntries(queue, j);
      }
      forall i | 0 <= i < |queue| && queue[i].job == j ensures ItemsOf(queue, j) != [] {
        ItemsCountEntries(queue, i, i);
      }
    }
  }

  // ---- after a loss ----------------------------------------------------------------------

  /** A job whose work was lost stays as it is through everything that happens later. */
  lemma {:induction false} LostJobsNeverMoveAgain(es: seq<Event>, n: nat, j: JobId)
    requires Valid(es) && n <= |es| && Valid(es[..n]) && Loses(es[..n], j)
    ensures Loses(es, j) && Project(After(es), j) == Project(After(es[..n]), j)
    decreases |es|
  {
    if n == |es| {
      assert es[..n] == es;
    } else {
      var before, e := es[..|es| - 1], es[|es| - 1];
      assert before[..n] == es[..n];
      LostJobsNeverMoveAgain(before, n, j);
      NothingMovesALostJob(before, e, j);
    }
  }

  lemma NothingMovesALostJob(es: seq<Event>, e: Event, j: JobId)
    requires Valid(es) && Loses(es, j) && Possible(After(es), e)
    ensures Project(Apply(After(es), e), j) == Project(After(es), j)
  {
    HistoryIsARunOfOneJob(es, j);
    LossesAreCounted(es, j);
    EventMirrors(After(es), e, j);
    var acts := ActsOn(After(es), e, j);
    if acts != [] {
      StrandedForever(Trace(es, j), acts[0]);
    }
  }

  // ---- one job per asset and platform ----------------------------------------------------

  predicate SameTarget(a: Job, b: Job) {
    a.asset == b.asset && a.platform == b.platform
  }

  ghost predicate OnePerTarget(jobs: map<JobId, Job>) {
    forall i, j :: i in jobs && j in jobs && i != j ==> !SameTarget(jobs[i], jobs[j])
  }

  lemma WorkKeepsTarget(row: Option<Job>, item: Item, o: Outcome)
    requires Fits(item, o)
    ensures var row' := Work(row, item, o).0;
            && (row'.Some? <==> row.Some?)
            && (row.Some? ==> SameTarget(row'.value, row.value))
  {
  }

  /** No event but a publish makes a job or changes what it is for. */
  lemma TargetsStay(s: Sys, e: Event, j: JobId)
    requires Possible(s, e) && !e.Publish? && j in Apply(s, e).jobs
    ensures j in s.jobs && SameTarget(Apply(s, e).jobs[j], s.jobs[j])
  {
    if e.Step? {
      WorkKeepsTarget(RowOf(s.jobs, s.queue[e.i].job), s.queue[e.i].item, e.outcome);
    }
  }

  lemma {:induction false} AddedJobIs(jobs: map<JobId, Job>, asset: string, targets: seq<Target>, scheduled: bool,
        j: JobId)
    requires j in AddJobs(jobs, asset, targets, scheduled)
    ensures var job := AddJobs(jobs, asset, targets, scheduled)[j];
            (j in jobs && job == jobs[j]) || (exists i :: 0 <= i < |targets| && IsTarget(targets[i], j, job, asset))
    decreases |targets|
  {
    if targets != [] {
      var front, t := targets[..|targets| - 1], targets[|targets| - 1];
      if t.id == j {
        assert IsTarget(targets[|targets| - 1], j, AddJobs(jobs, asset, targets, scheduled)[j], asset);
      } else {
        AddedJobIs(jobs, asset, front, scheduled, j);
        var job := AddJobs(jobs, asset, front, scheduled)[j];
        if !(j in jobs && job == jobs[j]) {
          var i :| 0 <= i < |front| && IsTarget(front[i], j, job, asset);
          assert IsTarget(targets[i], j, job, asset);
        }
      }
    }
  }

  predicate IsTarget(t: Target, j: JobId, job: Job, asset: string) {
    t.id == j && job.asset == asset && job.platform == t.platform
  }

  lemma PublishedJobsDiffer(s: Sys, asset: string, targets: seq<Target>, scheduled: bool, i: JobId, j: JobId)
    requires OnePerTarget(s.jobs) && Acceptable(s, asset, targets) && i != j
    requires var jobs := AddJobs(s.jobs, asset, targets, scheduled); i in jobs && j in jobs
    ensures var jobs := AddJobs(s.jobs, asset, targets, scheduled); !SameTarget(jobs[i], jobs[j])
  {
    var jobs := AddJobs(s.jobs, asset, targets, scheduled);
    AddedJobIs(s.jobs, asset, targets, scheduled, i);
    AddedJobIs(s.jobs, asset, targets, scheduled, j);
    if i in s.jobs && jobs[i] == s.jobs[i] && !(j in s.jobs && jobs[j] == s.jobs[j]) {
      NewJobDiffers(s, asset, targets, j, jobs[j], i);
    } else if j in s.jobs && jobs[j] == s.jobs[j] && !(i in s.jobs && jobs[i] == s.jobs[i]) {
      NewJobDiffers(s, asset, targets, i, jobs[i], j);
    }
  }

  lemma NewJobDiffers(s: Sys, asset: string, targets: seq<Target>, j: JobId, job: Job, i: JobId)
    requires Acceptable(s, asset, targets) && i in s.jobs
    requires exists k :: 0 <= k < |targets| && IsTarget(targets[k], j, job, asset)
    ensures !SameTarget(s.jobs[i], job)
  {
  }

  /** The table's unique constraint is never even tried: no run has two jobs for one asset and platform. */
  lemma {:induction false} OneJobPerAssetAndPlatform(es: seq<Event>)
    requires Valid(es)
    ensures OnePerTarget(After(es).jobs)
    decreases |es|
  {
    if es != [] {
      var before, e := es[..|es| - 1], es[|es| - 1];
      var s, s' := After(before), After(es);
      OneJobPerAssetAndPlatform(before);
      forall i, j | i in s'.jobs && j in s'.jobs && i != j ensures !SameTarget(s'.jobs[i], s'.jobs[j]) {
        if e.Publish? {
          PublishedJobsDiffer(s, e.asset, e.targets, e.scheduled, i, j);
        } else {
          TargetsStay(s, e, i);
          TargetsStay(s, e, j);
        }
      }
    }
  }
}
