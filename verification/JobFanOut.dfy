/**
 Jobs do not notice one another: what happens to a job in any run of the whole system is a run of
 the one-job machine, so what that machine keeps, every job keeps.
 */
module JobFanOut {
  import opened Options
  import opened Platforms
  import opened JobMachine
  import opened JobSystem

  /** Job j's share of the queues. */
  function ItemsOf(queue: seq<Entry>, j: JobId): seq<Item> {
    if queue == [] then []
    else
      var rest, last := ItemsOf(queue[..|queue| - 1], j), queue[|queue| - 1];
      if last.job == j then rest + [last.item] else rest
  }

  function Project(s: Sys, j: JobId): Solo {
    Solo(RowOf(s.jobs, j), ItemsOf(s.queue, j))
  }

  /** What an event is to job j. */
  function ActsOn(s: Sys, e: Event, j: JobId): seq<Act> {
    match e
    case Register(_) => []
    case Publish(asset, targets, scheduled) => CreatesIn(asset, targets, scheduled, j)
    case ReleaseAsset(asset, _) => if InBacklog(s.jobs, asset, j) then [Release] else []
    case Unschedule(asset) => if InBacklog(s.jobs, asset, j) then [Drop] else []
    case RetryJob(k) => if k == j then [Retry] else []
    case Step(i, o) => if i < |s.queue| && s.queue[i].job == j then [Do(|ItemsOf(s.queue[..i], j)|, o)] else []
    case LoseAt(i) => if i < |s.queue| && s.queue[i].job == j then [Lose(|ItemsOf(s.queue[..i], j)|)] else []
  }

  function CreatesIn(asset: string, targets: seq<Target>, scheduled: bool, j: JobId): seq<Act> {
    if targets == [] then []
    else
      var rest, t := CreatesIn(asset, targets[..|targets| - 1], scheduled, j), targets[|targets| - 1];
      if t.id == j then [Create(asset, t.platform, scheduled)] else rest
  }

  ghost function Trace(es: seq<Event>, j: JobId): seq<Act>
    requires Valid(es)
    decreases |es|
  {
    if es == [] then [] else Trace(es[..|es| - 1], j) + ActsOn(After(es[..|es| - 1]), es[|es| - 1], j)
  }

  // ---- the queue, seen from one job ------------------------------------------------------

  lemma {:induction false} ItemsOfConcat(a: seq<Entry>, b: seq<Entry>, j: JobId)
    ensures ItemsOf(a + b, j) == ItemsOf(a, j) + ItemsOf(b, j)
    decreases |b|
  {
    if b == [] {
      assert a + b == a;
    } else {
      assert (a + b)[..|a + b| - 1] == a + b[..|b| - 1];
      ItemsOfConcat(a, b[..|b| - 1], j);
    }
  }

  lemma ItemsOfOneMore(queue: seq<Entry>, e: Entry, j: JobId)
    ensures ItemsOf(queue + [e], j) == if e.job == j then ItemsOf(queue, j) + [e.item] else ItemsOf(queue, j)
  {
    assert (queue + [e])[..|queue|] == queue;
  }

  /** Taking entry i out of the queue takes it out of its own job's share and no other's. */
  lemma ItemsOfWithout(queue: seq<Entry>, i: nat, j: JobId)
    requires i < |queue|
    ensures var k := |ItemsOf(queue[..i], j)|;
            if queue[i].job == j
            then && k < |ItemsOf(queue, j)| && ItemsOf(queue, j)[k] == queue[i].item
                 && ItemsOf(Without(queue, i), j) == Without(ItemsOf(queue, j), k)
            else ItemsOf(Without(queue, i), j) == ItemsOf(queue, j)
  {
    var a, e, b := queue[..i], queue[i], queue[i + 1..];
    assert queue == a + [e] + b;
    ItemsOfConcat(a + [e], b, j);
    ItemsOfOneMore(a, e, j);
    ItemsOfConcat(a, b, j);
  }

  lemma {:induction false} ItemsOfEntries(k: JobId, items: seq<Item>, j: JobId)
    ensures ItemsOf(Entries(k, items), j) == if k == j then items else []
    decreases |items|
  {
    if items != [] {
      var front, last := items[..|items| - 1], items[|items| - 1];
      ItemsOfEntries(k, front, j);
      var es := Entries(k, front) + [Entry(k, last)];
      assert es[..|es| - 1] == Entries(k, front);
    }
  }

  lemma {:induction false} ItemsOfDispatches(ids: seq<JobId>, j: JobId)
    requires NoRepeats(ids)
    ensures ItemsOf(Dispatches(ids), j) == if j in ids then [Dispatch] else []
    decreases |ids|
  {
    if ids != [] {
      var front, last := ids[..|ids| - 1], ids[|ids| - 1];
      ItemsOfDispatches(front, j);
      var es := Dispatches(front) + [Entry(last, Dispatch)];
      assert es[..|es| - 1] == Dispatches(front);
      assert last !in front;
      assert ids == front + [last];
    }
  }

  // ---- each event, seen from one job -----------------------------------------------------

  /** The event does to job j what `acts` do. */
  predicate Mirrors(x: Solo, acts: seq<Act>, y: Solo) {
    if acts == [] then y == x else |acts| == 1 && Can(x, acts[0]) && y == Next(x, acts[0])
  }

  lemma {:induction false} AddedJobs(jobs: map<JobId, Job>, asset: string, targets: seq<Target>, scheduled: bool,
        j: JobId)
    ensures var added, acts := AddJobs(jobs, asset, targets, scheduled), CreatesIn(asset, targets, scheduled, j);
            if acts == [] then RowOf(added, j) == RowOf(jobs, j)
            else |acts| == 1 && acts[0].Create? && acts[0].scheduled == scheduled && acts[0].asset == asset
                 && RowOf(added, j) == Some(NewJob(asset, acts[0].platform, scheduled))
    ensures CreatesIn(asset, targets, scheduled, j) == [] <==> j !in Ids(targets)
    decreases |targets|
  {
    if targets != [] {
      AddedJobs(jobs, asset, targets[..|targets| - 1], scheduled, j);
    }
  }

  lemma FreshIds(s: Sys, asset: string, targets: seq<Target>)
    requires Acceptable(s, asset, targets)
    ensures NoRepeats(Ids(targets)) && (forall j :: j in Ids(targets) ==> j !in s.jobs)
  {
    IdAt(targets, 0);
    forall i, k | 0 <= i < k < |targets| ensures Ids(targets)[i] != Ids(targets)[k] {
      IdAt(targets, i);
      IdAt(targets, k);
    }
    forall j | j in Ids(targets) ensures j !in s.jobs {
      var i :| 0 <= i < |Ids(targets)| && Ids(targets)[i] == j;
      IdAt(targets, i);
      assert targets[i] in targets;
    }
  }

  lemma PublishMirrors(s: Sys, asset: string, targets: seq<Target>, scheduled: bool, j: JobId)
    requires Acceptable(s, asset, targets)
    ensures var e := Publish(asset, targets, scheduled);
            Mirrors(Project(s, j), ActsOn(s, e, j), Project(Apply(s, e), j))
  {
    FreshIds(s, asset, targets);
    AddedJobs(s.jobs, asset, targets, scheduled, j);
    ItemsOfConcat(s.queue, Dispatches(Ids(targets)), j);
    ItemsOfDispatches(Ids(targets), j);
  }

  lemma ReleasedRow(jobs: map<JobId, Job>, asset: string, j: JobId)
    ensures RowOf(Released(jobs, asset), j)
            == if InBacklog(jobs, asset, j) then Some(jobs[j].(state := Pending)) else RowOf(jobs, j)
  {
  }

  lemma ReleasedItems(s: Sys, asset: string, order: seq<JobId>, j: JobId)
    requires Lists(order, s.jobs, asset)
    ensures ItemsOf(s.queue + Dispatches(order), j)
            == ItemsOf(s.queue, j) + (if InBacklog(s.jobs, asset, j) then [Dispatch] else [])
  {
    ItemsOfConcat(s.queue, Dispatches(order), j);
    ItemsOfDispatches(order, j);
  }

  lemma ReleaseMirrors(s: Sys, asset: string, order: seq<JobId>, j: JobId)
    requires Possible(s, ReleaseAsset(asset, order))
    ensures var e := ReleaseAsset(asset, order); Mirrors(Project(s, j), ActsOn(s, e, j), Project(Apply(s, e), j))
  {
    ReleasedRow(s.jobs, asset, j);
    ReleasedItems(s, asset, order, j);
    assert ItemsOf(s.queue, j) + [] == ItemsOf(s.queue, j);
  }

  lemma RetryMirrors(s: Sys, k: JobId, j: JobId)
    requires Possible(s, RetryJob(k))
    ensures Mirrors(Project(s, j), ActsOn(s, RetryJob(k), j), Project(Apply(s, RetryJob(k)), j))
  {
    ItemsOfOneMore(s.queue, Entry(k, Dispatch), j);
  }

  /** Replacing an entry by other work of its job, and that job's row, shows only in that job. */
  lemma ReplacementShowsOnlyInItsJob(s: Sys, i: nat, row: Option<Job>, more: seq<Item>, j: JobId)
    requires i < |s.queue|
    ensures var k, at := s.queue[i].job, |ItemsOf(s.queue[..i], j)|;
            var s' := s.(jobs := Put(s.jobs, k, row), queue := Without(s.queue, i) + Entries(k, more));
            if k == j
            then && at < |ItemsOf(s.queue, j)| && ItemsOf(s.queue, j)[at] == s.queue[i].item
                 && Project(s', j) == Solo(row, Without(ItemsOf(s.queue, j), at) + more)
            else Project(s', j) == Project(s, j)
  {
    var k := s.queue[i].job;
    ItemsOfWithout(s.queue, i, j);
    ItemsOfConcat(Without(s.queue, i), Entries(k, more), j);
    ItemsOfEntries(k, more, j);
    if k != j {
      assert ItemsOf(s.queue, j) + [] == ItemsOf(s.queue, j);
    }
  }

  lemma StepMirrors(s: Sys, i: nat, o: Outcome, j: JobId)
    requires Possible(s, Step(i, o))
    ensures Mirrors(Project(s, j), ActsOn(s, Step(i, o), j), Project(Apply(s, Step(i, o)), j))
  {
    var result := Work(RowOf(s.jobs, s.queue[i].job), s.queue[i].item, o);
    ReplacementShowsOnlyInItsJob(s, i, result.0, result.1, j);
  }

  lemma EventMirrors(s: Sys, e: Event, j: JobId)
    requires Possible(s, e)
    ensures Mirrors(Project(s, j), ActsOn(s, e, j), Project(Apply(s, e), j))
  {
    match e {
      case Publish(asset, targets, scheduled) => PublishMirrors(s, asset, targets, scheduled, j);
      case ReleaseAsset(asset, order) => ReleaseMirrors(s, asset, order, j);
      case RetryJob(k) => RetryMirrors(s, k, j);
      case Step(i, o) => StepMirrors(s, i, o, j);
      case LoseAt(i) => ItemsOfWithout(s.queue, i, j);
      case _ =>
    }
  }

  /** The history of a job in any run of the system is a run of the one-job machine. */
  lemma {:induction false} HistoryIsARunOfOneJob(es: seq<Event>, j: JobId)
    requires Valid(es)
    ensures Legal(Trace(es, j)) && Project(After(es), j) == Reached(Trace(es, j))
    decreases |es|
  {
    if es != [] {
      var before, e := es[..|es| - 1], es[|es| - 1];
      HistoryIsARunOfOneJob(before, j);
      EventMirrors(After(before), e, j);
      var tr, acts := Trace(before, j), ActsOn(After(before), e, j);
      if acts == [] {
        assert tr + acts == tr;
      } else {
        assert (tr + acts)[..|tr + acts| - 1] == tr;
      }
    }
  }

  /** So two runs that differ only in what they do to other jobs leave this job alike. */
  lemma SiblingsDoNotMatter(es: seq<Event>, fs: seq<Event>, j: JobId)
    requires Valid(es) && Valid(fs) && Trace(es, j) == Trace(fs, j)
    ensures Project(After(es), j) == Project(After(fs), j)
  {
    HistoryIsARunOfOneJob(es, j);
    HistoryIsARunOfOneJob(fs, j);
  }
}
