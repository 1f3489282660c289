/**
 Dropping one job's events from a run -- its requests, its steps, its losses -- leaves a run in
 which every other job has the history it had.
 */
module JobErase {
  import opened Options
  import opened Platforms
  import opened JobMachine
  import opened JobSystem
  import opened JobFanOut

  // ---- everything but job k --------------------------------------------------------------

  function OthersOf(queue: seq<Entry>, k: JobId): seq<Entry> {
    if queue == [] then []
    else
      var rest, last := OthersOf(queue[..|queue| - 1], k), queue[|queue| - 1];
      if last.job == k then rest else rest + [last]
  }

  function DropTarget(targets: seq<Target>, k: JobId): seq<Target> {
    if targets == [] then []
    else
      var rest, last := DropTarget(targets[..|targets| - 1], k), targets[|targets| - 1];
      if last.id == k then rest else rest + [last]
  }

  function DropId(ids: seq<JobId>, k: JobId): seq<JobId> {
    if ids == [] then []
    else
      var rest, last := DropId(ids[..|ids| - 1], k), ids[|ids| - 1];
      if last == k then rest else rest + [last]
  }

  function Erase(s: Sys, k: JobId): Sys {
    Sys(s.assets, s.jobs - {k}, OthersOf(s.queue, k))
  }

  /** What is left of an event when job k is dropped: nothing, or the event for the other jobs. */
  function EventWithout(s: Sys, e: Event, k: JobId): seq<Event> {
    match e
    case Register(_) => [e]
    case Publish(asset, targets, scheduled) =>
      if DropTarget(targets, k) == [] then [] else [Publish(asset, DropTarget(targets, k), scheduled)]
    case ReleaseAsset(asset, order) => if DropId(order, k) == [] then [] else [ReleaseAsset(asset, DropId(order, k))]
    case Unschedule(_) => [e]
    case RetryJob(j) => if j == k then [] else [e]
    case Step(i, o) => if i >= |s.queue| || s.queue[i].job == k then [] else [Step(|OthersOf(s.queue[..i], k)|, o)]
    case LoseAt(i) => if i >= |s.queue| || s.queue[i].job == k then [] else [LoseAt(|OthersOf(s.queue[..i], k)|)]
  }

  ghost function RunWithout(es: seq<Event>, k: JobId): seq<Event>
    requires Valid(es)
    decreases |es|
  {
    if es == [] then []
    else RunWithout(es[..|es| - 1], k) + EventWithout(After(es[..|es| - 1]), es[|es| - 1], k)
  }

  // ---- queues ----------------------------------------------------------------------------

  lemma {:induction false} OthersOfConcat(a: seq<Entry>, b: seq<Entry>, k: JobId)
    ensures OthersOf(a + b, k) == OthersOf(a, k) + OthersOf(b, k)
    decreases |b|
  {
    if b == [] {
      assert a + b == a;
    } else {
      assert (a + b)[..|a + b| - 1] == a + b[..|b| - 1];
      OthersOfConcat(a, b[..|b| - 1], k);
    }
  }

  lemma OthersOfOneMore(queue: seq<Entry>, e: Entry, k: JobId)
    ensures OthersOf(queue + [e], k) == if e.job == k then OthersOf(queue, k) else OthersOf(queue, k) + [e]
  {
    assert (queue + [e])[..|queue|] == queue;
  }

  /** Entry i of the queue, among the others' entries. */
  lemma OthersOfWithout(queue: seq<Entry>, i: nat, k: JobId)
    requires i < |queue|
    ensures var at, others := |OthersOf(queue[..i], k)|, OthersOf(queue, k);
            if queue[i].job == k then OthersOf(Without(queue, i), k) == others
            else && at < |others| && others[at] == queue[i] && others[..at] == OthersOf(queue[..i], k)
                 && OthersOf(Without(queue, i), k) == Without(others, at)
  {
    var a, e, b := queue[..i], queue[i], queue[i + 1..];
    assert queue == a + [e] + b;
    OthersOfConcat(a + [e], b, k);
    OthersOfOneMore(a, e, k);
    OthersOfConcat(a, b, k);
  }

  lemma {:induction false} OthersOfEntries(j: JobId, items: seq<Item>, k: JobId)
    ensures OthersOf(Entries(j, items), k) == if j == k then [] else Entries(j, items)
    decreases |items|
  {
    if items != [] {
      OthersOfEntries(j, items[..|items| - 1], k);
      OthersOfOneMore(Entries(j, items[..|items| - 1]), Entry(j, items[|items| - 1]), k);
    }
  }

  lemma {:induction false} OthersOfDispatches(ids: seq<JobId>, k: JobId)
    ensures OthersOf(Dispatches(ids), k) == Dispatches(DropId(ids, k))
    decreases |ids|
  {
    if ids != [] {
      var front, last := ids[..|ids| - 1], ids[|ids| - 1];
      OthersOfDispatches(front, k);
      OthersOfOneMore(Dispatches(front), Entry(last, Dispatch), k);
      assert last != k ==> (DropId(front, k) + [last])[..|DropId(front, k)|] == DropId(front, k);
    }
  }

  /** Another job's share of the queue does not change. */
  lemma {:induction false} ItemsOfOthers(queue: seq<Entry>, k: JobId, j: JobId)
    requires j != k
    ensures ItemsOf(OthersOf(queue, k), j) == ItemsOf(queue, j)
    decreases |queue|
  {
    if queue != [] {
      var front, last := queue[..|queue| - 1], queue[|queue| - 1];
      ItemsOfOthers(front, k, j);
      ItemsOfOneMore(OthersOf(front, k), last, j);
    }
  }

  // ---- requests --------------------------------------------------------------------------

  lemma {:induction false} DropIdKeepsTheRest(ids: seq<JobId>, k: JobId)
    requires NoRepeats(ids)
    ensures NoRepeats(DropId(ids, k)) && forall j :: j in DropId(ids, k) <==> j in ids && j != k
    decreases |ids|
  {
    if ids != [] {
      var front, last := ids[..|ids| - 1], ids[|ids| - 1];
      DropIdKeepsTheRest(front, k);
      assert ids == front + [last];
      assert last !in front;
    }
  }

  predicate Apart(targets: seq<Target>) {
    forall i, n :: 0 <= i < n < |targets| ==>
      targets[i].platform != targets[n].platform && targets[i].id != targets[n].id
  }

  lemma {:induction false} DropTargetKeepsApart(targets: seq<Target>, k: JobId)
    requires Apart(targets)
    ensures Apart(DropTarget(targets, k)) && forall t :: t in DropTarget(targets, k) ==> t in targets
    decreases |targets|
  {
    if targets != [] {
      var front, last := targets[..|targets| - 1], targets[|targets| - 1];
      DropTargetKeepsApart(front, k);
      forall t | t in front ensures t.platform != last.platform && t.id != last.id {
        var i :| 0 <= i < |front| && front[i] == t;
        assert targets[i] == t;
      }
    }
  }

  lemma {:induction false} DropTargetIds(targets: seq<Target>, k: JobId)
    ensures Ids(DropTarget(targets, k)) == DropId(Ids(targets), k)
    decreases |targets|
  {
    if targets != [] {
      var front, last := targets[..|targets| - 1], targets[|targets| - 1];
      DropTargetIds(front, k);
      var kept := DropTarget(front, k);
      assert (kept + [last])[..|kept|] == kept;
      assert (Ids(front) + [last.id])[..|Ids(front)|] == Ids(front);
    }
  }

  lemma {:induction false} AddJobsErased(jobs: map<JobId, Job>, asset: string, targets: seq<Target>, scheduled: bool,
        k: JobId)
    ensures AddJobs(jobs - {k}, asset, DropTarget(targets, k), scheduled)
            == AddJobs(jobs, asset, targets, scheduled) - {k}
    decreases |targets|
  {
    if targets != [] {
      var front, last := targets[..|targets| - 1], targets[|targets| - 1];
      AddJobsErased(jobs, asset, front, scheduled, k);
      var kept := DropTarget(front, k);
      assert (kept + [last])[..|kept|] == kept;
    }
  }

  lemma {:induction false} CreatesInErased(asset: string, targets: seq<Target>, scheduled: bool, k: JobId, j: JobId)
    requires j != k
    ensures CreatesIn(asset, DropTarget(targets, k), scheduled, j) == CreatesIn(asset, targets, scheduled, j)
    decreases |targets|
  {
    if targets != [] {
      var front, last := targets[..|targets| - 1], targets[|targets| - 1];
      CreatesInErased(asset, front, scheduled, k, j);
      var kept := DropTarget(front, k);
      assert (kept + [last])[..|kept|] == kept;
    }
  }

  // ---- each event ------------------------------------------------------------------------

  /** The events left do to the others' system what the event did to the whole of it. */
  ghost predicate Follows(s: Sys, fs: seq<Event>, s': Sys) {
    if fs == [] then s' == s else |fs| == 1 && Possible(s, fs[0]) && s' == Apply(s, fs[0])
  }

  lemma PublishErased(s: Sys, asset: string, targets: seq<Target>, scheduled: bool, k: JobId)
    requires Acceptable(s, asset, targets)
    ensures var e := Publish(asset, targets, scheduled);
            Follows(Erase(s, k), EventWithout(s, e, k), Erase(Apply(s, e), k))
  {
    var kept := DropTarget(targets, k);
    assert Apart(targets);
    DropTargetKeepsApart(targets, k);
    DropTargetIds(targets, k);
    AddJobsErased(s.jobs, asset, targets, scheduled, k);
    OthersOfConcat(s.queue, Dispatches(Ids(targets)), k);
    OthersOfDispatches(Ids(targets), k);
    if kept == [] {
      assert AddJobs(s.jobs - {k}, asset, kept, scheduled) == s.jobs - {k};
      assert OthersOf(s.queue, k) + [] == OthersOf(s.queue, k);
    } else {
      AcceptableErased(s, asset, targets, kept, k);
    }
  }

  lemma AcceptableErased(s: Sys, asset: string, targets: seq<Target>, kept: seq<Target>, k: JobId)
    requires Acceptable(s, asset, targets) && kept != [] && Apart(kept) && (forall t :: t in kept ==> t in targets)
    ensures Acceptable(Erase(s, k), asset, kept)
  {
    forall t | t in kept ensures t.id !in s.jobs - {k} && !HasJobFor(s.jobs - {k}, asset, t.platform) {
      assert t in targets;
    }
  }

  lemma ReleasedErased(jobs: map<JobId, Job>, asset: string, k: JobId)
    ensures Released(jobs - {k}, asset) == Released(jobs, asset) - {k}
  {
  }

  lemma ListsErased(order: seq<JobId>, jobs: map<JobId, Job>, asset: string, k: JobId)
    requires Lists(order, jobs, asset)
    ensures Lists(DropId(order, k), jobs - {k}, asset)
  {
    DropIdKeepsTheRest(order, k);
  }

  lemma NothingToRelease(jobs: map<JobId, Job>, asset: string)
    requires Lists([], jobs, asset)
    ensures Released(jobs, asset) == jobs
  {
    forall j | j in jobs ensures !InBacklog(jobs, asset, j) {
      var none: seq<JobId> := [];
      assert j !in none;
    }
  }

  lemma ReleaseErased(s: Sys, asset: string, order: seq<JobId>, k: JobId)
    requires Possible(s, ReleaseAsset(asset, order))
    ensures var e := ReleaseAsset(asset, order);
            Follows(Erase(s, k), EventWithout(s, e, k), Erase(Apply(s, e), k))
  {
    ListsErased(order, s.jobs, asset, k);
    ReleasedErased(s.jobs, asset, k);
    OthersOfConcat(s.queue, Dispatches(order), k);
    OthersOfDispatches(order, k);
    if DropId(order, k) == [] {
      NothingToRelease(s.jobs - {k}, asset);
      assert OthersOf(s.queue, k) + [] == OthersOf(s.queue, k);
    }
  }

  lemma StepErased(s: Sys, i: nat, o: Outcome, k: JobId)
    requires Possible(s, Step(i, o))
    ensures Follows(Erase(s, k), EventWithout(s, Step(i, o), k), Erase(Apply(s, Step(i, o)), k))
  {
    var j := s.queue[i].job;
    var result := Work(RowOf(s.jobs, j), s.queue[i].item, o);
    OthersOfWithout(s.queue, i, k);
    OthersOfConcat(Without(s.queue, i), Entries(j, result.1), k);
    OthersOfEntries(j, result.1, k);
    PutErased(s.jobs, j, result.0, k);
    assert OthersOf(s.queue, k) + [] == OthersOf(s.queue, k);
  }

  lemma PutErased(jobs: map<JobId, Job>, j: JobId, row: Option<Job>, k: JobId)
    ensures Put(jobs, j, row) - {k} == if j == k then jobs - {k} else Put(jobs - {k}, j, row)
    ensures j != k ==> RowOf(jobs - {k}, j) == RowOf(jobs, j)
  {
  }

  lemma EventErased(s: Sys, e: Event, k: JobId)
    requires Possible(s, e)
    ensures Follows(Erase(s, k), EventWithout(s, e, k), Erase(Apply(s, e), k))
  {
    match e {
      case Publish(asset, targets, scheduled) => PublishErased(s, asset, targets, scheduled, k);
      case ReleaseAsset(asset, order) => ReleaseErased(s, asset, order, k);
      case Unschedule(asset) => assert Unscheduled(s.jobs - {k}, asset) == Unscheduled(s.jobs, asset) - {k};
      case RetryJob(j) =>
        OthersOfOneMore(s.queue, Entry(j, Dispatch), k);
        PutErased(s.jobs, j, Some(s.jobs[j].(state := Pending, attempts := 0, error := None)), k);
      case Step(i, o) => StepErased(s, i, o, k);
      case LoseAt(i) => OthersOfWithout(s.queue, i, k);
      case _ =>
    }
  }

  /** And they are to every other job what the event was. */
  lemma ActsErased(s: Sys, e: Event, k: JobId, j: JobId)
    requires Possible(s, e) && j != k
    ensures var fs := EventWithout(s, e, k);
            |fs| <= 1 && ActsOn(s, e, j) == if fs == [] then [] else ActsOn(Erase(s, k), fs[0], j)
  {
    match e {
      case Publish(asset, targets, scheduled) => CreatesInErased(asset, targets, scheduled, k, j);
      case ReleaseAsset(asset, order) => DropIdKeepsTheRest(order, k);
      case Step(i, o) =>
        OthersOfWithout(s.queue, i, k);
        ItemsOfOthers(s.queue[..i], k, j);
      case LoseAt(i) =>
        OthersOfWithout(s.queue, i, k);
        ItemsOfOthers(s.queue[..i], k, j);
      case _ =>
    }
  }

  // ---- the whole run ---------------------------------------------------------------------

  lemma ValidExtends(es: seq<Event>, fs: seq<Event>, s': Sys)
    requires Valid(es) && Follows(After(es), fs, s')
    ensures Valid(es + fs) && After(es + fs) == s'
    ensures forall j :: Trace(es + fs, j) == Trace(es, j) + if fs == [] then [] else ActsOn(After(es), fs[0], j)
  {
    if fs == [] {
      assert es + fs == es;
      forall j ensures Trace(es, j) == Trace(es, j) + [] {
      }
    } else {
      assert (es + fs)[..|es + fs| - 1] == es;
    }
  }

  /**
   Drop everything that is about job k from a run: what is left is a run, without job k and with
   every other job's acts, row and outstanding work as they were.
   */
  lemma {:induction false} AnyJobCanBeDropped(es: seq<Event>, k: JobId)
    requires Valid(es)
    ensures Valid(RunWithout(es, k)) && After(RunWithout(es, k)) == Erase(After(es), k)
    ensures forall j :: j != k ==> Trace(RunWithout(es, k), j) == Trace(es, j)
    ensures forall j :: j != k ==> Project(After(RunWithout(es, k)), j) == Project(After(es), j)
    decreases |es|
  {
    if es != [] {
      var before, e := es[..|es| - 1], es[|es| - 1];
      var s := After(before);
      AnyJobCanBeDropped(before, k);
      EventErased(s, e, k);
      ValidExtends(RunWithout(before, k), EventWithout(s, e, k), Erase(After(es), k));
      forall j | j != k ensures Trace(RunWithout(es, k), j) == Trace(es, j) {
        ActsErased(s, e, k, j);
      }
    }
    forall j | j != k ensures Project(Erase(After(es), k), j) == Project(After(es), j) {
      ItemsOfOthers(After(es).queue, k, j);
    }
  }
}
