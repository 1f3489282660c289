/**
 All publish jobs at once: the table, the work outstanding on every queue, the API's requests and
 the workers, interleaved in any way (sau/api/main.py, sau/queue/tasks.py).
 */
module JobSystem {
  import opened Options
  import opened Platforms
  import opened JobMachine

  type JobId = nat

  datatype Entry = Entry(job: JobId, item: Item)

  /** One target of a publish request, with the fresh id its job gets. */
  datatype Target = Target(id: JobId, platform: Platform)

  datatype Sys = Sys(assets: set<string>, jobs: map<JobId, Job>, queue: seq<Entry>)

  datatype Event =
    | Register(asset: string)
    | Publish(asset: string, targets: seq<Target>, scheduled: bool)
    | ReleaseAsset(asset: string, order: seq<JobId>)     // `order`: its backlog as the database lists it
    | Unschedule(asset: string)
    | RetryJob(job: JobId)
    | Step(i: nat, outcome: Outcome)
    | LoseAt(i: nat)

  const EMPTY := Sys({}, map[], [])

  predicate InBacklog(jobs: map<JobId, Job>, asset: string, j: JobId) {
    j in jobs && jobs[j].asset == asset && jobs[j].state == Scheduled
  }

  predicate NoRepeats<T(==)>(s: seq<T>) {
    forall i, k :: 0 <= i < k < |s| ==> s[i] != s[k]
  }

  /** `order` lists the asset's backlog, each job once. */
  ghost predicate Lists(order: seq<JobId>, jobs: map<JobId, Job>, asset: string) {
    NoRepeats(order) && (forall j :: j in order <==> InBacklog(jobs, asset, j))
  }

  predicate HasJobFor(jobs: map<JobId, Job>, asset: string, platform: Platform) {
    exists j :: j in jobs && jobs[j].asset == asset && jobs[j].platform == platform
  }

  /** Fresh ids, each platform once, none the asset already has a job for. */
  predicate Acceptable(s: Sys, asset: string, targets: seq<Target>) {
    && asset in s.assets && targets != []
    && (forall i, k :: 0 <= i < k < |targets| ==>
          targets[i].platform != targets[k].platform && targets[i].id != targets[k].id)
    && (forall t :: t in targets ==> t.id !in s.jobs && !HasJobFor(s.jobs, asset, t.platform))
  }

  ghost predicate Possible(s: Sys, e: Event) {
    match e
    case Register(_) => true
    case Publish(asset, targets, _) => Acceptable(s, asset, targets)
    case ReleaseAsset(asset, order) => asset in s.assets && order != [] && Lists(order, s.jobs, asset)
    case Unschedule(asset) => asset in s.assets
    case RetryJob(j) => j in s.jobs && s.jobs[j].state == Failed
    case Step(i, o) => i < |s.queue| && Fits(s.queue[i].item, o)
    case LoseAt(i) => i < |s.queue|
  }

  function AddJobs(jobs: map<JobId, Job>, asset: string, targets: seq<Target>, scheduled: bool): map<JobId, Job> {
    if targets == [] then jobs
    else
      var t := targets[|targets| - 1];
      AddJobs(jobs, asset, targets[..|targets| - 1], scheduled)[t.id := NewJob(asset, t.platform, scheduled)]
  }

  function Dispatches(ids: seq<JobId>): seq<Entry> {
    if ids == [] then [] else Dispatches(ids[..|ids| - 1]) + [Entry(ids[|ids| - 1], Dispatch)]
  }

  function Ids(targets: seq<Target>): seq<JobId> {
    if targets == [] then [] else Ids(targets[..|targets| - 1]) + [targets[|targets| - 1].id]
  }

  function Entries(j: JobId, items: seq<Item>): seq<Entry> {
    if items == [] then [] else Entries(j, items[..|items| - 1]) + [Entry(j, items[|items| - 1])]
  }

  /** One entry for each id, in order. */
  lemma {:induction false} DispatchesAt(ids: seq<JobId>)
    ensures |Dispatches(ids)| == |ids|
    ensures forall i :: 0 <= i < |ids| ==> Dispatches(ids)[i] == Entry(ids[i], Dispatch)
    decreases |ids|
  {
    if ids != [] {
      DispatchesAt(ids[..|ids| - 1]);
    }
  }

  lemma {:induction false} EntriesAt(j: JobId, items: seq<Item>)
    ensures |Entries(j, items)| == |items|
    ensures forall k :: 0 <= k < |items| ==> Entries(j, items)[k] == Entry(j, items[k])
    decreases |items|
  {
    if items != [] {
      EntriesAt(j, items[..|items| - 1]);
    }
  }

  lemma {:induction false} IdAt(targets: seq<Target>, i: nat)
    requires i < |targets|
    ensures |Ids(targets)| == |targets| && Ids(targets)[i] == targets[i].id
    decreases |targets|
  {
    if i < |targets| - 1 {
      IdAt(targets[..|targets| - 1], i);
    } else if |targets| > 1 {
      IdAt(targets[..|targets| - 1], 0);
    }
  }

  /** Each target of a request with distinct ids gets a new job. */
  lemma {:induction false} AddedJobAt(jobs: map<JobId, Job>, asset: string, targets: seq<Target>, scheduled: bool,
        i: nat)
    requires (forall m, n :: 0 <= m < n < |targets| ==> targets[m].id != targets[n].id) && i < |targets|
    ensures RowOf(AddJobs(jobs, asset, targets, scheduled), targets[i].id)
            == Some(Job(asset, targets[i].platform, if scheduled then Scheduled else Pending, 0, None, None, 0, None))
    decreases |targets|
  {
    if i < |targets| - 1 {
      AddedJobAt(jobs, asset, targets[..|targets| - 1], scheduled, i);
    }
  }

  lemma {:induction false} OtherJobsStay(jobs: map<JobId, Job>, asset: string, targets: seq<Target>, scheduled: bool,
        j: JobId)
    requires forall i :: 0 <= i < |targets| ==> targets[i].id != j
    ensures RowOf(AddJobs(jobs, asset, targets, scheduled), j) == RowOf(jobs, j)
    decreases |targets|
  {
    if targets != [] {
      OtherJobsStay(jobs, asset, targets[..|targets| - 1], scheduled, j);
    }
  }

  function Released(jobs: map<JobId, Job>, asset: string): map<JobId, Job> {
    map j | j in jobs :: if InBacklog(jobs, asset, j) then jobs[j].(state := Pending) else jobs[j]
  }

  function Unscheduled(jobs: map<JobId, Job>, asset: string): map<JobId, Job> {
    map j | j in jobs && !InBacklog(jobs, asset, j) :: jobs[j]
  }

  function RowOf(jobs: map<JobId, Job>, j: JobId): Option<Job> {
    if j in jobs then Some(jobs[j]) else None
  }

  function Put(jobs: map<JobId, Job>, j: JobId, row: Option<Job>): map<JobId, Job> {
    if row.Some? then jobs[j := row.value] else jobs - {j}
  }

  ghost function Apply(s: Sys, e: Event): Sys
    requires Possible(s, e)
  {
    match e
    case Register(asset) => s.(assets := s.assets + {asset})
    case Publish(asset, targets, scheduled) =>
      s.(jobs := AddJobs(s.jobs, asset, targets, scheduled),
         queue := if scheduled then s.queue else s.queue + Dispatches(Ids(targets)))
    case ReleaseAsset(asset, order) => s.(jobs := Released(s.jobs, asset), queue := s.queue + Dispatches(order))
    case Unschedule(asset) => s.(jobs := Unscheduled(s.jobs, asset))
    case RetryJob(j) =>
      s.(jobs := s.jobs[j := s.jobs[j].(state := Pending, attempts := 0, error := None)],
         queue := s.queue + [Entry(j, Dispatch)])
    case Step(i, o) =>
      var j := s.queue[i].job;
      var result := Work(RowOf(s.jobs, j), s.queue[i].item, o);
      s.(jobs := Put(s.jobs, j, result.0), queue := Without(s.queue, i) + Entries(j, result.1))
    case LoseAt(i) => s.(queue := Without(s.queue, i))
  }

  ghost predicate Valid(es: seq<Event>)
    decreases |es|, 0
  {
    es == [] || (Valid(es[..|es| - 1]) && Possible(After(es[..|es| - 1]), es[|es| - 1]))
  }

  ghost function After(es: seq<Event>): Sys
    requires Valid(es)
    decreases |es|, 1
  {
    if es == [] then EMPTY else Apply(After(es[..|es| - 1]), es[|es| - 1])
  }

  lemma ValidExtends(es: seq<Event>, e: Event)
    requires Valid(es) && Possible(After(es), e)
    ensures Valid(es + [e]) && After(es + [e]) == Apply(After(es), e)
  {
  }
}
