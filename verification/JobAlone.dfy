/**
 Taking every other job out of a run leaves a run, with the same history for the job that stays.
 */
module JobAlone {
  import opened Options
  import opened Platforms
  import opened JobMachine
  import opened JobSystem
  import opened JobFanOut

  /** The system when j is its only job. */
  function Lone(x: Solo, j: JobId, assets: set<string>): Sys {
    Sys(assets, if x.row.Some? then map[j := x.row.value] else map[], Entries(j, x.items))
  }

  function AssetsIn(tr: seq<Act>): set<string> {
    if tr == [] then {}
    else
      var a := tr[|tr| - 1];
      AssetsIn(tr[..|tr| - 1]) + (if a.Create? then {a.asset} else {})
  }

  /** The request or worker step that does `a` to job j when there is no other job. */
  function EventFor(x: Solo, a: Act, j: JobId): Event
    requires Can(x, a)
  {
    match a
    case Create(asset, platform, scheduled) => Publish(asset, [Target(j, platform)], scheduled)
    case Release => ReleaseAsset(x.row.value.asset, [j])
    case Drop => Unschedule(x.row.value.asset)
    case Retry => RetryJob(j)
    case Do(k, o) => Step(k, o)
    case Lose(k) => LoseAt(k)
  }

  function Alone(tr: seq<Act>, j: JobId): seq<Event>
    requires Legal(tr)
  {
    if tr == [] then []
    else
      var before, a := tr[..|tr| - 1], tr[|tr| - 1];
      Alone(before, j) + (if a.Create? then [Register(a.asset)] else []) + [EventFor(Reached(before), a, j)]
  }

  lemma EntriesConcat(j: JobId, a: seq<Item>, b: seq<Item>)
    ensures Entries(j, a + b) == Entries(j, a) + Entries(j, b)
  {
    EntriesAt(j, a);
    EntriesAt(j, b);
    EntriesAt(j, a + b);
  }

  lemma EntriesWithout(j: JobId, items: seq<Item>, k: nat)
    requires k < |items|
    ensures |Entries(j, items)| == |items| && Without(Entries(j, items), k) == Entries(j, Without(items, k))
  {
    EntriesAt(j, items);
    EntriesAt(j, Without(items, k));
    var l, r := Without(Entries(j, items), k), Entries(j, Without(items, k));
    forall i | 0 <= i < |items| - 1 ensures l[i] == r[i] {
      assert Without(items, k)[i] == items[if i < k then i else i + 1];
    }
    assert l == r;
  }

  lemma OneDispatch(j: JobId)
    ensures Dispatches([j]) == [Entry(j, Dispatch)] && Entries(j, [Dispatch]) == [Entry(j, Dispatch)]
  {
  }

  predicate AssetKnown(x: Solo, assets: set<string>) {
    x.row.Some? ==> x.row.value.asset in assets
  }

  lemma CreateAlone(x: Solo, j: JobId, assets: set<string>, asset: string, platform: Platform, scheduled: bool)
    requires x.row.None? && asset in assets
    ensures var s, a := Lone(x, j, assets), Create(asset, platform, scheduled);
            Possible(s, EventFor(x, a, j)) && Apply(s, EventFor(x, a, j)) == Lone(Next(x, a), j, assets)
  {
    var targets := [Target(j, platform)];
    assert targets[..0] == [];
    assert Ids(targets) == [j];
    assert AddJobs(map[], asset, targets, scheduled) == map[j := NewJob(asset, platform, scheduled)];
    OneDispatch(j);
    EntriesConcat(j, x.items, [Dispatch]);
  }

  /** Releasing the only job of the system. */
  lemma ReleasedAlone(job: Job, j: JobId)
    requires job.state == Scheduled
    ensures Lists([j], map[j := job], job.asset)
    ensures Released(map[j := job], job.asset) == map[j := job.(state := Pending)]
  {
  }

  lemma ReleaseAlone(x: Solo, j: JobId, assets: set<string>)
    requires Can(x, Release) && AssetKnown(x, assets)
    ensures var s := Lone(x, j, assets);
            && Possible(s, EventFor(x, Release, j))
            && Apply(s, EventFor(x, Release, j)) == Lone(Next(x, Release), j, assets)
  {
    ReleasedAlone(x.row.value, j);
    OneDispatch(j);
    EntriesConcat(j, x.items, [Dispatch]);
  }

  lemma RetryAlone(x: Solo, j: JobId, assets: set<string>)
    requires Can(x, Retry)
    ensures var s := Lone(x, j, assets);
            Possible(s, EventFor(x, Retry, j)) && Apply(s, EventFor(x, Retry, j)) == Lone(Next(x, Retry), j, assets)
  {
  }

  lemma WorkAlone(x: Solo, j: JobId, assets: set<string>, k: nat, o: Outcome)
    requires Can(x, Do(k, o))
    ensures var s := Lone(x, j, assets);
            && Possible(s, EventFor(x, Do(k, o), j))
            && Apply(s, EventFor(x, Do(k, o), j)) == Lone(Next(x, Do(k, o)), j, assets)
  {
    EntriesAt(j, x.items);
    EntriesWithout(j, x.items, k);
    var result := Work(x.row, x.items[k], o);
    EntriesConcat(j, Without(x.items, k), result.1);
    PutAlone(x.row, j, result.0);
  }

  lemma PutAlone(row: Option<Job>, j: JobId, row': Option<Job>)
    ensures var jobs := if row.Some? then map[j := row.value] else map[];
            RowOf(jobs, j) == row && Put(jobs, j, row') == if row'.Some? then map[j := row'.value] else map[]
  {
  }

  lemma ActAlone(x: Solo, a: Act, j: JobId, assets: set<string>)
    requires Can(x, a) && AssetKnown(x, assets) && (a.Create? ==> a.asset in assets)
    ensures var s := Lone(x, j, assets);
            Possible(s, EventFor(x, a, j)) && Apply(s, EventFor(x, a, j)) == Lone(Next(x, a), j, assets)
  {
    match a {
      case Create(asset, platform, scheduled) => CreateAlone(x, j, assets, asset, platform, scheduled);
      case Release => ReleaseAlone(x, j, assets);
      case Drop =>
      case Retry => RetryAlone(x, j, assets);
      case Do(k, o) => WorkAlone(x, j, assets, k, o);
      case Lose(k) => EntriesWithout(j, x.items, k);
    }
  }

  lemma AssetStays(x: Solo, a: Act)
    requires Can(x, a)
    ensures !a.Create? && Next(x, a).row.Some? ==> x.row.Some? && Next(x, a).row.value.asset == x.row.value.asset
  {
  }

  /** One more act needs one more event, or two: a new job's asset is registered first. */
  lemma ValidExtendsByAct(es: seq<Event>, x: Solo, a: Act, j: JobId, assets: set<string>)
    requires Valid(es) && After(es) == Lone(x, j, assets) && Can(x, a) && AssetKnown(x, assets)
    ensures var fs := es + (if a.Create? then [Register(a.asset)] else []) + [EventFor(x, a, j)];
            var known := assets + (if a.Create? then {a.asset} else {});
            Valid(fs) && After(fs) == Lone(Next(x, a), j, known) && AssetKnown(Next(x, a), known)
  {
    AssetStays(x, a);
    if a.Create? {
      ValidExtends(es, Register(a.asset));
      ActAlone(x, a, j, assets + {a.asset});
      ValidExtends(es + [Register(a.asset)], EventFor(x, a, j));
    } else {
      assert es + [] == es && assets + {} == assets;
      ActAlone(x, a, j, assets);
      ValidExtends(es, EventFor(x, a, j));
    }
  }

  lemma {:induction false} AloneIsValid(tr: seq<Act>, j: JobId)
    requires Legal(tr)
    ensures Valid(Alone(tr, j)) && After(Alone(tr, j)) == Lone(Reached(tr), j, AssetsIn(tr))
            && AssetKnown(Reached(tr), AssetsIn(tr))
    decreases |tr|
  {
    if tr != [] {
      var before, a := tr[..|tr| - 1], tr[|tr| - 1];
      AloneIsValid(before, j);
      ValidExtendsByAct(Alone(before, j), Reached(before), a, j, AssetsIn(before));
    }
  }

  lemma LoneProjects(x: Solo, j: JobId, assets: set<string>)
    ensures Project(Lone(x, j, assets), j) == x && (forall i :: i in Lone(x, j, assets).jobs ==> i == j)
  {
    ItemsOfEntries(j, x.items, j);
  }

  /** Remove every other job from a run, with all its work: this job's history stays the same. */
  lemma SiblingsCanBeRemoved(es: seq<Event>, j: JobId)
    requires Valid(es)
    ensures Legal(Trace(es, j))
    ensures var alone := Alone(Trace(es, j), j);
            && Valid(alone) && (forall i :: i in After(alone).jobs ==> i == j)
            && Project(After(alone), j) == Project(After(es), j)
  {
    HistoryIsARunOfOneJob(es, j);
    AloneIsValid(Trace(es, j), j);
    LoneProjects(Reached(Trace(es, j)), j, AssetsIn(Trace(es, j)));
  }
}
