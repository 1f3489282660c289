/**
 From job rows to release units: `ordered_backlog` groups the scheduled jobs by asset
 (sau/schedule.py), and releasing an asset takes exactly its group out of the backlog.
 */
module BacklogQuery {
  import opened Options
  import opened StableSort
  import opened Backlog

  type Parts = map<string, Part>

  /** The group `asset` has among gs, if any. */
  function Find(gs: seq<Group>, asset: string): (place: Option<nat>)
    ensures place.Some? ==> place.value < |gs| && gs[place.value].asset == asset
    ensures place.None? ==> forall i :: 0 <= i < |gs| ==> gs[i].asset != asset
  {
    if gs == [] then None
    else if gs[0].asset == asset then Some(0)
    else match Find(gs[1..], asset)
      case None => None
      case Some(i) => Some(i + 1)
  }

  /** One row of the query result added to the groups collected so far. */
  function AddRow(gs: seq<Group>, row: JobRow, parts: Parts): seq<Group> {
    if !row.scheduled then gs
    else match Find(gs, row.asset)
      case Some(i) => gs[i := gs[i].(jobs := gs[i].jobs + [row.id])]
      case None =>
        gs + [Group(row.asset, row.createdAt, [row.id], if row.asset in parts then Some(parts[row.asset]) else None)]
  }

  /** The groups of a query result: one per asset with scheduled jobs, in order of first appearance. */
  function GroupsOf(rows: seq<JobRow>, parts: Parts): seq<Group> {
    if rows == [] then []
    else AddRow(GroupsOf(rows[..|rows| - 1], parts), rows[|rows| - 1], parts)
  }

  ghost predicate DistinctAssets(gs: seq<Group>) {
    forall i, j :: 0 <= i < j < |gs| ==> gs[i].asset != gs[j].asset
  }

  /** The ids of `asset`'s scheduled jobs, in query order. */
  function JobsOf(rows: seq<JobRow>, asset: string): seq<string> {
    if rows == [] then []
    else
      var last := rows[|rows| - 1];
      JobsOf(rows[..|rows| - 1], asset) + (if last.scheduled && last.asset == asset then [last.id] else [])
  }

  /** `ids` are those of the asset's scheduled rows: none is missing, none repeated, and they keep their order. */
  ghost predicate AreJobs(ids: seq<string>, places: seq<nat>, rows: seq<JobRow>, asset: string) {
    && |ids| == |places|
    && (forall i :: 0 <= i < |places| ==> places[i] < |rows| && ids[i] == rows[places[i]].id)
    && (forall i, j :: 0 <= i < j < |places| ==> places[i] < places[j])
    && (forall j :: 0 <= j < |rows| ==> (j in places <==> rows[j].scheduled && rows[j].asset == asset))
  }

  lemma OneMoreRow(ids: seq<string>, places: seq<nat>, rows: seq<JobRow>, row: JobRow, asset: string)
    requires AreJobs(ids, places, rows, asset)
    ensures if row.scheduled && row.asset == asset
            then AreJobs(ids + [row.id], places + [|rows|], rows + [row], asset)
            else AreJobs(ids, places, rows + [row], asset)
  {
    var all := rows + [row];
    assert forall i :: 0 <= i < |places| ==> all[places[i]] == rows[places[i]];
    assert |rows| !in places;
  }

  lemma {:induction false} JobsOfAre(rows: seq<JobRow>, asset: string) returns (places: seq<nat>)
    ensures AreJobs(JobsOf(rows, asset), places, rows, asset)
    decreases |rows|
  {
    places := [];
    if rows != [] {
      var front, row := rows[..|rows| - 1], rows[|rows| - 1];
      places := JobsOfAre(front, asset);
      OneMoreRow(JobsOf(front, asset), places, front, row, asset);
      assert front + [row] == rows;
      if row.scheduled && row.asset == asset {
        places := places + [|front|];
      }
    }
  }

  lemma FindAt(gs: seq<Group>, i: nat)
    requires DistinctAssets(gs) && i < |gs|
    ensures Find(gs, gs[i].asset) == Some(i)
  {
  }

  lemma AddRowDistinct(gs: seq<Group>, row: JobRow, parts: Parts)
    requires DistinctAssets(gs)
    ensures DistinctAssets(AddRow(gs, row, parts))
  {
  }

  /** Every group holds exactly its asset's scheduled jobs, and every asset with some has one group. */
  lemma {:induction false} GroupsFaithful(rows: seq<JobRow>, parts: Parts, asset: string)
    ensures var gs := GroupsOf(rows, parts);
            && DistinctAssets(gs)
            && (match Find(gs, asset)
                case Some(i) => gs[i].jobs == JobsOf(rows, asset) && JobsOf(rows, asset) != []
                case None => JobsOf(rows, asset) == [])
  {
    if rows != [] {
      var before, row := GroupsOf(rows[..|rows| - 1], parts), rows[|rows| - 1];
      GroupsFaithful(rows[..|rows| - 1], parts, asset);
      AddRowDistinct(before, row, parts);
      AddRowFind(before, row, parts, asset);
    }
  }

  /** Row f is the asset's first scheduled job. */
  ghost predicate FirstScheduled(rows: seq<JobRow>, asset: string, f: int) {
    && 0 <= f < |rows| && rows[f].asset == asset && rows[f].scheduled
    && forall j :: 0 <= j < f ==> !(rows[j].asset == asset && rows[j].scheduled)
  }

  /** A group bears the queue time of its asset's first scheduled job, and the asset's part if it has one. */
  ghost predicate FromRows(g: Group, rows: seq<JobRow>, parts: Parts) {
    && g.part == (if g.asset in parts then Some(parts[g.asset]) else None)
    && exists f :: FirstScheduled(rows, g.asset, f) && g.createdAt == rows[f].createdAt
  }

  lemma FromMoreRows(g: Group, rows: seq<JobRow>, row: JobRow, parts: Parts)
    requires FromRows(g, rows, parts)
    ensures FromRows(g, rows + [row], parts)
  {
    var f :| FirstScheduled(rows, g.asset, f) && g.createdAt == rows[f].createdAt;
    assert FirstScheduled(rows + [row], g.asset, f);
  }

  lemma NotYetScheduled(rows: seq<JobRow>, parts: Parts, asset: string, j: nat)
    requires j < |rows| && rows[j].asset == asset && rows[j].scheduled
    ensures Find(GroupsOf(rows, parts), asset).Some?
  {
    GroupsFaithful(rows, parts, asset);
    JobsOfHolds(rows, asset, j);
  }

  lemma {:induction false} JobsOfHolds(rows: seq<JobRow>, asset: string, j: nat)
    requires j < |rows| && rows[j].asset == asset && rows[j].scheduled
    ensures rows[j].id in JobsOf(rows, asset)
  {
    if j < |rows| - 1 {
      JobsOfHolds(rows[..|rows| - 1], asset, j);
    }
  }

  lemma AddedFromRows(before: seq<Group>, rows: seq<JobRow>, row: JobRow, parts: Parts, i: nat)
    requires before == GroupsOf(rows, parts)
    requires forall k :: 0 <= k < |before| ==> FromRows(before[k], rows, parts)
    requires i < |AddRow(before, row, parts)|
    ensures FromRows(AddRow(before, row, parts)[i], rows + [row], parts)
  {
    if i < |before| {
      FromMoreRows(before[i], rows, row, parts);
      var f :| FirstScheduled(rows + [row], before[i].asset, f) && before[i].createdAt == (rows + [row])[f].createdAt;
    } else {
      forall j | 0 <= j < |rows| ensures !(rows[j].asset == row.asset && rows[j].scheduled) {
        if rows[j].asset == row.asset && rows[j].scheduled {
          NotYetScheduled(rows, parts, row.asset, j);
        }
      }
      assert FirstScheduled(rows + [row], row.asset, |rows|);
    }
  }

  /** Every group bears the queue time and the part that the rows and the series table give its asset. */
  lemma {:induction false} GroupsBearTheirParts(rows: seq<JobRow>, parts: Parts)
    ensures forall g :: g in GroupsOf(rows, parts) ==> FromRows(g, rows, parts)
    decreases |rows|
  {
    if rows != [] {
      var front, row := rows[..|rows| - 1], rows[|rows| - 1];
      var before := GroupsOf(front, parts);
      GroupsBearTheirParts(front, parts);
      assert front + [row] == rows;
      forall i | 0 <= i < |AddRow(before, row, parts)| ensures FromRows(AddRow(before, row, parts)[i], rows, parts) {
        AddedFromRows(before, front, row, parts, i);
      }
    }
  }

  lemma AddRowFind(gs: seq<Group>, row: JobRow, parts: Parts, asset: string)
    requires DistinctAssets(gs)
    ensures var added := AddRow(gs, row, parts);
            var own := row.scheduled && row.asset == asset;
            match Find(gs, asset)
            case Some(i) =>
              Find(added, asset) == Some(i) && added[i].jobs == gs[i].jobs + (if own then [row.id] else [])
            case None =>
              if own then Find(added, asset) == Some(|gs|) && added[|gs|].jobs == [row.id]
              else Find(added, asset).None?
  {
    var added := AddRow(gs, row, parts);
    AddRowDistinct(gs, row, parts);
    match Find(gs, asset) {
      case Some(i) =>
        FindAt(added, i);
      case None =>
        if row.scheduled && row.asset == asset {
          FindAt(added, |gs|);
        } else {
          assert forall j :: 0 <= j < |added| ==> added[j].asset != asset;
        }
    }
  }

  /** The group list without `asset`'s group. */
  function Without(gs: seq<Group>, asset: string): seq<Group> {
    match Find(gs, asset)
    case Some(i) => RemoveAt(gs, i)
    case None => gs
  }

  /** `release_asset`, and one step of `tick`: the asset's scheduled jobs stop being scheduled. */
  function ReleaseRows(rows: seq<JobRow>, asset: string): (released: seq<JobRow>)
    ensures |released| == |rows|
    ensures forall i :: 0 <= i < |rows| ==>
      released[i] == if rows[i].asset == asset then rows[i].(scheduled := false) else rows[i]
  {
    seq(|rows|, i requires 0 <= i < |rows| => if rows[i].asset == asset then rows[i].(scheduled := false) else rows[i])
  }

  /** Releasing an asset removes its group and leaves every other group, and their order, alone. */
  lemma {:induction false} ReleaseRemovesGroup(rows: seq<JobRow>, parts: Parts, asset: string)
    ensures GroupsOf(ReleaseRows(rows, asset), parts) == Without(GroupsOf(rows, parts), asset)
  {
    if rows != [] {
      var before, row := rows[..|rows| - 1], rows[|rows| - 1];
      ReleaseRemovesGroup(before, parts, asset);
      GroupsFaithful(before, parts, row.asset);
      assert ReleaseRows(rows, asset)[..|rows| - 1] == ReleaseRows(before, asset);
      AddRowWithout(GroupsOf(before, parts), row, parts, asset);
    }
  }

  lemma AddRowWithout(gs: seq<Group>, row: JobRow, parts: Parts, asset: string)
    requires DistinctAssets(gs)
    ensures var row' := if row.asset == asset then row.(scheduled := false) else row;
            AddRow(Without(gs, asset), row', parts) == Without(AddRow(gs, row, parts), asset)
  {
    if row.scheduled {
      if row.asset == asset {
        OwnRowWithout(gs, row, parts);
      } else {
        match Find(gs, asset) {
          case Some(m) => OtherRowWithout(gs, row, parts, m);
          case None => OtherRowAbsent(gs, row, parts, asset);
        }
      }
    }
  }

  lemma OwnRowWithout(gs: seq<Group>, row: JobRow, parts: Parts)
    requires DistinctAssets(gs) && row.scheduled
    ensures Without(AddRow(gs, row, parts), row.asset) == Without(gs, row.asset)
  {
    var added := AddRow(gs, row, parts);
    AddRowDistinct(gs, row, parts);
    match Find(gs, row.asset) {
      case Some(i) =>
        FindAt(added, i);
        assert RemoveAt(added, i) == RemoveAt(gs, i);
      case None =>
        FindAt(added, |gs|);
        assert RemoveAt(added, |gs|) == gs;
    }
  }

  lemma UpdateThenRemove<T>(xs: seq<T>, m: nat, i: nat, x: T)
    requires m < |xs| && i < |xs| && i != m
    ensures RemoveAt(xs[i := x], m) == RemoveAt(xs, m)[PlaceAfter(m, i) := x]
  {
  }

  lemma AppendThenRemove<T>(xs: seq<T>, m: nat, x: T)
    requires m < |xs|
    ensures RemoveAt(xs + [x], m) == RemoveAt(xs, m) + [x]
  {
  }

  lemma OtherRowFound(gs: seq<Group>, row: JobRow, parts: Parts, m: nat, i: nat)
    requires DistinctAssets(gs) && row.scheduled && m < |gs| && row.asset != gs[m].asset
    requires Find(gs, row.asset) == Some(i)
    ensures AddRow(RemoveAt(gs, m), row, parts) == RemoveAt(AddRow(gs, row, parts), m)
  {
    FindInRest(gs, m, row.asset);
    UpdateThenRemove(gs, m, i, gs[i].(jobs := gs[i].jobs + [row.id]));
  }

  lemma OtherRowNew(gs: seq<Group>, row: JobRow, parts: Parts, m: nat)
    requires DistinctAssets(gs) && row.scheduled && m < |gs| && row.asset != gs[m].asset
    requires Find(gs, row.asset).None?
    ensures AddRow(RemoveAt(gs, m), row, parts) == RemoveAt(AddRow(gs, row, parts), m)
  {
    FindInRest(gs, m, row.asset);
    AppendThenRemove(gs, m, AddRow(gs, row, parts)[|gs|]);
  }

  lemma OtherRowWithout(gs: seq<Group>, row: JobRow, parts: Parts, m: nat)
    requires DistinctAssets(gs) && row.scheduled && m < |gs| && row.asset != gs[m].asset
    ensures AddRow(RemoveAt(gs, m), row, parts) == Without(AddRow(gs, row, parts), gs[m].asset)
  {
    var added := AddRow(gs, row, parts);
    AddRowDistinct(gs, row, parts);
    match Find(gs, row.asset) {
      case Some(i) => OtherRowFound(gs, row, parts, m, i);
      case None => OtherRowNew(gs, row, parts, m);
    }
    FindAt(added, m);
  }

  function PlaceAfter(m: nat, j: nat): nat
    requires j != m
  {
    if j < m then j else j - 1
  }

  lemma FindInRest(gs: seq<Group>, m: nat, asset: string)
    requires DistinctAssets(gs) && m < |gs| && asset != gs[m].asset
    ensures match Find(gs, asset)
            case Some(i) =>
              && i != m && Find(RemoveAt(gs, m), asset) == Some(PlaceAfter(m, i))
              && RemoveAt(gs, m)[PlaceAfter(m, i)] == gs[i]
            case None => Find(RemoveAt(gs, m), asset).None?
  {
    var rest := RemoveAt(gs, m);
    RestDistinct(gs, m);
    match Find(gs, asset) {
      case Some(i) =>
        var k := PlaceAfterRemoval(gs, m, i);
        FindAt(rest, k);
      case None =>
        assert forall j :: 0 <= j < |rest| ==> rest[j] == gs[PlaceBefore(m, j)];
    }
  }

  lemma OtherRowAbsent(gs: seq<Group>, row: JobRow, parts: Parts, asset: string)
    requires DistinctAssets(gs) && row.asset != asset && Find(gs, asset).None?
    ensures Find(AddRow(gs, row, parts), asset).None?
  {
  }

  lemma RestDistinct(gs: seq<Group>, m: nat)
    requires DistinctAssets(gs) && m < |gs|
    ensures DistinctAssets(RemoveAt(gs, m))
    ensures forall g :: g in RemoveAt(gs, m) ==> g.asset != gs[m].asset
  {
  }

  function Take<T>(xs: seq<T>, limit: nat): seq<T> {
    if limit < |xs| then xs[..limit] else xs
  }

  /** A dictionary and its insertion order hold the groups gs. */
  ghost predicate Holds(assets: seq<string>, groups: map<string, Group>, gs: seq<Group>) {
    && |assets| == |gs|
    && (forall a :: a in groups ==> a in assets)
    && (forall k :: 0 <= k < |gs| ==> assets[k] == gs[k].asset && assets[k] in groups && groups[assets[k]] == gs[k])
  }

  lemma DictionaryLookup(assets: seq<string>, groups: map<string, Group>, gs: seq<Group>, asset: string)
    requires Holds(assets, groups, gs)
    ensures asset in groups <==> Find(gs, asset).Some?
    ensures asset in groups ==> groups[asset] == gs[Find(gs, asset).value]
  {
  }

  lemma DictionaryAppend(assets: seq<string>, groups: map<string, Group>, gs: seq<Group>, i: nat, g: Group)
    requires Holds(assets, groups, gs) && DistinctAssets(gs)
    requires i < |gs| && g.asset == gs[i].asset
    ensures Holds(assets, groups[g.asset := g], gs[i := g])
  {
  }

  function AssetsOf(gs: seq<Group>): (assets: seq<string>)
    ensures |assets| == |gs| && forall i :: 0 <= i < |gs| ==> assets[i] == gs[i].asset
  {
    seq(|gs|, i requires 0 <= i < |gs| => gs[i].asset)
  }

  /** Of two assets of one series the lower part comes first, by the table of parts alone. */
  ghost predicate InPartOrder(assets: seq<string>, parts: Parts) {
    forall i, j :: 0 <= i < j < |assets| && assets[i] in parts && assets[j] in parts
                   && parts[assets[i]].series == parts[assets[j]].series ==>
      && assets[i] != assets[j]
      && parts[assets[i]].index <= parts[assets[j]].index
  }

  lemma DistinctAssetsPermuted(gs: seq<Group>, hs: seq<Group>)
    requires DistinctAssets(gs) && multiset(hs) == multiset(gs)
    ensures DistinctAssets(hs)
  {
    forall i, j | 0 <= i < j < |hs| ensures hs[i].asset != hs[j].asset {
      if hs[i] == hs[j] {
        TwiceListed(hs, i, j);
        var p, q := TwoPlaces(gs, hs[i]);
      } else {
        assert hs[i] in multiset(gs) && hs[j] in multiset(gs);
        var p :| 0 <= p < |gs| && gs[p] == hs[i];
        var q :| 0 <= q < |gs| && gs[q] == hs[j];
        assert p < q || q < p;
      }
    }
  }

  /** An arrangement of the groups that keeps parts in order keeps assets in part order. */
  lemma AssetsInPartOrder(rows: seq<JobRow>, parts: Parts, hs: seq<Group>)
    requires multiset(hs) == multiset(GroupsOf(rows, parts))
    requires forall i, j :: 0 <= i < j < |hs| && SameSeries(hs[i], hs[j]) ==>
               hs[i].part.value.index <= hs[j].part.value.index
    ensures InPartOrder(AssetsOf(hs), parts)
  {
    var gs := GroupsOf(rows, parts);
    GroupsFaithful(rows, parts, "");
    GroupsBearTheirParts(rows, parts);
    DistinctAssetsPermuted(gs, hs);
    forall i | 0 <= i < |hs| ensures FromRows(hs[i], rows, parts) {
      assert hs[i] in multiset(hs);
      assert hs[i] in gs;
    }
  }

  /** The preview of a table of rows: its series are in part order. */
  lemma PreviewInPartOrder(rows: seq<JobRow>, parts: Parts)
    ensures InPartOrder(AssetsOf(Order(GroupsOf(rows, parts))), parts)
  {
    var gs := GroupsOf(rows, parts);
    SortByPermutes(gs, KeyIn(gs));
    forall i, j | 0 <= i < j < |Order(gs)| && SameSeries(Order(gs)[i], Order(gs)[j])
      ensures Order(gs)[i].part.value.index <= Order(gs)[j].part.value.index
    {
      PreviewOrder(gs, i, j);
    }
    AssetsInPartOrder(rows, parts, Order(gs));
  }

  /** So is the drain, whatever the queue times. */
  lemma DrainInPartOrder(rows: seq<JobRow>, parts: Parts)
    ensures InPartOrder(AssetsOf(Drain(GroupsOf(rows, parts))), parts)
  {
    var gs := GroupsOf(rows, parts);
    DrainPermutes(gs);
    forall i, j | 0 <= i < j < |Drain(gs)| && SameSeries(Drain(gs)[i], Drain(gs)[j])
      ensures Drain(gs)[i].part.value.index <= Drain(gs)[j].part.value.index
    {
      DrainInEpisodeOrder(gs, i, j);
    }
    AssetsInPartOrder(rows, parts, Drain(gs));
  }

  /** A group of the rows: its jobs, its queue time and its part are those of its asset. */
  ghost predicate GroupOfRows(g: Group, rows: seq<JobRow>, parts: Parts) {
    && g.jobs == JobsOf(rows, g.asset) != []
    && FromRows(g, rows, parts)
  }

  lemma GroupsAreOfRows(rows: seq<JobRow>, parts: Parts)
    ensures forall g :: g in GroupsOf(rows, parts) ==> GroupOfRows(g, rows, parts)
    ensures forall j :: 0 <= j < |rows| && rows[j].scheduled ==> rows[j].asset in AssetsOf(GroupsOf(rows, parts))
  {
    var gs := GroupsOf(rows, parts);
    GroupsBearTheirParts(rows, parts);
    forall i | 0 <= i < |gs| ensures GroupOfRows(gs[i], rows, parts) {
      GroupsFaithful(rows, parts, gs[i].asset);
      FindAt(gs, i);
    }
    forall j | 0 <= j < |rows| && rows[j].scheduled ensures rows[j].asset in AssetsOf(gs) {
      NotYetScheduled(rows, parts, rows[j].asset, j);
      assert AssetsOf(gs)[Find(gs, rows[j].asset).value] == rows[j].asset;
    }
  }

  lemma PreviewIsOfRows(rows: seq<JobRow>, parts: Parts)
    ensures forall g :: g in Order(GroupsOf(rows, parts)) ==> GroupOfRows(g, rows, parts)
    ensures forall j :: 0 <= j < |rows| && rows[j].scheduled ==>
              exists g :: g in Order(GroupsOf(rows, parts)) && g.asset == rows[j].asset
    ensures DistinctAssets(Order(GroupsOf(rows, parts)))
  {
    var gs := GroupsOf(rows, parts);
    GroupsAreOfRows(rows, parts);
    GroupsFaithful(rows, parts, "");
    SortByPermutes(gs, KeyIn(gs));
    DistinctAssetsPermuted(gs, Order(gs));
    forall j | 0 <= j < |rows| && rows[j].scheduled ensures exists g :: g in Order(gs) && g.asset == rows[j].asset {
      var i :| 0 <= i < |gs| && AssetsOf(gs)[i] == rows[j].asset;
      assert gs[i] in Order(gs);
    }
  }

  /** What `ordered_backlog` returns, cut at its limit. */
  lemma BacklogInFull(rows: seq<JobRow>, parts: Parts, limit: nat)
    ensures var backlog := Take(Order(GroupsOf(rows, parts)), limit);
            && |backlog| <= limit && DistinctAssets(backlog)
            && (forall g :: g in backlog ==> GroupOfRows(g, rows, parts))
            && (|backlog| < limit ==> forall j :: 0 <= j < |rows| && rows[j].scheduled ==>
                  exists g :: g in backlog && g.asset == rows[j].asset)
            && InPartOrder(AssetsOf(backlog), parts)
            && (forall i, j :: 0 <= i < j < |backlog| && backlog[i].asset !in parts && backlog[j].asset !in parts ==>
                  backlog[i].createdAt <= backlog[j].createdAt)
  {
    var gs := GroupsOf(rows, parts);
    var out := Order(gs);
    PreviewIsOfRows(rows, parts);
    PreviewInPartOrder(rows, parts);
    forall i, j | 0 <= i < j < |out| && out[i].part.None? && out[j].part.None?
      ensures out[i].createdAt <= out[j].createdAt
    {
      PreviewOrder(gs, i, j);
    }
    forall i | 0 <= i < |out| && out[i].asset !in parts ensures out[i].part.None? {
      assert GroupOfRows(out[i], rows, parts);
    }
  }

  /** The query's rows collected into a dictionary of groups by asset, then put in preview order. */
  method OrderedBacklog(rows: seq<JobRow>, parts: Parts, limit: nat) returns (backlog: seq<Group>)
    ensures backlog == Take(Order(GroupsOf(rows, parts)), limit)
    ensures |backlog| <= limit && DistinctAssets(backlog)
    ensures forall g :: g in backlog ==>
              && g.jobs == JobsOf(rows, g.asset) && g.jobs != []
              && g.part == (if g.asset in parts then Some(parts[g.asset]) else None)
              && exists f :: FirstScheduled(rows, g.asset, f) && g.createdAt == rows[f].createdAt
    ensures |backlog| < limit ==>
              forall j :: 0 <= j < |rows| && rows[j].scheduled ==> exists g :: g in backlog && g.asset == rows[j].asset
    ensures forall i, j :: 0 <= i < j < |backlog| && backlog[i].asset in parts && backlog[j].asset in parts
                           && parts[backlog[i].asset].series == parts[backlog[j].asset].series ==>
              parts[backlog[i].asset].index <= parts[backlog[j].asset].index
    ensures forall i, j :: 0 <= i < j < |backlog| && backlog[i].asset !in parts && backlog[j].asset !in parts ==>
              backlog[i].createdAt <= backlog[j].createdAt
  {
    var groups: map<string, Group> := map[];
    var assets: seq<string> := [];  // the dictionary's insertion order
    for i := 0 to |rows|
      invariant Holds(assets, groups, GroupsOf(rows[..i], parts))
    {
      var job := rows[i];
      ghost var before := GroupsOf(rows[..i], parts);
      assert rows[..i + 1][..i] == rows[..i];
      GroupsFaithful(rows[..i], parts, job.asset);
      DictionaryLookup(assets, groups, before, job.asset);
      if job.scheduled {
        if job.asset in groups {
          var group := groups[job.asset].(jobs := groups[job.asset].jobs + [job.id]);
          DictionaryAppend(assets, groups, before, Find(before, job.asset).value, group);
          groups := groups[job.asset := group];
        } else {
          var group := Group(job.asset, job.createdAt, [job.id], None);
          if job.asset in parts {
            group := group.(part := Some(parts[job.asset]));
          }
          groups := groups[job.asset := group];
          assets := assets + [job.asset];
        }
      }
    }
    assert rows[..|rows|] == rows;
    var values := seq(|assets|, k requires 0 <= k < |assets| && assets[k] in groups => groups[assets[k]]);
    assert values == GroupsOf(rows, parts);
    var ordered := OrderGroups(values);
    backlog := Take(ordered, limit);
    BacklogInFull(rows, parts, limit);
  }

  /** Releasing the head of the preview leaves, in the rows, exactly the rest of the drain. */
  lemma ReleaseHeadDrains(rows: seq<JobRow>, parts: Parts)
    requires GroupsOf(rows, parts) != []
    ensures var gs := GroupsOf(rows, parts);
            var head := Order(gs)[0];
            && head == Drain(gs)[0]
            && Drain(GroupsOf(ReleaseRows(rows, head.asset), parts)) == Drain(gs)[1..]
  {
    var gs := GroupsOf(rows, parts);
    var m := FirstMin(gs, KeyIn(gs));
    SortByUnfold(gs, KeyIn(gs));
    GroupsFaithful(rows, parts, gs[m].asset);
    FindAt(gs, m);
    ReleaseRemovesGroup(rows, parts, gs[m].asset);
  }
}
