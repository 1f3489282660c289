/**
 The publish backlog: grouping scheduled jobs by asset, the preview order, and the order in
 which releasing one head at a time really drains it (sau/schedule.py).
 */
module Backlog {
  import opened Options
  import opened StableSort

  /** The place an asset holds in a series, and the series' title. */
  datatype Part = Part(series: string, index: int, title: string)

  /** One release unit: an asset, when its first scheduled job was queued, and its scheduled jobs. */
  datatype Group = Group(asset: string, createdAt: int, jobs: seq<string>, part: Option<Part>)

  /** What the backlog query reads of a job row; rows stand in `created_at` order. */
  datatype JobRow = JobRow(id: string, asset: string, createdAt: int, scheduled: bool)

  // ---- sort keys -------------------------------------------------------------------------

  predicate SameSeries(g: Group, h: Group) {
    g.part.Some? && h.part.Some? && g.part.value.series == h.part.value.series
  }

  /** The smaller of `acc` and the queue times of the members of `g`'s series in `base`. */
  function EarliestOf(g: Group, base: seq<Group>, acc: int): int {
    if base == [] then acc
    else EarliestOf(g, base[1..], if SameSeries(g, base[0]) && base[0].createdAt < acc then base[0].createdAt else acc)
  }

  lemma {:induction false} EarliestFacts(g: Group, base: seq<Group>, acc: int)
    ensures var t := EarliestOf(g, base, acc);
            && t <= acc
            && (forall h :: h in base && SameSeries(g, h) ==> t <= h.createdAt)
            && (t == acc || exists h :: h in base && SameSeries(g, h) && h.createdAt == t)
  {
    if base != [] {
      EarliestFacts(g, base[1..], if SameSeries(g, base[0]) && base[0].createdAt < acc then base[0].createdAt else acc);
      assert forall h :: h in base ==> h == base[0] || h in base[1..];
    }
  }

  /** What places `g` among the groups of `base`: its series' earliest queue time, or its own. */
  function Anchor(g: Group, base: seq<Group>): int {
    EarliestOf(g, base, g.createdAt)
  }

  function KeyOf(g: Group, base: seq<Group>): Key {
    Key(Anchor(g, base), if g.part.Some? then g.part.value.index else 0)
  }

  function KeyIn(base: seq<Group>): Group -> Key {
    (g: Group) => KeyOf(g, base)
  }

  lemma AnchorFacts(g: Group, base: seq<Group>)
    ensures Anchor(g, base) <= g.createdAt
    ensures forall h :: h in base && SameSeries(g, h) ==> Anchor(g, base) <= h.createdAt
    ensures Anchor(g, base) == g.createdAt
            || exists h :: h in base && SameSeries(g, h) && h.createdAt == Anchor(g, base)
  {
    EarliestFacts(g, base, g.createdAt);
  }

  /** Only the members present matter, and fewer members can only move the anchor later. */
  lemma AnchorAntitone(g: Group, few: seq<Group>, many: seq<Group>)
    requires forall h :: h in few && SameSeries(g, h) ==> h in many
    ensures Anchor(g, many) <= Anchor(g, few)
  {
    AnchorFacts(g, few);
    AnchorFacts(g, many);
  }

  lemma AnchorShared(g: Group, h: Group, base: seq<Group>)
    requires g in base && h in base && SameSeries(g, h)
    ensures Anchor(g, base) == Anchor(h, base)
  {
    AnchorFacts(g, base);
    AnchorFacts(h, base);
  }

  // ---- preview order and drain -----------------------------------------------------------

  /** The preview: one sort, with every series placed by its earliest part in the whole backlog. */
  function Order(gs: seq<Group>): seq<Group> {
    SortBy(gs, KeyIn(gs))
  }

  /** The drain: release the head, then order what is left afresh, until nothing is left. */
  function Drain(gs: seq<Group>): (released: seq<Group>)
    ensures |released| == |gs|
    decreases |gs|
  {
    if gs == [] then []
    else
      var m := FirstMin(gs, KeyIn(gs));
      [gs[m]] + Drain(RemoveAt(gs, m))
  }

  lemma DrainUnfold(gs: seq<Group>)
    requires gs != []
    ensures var m := FirstMin(gs, KeyIn(gs));
            Drain(gs)[0] == gs[m] && Drain(gs)[1..] == Drain(RemoveAt(gs, m))
  {
  }

  /** Everything scheduled is released, once. */
  lemma {:induction false} DrainPermutes(gs: seq<Group>)
    ensures multiset(Drain(gs)) == multiset(gs)
    ensures forall g :: g in Drain(gs) <==> g in gs
    decreases |gs|
  {
    if gs != [] {
      var m := FirstMin(gs, KeyIn(gs));
      DrainPermutes(RemoveAt(gs, m));
      RemoveAtKeepsRest(gs, m);
    }
    assert forall g :: g in Drain(gs) <==> g in multiset(Drain(gs));
    assert forall g :: g in gs <==> g in multiset(gs);
  }

  /**
   Read off a preview `SortBy(rem, KeyIn(base))`: each entry, re-anchored on the groups from it
   onward, still sorts before the entry that follows it.
   */
  ghost predicate Settled(rem: seq<Group>, base: seq<Group>)
    decreases |rem|
  {
    |rem| <= 1 ||
    var m := FirstMin(rem, KeyIn(base));
    var rest := RemoveAt(rem, m);
    var n := FirstMin(rest, KeyIn(base));
    && Precedes(rem, KeyIn(rem), m, PlaceBefore(m, n))
    && Settled(rest, base)
  }

  lemma RemoveAtMembers<T>(xs: seq<T>, m: nat)
    requires m < |xs|
    ensures forall h :: h in RemoveAt(xs, m) ==> h in xs
  {
  }

  /** Where entry j of `RemoveAt(xs, m)` stood in xs. */
  function PlaceBefore(m: nat, j: nat): nat {
    if j < m then j else j + 1
  }

  lemma PlaceAfterRemoval<T>(xs: seq<T>, m: nat, j: nat) returns (i: nat)
    requires m < |xs| && j < |xs| && j != m
    ensures i < |xs| - 1 && PlaceBefore(m, i) == j && RemoveAt(xs, m)[i] == xs[j]
  {
    i := if j < m then j else j - 1;
  }

  lemma PlaceBeforeRemoval<T>(xs: seq<T>, m: nat, g: T) returns (i: nat)
    requires m < |xs| && g in RemoveAt(xs, m)
    ensures i < |xs| - 1 && RemoveAt(xs, m)[i] == g && xs[PlaceBefore(m, i)] == g && PlaceBefore(m, i) != m
  {
    i :| 0 <= i < |xs| - 1 && RemoveAt(xs, m)[i] == g;
  }

  /** Removing another unit's group leaves a group's anchor alone. */
  lemma AnchorKept(rem: seq<Group>, m: nat, z: Group)
    requires m < |rem| && !SameSeries(rem[m], z)
    ensures Anchor(z, RemoveAt(rem, m)) == Anchor(z, rem)
  {
    var rest := RemoveAt(rem, m);
    forall h | h in rem && SameSeries(z, h) ensures h in rest {
      var i :| 0 <= i < |rem| && rem[i] == h;
      assert i != m;
      assert h == rest[if i < m then i else i - 1];
    }
    AnchorAntitone(z, rem, rest);
    AnchorAntitone(z, rest, rem);
  }

  /**
   Once the head x of `rem` sorts before the next entry y, it sorts before every group z of
   another unit: y already waits behind no such z when x is gone.
   */
  lemma RivalWaits(rem: seq<Group>, m: nat, n: nat, i: nat)
    requires m < |rem| && n < |rem| - 1 && i < |rem| - 1 && i != n
    requires !SameSeries(rem[m], rem[PlaceBefore(m, i)])
    requires Precedes(rem, KeyIn(rem), m, PlaceBefore(m, n))
    requires var rest := RemoveAt(rem, m); Precedes(rest, KeyIn(rest), n, i)
    ensures Precedes(rem, KeyIn(rem), m, PlaceBefore(m, i))
  {
    var rest := RemoveAt(rem, m);
    var y, z := rem[PlaceBefore(m, n)], rem[PlaceBefore(m, i)];
    assert y == rest[n] && z == rest[i];
    AnchorKept(rem, m, z);
    AnchorAntitone(y, rest, rem);
  }

  /** Two parts of one series keep their relative order however the series is re-anchored. */
  lemma SeriesOrderKept(rem: seq<Group>, base: seq<Group>, i: nat, j: nat)
    requires i < |rem| && j < |rem| && SameSeries(rem[i], rem[j])
    requires rem[i] in base && rem[j] in base
    ensures Precedes(rem, KeyIn(rem), i, j) == Precedes(rem, KeyIn(base), i, j)
  {
    AnchorShared(rem[i], rem[j], rem);
    AnchorShared(rem[i], rem[j], base);
  }

  /** The head of the preview heads the drain when it sorts, re-anchored, before the next entry. */
  lemma HeadSurvives(rem: seq<Group>, base: seq<Group>, m: nat, n: nat)
    requires forall g :: g in rem ==> g in base
    requires m < |rem| && n < |rem| - 1
    requires forall j :: 0 <= j < |rem| && j != m ==> Precedes(rem, KeyIn(base), m, j)
    requires var rest := RemoveAt(rem, m);
             forall i :: 0 <= i < |rest| && i != n ==> Precedes(rest, KeyIn(rest), n, i)
    requires Precedes(rem, KeyIn(rem), m, PlaceBefore(m, n))
    ensures FirstMin(rem, KeyIn(rem)) == m
  {
    forall j | 0 <= j < |rem| && j != m
      ensures Precedes(rem, KeyIn(rem), m, j)
    {
      if SameSeries(rem[m], rem[j]) {
        SeriesOrderKept(rem, base, m, j);
      } else {
        var i := if j < m then j else j - 1;
        assert PlaceBefore(m, i) == j;
        if i != n {
          RivalWaits(rem, m, n, i);
        }
      }
    }
    FirstMinUnique(rem, KeyIn(rem), m);
  }

  /** The same group first under two keys is the same place first. */
  lemma SameHead(rem: seq<Group>, base: seq<Group>)
    requires rem != []
    requires rem[FirstMin(rem, KeyIn(rem))] == rem[FirstMin(rem, KeyIn(base))]
    ensures FirstMin(rem, KeyIn(rem)) == FirstMin(rem, KeyIn(base))
  {
    var i, j := FirstMin(rem, KeyIn(rem)), FirstMin(rem, KeyIn(base));
    FirstMinLeast(rem, KeyIn(rem));
    FirstMinLeast(rem, KeyIn(base));
    assert i != j ==> Precedes(rem, KeyIn(rem), i, j);
    assert i != j ==> Precedes(rem, KeyIn(base), j, i);
  }

  /** The preview is the drain exactly when it is settled: no assumption on times, parts or ties. */
  lemma {:induction false} DrainIsSortedOrder(rem: seq<Group>, base: seq<Group>)
    requires forall g :: g in rem ==> g in base
    ensures Drain(rem) == SortBy(rem, KeyIn(base)) <==> Settled(rem, base)
    decreases |rem|
  {
    var key := KeyIn(base);
    if rem != [] {
      var m := FirstMin(rem, key);
      var d := FirstMin(rem, KeyIn(rem));
      var rest := RemoveAt(rem, m);
      DrainUnfold(rem);
      SortByUnfold(rem, key);
      if |rem| == 1 {
        assert rest == RemoveAt(rem, d) == [];
        assert Drain(rem) == [rem[0]] == SortBy(rem, key);
      } else {
        var n := FirstMin(rest, key);
        RemoveAtMembers(rem, m);
        DrainIsSortedOrder(rest, base);
        DrainUnfold(rest);
        SortByUnfold(rest, key);
        FirstMinLeast(rem, key);
        if Settled(rem, base) {
          SameHead(rest, base);
          FirstMinLeast(rest, KeyIn(rest));
          HeadSurvives(rem, base, m, n);
          assert Drain(rem) == [rem[m]] + Drain(rem)[1..] && SortBy(rem, key) == [rem[m]] + SortBy(rem, key)[1..];
        }
        if Drain(rem) == SortBy(rem, key) {
          SameHead(rem, base);
          FirstMinLeast(rem, KeyIn(rem));
          assert PlaceBefore(m, n) != m;
        }
      }
    }
  }

  /** For every backlog whatsoever: the drain repeats the preview if and only if the preview is settled. */
  lemma DrainIsPreview(gs: seq<Group>)
    ensures Drain(gs) == Order(gs) <==> Settled(gs, gs)
  {
    DrainIsSortedOrder(gs, gs);
  }

  // ---- the condition a reader of the preview can check -----------------------------------

  /** Groups of different units (a series, or one standalone asset) have different queue times. */
  ghost predicate DistinctTimes(gs: seq<Group>) {
    forall i, j :: 0 <= i < j < |gs| && !SameSeries(gs[i], gs[j]) ==> gs[i].createdAt != gs[j].createdAt
  }

  /** Wherever the preview passes to another unit, the closing group was queued before all of that unit. */
  ghost predicate CleanBoundaries(preview: seq<Group>, gs: seq<Group>) {
    forall i :: 0 <= i < |preview| - 1 ==> CleanBoundary(preview[i], preview[i + 1], gs)
  }

  predicate CleanBoundary(x: Group, y: Group, gs: seq<Group>) {
    SameSeries(x, y) || x.createdAt < Anchor(y, gs)
  }

  lemma SameTimeSameUnit(gs: seq<Group>, g: Group, h: Group)
    requires DistinctTimes(gs) && g in gs && h in gs && g.createdAt == h.createdAt
    ensures g == h || SameSeries(g, h)
  {
  }

  /** Some group of y's own unit was queued at y's anchor. */
  lemma AnchorWitness(y: Group, gs: seq<Group>) returns (v: Group)
    requires y in gs
    ensures v in gs && v.createdAt == Anchor(y, gs) && (v == y || SameSeries(y, v))
  {
    AnchorFacts(y, gs);
    if y.createdAt == Anchor(y, gs) {
      v := y;
    } else {
      v :| v in gs && SameSeries(y, v) && v.createdAt == Anchor(y, gs);
    }
  }

  /** Another unit's anchor is nobody's queue time in this unit, hence not this unit's anchor either. */
  lemma AnchorsApart(x: Group, y: Group, gs: seq<Group>)
    requires DistinctTimes(gs) && x in gs && y in gs
    requires x != y && !SameSeries(x, y)
    ensures x.createdAt != Anchor(y, gs)
    ensures Anchor(x, gs) != Anchor(y, gs)
  {
    var u := AnchorWitness(x, gs);
    var v := AnchorWitness(y, gs);
    if x.createdAt == v.createdAt {
      SameTimeSameUnit(gs, x, v);
    }
    if u.createdAt == v.createdAt {
      SameTimeSameUnit(gs, u, v);
    }
  }

  /** What has been released sorts no later than what is left. */
  ghost predicate ReleasedFirst(rem: seq<Group>, gs: seq<Group>) {
    forall w, g :: w in gs && w !in rem && g in rem ==> Anchor(w, gs) <= Anchor(g, gs)
  }

  /** Passing to another unit, the closing group is the last of its own unit. */
  lemma ClosingIsLast(rem: seq<Group>, gs: seq<Group>, m: nat, n: nat)
    requires forall g :: g in rem ==> g in gs
    requires m < |rem| && n < |rem| - 1
    requires Anchor(rem[m], gs) < Anchor(rem[PlaceBefore(m, n)], gs)
    requires var rest := RemoveAt(rem, m);
             forall i :: 0 <= i < |rest| && i != n ==> Precedes(rest, KeyIn(gs), n, i)
    ensures Anchor(rem[m], rem) == rem[m].createdAt
  {
    var x := rem[m];
    AnchorFacts(x, rem);
    if z :| z in rem && SameSeries(x, z) && z.createdAt == Anchor(x, rem) && z != x {
      var j :| 0 <= j < |rem| && rem[j] == z;
      var i := PlaceAfterRemoval(rem, m, j);
      assert i == n || Precedes(RemoveAt(rem, m), KeyIn(gs), n, i);
      assert RemoveAt(rem, m)[n] == rem[PlaceBefore(m, n)];
      AnchorShared(x, z, gs);
    }
  }

  /** A group whose anchor is later than some group still waiting belongs to an untouched unit. */
  lemma OpeningUntouched(rem: seq<Group>, gs: seq<Group>, x: Group, y: Group)
    requires ReleasedFirst(rem, gs)
    requires forall g :: g in rem ==> g in gs
    requires x in rem && y in rem && Anchor(x, gs) < Anchor(y, gs)
    ensures Anchor(y, rem) == Anchor(y, gs)
  {
    forall h | h in gs && SameSeries(y, h) ensures h in rem {
      AnchorShared(y, h, gs);
      assert h !in rem ==> Anchor(h, gs) <= Anchor(x, gs);
    }
    AnchorAntitone(y, gs, rem);
    AnchorAntitone(y, rem, gs);
  }

  lemma {:induction false} SettledAtBoundaries(rem: seq<Group>, gs: seq<Group>)
    requires DistinctTimes(gs) && DistinctTimes(rem) && ReleasedFirst(rem, gs)
    requires forall g :: g in rem ==> g in gs
    ensures Settled(rem, gs) <==> CleanBoundaries(SortBy(rem, KeyIn(gs)), gs)
    decreases |rem|
  {
    if |rem| > 1 {
      var m := FirstMin(rem, KeyIn(gs));
      var rest := RemoveAt(rem, m);
      var n := FirstMin(rest, KeyIn(gs));
      FirstMinLeast(rem, KeyIn(gs));
      FirstMinLeast(rest, KeyIn(gs));
      RestReleasedFirst(rem, gs, m);
      SettledAtBoundaries(rest, gs);
      BoundaryStep(rem, gs, m, n);
      SortedTwice(rem, gs);
      BoundariesTail(SortBy(rem, KeyIn(gs)), gs);
    }
  }

  lemma SortedTwice(rem: seq<Group>, gs: seq<Group>)
    requires |rem| > 1
    ensures var m := FirstMin(rem, KeyIn(gs));
            var rest := RemoveAt(rem, m);
            var sorted := SortBy(rem, KeyIn(gs));
            && sorted[0] == rem[m] && sorted[1..] == SortBy(rest, KeyIn(gs))
            && sorted[1] == rem[PlaceBefore(m, FirstMin(rest, KeyIn(gs)))]
  {
    var m := FirstMin(rem, KeyIn(gs));
    SortByUnfold(rem, KeyIn(gs));
    SortByUnfold(RemoveAt(rem, m), KeyIn(gs));
    RestAt(rem, m, FirstMin(RemoveAt(rem, m), KeyIn(gs)));
  }

  lemma RestAt(rem: seq<Group>, m: nat, n: nat)
    requires m < |rem| && n < |rem| - 1
    ensures RemoveAt(rem, m)[n] == rem[PlaceBefore(m, n)]
  {
  }

  lemma BoundariesTail(sorted: seq<Group>, gs: seq<Group>)
    requires |sorted| > 1
    ensures CleanBoundaries(sorted, gs) <==>
            CleanBoundary(sorted[0], sorted[1], gs) && CleanBoundaries(sorted[1..], gs)
  {
  }

  lemma RestReleasedFirst(rem: seq<Group>, gs: seq<Group>, m: nat)
    requires DistinctTimes(rem) && ReleasedFirst(rem, gs) && m < |rem|
    requires forall j :: 0 <= j < |rem| && j != m ==> Precedes(rem, KeyIn(gs), m, j)
    ensures var rest := RemoveAt(rem, m);
            ReleasedFirst(rest, gs) && DistinctTimes(rest) && forall g :: g in rest ==> g in rem
  {
    var rest := RemoveAt(rem, m);
    forall w, g | w in gs && w !in rest && g in rest
      ensures Anchor(w, gs) <= Anchor(g, gs)
    {
      var i := PlaceBeforeRemoval(rem, m, g);
      assert Precedes(rem, KeyIn(gs), m, PlaceBefore(m, i));
      RemoveAtKeepsRest(rem, m);
      assert w in multiset(rem) ==> w == rem[m];
    }
    RestDistinctTimes(rem, m);
  }

  lemma RestDistinctTimes(rem: seq<Group>, m: nat)
    requires DistinctTimes(rem) && m < |rem|
    ensures DistinctTimes(RemoveAt(rem, m))
  {
  }

  lemma BoundaryStep(rem: seq<Group>, gs: seq<Group>, m: nat, n: nat)
    requires DistinctTimes(gs) && DistinctTimes(rem) && ReleasedFirst(rem, gs)
    requires forall g :: g in rem ==> g in gs
    requires m < |rem| && n < |rem| - 1
    requires forall j :: 0 <= j < |rem| && j != m ==> Precedes(rem, KeyIn(gs), m, j)
    requires var rest := RemoveAt(rem, m);
             forall i :: 0 <= i < |rest| && i != n ==> Precedes(rest, KeyIn(gs), n, i)
    ensures Precedes(rem, KeyIn(rem), m, PlaceBefore(m, n)) <==>
            CleanBoundary(rem[m], rem[PlaceBefore(m, n)], gs)
  {
    var x, y := rem[m], rem[PlaceBefore(m, n)];
    if SameSeries(x, y) {
      SeriesOrderKept(rem, gs, m, PlaceBefore(m, n));
    } else {
      assert x.createdAt != y.createdAt;
      AnchorsApart(x, y, gs);
      assert Precedes(rem, KeyIn(gs), m, PlaceBefore(m, n));
      ClosingIsLast(rem, gs, m, n);
      OpeningUntouched(rem, gs, x, y);
    }
  }

  /** With distinct queue times the drain repeats the preview exactly when every boundary is clean. */
  lemma DrainIsPreviewAtBoundaries(gs: seq<Group>)
    requires DistinctTimes(gs)
    ensures Drain(gs) == Order(gs) <==> CleanBoundaries(Order(gs), gs)
  {
    DrainIsPreview(gs);
    SettledAtBoundaries(gs, gs);
  }

  /** No group was queued between the first and the last queue time of another unit. */
  ghost predicate DisjointSpans(gs: seq<Group>) {
    forall i, j, k :: 0 <= i < |gs| && 0 <= j < |gs| && 0 <= k < |gs|
      && (i == j || SameSeries(gs[i], gs[j])) && i != k && !SameSeries(gs[i], gs[k])
      ==> !(gs[i].createdAt <= gs[k].createdAt <= gs[j].createdAt)
  }

  lemma DisjointSpansDrainPreview(gs: seq<Group>)
    requires DisjointSpans(gs)
    ensures DistinctTimes(gs) && CleanBoundaries(Order(gs), gs) && Drain(gs) == Order(gs)
  {
    forall i, j | 0 <= i < j < |gs| && !SameSeries(gs[i], gs[j])
      ensures gs[i].createdAt != gs[j].createdAt
    {
      assert !(gs[i].createdAt <= gs[j].createdAt <= gs[i].createdAt);
    }
    var out := Order(gs);
    SortByOrdered(gs, KeyIn(gs));
    SortByPermutes(gs, KeyIn(gs));
    SortedDistinctTimes(gs, KeyIn(gs));
    forall i | 0 <= i < |out| - 1 ensures CleanBoundary(out[i], out[i + 1], gs) {
      var x, y := out[i], out[i + 1];
      assert AtMost(KeyIn(gs)(x), KeyIn(gs)(y));
      assert x in out && y in out;
      if !SameSeries(x, y) {
        assert x.createdAt != y.createdAt;
        SpansKeepBoundary(gs, x, y);
      }
    }
    DrainIsPreviewAtBoundaries(gs);
  }

  lemma SpansKeepBoundary(gs: seq<Group>, x: Group, y: Group)
    requires DisjointSpans(gs) && DistinctTimes(gs) && x in gs && y in gs
    requires x != y && !SameSeries(x, y) && Anchor(x, gs) <= Anchor(y, gs)
    ensures x.createdAt < Anchor(y, gs)
  {
    AnchorsApart(x, y, gs);
    var u := AnchorWitness(x, gs);
    var v := AnchorWitness(y, gs);
    NotBetween(gs, u, x, v);
  }

  lemma {:induction false} SortedDistinctTimes(gs: seq<Group>, key: Group -> Key)
    requires DistinctTimes(gs)
    ensures DistinctTimes(SortBy(gs, key))
    decreases |gs|
  {
    if gs != [] {
      var m := FirstMin(gs, key);
      var rest := RemoveAt(gs, m);
      RestDistinctTimes(gs, m);
      SortedDistinctTimes(rest, key);
      SortByPermutes(rest, key);
      SortByUnfold(gs, key);
      var sorted, tail := SortBy(gs, key), SortBy(rest, key);
      assert sorted == [gs[m]] + tail;
      forall i, j | 0 <= i < j < |sorted| && !SameSeries(sorted[i], sorted[j])
        ensures sorted[i].createdAt != sorted[j].createdAt
      {
        if i == 0 {
          assert tail[j - 1] in tail;
          var k := PlaceBeforeRemoval(gs, m, tail[j - 1]);
          var p := PlaceBefore(m, k);
          assert !SameSeries(gs[p], gs[m]);
        } else {
          assert tail[i - 1] == sorted[i] && tail[j - 1] == sorted[j];
        }
      }
    }
  }

  lemma NotBetween(gs: seq<Group>, u: Group, x: Group, v: Group)
    requires DisjointSpans(gs) && u in gs && x in gs && v in gs
    requires (u == x || SameSeries(u, x)) && u != v && !SameSeries(u, v)
    ensures !(u.createdAt <= v.createdAt <= x.createdAt)
  {
  }

  // ---- what the preview and the drain promise --------------------------------------------

  /** Whatever the queue times, the drain releases the parts of a series in episode order. */
  lemma {:induction false} DrainInEpisodeOrder(gs: seq<Group>, i: nat, j: nat)
    requires i < j < |gs| && SameSeries(Drain(gs)[i], Drain(gs)[j])
    ensures Drain(gs)[i].part.value.index <= Drain(gs)[j].part.value.index
    decreases |gs|
  {
    var m := FirstMin(gs, KeyIn(gs));
    var rest := RemoveAt(gs, m);
    var tail := Drain(rest);
    DrainUnfold(gs);
    if i == 0 {
      DrainPermutes(rest);
      FirstMinLeast(gs, KeyIn(gs));
      assert tail[j - 1] in tail;
      var k := PlaceBeforeRemoval(gs, m, tail[j - 1]);
      assert Precedes(gs, KeyIn(gs), m, PlaceBefore(m, k));
      AnchorShared(gs[m], tail[j - 1], gs);
    } else {
      DrainInEpisodeOrder(rest, i - 1, j - 1);
    }
  }

  /** Within a series no part number is used twice. */
  ghost predicate DistinctParts(gs: seq<Group>) {
    forall i, j :: 0 <= i < j < |gs| && SameSeries(gs[i], gs[j]) ==> gs[i].part.value.index != gs[j].part.value.index
  }

  lemma {:induction false} TwoPlaces(gs: seq<Group>, g: Group) returns (p: nat, q: nat)
    requires multiset(gs)[g] >= 2
    ensures p < q < |gs| && gs[p] == g && gs[q] == g
  {
    var n := |gs| - 1;
    assert gs == gs[..n] + [gs[n]];
    if multiset(gs[..n])[g] >= 2 {
      p, q := TwoPlaces(gs[..n], g);
    } else {
      assert g in multiset(gs[..n]);
      p :| 0 <= p < n && gs[..n][p] == g;
      q := n;
    }
  }

  lemma TwiceListed(gs: seq<Group>, i: nat, j: nat)
    requires i < j < |gs| && gs[i] == gs[j]
    ensures multiset(gs)[gs[i]] >= 2
  {
    assert gs == gs[..j] + gs[j..];
    assert gs[i] in gs[..j] && gs[j] in gs[j..];
  }

  /** A rearrangement of groups with distinct parts has distinct parts. */
  lemma DistinctPartsPermuted(gs: seq<Group>, hs: seq<Group>)
    requires DistinctParts(gs) && multiset(hs) == multiset(gs)
    ensures DistinctParts(hs)
  {
    forall i, j | 0 <= i < j < |hs| && SameSeries(hs[i], hs[j])
      ensures hs[i].part.value.index != hs[j].part.value.index
    {
      if hs[i] == hs[j] {
        TwiceListed(hs, i, j);
        var p, q := TwoPlaces(gs, hs[i]);
      } else {
        assert hs[i] in multiset(gs) && hs[j] in multiset(gs);
        var p :| 0 <= p < |gs| && gs[p] == hs[i];
        var q :| 0 <= q < |gs| && gs[q] == hs[j];
        assert p < q || q < p;
      }
    }
  }

  /** With the part numbers of a series distinct, as the table requires, strictly so. */
  lemma DrainInStrictEpisodeOrder(gs: seq<Group>, i: nat, j: nat)
    requires DistinctParts(gs) && i < j < |gs| && SameSeries(Drain(gs)[i], Drain(gs)[j])
    ensures Drain(gs)[i].part.value.index < Drain(gs)[j].part.value.index
  {
    DrainInEpisodeOrder(gs, i, j);
    DrainPermutes(gs);
    DistinctPartsPermuted(gs, Drain(gs));
  }

  /** Different series have different earliest queue times, and parts are numbered from 1. */
  ghost predicate ApartAndNumbered(gs: seq<Group>) {
    && (forall g :: g in gs && g.part.Some? ==> g.part.value.index >= 1)
    && (forall g, h :: g in gs && h in gs && g.part.Some? && h.part.Some? && Anchor(g, gs) == Anchor(h, gs)
          ==> SameSeries(g, h))
  }

  /** In the preview a series is held together: nothing stands between two of its parts. */
  lemma PreviewContiguous(gs: seq<Group>, i: nat, j: nat, k: nat)
    requires ApartAndNumbered(gs)
    requires i <= j <= k < |gs| && SameSeries(Order(gs)[i], Order(gs)[k])
    ensures SameSeries(Order(gs)[i], Order(gs)[j])
  {
    var out, key := Order(gs), KeyIn(gs);
    SortByOrdered(gs, key);
    SortByPermutes(gs, key);
    assert out[i] in out && out[j] in out && out[k] in out;
    AnchorShared(out[i], out[k], gs);
    assert i == j || AtMost(key(out[i]), key(out[j]));
    assert j == k || AtMost(key(out[j]), key(out[k]));
  }

  /** The preview lists the backlog's groups: standalones oldest first, a series' parts in episode order. */
  lemma PreviewOrder(gs: seq<Group>, i: nat, j: nat)
    requires i < j < |gs|
    ensures multiset(Order(gs)) == multiset(gs)
    ensures var g, h := Order(gs)[i], Order(gs)[j];
            && (g.part.None? && h.part.None? ==> g.createdAt <= h.createdAt)
            && (SameSeries(g, h) ==> g.part.value.index <= h.part.value.index)
  {
    var out, key := Order(gs), KeyIn(gs);
    SortByOrdered(gs, key);
    SortByPermutes(gs, key);
    var g, h := out[i], out[j];
    assert g in out && h in out;
    assert AtMost(key(g), key(h));
    if SameSeries(g, h) {
      AnchorShared(g, h, gs);
    }
    AnchorFacts(g, gs);
    AnchorFacts(h, gs);
  }

  /** Of two entries of the preview, the earlier one's unit was first queued no later than the other's. */
  lemma PreviewPlacement(gs: seq<Group>, i: nat, j: nat) returns (first: Group)
    requires i < j < |gs|
    ensures first in gs && (first == Order(gs)[i] || SameSeries(Order(gs)[i], first))
    ensures forall h :: h in gs && (h == Order(gs)[j] || SameSeries(Order(gs)[j], h)) ==> first.createdAt <= h.createdAt
  {
    var out, key := Order(gs), KeyIn(gs);
    SortByOrdered(gs, key);
    SortByPermutes(gs, key);
    assert out[i] in out && out[j] in out;
    assert AtMost(key(out[i]), key(out[j]));
    first := AnchorWitness(out[i], gs);
    AnchorFacts(out[j], gs);
  }

  const PART_ONE := Group("a1", 10, ["j1"], Some(Part("s", 1, "S")))
  const STANDALONE := Group("a2", 20, ["j2"], None)
  const PART_TWO := Group("a3", 30, ["j3"], Some(Part("s", 2, "S")))

  lemma WitnessAnchors()
    ensures var gs := [PART_ONE, STANDALONE, PART_TWO];
            Anchor(PART_ONE, gs) == 10 && Anchor(STANDALONE, gs) == 20 && Anchor(PART_TWO, gs) == 10
    ensures Anchor(STANDALONE, [STANDALONE, PART_TWO]) == 20 && Anchor(PART_TWO, [STANDALONE, PART_TWO]) == 30
  {
    var gs := [PART_ONE, STANDALONE, PART_TWO];
    assert PART_ONE in gs;
    AnchorFacts(PART_ONE, gs);
    AnchorFacts(STANDALONE, gs);
    AnchorFacts(PART_TWO, gs);
    AnchorFacts(STANDALONE, [STANDALONE, PART_TWO]);
    AnchorFacts(PART_TWO, [STANDALONE, PART_TWO]);
  }

  lemma WitnessPreview()
    ensures Order([PART_ONE, STANDALONE, PART_TWO]) == [PART_ONE, PART_TWO, STANDALONE]
  {
    var gs, key := [PART_ONE, STANDALONE, PART_TWO], KeyIn([PART_ONE, STANDALONE, PART_TWO]);
    WitnessAnchors();
    FirstMinUnique(gs, key, 0);
    assert RemoveAt(gs, 0) == [STANDALONE, PART_TWO];
    FirstMinUnique([STANDALONE, PART_TWO], key, 1);
    assert RemoveAt([STANDALONE, PART_TWO], 1) == [STANDALONE];
    SortByUnfold(gs, key);
    SortByUnfold([STANDALONE, PART_TWO], key);
    assert SortBy(gs, key)[1..] == SortBy([STANDALONE, PART_TWO], key);
    assert SortBy([STANDALONE, PART_TWO], key)[1..] == SortBy([STANDALONE], key) == [STANDALONE];
  }

  lemma WitnessDrain()
    ensures Drain([PART_ONE, STANDALONE, PART_TWO]) == [PART_ONE, STANDALONE, PART_TWO]
  {
    var gs, late := [PART_ONE, STANDALONE, PART_TWO], [STANDALONE, PART_TWO];
    WitnessAnchors();
    FirstMinUnique(gs, KeyIn(gs), 0);
    assert RemoveAt(gs, 0) == late;
    FirstMinUnique(late, KeyIn(late), 0);
    assert RemoveAt(late, 0) == [PART_TWO];
    assert Drain([PART_TWO]) == [PART_TWO];
  }

  /**
   The preview's own documentation promises that it always matches the release order. It does not:
   part 1 queued at 10, a standalone at 20, part 2 at 30.
   */
  lemma PreviewCanDisagree()
    ensures var gs := [PART_ONE, STANDALONE, PART_TWO];
            && Order(gs) == [PART_ONE, PART_TWO, STANDALONE]
            && Drain(gs) == [PART_ONE, STANDALONE, PART_TWO]
  {
    WitnessPreview();
    WitnessDrain();
  }

  // ---- order_groups ----------------------------------------------------------------------

  /** The sort key written into each group. */
  function StoredKey(sortKey: map<Group, Key>): Group -> Key {
    (g: Group) => if g in sortKey then sortKey[g] else Key(0, 0)
  }

  lemma {:induction false} SortByAgree(gs: seq<Group>, key: Group -> Key, other: Group -> Key)
    requires forall i :: 0 <= i < |gs| ==> key(gs[i]) == other(gs[i])
    ensures SortBy(gs, key) == SortBy(gs, other)
    decreases |gs|
  {
    if gs != [] {
      var m := FirstMin(gs, key);
      FirstMinLeast(gs, key);
      assert forall j :: 0 <= j < |gs| && j != m ==> Precedes(gs, key, m, j) ==> Precedes(gs, other, m, j);
      FirstMinUnique(gs, other, m);
      var rest := RemoveAt(gs, m);
      assert forall i :: 0 <= i < |rest| ==> rest[i] == gs[PlaceBefore(m, i)];
      SortByAgree(rest, key, other);
    }
  }

  method OrderGroups(groups: seq<Group>) returns (ordered: seq<Group>)
    ensures ordered == Order(groups)
  {
    var earliest: map<string, int> := map[];
    for i := 0 to |groups|
      invariant forall j :: 0 <= j < i && groups[j].part.Some? ==>
        groups[j].part.value.series in earliest && earliest[groups[j].part.value.series] <= groups[j].createdAt
      invariant forall s :: s in earliest ==>
        (exists j :: 0 <= j < i && groups[j].part.Some? && groups[j].part.value.series == s
          && groups[j].createdAt == earliest[s])
    {
      var group := groups[i];
      if group.part.Some? {
        var series := group.part.value.series;
        if series !in earliest || group.createdAt < earliest[series] {
          earliest := earliest[series := group.createdAt];
        }
      }
    }
    var sortKey: map<Group, Key> := map[];
    for i := 0 to |groups|
      invariant forall j :: 0 <= j < i ==> groups[j] in sortKey
      invariant forall g :: g in sortKey ==> sortKey[g] == KeyOf(g, groups)
    {
      var group := groups[i];
      AnchorFacts(group, groups);
      if group.part.Some? {
        sortKey := sortKey[group := Key(earliest[group.part.value.series], group.part.value.index)];
      } else {
        sortKey := sortKey[group := Key(group.createdAt, 0)];
      }
    }
    SortByAgree(groups, StoredKey(sortKey), KeyIn(groups));
    ordered := SortBy(groups, StoredKey(sortKey));
  }
}
