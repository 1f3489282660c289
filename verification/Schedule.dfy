/**
 The release plan and the tick that drains the backlog (sau/api/scheduling.py).
 */
module Schedule {
  import opened Options
  import opened StableSort
  import opened Backlog
  import opened BacklogQuery
  import opened Slots

  /** A slot that released an asset: the slot's place, the local date stamped, and the asset. */
  datatype Release = Release(slot: nat, date: int, asset: string)

  /** A firing time, and what is queued for it; an empty title and no index where there is no part. */
  datatype PlanEntry = PlanEntry(firesAt: int, asset: Option<string>, title: string, index: Option<int>)

  function EntryFor(firesAt: int, group: Option<Group>): PlanEntry {
    match group
    case None => PlanEntry(firesAt, None, "", None)
    case Some(g) =>
      if g.part.Some? then PlanEntry(firesAt, Some(g.asset), g.part.value.title, Some(g.part.value.index))
      else PlanEntry(firesAt, Some(g.asset), "", None)
  }

  function GroupAt(preview: seq<Group>, i: nat): Option<Group> {
    if i < |preview| then Some(preview[i]) else None
  }

  /** What a tick works on: the slots, the rows, the groups in drain order, and what it has done. */
  datatype TickState = TickState(slots: seq<Slot>, rows: seq<JobRow>, queue: seq<Group>,
                                 releases: seq<Release>, idle: seq<nat>, jobIds: seq<string>)

  function StampedSlot(s: Slot, now: int): Slot {
    s.(lastFiredOn := Some(LocalDate(s, now)))
  }

  /** One ready slot: it takes the head of the drain, or is idle when nothing is left. */
  function Fire(st: TickState, slot: nat, now: int): (st': TickState)
    requires slot < |st.slots|
    ensures |st'.slots| == |st.slots| && |st'.rows| == |st.rows|
  {
    if st.queue == [] then st.(idle := st.idle + [slot])
    else
      var group := st.queue[0];
      st.(slots := st.slots[slot := StampedSlot(st.slots[slot], now)],
          rows := ReleaseRows(st.rows, group.asset),
          queue := st.queue[1..],
          releases := st.releases + [Release(slot, LocalDate(st.slots[slot], now), group.asset)],
          jobIds := st.jobIds + group.jobs)
  }

  function FireAll(st: TickState, due: seq<nat>, now: int): (done: TickState)
    requires InRange(due, |st.slots|)
    ensures |done.slots| == |st.slots| && |done.rows| == |st.rows|
    decreases |due|
  {
    if due == [] then st else FireAll(Fire(st, due[0], now), due[1..], now)
  }

  function Min(a: nat, b: nat): nat {
    if a < b then a else b
  }

  /** A tick releases as many assets as there are both due slots and assets; the other due slots are idle. */
  lemma {:induction false} FireAllQueue(st: TickState, due: seq<nat>, now: int)
    requires InRange(due, |st.slots|)
    ensures var m, done := Min(|due|, |st.queue|), FireAll(st, due, now);
            && done.queue == st.queue[m..]
            && done.idle == st.idle + due[m..]
            && |done.releases| == |st.releases| + m
            && st.releases <= done.releases
    decreases |due|
  {
    if due == [] {
      assert due[0..] == [] && st.queue[0..] == st.queue && st.idle + [] == st.idle;
    } else {
      var next := Fire(st, due[0], now);
      FireAllQueue(next, due[1..], now);
      var m := Min(|due|, |st.queue|);
      if st.queue == [] {
        assert due[0..] == [due[0]] + due[1..][0..];
        assert st.idle + ([due[0]] + due[1..][0..]) == next.idle + due[1..][0..];
      } else {
        assert due[1..][m - 1..] == due[m..] && st.queue[1..][m - 1..] == st.queue[m..];
        assert st.releases <= next.releases;
      }
    }
  }

  /** The i-th release pairs the i-th due slot with the i-th asset of the drain. */
  lemma {:induction false} FireAllReleases(st: TickState, due: seq<nat>, now: int, i: nat)
    requires InRange(due, |st.slots|) && i < Min(|due|, |st.queue|)
    ensures var done := FireAll(st, due, now);
            && |st.releases| + i < |done.releases|
            && done.releases[|st.releases| + i] == Release(due[i], LocalDate(st.slots[due[i]], now), st.queue[i].asset)
    decreases |due|
  {
    FireAllQueue(st, due, now);
    var next := Fire(st, due[0], now);
    if i == 0 {
      FireAllQueue(next, due[1..], now);
      assert FireAll(st, due, now).releases[|st.releases|] == next.releases[|st.releases|];
    } else {
      FireAllReleases(next, due[1..], now, i - 1);
    }
  }

  /** Exactly the slots that released are stamped. */
  lemma {:induction false} FireAllStamps(st: TickState, due: seq<nat>, now: int, k: nat)
    requires InRange(due, |st.slots|) && k < |st.slots|
    ensures var m, done := Min(|due|, |st.queue|), FireAll(st, due, now);
            && done.slots[k] == if k in due[..m] then StampedSlot(st.slots[k], now) else st.slots[k]
    decreases |due|
  {
    if due != [] {
      var next := Fire(st, due[0], now);
      FireAllStamps(next, due[1..], now, k);
      if st.queue != [] {
        var m := Min(|due|, |st.queue|);
        assert due[..m] == [due[0]] + due[1..][..m - 1];
      } else {
        assert due[1..][..0] == due[..0] == [];
      }
    }
  }

  /** A job leaves the backlog exactly when its asset was released; no other column changes. */
  lemma {:induction false} FireAllRows(st: TickState, due: seq<nat>, now: int, j: nat)
    requires InRange(due, |st.slots|) && j < |st.rows|
    ensures var m, done := Min(|due|, |st.queue|), FireAll(st, due, now);
            && |done.rows| == |st.rows|
            && done.rows[j] == if exists i :: 0 <= i < m && st.queue[i].asset == st.rows[j].asset
                               then st.rows[j].(scheduled := false) else st.rows[j]
    decreases |due|
  {
    if due != [] {
      var next := Fire(st, due[0], now);
      FireAllRows(next, due[1..], now, j);
      if st.queue != [] {
        var m := Min(|due|, |st.queue|);
        assert forall i :: 0 <= i < m - 1 ==> next.queue[i] == st.queue[i + 1];
        assert st.queue[0].asset == st.rows[j].asset ==>
            exists i :: 0 <= i < m && st.queue[i].asset == st.rows[j].asset;
        if i :| 0 <= i < m && st.queue[i].asset == st.rows[j].asset && i > 0 {
          assert next.queue[i - 1].asset == next.rows[j].asset;
        }
      }
    }
  }

  function SlotsOf(releases: seq<Release>): (places: seq<nat>)
    ensures |places| == |releases| && forall i :: 0 <= i < |releases| ==> places[i] == releases[i].slot
  {
    seq(|releases|, i requires 0 <= i < |releases| => releases[i].slot)
  }

  function ReleasedAssets(releases: seq<Release>): (assets: seq<string>)
    ensures |assets| == |releases| && forall i :: 0 <= i < |releases| ==> assets[i] == releases[i].asset
  {
    seq(|releases|, i requires 0 <= i < |releases| => releases[i].asset)
  }

  /** The due slots are those that released, followed by the idle ones; the assets come off the drain. */
  lemma TickTakes(slots: seq<Slot>, rows: seq<JobRow>, queue: seq<Group>, due: seq<nat>, now: int)
    requires InRange(due, |slots|)
    ensures var done := FireAll(TickState(slots, rows, queue, [], [], []), due, now);
            && SlotsOf(done.releases) + done.idle == due
            && (done.idle == [] || done.queue == [])
            && AssetsOf(queue) == ReleasedAssets(done.releases) + AssetsOf(done.queue)
            && (forall r :: r in done.releases ==> r.slot < |slots| && r.date == LocalDate(slots[r.slot], now))
  {
    var st := TickState(slots, rows, queue, [], [], []);
    var done := FireAll(st, due, now);
    FireAllQueue(st, due, now);
    forall i | 0 <= i < |done.releases|
      ensures done.releases[i] == Release(due[i], LocalDate(slots[due[i]], now), queue[i].asset)
    {
      FireAllReleases(st, due, now, i);
    }
  }

  /** A releasing slot bears the date it released on; every other slot is as before. */
  lemma TickStamps(slots: seq<Slot>, rows: seq<JobRow>, queue: seq<Group>, due: seq<nat>, now: int)
    requires InRange(due, |slots|)
    ensures var done := FireAll(TickState(slots, rows, queue, [], [], []), due, now);
            && (forall r :: r in done.releases ==>
                  r.slot < |slots| && done.slots[r.slot] == slots[r.slot].(lastFiredOn := Some(r.date)))
            && (forall k :: 0 <= k < |slots| && k !in SlotsOf(done.releases) ==> done.slots[k] == slots[k])
  {
    var st := TickState(slots, rows, queue, [], [], []);
    var done := FireAll(st, due, now);
    var released := SlotsOf(done.releases);
    TickTakes(slots, rows, queue, due, now);
    FireAllQueue(st, due, now);
    assert due[..|released|] == released;
    forall k | 0 <= k < |slots|
      ensures done.slots[k] == if k in released then StampedSlot(slots[k], now) else slots[k]
    {
      FireAllStamps(st, due, now, k);
    }
    forall r | r in done.releases ensures r.slot in released {
      var i :| 0 <= i < |done.releases| && done.releases[i] == r;
      assert released[i] == r.slot;
    }
  }

  /** A job leaves the backlog exactly when its asset was released. */
  lemma TickRows(slots: seq<Slot>, rows: seq<JobRow>, queue: seq<Group>, due: seq<nat>, now: int)
    requires InRange(due, |slots|)
    ensures var done := FireAll(TickState(slots, rows, queue, [], [], []), due, now);
            && |done.rows| == |rows|
            && forall j :: 0 <= j < |rows| ==>
                 done.rows[j] == if rows[j].asset in ReleasedAssets(done.releases) then rows[j].(scheduled := false)
                                 else rows[j]
  {
    var st := TickState(slots, rows, queue, [], [], []);
    var done := FireAll(st, due, now);
    FireAllQueue(st, due, now);
    TickTakes(slots, rows, queue, due, now);
    var m, assets := Min(|due|, |queue|), ReleasedAssets(done.releases);
    assert forall i :: 0 <= i < m ==> AssetsOf(queue)[i] == assets[i];
    forall j | 0 <= j < |rows|
      ensures done.rows[j] == if rows[j].asset in assets then rows[j].(scheduled := false) else rows[j]
    {
      FireAllRows(st, due, now, j);
      assert rows[j].asset in assets <==> exists i :: 0 <= i < m && queue[i].asset == rows[j].asset;
    }
  }

  /**
   Every release is of a slot that is enabled, has not released today, and whose time is past, but
   by no more than the grace period; exactly these slots are stamped, each with its date.
   */
  ghost predicate OnTime(slots: seq<Slot>, stamped: seq<Slot>, releases: seq<Release>, now: int, grace: int) {
    && |stamped| == |slots|
    && (forall r :: r in releases ==>
          && r.slot < |slots|
          && var s := slots[r.slot];
          && s.enabled && r.date == (now + s.offset) / 86_400_000_000 && s.lastFiredOn != Some(r.date)
          && FireAt(s, r.date) <= now <= FireAt(s, r.date) + grace
          && stamped[r.slot] == s.(lastFiredOn := Some(r.date)))
    && (forall k :: 0 <= k < |slots| && k !in SlotsOf(releases) ==> stamped[k] == slots[k])
  }

  /** Every such slot has its turn, in the order of the clock. */
  ghost predicate NoneMissed(slots: seq<Slot>, turns: seq<nat>, now: int, grace: int) {
    && InClockOrder(slots, turns)
    && forall k :: 0 <= k < |slots| ==>
         var s := slots[k];
         var today := (now + s.offset) / 86_400_000_000;
         s.enabled && s.lastFiredOn != Some(today) && FireAt(s, today) <= now <= FireAt(s, today) + grace ==> k in turns
  }

  lemma TickOnTime(slots: seq<Slot>, rows: seq<JobRow>, queue: seq<Group>, now: int, grace: int)
    ensures InRange(DueSlots(slots, now, grace), |slots|)
    ensures var done := FireAll(TickState(slots, rows, queue, [], [], []), DueSlots(slots, now, grace), now);
            && OnTime(slots, done.slots, done.releases, now, grace)
            && NoneMissed(slots, SlotsOf(done.releases) + done.idle, now, grace)
  {
    DueInRange(slots, now, grace);
    DueSlotsExact(slots, now, grace);
    var due := DueSlots(slots, now, grace);
    var done := FireAll(TickState(slots, rows, queue, [], [], []), due, now);
    TickTakes(slots, rows, queue, due, now);
    TickStamps(slots, rows, queue, due, now);
    forall r | r in done.releases ensures r.slot in due {
      var i :| 0 <= i < |done.releases| && done.releases[i] == r;
      assert due[i] == SlotsOf(done.releases)[i] == r.slot;
    }
  }

  /** What a tick comes to. */
  lemma TickInFull(slots: seq<Slot>, rows: seq<JobRow>, parts: Parts, now: int, grace: int)
    ensures InRange(DueSlots(slots, now, grace), |slots|)
    ensures var queue, due := Drain(GroupsOf(rows, parts)), DueSlots(slots, now, grace);
            var done := FireAll(TickState(slots, rows, queue, [], [], []), due, now);
            && OnTime(slots, done.slots, done.releases, now, grace)
            && NoneMissed(slots, SlotsOf(done.releases) + done.idle, now, grace)
            && (done.idle == [] || done.queue == [])
            && AssetsOf(queue) == ReleasedAssets(done.releases) + AssetsOf(done.queue)
            && InPartOrder(ReleasedAssets(done.releases), parts)
            && |done.rows| == |rows|
            && forall j :: 0 <= j < |rows| ==>
                 done.rows[j] == if rows[j].asset in ReleasedAssets(done.releases) then rows[j].(scheduled := false)
                                 else rows[j]
  {
    var queue, due := Drain(GroupsOf(rows, parts)), DueSlots(slots, now, grace);
    DueInRange(slots, now, grace);
    var done := FireAll(TickState(slots, rows, queue, [], [], []), due, now);
    TickOnTime(slots, rows, queue, now, grace);
    TickTakes(slots, rows, queue, due, now);
    TickRows(slots, rows, queue, due, now);
    DrainInPartOrder(rows, parts);
    PartOrderOfFirst(ReleasedAssets(done.releases), AssetsOf(done.queue), parts);
  }

  lemma PartOrderOfFirst(first: seq<string>, rest: seq<string>, parts: Parts)
    requires InPartOrder(first + rest, parts)
    ensures InPartOrder(first, parts)
  {
    var all := first + rest;
    assert forall i :: 0 <= i < |first| ==> all[i] == first[i];
  }

  /** Hour, then minute. */
  function SlotKey(): Slot -> Key {
    (s: Slot) => Key(s.hour, s.minute)
  }

  lemma SlotKeysOrder(slots: seq<Slot>)
    requires Ordered(slots, SlotKey())
    ensures forall i, j :: 0 <= i < j < |slots| ==>
              slots[i].hour < slots[j].hour || (slots[i].hour == slots[j].hour && slots[i].minute <= slots[j].minute)
  {
    forall i, j | 0 <= i < j < |slots|
      ensures slots[i].hour < slots[j].hour || (slots[i].hour == slots[j].hour && slots[i].minute <= slots[j].minute)
    {
      assert AtMost(SlotKey()(slots[i]), SlotKey()(slots[j]));
    }
  }

  class Scheduler {
    var slots: seq<Slot>
    var rows: seq<JobRow>
    var parts: Parts
    var dispatched: seq<string>

    constructor ()
      ensures slots == [] && rows == [] && parts == map[] && dispatched == []
    {
      slots, rows, parts, dispatched := [], [], map[], [];
    }

    /** The assets still scheduled, in the order they will really be released. */
    ghost function Queue(): seq<Group>
      reads this
    {
      Drain(GroupsOf(rows, parts))
    }

    /** `replace_slots`: the new slots arrive without a fired marker, and are returned in clock order. */
    method ReplaceSlots(body: seq<Slot>) returns (sorted: seq<Slot>)
      modifies `slots
      ensures |slots| == |body|
      ensures forall k :: 0 <= k < |body| ==> slots[k] == body[k].(lastFiredOn := None)
      ensures multiset(sorted) == multiset(slots)
      ensures forall i, j :: 0 <= i < j < |sorted| ==>
                sorted[i].hour < sorted[j].hour
                || (sorted[i].hour == sorted[j].hour && sorted[i].minute <= sorted[j].minute)
      ensures forall k :: WithKey(sorted, SlotKey(), k) == WithKey(slots, SlotKey(), k)
    {
      slots := seq(|body|, k requires 0 <= k < |body| => body[k].(lastFiredOn := None));
      sorted := SortBy(slots, SlotKey());
      SortByPermutes(slots, SlotKey());
      SortByOrdered(slots, SlotKey());
      SlotKeysOrder(sorted);
      forall k ensures WithKey(sorted, SlotKey(), k) == WithKey(slots, SlotKey(), k) {
        SortByStable(slots, SlotKey(), k);
      }
    }

    /** `rearm_slots`: refuses an empty table, otherwise clears every fired marker. */
    method RearmSlots() returns (found: bool)
      modifies `slots
      ensures found == (old(slots) != []) && |slots| == |old(slots)|
      ensures forall k :: 0 <= k < |slots| ==> slots[k] == old(slots)[k].(lastFiredOn := None)
    {
      var all := slots;
      found := all != [];
      slots := seq(|all|, k requires 0 <= k < |all| => all[k].(lastFiredOn := None));
    }

    /** `release_plan`: the next firing times beside the head of the preview, at most a hundred. */
    method ReleasePlan(count: int, now: int) returns (entries: seq<PlanEntry>)
      ensures entries == Plan(slots, Order(GroupsOf(rows, parts)), count, now)
      ensures AreNextFirings(TimesOf(entries), slots, if count < 100 then count else 100, now)
      ensures forall i :: 0 <= i < |entries| ==> Shows(entries[i], GroupAt(Order(GroupsOf(rows, parts)), i), parts)
    {
      var n := if count < 0 then 0 else if count < 100 then count else 100;
      var times := ComputeUpcoming(slots, n, now);
      var backlog := OrderedBacklog(rows, parts, n);
      entries := PairUp(times, backlog);
      UpcomingAtMost(slots, n, now);
      PairsTake(times, Order(GroupsOf(rows, parts)), n);
      PlanInFull(slots, rows, parts, count, now);
    }

    static method PairUp(times: seq<int>, backlog: seq<Group>) returns (entries: seq<PlanEntry>)
      ensures entries == Pairs(times, backlog)
    {
      entries := [];
      for position := 0 to |times|
        invariant entries == Pairs(times[..position], backlog)
      {
        assert times[..position + 1][..position] == times[..position];
        var asset, title, index := None, "", None;
        if position < |backlog| {
          var group := backlog[position];
          asset := Some(group.asset);
          if group.part.Some? {
            title, index := group.part.value.title, Some(group.part.value.index);
          }
        }
        entries := entries + [PlanEntry(times[position], asset, title, index)];
      }
      assert times[..|times|] == times;
    }

    /** The body of `tick`'s loop: one ready slot takes the asset that heads the preview, if there is one. */
    method FireSlot(slot: nat, now: int) returns (group: Option<Group>)
      requires slot < |slots|
      modifies `rows, `slots
      ensures parts == old(parts) && dispatched == old(dispatched)
      ensures old(Queue()) == [] ==> group == None && rows == old(rows) && slots == old(slots)
      ensures old(Queue()) != [] ==>
        && group == Some(old(Queue())[0])
        && Queue() == old(Queue())[1..]
        && rows == ReleaseRows(old(rows), old(Queue())[0].asset)
        && slots == old(slots)[slot := StampedSlot(old(slots)[slot], now)]
    {
      var backlog := OrderedBacklog(rows, parts, 1);
      if backlog == [] {
        group := None;
      } else {
        ReleaseHeadDrains(rows, parts);
        group := Some(backlog[0]);
        rows := ReleaseRows(rows, backlog[0].asset);
        slots := slots[slot := StampedSlot(slots[slot], now)];
      }
    }

    /**
     `tick`: every due slot, in clock order, releases the asset that heads the preview of what is
     left. The new slots, rows and drain, and what is reported and handed to `dispatch`, are those
     of `FireAll`; the other clauses say what that comes to.
     */
    method Tick(now: int, grace: int) returns (releases: seq<Release>, idle: seq<nat>)
      modifies this
      ensures InRange(DueSlots(old(slots), now, grace), |old(slots)|)
      ensures var st := FireAll(TickState(old(slots), old(rows), old(Queue()), [], [], []),
              DueSlots(old(slots), now, grace), now);
              && slots == st.slots && rows == st.rows && Queue() == st.queue
              && releases == st.releases && idle == st.idle
              && dispatched == old(dispatched) + st.jobIds
      ensures parts == old(parts) && |slots| == |old(slots)| && |rows| == |old(rows)|
      ensures OnTime(old(slots), slots, releases, now, grace)
      ensures NoneMissed(old(slots), SlotsOf(releases) + idle, now, grace)
      ensures idle == [] || Queue() == []
      ensures AssetsOf(old(Queue())) == ReleasedAssets(releases) + AssetsOf(Queue())
      ensures InPartOrder(ReleasedAssets(releases), parts)
      ensures forall j :: 0 <= j < |rows| ==>
                rows[j] == if old(rows)[j].asset in ReleasedAssets(releases) then old(rows)[j].(scheduled := false)
                           else old(rows)[j]
    {
      var ready := DueSlots(slots, now, grace);
      DueInRange(slots, now, grace);
      TickInFull(slots, rows, parts, now, grace);
      var jobIds;
      releases, idle, jobIds := FireReady(ready, now);
      dispatched := dispatched + jobIds;
    }

    /** `tick`'s loop over the ready slots. */
    method FireReady(ready: seq<nat>, now: int) returns (releases: seq<Release>, idle: seq<nat>, jobIds: seq<string>)
      requires InRange(ready, |slots|)
      modifies `rows, `slots
      ensures parts == old(parts) && dispatched == old(dispatched)
      ensures FireAll(TickState(old(slots), old(rows), old(Queue()), [], [], []), ready, now)
              == TickState(slots, rows, Queue(), releases, idle, jobIds)
    {
      releases, idle, jobIds := [], [], [];
      ghost var done := FireAll(TickState(slots, rows, Queue(), [], [], []), ready, now);
      for i := 0 to |ready|
        invariant parts == old(parts) && dispatched == old(dispatched) && |slots| == |old(slots)|
        invariant FireAll(TickState(slots, rows, Queue(), releases, idle, jobIds), ready[i..], now) == done
      {
        var slot := ready[i];
        ghost var before := TickState(slots, rows, Queue(), releases, idle, jobIds);
        assert ready[i..][1..] == ready[i + 1..];
        var today := LocalDate(slots[slot], now);
        var group := FireSlot(slot, now);
        if group.None? {
          idle := idle + [slot];
        } else {
          jobIds := jobIds + group.value.jobs;
          releases := releases + [Release(slot, today, group.value.asset)];
        }
        assert TickState(slots, rows, Queue(), releases, idle, jobIds) == Fire(before, slot, now);
      }
    }
  }

  lemma DueInRange(slots: seq<Slot>, now: int, grace: int)
    ensures InRange(DueSlots(slots, now, grace), |slots|)
  {
    DueSlotsAre(slots, now, grace);
    var due := DueSlots(slots, now, grace);
    assert forall i :: 0 <= i < |due| ==> due[i] in due;
  }

  // ---- the plan --------------------------------------------------------------------------

  function PlanLength(count: int): nat {
    if count < 0 then 0 else if count < 100 then count else 100
  }

  function Pairs(times: seq<int>, preview: seq<Group>): (entries: seq<PlanEntry>)
    ensures |entries| == |times|
  {
    if times == [] then []
    else
      var p := |times| - 1;
      Pairs(times[..p], preview) + [EntryFor(times[p], GroupAt(preview, p))]
  }

  function Plan(slots: seq<Slot>, preview: seq<Group>, count: int, now: int): seq<PlanEntry> {
    Pairs(Upcoming(slots, PlanLength(count), now), preview)
  }

  lemma {:induction false} PairsTake(times: seq<int>, preview: seq<Group>, n: nat)
    requires |times| <= n
    ensures Pairs(times, Take(preview, n)) == Pairs(times, preview)
  {
    if times != [] {
      PairsTake(times[..|times| - 1], preview, n);
    }
  }

  /** Entry i shows the i-th firing time and the i-th group of the preview, when there is one. */
  lemma {:induction false} PairsAt(times: seq<int>, preview: seq<Group>, i: nat)
    requires i < |times|
    ensures Pairs(times, preview)[i] == EntryFor(times[i], GroupAt(preview, i))
  {
    if i < |times| - 1 {
      PairsAt(times[..|times| - 1], preview, i);
    }
  }

  function TimesOf(entries: seq<PlanEntry>): (times: seq<int>)
    ensures |times| == |entries| && forall i :: 0 <= i < |entries| ==> times[i] == entries[i].firesAt
  {
    seq(|entries|, i requires 0 <= i < |entries| => entries[i].firesAt)
  }

  /** An entry shows a group's asset with its place in a series, or stays empty. */
  predicate Shows(e: PlanEntry, group: Option<Group>, parts: Parts) {
    match group
    case None => e.asset == None && e.title == "" && e.index == None
    case Some(g) =>
      && e.asset == Some(g.asset)
      && if g.asset in parts then e.title == parts[g.asset].title && e.index == Some(parts[g.asset].index)
         else e.title == "" && e.index == None
  }

  /** The plan's times are the next firings, and entry i shows entry i of the preview. */
  lemma PlanInFull(slots: seq<Slot>, rows: seq<JobRow>, parts: Parts, count: int, now: int)
    ensures var plan := Plan(slots, Order(GroupsOf(rows, parts)), count, now);
            && AreNextFirings(TimesOf(plan), slots, if count < 100 then count else 100, now)
            && forall i :: 0 <= i < |plan| ==> Shows(plan[i], GroupAt(Order(GroupsOf(rows, parts)), i), parts)
  {
    var times := Upcoming(slots, PlanLength(count), now);
    UpcomingInFull(slots, PlanLength(count), now);
    PairsInFull(times, rows, parts);
    assert TimesOf(Plan(slots, Order(GroupsOf(rows, parts)), count, now)) == times;
  }

  lemma PairsInFull(times: seq<int>, rows: seq<JobRow>, parts: Parts)
    ensures var preview := Order(GroupsOf(rows, parts));
            forall i :: 0 <= i < |times| ==>
              var entry := Pairs(times, preview)[i];
              entry.firesAt == times[i] && Shows(entry, GroupAt(preview, i), parts)
  {
    var preview := Order(GroupsOf(rows, parts));
    PreviewIsOfRows(rows, parts);
    forall i | 0 <= i < |times|
      ensures var entry := Pairs(times, preview)[i];
              entry.firesAt == times[i] && Shows(entry, GroupAt(preview, i), parts)
    {
      PairsAt(times, preview, i);
      assert i < |preview| ==> GroupOfRows(preview[i], rows, parts);
    }
  }
}
