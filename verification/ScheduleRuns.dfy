/**
 Whole runs of the scheduler: what any number of ticks releases, how often a slot fires, and when
 the release plan predicts the run (sau/schedule.py, sau/api/scheduling.py).
 */
module ScheduleRuns {
  import opened Options
  import opened StableSort
  import opened Backlog
  import opened BacklogQuery
  import opened Slots
  import opened Schedule

  // ---- slots and ticks -------------------------------------------------------------------

  /** The same slots, except perhaps for their fired markers. */
  ghost predicate SameTimes(a: seq<Slot>, b: seq<Slot>) {
    |a| == |b| && forall k :: 0 <= k < |a| ==> SameTime(a[k], b[k])
  }

  predicate SameTime(a: Slot, b: Slot) {
    a.hour == b.hour && a.minute == b.minute && a.offset == b.offset && a.enabled == b.enabled
  }

  /** The rows take no part in what a tick does to slots and queue. */
  lemma {:induction false} FireAllIgnoresRows(st: TickState, rows: seq<JobRow>, due: seq<nat>, now: int)
    requires InRange(due, |st.slots|)
    ensures FireAll(st.(rows := rows), due, now)
            == FireAll(st, due, now).(rows := FireAll(st.(rows := rows), due, now).rows)
    decreases |due|
  {
    if due != [] {
      var other := st.(rows := rows);
      assert Fire(other, due[0], now) == Fire(st, due[0], now).(rows := Fire(other, due[0], now).rows);
      FireAllIgnoresRows(Fire(st, due[0], now), Fire(other, due[0], now).rows, due[1..], now);
    }
  }

  // ---- what a tick hands to dispatch -----------------------------------------------------

  /** The ids of the jobs scheduled in `before` and no longer in `after`. */
  function MovedIds(before: seq<JobRow>, after: seq<JobRow>): seq<string>
    requires |before| == |after|
  {
    if before == [] then []
    else
      var p := |before| - 1;
      MovedIds(before[..p], after[..p]) + (if before[p].scheduled && !after[p].scheduled then [before[p].id] else [])
  }

  /** `after` is `before` with some jobs unscheduled. */
  ghost predicate Unscheduled(before: seq<JobRow>, after: seq<JobRow>) {
    && |after| == |before|
    && forall j :: 0 <= j < |before| ==> after[j] == before[j] || after[j] == before[j].(scheduled := false)
  }

  lemma {:induction false} MovedTwice(a: seq<JobRow>, b: seq<JobRow>, c: seq<JobRow>)
    requires Unscheduled(a, b) && Unscheduled(b, c)
    ensures multiset(MovedIds(a, c)) == multiset(MovedIds(a, b)) + multiset(MovedIds(b, c))
  {
    if a != [] {
      var p := |a| - 1;
      MovedTwice(a[..p], b[..p], c[..p]);
      MovedLast(a, b);
      MovedLast(b, c);
      MovedLast(a, c);
      MovedRow(a[p], b[p], c[p]);
      SumsAdd(multiset(MovedIds(a[..p], c[..p])), multiset(MovedIds(a[..p], b[..p])),
        multiset(MovedIds(b[..p], c[..p])),
              MovedId(a[p], c[p]), MovedId(a[p], b[p]), MovedId(b[p], c[p]));
    }
  }

  lemma SumsAdd(whole: multiset<string>, x: multiset<string>, y: multiset<string>,
                more: multiset<string>, dx: multiset<string>, dy: multiset<string>)
    requires whole == x + y && more == dx + dy
    ensures whole + more == (x + dx) + (y + dy)
  {
  }

  /** The id of a row that was scheduled and is so no longer. */
  function MovedId(before: JobRow, after: JobRow): multiset<string> {
    if before.scheduled && !after.scheduled then multiset{before.id} else multiset{}
  }

  lemma MovedLast(a: seq<JobRow>, b: seq<JobRow>)
    requires |a| == |b| && a != []
    ensures var p := |a| - 1; multiset(MovedIds(a, b)) == multiset(MovedIds(a[..p], b[..p])) + MovedId(a[p], b[p])
  {
  }

  lemma MovedRow(a: JobRow, b: JobRow, c: JobRow)
    requires b == a || b == a.(scheduled := false)
    requires c == b || c == b.(scheduled := false)
    ensures MovedId(a, c) == MovedId(a, b) + MovedId(b, c)
  {
  }

  lemma {:induction false} ReleaseMoves(rows: seq<JobRow>, asset: string)
    ensures Unscheduled(rows, ReleaseRows(rows, asset))
    ensures MovedIds(rows, ReleaseRows(rows, asset)) == JobsOf(rows, asset)
  {
    if rows != [] {
      var p := |rows| - 1;
      ReleaseMoves(rows[..p], asset);
      assert ReleaseRows(rows, asset)[..p] == ReleaseRows(rows[..p], asset);
    }
  }

  /** The head of the drain carries exactly its asset's scheduled jobs. */
  lemma HeadJobs(rows: seq<JobRow>, parts: Parts)
    requires Drain(GroupsOf(rows, parts)) != []
    ensures var g := Drain(GroupsOf(rows, parts))[0];
            && g.jobs == JobsOf(rows, g.asset)
            && Drain(GroupsOf(ReleaseRows(rows, g.asset), parts)) == Drain(GroupsOf(rows, parts))[1..]
  {
    var gs := GroupsOf(rows, parts);
    var m := FirstMin(gs, KeyIn(gs));
    DrainUnfold(gs);
    ReleaseHeadDrains(rows, parts);
    GroupsFaithful(rows, parts, gs[m].asset);
    FindAt(gs, m);
  }

  /** A tick dispatches each job it takes out of the backlog once, and no other job. */
  lemma {:induction false} DispatchedExactly(st: TickState, parts: Parts, due: seq<nat>, now: int)
    requires InRange(due, |st.slots|) && st.queue == Drain(GroupsOf(st.rows, parts))
    ensures var done := FireAll(st, due, now);
            && Unscheduled(st.rows, done.rows)
            && done.queue == Drain(GroupsOf(done.rows, parts))
            && multiset(done.jobIds) == multiset(st.jobIds) + multiset(MovedIds(st.rows, done.rows))
    decreases |due|
  {
    var done := FireAll(st, due, now);
    if due == [] {
      MovedNone(st.rows);
    } else {
      var next := Fire(st, due[0], now);
      if st.queue != [] {
        var asset := st.queue[0].asset;
        HeadJobs(st.rows, parts);
        ReleaseMoves(st.rows, asset);
        DispatchedExactly(next, parts, due[1..], now);
        MovedTwice(st.rows, next.rows, done.rows);
      } else {
        DispatchedExactly(next, parts, due[1..], now);
      }
    }
  }

  lemma {:induction false} MovedNone(rows: seq<JobRow>)
    ensures MovedIds(rows, rows) == []
  {
    if rows != [] {
      MovedNone(rows[..|rows| - 1]);
    }
  }

  // ---- runs ------------------------------------------------------------------------------

  /** What the scheduler carries from tick to tick: slots, the rest of the drain, everything released. */
  datatype Sys = Sys(slots: seq<Slot>, queue: seq<Group>, log: seq<Release>)

  function TickSys(s: Sys, now: int, grace: int): Sys {
    DueInRange(s.slots, now, grace);
    var done := FireAll(TickState(s.slots, [], s.queue, [], [], []), DueSlots(s.slots, now, grace), now);
    Sys(done.slots, done.queue, s.log + done.releases)
  }

  function Run(s: Sys, ticks: seq<int>, grace: int): Sys {
    if ticks == [] then s else TickSys(Run(s, ticks[..|ticks| - 1], grace), ticks[|ticks| - 1], grace)
  }

  /** Every fired marker names a date whose firing time has come. */
  ghost predicate StampsPast(slots: seq<Slot>, now: int) {
    forall k :: 0 <= k < |slots| && slots[k].lastFiredOn.Some? ==> FireAt(slots[k], slots[k].lastFiredOn.value) <= now
  }

  /** No slot is due. */
  ghost predicate Quiet(slots: seq<Slot>, now: int, grace: int) {
    forall k :: 0 <= k < |slots| ==> !IsDue(slots[k], now, grace)
  }

  lemma TickSysFacts(s: Sys, now: int, grace: int)
    ensures var due, s' := DueSlots(s.slots, now, grace), TickSys(s, now, grace);
            var m := Min(|due|, |s.queue|);
            && InRange(due, |s.slots|)
            && s'.queue == s.queue[m..]
            && |s'.log| == |s.log| + m && s.log <= s'.log
            && (forall i :: 0 <= i < m ==>
                  s'.log[|s.log| + i] == Release(due[i], LocalDate(s.slots[due[i]], now), s.queue[i].asset))
            && |s'.slots| == |s.slots|
            && (forall k :: 0 <= k < |s.slots| ==>
                  s'.slots[k] == if k in due[..m] then StampedSlot(s.slots[k], now) else s.slots[k])
  {
    DueInRange(s.slots, now, grace);
    var st, due := TickState(s.slots, [], s.queue, [], [], []), DueSlots(s.slots, now, grace);
    FireAllQueue(st, due, now);
    forall i | 0 <= i < Min(|due|, |s.queue|)
      ensures FireAll(st, due, now).releases[i] == Release(due[i], LocalDate(s.slots[due[i]], now), s.queue[i].asset)
    {
      FireAllReleases(st, due, now, i);
    }
    forall k | 0 <= k < |s.slots|
      ensures FireAll(st, due, now).slots[k]
              == if k in due[..Min(|due|, |s.queue|)] then StampedSlot(s.slots[k], now) else s.slots[k]
    {
      FireAllStamps(st, due, now, k);
    }
  }

  /** The tick method is `TickSys` on the slots and the drain of the rows. */
  lemma TickIsTickSys(slots: seq<Slot>, rows: seq<JobRow>, queue: seq<Group>, now: int, grace: int)
    ensures InRange(DueSlots(slots, now, grace), |slots|)
    ensures var st := FireAll(TickState(slots, rows, queue, [], [], []), DueSlots(slots, now, grace), now);
            TickSys(Sys(slots, queue, []), now, grace) == Sys(st.slots, st.queue, st.releases)
  {
    DueInRange(slots, now, grace);
    FireAllIgnoresRows(TickState(slots, [], queue, [], [], []), rows, DueSlots(slots, now, grace), now);
  }

  lemma TickKeepsStampsPast(s: Sys, from: int, now: int, grace: int)
    requires StampsPast(s.slots, from) && from <= now
    ensures StampsPast(TickSys(s, now, grace).slots, now)
    ensures SameTimes(s.slots, TickSys(s, now, grace).slots)
  {
    TickSysFacts(s, now, grace);
    DueSlotsAre(s.slots, now, grace);
    var due := DueSlots(s.slots, now, grace);
    assert forall k, m :: 0 <= m <= |due| && k in due[..m] ==> k in due;
  }

  // ---- at most once a day ----------------------------------------------------------------

  ghost predicate NonDecreasing(ticks: seq<int>) {
    forall i, j :: 0 <= i < j < |ticks| ==> ticks[i] <= ticks[j]
  }

  /** Each slot's releases carry strictly increasing dates, the last of them no later than its marker. */
  ghost predicate DatesIncrease(s: Sys, now: int) {
    && (forall i, j :: 0 <= i < j < |s.log| && s.log[i].slot == s.log[j].slot ==> s.log[i].date < s.log[j].date)
    && (forall i :: 0 <= i < |s.log| ==>
          s.log[i].slot < |s.slots| && MarkedSince(s.slots[s.log[i].slot], s.log[i].date, now))
  }

  predicate MarkedSince(s: Slot, date: int, now: int) {
    s.lastFiredOn.Some? && date <= s.lastFiredOn.value <= LocalDate(s, now)
  }

  /** A release of this tick: its slot was due, bears today's date, and is stamped with it. */
  lemma NewRelease(s: Sys, now: int, grace: int, i: nat)
    requires |s.log| <= i < |TickSys(s, now, grace).log|
    ensures var due, s' := DueSlots(s.slots, now, grace), TickSys(s, now, grace);
            var k := s'.log[i].slot;
            && i - |s.log| < |due| && k == due[i - |s.log|] < |s.slots| && |s'.slots| == |s.slots|
            && IsDue(s.slots[k], now, grace)
            && s'.log[i].date == LocalDate(s.slots[k], now)
            && s'.slots[k] == StampedSlot(s.slots[k], now)
  {
    TickSysFacts(s, now, grace);
    DueSlotsAre(s.slots, now, grace);
    var due, d := DueSlots(s.slots, now, grace), i - |s.log|;
    assert TickSys(s, now, grace).log[|s.log| + d].slot == due[d];
    assert due[d] in due;
    assert due[..Min(|due|, |s.queue|)][d] == due[d];
  }

  lemma OldEntries(s: Sys, now: int, grace: int, i: nat, k: nat)
    requires i < |s.log| && k < |s.slots|
    ensures var s' := TickSys(s, now, grace);
            && i < |s'.log| && s'.log[i] == s.log[i] && |s'.slots| == |s.slots|
            && (s'.slots[k] == s.slots[k] || s'.slots[k] == StampedSlot(s.slots[k], now))
  {
    TickSysFacts(s, now, grace);
  }

  lemma MarkStays(s: Slot, date: int, from: int, now: int)
    requires MarkedSince(s, date, from) && from <= now
    ensures MarkedSince(s, date, now) && MarkedSince(StampedSlot(s, now), date, now)
  {
  }

  lemma OldRelease(s: Sys, from: int, now: int, grace: int, i: nat)
    requires DatesIncrease(s, from) && from <= now && i < |s.log|
    ensures var s' := TickSys(s, now, grace);
            && i < |s'.log| && s'.log[i] == s.log[i] && |s'.slots| == |s.slots| && s.log[i].slot < |s.slots|
            && MarkedSince(s'.slots[s.log[i].slot], s.log[i].date, now)
            && MarkedSince(s.slots[s.log[i].slot], s.log[i].date, from)
  {
    MarkStays(s.slots[s.log[i].slot], s.log[i].date, from, now);
    OldEntries(s, now, grace, i, s.log[i].slot);
  }

  lemma TickKeepsDates(s: Sys, from: int, now: int, grace: int)
    requires DatesIncrease(s, from) && from <= now
    ensures DatesIncrease(TickSys(s, now, grace), now)
  {
    var s', n := TickSys(s, now, grace), |s.log|;
    forall i | 0 <= i < |s'.log|
      ensures s'.log[i].slot < |s'.slots| && MarkedSince(s'.slots[s'.log[i].slot], s'.log[i].date, now)
    {
      if i < n {
        OldRelease(s, from, now, grace, i);
      } else {
        NewRelease(s, now, grace, i);
      }
    }
    forall i, j | 0 <= i < j < |s'.log| && s'.log[i].slot == s'.log[j].slot
      ensures s'.log[i].date < s'.log[j].date
    {
      TickOrdersDates(s, from, now, grace, i, j);
    }
  }

  lemma TickOrdersDates(s: Sys, from: int, now: int, grace: int, i: nat, j: nat)
    requires DatesIncrease(s, from) && from <= now
    requires var log := TickSys(s, now, grace).log; i < j < |log| && log[i].slot == log[j].slot
    ensures TickSys(s, now, grace).log[i].date < TickSys(s, now, grace).log[j].date
  {
    var n := |s.log|;
    if j < n {
      OldRelease(s, from, now, grace, i);
      OldRelease(s, from, now, grace, j);
    } else if i < n {
      OldRelease(s, from, now, grace, i);
      NewRelease(s, now, grace, j);
    } else {
      NewRelease(s, now, grace, i);
      NewRelease(s, now, grace, j);
      DueSlotsAre(s.slots, now, grace);
    }
  }

  /** However often it is ticked, with whatever grace, a slot releases at most once per local date. */
  lemma {:induction false} AtMostOncePerDate(slots: seq<Slot>, queue: seq<Group>, ticks: seq<int>, grace: int)
    requires ticks != [] && NonDecreasing(ticks)
    ensures var s := Run(Sys(slots, queue, []), ticks, grace);
            DatesIncrease(s, ticks[|ticks| - 1])
  {
    var p := |ticks| - 1;
    var start := Sys(slots, queue, []);
    if p > 0 {
      AtMostOncePerDate(slots, queue, ticks[..p], grace);
      TickKeepsDates(Run(start, ticks[..p], grace), ticks[p - 1], ticks[p], grace);
    } else {
      assert Run(start, ticks[..p], grace) == start;
      TickKeepsDates(start, ticks[p], ticks[p], grace);
    }
  }

  // ---- only within the grace period ------------------------------------------------------

  /** A tick reached the slot on this date: at its time or later, and no later than the grace period. */
  ghost predicate Reaches(ticks: seq<int>, s: Slot, date: int, grace: int) {
    exists i :: 0 <= i < |ticks| && FireAt(s, date) <= ticks[i] <= FireAt(s, date) + grace
                && (ticks[i] + s.offset) / 86_400_000_000 == date
  }

  lemma {:induction false} RunKeepsTimes(start: Sys, ticks: seq<int>, grace: int)
    ensures SameTimes(start.slots, Run(start, ticks, grace).slots)
    decreases |ticks|
  {
    if ticks != [] {
      var s := Run(start, ticks[..|ticks| - 1], grace);
      RunKeepsTimes(start, ticks[..|ticks| - 1], grace);
      TickSysFacts(s, ticks[|ticks| - 1], grace);
    }
  }

  lemma ReachesStill(ticks: seq<int>, now: int, s: Slot, date: int, grace: int)
    requires Reaches(ticks, s, date, grace)
    ensures Reaches(ticks + [now], s, date, grace)
  {
    var i :| 0 <= i < |ticks| && FireAt(s, date) <= ticks[i] <= FireAt(s, date) + grace
             && (ticks[i] + s.offset) / 86_400_000_000 == date;
    assert (ticks + [now])[i] == ticks[i];
  }

  /**
   However the ticks are spaced, in whatever order: a release is of an enabled slot, on a date some
   tick reached within the grace period. A date that no tick reached in time is skipped for good.
   */
  lemma {:induction false} ReleasesAreReached(start: Sys, ticks: seq<int>, grace: int, i: nat)
    requires |start.log| <= i < |Run(start, ticks, grace).log|
    ensures var r := Run(start, ticks, grace).log[i];
            r.slot < |start.slots| && start.slots[r.slot].enabled && Reaches(ticks, start.slots[r.slot], r.date, grace)
    decreases |ticks|
  {
    var p := |ticks| - 1;
    var s, now := Run(start, ticks[..p], grace), ticks[p];
    assert ticks == ticks[..p] + [now];
    RunKeepsTimes(start, ticks[..p], grace);
    TickSysFacts(s, now, grace);
    if i < |s.log| {
      ReleasesAreReached(start, ticks[..p], grace, i);
      var r := s.log[i];
      ReachesStill(ticks[..p], now, start.slots[r.slot], r.date, grace);
    } else {
      NewRelease(s, now, grace, i);
      var r := Run(start, ticks, grace).log[i];
      assert SameTime(start.slots[r.slot], s.slots[r.slot]);
      assert ticks[p] == now;
    }
  }

  /** Slot k has released on this date. */
  ghost predicate Served(s: Sys, k: nat, date: int) {
    exists r :: r in s.log && r.slot == k && r.date == date
  }

  lemma ServedStays(s: Sys, now: int, grace: int, k: nat, date: int)
    requires Served(s, k, date)
    ensures Served(TickSys(s, now, grace), k, date)
  {
    TickSysFacts(s, now, grace);
    var r :| r in s.log && r.slot == k && r.date == date;
    assert r in TickSys(s, now, grace).log;
  }

  /** With an asset for every due slot, whoever is due is served. */
  lemma DueReleases(s: Sys, now: int, grace: int, k: nat)
    requires k < |s.slots| && IsDue(s.slots[k], now, grace) && |DueSlots(s.slots, now, grace)| <= |s.queue|
    ensures Served(TickSys(s, now, grace), k, LocalDate(s.slots[k], now))
  {
    var due, s' := DueSlots(s.slots, now, grace), TickSys(s, now, grace);
    TickSysFacts(s, now, grace);
    DueSlotsAre(s.slots, now, grace);
    var i :| 0 <= i < |due| && due[i] == k;
    assert s'.log[|s.log| + i] == Release(k, LocalDate(s.slots[k], now), s.queue[i].asset);
    assert s'.log[|s.log| + i] in s'.log;
  }

  /** Whoever is due is served, and whoever bears a new marker was due. */
  lemma DueIsServed(s: Sys, now: int, grace: int, k: nat)
    requires k < |s.slots|
    ensures var s' := TickSys(s, now, grace);
            && |s'.slots| == |s.slots|
            && (s'.queue != [] && IsDue(s.slots[k], now, grace) ==> Served(s', k, LocalDate(s.slots[k], now)))
            && (s'.slots[k] == s.slots[k]
                || (s'.slots[k] == StampedSlot(s.slots[k], now) && Served(s', k, LocalDate(s.slots[k], now))))
  {
    var due, s' := DueSlots(s.slots, now, grace), TickSys(s, now, grace);
    TickSysFacts(s, now, grace);
    DueSlotsAre(s.slots, now, grace);
    var m := Min(|due|, |s.queue|);
    if k in due[..m] {
      var i :| 0 <= i < m && due[i] == k;
      assert s'.log[|s.log| + i] == Release(k, LocalDate(s.slots[k], now), s.queue[i].asset);
      assert s'.log[|s.log| + i] in s'.log;
    } else {
      assert m == |due| ==> due[..m] == due;
    }
  }

  lemma TickServes(s: Sys, now: int, grace: int, k: nat, date: int)
    requires k < |s.slots|
    requires s.slots[k].lastFiredOn == Some(date) ==> Served(s, k, date)
    ensures var s' := TickSys(s, now, grace);
            && |s'.slots| == |s.slots|
            && (s'.slots[k].lastFiredOn == Some(date) ==> Served(s', k, date))
            && (s'.queue != [] && s.slots[k].enabled && Reaches([now], s.slots[k], date, grace) ==> Served(s', k, date))
  {
    DueIsServed(s, now, grace, k);
    if Served(s, k, date) {
      ServedStays(s, now, grace, k, date);
    }
  }

  /**
   Conversely, while assets are left a slot releases on every date that a tick reached in time: for
   any ticks whatever, it has released on a date exactly if it is enabled and was reached.
   */
  lemma {:induction false} ReleasedIffReached(start: Sys, ticks: seq<int>, grace: int, k: nat, date: int)
    requires start.log == [] && k < |start.slots| && start.slots[k].lastFiredOn != Some(date)
    requires Run(start, ticks, grace).queue != []
    ensures var s := Run(start, ticks, grace);
            && |s.slots| == |start.slots|
            && (Served(s, k, date) <==> start.slots[k].enabled && Reaches(ticks, start.slots[k], date, grace))
            && (s.slots[k].lastFiredOn == Some(date) ==> Served(s, k, date))
    decreases |ticks|
  {
    var s := Run(start, ticks, grace);
    if ticks != [] {
      var p := |ticks| - 1;
      var before, now := Run(start, ticks[..p], grace), ticks[p];
      TickSysFacts(before, now, grace);
      ReleasedIffReached(start, ticks[..p], grace, k, date);
      RunKeepsTimes(start, ticks[..p], grace);
      TickServes(before, now, grace, k, date);
      if Served(before, k, date) {
        ServedStays(before, now, grace, k, date);
      }
      if Reaches(ticks, start.slots[k], date, grace) {
        LastReach(ticks, start.slots[k], before.slots[k], date, grace);
      }
    }
    if i :| 0 <= i < |s.log| && s.log[i].slot == k && s.log[i].date == date {
      ReleasesAreReached(start, ticks, grace, i);
    }
  }

  lemma LastReach(ticks: seq<int>, s: Slot, t: Slot, date: int, grace: int)
    requires ticks != [] && SameTime(s, t) && Reaches(ticks, s, date, grace)
    ensures var p := |ticks| - 1; Reaches(ticks[..p], s, date, grace) || Reaches([ticks[p]], t, date, grace)
  {
    var p := |ticks| - 1;
    var i :| 0 <= i < |ticks| && FireAt(s, date) <= ticks[i] <= FireAt(s, date) + grace
             && (ticks[i] + s.offset) / 86_400_000_000 == date;
    assert FireAt(t, date) == FireAt(s, date);
    assert [ticks[p]][0] == ticks[p];
    assert i < p ==> ticks[..p][i] == ticks[i];
  }

  // ---- steady ticking --------------------------------------------------------------------

  /** The instant a run has reached. */
  function Reached(from: int, ticks: seq<int>): int {
    if ticks == [] then from else ticks[|ticks| - 1]
  }

  /** Ticks arrive at most `gap` apart, the first within `gap` of `from`. */
  predicate Paced(from: int, ticks: seq<int>, gap: int) {
    ticks == [] ||
    var p := |ticks| - 1;
    Paced(from, ticks[..p], gap) && Reached(from, ticks[..p]) <= ticks[p] <= Reached(from, ticks[..p]) + gap
  }

  /** One gap fits into the grace window, and between every enabled slot and its local midnight. */
  ghost predicate Roomy(slots: seq<Slot>, gap: int, grace: int) {
    0 <= gap <= grace && forall k :: 0 <= k < |slots| && slots[k].enabled ==> TimeOfDay(slots[k]) + gap < DAY
  }

  /** A slot that is not due becomes due, within one gap, exactly by firing; then the date is today's. */
  lemma DueAfterGap(s: Slot, from: int, now: int, gap: int, grace: int)
    requires s.enabled && !IsDue(s, from, grace)
    requires s.lastFiredOn.Some? ==> FireAt(s, s.lastFiredOn.value) <= from
    requires from <= now <= from + gap && 0 <= gap <= grace && TimeOfDay(s) + gap < DAY
    ensures LastDate(s, now) == LastDate(s, from) + if IsDue(s, now, grace) then 1 else 0
    ensures IsDue(s, now, grace) ==> LocalDate(s, now) == LastDate(s, now)
  {
    LastDateNear(s, from);
    LastDateNear(s, now);
    DatesAdvance(s, from, now);
  }

  /** Less than a day later it is the same date or the next, and as many firings later. */
  lemma DatesAdvance(s: Slot, from: int, now: int)
    requires from <= now < from + DAY
    ensures LocalDate(s, from) <= LocalDate(s, now) <= LocalDate(s, from) + 1
    ensures LastDate(s, from) <= LastDate(s, now) <= LastDate(s, from) + 1
  {
  }

  /** The number of slots due after one gap is the number of firings in it. */
  lemma {:induction false} DueCountsFirings(slots: seq<Slot>, from: int, now: int, gap: int, grace: int, i: nat)
    requires i <= |slots| && Roomy(slots, gap, grace) && Quiet(slots, from, grace) && StampsPast(slots, from)
    requires from <= now <= from + gap
    ensures |DueFrom(slots, now, grace, i)| == Firings(slots[i..], from, now)
    decreases |slots| - i
  {
    if i < |slots| {
      DueCountsFirings(slots, from, now, gap, grace, i + 1);
      if slots[i].enabled {
        DueAfterGap(slots[i], from, now, gap, grace);
      }
      assert slots[i..][1..] == slots[i + 1..];
    }
  }

  lemma {:induction false} FiringsAdd(slots: seq<Slot>, a: int, b: int, c: int)
    ensures Firings(slots, a, c) == Firings(slots, a, b) + Firings(slots, b, c)
  {
    if slots != [] {
      FiringsAdd(slots[1..], a, b, c);
    }
  }

  lemma {:induction false} FiringsSameTimes(slots: seq<Slot>, others: seq<Slot>, a: int, b: int)
    requires SameTimes(slots, others)
    ensures Firings(slots, a, b) == Firings(others, a, b)
  {
    if slots != [] {
      FiringsSameTimes(slots[1..], others[1..], a, b);
    }
  }

  lemma {:induction false} FiringsNonNegative(slots: seq<Slot>, a: int, b: int)
    requires a <= b
    ensures 0 <= Firings(slots, a, b)
  {
    if slots != [] {
      FiringsNonNegative(slots[1..], a, b);
    }
  }

  /** The first m assets of the start's drain have been released, in order, and nothing else. */
  ghost predicate ReleasedFirst(start: Sys, s: Sys, m: nat) {
    && m <= |start.queue| && s.queue == start.queue[m..]
    && |s.log| == |start.log| + m && start.log <= s.log
    && (forall i :: 0 <= i < m ==> s.log[|start.log| + i].asset == start.queue[i].asset)
  }

  /** The state of a steadily ticked run at `now`: what it has released since `from`, and why nothing is overdue. */
  ghost predicate OnSchedule(start: Sys, s: Sys, from: int, now: int, grace: int) {
    var fired := Firings(start.slots, from, now);
    && 0 <= fired
    && var m := Min(fired, |start.queue|);
    && ReleasedFirst(start, s, m)
    && SameTimes(start.slots, s.slots)
    && StampsPast(s.slots, now)
    && (s.queue == [] || Quiet(s.slots, now, grace))
  }

  lemma StampedIsNotDue(s: Slot, now: int, grace: int)
    ensures !IsDue(StampedSlot(s, now), now, grace)
  {
  }

  /** After a tick that did not run out of assets, no slot is due. */
  lemma TickQuiets(s: Sys, now: int, grace: int)
    ensures TickSys(s, now, grace).queue == [] || Quiet(TickSys(s, now, grace).slots, now, grace)
  {
    TickSysFacts(s, now, grace);
    DueSlotsAre(s.slots, now, grace);
    var due, s' := DueSlots(s.slots, now, grace), TickSys(s, now, grace);
    if s'.queue != [] {
      assert due[..Min(|due|, |s.queue|)] == due;
      forall k | 0 <= k < |s'.slots| ensures !IsDue(s'.slots[k], now, grace) {
        assert k in due <==> IsDue(s.slots[k], now, grace);
        StampedIsNotDue(s.slots[k], now, grace);
      }
    }
  }

  /** From a quiet state, one gap later, there are as many due slots as firings in the gap. */
  lemma DueAreFirings(slots: seq<Slot>, from: int, now: int, gap: int, grace: int)
    requires Roomy(slots, gap, grace) && Quiet(slots, from, grace) && StampsPast(slots, from)
    requires from <= now <= from + gap
    ensures |DueSlots(slots, now, grace)| == Firings(slots, from, now)
  {
    DueCountsFirings(slots, from, now, gap, grace, 0);
    assert slots[0..] == slots;
  }

  lemma RoomySameTimes(slots: seq<Slot>, others: seq<Slot>, gap: int, grace: int)
    requires Roomy(slots, gap, grace) && SameTimes(slots, others)
    ensures Roomy(others, gap, grace)
  {
  }

  lemma TickOnSchedule(start: Sys, s: Sys, from: int, last: int, now: int, gap: int, grace: int)
    requires Roomy(start.slots, gap, grace) && OnSchedule(start, s, from, last, grace)
    requires last <= now <= last + gap
    ensures OnSchedule(start, TickSys(s, now, grace), from, now, grace)
  {
    FiringsAdd(start.slots, from, last, now);
    FiringsNonNegative(start.slots, last, now);
    FiringsSameTimes(start.slots, s.slots, last, now);
    RoomySameTimes(start.slots, s.slots, gap, grace);
    if s.queue != [] {
      DueAreFirings(s.slots, last, now, gap, grace);
    }
    TickQuiets(s, now, grace);
    TickKeepsStampsPast(s, last, now, grace);
    var fired, more := Firings(start.slots, from, last), Firings(start.slots, last, now);
    TickReleases(s, now, grace);
    ReleasedFirstTrans(start, s, TickSys(s, now, grace), Min(fired, |start.queue|),
      Min(|DueSlots(s.slots, now, grace)|, |s.queue|));
    MinStep(fired, more, |start.queue|, |DueSlots(s.slots, now, grace)|);
  }

  lemma TickReleases(s: Sys, now: int, grace: int)
    ensures ReleasedFirst(s, TickSys(s, now, grace), Min(|DueSlots(s.slots, now, grace)|, |s.queue|))
  {
    TickSysFacts(s, now, grace);
  }

  lemma ReleasedFirstTrans(a: Sys, b: Sys, c: Sys, m: nat, d: nat)
    requires ReleasedFirst(a, b, m) && ReleasedFirst(b, c, d)
    ensures ReleasedFirst(a, c, m + d)
  {
  }

  /** Capped counting, one tick further. */
  lemma MinStep(fired: nat, more: nat, size: nat, due: nat)
    requires Min(fired, size) == size || due == more
    ensures Min(fired + more, size) == Min(fired, size) + Min(due, size - Min(fired, size))
  {
  }

  /**
   A steadily ticked run releases, by every tick, exactly as many assets as slots have fired, until
   the backlog is empty; and it releases them in drain order.
   */
  lemma {:induction false} RunOnSchedule(start: Sys, from: int, ticks: seq<int>, gap: int, grace: int)
    requires Paced(from, ticks, gap) && Roomy(start.slots, gap, grace)
    requires Quiet(start.slots, from, grace) && StampsPast(start.slots, from)
    ensures OnSchedule(start, Run(start, ticks, grace), from, Reached(from, ticks), grace)
  {
    if ticks == [] {
      NoFirings(start.slots, from);
    } else {
      var p := |ticks| - 1;
      RunOnSchedule(start, from, ticks[..p], gap, grace);
      TickOnSchedule(start, Run(start, ticks[..p], grace), from, Reached(from, ticks[..p]), ticks[p], gap, grace);
    }
  }

  // ---- the plan predicts the run ---------------------------------------------------------

  lemma PlanEntries(slots: seq<Slot>, preview: seq<Group>, count: int, now: int, i: nat, t: int)
    requires now <= t && Enabled(slots) != [] && i < PlanLength(count)
    ensures var plan, times := Plan(slots, preview, count, now), Upcoming(slots, PlanLength(count), now);
            && |plan| == |times| == PlanLength(count)
            && plan[i] == EntryFor(times[i], GroupAt(preview, i))
            && (times[i] <= t <==> i < Firings(slots, now, t))
  {
    var n := PlanLength(count);
    UpcomingExact(slots, n, now);
    var times := Upcoming(slots, n, now);
    PairsAt(times, preview, i);
    UpcomingCount(slots, n, now, t);
    CountOrdered(times, t, i);
  }

  lemma PlanEntryTells(slots: seq<Slot>, preview: seq<Group>, count: int, now: int, i: nat, t: int)
    requires now <= t && Enabled(slots) != [] && i < PlanLength(count)
    ensures var plan := Plan(slots, preview, count, now);
            && i < |plan|
            && (plan[i].firesAt <= t <==> i < Firings(slots, now, t))
            && plan[i].asset == if i < |preview| then Some(preview[i].asset) else None
  {
    PlanEntries(slots, preview, count, now, i, t);
  }

  /**
   The plan predicts the run. When no slot is due as the plan is made, the backlog drains as
   previewed, and ticks then come steadily: after any number of ticks, entry i of the plan has been
   released exactly when its time has come and it shows an asset, and it is that very asset.
   */
  lemma PlanPredictsRun(slots: seq<Slot>, gs: seq<Group>, count: int, from: int, ticks: seq<int>, gap: int,
        grace: int, i: nat)
    requires Enabled(slots) != [] && i < PlanLength(count)
    requires Settled(gs, gs)
    requires Paced(from, ticks, gap) && Roomy(slots, gap, grace)
    requires Quiet(slots, from, grace) && StampsPast(slots, from)
    ensures var plan := Plan(slots, Order(gs), count, from);
            var log := Run(Sys(slots, Drain(gs), []), ticks, grace).log;
            && i < |plan|
            && (i < |log| <==> plan[i].asset.Some? && plan[i].firesAt <= Reached(from, ticks))
            && (i < |log| ==> plan[i].asset == Some(log[i].asset))
  {
    var start, t := Sys(slots, Drain(gs), []), Reached(from, ticks);
    DrainIsPreview(gs);
    RunOnSchedule(start, from, ticks, gap, grace);
    PacedReached(from, ticks, gap);
    PlanEntryTells(slots, Order(gs), count, from, i, t);
    ReleasesOnSchedule(start, Run(start, ticks, grace), from, t, grace, i);
  }

  lemma ReleasesOnSchedule(start: Sys, s: Sys, from: int, now: int, grace: int, i: nat)
    requires OnSchedule(start, s, from, now, grace) && start.log == []
    ensures 0 <= Firings(start.slots, from, now) && |s.log| == Min(Firings(start.slots, from, now), |start.queue|)
    ensures i < |s.log| ==> s.log[i].asset == start.queue[i].asset
  {
  }

  lemma {:induction false} PacedReached(from: int, ticks: seq<int>, gap: int)
    requires Paced(from, ticks, gap)
    ensures from <= Reached(from, ticks)
  {
    if ticks != [] {
      var p := |ticks| - 1;
      PacedReached(from, ticks[..p], gap);
    }
  }

  /** Once the whole backlog has gone out, the plan was right about all of it if and only if it was settled. */
  lemma PlanRightIffSettled(slots: seq<Slot>, gs: seq<Group>, count: int, from: int, ticks: seq<int>, gap: int,
        grace: int)
    requires Enabled(slots) != [] && |gs| <= PlanLength(count) && DistinctAssets(gs)
    requires Paced(from, ticks, gap) && Roomy(slots, gap, grace)
    requires Quiet(slots, from, grace) && StampsPast(slots, from)
    requires |gs| <= Firings(slots, from, Reached(from, ticks))
    ensures var plan := Plan(slots, Order(gs), count, from);
            var log := Run(Sys(slots, Drain(gs), []), ticks, grace).log;
            && |log| == |gs| <= |plan|
            && ((forall i :: 0 <= i < |gs| ==> plan[i].asset == Some(log[i].asset)) <==> Settled(gs, gs))
  {
    PlanShowsPreview(slots, Order(gs), count, from);
    RunReleasesAll(slots, Drain(gs), from, ticks, gap, grace);
    SameAssetsSameOrder(gs);
    DrainIsPreview(gs);
  }

  lemma PlanShowsPreview(slots: seq<Slot>, preview: seq<Group>, count: int, from: int)
    requires Enabled(slots) != []
    ensures var plan := Plan(slots, preview, count, from);
            && |plan| == PlanLength(count)
            && (forall i :: 0 <= i < |plan| && i < |preview| ==> plan[i].asset == Some(preview[i].asset))
  {
    UpcomingLength(slots, PlanLength(count), from);
    var plan := Plan(slots, preview, count, from);
    forall i | 0 <= i < |plan| && i < |preview| ensures plan[i].asset == Some(preview[i].asset) {
      PlanEntries(slots, preview, count, from, i, from);
    }
  }

  /** When there have been as many firings as assets, all of them have gone out, in drain order. */
  lemma RunReleasesAll(slots: seq<Slot>, queue: seq<Group>, from: int, ticks: seq<int>, gap: int, grace: int)
    requires Paced(from, ticks, gap) && Roomy(slots, gap, grace)
    requires Quiet(slots, from, grace) && StampsPast(slots, from)
    requires |queue| <= Firings(slots, from, Reached(from, ticks))
    ensures var log := Run(Sys(slots, queue, []), ticks, grace).log;
            |log| == |queue| && forall i :: 0 <= i < |queue| ==> log[i].asset == queue[i].asset
  {
    var start := Sys(slots, queue, []);
    var s := Run(start, ticks, grace);
    RunOnSchedule(start, from, ticks, gap, grace);
    ReleasesOnSchedule(start, s, from, Reached(from, ticks), grace, 0);
    forall i | 0 <= i < |queue| ensures s.log[i].asset == queue[i].asset {
      ReleasesOnSchedule(start, s, from, Reached(from, ticks), grace, i);
    }
  }

  /** Both orders list the same groups, so they agree as soon as they agree on assets. */
  lemma SameAssetsSameOrder(gs: seq<Group>)
    requires DistinctAssets(gs)
    ensures |Order(gs)| == |Drain(gs)| == |gs|
    ensures (forall i :: 0 <= i < |gs| ==> Order(gs)[i].asset == Drain(gs)[i].asset) <==> Order(gs) == Drain(gs)
  {
    if forall i :: 0 <= i < |gs| ==> Order(gs)[i].asset == Drain(gs)[i].asset {
      forall i | 0 <= i < |gs| ensures Order(gs)[i] == Drain(gs)[i] {
        SortByPermutes(gs, KeyIn(gs));
        DrainPermutes(gs);
        SameAssetSameGroup(gs, Order(gs)[i], Drain(gs)[i]);
      }
      assert Order(gs) == Drain(gs);
    }
  }

  lemma SameAssetSameGroup(gs: seq<Group>, g: Group, h: Group)
    requires DistinctAssets(gs) && g in gs && h in gs && g.asset == h.asset
    ensures g == h
  {
  }

  // ---- every date, once ------------------------------------------------------------------

  /** With enough assets, a steadily ticked slot releases on every local date whose time came in the run. */
  lemma {:induction false} EveryDateFires(start: Sys, from: int, ticks: seq<int>, gap: int, grace: int, k: nat,
        date: int)
    requires Paced(from, ticks, gap) && Roomy(start.slots, gap, grace)
    requires Quiet(start.slots, from, grace) && StampsPast(start.slots, from)
    requires Firings(start.slots, from, Reached(from, ticks)) <= |start.queue|
    requires k < |start.slots| && start.slots[k].enabled
    requires from < FireAt(start.slots[k], date) <= Reached(from, ticks)
    ensures Served(Run(start, ticks, grace), k, date)
  {
    var p := |ticks| - 1;
    var last, now := Reached(from, ticks[..p]), ticks[p];
    var s := Run(start, ticks[..p], grace);
    FiringsAdd(start.slots, from, last, now);
    FiringsNonNegative(start.slots, last, now);
    RunOnSchedule(start, from, ticks[..p], gap, grace);
    TickSysFacts(s, now, grace);
    if FireAt(start.slots[k], date) <= last {
      EveryDateFires(start, from, ticks[..p], gap, grace, k, date);
      ServedStays(s, now, grace, k, date);
    } else {
      FiringNowReleases(start, s, from, last, now, gap, grace, k, date);
    }
  }

  lemma FiringNowReleases(start: Sys, s: Sys, from: int, last: int, now: int, gap: int, grace: int, k: nat, date: int)
    requires Roomy(start.slots, gap, grace) && OnSchedule(start, s, from, last, grace)
    requires last <= now <= last + gap && k < |start.slots| && start.slots[k].enabled
    requires last < FireAt(start.slots[k], date) <= now
    requires Firings(start.slots, from, last) + Firings(start.slots, last, now) <= |start.queue|
    requires 0 <= Firings(start.slots, last, now)
    ensures Served(TickSys(s, now, grace), k, date)
  {
    assert SameTime(start.slots[k], s.slots[k]);
    RoomySameTimes(start.slots, s.slots, gap, grace);
    FiringsSameTimes(start.slots, s.slots, last, now);
    LastDateCounts(s.slots[k], last, date);
    LastDateCounts(s.slots[k], now, date);
    OneFiringAtLeast(s.slots, last, now, k);
    assert s.queue != [];
    DueAreFirings(s.slots, last, now, gap, grace);
    DueAfterGap(s.slots[k], last, now, gap, grace);
    DueReleases(s, now, grace, k);
  }

  lemma {:induction false} OneFiringAtLeast(slots: seq<Slot>, from: int, now: int, k: nat)
    requires k < |slots| && slots[k].enabled && from <= now
    requires LastDate(slots[k], from) < LastDate(slots[k], now)
    ensures Firings(slots, from, now) >= 1
  {
    FiringsNonNegative(slots[1..], from, now);
    if k > 0 {
      assert slots[1..][k - 1] == slots[k];
      OneFiringAtLeast(slots[1..], from, now, k - 1);
    }
  }

  // ---- markers over any history ----------------------------------------------------------

  /** What can happen to the slots table: a tick, a replacement of the whole table, a re-arming. */
  datatype Op = TickAt(now: int, grace: int) | Replace(body: seq<Slot>) | Rearm

  function Unmarked(slots: seq<Slot>): (bare: seq<Slot>)
    ensures |bare| == |slots| && forall k :: 0 <= k < |slots| ==> bare[k] == slots[k].(lastFiredOn := None)
  {
    seq(|slots|, k requires 0 <= k < |slots| => slots[k].(lastFiredOn := None))
  }

  function Apply(s: Sys, op: Op): Sys {
    match op
    case TickAt(now, grace) => TickSys(s, now, grace)
    case Replace(body) => s.(slots := Unmarked(body))
    case Rearm => s.(slots := Unmarked(s.slots))
  }

  /** Ticks in this history do not go back in time. */
  predicate Forward(from: int, ops: seq<Op>)
    decreases |ops|
  {
    ops == [] || (if ops[0].TickAt? then from <= ops[0].now && Forward(ops[0].now, ops[1..])
                  else Forward(from, ops[1..]))
  }

  function History(s: Sys, ops: seq<Op>): Sys
    decreases |ops|
  {
    if ops == [] then s else History(Apply(s, ops[0]), ops[1..])
  }

  function Latest(from: int, ops: seq<Op>): int
    decreases |ops|
  {
    if ops == [] then from else Latest(if ops[0].TickAt? then ops[0].now else from, ops[1..])
  }

  /** The plan's assumption on markers holds after any history of ticks and edits. */
  lemma {:induction false} MarkersStayPast(s: Sys, from: int, ops: seq<Op>)
    requires StampsPast(s.slots, from) && Forward(from, ops)
    ensures StampsPast(History(s, ops).slots, Latest(from, ops))
    decreases |ops|
  {
    if ops != [] {
      match ops[0] {
        case TickAt(now, grace) =>
          TickKeepsStampsPast(s, from, now, grace);
          MarkersStayPast(Apply(s, ops[0]), now, ops[1..]);
        case Replace(body) => MarkersStayPast(Apply(s, ops[0]), from, ops[1..]);
        case Rearm => MarkersStayPast(Apply(s, ops[0]), from, ops[1..]);
      }
    }
  }
}
