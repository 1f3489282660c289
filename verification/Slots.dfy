/**
 Posting slots: when a slot is due, and the next firing times across all slots (sau/schedule.py).
 Instants are microseconds since an epoch midnight in UTC; a zone is a constant offset, so a local
 date is the number of the day a local instant falls in.
 */
module Slots {
  import opened Options
  import opened StableSort

  const MINUTE := 60_000_000
  const DAY := 1440 * MINUTE

  datatype SlotRow = SlotRow(name: string, hour: nat, minute: nat, offset: int, enabled: bool, lastFiredOn: Option<int>)

  type Slot = s: SlotRow | s.hour < 24 && s.minute < 60 witness SlotRow("", 0, 0, 0, true, None)

  /** Microseconds from local midnight to the slot's time. */
  function TimeOfDay(s: Slot): (t: nat)
    ensures t < DAY
  {
    (s.hour * 60 + s.minute) * MINUTE
  }

  function LocalDate(s: Slot, now: int): int {
    (now + s.offset) / DAY
  }

  /** The instant at which the slot fires on a local date. */
  function FireAt(s: Slot, date: int): int {
    date * DAY + TimeOfDay(s) - s.offset
  }

  /** A slot fires on that local date, when its wall clock shows its hour and minute, to the microsecond. */
  lemma FiresAtItsWallClockTime(s: Slot, date: int)
    ensures var local := FireAt(s, date) + s.offset;
            && local == date * 86_400_000_000 + s.hour * 3_600_000_000 + s.minute * 60_000_000
            && local / 86_400_000_000 == date
  {
    assert 0 <= s.hour * 3_600_000_000 + s.minute * 60_000_000 < 86_400_000_000;
  }

  predicate IsDue(s: Slot, now: int, grace: int) {
    && s.enabled
    && s.lastFiredOn != Some(LocalDate(s, now))
    && FireAt(s, LocalDate(s, now)) <= now
    && now - FireAt(s, LocalDate(s, now)) <= grace
  }

  /** The last local date on which the slot's time has come by `now`. */
  function LastDate(s: Slot, now: int): int {
    (now + s.offset - TimeOfDay(s)) / DAY
  }

  /** A date's firing has passed exactly when the date is at most `LastDate`. */
  lemma LastDateCounts(s: Slot, now: int, date: int)
    ensures FireAt(s, date) <= now <==> date <= LastDate(s, now)
  {
  }

  /** `LastDate` is today or yesterday, depending on whether today's time has come. */
  lemma LastDateNear(s: Slot, now: int)
    ensures LastDate(s, now) == if FireAt(s, LocalDate(s, now)) <= now then LocalDate(s, now) else LocalDate(s, now) - 1
  {
  }

  // ---- due_slots -------------------------------------------------------------------------

  function DueFrom(slots: seq<Slot>, now: int, grace: int, i: nat): (due: seq<nat>)
    requires i <= |slots|
    ensures forall k :: k in due <==> i <= k < |slots| && IsDue(slots[k], now, grace)
    ensures Distinct(due)
    decreases |slots| - i
  {
    if i == |slots| then []
    else
      var later := DueFrom(slots, now, grace, i + 1);
      if IsDue(slots[i], now, grace) then [i] + later else later
  }

  function ClockKey(slots: seq<Slot>): nat -> Key {
    (i: nat) => if i < |slots| then Key(slots[i].hour, slots[i].minute) else Key(0, 0)
  }

  /** The slots ready to fire, named by their place in `slots`, earliest in the day first. */
  function DueSlots(slots: seq<Slot>, now: int, grace: int): seq<nat> {
    SortBy(DueFrom(slots, now, grace, 0), ClockKey(slots))
  }

  lemma DueSlotsAre(slots: seq<Slot>, now: int, grace: int)
    ensures var due := DueSlots(slots, now, grace);
            && (forall k :: k in due <==> 0 <= k < |slots| && IsDue(slots[k], now, grace))
            && Distinct(due)
            && Ordered(due, ClockKey(slots))
  {
    var found, due := DueFrom(slots, now, grace, 0), DueSlots(slots, now, grace);
    SortByOrdered(found, ClockKey(slots));
    SortByDistinct(found, ClockKey(slots));
    SortByPermutes(found, ClockKey(slots));
  }

  ghost predicate Ascending(xs: seq<nat>) {
    forall i, j :: 0 <= i < j < |xs| ==> xs[i] < xs[j]
  }

  lemma {:induction false} DueFromAscends(slots: seq<Slot>, now: int, grace: int, i: nat)
    requires i <= |slots|
    ensures Ascending(DueFrom(slots, now, grace, i))
    decreases |slots| - i
  {
    if i < |slots| {
      DueFromAscends(slots, now, grace, i + 1);
      var later := DueFrom(slots, now, grace, i + 1);
      assert forall k :: 0 <= k < |later| ==> later[k] in later;
    }
  }

  lemma FirstOfTie(xs: seq<nat>, key: nat -> Key, x: nat)
    requires Ascending(xs) && xs != [] && x in RemoveAt(xs, FirstMin(xs, key)) && key(x) == key(xs[FirstMin(xs, key)])
    ensures xs[FirstMin(xs, key)] < x
  {
    var m := FirstMin(xs, key);
    var p :| 0 <= p < |xs| - 1 && RemoveAt(xs, m)[p] == x;
    FirstMinLeast(xs, key);
    assert Precedes(xs, key, m, if p < m then p else p + 1);
  }

  /** Sorting an ascending list leaves entries with equal keys ascending. */
  lemma {:induction false} TiesAscend(xs: seq<nat>, key: nat -> Key, i: nat, j: nat)
    requires Ascending(xs) && i < j < |xs| && key(SortBy(xs, key)[i]) == key(SortBy(xs, key)[j])
    ensures SortBy(xs, key)[i] < SortBy(xs, key)[j]
    decreases |xs|
  {
    var rest := RemoveAt(xs, FirstMin(xs, key));
    SortByUnfold(xs, key);
    if i > 0 {
      TiesAscend(rest, key, i - 1, j - 1);
    } else {
      SortByPermutes(rest, key);
      assert SortBy(rest, key)[j - 1] in SortBy(rest, key);
      FirstOfTie(xs, key, SortBy(rest, key)[j - 1]);
    }
  }

  predicate InRange(due: seq<nat>, n: nat) {
    forall i :: 0 <= i < |due| ==> due[i] < n
  }

  /** By clock time; slots with the same time stand as they do in the table. */
  ghost predicate InClockOrder(slots: seq<Slot>, places: seq<nat>) {
    && InRange(places, |slots|)
    && forall i, j :: 0 <= i < j < |places| ==>
         var s, t := slots[places[i]], slots[places[j]];
         s.hour < t.hour
         || (s.hour == t.hour && (s.minute < t.minute || (s.minute == t.minute && places[i] < places[j])))
  }

  lemma ClockKeysOrder(slots: seq<Slot>, due: seq<nat>)
    requires InRange(due, |slots|) && Ordered(due, ClockKey(slots))
    requires forall i, j :: 0 <= i < j < |due| && ClockKey(slots)(due[i]) == ClockKey(slots)(due[j]) ==> due[i] < due[j]
    ensures InClockOrder(slots, due)
  {
    forall i, j | 0 <= i < j < |due|
      ensures var s, t := slots[due[i]], slots[due[j]];
              s.hour < t.hour
              || (s.hour == t.hour && (s.minute < t.minute || (s.minute == t.minute && due[i] < due[j])))
    {
      assert AtMost(ClockKey(slots)(due[i]), ClockKey(slots)(due[j]));
    }
  }

  /**
   The due slots are those enabled, not yet fired today, whose time has come today and no longer
   ago than the grace period; each is listed once, in the order of the clock.
   */
  lemma DueSlotsExact(slots: seq<Slot>, now: int, grace: int)
    ensures var due := DueSlots(slots, now, grace);
            && (forall k :: k in due <==>
                  && 0 <= k < |slots| && slots[k].enabled
                  && var today := (now + slots[k].offset) / 86_400_000_000;
                  && slots[k].lastFiredOn != Some(today)
                  && FireAt(slots[k], today) <= now <= FireAt(slots[k], today) + grace)
            && InClockOrder(slots, due)
  {
    var due := DueSlots(slots, now, grace);
    DueSlotsAre(slots, now, grace);
    DueFromAscends(slots, now, grace, 0);
    assert forall i :: 0 <= i < |due| ==> due[i] in due;
    forall i, j | 0 <= i < j < |due| && ClockKey(slots)(due[i]) == ClockKey(slots)(due[j]) ensures due[i] < due[j] {
      TiesAscend(DueFrom(slots, now, grace, 0), ClockKey(slots), i, j);
    }
    ClockKeysOrder(slots, due);
  }

  // ---- upcoming --------------------------------------------------------------------------

  function CountUpTo(times: seq<int>, t: int): (n: nat)
    ensures n <= |times|
  {
    if times == [] then 0 else (if times[0] <= t then 1 else 0) + CountUpTo(times[1..], t)
  }

  /** How many firings of enabled slots lie after `from` and no later than `to`. */
  function Firings(slots: seq<Slot>, from: int, to: int): int {
    if slots == [] then 0
    else
      var own := if slots[0].enabled then LastDate(slots[0], to) - LastDate(slots[0], from) else 0;
      own + Firings(slots[1..], from, to)
  }

  function TimeKey(): int -> Key {
    (t: int) => Key(t, 0)
  }

  function Enabled(slots: seq<Slot>): seq<Slot> {
    if slots == [] then []
    else (if slots[0].enabled then [slots[0]] else []) + Enabled(slots[1..])
  }

  /** A slot's firing on one day, if it is still ahead of `now`. */
  function Ahead(s: Slot, now: int, day: nat): seq<int> {
    var fireAt := FireAt(s, LocalDate(s, now) + day);
    if fireAt > now then [fireAt] else []
  }

  /** One day's firings still ahead of `now`, slot by slot. */
  function DayTimes(enabled: seq<Slot>, now: int, day: nat): seq<int> {
    if enabled == [] then [] else Ahead(enabled[0], now, day) + DayTimes(enabled[1..], now, day)
  }

  /** The firings of the first `days` days, day by day. */
  function WindowTimes(enabled: seq<Slot>, now: int, days: nat): seq<int> {
    if days == 0 then [] else WindowTimes(enabled, now, days - 1) + DayTimes(enabled, now, days - 1)
  }

  function First(times: seq<int>, count: nat): seq<int> {
    if count < |times| then times[..count] else times
  }

  function Upcoming(slots: seq<Slot>, count: int, now: int): seq<int> {
    var enabled := Enabled(slots);
    if enabled == [] || count <= 0 then []
    else
      var sorted := SortBy(WindowTimes(enabled, now, count + 1), TimeKey());
      First(sorted, count)
  }

  lemma {:induction false} CountConcat(xs: seq<int>, ys: seq<int>, t: int)
    ensures CountUpTo(xs + ys, t) == CountUpTo(xs, t) + CountUpTo(ys, t)
  {
    if xs == [] {
      assert xs + ys == ys;
    } else {
      assert (xs + ys)[1..] == xs[1..] + ys;
      CountConcat(xs[1..], ys, t);
    }
  }

  /** The part of a slot's firings up to t that the window of `days` days covers. */
  function Covered(s: Slot, now: int, days: nat, t: int): int {
    var last := LocalDate(s, now) + days - 1;
    var seen := if LastDate(s, t) < last then LastDate(s, t) else last;
    if seen > LastDate(s, now) then seen - LastDate(s, now) else 0
  }

  function CoveredAll(enabled: seq<Slot>, now: int, days: nat, t: int): int {
    if enabled == [] then 0 else Covered(enabled[0], now, days, t) + CoveredAll(enabled[1..], now, days, t)
  }

  lemma CoveredStep(s: Slot, now: int, day: nat, t: int)
    ensures var fireAt := FireAt(s, LocalDate(s, now) + day);
            Covered(s, now, day + 1, t) == Covered(s, now, day, t) + if now < fireAt <= t then 1 else 0
  {
  }

  lemma {:induction false} DayCovered(enabled: seq<Slot>, now: int, day: nat, t: int)
    ensures CoveredAll(enabled, now, day + 1, t) == CoveredAll(enabled, now, day, t)
            + CountUpTo(DayTimes(enabled, now, day), t)
  {
    if enabled != [] {
      var s := enabled[0];
      CoveredStep(s, now, day, t);
      DayCovered(enabled[1..], now, day, t);
      CountConcat(Ahead(s, now, day), DayTimes(enabled[1..], now, day), t);
    }
  }

  lemma WindowGrows(enabled: seq<Slot>, now: int, day: nat, t: int)
    ensures CountUpTo(WindowTimes(enabled, now, day + 1), t)
            == CountUpTo(WindowTimes(enabled, now, day), t) + CountUpTo(DayTimes(enabled, now, day), t)
  {
    CountConcat(WindowTimes(enabled, now, day), DayTimes(enabled, now, day), t);
  }

  lemma {:induction false} WindowCovered(enabled: seq<Slot>, now: int, days: nat, t: int)
    ensures CountUpTo(WindowTimes(enabled, now, days), t) == CoveredAll(enabled, now, days, t)
  {
    if days == 0 {
      NothingCovered(enabled, now, t);
    } else {
      var day := days - 1;
      calc {
        CountUpTo(WindowTimes(enabled, now, days), t);
      ==  { WindowGrows(enabled, now, day, t); }
        CountUpTo(WindowTimes(enabled, now, day), t) + CountUpTo(DayTimes(enabled, now, day), t);
      ==  { WindowCovered(enabled, now, day, t); }
        CoveredAll(enabled, now, day, t) + CountUpTo(DayTimes(enabled, now, day), t);
      ==  { DayCovered(enabled, now, day, t); }
        CoveredAll(enabled, now, days, t);
      }
    }
  }

  lemma NothingCovered(enabled: seq<Slot>, now: int, t: int)
    ensures CoveredAll(enabled, now, 0, t) == 0
  {
  }

  /** With a window one day longer than `count`, what it leaves out lies past the first `count` firings. */
  lemma {:induction false} WindowSuffices(slots: seq<Slot>, now: int, count: nat, t: int)
    requires now <= t
    ensures var seen, all := CoveredAll(Enabled(slots), now, count + 1, t), Firings(slots, now, t);
            seen == all || (count <= seen && count <= all)
    ensures 0 <= CoveredAll(Enabled(slots), now, count + 1, t) && 0 <= Firings(slots, now, t)
  {
    if slots != [] {
      WindowSuffices(slots[1..], now, count, t);
      SlotWindowSuffices(slots[0], now, count, t);
      assert slots[0].enabled ==> Enabled(slots)[0] == slots[0] && Enabled(slots)[1..] == Enabled(slots[1..]);
      assert !slots[0].enabled ==> Enabled(slots) == Enabled(slots[1..]);
    }
  }

  lemma SlotWindowSuffices(s: Slot, now: int, count: nat, t: int)
    requires now <= t
    ensures var seen, all := Covered(s, now, count + 1, t), LastDate(s, t) - LastDate(s, now);
            0 <= seen && 0 <= all && (seen == all || (count <= seen && count <= all))
  {
  }

  /** k days hold at least k firings as soon as one slot is enabled. */
  lemma {:induction false} FiringsGrow(slots: seq<Slot>, now: int, k: nat)
    ensures Firings(slots, now, now + k * DAY) >= 0
    ensures Enabled(slots) != [] ==> Firings(slots, now, now + k * DAY) >= k
  {
    if slots != [] {
      FiringsGrow(slots[1..], now, k);
      assert LastDate(slots[0], now + k * DAY) == LastDate(slots[0], now) + k;
    }
  }

  lemma {:induction false} NoFirings(slots: seq<Slot>, now: int)
    ensures Firings(slots, now, now) == 0
  {
    if slots != [] {
      NoFirings(slots[1..], now);
    }
  }

  lemma CountRemoved(xs: seq<int>, i: nat, t: int)
    requires i < |xs|
    ensures CountUpTo(xs, t) == CountUpTo(RemoveAt(xs, i), t) + if xs[i] <= t then 1 else 0
  {
    assert xs == xs[..i] + ([xs[i]] + xs[i + 1..]);
    CountConcat(xs[..i], [xs[i]] + xs[i + 1..], t);
    CountConcat(xs[..i], xs[i + 1..], t);
    assert ([xs[i]] + xs[i + 1..])[1..] == xs[i + 1..];
  }

  lemma {:induction false} CountPermuted(xs: seq<int>, ys: seq<int>, t: int)
    requires multiset(xs) == multiset(ys)
    ensures CountUpTo(xs, t) == CountUpTo(ys, t)
    decreases |xs|
  {
    if xs == [] {
      assert |multiset(ys)| == |multiset(xs)|;
    } else {
      assert xs[0] in multiset(xs);
      assert xs[0] in multiset(ys);
      var i :| 0 <= i < |ys| && ys[i] == xs[0];
      RemoveAtKeepsRest(xs, 0);
      RemoveAtKeepsRest(ys, i);
      SameRest(multiset(RemoveAt(xs, 0)), multiset(RemoveAt(ys, i)), xs[0]);
      CountRemoved(xs, 0, t);
      CountRemoved(ys, i, t);
      CountPermuted(RemoveAt(xs, 0), RemoveAt(ys, i), t);
    }
  }

  lemma SameRest(a: multiset<int>, b: multiset<int>, x: int)
    requires a + multiset{x} == b + multiset{x}
    ensures a == b
  {
    assert a == (a + multiset{x}) - multiset{x};
    assert b == (b + multiset{x}) - multiset{x};
  }

  /** In an ordered list the entries up to t are the first ones. */
  lemma {:induction false} CountOrdered(xs: seq<int>, t: int, i: nat)
    requires Ordered(xs, TimeKey()) && i < |xs|
    ensures xs[i] <= t <==> i < CountUpTo(xs, t)
  {
    if i > 0 {
      assert Ordered(xs[1..], TimeKey());
      assert AtMost(TimeKey()(xs[0]), TimeKey()(xs[i]));
      CountOrdered(xs[1..], t, i - 1);
    } else if xs[0] > t {
      CountNone(xs, t);
    }
  }

  lemma {:induction false} CountNone(xs: seq<int>, t: int)
    requires Ordered(xs, TimeKey()) && xs != [] && xs[0] > t
    ensures CountUpTo(xs, t) == 0
  {
    if |xs| > 1 {
      assert AtMost(TimeKey()(xs[0]), TimeKey()(xs[1]));
      CountNone(xs[1..], t);
    }
  }

  /** Dropping the end of an ordered list caps the count. */
  lemma {:induction false} CountPrefix(xs: seq<int>, n: nat, t: int)
    requires Ordered(xs, TimeKey()) && n <= |xs|
    ensures CountUpTo(xs[..n], t) == if CountUpTo(xs, t) < n then CountUpTo(xs, t) else n
  {
    if n > 0 {
      assert xs[..n][1..] == xs[1..][..n - 1];
      assert Ordered(xs[1..], TimeKey());
      CountPrefix(xs[1..], n - 1, t);
      if xs[0] > t {
        CountNone(xs, t);
        if n > 1 {
          CountNone(xs[..n], t);
        }
      }
    }
  }

  lemma UpcomingCount(slots: seq<Slot>, count: nat, now: int, t: int)
    requires Enabled(slots) != [] && now <= t
    ensures var times := Upcoming(slots, count, now);
            CountUpTo(times, t) == if Firings(slots, now, t) < count then Firings(slots, now, t) else count
  {
    var enabled := Enabled(slots);
    var window := WindowTimes(enabled, now, count + 1);
    var sorted := SortBy(window, TimeKey());
    SortByOrdered(window, TimeKey());
    SortByPermutes(window, TimeKey());
    CountPermuted(sorted, window, t);
    WindowCovered(enabled, now, count + 1, t);
    WindowSuffices(slots, now, count, t);
    CountFirst(sorted, count, t);
  }

  lemma CountFirst(xs: seq<int>, n: nat, t: int)
    requires Ordered(xs, TimeKey())
    ensures CountUpTo(First(xs, n), t) == if CountUpTo(xs, t) < n then CountUpTo(xs, t) else n
  {
    if n < |xs| {
      CountPrefix(xs, n, t);
    }
  }

  lemma LateEnough(slots: seq<Slot>, now: int, count: nat) returns (t: int)
    requires Enabled(slots) != []
    ensures now <= t && Firings(slots, now, t) >= count
  {
    t := now + count * DAY;
    FiringsGrow(slots, now, count);
  }

  lemma UpcomingAtMost(slots: seq<Slot>, count: nat, now: int)
    ensures |Upcoming(slots, count, now)| <= count
  {
  }

  lemma UpcomingLength(slots: seq<Slot>, count: nat, now: int)
    requires Enabled(slots) != []
    ensures |Upcoming(slots, count, now)| == count
  {
    var t := LateEnough(slots, now, count);
    UpcomingAtMost(slots, count, now);
    EnoughCounted(slots, count, now, t, Upcoming(slots, count, now));
  }

  lemma EnoughCounted(slots: seq<Slot>, count: nat, now: int, t: int, times: seq<int>)
    requires Enabled(slots) != [] && now <= t && times == Upcoming(slots, count, now)
    requires Firings(slots, now, t) >= count
    ensures count <= |times|
  {
    UpcomingCount(slots, count, now, t);
    assert CountUpTo(times, t) == count;
  }

  /**
   `upcoming` is the `count` least firings after now, with multiplicity, of all enabled slots
   together, for ever: it is ordered, it has exactly `count` entries, and up to any instant it holds
   as many entries as there are firings, capped at `count`.
   */
  lemma UpcomingExact(slots: seq<Slot>, count: nat, now: int)
    requires Enabled(slots) != []
    ensures var times := Upcoming(slots, count, now);
            && Ordered(times, TimeKey())
            && |times| == count
            && (forall i :: 0 <= i < count ==> now < times[i])
            && (forall t :: now <= t ==>
                  CountUpTo(times, t) == if Firings(slots, now, t) < count then Firings(slots, now, t) else count)
  {
    var times := Upcoming(slots, count, now);
    UpcomingLength(slots, count, now);
    SortByOrdered(WindowTimes(Enabled(slots), now, count + 1), TimeKey());
    forall t | now <= t
      ensures CountUpTo(times, t) == if Firings(slots, now, t) < count then Firings(slots, now, t) else count
    {
      UpcomingCount(slots, count, now, t);
    }
    NoFirings(slots, now);
    forall i | 0 <= i < count ensures now < times[i] {
      CountOrdered(times, now, i);
    }
  }

  lemma {:induction false} EnabledAre(slots: seq<Slot>)
    ensures forall s :: s in Enabled(slots) <==> s in slots && s.enabled
  {
    if slots != [] {
      EnabledAre(slots[1..]);
      assert slots == [slots[0]] + slots[1..];
    }
  }

  lemma {:induction false} DayTimesFire(enabled: seq<Slot>, now: int, day: nat, t: int) returns (s: Slot, date: int)
    requires t in DayTimes(enabled, now, day)
    ensures s in enabled && t == FireAt(s, date)
  {
    if t in DayTimes(enabled[1..], now, day) {
      s, date := DayTimesFire(enabled[1..], now, day, t);
    } else {
      s, date := enabled[0], LocalDate(enabled[0], now) + day;
    }
  }

  lemma InEither<T>(xs: seq<T>, ys: seq<T>, x: T)
    requires x in xs + ys
    ensures x in xs || x in ys
  {
  }

  lemma {:induction false} WindowTimesOfADay(enabled: seq<Slot>, now: int, days: nat, t: int) returns (day: nat)
    requires days > 0 && t in WindowTimes(enabled, now, days)
    ensures t in DayTimes(enabled, now, day)
  {
    day := days - 1;
    InEither(WindowTimes(enabled, now, day), DayTimes(enabled, now, day), t);
    if t !in DayTimes(enabled, now, day) {
      assert day > 0;
      day := WindowTimesOfADay(enabled, now, day, t);
    }
  }

  lemma UpcomingInWindow(slots: seq<Slot>, count: int, now: int, t: int)
    requires t in Upcoming(slots, count, now)
    ensures count >= 0 && t in WindowTimes(Enabled(slots), now, count + 1)
  {
    var window := WindowTimes(Enabled(slots), now, count + 1);
    SortByPermutes(window, TimeKey());
    assert t in SortBy(window, TimeKey());
  }

  /** Every entry is a firing of an enabled slot. */
  lemma UpcomingAreFirings(slots: seq<Slot>, count: int, now: int, t: int) returns (s: Slot, date: int)
    requires t in Upcoming(slots, count, now)
    ensures s in slots && s.enabled && t == FireAt(s, date)
  {
    UpcomingInWindow(slots, count, now, t);
    var day := WindowTimesOfADay(Enabled(slots), now, count + 1, t);
    s, date := DayTimesFire(Enabled(slots), now, day, t);
    EnabledAre(slots);
  }

  lemma {:induction false} AbsentIsNotCounted(times: seq<int>, t: int)
    requires t !in times
    ensures CountUpTo(times, t) == CountUpTo(times, t - 1)
  {
    if times != [] {
      AbsentIsNotCounted(times[1..], t);
    }
  }

  lemma {:induction false} FiringsOnward(slots: seq<Slot>, a: int, b: int, c: int)
    requires b <= c
    ensures Firings(slots, a, b) <= Firings(slots, a, c)
  {
    if slots != [] {
      FiringsOnward(slots[1..], a, b, c);
    }
  }

  lemma {:induction false} FiringIsCounted(slots: seq<Slot>, now: int, k: nat, date: int)
    requires k < |slots| && slots[k].enabled
    ensures var t := FireAt(slots[k], date); Firings(slots, now, t) > Firings(slots, now, t - 1)
  {
    var t := FireAt(slots[k], date);
    if k > 0 {
      assert slots[1..][k - 1] == slots[k];
      FiringIsCounted(slots[1..], now, k - 1, date);
    } else {
      LastDateCounts(slots[0], t, date);
      LastDateCounts(slots[0], t - 1, date);
      FiringsOnward(slots[1..], now, t - 1, t);
    }
  }

  /** No firing of an enabled slot between now and the last entry is left out. */
  lemma NothingSkipped(slots: seq<Slot>, count: nat, now: int, k: nat, date: int)
    requires k < |slots| && slots[k].enabled && count > 0 && now < FireAt(slots[k], date)
    ensures var times := Upcoming(slots, count, now);
            |times| == count && (FireAt(slots[k], date) <= times[count - 1] ==> FireAt(slots[k], date) in times)
  {
    var times, t := Upcoming(slots, count, now), FireAt(slots[k], date);
    EnabledAre(slots);
    assert slots[k] in Enabled(slots);
    UpcomingExact(slots, count, now);
    if t !in times {
      AbsentIsNotCounted(times, t);
      FiringIsCounted(slots, now, k, date);
      CountOrdered(times, t, count - 1);
    }
  }

  /** An enabled slot fires at this instant. */
  ghost predicate IsFiring(slots: seq<Slot>, t: int) {
    exists s, date :: s in slots && s.enabled && t == FireAt(s, date)
  }

  /** The first `count` firings of enabled slots after `now`, in order, if there is an enabled slot; none skipped. */
  ghost predicate AreNextFirings(times: seq<int>, slots: seq<Slot>, count: int, now: int) {
    && |times| == (if count <= 0 || (forall s :: s in slots ==> !s.enabled) then 0 else count)
    && (forall i, j :: 0 <= i < j < |times| ==> times[i] <= times[j])
    && (forall i :: 0 <= i < |times| ==> now < times[i] && IsFiring(slots, times[i]))
    && (forall s, date :: s in slots && s.enabled && count > 0 && now < FireAt(s, date) <= times[count - 1] ==>
          FireAt(s, date) in times)
  }

  lemma UpcomingInFull(slots: seq<Slot>, count: int, now: int)
    ensures AreNextFirings(Upcoming(slots, count, now), slots, count, now)
  {
    var times := Upcoming(slots, count, now);
    EnabledAre(slots);
    if Enabled(slots) == [] || count <= 0 {
      NothingUpcoming(slots, count, now);
      assert forall s :: s in slots && s.enabled ==> s in Enabled(slots);
    } else {
      assert Enabled(slots)[0] in Enabled(slots);
      UpcomingExact(slots, count, now);
      TimesInOrder(times);
      forall i | 0 <= i < |times| ensures IsFiring(slots, times[i]) {
        var s, date := UpcomingAreFirings(slots, count, now, times[i]);
      }
      forall s, date | s in slots && s.enabled && now < FireAt(s, date) <= times[count - 1]
        ensures FireAt(s, date) in times
      {
        var k :| 0 <= k < |slots| && slots[k] == s;
        NothingSkipped(slots, count, now, k, date);
      }
    }
  }

  lemma TimesInOrder(times: seq<int>)
    requires Ordered(times, TimeKey())
    ensures forall i, j :: 0 <= i < j < |times| ==> times[i] <= times[j]
  {
    forall i, j | 0 <= i < j < |times| ensures times[i] <= times[j] {
      assert AtMost(TimeKey()(times[i]), TimeKey()(times[j]));
    }
  }

  lemma {:induction false} DayTimesConcat(xs: seq<Slot>, ys: seq<Slot>, now: int, day: nat)
    ensures DayTimes(xs + ys, now, day) == DayTimes(xs, now, day) + DayTimes(ys, now, day)
  {
    if xs == [] {
      assert xs + ys == ys;
    } else {
      assert (xs + ys)[0] == xs[0] && (xs + ys)[1..] == xs[1..] + ys;
      DayTimesConcat(xs[1..], ys, now, day);
    }
  }

  lemma DayTimesStep(enabled: seq<Slot>, i: nat, now: int, day: nat)
    requires i < |enabled|
    ensures DayTimes(enabled[..i + 1], now, day) == DayTimes(enabled[..i], now, day) + Ahead(enabled[i], now, day)
  {
    assert enabled[..i + 1] == enabled[..i] + [enabled[i]];
    DayTimesConcat(enabled[..i], [enabled[i]], now, day);
    assert DayTimes([enabled[i]][1..], now, day) == [];
  }

  lemma NothingUpcoming(slots: seq<Slot>, count: int, now: int)
    requires Enabled(slots) == [] || count <= 0
    ensures Upcoming(slots, count, now) == []
  {
  }

  lemma UpcomingFromWindow(slots: seq<Slot>, count: int, now: int, times: seq<int>)
    requires Enabled(slots) != [] && count > 0 && times == WindowTimes(Enabled(slots), now, count + 1)
    ensures Upcoming(slots, count, now) == First(SortBy(times, TimeKey()), count)
  {
  }

  /** One day of `upcoming`'s walk. */
  method WalkDay(enabled: seq<Slot>, now: int, day: nat) returns (times: seq<int>)
    ensures times == DayTimes(enabled, now, day)
  {
    times := [];
    for i := 0 to |enabled|
      invariant times == DayTimes(enabled[..i], now, day)
    {
      var slot := enabled[i];
      var fireAt := FireAt(slot, LocalDate(slot, now) + day);
      DayTimesStep(enabled, i, now, day);
      if fireAt > now {
        times := times + [fireAt];
      }
    }
    assert enabled[..|enabled|] == enabled;
  }

  /** The walk itself. */
  method WalkDays(enabled: seq<Slot>, now: int, days: nat) returns (times: seq<int>)
    ensures times == WindowTimes(enabled, now, days)
  {
    times := [];
    for day := 0 to days
      invariant times == WindowTimes(enabled, now, day)
    {
      var today := WalkDay(enabled, now, day);
      times := times + today;
    }
  }

  /** `upcoming`: walk forward a day at a time over the enabled slots, then sort and cut. */
  method ComputeUpcoming(slots: seq<Slot>, count: int, now: int) returns (soonest: seq<int>)
    ensures soonest == Upcoming(slots, count, now)
    ensures AreNextFirings(soonest, slots, count, now)
  {
    var enabled := Enabled(slots);
    if enabled == [] || count <= 0 {
      NothingUpcoming(slots, count, now);
      soonest := [];
    } else {
      var times := WalkDays(enabled, now, count + 1);
      UpcomingFromWindow(slots, count, now, times);
      soonest := First(SortBy(times, TimeKey()), count);
    }
    UpcomingInFull(slots, count, now);
  }
}
