/**
 * The plot endpoints: expansion of a schedule's calendar into its next run
 * times, the 30-day schedule-occupancy histogram, the per-schedule timeline,
 * and the plot_kind dispatch of the plot page.
 */
module PlotHandlers {
  import opened Wrappers
  import opened Text
  import opened ScheduleSpecs
  import opened BasicHandlers

  const PlotKindScheduleCount := "schedule-count"
  const PlotKindScheduleTimeline := "schedule-timeline"
  const PlotKindUserPulse := "user-pulse"

  const SecondsPerDay := 86400

  // ---------------------------------------------------------------------------
  // Calendar expansion (getNextActionTimesNoJitter)
  // ---------------------------------------------------------------------------

  /** The loop `for t := Start; t <= End; t += Step { append t }`. */
  method ExpandRange(r: ScheduleRange) returns (vs: seq<int>)
    requires Expandable(r)
    ensures vs == RangeValues(r)
  {
    vs := [];
    var t := r.start;
    while t <= r.end
      invariant Expandable(ScheduleRange(t, r.end, r.step))
      invariant vs + RangeValues(ScheduleRange(t, r.end, r.step)) == RangeValues(r)
      decreases r.end - t
    {
      var rest := RangeValues(ScheduleRange(t + r.step, r.end, r.step));
      assert RangeValues(ScheduleRange(t, r.end, r.step)) == [t] + rest;
      assert vs + ([t] + rest) == (vs + [t]) + rest;
      vs := vs + [t];
      t := t + r.step;
    }
  }

  /** Midnight (UTC) of the day containing `now`. */
  function DayStart(now: int): (d: int)
    ensures d <= now < d + SecondsPerDay && d % SecondsPerDay == 0
  {
    now - now % SecondsPerDay
  }

  /** The run times of one minute: `base` plus each second. */
  function SecondTimes(base: int, secs: seq<int>): (ts: seq<int>)
    ensures |ts| == |secs|
    ensures forall i :: 0 <= i < |secs| ==> ts[i] == base + secs[i]
  {
    seq(|secs|, i requires 0 <= i < |secs| => base + secs[i])
  }

  /** The run times of one hour starting at `base`, minute by minute. */
  function MinuteTimes(base: int, mins: seq<int>, secs: seq<int>): seq<int>
  {
    if mins == [] then []
    else MinuteTimes(base, mins[..|mins| - 1], secs) + SecondTimes(base + mins[|mins| - 1] * 60, secs)
  }

  /** The run times of one day starting at `base`, hour by hour. */
  function HourTimes(base: int, hours: seq<int>, mins: seq<int>, secs: seq<int>): seq<int>
  {
    if hours == [] then []
    else HourTimes(base, hours[..|hours| - 1], mins, secs) + MinuteTimes(base + hours[|hours| - 1] * 3600, mins, secs)
  }

  /** The run times of `ndays` days from midnight `day0`, day by day. */
  function DayTimes(day0: int, ndays: nat, hours: seq<int>, mins: seq<int>, secs: seq<int>): seq<int>
  {
    if ndays == 0 then []
    else DayTimes(day0, ndays - 1, hours, mins, secs) + HourTimes(day0 + (ndays - 1) * SecondsPerDay, hours, mins, secs)
  }

  /** What getNextActionTimesNoJitter needs to return at all: a calendar whose first ranges exist and end. */
  predicate Walkable(spec: ScheduleSpec)
  {
    |spec.calendars| > 0
    && |spec.calendars[0].second| > 0 && Expandable(spec.calendars[0].second[0])
    && |spec.calendars[0].minute| > 0 && Expandable(spec.calendars[0].minute[0])
    && |spec.calendars[0].hour| > 0 && Expandable(spec.calendars[0].hour[0])
  }

  function Seconds(spec: ScheduleSpec): seq<int>
    requires Walkable(spec)
  {
    RangeValues(spec.calendars[0].second[0])
  }

  function Minutes(spec: ScheduleSpec): seq<int>
    requires Walkable(spec)
  {
    RangeValues(spec.calendars[0].minute[0])
  }

  function Hours(spec: ScheduleSpec): seq<int>
    requires Walkable(spec)
  {
    RangeValues(spec.calendars[0].hour[0])
  }

  /**
   * getNextActionTimesNoJitter: for each of `ndays` days from today, every
   * hour, minute and second of the first calendar's first ranges, in that
   * nesting order.
   */
  method NextActionTimesNoJitter(spec: ScheduleSpec, ndays: nat, now: int) returns (nexts: seq<int>)
    requires Walkable(spec)
    ensures nexts == DayTimes(DayStart(now), ndays, Hours(spec), Minutes(spec), Seconds(spec))
    ensures |nexts| == ndays * (|Hours(spec)| * (|Minutes(spec)| * |Seconds(spec)|))
  {
    var c := spec.calendars[0];
    var seconds := ExpandRange(c.second[0]);
    var minutes := ExpandRange(c.minute[0]);
    var hours := ExpandRange(c.hour[0]);
    var day0 := DayStart(now);
    nexts := [];
    var nday := 0;
    while nday < ndays
      invariant 0 <= nday <= ndays
      invariant nexts == DayTimes(day0, nday, hours, minutes, seconds)
    {
      nexts := AppendDay(nexts, day0 + nday * SecondsPerDay, hours, minutes, seconds);
      nday := nday + 1;
    }
    DayTimesCount(day0, ndays, hours, minutes, seconds);
  }

  /** The hour loop of one day. */
  method AppendDay(nexts: seq<int>, base: int, hours: seq<int>, minutes: seq<int>, seconds: seq<int>)
    returns (r: seq<int>)
    ensures r == nexts + HourTimes(base, hours, minutes, seconds)
  {
    r := nexts;
    var hi := 0;
    ghost var done: seq<int> := [];
    while hi < |hours|
      invariant 0 <= hi <= |hours|
      invariant done == HourTimes(base, hours[..hi], minutes, seconds)
      invariant r == nexts + done
    {
      ghost var step := MinuteTimes(base + hours[hi] * 3600, minutes, seconds);
      assert HourTimes(base, hours[..hi + 1], minutes, seconds) == done + step by {
        assert hours[..hi + 1][..hi] == hours[..hi];
      }
      ConcatAssoc(nexts, done, step);
      r := AppendHour(r, base + hours[hi] * 3600, minutes, seconds);
      done := done + step;
      hi := hi + 1;
    }
    assert hours[..hi] == hours;
  }

  /** The minute loop of one hour. */
  method AppendHour(nexts: seq<int>, base: int, minutes: seq<int>, seconds: seq<int>) returns (r: seq<int>)
    ensures r == nexts + MinuteTimes(base, minutes, seconds)
  {
    r := nexts;
    var mi := 0;
    while mi < |minutes|
      invariant 0 <= mi <= |minutes|
      invariant r == nexts + MinuteTimes(base, minutes[..mi], seconds)
    {
      assert minutes[..mi + 1][..mi] == minutes[..mi];
      r := AppendMinute(r, base + minutes[mi] * 60, seconds);
      mi := mi + 1;
    }
    assert minutes[..mi] == minutes;
  }

  /** The second loop of one minute. */
  method AppendMinute(nexts: seq<int>, base: int, seconds: seq<int>) returns (r: seq<int>)
    ensures r == nexts + SecondTimes(base, seconds)
  {
    r := nexts;
    var si := 0;
    while si < |seconds|
      invariant 0 <= si <= |seconds|
      invariant r == nexts + SecondTimes(base, seconds[..si])
    {
      assert SecondTimes(base, seconds[..si + 1]) == SecondTimes(base, seconds[..si]) + [base + seconds[si]];
      r := r + [base + seconds[si]];
      si := si + 1;
    }
    assert seconds[..si] == seconds;
  }

  lemma {:induction false} MulPred(n: int, p: int)
    ensures (n - 1) * p + p == n * p
  {
  }

  /** A count made of n - 1 blocks of `per` and one more block is n blocks. */
  lemma CountStep(total: int, prev: int, last: int, n: int, per: int)
    requires prev == (n - 1) * per && last == per && total == prev + last
    ensures total == n * per
  {
    MulPred(n, per);
  }

  lemma {:induction false} MinuteTimesCount(base: int, mins: seq<int>, secs: seq<int>)
    ensures |MinuteTimes(base, mins, secs)| == |mins| * |secs|
  {
    if mins != [] {
      MinuteTimesCount(base, mins[..|mins| - 1], secs);
      MulPred(|mins|, |secs|);
    }
  }

  lemma {:induction false} HourTimesCount(base: int, hours: seq<int>, mins: seq<int>, secs: seq<int>)
    ensures |HourTimes(base, hours, mins, secs)| == |hours| * (|mins| * |secs|)
  {
    if hours != [] {
      HourTimesCount(base, hours[..|hours| - 1], mins, secs);
      MinuteTimesCount(base + hours[|hours| - 1] * 3600, mins, secs);
      MulPred(|hours|, |mins| * |secs|);
    }
  }

  /** There are exactly ndays·|hours|·|minutes|·|seconds| run times. */
  lemma {:induction false} DayTimesCount(day0: int, ndays: nat, hours: seq<int>, mins: seq<int>, secs: seq<int>)
    ensures |DayTimes(day0, ndays, hours, mins, secs)| == ndays * (|hours| * (|mins| * |secs|))
  {
    if ndays > 0 {
      var last := day0 + (ndays - 1) * SecondsPerDay;
      DayTimesCount(day0, ndays - 1, hours, mins, secs);
      HourTimesCount(last, hours, mins, secs);
      CountStep(|DayTimes(day0, ndays, hours, mins, secs)|, |DayTimes(day0, ndays - 1, hours, mins, secs)|,
                |HourTimes(last, hours, mins, secs)|, ndays, |hours| * (|mins| * |secs|));
    }
  }

  // ---------------------------------------------------------------------------
  // The run times come out in chronological order
  // ---------------------------------------------------------------------------

  predicate Increasing(s: seq<int>)
  {
    forall i, j :: 0 <= i < j < |s| ==> s[i] < s[j]
  }

  predicate Within(s: seq<int>, lo: int, hi: int)
  {
    forall i :: 0 <= i < |s| ==> lo <= s[i] < hi
  }

  lemma {:induction false} AppendIncreasing(a: seq<int>, b: seq<int>, lo: int, mid: int, hi: int)
    requires Increasing(a) && Within(a, lo, mid)
    requires Increasing(b) && Within(b, mid, hi)
    requires lo <= mid <= hi
    ensures Increasing(a + b) && Within(a + b, lo, hi)
  {
  }

  /** A range inside [lo, hi) expands to strictly increasing values inside [lo, hi). */
  lemma {:induction false} RangeIncreasingWithin(r: ScheduleRange, lo: int, hi: int)
    requires Expandable(r) && lo <= r.start && r.end < hi
    ensures Increasing(RangeValues(r)) && Within(RangeValues(r), lo, hi)
  {
    RangeValuesAt(r);
    var vs := RangeValues(r);
    if r.step > 0 {
      RangeValuesIncreasing(r);
      forall i | 0 <= i < |vs|
        ensures lo <= vs[i] < hi
      {
        MulMono(0, i, r.step);
      }
    } else {
      assert vs == [];
    }
  }

  /** One past the last value, scaled by `unit`; 0 for no values. */
  function Reach(vs: seq<int>, unit: int): int
  {
    if vs == [] then 0 else (vs[|vs| - 1] + 1) * unit
  }

  lemma {:induction false} MinuteTimesOrdered(base: int, mins: seq<int>, secs: seq<int>)
    requires Increasing(mins) && Within(mins, 0, 60)
    requires Increasing(secs) && Within(secs, 0, 60)
    ensures Increasing(MinuteTimes(base, mins, secs))
    ensures Within(MinuteTimes(base, mins, secs), base, base + Reach(mins, 60))
    ensures Reach(mins, 60) <= 3600
  {
    if mins != [] {
      var init := mins[..|mins| - 1];
      var m := mins[|mins| - 1];
      MinuteTimesOrdered(base, init, secs);
      assert Reach(init, 60) <= m * 60 by {
        if init != [] {
          assert init[|init| - 1] < m;
        }
      }
      AppendIncreasing(MinuteTimes(base, init, secs), SecondTimes(base + m * 60, secs),
        base, base + m * 60, base + (m + 1) * 60);
    }
  }

  lemma {:induction false} HourTimesOrdered(base: int, hours: seq<int>, mins: seq<int>, secs: seq<int>)
    requires Increasing(hours) && Within(hours, 0, 24)
    requires Increasing(mins) && Within(mins, 0, 60)
    requires Increasing(secs) && Within(secs, 0, 60)
    ensures Increasing(HourTimes(base, hours, mins, secs))
    ensures Within(HourTimes(base, hours, mins, secs), base, base + Reach(hours, 3600))
    ensures Reach(hours, 3600) <= SecondsPerDay
  {
    if hours != [] {
      var init := hours[..|hours| - 1];
      var h := hours[|hours| - 1];
      HourTimesOrdered(base, init, mins, secs);
      MinuteTimesOrdered(base + h * 3600, mins, secs);
      assert Reach(init, 3600) <= h * 3600 by {
        if init != [] {
          assert init[|init| - 1] < h;
        }
      }
      AppendIncreasing(HourTimes(base, init, mins, secs), MinuteTimes(base + h * 3600, mins, secs),
        base, base + h * 3600, base + (h + 1) * 3600);
    }
  }

  lemma {:induction false} DayTimesOrdered(day0: int, ndays: nat, hours: seq<int>, mins: seq<int>, secs: seq<int>)
    requires Increasing(hours) && Within(hours, 0, 24)
    requires Increasing(mins) && Within(mins, 0, 60)
    requires Increasing(secs) && Within(secs, 0, 60)
    ensures Increasing(DayTimes(day0, ndays, hours, mins, secs))
    ensures Within(DayTimes(day0, ndays, hours, mins, secs), day0, day0 + ndays * SecondsPerDay)
  {
    if ndays > 0 {
      var base := day0 + (ndays - 1) * SecondsPerDay;
      assert day0 <= base && base + SecondsPerDay == day0 + ndays * SecondsPerDay by {
        MulMono(0, ndays - 1, SecondsPerDay);
        MulPred(ndays, SecondsPerDay);
      }
      var prev := DayTimes(day0, ndays - 1, hours, mins, secs);
      var last := HourTimes(base, hours, mins, secs);
      assert DayTimes(day0, ndays, hours, mins, secs) == prev + last;
      assert Increasing(prev) && Within(prev, day0, base) by {
        DayTimesOrdered(day0, ndays - 1, hours, mins, secs);
      }
      assert Increasing(last) && Within(last, base, base + SecondsPerDay) by {
        HourTimesOrdered(base, hours, mins, secs);
        WithinWiden(last, base, base + Reach(hours, 3600), base + SecondsPerDay);
      }
      AppendIncreasing(prev, last, day0, base, base + SecondsPerDay);
    }
  }

  lemma {:induction false} WithinWiden(a: seq<int>, lo: int, hi: int, hi': int)
    requires Within(a, lo, hi) && hi <= hi'
    ensures Within(a, lo, hi')
  {
  }

  /**
   * When the calendar's seconds and minutes lie in 0..59 and its hours in
   * 0..23, the run times are strictly increasing and fall within the ndays
   * days starting today.
   */
  lemma {:induction false} NextActionTimesChronological(spec: ScheduleSpec, ndays: nat, now: int)
    requires Walkable(spec)
    requires var c := spec.calendars[0];
      0 <= c.second[0].start && c.second[0].end < 60
      && 0 <= c.minute[0].start && c.minute[0].end < 60
      && 0 <= c.hour[0].start && c.hour[0].end < 24
    ensures var ts := DayTimes(DayStart(now), ndays, Hours(spec), Minutes(spec), Seconds(spec));
      Increasing(ts) && Within(ts, DayStart(now), DayStart(now) + ndays * SecondsPerDay)
  {
    var c := spec.calendars[0];
    RangeIncreasingWithin(c.second[0], 0, 60);
    RangeIncreasingWithin(c.minute[0], 0, 60);
    RangeIncreasingWithin(c.hour[0], 0, 24);
    DayTimesOrdered(DayStart(now), ndays, Hours(spec), Minutes(spec), Seconds(spec));
  }

  // ---------------------------------------------------------------------------
  // The schedule-count histogram
  // ---------------------------------------------------------------------------

  const BinSize := SecondsPerDay
  const NBins := 30

  /** What the histogram keeps of a listed schedule. */
  datatype ScheduleRow = ScheduleRow(requestKind: string, startTS: int, endTS: int)

  /** A schedule's request kind is the text before the first space of its ID. */
  function RowOf(e: ScheduleEntry): ScheduleRow
  {
    ScheduleRow(Split(e.id, ' ')[0], e.spec.startAt, e.spec.endAt)
  }

  /** The listing loop: one row per entry, stopping at exhaustion or the first error. */
  method ScheduleRows(steps: seq<ListStep>) returns (data: seq<ScheduleRow>)
    ensures |data| == |Collected(steps)|
    ensures forall k :: 0 <= k < |data| ==> data[k] == RowOf(Collected(steps)[k])
  {
    data := [];
    var i := 0;
    while i < |steps|
      invariant 0 <= i <= |steps| && |data| == i
      invariant forall k :: 0 <= k < i ==> steps[k].Item? && data[k] == RowOf(steps[k].entry)
    {
      if steps[i].IterError? {
        break;
      }
      data := data + [RowOf(steps[i].entry)];
      i := i + 1;
    }
    var es := Collected(steps);
    if |es| < i {
      assert false;
    }
    if |es| > i {
      assert false;
    }
  }

  /**
   * Whether a schedule is counted in the bin starting at `x`. A schedule with
   * no end holds Go's zero time as its EndTS.
   */
  predicate RunsInBin(s: ScheduleRow, x: int)
  {
    var binUpper := x + BinSize;
    var startsBefore := s.startTS < x;
    var doesNotEnd := s.endTS == ZeroTimeUnix;
    var runsIn := s.startTS <= x && s.endTS > x;
    var runsOut := s.startTS < binUpper && s.endTS >= x;
    var enclosed := s.startTS >= x && s.endTS <= binUpper;
    (startsBefore && doesNotEnd) || runsIn || runsOut || enclosed
  }

  /** A schedule without an end is counted in every bin after year 1. */
  lemma {:induction false} EndlessCountedEverywhere(s: ScheduleRow, x: int)
    requires s.endTS == ZeroTimeUnix && x >= ZeroTimeUnix
    ensures RunsInBin(s, x)
  {
  }

  /** A schedule without a start but with an end E is counted exactly in the bins starting at or before E. */
  lemma {:induction false} UnstartedCountedUntilEnd(s: ScheduleRow, x: int)
    requires s.startTS == ZeroTimeUnix && s.endTS != ZeroTimeUnix && x > ZeroTimeUnix
    ensures RunsInBin(s, x) <==> s.endTS >= x
  {
  }

  /** How many schedules of kind `rk` are counted in the bin starting at `x`. */
  function KindHits(data: seq<ScheduleRow>, rk: string, x: int): nat
  {
    if data == [] then 0
    else
      var s := data[|data| - 1];
      KindHits(data[..|data| - 1], rk, x) + (if s.requestKind == rk && RunsInBin(s, x) then 1 else 0)
  }

  /** How many schedules of kind `rk` there are. */
  function KindCount(data: seq<ScheduleRow>, rk: string): nat
  {
    if data == [] then 0
    else KindCount(data[..|data| - 1], rk) + (if data[|data| - 1].requestKind == rk then 1 else 0)
  }

  /** No bin counts more schedules of a kind than there are. */
  lemma {:induction false} KindHitsAtMostKindCount(data: seq<ScheduleRow>, rk: string, x: int)
    ensures KindHits(data, rk, x) <= KindCount(data, rk)
  {
    if data != [] {
      KindHitsAtMostKindCount(data[..|data| - 1], rk, x);
    }
  }

  /** A bin's count for a kind is positive exactly when some schedule of that kind is counted in it. */
  lemma {:induction false} KindHitsPositive(data: seq<ScheduleRow>, rk: string, x: int)
    ensures KindHits(data, rk, x) > 0 <==>
      exists j :: 0 <= j < |data| && data[j].requestKind == rk && RunsInBin(data[j], x)
  {
    if data != [] {
      var init := data[..|data| - 1];
      KindHitsPositive(init, rk, x);
      assert forall j :: 0 <= j < |init| ==> init[j] == data[j];
    }
  }

  /**
   * The schedule-count branch of handleGetPlotData: 30 daily bins from
   * today's midnight, and per request kind the number of schedules counted in
   * each bin. A kind has an entry only once one of its schedules is counted
   * somewhere.
   */
  method ScheduleCounts(data: seq<ScheduleRow>, now: int) returns (abscissa: seq<int>, counts: map<string, seq<int>>)
    ensures |abscissa| == NBins
    ensures forall i :: 0 <= i < NBins ==> abscissa[i] == DayStart(now) + i * BinSize
    ensures forall rk :: rk in counts <==>
      exists i, j :: 0 <= i < NBins && 0 <= j < |data| && data[j].requestKind == rk && RunsInBin(data[j], abscissa[i])
    ensures forall rk :: rk in counts ==> |counts[rk]| == NBins
    ensures forall rk, i :: rk in counts && 0 <= i < NBins ==> counts[rk][i] == KindHits(data, rk, abscissa[i])
  {
    var day0 := DayStart(now);
    var xs := new int[NBins];
    var i := 0;
    while i < NBins
      invariant 0 <= i <= NBins
      invariant forall k :: 0 <= k < i ==> xs[k] == day0 + k * BinSize
    {
      xs[i] := day0 + i * BinSize;
      i := i + 1;
    }
    abscissa := xs[..];

    counts := map[];
    i := 0;
    while i < NBins
      invariant 0 <= i <= NBins
      invariant forall rk :: rk in counts <==>
        exists b, j :: 0 <= b < i && 0 <= j < |data| && data[j].requestKind == rk && RunsInBin(data[j], abscissa[b])
      invariant forall rk :: rk in counts ==> |counts[rk]| == NBins
      invariant forall rk, b :: rk in counts && 0 <= b < NBins ==>
        counts[rk][b] == if b < i then KindHits(data, rk, abscissa[b]) else 0
    {
      ghost var before := counts;
      counts := TallyBin(data, i, abscissa[i], counts);
      forall rk, b | rk in counts && rk !in before && 0 <= b < i
        ensures KindHits(data, rk, abscissa[b]) == 0
      {
        KindHitsPositive(data, rk, abscissa[b]);
      }
      i := i + 1;
    }
  }

  /** One more schedule of kind `rk` in bin `i`: a kind seen for the first time starts from all-zero bins. */
  function Tick(counts: map<string, seq<int>>, rk: string, i: nat): map<string, seq<int>>
    requires i < NBins && (rk in counts ==> |counts[rk]| == NBins)
  {
    var row := if rk in counts then counts[rk] else seq(NBins, _ => 0);
    counts[rk := row[i := row[i] + 1]]
  }

  /** Tick adds one to bin `i` of kind `rk` and changes nothing else. */
  lemma {:induction false} TickFacts(counts: map<string, seq<int>>, rk: string, i: nat)
    requires i < NBins && (rk in counts ==> |counts[rk]| == NBins)
    ensures forall k :: k in Tick(counts, rk, i) <==> k in counts || k == rk
    ensures forall k :: k in counts && k != rk ==> Tick(counts, rk, i)[k] == counts[k]
    ensures |Tick(counts, rk, i)[rk]| == NBins
    ensures Tick(counts, rk, i)[rk][i] == (if rk in counts then counts[rk][i] else 0) + 1
    ensures forall b :: 0 <= b < NBins && b != i ==>
      Tick(counts, rk, i)[rk][b] == if rk in counts then counts[rk][b] else 0
  {
  }

  /** The inner loop of the histogram: count every schedule that runs in bin `i`, starting at `x`. */
  method TallyBin(data: seq<ScheduleRow>, i: nat, x: int, counts: map<string, seq<int>>)
    returns (r: map<string, seq<int>>)
    requires i < NBins
    requires forall rk :: rk in counts ==> |counts[rk]| == NBins && counts[rk][i] == 0
    ensures forall rk :: rk in r <==>
      rk in counts || exists j :: 0 <= j < |data| && data[j].requestKind == rk && RunsInBin(data[j], x)
    ensures forall rk :: rk in r ==> |r[rk]| == NBins && r[rk][i] == KindHits(data, rk, x)
    ensures forall rk, b :: rk in r && 0 <= b < NBins && b != i ==>
      r[rk][b] == if rk in counts then counts[rk][b] else 0
  {
    r := TallyHits(data, i, x, counts);
    TallyOfFacts(data, i, x, counts);
    forall rk
      ensures KindHits(data, rk, x) > 0 <==>
        exists j :: 0 <= j < |data| && data[j].requestKind == rk && RunsInBin(data[j], x)
    {
      KindHitsPositive(data, rk, x);
    }
  }

  /** The counts after the schedules of `data` that run in bin `i` have each been ticked, in order. */
  function TallyOf(data: seq<ScheduleRow>, i: nat, x: int, counts: map<string, seq<int>>): (r: map<string, seq<int>>)
    requires i < NBins && forall rk :: rk in counts ==> |counts[rk]| == NBins
    ensures forall rk :: rk in r ==> |r[rk]| == NBins
  {
    if data == [] then counts
    else
      var prev := TallyOf(data[..|data| - 1], i, x, counts);
      var s := data[|data| - 1];
      if RunsInBin(s, x) then TickFacts(prev, s.requestKind, i); Tick(prev, s.requestKind, i) else prev
  }

  /**
   * After the tally, bin `i` of each kind holds its hit count, a kind is
   * present exactly when it was before or has a hit, and no other bin changes.
   */
  lemma {:induction false} TallyOfFacts(data: seq<ScheduleRow>, i: nat, x: int, counts: map<string, seq<int>>)
    requires i < NBins
    requires forall rk :: rk in counts ==> |counts[rk]| == NBins && counts[rk][i] == 0
    ensures forall rk :: rk in TallyOf(data, i, x, counts) <==> rk in counts || KindHits(data, rk, x) > 0
    ensures forall rk :: rk in TallyOf(data, i, x, counts) ==> TallyOf(data, i, x, counts)[rk][i] == KindHits(data, rk, x)
    ensures forall rk, b :: rk in TallyOf(data, i, x, counts) && 0 <= b < NBins && b != i ==>
      TallyOf(data, i, x, counts)[rk][b] == if rk in counts then counts[rk][b] else 0
  {
    if data != [] {
      var init := data[..|data| - 1];
      var s := data[|data| - 1];
      TallyOfFacts(init, i, x, counts);
      var prev := TallyOf(init, i, x, counts);
      if RunsInBin(s, x) {
        TickFacts(prev, s.requestKind, i);
      }
    }
  }

  /** TallyBin's loop: the counts it leaves are the tally of all of `data`. */
  method TallyHits(data: seq<ScheduleRow>, i: nat, x: int, counts: map<string, seq<int>>)
    returns (r: map<string, seq<int>>)
    requires i < NBins && forall rk :: rk in counts ==> |counts[rk]| == NBins
    ensures r == TallyOf(data, i, x, counts)
  {
    r := counts;
    var j := 0;
    while j < |data|
      invariant 0 <= j <= |data|
      invariant r == TallyOf(data[..j], i, x, counts)
    {
      var s := data[j];
      assert data[..j + 1][..j] == data[..j];
      if RunsInBin(s, x) {
        r := Tick(r, s.requestKind, i);
      }
      j := j + 1;
    }
    assert data[..j] == data;
  }

  // ---------------------------------------------------------------------------
  // The schedule timeline
  // ---------------------------------------------------------------------------

  /** How a step of the plot-data handler ends: with a value, with a panic, or never. */
  datatype Outcome<T> = Done(value: T) | Panicked | Hangs

  /**
   * Whether getNextActionTimesNoJitter returns, in the order Go evaluates it:
   * an index into an empty Calendars, Second, Minute or Hour panics, and a
   * range loop whose Step cannot reach past End never finishes.
   */
  function WalkOutcome(spec: ScheduleSpec): Outcome<()>
  {
    if |spec.calendars| == 0 then Panicked
    else
      var c := spec.calendars[0];
      if |c.second| == 0 then Panicked
      else if !Expandable(c.second[0]) then Hangs
      else if |c.minute| == 0 then Panicked
      else if !Expandable(c.minute[0]) then Hangs
      else if |c.hour| == 0 then Panicked
      else if !Expandable(c.hour[0]) then Hangs
      else Done(())
  }

  /** The walk returns exactly for the specs the model of its loops admits. */
  lemma {:induction false} WalkOutcomeDone(spec: ScheduleSpec)
    ensures WalkOutcome(spec).Done? <==> Walkable(spec)
  {
  }

  /** The service's own default spec (before normalisation) never returns: its second range has Step 0. */
  lemma {:induction false} DefaultSpecHangs(rk: string, id: string)
    ensures WalkOutcome(Api.DefaultScheduleSpec(rk, id)) == Hangs
  {
    var c := Api.DefaultScheduleSpec(rk, id).calendars[0];
    assert c.second[0] == ScheduleRange(0, 0, 0);
  }

  /** The trace label: the first two space-separated parts of the schedule ID. */
  function TimelineLabel(id: string): (r: Result<string, string>)
    ensures r.Failure? <==> ' ' !in id
  {
    var parts := Split(id, ' ');
    SplitLength(id, ' ');
    if |parts| < 2 then Failure("index out of range [1] with length 1")
    else Success(parts[0] + " " + parts[1])
  }

  /** A "<kind> <id> <suffix>" schedule ID is labelled "<kind> <id>". */
  lemma {:induction false} TimelineLabelOfComposed(rk: string, id: string, suffix: string)
    requires ' ' !in rk && ' ' !in id
    ensures TimelineLabel(rk + " " + id + " " + suffix) == Success(rk + " " + id)
  {
    assert rk + " " + id + " " + suffix == rk + [' '] + (id + [' '] + suffix);
    SplitCompose(rk, id + [' '] + suffix, ' ');
    SplitCompose(id, suffix, ' ');
  }

  /** The run times that are not before `now`, in their order. */
  function Upcoming(nexts: seq<int>, now: int): (u: seq<int>)
    ensures |u| <= |nexts|
    ensures forall x :: x in u ==> x in nexts && x >= now
  {
    if nexts == [] then []
    else
      var last := nexts[|nexts| - 1];
      Upcoming(nexts[..|nexts| - 1], now) + (if last < now then [] else [last])
  }

  /** Every run time not before `now` is kept. */
  lemma {:induction false} UpcomingKeeps(nexts: seq<int>, now: int, x: int)
    requires x in nexts && x >= now
    ensures x in Upcoming(nexts, now)
  {
    var init := nexts[..|nexts| - 1];
    if x != nexts[|nexts| - 1] {
      assert x in init by {
        var k :| 0 <= k < |nexts| && nexts[k] == x;
        assert init[k] == x;
      }
      UpcomingKeeps(init, now, x);
    }
  }

  /** Filtering keeps order: an increasing list stays increasing. */
  lemma {:induction false} UpcomingIncreasing(nexts: seq<int>, now: int)
    requires Increasing(nexts)
    ensures Increasing(Upcoming(nexts, now))
  {
    if nexts != [] {
      var init := nexts[..|nexts| - 1];
      var last := nexts[|nexts| - 1];
      assert Increasing(init);
      UpcomingIncreasing(init, now);
      var u := Upcoming(init, now);
      forall x | x in u
        ensures x < last
      {
        var k :| 0 <= k < |init| && init[k] == x;
      }
      if last >= now {
        assert forall i :: 0 <= i < |u| ==> u[i] in u;
      }
    }
  }

  /**
   * The point loop of one timeline trace: for each run time not before
   * `now`, the run time, the run time shifted by the jitter (in nanoseconds)
   * and the trace name.
   */
  method UpcomingPoints(nexts: seq<int>, jitter: int, name: string, now: int)
    returns (xs: seq<int>, xls: seq<int>, ys: seq<string>)
    ensures xs == Upcoming(nexts, now)
    ensures |xls| == |xs| && |ys| == |xs|
    ensures forall i :: 0 <= i < |xs| ==> xls[i] == xs[i] * NanosPerSecond + jitter && ys[i] == name
  {
    xs, xls, ys := [], [], [];
    var i := 0;
    while i < |nexts|
      invariant 0 <= i <= |nexts|
      invariant xs == Upcoming(nexts[..i], now)
      invariant |xls| == |xs| && |ys| == |xs|
      invariant forall k :: 0 <= k < |xs| ==> xls[k] == xs[k] * NanosPerSecond + jitter && ys[k] == name
    {
      assert nexts[..i + 1][..i] == nexts[..i];
      var n := nexts[i];
      if n >= now {
        xs := xs + [n];
        xls := xls + [n * NanosPerSecond + jitter];
        ys := ys + [name];
      }
      i := i + 1;
    }
    assert nexts[..i] == nexts;
  }

  /**
   * The capacity of a slice built by appending `n` elements one at a time to
   * a nil slice of 16- or 24-byte elements: Go doubles small slices, and
   * both sizes fall on allocation size classes, so it is 0 for none and
   * otherwise the least power of two not below `n`.
   */
  function AppendCapacity(n: nat): (c: nat)
    ensures n <= c
  {
    if n == 0 then 0 else Doubled(1, n)
  }

  function Doubled(c: nat, n: nat): (r: nat)
    requires c >= 1
    ensures n <= r && c <= r
    decreases n - c
  {
    if c >= n then c else Doubled(2 * c, n)
  }

  /**
   * The timeline's `xs[0:10]` as written: Go allows slicing up to the
   * capacity, padding with zero values, and panics beyond it.
   */
  function FirstTenAsWritten<T>(xs: seq<T>, zero: T): (o: Outcome<seq<T>>)
  {
    if 10 <= |xs| then Done(xs[..10])
    else if 10 <= AppendCapacity(|xs|) then Done(xs + seq(10 - |xs|, _ => zero))
    else Panicked
  }

  /** As written, fewer than nine upcoming points panic, and exactly nine gain a zero-time point. */
  lemma {:induction false} FirstTenAsWrittenCases<T>(xs: seq<T>, zero: T)
    ensures |xs| <= 8 ==> FirstTenAsWritten(xs, zero) == Panicked
    ensures |xs| == 9 ==> FirstTenAsWritten(xs, zero) == Done(xs + [zero])
    ensures |xs| >= 10 ==> FirstTenAsWritten(xs, zero) == Done(xs[..10])
  {
    if |xs| <= 8 {
      var n := |xs|;
      assert n == 0 || n == 1 || n == 2 || n == 3 || n == 4 || n == 5 || n == 6 || n == 7 || n == 8;
      assert AppendCapacity(n) <= 8;
    } else if |xs| == 9 {
      assert AppendCapacity(9) == 16;
      assert seq(1, _ => zero) == [zero];
    }
  }

  /** A schedule that fires once a day at 09:00. */
  const DailyAtNine := ScheduleSpec(
    [CalendarSpec([ScheduleRange(0, 0, 1)], [ScheduleRange(0, 0, 1)], [ScheduleRange(9, 9, 1)], "")],
    0, ZeroTimeUnix, ZeroTimeUnix)

  /**
   * The timeline as written panics for a daily schedule: three days of
   * run times give at most three points, short of the ten the slice asks for.
   */
  lemma {:induction false} TimelinePanicsForDailySchedule()
    ensures Walkable(DailyAtNine)
    ensures Upcoming(DayTimes(DayStart(0), 3, Hours(DailyAtNine), Minutes(DailyAtNine), Seconds(DailyAtNine)), 0)
      == [32400, 118800, 205200]
    ensures FirstTenAsWritten([32400, 118800, 205200], ZeroTimeUnix) == Panicked
  {
    SingletonRange(0, 1);
    SingletonRange(9, 1);
    assert Hours(DailyAtNine) == [9] && Minutes(DailyAtNine) == [0] && Seconds(DailyAtNine) == [0];
    assert DayStart(0) == 0;
    var ts := [32400, 118800, 205200];
    ThreeDaysAtNine();
    UpcomingNoneBefore(ts, 0);
    FirstTenAsWrittenCases(ts, ZeroTimeUnix);
  }

  /** A range from a value to itself holds just that value. */
  lemma {:induction false} SingletonRange(a: int, step: int)
    requires step > 0
    ensures RangeValues(ScheduleRange(a, a, step)) == [a]
  {
    assert RangeValues(ScheduleRange(a + step, a, step)) == [];
  }

  /** Three days of the daily 09:00 schedule from the zero day. */
  lemma {:induction false} ThreeDaysAtNine()
    ensures DayTimes(0, 3, [9], [0], [0]) == [32400, 118800, 205200]
  {
    assert DayTimes(0, 0, [9], [0], [0]) == [];
    DayTimesAtNine(0, 1);
    DayTimesAtNine(0, 2);
    DayTimesAtNine(0, 3);
  }

  /** When no run time is before `now`, the filter keeps them all. */
  lemma {:induction false} UpcomingNoneBefore(nexts: seq<int>, now: int)
    requires forall i :: 0 <= i < |nexts| ==> nexts[i] >= now
    ensures Upcoming(nexts, now) == nexts
  {
    if nexts != [] {
      var init := nexts[..|nexts| - 1];
      UpcomingNoneBefore(init, now);
      assert init + [nexts[|nexts| - 1]] == nexts;
    }
  }

  /** One more day of the daily 09:00 schedule adds that day's 09:00. */
  lemma {:induction false} DayTimesAtNine(day0: int, ndays: nat)
    requires ndays >= 1
    ensures DayTimes(day0, ndays, [9], [0], [0])
      == DayTimes(day0, ndays - 1, [9], [0], [0]) + [day0 + (ndays - 1) * SecondsPerDay + 32400]
  {
    SingleHourTimes(day0 + (ndays - 1) * SecondsPerDay, 9, 0, 0);
  }

  /** A calendar with one hour, one minute and one second fires once a day. */
  lemma {:induction false} SingleHourTimes(base: int, h: int, m: int, sec: int)
    ensures HourTimes(base, [h], [m], [sec]) == [base + h * 3600 + m * 60 + sec]
  {
    var t := base + h * 3600;
    assert [h][..0] == [] && [m][..0] == [];
    assert SecondTimes(t + m * 60, [sec]) == [t + m * 60 + sec];
    assert MinuteTimes(t, [m], [sec]) == MinuteTimes(t, [], [sec]) + SecondTimes(t + m * 60, [sec]);
    assert HourTimes(base, [h], [m], [sec]) == HourTimes(base, [], [m], [sec]) + MinuteTimes(t, [m], [sec]);
  }

  /** The evidently intended slice: at most the first ten points. */
  function FirstAtMostTen<T>(xs: seq<T>): (r: seq<T>)
    ensures |r| == if |xs| < 10 then |xs| else 10
    ensures r <= xs
  {
    if |xs| < 10 then xs else xs[..10]
  }

  /** One timeline trace: label, run times, jittered run times and labels. */
  datatype TimelineTrace = TimelineTrace(name: string, xs: seq<int>, xls: seq<int>, ys: seq<string>)

  /**
   * The timeline for one listed schedule, with the corrected slice: the
   * label first (parts[1] panics for an ID without a space), then three days
   * of run times, then the points not before `now`, at most ten of them.
   */
  method TimelineTraceOf(e: ScheduleEntry, now: int) returns (o: Outcome<TimelineTrace>)
    ensures TimelineLabel(e.id).Failure? ==> o == Panicked
    ensures TimelineLabel(e.id).Success? ==> o.Done? == Walkable(e.spec) && (o == Panicked <==> WalkOutcome(e.spec) == Panicked)
    ensures o.Done? ==>
      var u := Upcoming(DayTimes(DayStart(now), 3, Hours(e.spec), Minutes(e.spec), Seconds(e.spec)), now);
      o.value.name == TimelineLabel(e.id).value
      && o.value.xs == FirstAtMostTen(u)
      && |o.value.xls| == |o.value.xs| && |o.value.ys| == |o.value.xs|
      && (forall i :: 0 <= i < |o.value.xs| ==>
            o.value.xls[i] == o.value.xs[i] * NanosPerSecond + e.spec.jitter && o.value.ys[i] == o.value.name)
  {
    var lbl := TimelineLabel(e.id);
    if lbl.Failure? {
      return Panicked;
    }
    var walk := WalkOutcome(e.spec);
    if !walk.Done? {
      return if walk.Panicked? then Panicked else Hangs;
    }
    var nexts := NextActionTimesNoJitter(e.spec, 3, now);
    var xs, xls, ys := UpcomingPoints(nexts, e.spec.jitter, lbl.value, now);
    o := Done(TimelineTrace(lbl.value, FirstAtMostTen(xs), FirstAtMostTen(xls), FirstAtMostTen(ys)));
  }

  // ---------------------------------------------------------------------------
  // plot_kind dispatch
  // ---------------------------------------------------------------------------

  /** What the plot page renders: the Plotly page fed from a data path, or the d3 page for one user. */
  datatype PlotPage = PlotlyPage(dataPath: string) | D3Page(plotKind: string, id: string)

  /** handleGetPlots; `id` is the id query parameter ("" when absent). */
  function PlotsPage(pk: string, id: string): (r: Response<PlotPage>)
    ensures pk == PlotKindScheduleCount || pk == PlotKindScheduleTimeline ==>
      r == Response(StatusOK, Value(PlotlyPage("/plot-data?plot_kind=" + pk)))
    ensures pk == PlotKindUserPulse ==>
      r == if id == "" then WriteBadRequestError("must supply request_kind and id")
           else Response(StatusOK, Value(D3Page(pk, id)))
    ensures r.status == StatusOK <==>
      pk == PlotKindScheduleCount || pk == PlotKindScheduleTimeline || (pk == PlotKindUserPulse && id != "")
    ensures r.status != StatusOK ==> r.status == StatusBadRequest
  {
    if pk == PlotKindScheduleCount || pk == PlotKindScheduleTimeline then
      Response(StatusOK, Value(PlotlyPage("/plot-data?plot_kind=" + pk)))
    else if pk == PlotKindUserPulse then
      if id == "" then WriteBadRequestError("must supply request_kind and id")
      else Response(StatusOK, Value(D3Page(pk, id)))
    else WriteBadRequestError("unsupported plot_kind " + pk)
  }

  /** Which branch of handleGetPlotData a plot_kind selects. */
  datatype PlotDataBranch = CountBranch | TimelineBranch | PulseBranch | Rejected(resp: Response<()>)

  function PlotDataRoute(pk: string): (b: PlotDataBranch)
    ensures b.Rejected? <==>
      pk != PlotKindScheduleCount && pk != PlotKindScheduleTimeline && pk != PlotKindUserPulse
    ensures b.Rejected? ==> b.resp == WriteBadRequestError("unsupported plot_kind " + pk)
  {
    if pk == PlotKindScheduleCount then CountBranch
    else if pk == PlotKindScheduleTimeline then TimelineBranch
    else if pk == PlotKindUserPulse then PulseBranch
    else Rejected(WriteBadRequestError("unsupported plot_kind " + pk))
  }
}
