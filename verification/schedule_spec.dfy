/**
 * The Temporal client's schedule types as the service uses them: calendar
 * ranges, calendar specs, schedule specs and the schedule-list iterator, with
 * the meaning of a calendar range (Start, Start+Step, ... up to End).
 */
module ScheduleSpecs {

  /** The Unix time, in seconds, of Go's zero time.Time (January 1, year 1, UTC). */
  const ZeroTimeUnix: int := -62135596800

  const NanosPerSecond: int := 1_000_000_000

  datatype ScheduleRange = ScheduleRange(start: int, end: int, step: int)

  datatype CalendarSpec = CalendarSpec(
    second: seq<ScheduleRange>,
    minute: seq<ScheduleRange>,
    hour: seq<ScheduleRange>,
    comment: string)

  /**
   * A schedule specification. An unset StartAt or EndAt holds ZeroTimeUnix;
   * the jitter is a duration in nanoseconds.
   */
  datatype ScheduleSpec = ScheduleSpec(
    calendars: seq<CalendarSpec>,
    jitter: int,
    startAt: int,
    endAt: int)

  /** One entry of a schedule listing. */
  datatype ScheduleEntry = ScheduleEntry(id: string, spec: ScheduleSpec)

  /** What one step of a schedule-list iterator yields: an entry or an error. */
  datatype ListStep = Item(entry: ScheduleEntry) | IterError

  /**
   * The entries a caller collects from an iterator that yields `steps` and is
   * then exhausted, when it stops at the first error.
   */
  function Collected(steps: seq<ListStep>): (es: seq<ScheduleEntry>)
    ensures |es| <= |steps|
    ensures forall k :: 0 <= k < |es| ==> steps[k] == Item(es[k])
    ensures |es| < |steps| ==> steps[|es|] == IterError
  {
    if steps == [] || steps[0] == IterError then []
    else [steps[0].entry] + Collected(steps[1..])
  }

  /**
   * Collected is the only sequence of items that matches the steps in order
   * and ends at the first error or at the end.
   */
  lemma {:induction false} CollectedUnique(steps: seq<ListStep>, es: seq<ScheduleEntry>)
    requires |es| <= |steps| && forall k :: 0 <= k < |es| ==> steps[k] == Item(es[k])
    requires |es| < |steps| ==> steps[|es|] == IterError
    ensures Collected(steps) == es
  {
    var c := Collected(steps);
    assert |c| == |es|;
    forall k | 0 <= k < |es|
      ensures c[k] == es[k]
    {
      assert Item(c[k]) == steps[k] == Item(es[k]);
    }
  }

  // ---------------------------------------------------------------------------
  // Calendar ranges
  // ---------------------------------------------------------------------------

  /** A loop `for t := Start; t <= End; t += Step` over the range terminates. */
  predicate Expandable(r: ScheduleRange)
  {
    r.step > 0 || r.start > r.end
  }

  /** The values a range denotes: Start, Start+Step, ... up to the last one not beyond End. */
  function RangeValues(r: ScheduleRange): seq<int>
    requires Expandable(r)
    decreases if r.start <= r.end then r.end - r.start + 1 else 0
  {
    if r.start > r.end then []
    else [r.start] + RangeValues(ScheduleRange(r.start + r.step, r.end, r.step))
  }

  /**
   * RangeValues is exactly the arithmetic progression from Start by Step that
   * stops at the first term beyond End.
   */
  lemma {:induction false} RangeValuesAt(r: ScheduleRange)
    requires Expandable(r)
    ensures |RangeValues(r)| == 0 <==> r.start > r.end
    ensures forall i :: 0 <= i < |RangeValues(r)| ==> RangeValues(r)[i] == r.start + i * r.step
    ensures forall i :: 0 <= i < |RangeValues(r)| ==> RangeValues(r)[i] <= r.end
    ensures r.start <= r.end ==> r.start + |RangeValues(r)| * r.step > r.end
    decreases if r.start <= r.end then r.end - r.start + 1 else 0
  {
    var vs := RangeValues(r);
    forall i | 0 <= i < |vs|
      ensures vs[i] == r.start + i * r.step && vs[i] <= r.end
    {
      RangeValueAt(r, i);
    }
    if r.start <= r.end {
      RangeValuesPast(r);
    }
  }

  /** Value `i` of a range is Start + i * Step, and it is not beyond End. */
  lemma {:induction false} RangeValueAt(r: ScheduleRange, i: nat)
    requires Expandable(r) && i < |RangeValues(r)|
    ensures RangeValues(r)[i] == r.start + i * r.step && RangeValues(r)[i] <= r.end
    decreases i
  {
    var next := ScheduleRange(r.start + r.step, r.end, r.step);
    assert RangeValues(r) == [r.start] + RangeValues(next);
    if i > 0 {
      RangeValueAt(next, i - 1);
      MulSucc(i - 1, r.step);
    }
  }

  /** The term after the last value of a non-empty range is beyond End. */
  lemma {:induction false} RangeValuesPast(r: ScheduleRange)
    requires Expandable(r) && r.start <= r.end
    ensures r.start + |RangeValues(r)| * r.step > r.end
    decreases r.end - r.start + 1
  {
    var next := ScheduleRange(r.start + r.step, r.end, r.step);
    assert |RangeValues(r)| == 1 + |RangeValues(next)|;
    if next.start <= next.end {
      RangeValuesPast(next);
      MulSucc(|RangeValues(next)|, r.step);
    }
  }

  /** One more factor adds the multiplicand once. */
  lemma {:induction false} MulSucc(a: int, k: int)
    ensures a * k + k == (a + 1) * k
  {
  }

  /** The values of a range with a positive step are strictly increasing. */
  lemma {:induction false} RangeValuesIncreasing(r: ScheduleRange)
    requires r.step > 0
    ensures forall i, j :: 0 <= i < j < |RangeValues(r)| ==> RangeValues(r)[i] < RangeValues(r)[j]
  {
    RangeValuesAt(r);
    var vs := RangeValues(r);
    forall i, j | 0 <= i < j < |vs|
      ensures vs[i] < vs[j]
    {
      assert vs[i] == r.start + i * r.step && vs[j] == r.start + j * r.step;
      MulMono(i + 1, j, r.step);
      assert (i + 1) * r.step == i * r.step + r.step;
    }
  }

  /** Multiplication by a non-negative factor keeps order. */
  lemma {:induction false} MulMono(a: int, b: int, k: int)
    requires a <= b && k >= 0
    ensures a * k <= b * k
  {
    assert b * k - a * k == (b - a) * k;
  }

  /**
   * A range from 0 by `k` whose end lies in [(n-1)k, nk) denotes the first
   * `n` multiples of `k`.
   */
  lemma {:induction false} MultiplesRangeValues(k: int, n: nat, e: int)
    requires k >= 1 && n >= 1 && (n - 1) * k <= e < n * k
    ensures RangeValues(ScheduleRange(0, e, k)) == seq(n, i => k * i)
  {
    var r := ScheduleRange(0, e, k);
    MulMono(0, n - 1, k);
    RangeValuesAt(r);
    var vs := RangeValues(r);
    var m := |vs|;
    assert m >= 1;
    assert vs[m - 1] == (m - 1) * k;
    assert e < m * k;
    if m > n {
      MulMono(n, m - 1, k);
      assert false;
    }
    if m < n {
      MulMono(m, n - 1, k);
      assert false;
    }
    assert forall i | 0 <= i < n :: vs[i] == k * i;
  }

  /**
   * Temporal's reading of a partly set range: a zero Step means 1 and an End
   * before Start means Start.
   */
  function Normalized(r: ScheduleRange): (n: ScheduleRange)
    ensures n.start == r.start && n.start <= n.end
    ensures r.step >= 0 ==> Expandable(n)
  {
    ScheduleRange(r.start, if r.end < r.start then r.start else r.end, if r.step == 0 then 1 else r.step)
  }
}
