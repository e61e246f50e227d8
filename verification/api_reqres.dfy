/** Request and response shapes shared by the server and its clients. */
module Api {
  import opened ScheduleSpecs

  /** The default schedule attached to new polling schedules: every 5 minutes, 5 minutes of jitter. */
  function DefaultScheduleSpec(rk: string, id: string): (s: ScheduleSpec)
    ensures s.jitter == 5 * 60 * NanosPerSecond
    ensures |s.calendars| == 1 && |s.calendars[0].second| == 1
    ensures |s.calendars[0].minute| == 1 && |s.calendars[0].hour| == 1
  {
    ScheduleSpec(
      [CalendarSpec(
         [ScheduleRange(0, 0, 0)],
         [ScheduleRange(0, 59, 5)],
         [ScheduleRange(0, 23, 0)],
         "every 5 minutes")],
      300000000000,
      ZeroTimeUnix,
      ZeroTimeUnix)
  }

  /**
   * The default calendar fires at minutes 0, 5, ..., 55: twelve values.
   */
  lemma {:induction false} DefaultMinutes(rk: string, id: string)
    ensures var m := DefaultScheduleSpec(rk, id).calendars[0].minute[0];
      Expandable(m) && RangeValues(m) == seq(12, i => 5 * i)
  {
    assert DefaultScheduleSpec(rk, id).calendars[0].minute[0] == ScheduleRange(0, 59, 5);
    MultiplesRangeValues(5, 12, 59);
  }

  /**
   * The default hour range leaves Step unset, so its loop only terminates once
   * normalised; it then covers hours 0..23.
   */
  lemma {:induction false} DefaultHours(rk: string, id: string)
    ensures var h := DefaultScheduleSpec(rk, id).calendars[0].hour[0];
      !Expandable(h) && RangeValues(Normalized(h)) == seq(24, i => i)
  {
    assert Normalized(DefaultScheduleSpec(rk, id).calendars[0].hour[0]) == ScheduleRange(0, 23, 1);
    MultiplesRangeValues(1, 24, 23);
  }

  /**
   * The default second range sets only Start, so its loop only terminates once
   * normalised; it then denotes second 0 alone.
   */
  lemma {:induction false} DefaultSeconds(rk: string, id: string)
    ensures var s := DefaultScheduleSpec(rk, id).calendars[0].second[0];
      !Expandable(s) && RangeValues(Normalized(s)) == [0]
  {
    var s := Normalized(DefaultScheduleSpec(rk, id).calendars[0].second[0]);
    RangeValuesAt(s);
  }

  /** The default spec is one constant: the request kind and id are not consulted. */
  lemma {:induction false} DefaultScheduleSpecConstant(rk1: string, id1: string, rk2: string, id2: string)
    ensures DefaultScheduleSpec(rk1, id1) == DefaultScheduleSpec(rk2, id2)
  {
  }

  const UserMetricOpKindAdd := "add"
  const UserMetricOpKindRemove := "remove"
  const UserMetricOpKindAddGroup := "add-group"
  const UserMetricOpKindRemoveGroup := "remove-group"

  /** The four user-metric operation kinds, pairwise distinct. */
  function UserMetricOpKinds(): (ks: seq<string>)
    ensures |ks| == 4
    ensures forall i, j :: 0 <= i < j < |ks| ==> ks[i] != ks[j]
  {
    [UserMetricOpKindAdd, UserMetricOpKindRemove, UserMetricOpKindAddGroup, UserMetricOpKindRemoveGroup]
  }

  /** The body of a schedule-creation request. */
  datatype GenericScheduleRequestPayload = GenericScheduleRequestPayload(
    requestKind: string,
    id: string,
    schedule: ScheduleSpec)

  /** The JSON body most endpoints answer with: a message or an error. */
  datatype DefaultJSONResponse = DefaultJSONResponse(message: string, error: string)
}
