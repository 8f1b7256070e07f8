/**
 * The report date-range presets and the three places that turn them into a filter on
 * day numbers: the predefined reports, the custom report generator and the older
 * report generator of the task app.
 */
module DateRanges {
  import opened Basics

  /** The days each named preset reaches back from today. */
  function PresetDays(range: string): (d: Option<nat>)
    ensures d.Some? <==> range in {"last_7_days", "last_30_days", "last_3_months", "last_6_months", "last_year"}
    ensures d.Some? ==> d.value in {7, 30, 90, 180, 365}
  {
    if range == "last_7_days" then Some(7)
    else if range == "last_30_days" then Some(30)
    else if range == "last_3_months" then Some(90)
    else if range == "last_6_months" then Some(180)
    else if range == "last_year" then Some(365)
    else None
  }

  /** A filter on a day column: none, a lower bound, or an inclusive range. */
  datatype Window = Unbounded | From(start: int) | Between(first: int, last: int)

  predicate InWindow(w: Window, day: int) {
    match w
    case Unbounded => true
    case From(s) => s <= day
    case Between(s, e) => s <= day <= e
  }

  /** `PredefinedReportGenerator._get_date_filter`: a named preset, anything else 30 days. */
  function PredefinedWindow(range: string, today: int): (w: Window)
    ensures w.From?
    ensures PresetDays(range).Some? ==> w.start == today - PresetDays(range).value
    ensures PresetDays(range).None? ==> w.start == today - 30
  {
    From(today - PresetDays(range).GetOr(30))
  }

  /**
   * `ReportGenerator._apply_date_filters` of the custom report service: both custom
   * dates when the range is 'custom' and both are given, otherwise a preset (30 days
   * when unknown) ending today.
   */
  function ServicesWindow(range: string, customStart: Option<int>, customEnd: Option<int>, today: int)
    : (w: Window)
    ensures w.Between?
    ensures range == "custom" && customStart.Some? && customEnd.Some? ==>
      w == Between(customStart.value, customEnd.value)
    ensures !(range == "custom" && customStart.Some? && customEnd.Some?) ==>
      w == Between(today - PresetDays(range).GetOr(30), today)
  {
    if range == "custom" && customStart.Some? && customEnd.Some? then
      Between(customStart.value, customEnd.value)
    else
      Between(today - PresetDays(range).GetOr(30), today)
  }

  /**
   * `_build_date_filters` of the task app's report generator: a preset is a lower
   * bound; 'custom' with both dates is a range; anything else filters nothing.
   */
  function TaskAppWindow(range: Option<string>, customStart: Option<int>, customEnd: Option<int>, today: int)
    : (w: Window)
    ensures range.Some? && PresetDays(range.value).Some? ==> w == From(today - PresetDays(range.value).value)
    ensures range == Some("custom") && customStart.Some? && customEnd.Some? ==>
      w == Between(customStart.value, customEnd.value)
    ensures w.Unbounded? <==>
      range.None? || (PresetDays(range.value).None?
                      && !(range.value == "custom" && customStart.Some? && customEnd.Some?))
  {
    if range.Some? && PresetDays(range.value).Some? then From(today - PresetDays(range.value).value)
    else if range == Some("custom") && customStart.Some? && customEnd.Some? then
      Between(customStart.value, customEnd.value)
    else Unbounded
  }

  /**
   * On a named preset the three filters select the same days up to today; the custom
   * report service alone also drops days after today.
   */
  lemma PresetsAgree(range: string, cs: Option<int>, ce: Option<int>, today: int, day: int)
    requires PresetDays(range).Some?
    ensures InWindow(PredefinedWindow(range, today), day) == InWindow(TaskAppWindow(Some(range), cs, ce, today), day)
    ensures day <= today ==>
      InWindow(PredefinedWindow(range, today), day) == InWindow(ServicesWindow(range, cs, ce, today), day)
    ensures !InWindow(ServicesWindow(range, cs, ce, today), today + 1)
  {
  }

  /**
   * An unknown range name: the predefined reports and the custom report service fall
   * back to the last 30 days, while the task app's generator keeps every day, however old.
   */
  lemma UnknownRangeDiverges(range: string, today: int)
    requires PresetDays(range).None? && range != "custom"
    ensures !InWindow(PredefinedWindow(range, today), today - 31)
    ensures !InWindow(ServicesWindow(range, None, None, today), today - 31)
    ensures InWindow(TaskAppWindow(Some(range), None, None, today), today - 31)
  {
  }

  /**
   * 'custom' with only a start date: the custom report service reads it as the last
   * 30 days and the task app's generator as no filter at all.
   */
  lemma HalfCustomDiverges(start: int, today: int)
    ensures ServicesWindow("custom", Some(start), None, today) == Between(today - 30, today)
    ensures TaskAppWindow(Some("custom"), Some(start), None, today) == Unbounded
  {
  }
}
