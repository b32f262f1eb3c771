/** Range normalisation: turns the optional start/end query dates into a
    concrete pair, with "today" passed in instead of read from the clock. */
module Dates {
  import opened Models

  /** Day numbers of the earliest and latest representable calendar dates
      (0001-01-01 and 9999-12-31). */
  const MinDay: Day := 1
  const MaxDay: Day := 3652059

  /** A missing start date defaults to this many days before the resolved end. */
  const DefaultSpan: int := 365

  predicate IsDate(d: Day) {
    MinDay <= d <= MaxDay
  }

  predicate IsOptDate(d: Option<Day>) {
    d.Some? ==> IsDate(d.value)
  }

  /** The resolved end: the supplied end, or today. */
  function ResolvedEnd(end: Option<Day>, today: Day): Day {
    if end.None? then today else end.value
  }

  /** Normalises the requested range. An inverted explicit range is rejected
      before any defaulting; a start defaulted below the first calendar day
      overflows. */
  function NormalizeRange(start: Option<Day>, end: Option<Day>, today: Day): (r: Result<(Day, Day), Error>)
    requires IsDate(today) && IsOptDate(start) && IsOptDate(end)
    ensures r.Success? ==> IsDate(r.value.0) && IsDate(r.value.1)
    ensures r.Failure? ==> r.error == InvalidRange || r.error == DateOverflow
    ensures r == Failure(InvalidRange) ==> start.Some? && end.Some? && start.value > end.value
    ensures r == Failure(DateOverflow) ==> start.None?
  {
    if start.Some? && end.Some? && start.value > end.value then
      Failure(InvalidRange)
    else
      var e := ResolvedEnd(end, today);
      if start.None? && e - DefaultSpan < MinDay then
        Failure(DateOverflow)
      else
        var s := if start.None? then e - DefaultSpan else start.value;
        Success((s, e))
  }

  /** Both dates supplied with start after end: the request is rejected. */
  lemma NormalizeRejectsInverted(start: Day, end: Day, today: Day)
    requires IsDate(today) && IsDate(start) && IsDate(end)
    ensures NormalizeRange(Some(start), Some(end), today) == Failure(InvalidRange) <==> start > end
  {
  }

  /** The only failures are the inverted explicit range and the overflow of a
      defaulted start; every other request resolves. */
  lemma NormalizeFailsOnlyWhen(start: Option<Day>, end: Option<Day>, today: Day)
    requires IsDate(today) && IsOptDate(start) && IsOptDate(end)
    ensures NormalizeRange(start, end, today).Failure? <==>
      (start.Some? && end.Some? && start.value > end.value) ||
      (start.None? && ResolvedEnd(end, today) - DefaultSpan < MinDay)
    ensures NormalizeRange(start, end, today) == Failure(InvalidRange) <==>
      start.Some? && end.Some? && start.value > end.value
    ensures NormalizeRange(start, end, today) == Failure(DateOverflow) <==>
      start.None? && ResolvedEnd(end, today) - DefaultSpan < MinDay
  {
  }

  /** A resolved end is today when no end was given, and the given end otherwise. */
  lemma NormalizeEnd(start: Option<Day>, end: Option<Day>, today: Day)
    requires IsDate(today) && IsOptDate(start) && IsOptDate(end)
    requires NormalizeRange(start, end, today).Success?
    ensures end.None? ==> NormalizeRange(start, end, today).value.1 == today
    ensures end.Some? ==> NormalizeRange(start, end, today).value.1 == end.value
  {
  }

  /** A resolved start is exactly 365 days before the resolved end when no
      start was given, and the given start otherwise. */
  lemma NormalizeStart(start: Option<Day>, end: Option<Day>, today: Day)
    requires IsDate(today) && IsOptDate(start) && IsOptDate(end)
    requires NormalizeRange(start, end, today).Success?
    ensures start.None? ==>
      NormalizeRange(start, end, today).value.0 == NormalizeRange(start, end, today).value.1 - DefaultSpan
    ensures start.Some? ==> NormalizeRange(start, end, today).value.0 == start.value
  {
  }

  /** The resolved range is ordered when the start was defaulted or both dates
      were supplied. */
  lemma NormalizeOrdered(start: Option<Day>, end: Option<Day>, today: Day)
    requires IsDate(today) && IsOptDate(start) && IsOptDate(end)
    requires start.None? || end.Some?
    requires NormalizeRange(start, end, today).Success?
    ensures NormalizeRange(start, end, today).value.0 <= NormalizeRange(start, end, today).value.1
  {
  }

  /** A start given alone that lies after today resolves to an inverted range:
      the ordering promised for the result does not hold in this case. */
  lemma NormalizeStartAfterToday(start: Day, today: Day)
    requires IsDate(today) && IsDate(start) && start > today
    ensures NormalizeRange(Some(start), None, today) == Success((start, today))
    ensures NormalizeRange(Some(start), None, today).value.0 > NormalizeRange(Some(start), None, today).value.1
  {
  }
}
