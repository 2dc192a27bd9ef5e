/** `GetDateRange` (sdk/sdk.go:369-398): every calendar day from
    `start_date` to `end_date` inclusive. */
module DateRanges {
  import opened Wrappers
  import opened Calendar
  import opened Models

  /** The days `first`, `first + 1`, ..., `last` (empty when `first > last`). */
  function DaysBetween(first: Day, last: Day): seq<Day>
    decreases last - first
  {
    if first > last then [] else [first] + DaysBetween(first + 1, last)
  }

  /** `DaysBetween` lists exactly `last - first + 1` consecutive days, ascending. */
  lemma {:induction false} DaysBetweenShape(first: Day, last: Day)
    requires first <= last + 1
    ensures |DaysBetween(first, last)| == last - first + 1
    ensures forall i :: 0 <= i < |DaysBetween(first, last)| ==> DaysBetween(first, last)[i] == first + i
    decreases last - first
  {
    if first <= last {
      DaysBetweenShape(first + 1, last);
    }
  }

  /** What `GetDateRange` returns. */
  ghost function DateRange(params: RequestParams): Result<seq<Day>, SdkError> {
    match ParseDate(params.startDate)
    case None => Failure(InvalidStartDate(params.startDate))
    case Some(first) =>
      match ParseDate(params.endDate)
      case None => Failure(InvalidEndDate(params.endDate))
      case Some(last) =>
        if first > last then Failure(StartAfterEnd) else Success(DaysBetween(first, last))
  }

  /** The contract of `GetDateRange`: an unparseable start, then an unparseable
      end, then a start after the end are errors; otherwise the range holds
      `end - start + 1` consecutive ascending days from start to end. */
  lemma DateRangeSpec(params: RequestParams)
    ensures ParseDate(params.startDate).None? ==> DateRange(params) == Failure(InvalidStartDate(params.startDate))
    ensures ParseDate(params.startDate).Some? && ParseDate(params.endDate).None? ==>
      DateRange(params) == Failure(InvalidEndDate(params.endDate))
    ensures ParseDate(params.startDate).Some? && ParseDate(params.endDate).Some? ==>
      var first, last := ParseDate(params.startDate).value, ParseDate(params.endDate).value;
      && (first > last ==> DateRange(params) == Failure(StartAfterEnd))
      && (first <= last ==>
            && DateRange(params).Success?
            && |DateRange(params).value| == last - first + 1
            && DateRange(params).value[0] == first
            && DateRange(params).value[|DateRange(params).value| - 1] == last
            && (forall i :: 0 <= i < |DateRange(params).value| ==> DateRange(params).value[i] == first + i))
  {
    if ParseDate(params.startDate).Some? && ParseDate(params.endDate).Some? {
      var first, last := ParseDate(params.startDate).value, ParseDate(params.endDate).value;
      if first <= last {
        DaysBetweenShape(first, last);
      }
    }
  }

  /** The days come out strictly ascending, so none is repeated. */
  lemma DateRangeAscending(params: RequestParams)
    requires DateRange(params).Success?
    ensures forall i, j :: 0 <= i < j < |DateRange(params).value| ==> DateRange(params).value[i] < DateRange(params).value[j]
  {
    DateRangeSpec(params);
  }

  /** `GetDateRange`: validate both dates, then step a day at a time from the
      start while the current day is not after the end. */
  method GetDateRange(params: RequestParams) returns (r: Result<seq<Day>, SdkError>)
    ensures r == DateRange(params)
  {
    var startDate := ParseDate(params.startDate);
    if startDate.None? {
      return Failure(InvalidStartDate(params.startDate));
    }
    var endDate := ParseDate(params.endDate);
    if endDate.None? {
      return Failure(InvalidEndDate(params.endDate));
    }
    if startDate.value > endDate.value {
      return Failure(StartAfterEnd);
    }
    var differences: seq<Day> := [];
    var currentDate := startDate.value;
    while currentDate <= endDate.value
      invariant startDate.value <= currentDate <= endDate.value + 1
      invariant differences + DaysBetween(currentDate, endDate.value) == DaysBetween(startDate.value, endDate.value)
      decreases endDate.value - currentDate
    {
      differences := differences + [currentDate];
      currentDate := currentDate + 1;
    }
    assert DaysBetween(currentDate, endDate.value) == [];
    assert differences == DaysBetween(startDate.value, endDate.value);
    assert DateRange(params) == Success(DaysBetween(startDate.value, endDate.value));
    return Success(differences);
  }
}
