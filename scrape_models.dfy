/** Request and response validation for the scraping API: the job status
    enumeration, the date-format and date-range validators of a scrape
    request, and the progress bound of a job status response. */
module ScrapeModels {
  import opened Common
  import opened Dates

  datatype JobStatus = Queued | Running | Completed | Failed

  /** The string value of each enumeration member. */
  function StatusText(s: JobStatus): string {
    match s
    case Queued => "queued"
    case Running => "running"
    case Completed => "completed"
    case Failed => "failed"
  }

  /** `JobStatus(value)`: the member with that value, if any. */
  function ParseStatus(t: string): (r: Option<JobStatus>)
    ensures r.Some? ==> StatusText(r.value) == t
  {
    if t == "queued" then Some(Queued)
    else if t == "running" then Some(Running)
    else if t == "completed" then Some(Completed)
    else if t == "failed" then Some(Failed)
    else None
  }

  /** Each member is recovered from its value, so the four values differ. */
  lemma StatusTextRoundTrip(s: JobStatus)
    ensures ParseStatus(StatusText(s)) == Some(s)
  {
    match s
    case Queued =>
    case Running => assert StatusText(s) != "queued";
    case Completed => assert StatusText(s) != "queued" && StatusText(s) != "running";
    case Failed =>
      assert StatusText(s) != "queued" && StatusText(s) != "running" && StatusText(s) != "completed";
  }

  /** `MAX_DATE_RANGE_DAYS` of the settings (also the validator's default). */
  const MaxDateRangeDays := 90

  /** The field validator of `start_date` and `end_date`: the value is kept
      exactly when it parses as `%Y-%m-%d`. */
  function ValidateDateFormat(v: string): (r: Result<string, DateError>)
    ensures r.Ok? <==> ParseIsoDate(v).Ok?
    ensures r.Ok? ==> r.value == v
  {
    match ParseIsoDate(v)
    case Ok(_) => Ok(v)
    case Err(e) => Err(e)
  }

  datatype RangeError = BadDate(cause: DateError) | StartAfterEnd | RangeTooLong(requested: int)

  /** `validate_date_range(max_days)`. */
  function ValidateDateRange(startDate: string, endDate: string, maxDays: int): (r: Result<(), RangeError>)
    ensures r.Ok? <==>
      ParseIsoDate(startDate).Ok? && ParseIsoDate(endDate).Ok?
      && ParseIsoDate(startDate).value <= ParseIsoDate(endDate).value
      && ParseIsoDate(endDate).value - ParseIsoDate(startDate).value <= maxDays
    ensures r == Err(StartAfterEnd) <==>
      ParseIsoDate(startDate).Ok? && ParseIsoDate(endDate).Ok?
      && ParseIsoDate(startDate).value > ParseIsoDate(endDate).value
    ensures r.Err? && r.error.RangeTooLong? ==>
      && ParseIsoDate(startDate).Ok? && ParseIsoDate(endDate).Ok?
      && r.error.requested == ParseIsoDate(endDate).value - ParseIsoDate(startDate).value
      && r.error.requested > maxDays
  {
    match ParseIsoDate(startDate)
    case Err(e) => Err(BadDate(e))
    case Ok(start) =>
      match ParseIsoDate(endDate)
      case Err(e) => Err(BadDate(e))
      case Ok(end) =>
        if start > end then Err(StartAfterEnd)
        else if end - start > maxDays then Err(RangeTooLong(end - start))
        else Ok(())
  }

  /** `progress: int = Field(ge=0, le=100)`: building a status response
      fails unless the progress is a percentage. */
  function ValidateProgress(progress: int): (r: Result<int, string>)
    ensures r.Ok? <==> 0 <= progress <= 100
    ensures r.Ok? ==> r.value == progress
  {
    if 0 <= progress <= 100 then Ok(progress) else Err("Input should be between 0 and 100")
  }
}
