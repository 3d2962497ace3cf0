/** `AirtableClient`: the outlook and date normalisation applied to rating
    fields, the records sent to the Companies, Credit Ratings and Contacts
    tables, the scraper-status guard, and the retry loop that repeats a
    batch create after a rate-limit error. The pyairtable calls are an
    oracle: the outcome of the create call at each attempt is a parameter,
    and the sleeps are returned as the list of waits. */
module AirtableClient {
  import opened Common
  import opened Strings
  import opened Dates

  // ---------------------------------------------------------------------
  // `_map_outlook`

  /** `OUTLOOK_MAPPING`, in insertion order. */
  const OutlookMapping: seq<(string, string)> := [
    ("Nil", "Nil"), ("nil", "Nil"),
    ("Positive", "Positive"), ("positive", "Positive"),
    ("Stable", "Stable"), ("stable", "Stable"),
    ("Negative", "Negative"), ("negative", "Negative"),
    ("Stable/-", "Stable/-"), ("Positive/-", "Positive/-"), ("Negative/-", "Negative/-"),
    ("Not Available", "Not Available"), ("not available", "Not Available"),
    ("Rating Watch with Developing Implications", "Rating Watch with Developing Implications"),
    ("Rating Watch with Negative Implications", "Rating Watch with Negative Implications")
  ]

  const NotFound := "Not found"
  const NotAvailable := "Not Available"

  /** The value of the first item whose key satisfies `matches`. */
  function FirstValue(items: seq<(string, string)>, matches: string -> bool): (r: Option<string>)
    ensures r.None? <==> forall i | 0 <= i < |items| :: !matches(items[i].0)
    ensures r.Some? ==> exists i | 0 <= i < |items| ::
      matches(items[i].0) && r.value == items[i].1 && forall j | 0 <= j < i :: !matches(items[j].0)
  {
    if items == [] then None
    else if matches(items[0].0) then Some(items[0].1)
    else
      var r := FirstValue(items[1..], matches);
      assert forall i | 1 <= i < |items| :: items[i] == items[1..][i - 1];
      if r.Some? then
        var i :| 0 <= i < |items[1..]| && matches(items[1..][i].0) && r.value == items[1..][i].1
          && forall j | 0 <= j < i :: !matches(items[1..][j].0);
        assert items[i + 1] == items[1..][i];
        r
      else r
  }

  function KeyEquals(outlook: string): string -> bool {
    (key: string) => key == outlook
  }

  function KeyEqualsIgnoringCase(outlook: string): string -> bool {
    (key: string) => Lower(key) == Lower(outlook)
  }

  /** What `_map_outlook` returns with `items` as the mapping: nothing
      for an empty or "Not found" outlook, else the exact key's value, else
      the first key equal to it ignoring case, else "Not Available". */
  function OutlookIn(outlook: string, items: seq<(string, string)>): Option<string> {
    if outlook == "" || outlook == NotFound then None
    else
      var exact := FirstValue(items, KeyEquals(outlook));
      if exact.Some? then exact
      else Some(FirstValue(items, KeyEqualsIgnoringCase(outlook)).GetOr(NotAvailable))
  }

  function OutlookOf(outlook: string): Option<string> {
    OutlookIn(outlook, OutlookMapping)
  }

  /** `_map_outlook`: the dictionary lookup, then the scan of the items in
      order. */
  method MapOutlook(outlook: string) returns (r: Option<string>)
    ensures r == OutlookOf(outlook)
  {
    r := MapOutlookIn(outlook, OutlookMapping);
  }

  method MapOutlookIn(outlook: string, items: seq<(string, string)>) returns (r: Option<string>)
    ensures r == OutlookIn(outlook, items)
  {
    if outlook == "" || outlook == NotFound {
      return None;
    }
    var exact := FirstValue(items, KeyEquals(outlook));
    if exact.Some? {
      return exact;
    }
    var i := 0;
    while i < |items|
      invariant 0 <= i <= |items|
      invariant forall j | 0 <= j < i :: !KeyEqualsIgnoringCase(outlook)(items[j].0)
    {
      var (key, value) := items[i];
      if Lower(key) == Lower(outlook) {
        FirstValueAt(items, KeyEqualsIgnoringCase(outlook), i);
        return Some(value);
      }
      i := i + 1;
    }
    return Some(NotAvailable);
  }

  /** The first matching item decides `FirstValue`. */
  lemma FirstValueAt(items: seq<(string, string)>, matches: string -> bool, i: nat)
    requires i < |items| && matches(items[i].0)
    requires forall j | 0 <= j < i :: !matches(items[j].0)
    ensures FirstValue(items, matches) == Some(items[i].1)
  {
    var r := FirstValue(items, matches);
    var k :| 0 <= k < |items| && matches(items[k].0) && r.value == items[k].1
      && forall j | 0 <= j < k :: !matches(items[j].0);
    assert k == i;
  }

  /** The mapped outlook is absent exactly for an empty or "Not found"
      outlook, and is otherwise always one of the mapping's values. */
  lemma OutlookInRange(outlook: string)
    ensures OutlookOf(outlook).None? <==> outlook == "" || outlook == NotFound
    ensures OutlookOf(outlook).Some? ==> OutlookOf(outlook).value in OutlookValues()
  {
    InRangeFor(outlook, OutlookMapping, 11);
  }

  function ValuesOf(items: seq<(string, string)>): set<string> {
    set i | 0 <= i < |items| :: items[i].1
  }

  function OutlookValues(): set<string> {
    ValuesOf(OutlookMapping)
  }

  lemma InRangeFor(outlook: string, items: seq<(string, string)>, k: nat)
    requires k < |items| && items[k].1 == NotAvailable
    ensures OutlookIn(outlook, items).None? <==> outlook == "" || outlook == NotFound
    ensures OutlookIn(outlook, items).Some? ==> OutlookIn(outlook, items).value in ValuesOf(items)
  {
    assert NotAvailable in ValuesOf(items);
  }

  /** The first key equal to the outlook gives its value; when no key is,
      the first key equal to it ignoring case gives its value; when no key
      is equal even ignoring case, the result is "Not Available". */
  lemma OutlookCases(outlook: string, i: nat)
    requires outlook != "" && outlook != NotFound
    ensures (i < |OutlookMapping| && OutlookMapping[i].0 == outlook
        && (forall j | 0 <= j < i :: OutlookMapping[j].0 != outlook)) ==>
      OutlookOf(outlook) == Some(OutlookMapping[i].1)
    ensures ((forall j | 0 <= j < |OutlookMapping| :: OutlookMapping[j].0 != outlook)
        && i < |OutlookMapping| && Lower(OutlookMapping[i].0) == Lower(outlook)
        && (forall j | 0 <= j < i :: Lower(OutlookMapping[j].0) != Lower(outlook))) ==>
      OutlookOf(outlook) == Some(OutlookMapping[i].1)
    ensures (forall j | 0 <= j < |OutlookMapping| :: Lower(OutlookMapping[j].0) != Lower(outlook)) ==>
      OutlookOf(outlook) == Some(NotAvailable)
  {
    CasesFor(outlook, OutlookMapping, i);
  }

  lemma CasesFor(outlook: string, items: seq<(string, string)>, i: nat)
    requires outlook != "" && outlook != NotFound
    ensures (i < |items| && items[i].0 == outlook && (forall j | 0 <= j < i :: items[j].0 != outlook)) ==>
      OutlookIn(outlook, items) == Some(items[i].1)
    ensures ((forall j | 0 <= j < |items| :: items[j].0 != outlook)
        && i < |items| && Lower(items[i].0) == Lower(outlook)
        && (forall j | 0 <= j < i :: Lower(items[j].0) != Lower(outlook))) ==>
      OutlookIn(outlook, items) == Some(items[i].1)
    ensures (forall j | 0 <= j < |items| :: Lower(items[j].0) != Lower(outlook)) ==>
      OutlookIn(outlook, items) == Some(NotAvailable)
  {
    if i < |items| && items[i].0 == outlook && (forall j | 0 <= j < i :: items[j].0 != outlook) {
      ExactCase(outlook, items, i);
    }
    if (forall j | 0 <= j < |items| :: items[j].0 != outlook)
      && i < |items| && Lower(items[i].0) == Lower(outlook)
      && (forall j | 0 <= j < i :: Lower(items[j].0) != Lower(outlook)) {
      CaselessCase(outlook, items, i);
    }
    if forall j | 0 <= j < |items| :: Lower(items[j].0) != Lower(outlook) {
      DefaultCase(outlook, items);
    }
  }

  lemma ExactCase(outlook: string, items: seq<(string, string)>, i: nat)
    requires outlook != "" && outlook != NotFound
    requires i < |items| && items[i].0 == outlook && forall j | 0 <= j < i :: items[j].0 != outlook
    ensures OutlookIn(outlook, items) == Some(items[i].1)
  {
    FirstValueAt(items, KeyEquals(outlook), i);
  }

  lemma CaselessCase(outlook: string, items: seq<(string, string)>, i: nat)
    requires outlook != "" && outlook != NotFound
    requires forall j | 0 <= j < |items| :: items[j].0 != outlook
    requires i < |items| && Lower(items[i].0) == Lower(outlook)
    requires forall j | 0 <= j < i :: Lower(items[j].0) != Lower(outlook)
    ensures OutlookIn(outlook, items) == Some(items[i].1)
  {
    assert FirstValue(items, KeyEquals(outlook)).None?;
    FirstValueAt(items, KeyEqualsIgnoringCase(outlook), i);
  }

  lemma DefaultCase(outlook: string, items: seq<(string, string)>)
    requires outlook != "" && outlook != NotFound
    requires forall j | 0 <= j < |items| :: Lower(items[j].0) != Lower(outlook)
    ensures OutlookIn(outlook, items) == Some(NotAvailable)
  {
    forall j | 0 <= j < |items| ensures !KeyEquals(outlook)(items[j].0) && !KeyEqualsIgnoringCase(outlook)(items[j].0) {
      var key := items[j].0;
      assert Lower(key) != Lower(outlook);
    }
    assert FirstValue(items, KeyEquals(outlook)).None?;
    assert FirstValue(items, KeyEqualsIgnoringCase(outlook)).None?;
  }

  // ---------------------------------------------------------------------
  // `_parse_date`

  /** A date `strftime('%Y-%m-%d')` writes with four year digits. */
  datatype CivilDate = CivilDate(year: int, month: int, day: int)

  type FourDigitDate = d: CivilDate | 1000 <= d.year && ValidDate(d.year, d.month, d.day)
    witness CivilDate(2000, 1, 1)

  /** One `strptime` format, as a partial parser. */
  type DateFormat = string -> Option<FourDigitDate>

  function Formatted(d: FourDigitDate): (s: string)
    ensures ParseIsoDate(s) == Ok(Ordinal(d.year, d.month, d.day))
  {
    FormatParse(d.year, d.month, d.day);
    FormatIsoDate(d.year, d.month, d.day)
  }

  /** What `_parse_date` returns, with the seven formats passed in order. */
  function DateFieldOf(dateStr: string, formats: seq<DateFormat>): Option<string> {
    if dateStr == "" || dateStr == NotFound then None
    else
      var parsed := FirstMatch(formats, Strip(dateStr));
      if parsed.Some? then Some(Formatted(parsed.value)) else None
  }

  /** `_parse_date`: the formats are tried in order on the stripped text
      and the first that parses is written as YYYY-MM-DD. */
  method ParseDate(dateStr: string, formats: seq<DateFormat>) returns (r: Option<string>)
    ensures r == DateFieldOf(dateStr, formats)
  {
    if dateStr == "" || dateStr == NotFound {
      return None;
    }
    var text := Strip(dateStr);
    var k := 0;
    while k < |formats|
      invariant 0 <= k <= |formats|
      invariant forall j | 0 <= j < k :: formats[j](text).None?
    {
      var parsed := formats[k](text);
      if parsed.Some? {
        FirstMatchAt(formats, text, k);
        return Some(Formatted(parsed.value));
      }
      k := k + 1;
    }
    return None;
  }

  lemma FirstMatchAt<T>(parsers: seq<string -> Option<T>>, s: string, k: nat)
    requires k < |parsers| && parsers[k](s).Some?
    requires forall j | 0 <= j < k :: parsers[j](s).None?
    ensures FirstMatch(parsers, s) == parsers[k](s)
  {
    var r := FirstMatch(parsers, s);
    var i :| 0 <= i < |parsers| && parsers[i](s) == r && forall j | 0 <= j < i :: parsers[j](s).None?;
    assert i == k;
  }

  /** No date for an empty, "Not found" or unparsable text; otherwise the
      text of the first format that parses, which reads back under
      '%Y-%m-%d' as the same day. */
  lemma DateFieldCases(dateStr: string, formats: seq<DateFormat>)
    ensures DateFieldOf(dateStr, formats).None? <==>
      dateStr == "" || dateStr == NotFound || forall j | 0 <= j < |formats| :: formats[j](Strip(dateStr)).None?
    ensures DateFieldOf(dateStr, formats).Some? ==> exists k | 0 <= k < |formats| ::
      && formats[k](Strip(dateStr)).Some?
      && (forall j | 0 <= j < k :: formats[j](Strip(dateStr)).None?)
      && var d := formats[k](Strip(dateStr)).value;
         ParseIsoDate(DateFieldOf(dateStr, formats).value) == Ok(Ordinal(d.year, d.month, d.day))
  {
  }

  // ---------------------------------------------------------------------
  // Records

  /** A truthy optional value. */
  function Truthy(v: Option<string>): Option<string> {
    if v.Some? && v.value != "" then v else None
  }

  datatype RatingInput = RatingInput(
    companyAirtableId: string,
    instrument: Option<string>,
    rating: Option<string>,
    outlook: Option<string>,
    instrumentAmount: Option<string>,
    date: Option<string>,
    sourceUrl: Option<string>)

  /** The fields of one Credit Ratings record; `None` is a field left out. */
  datatype RatingFields = RatingFields(
    company: seq<string>,
    instrument: string,
    rating: string,
    outlook: Option<string>,
    instrumentAmount: Option<string>,
    date: Option<string>,
    sourceUrl: Option<string>)

  function RatingFieldsOf(r: RatingInput, formats: seq<DateFormat>): RatingFields {
    RatingFields(
      [r.companyAirtableId],
      r.instrument.GetOr(""),
      r.rating.GetOr(""),
      if Truthy(r.outlook).Some? then OutlookOf(r.outlook.value) else None,
      Truthy(r.instrumentAmount),
      if Truthy(r.date).Some? then DateFieldOf(r.date.value, formats) else None,
      Truthy(r.sourceUrl))
  }

  /** Every rating record links exactly its company, always carries an
      instrument and a rating, carries an outlook exactly when the input's
      is truthy and not "Not found" (and then a mapping value), and a date
      only when the input's is truthy and parses. */
  lemma RatingFieldsShape(r: RatingInput, formats: seq<DateFormat>)
    ensures RatingFieldsOf(r, formats).company == [r.companyAirtableId]
    ensures r.instrument.None? ==> RatingFieldsOf(r, formats).instrument == ""
    ensures RatingFieldsOf(r, formats).outlook.Some? <==>
      r.outlook.Some? && r.outlook.value != "" && r.outlook.value != NotFound
    ensures RatingFieldsOf(r, formats).outlook.Some? ==> RatingFieldsOf(r, formats).outlook.value in OutlookValues()
    ensures RatingFieldsOf(r, formats).date.Some? ==>
      r.date.Some? && r.date.value != "" && DateFieldOf(r.date.value, formats).Some?
    ensures RatingFieldsOf(r, formats).sourceUrl.Some? <==> r.sourceUrl.Some? && r.sourceUrl.value != ""
  {
    if r.outlook.Some? {
      OutlookInRange(r.outlook.value);
    }
  }

  /** The records `batch_create_ratings` builds, one per input, in order. */
  method RatingRecords(ratings: seq<RatingInput>, formats: seq<DateFormat>) returns (records: seq<RatingFields>)
    ensures |records| == |ratings|
    ensures forall i | 0 <= i < |ratings| :: records[i] == RatingFieldsOf(ratings[i], formats)
  {
    records := [];
    for i := 0 to |ratings|
      invariant |records| == i
      invariant forall k | 0 <= k < i :: records[k] == RatingFieldsOf(ratings[k], formats)
    {
      var fields := RatingRecord(ratings[i], formats);
      records := records + [fields];
    }
  }

  /** The `fields` dictionary of one rating. */
  method RatingRecord(r: RatingInput, formats: seq<DateFormat>) returns (fields: RatingFields)
    ensures fields == RatingFieldsOf(r, formats)
  {
    var outlook: Option<string> := None;
    if Truthy(r.outlook).Some? {
      outlook := MapOutlook(r.outlook.value);
    }
    var date: Option<string> := None;
    if Truthy(r.date).Some? {
      date := ParseDate(r.date.value, formats);
    }
    fields := RatingFields([r.companyAirtableId], r.instrument.GetOr(""), r.rating.GetOr(""),
      outlook, Truthy(r.instrumentAmount), date, Truthy(r.sourceUrl));
  }

  datatype ContactInput = ContactInput(
    name: Option<string>,
    phoneNumber: Option<string>,
    email: Option<string>,
    address: Option<string>,
    companyAirtableId: Option<string>)

  /** The fields of one Contacts record; `None` is a field left out. */
  datatype ContactFields = ContactFields(
    name: string,
    phoneNumber: Option<string>,
    email: Option<string>,
    address: Option<string>,
    companyName: Option<seq<string>>)

  /** Whether `f` is the record `batch_create_contacts` builds for `c`: the
      name always, each optional field only when truthy, and the company
      link as a one-element list. Every field is fixed by `c`. */
  predicate IsContactRecord(c: ContactInput, f: ContactFields) {
    && f.name == c.name.GetOr("")
    && f.phoneNumber == Truthy(c.phoneNumber)
    && f.email == Truthy(c.email)
    && f.address == Truthy(c.address)
    && (f.companyName.Some? <==> Truthy(c.companyAirtableId).Some?)
    && (f.companyName.Some? ==> f.companyName.value == [c.companyAirtableId.value])
  }

  /** The contact record is determined by the contact: two records built
      for the same contact are equal. */
  lemma ContactRecordUnique(c: ContactInput, f: ContactFields, g: ContactFields)
    requires IsContactRecord(c, f) && IsContactRecord(c, g)
    ensures f == g
  {
  }

  /** The records `batch_create_contacts` builds, one per contact, in order. */
  method ContactRecords(contacts: seq<ContactInput>) returns (records: seq<ContactFields>)
    ensures |records| == |contacts|
    ensures forall i | 0 <= i < |contacts| :: IsContactRecord(contacts[i], records[i])
  {
    records := [];
    for i := 0 to |contacts|
      invariant |records| == i
      invariant forall k | 0 <= k < i :: IsContactRecord(contacts[k], records[k])
    {
      var c := contacts[i];
      var link: Option<seq<string>> := None;
      if Truthy(c.companyAirtableId).Some? {
        link := Some([c.companyAirtableId.value]);
      }
      records := records + [ContactFields(c.name.GetOr(""), Truthy(c.phoneNumber), Truthy(c.email), Truthy(c.address), link)];
    }
  }

  // ---------------------------------------------------------------------
  // The create calls and the retry loop

  /** A record Airtable returns: its id. */
  datatype CreatedRecord = CreatedRecord(id: string)

  /** What one `batch_create` call does: return the created records or
      raise with a message. */
  datatype CreateOutcome = Created(records: seq<CreatedRecord>) | Raised(message: string)

  /** The exception that leaves a batch create: the last error re-raised,
      or the final "Failed to batch create … after N retries". */
  datatype CreateError = Reraised(message: string) | GaveUp(maxRetries: int)

  /** The lower-cased error text holds '429' or 'rate limit'. */
  predicate IsRateLimit(message: string) {
    Occurs(Lower(message), "429") || Occurs(Lower(message), "rate limit")
  }

  /** What the loop returns, how many create calls it makes and the seconds
      it sleeps between them. */
  datatype RetryRun = RetryRun(result: Result<seq<CreatedRecord>, CreateError>, calls: nat, waits: seq<nat>)

  /** The loop from attempt `attempt` on, with `outcome(k)` the result of
      the create call at attempt `k`. */
  function RetryFrom(attempt: nat, maxRetries: int, outcome: nat -> CreateOutcome): RetryRun
    decreases maxRetries - attempt
  {
    if attempt >= maxRetries then RetryRun(Err(GaveUp(maxRetries)), 0, [])
    else
      var o := outcome(attempt);
      if o.Created? then RetryRun(Ok(o.records), 1, [])
      else if IsRateLimit(o.message) && attempt < maxRetries - 1 then
        var rest := RetryFrom(attempt + 1, maxRetries, outcome);
        RetryRun(rest.result, rest.calls + 1, [Pow(2, attempt)] + rest.waits)
      else RetryRun(Err(Reraised(o.message)), 1, [])
  }

  /** The retry loop of `batch_create_ratings` and `batch_create_contacts`. */
  method CreateWithRetry(maxRetries: int, outcome: nat -> CreateOutcome)
    returns (result: Result<seq<CreatedRecord>, CreateError>, calls: nat, waits: seq<nat>)
    ensures RetryRun(result, calls, waits) == RetryFrom(0, maxRetries, outcome)
  {
    calls := 0;
    waits := [];
    var attempt := 0;
    while attempt < maxRetries
      invariant 0 <= attempt && (attempt <= maxRetries || attempt == 0)
      invariant calls == attempt
      invariant RetryFrom(0, maxRetries, outcome) == RetryAfter(calls, waits, RetryFrom(attempt, maxRetries, outcome))
      decreases maxRetries - attempt
    {
      var o := outcome(attempt);
      RetryStep(attempt, maxRetries, outcome, calls, waits);
      calls := calls + 1;
      if o.Created? {
        return Ok(o.records), calls, waits;
      }
      if IsRateLimit(o.message) && attempt < maxRetries - 1 {
        waits := waits + [Pow(2, attempt)];
        attempt := attempt + 1;
      } else {
        return Err(Reraised(o.message)), calls, waits;
      }
    }
    result := Err(GaveUp(maxRetries));
  }

  /** A run that follows `calls` calls and the waits between them. */
  function RetryAfter(calls: nat, waits: seq<nat>, run: RetryRun): RetryRun {
    RetryRun(run.result, run.calls + calls, waits + run.waits)
  }

  /** One attempt: it returns the records, re-raises, or waits and hands
      on to the next attempt. */
  lemma RetryStep(attempt: nat, maxRetries: int, outcome: nat -> CreateOutcome, calls: nat, waits: seq<nat>)
    requires attempt < maxRetries
    ensures var o := outcome(attempt);
      var run := RetryAfter(calls, waits, RetryFrom(attempt, maxRetries, outcome));
      && (o.Created? ==> run == RetryRun(Ok(o.records), calls + 1, waits))
      && (!o.Created? && IsRateLimit(o.message) && attempt < maxRetries - 1 ==>
          run == RetryAfter(calls + 1, waits + [Pow(2, attempt)], RetryFrom(attempt + 1, maxRetries, outcome)))
      && (!o.Created? && !(IsRateLimit(o.message) && attempt < maxRetries - 1) ==>
          run == RetryRun(Err(Reraised(o.message)), calls + 1, waits))
  {
    var o := outcome(attempt);
    if !o.Created? && IsRateLimit(o.message) && attempt < maxRetries - 1 {
      AppendAssoc(waits, [Pow(2, attempt)], RetryFrom(attempt + 1, maxRetries, outcome).waits);
    }
  }

  /** At most `max_retries` calls are made and one wait separates two
      calls; the final "after N retries" error is reached exactly when
      `max_retries` is not positive. */
  lemma {:induction false} RetryBounds(attempt: nat, maxRetries: int, outcome: nat -> CreateOutcome)
    ensures RetryFrom(attempt, maxRetries, outcome).calls <= Max(maxRetries - attempt, 0)
    ensures RetryFrom(attempt, maxRetries, outcome).calls == 0 <==> attempt >= maxRetries
    ensures RetryFrom(attempt, maxRetries, outcome).calls > 0 ==>
      |RetryFrom(attempt, maxRetries, outcome).waits| == RetryFrom(attempt, maxRetries, outcome).calls - 1
    ensures (RetryFrom(attempt, maxRetries, outcome).result.Err? &&
        RetryFrom(attempt, maxRetries, outcome).result.error.GaveUp?) <==> attempt >= maxRetries
    decreases maxRetries - attempt
  {
    if attempt < maxRetries {
      var o := outcome(attempt);
      if !o.Created? && IsRateLimit(o.message) && attempt < maxRetries - 1 {
        RetryBounds(attempt + 1, maxRetries, outcome);
      }
    }
  }

  /** The `k`-th wait lasts 2**k seconds. */
  lemma {:induction false} RetryWaits(attempt: nat, maxRetries: int, outcome: nat -> CreateOutcome)
    ensures forall k | 0 <= k < |RetryFrom(attempt, maxRetries, outcome).waits| ::
      RetryFrom(attempt, maxRetries, outcome).waits[k] == Pow(2, attempt + k)
    decreases maxRetries - attempt
  {
    if attempt < maxRetries {
      var o := outcome(attempt);
      if !o.Created? && IsRateLimit(o.message) && attempt < maxRetries - 1 {
        RetryWaits(attempt + 1, maxRetries, outcome);
        var rest := RetryFrom(attempt + 1, maxRetries, outcome);
        var waits := [Pow(2, attempt)] + rest.waits;
        assert RetryFrom(attempt, maxRetries, outcome).waits == waits;
        forall k | 0 <= k < |waits| ensures waits[k] == Pow(2, attempt + k) {
          if k > 0 {
            assert waits[k] == rest.waits[k - 1];
            assert attempt + 1 + (k - 1) == attempt + k;
          }
        }
      }
    }
  }

  /** When every call before attempt `k` hit a rate limit, attempt `k`
      decides: its records are returned, or its error is re-raised when it
      is not a rate limit or no attempt is left after it. */
  lemma {:induction false} RetryDecidedAt(attempt: nat, k: nat, maxRetries: int, outcome: nat -> CreateOutcome)
    requires attempt <= k < maxRetries
    requires forall j | attempt <= j < k :: outcome(j).Raised? && IsRateLimit(outcome(j).message)
    ensures outcome(k).Created? ==> RetryFrom(attempt, maxRetries, outcome).result == Ok(outcome(k).records)
    ensures outcome(k).Raised? && (!IsRateLimit(outcome(k).message) || k == maxRetries - 1) ==>
      RetryFrom(attempt, maxRetries, outcome).result == Err(Reraised(outcome(k).message))
    ensures (outcome(k).Created? || !IsRateLimit(outcome(k).message) || k == maxRetries - 1) ==>
      RetryFrom(attempt, maxRetries, outcome).calls == k - attempt + 1
    decreases k - attempt
  {
    if attempt < k {
      RetryDecidedAt(attempt + 1, k, maxRetries, outcome);
    }
  }

  /** `batch_create_companies`: no call for an empty list; otherwise one
      call with a record per name, whose error is re-raised. */
  method BatchCreateCompanies(companyNames: seq<string>, create: seq<string> -> CreateOutcome)
    returns (result: Result<seq<CreatedRecord>, CreateError>, called: bool)
    ensures called <==> companyNames != []
    ensures !called ==> result == Ok([])
    ensures called && create(companyNames).Created? ==> result == Ok(create(companyNames).records)
    ensures called && create(companyNames).Raised? ==> result == Err(Reraised(create(companyNames).message))
  {
    if companyNames == [] {
      return Ok([]), false;
    }
    var o := create(companyNames);
    called := true;
    result := if o.Created? then Ok(o.records) else Err(Reraised(o.message));
  }

  /** `batch_create_ratings`: no call for an empty list; otherwise the
      records are built and sent through the retry loop. */
  method BatchCreateRatings(ratings: seq<RatingInput>, formats: seq<DateFormat>, maxRetries: int,
                            outcome: seq<RatingFields> -> nat -> CreateOutcome)
    returns (result: Result<seq<CreatedRecord>, CreateError>, calls: nat, waits: seq<nat>)
    ensures ratings == [] ==> result == Ok([]) && calls == 0 && waits == []
    ensures ratings != [] ==> exists records: seq<RatingFields> ::
      && |records| == |ratings|
      && (forall i | 0 <= i < |ratings| :: records[i] == RatingFieldsOf(ratings[i], formats))
      && RetryRun(result, calls, waits) == RetryFrom(0, maxRetries, outcome(records))
  {
    if ratings == [] {
      return Ok([]), 0, [];
    }
    var records := RatingRecords(ratings, formats);
    result, calls, waits := CreateWithRetry(maxRetries, outcome(records));
  }

  /** `batch_create_contacts`: as for ratings, with the contact records. */
  method BatchCreateContacts(contacts: seq<ContactInput>, maxRetries: int,
                             outcome: seq<ContactFields> -> nat -> CreateOutcome)
    returns (result: Result<seq<CreatedRecord>, CreateError>, calls: nat, waits: seq<nat>)
    ensures contacts == [] ==> result == Ok([]) && calls == 0 && waits == []
    ensures contacts != [] ==> exists records: seq<ContactFields> ::
      && |records| == |contacts|
      && (forall i | 0 <= i < |contacts| :: IsContactRecord(contacts[i], records[i]))
      && RetryRun(result, calls, waits) == RetryFrom(0, maxRetries, outcome(records))
  {
    if contacts == [] {
      return Ok([]), 0, [];
    }
    var records := ContactRecords(contacts);
    result, calls, waits := CreateWithRetry(maxRetries, outcome(records));
  }

  // ---------------------------------------------------------------------
  // `update_scraper_status`

  const ScraperStatuses := ["Todo", "In progress", "Done", "Error"]

  /** Whether the update call is made, and the returned flag when the call
      itself succeeds or fails as `updateSucceeds` says. */
  datatype StatusUpdate = StatusUpdate(called: bool, result: bool)

  function UpdateScraperStatus(recordId: string, status: string, updateSucceeds: bool): (r: StatusUpdate)
    ensures r.called <==> recordId != "" && status in ScraperStatuses
    ensures r.result <==> r.called && updateSucceeds
    ensures !r.called ==> !r.result
  {
    if recordId == "" then StatusUpdate(false, false)
    else if status !in ScraperStatuses then StatusUpdate(false, false)
    else StatusUpdate(true, updateSucceeds)
  }
}
