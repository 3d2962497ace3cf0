/** `CinLookupService` and `CinOrchestrationService`: the three steps of
    the CIN lookup chain (scrape ZaubaCorp, extract the CIN, store it)
    as decisions over the step results, and the loop that starts one
    chain per company of a job. The scraper, the extractor, base64, the
    Postgres helpers, the Airtable update and the task queue are oracles;
    the calls a step makes are returned so that the lemmas can say which
    ones happen. */
module CinLookupService {
  import opened Common

  const StatusSuccess := "success"
  const StatusError := "error"
  const StatusFound := "found"
  const StatusMultipleMatches := "multiple_matches"
  const StatusNoResults := "no_results"
  const StatusNotFound := "not_found"

  predicate Truthy(s: Option<string>) { s.Some? && s.value != "" }

  /** The statuses after which the erstwhile name is tried. */
  predicate NoMatch(status: string) { status == StatusNoResults || status == StatusNotFound }

  /** The statuses that carry a CIN worth copying to Airtable. */
  predicate CinFound(status: string) { status == StatusFound || status == StatusMultipleMatches }

  // ---------------------------------------------------------------------
  // `scrape_cin_html`

  /** The result of the scrape step; `html` is the base64 of the page. */
  datatype ScrapeResult = ScrapeResult(companyId: int, companyName: string, html: Option<string>, status: string)

  /** `scraped` is the page the scraper returned, `None` when it returned
      nothing or raised; `encode` is UTF-8 then base64. */
  function ScrapeCinHtml(companyId: int, companyName: string, scraped: Option<string>, encode: string -> string): (r: ScrapeResult)
    ensures r.companyId == companyId && r.companyName == companyName
    ensures r.status == StatusSuccess <==> Truthy(scraped)
    ensures r.status == StatusSuccess || r.status == StatusError
    ensures Truthy(scraped) ==> r.html == Some(encode(scraped.value))
    ensures !Truthy(scraped) ==> r.html.None?
  {
    if Truthy(scraped) then ScrapeResult(companyId, companyName, Some(encode(scraped.value)), StatusSuccess)
    else ScrapeResult(companyId, companyName, None, StatusError)
  }

  // ---------------------------------------------------------------------
  // `extract_cin_from_html`

  /** The result of the extract step. `companyName` is absent from the
      error results; `erstwhileName` is set only for the fallback. */
  datatype Extraction = Extraction(
    companyId: int, companyName: Option<string>, cin: Option<string>, status: string, erstwhileName: Option<string>)

  /** The collaborators of the extract step: `decode` is base64 then UTF-8
      (`None` when it raises), `extract` the extractor's (cin, status)
      (`None` when it raises), `erstwhile` the former-name parse of a
      company name (`None` when it raises, `Some(None)` when there is no
      former name). */
  datatype Extractors = Extractors(
    decode: string -> Option<string>,
    extract: (string, string) -> Option<(Option<string>, string)>,
    erstwhile: string -> Option<Option<string>>)

  function ExtractError(companyId: int): Extraction {
    Extraction(companyId, None, None, StatusError, None)
  }

  function ExtractCinFromHtml(s: ScrapeResult, x: Extractors): Extraction {
    if s.status == StatusError || !Truthy(s.html) then ExtractError(s.companyId)
    else
      var page := x.decode(s.html.value);
      if page.None? then ExtractError(s.companyId)
      else
        var found := x.extract(page.value, s.companyName);
        if found.None? then ExtractError(s.companyId)
        else
          var (cin, status) := found.value;
          var result := Extraction(s.companyId, Some(s.companyName), cin, status, None);
          if !NoMatch(status) then result
          else
            var former := x.erstwhile(s.companyName);
            if former.None? then ExtractError(s.companyId)
            else if Truthy(former.value) then result.(erstwhileName := former.value)
            else result
  }

  /** The error results carry no CIN; an erstwhile name is attached only
      after a no-match status, and only when there is one. */
  lemma ExtractionShape(s: ScrapeResult, x: Extractors)
    ensures var e := ExtractCinFromHtml(s, x);
      && e.companyId == s.companyId
      && (s.status == StatusError || !Truthy(s.html) || x.decode(s.html.value).None? ==> e == ExtractError(s.companyId))
      && (e.erstwhileName.Some? ==> NoMatch(e.status) && Truthy(e.erstwhileName))
      && (e.status == StatusError && e.companyName.None? ==> e.cin.None?)
  {
  }

  /** A successful scrape whose encoding `decode` undoes reaches the
      extractor with the scraped page itself. */
  lemma ScrapeThenExtract(companyId: int, companyName: string, page: string, encode: string -> string, x: Extractors)
    requires page != "" && encode(page) != ""
    requires x.decode(encode(page)) == Some(page)
    requires x.extract(page, companyName).Some?
    requires !NoMatch(x.extract(page, companyName).value.1)
    ensures ExtractCinFromHtml(ScrapeCinHtml(companyId, companyName, Some(page), encode), x)
      == Extraction(companyId, Some(companyName), x.extract(page, companyName).value.0, x.extract(page, companyName).value.1, None)
  {
  }

  // ---------------------------------------------------------------------
  // `update_company_cin`

  /** The row `get_company_by_id` returns. */
  datatype CompanyRow = CompanyRow(companyName: string, airtableRecordId: Option<string>)

  /** The outside calls the update step makes. `UpdateAirtableCin` is
      `AirtableClient.update_company_cin` on the company's record. */
  datatype CinCall =
    | StartFallbackChain(companyId: int, erstwhileName: string)
    | UpdatePostgresCin(companyId: int, cin: Option<string>, status: string)
    | GetCompany(companyId: int)
    | UpdateAirtableCin(airtableRecordId: string, foundCin: string)

  datatype CinUpdate = CinUpdate(companyId: int, postgresUpdated: bool, airtableUpdated: bool, fallbackTriggered: bool)

  /** What the collaborators answer: whether the fallback chain could be
      queued; `update_company_cin`'s result (`None` when it raises); the
      company row (`None` when the read raises, `Some(None)` for no row);
      the Airtable update's result (`None` when building the client
      raises). */
  datatype CinStores = CinStores(
    fallbackQueued: bool, postgres: Option<bool>, company: Option<Option<CompanyRow>>, airtable: Option<bool>)

  function Failed(companyId: int): CinUpdate { CinUpdate(companyId, false, false, false) }

  /** The update step with the calls it made, in order. `reachesAirtable`
      says whether the Airtable step can reach Airtable at all: the code
      calls `CompanyService.update_company_cin_in_airtable`, which does
      not exist, so the `AttributeError` is caught inside the step and
      Airtable is never written (false); the evidently intended step
      updates the company's record through the Airtable client (true). */
  function UpdateStep(e: Extraction, st: CinStores, reachesAirtable: bool): (seq<CinCall>, CinUpdate) {
    if NoMatch(e.status) && Truthy(e.erstwhileName) then
      var call := [StartFallbackChain(e.companyId, e.erstwhileName.value)];
      if st.fallbackQueued then (call, CinUpdate(e.companyId, false, false, true))
      else (call, Failed(e.companyId))
    else
      var pg := [UpdatePostgresCin(e.companyId, e.cin, e.status)];
      if st.postgres.None? || !st.postgres.value then (pg, Failed(e.companyId))
      else if !(Truthy(e.cin) && CinFound(e.status)) then (pg, CinUpdate(e.companyId, true, false, false))
      else
        var read := pg + [GetCompany(e.companyId)];
        if st.company.None? then (read, Failed(e.companyId))
        else if st.company.value.None? || !Truthy(st.company.value.value.airtableRecordId) then
          (read, CinUpdate(e.companyId, true, false, false))
        else if !reachesAirtable then (read, CinUpdate(e.companyId, true, false, false))
        else
          var calls := read + [UpdateAirtableCin(st.company.value.value.airtableRecordId.value, e.cin.value)];
          (calls, CinUpdate(e.companyId, true, st.airtable == Some(true), false))
  }

  /** `update_company_cin` as written. */
  function UpdateCompanyCinAsWritten(e: Extraction, st: CinStores): (seq<CinCall>, CinUpdate) {
    UpdateStep(e, st, false)
  }

  /** `update_company_cin` with the Airtable step it evidently intends. */
  function UpdateCompanyCin(e: Extraction, st: CinStores): (seq<CinCall>, CinUpdate) {
    UpdateStep(e, st, true)
  }

  /** As written, no input makes the step write Airtable or report it
      written, whatever the stores answer; everything else it does is
      what the intended step does, whose calls merely extend its own. */
  lemma AirtableNeverUpdatedAsWritten(e: Extraction, st: CinStores)
    ensures var (calls, r) := UpdateCompanyCinAsWritten(e, st);
      && !r.airtableUpdated
      && (forall k | 0 <= k < |calls| :: !calls[k].UpdateAirtableCin?)
      && var (fixedCalls, fixed) := UpdateCompanyCin(e, st);
      && calls <= fixedCalls
      && r == fixed.(airtableUpdated := false)
  {
  }

  /** The fallback is started exactly when the status is a no-match and an
      erstwhile name is present, and then neither store is written. */
  lemma FallbackRule(e: Extraction, st: CinStores)
    ensures var (calls, r) := UpdateCompanyCin(e, st);
      && ((exists k | 0 <= k < |calls| :: calls[k].StartFallbackChain?) <==> NoMatch(e.status) && Truthy(e.erstwhileName))
      && (NoMatch(e.status) && Truthy(e.erstwhileName) ==>
            calls == [StartFallbackChain(e.companyId, e.erstwhileName.value)] && !r.postgresUpdated && !r.airtableUpdated)
      && (r.fallbackTriggered ==> NoMatch(e.status) && Truthy(e.erstwhileName) && st.fallbackQueued)
  {
    var (calls, r) := UpdateCompanyCin(e, st);
    if !(NoMatch(e.status) && Truthy(e.erstwhileName)) {
      assert calls[0].UpdatePostgresCin?;
      forall k | 0 <= k < |calls| ensures !calls[k].StartFallbackChain? {
      }
    } else {
      assert calls[0].StartFallbackChain?;
    }
  }

  /** In the intended step, Airtable is written only after a Postgres
      update, for a CIN that was found, of a company with an Airtable
      record id; it is then that record that receives the CIN. */
  lemma AirtableRule(e: Extraction, st: CinStores)
    ensures var (calls, r) := UpdateCompanyCin(e, st);
      && ((exists k | 0 <= k < |calls| :: calls[k].UpdateAirtableCin?) <==>
            && !(NoMatch(e.status) && Truthy(e.erstwhileName))
            && st.postgres == Some(true) && Truthy(e.cin) && CinFound(e.status)
            && st.company.Some? && st.company.value.Some? && Truthy(st.company.value.value.airtableRecordId))
      && (forall k | 0 <= k < |calls| && calls[k].UpdateAirtableCin? ::
            calls[k] == UpdateAirtableCin(st.company.value.value.airtableRecordId.value, e.cin.value))
      && (r.airtableUpdated ==> r.postgresUpdated && Truthy(e.cin) && CinFound(e.status) && st.airtable == Some(true))
  {
    var (calls, r) := UpdateCompanyCin(e, st);
    if calls[|calls| - 1].UpdateAirtableCin? {
      assert calls[|calls| - 1] in calls;
      forall k | 0 <= k < |calls| - 1 ensures !calls[k].UpdateAirtableCin? {
      }
    } else {
      forall k | 0 <= k < |calls| ensures !calls[k].UpdateAirtableCin? {
      }
    }
  }

  /** A company read that raises after a successful Postgres write is
      caught by the outer handler, which reports Postgres as not updated. */
  lemma ReadFailureHidesPostgresWrite(e: Extraction, st: CinStores)
    requires !NoMatch(e.status) && st.postgres == Some(true) && Truthy(e.cin) && CinFound(e.status) && st.company.None?
    ensures UpdateCompanyCin(e, st).0[0] == UpdatePostgresCin(e.companyId, e.cin, e.status)
    ensures !UpdateCompanyCin(e, st).1.postgresUpdated
  {
  }

  // ---------------------------------------------------------------------
  // `trigger_cin_lookups_for_job`

  datatype CompanyRef = CompanyRef(id: int, companyName: string)

  /** The index of the first company whose chain cannot be queued, or the
      length when all can. */
  function FirstUnqueued(companies: seq<CompanyRef>, queue: CompanyRef -> bool): (k: nat)
    ensures k <= |companies|
    ensures forall i | 0 <= i < k :: queue(companies[i])
    ensures k < |companies| ==> !queue(companies[k])
  {
    if companies == [] then 0
    else if !queue(companies[0]) then 0
    else 1 + FirstUnqueued(companies[1..], queue)
  }

  /** The count returned and the chains that were queued. `companies` is
      `None` when the read raises; `queue` says whether `apply_async`
      succeeds for a company. A failure returns 0, leaving the chains
      queued before it running. */
  function TriggerOf(companies: Option<seq<CompanyRef>>, queue: CompanyRef -> bool): (nat, seq<CompanyRef>) {
    if companies.None? || companies.value == [] then (0, [])
    else
      var k := FirstUnqueued(companies.value, queue);
      if k == |companies.value| then (k, companies.value) else (0, companies.value[..k])
  }

  method TriggerCinLookupsForJob(companies: Option<seq<CompanyRef>>, queue: CompanyRef -> bool)
    returns (triggeredCount: nat, queued: seq<CompanyRef>)
    ensures (triggeredCount, queued) == TriggerOf(companies, queue)
  {
    if companies.None? || companies.value == [] {
      return 0, [];
    }
    var cs := companies.value;
    triggeredCount, queued := 0, [];
    var i := 0;
    while i < |cs|
      invariant 0 <= i <= |cs| && i <= FirstUnqueued(cs, queue)
      invariant triggeredCount == i && queued == cs[..i]
    {
      if !queue(cs[i]) {
        return 0, queued;
      }
      queued := queued + [cs[i]];
      triggeredCount := triggeredCount + 1;
      i := i + 1;
    }
    assert cs[..i] == cs;
  }

  /** One chain per company: the count is the number of companies when
      every chain is queued, and 0 otherwise; the chains queued are those
      of a prefix of the companies, in order. */
  lemma TriggerCounts(companies: Option<seq<CompanyRef>>, queue: CompanyRef -> bool)
    ensures var (n, queued) := TriggerOf(companies, queue);
      && (companies.None? || companies.value == [] ==> n == 0 && queued == [])
      && (companies.Some? ==> queued <= companies.value)
      && (companies.Some? && companies.value != [] ==>
            (n == |companies.value| <==> forall c | c in companies.value :: queue(c)))
      && (n == 0 || n == |queued|)
      && forall c | c in queued :: queue(c)
  {
    if companies.Some? && companies.value != [] {
      var cs := companies.value;
      var k := FirstUnqueued(cs, queue);
      if k < |cs| {
        assert cs[k] in cs;
      }
      forall c | c in TriggerOf(companies, queue).1 ensures queue(c) {
        var j :| 0 <= j < k && cs[j] == c;
      }
    }
  }
}
