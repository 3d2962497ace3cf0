# Credit-rating scraping, sync and WhatsApp campaigns — a Dafny model

This project models the Python core of a multi-tenant CRM. Its back end
scrapes credit-rating press releases from Infomerics, stores the ratings in
PostgreSQL, syncs companies, ratings and director contacts to Airtable, and
runs WhatsApp messaging campaigns through a gateway reached over RabbitMQ.

The model covers these parts, one Dafny module per source file or per group
of files that share logic:

- **Scraping API.** The in-memory job tracker (`Jobs`: a `Job` class and the
  `JobManager` dictionary), the request validators and the status bound
  (`ScrapeModels`), and the splitting of date ranges into chunks
  (`DateChunks`, on the calendar dates of `Dates`).
- **Extraction.** The press-release HTML extractor, whose API copy and
  script copy share one model (`HtmlExtractor`); the markdown extractor
  (`MarkdownExtractor`); and the grouping of entries by company with its
  summary (`Grouping`).
- **Storage.** The `credit_ratings` table with its insert-if-absent rule and
  sync flags (`RatingStore`, a `RatingDb` class).
- **Airtable and Bright Data.** Field mapping, record construction and the
  retry loops (`AirtableClient`, `BrightDataClient`); the batching loop the
  company and rating syncs share (`SyncBatches`); and the services that use
  them (`CompanyService`, `RatingService`, `ContactService`,
  `CinLookupService`, `ScrapeProcessing`).
- **Multi-tenancy.** Password and slug rules and the authentication guard
  chains (`Auth`), and the tenant-context middleware (`TenantContext`, a
  `RequestState` class).
- **WhatsApp.** The instance records (`WhatsAppInstanceManager`, an
  `InstanceManager` class), the RabbitMQ producer and status consumer
  (`WhatsAppService`), the QR and send endpoints (`WhatsAppRouter`), and the
  campaign lifecycle (`Campaigns`, a `CampaignStore` class).

Outside calls become oracles passed in as values or functions: HTTP,
RabbitMQ, Airtable, Attestr, ZaubaCorp, the Postgres helpers not shown, and
token decoding. Clocks and identifiers become parameters. Sleeps are
returned as lists of waits, and the writes a service makes are returned so
that lemmas can say which ones happen. Where a routine keeps state, the
model keeps it too: a class with `modifies` clauses, or a method with a loop
and its invariants, proved against a specification function.

## Model

| member | source | states |
|---|---|---|
| Jobs.ClampProgress | api/jobs.py:36-39 | the stored progress lies in 0..100: unchanged inside the range, 0 below it, 100 above it |
| Jobs.Job.constructor | api/jobs.py:14-27 | a new job is queued with progress 0, every counter 0, no errors and no completion time |
| Jobs.Job.UpdateStatus | api/jobs.py:29-34 | sets the status; the completion time becomes now exactly when the new status is completed or failed, and is otherwise kept, never cleared; nothing else changes |
| Jobs.Job.UpdateProgress | api/jobs.py:36-39 | the progress becomes the clamped value; status, errors, completion time and counters are unchanged |
| Jobs.Job.SetAttr | api/jobs.py:92-94 | `setattr` of one key: only the attribute of that name takes the value, an unknown key changes nothing |
| Jobs.Job.AddError | api/jobs.py:41-48 | the error list grows by exactly one entry at the end, earlier errors unchanged |
| Jobs.PrefixLength | api/jobs.py:102 | the length `jobs[:limit]` keeps: min(n, limit) for a non-negative limit, n + limit floored at 0 for a negative one |
| Jobs.SortNewestFirst | api/jobs.py:99-101 | the listing ordered by creation time, newest first, with the same members and length, distinct jobs staying distinct |
| Jobs.JobManager.constructor | api/jobs.py:72-74 | a manager starts with no jobs |
| Jobs.JobManager.GetJob | api/jobs.py:83-85 | a job is returned exactly when its id is registered, and it is the registered job |
| Jobs.JobManager.CreateJob | api/jobs.py:76-81 | the fresh queued job is registered under its id and `get_job` then returns it |
| Jobs.JobManager.UpdateJob | api/jobs.py:87-95 | for a registered id each of the six settable attributes (status, progress and the four counters) named in the keywords takes its value, the others keep theirs and unknown keys are ignored; an unknown id changes nothing |
| Jobs.JobManager.ListedJobs | api/jobs.py:99 | `list(self._jobs.values())`: every registered job once, with its creation time |
| Jobs.JobManager.ListJobs | api/jobs.py:97-102 | at most `limit` registered jobs, distinct, newest first, and no job left out is newer than the last one returned |
| ScrapeModels.ParseStatus | api/models.py:10-15 | a status text parses only to the status whose text it is |
| ScrapeModels.StatusTextRoundTrip | api/models.py:10-15 | each of the four statuses parses back from its text |
| ScrapeModels.ValidateDateFormat | api/models.py:23-31 | a date string is accepted, unchanged, exactly when it parses as YYYY-MM-DD |
| ScrapeModels.ValidateDateRange | api/models.py:33-43 | accepted exactly when both dates parse, start is not after end and the span is at most `max_days`; start after end is the first error; a too-long error reports the span in days, end minus start, which exceeds the maximum |
| ScrapeModels.ValidateProgress | api/models.py:65 | a progress is accepted, unchanged, exactly when it lies in 0..100 |
| Dates.ParseIsoDate | api/models.py:28 | `strptime(v, '%Y-%m-%d')` as a day number: an accepted text is 8 to 10 characters with '-' after the four-digit year and names a positive day |
| Dates.ParsedIsDate | api/models.py:28 | every accepted text names a real calendar date |
| Dates.FormatParse | api/tasks.py:52-53 | a date written as YYYY-MM-DD parses back to the same day |
| Dates.ParseAcceptsShortFields | api/models.py:28 | one-digit month and day fields are accepted, as `strptime` accepts them |
| Dates.ParseAcceptsSpacedDay | api/models.py:28 | a blank before the day is accepted and names the same day |
| Dates.ParseRejectsMissingDay | api/models.py:28-31 | 30 February is refused as out of range |
| Dates.ParseLeavesUnconverted | api/models.py:28-31 | day 32 is refused: the second digit is left unconverted |
| Dates.ParseRejectsBadYears | api/models.py:28-31 | year 0000 is out of range and a two-digit year does not match the format |
| Dates.IsoParser | api/database.py:120 | the ISO format as one of the formats tried: it parses a text exactly when the ISO parser does, to the same day |
| Dates.FirstMatch | api/database.py:129-134 | the result of the first format, in list order, that parses the text; none exactly when every format fails |
| DateChunks.ChunksTile | api/tasks.py:49-57 | for `chunk_days` of at least 1 the chunks cover start..end exactly, in order, contiguous, each non-empty and at most `chunk_days` days long |
| DateChunks.ChunksCount | api/tasks.py:49-57 | there are ceil((end - start + 1) / chunk_days) chunks |
| DateChunks.NonPositiveChunkStalls | api/tasks.py:49-55 | with `chunk_days` of 0 or less one turn moves the start by `chunk_days`: with 0 it never moves, so the loop as written never ends; with a negative size it walks backwards |
| DateChunks.SplitDateRange | api/tasks.py:43-57 | a date that does not parse is the error; otherwise the chunk list from start to end, empty when start is after end, and a refusal for a non-positive chunk size |
| DateChunks.ChunkLoop | api/tasks.py:46-57 | the `while current_start <= end` loop appends exactly the chunks of the range |
| DateChunks.ScrapePlanTiles | api/tasks.py:433-441 | the orchestrator splits exactly when the range spans more than `MAX_DATE_CHUNK_DAYS` days; either way the plan covers the range exactly |
| DateChunks.FifteenDayIntervals | infomerics/example_usage.py:23-53 | a date that does not parse is the error, start after end is refused, and otherwise the 15-day intervals of the range |
| DateChunks.ShortRangeOneInterval | infomerics/example_usage.py:31-47 | a range shorter than 15 days is one interval |
| MarkdownExtractor.SectionsRebuild | extract_company_data.py:48-51 | the sections after the first marker, joined back with the dropped preamble and the marker, are the content; no section holds a marker; content without one has no section |
| MarkdownExtractor.CompanyName | extract_company_data.py:58-63 | no name exactly when the section is empty or opens with a backslash |
| MarkdownExtractor.CompanyNameShape | extract_company_data.py:59-63 | a name is stripped, holds no backslash and has the visible characters of the text before the first backslash |
| MarkdownExtractor.CompanyNameSample | extract_company_data.py:59-63 | the name stops at the first backslash, and a section opening with one has no name |
| MarkdownExtractor.CleanTextClean | extract_company_data.py:117-126 | the cleaned text is trimmed and single-spaced and keeps every visible character once escaped newlines are spaces; empty text stays empty |
| MarkdownExtractor.CleanTextFixed | extract_company_data.py:117-126 | cleaning is idempotent: trimmed, single-spaced text without backslashes is its own cleaning |
| MarkdownExtractor.TruncateNoStop | extract_company_data.py:109-115 | when no stop pattern occurs the amount is the cleaned text |
| MarkdownExtractor.TruncateSkips | extract_company_data.py:109-113 | stop patterns that do not occur are passed over in list order |
| MarkdownExtractor.TruncateFirstStop | extract_company_data.py:109-113 | the first stop pattern in list order that occurs cuts the text before its first occurrence, stripped |
| MarkdownExtractor.CutHasNoStop | extract_company_data.py:110-112 | the cut text holds no copy of the pattern it was cut at |
| MarkdownExtractor.AmountOnlyStops | extract_company_data.py:98-115 | the amount is trimmed; with no stop pattern it is the cleaned text, otherwise it is cut at the first stop pattern that occurs and no longer contains it |
| MarkdownExtractor.TruncateStops | extract_company_data.py:107-115 | the stop-pattern cut of any trimmed text, as for the amount |
| MarkdownExtractor.ExtractAmountOnly | extract_company_data.py:98-115 | the loop over the stop patterns returns `AmountOnly`: empty for empty text, otherwise the cleaned text cut at the first occurrence of the first stop pattern, in list order, that occurs in it |
| MarkdownExtractor.CutAtStops | extract_company_data.py:107-115 | the `for pattern in stop_patterns` loop with its `break` cuts at the first pattern found |
| MarkdownExtractor.SectionRecordsIndex | extract_company_data.py:74-96 | one record per match, in match order, the i-th built from the i-th match |
| MarkdownExtractor.BuildRecordClean | extract_company_data.py:76-94 | every field of a record is trimmed, and name, category and rating are single-spaced as well |
| MarkdownExtractor.ContentRecordsSkipsUnnamed | extract_company_data.py:56-61 | sections without a company name contribute no record |
| MarkdownExtractor.CreditRatingExtractor.constructor | extract_company_data.py:30-32 | a new extractor holds no records |
| MarkdownExtractor.CreditRatingExtractor.ExtractInstrumentsFromSection | extract_company_data.py:68-96 | appends exactly the section's records, in match order, after the earlier ones |
| MarkdownExtractor.CreditRatingExtractor.ProcessCompanySection | extract_company_data.py:56-66 | appends the records of a named section and nothing for an unnamed one |
| MarkdownExtractor.CreditRatingExtractor.ExtractCompanyData | extract_company_data.py:44-54 | appends the records of every section after the first marker, in order, and returns the whole record list |
| HtmlExtractor.CleanTextClean | api/scraper_service.py:246-259 | the cleaned text is trimmed and single-spaced and keeps the visible characters of the entity-decoded text; empty text stays empty |
| HtmlExtractor.CleanTextFixed | api/scraper_service.py:246-259 | cleaning is idempotent: trimmed, single-spaced text without '&' is its own cleaning |
| HtmlExtractor.CleanTextDecodesAmpFirst | api/scraper_service.py:252 | '&amp;' is decoded first, so "&amp;lt;" becomes "<" |
| HtmlExtractor.CleanUrlClean | api/scraper_service.py:261-276 | an empty URL becomes 'Not found'; any other cleaned URL is trimmed and holds no backslash |
| HtmlExtractor.CleanUrlUnquotes | api/scraper_service.py:266-269 | the surrounding double quotes of a plain URL are removed |
| HtmlExtractor.CleanUrlKeepsPlain | api/scraper_service.py:261-276 | a trimmed URL without quotes or backslashes is kept as it is |
| HtmlExtractor.FieldText | api/scraper_service.py:137-177 | an absent field reads 'Not found', a present one its cleaned text |
| HtmlExtractor.FirstHref | api/scraper_service.py:179-203 | the first href of the four methods tried in order that is non-empty and not the literal 'Not found' (such an href leaves the URL unset, so the next method runs), and none only when no method gives one |
| HtmlExtractor.BlockUrl | api/scraper_service.py:179-207 | with no usable href the URL reads 'Not found'; otherwise it is the first usable href cleaned, trimmed and free of backslashes |
| HtmlExtractor.AddRecord | api/scraper_service.py:209-240 | the record is appended exactly when no earlier record has the same company, category, rating and amount and it has a category or a rating; otherwise nothing changes |
| HtmlExtractor.AddRecordWellFormed | api/scraper_service.py:209-231 | the record list stays free of key duplicates and holds only accepted records |
| HtmlExtractor.AddBlocks | api/scraper_service.py:90-92 | the blocks only append: the earlier records are kept, at most one record per block |
| HtmlExtractor.AddBlocksAppend | api/scraper_service.py:82-103 | handling two runs of blocks one after the other is handling them together |
| HtmlExtractor.AddBlocksWellFormed | api/scraper_service.py:90-92 | any run of blocks keeps the record list duplicate-free and accepted |
| HtmlExtractor.WalkStep | api/scraper_service.py:82-103 | one sibling: an element gives its rating blocks, and the walk goes on unless it is a company h3 or an hr |
| HtmlExtractor.WalkEnd | api/scraper_service.py:82 | the walk ends after the last sibling or after 50 siblings |
| HtmlExtractor.WalkBounded | api/scraper_service.py:79-83 | siblings past the 50th are never looked at |
| HtmlExtractor.WalkStops | api/scraper_service.py:94-101 | siblings after a stopping element are never looked at |
| HtmlExtractor.CompanyHeadersSelected | api/scraper_service.py:49-55 | an h3 is a company header exactly when its stripped text holds one of the company suffixes |
| HtmlExtractor.FindCompanyHeaders | api/scraper_service.py:50-55 | the filter loop keeps exactly the company headers, in page order |
| HtmlExtractor.ExtractAllWellFormed | api/scraper_service.py:38-70 | extracting a whole page keeps the record list duplicate-free and accepted |
| HtmlExtractor.ClimbToRatingBlock | api/scraper_service.py:116-127 | at most 10 levels are climbed; every level passed below the last is incomplete, and the climb stops at the first complete ancestor when there is one |
| HtmlExtractor.FindDuplicate | api/scraper_service.py:210-217 | the loop finds a duplicate exactly when an earlier record has the same key fields |
| HtmlExtractor.Extractor.constructor | api/scraper_service.py:34-36 | a new extractor holds no records |
| HtmlExtractor.Extractor.ExtractInstrumentFromBlock | api/scraper_service.py:133-244 | the record list becomes `AddRecord` of the block's record: unchanged for a duplicate on company, category, rating and amount, or when neither category nor rating was found, otherwise that record appended; true exactly when it was appended |
| HtmlExtractor.Extractor.ExtractBlocks | api/scraper_service.py:88-92 | the blocks' records are added in order and the count is the number appended |
| HtmlExtractor.Extractor.ExtractInstrumentsAfterHeader | api/scraper_service.py:72-105 | the records of the walked siblings' blocks are added and the count is the number appended |
| HtmlExtractor.Extractor.ExtractCompanyData | api/scraper_service.py:38-70 | the records of every company header's siblings are added, header by header, and the whole list is returned |
| HtmlExtractor.ReadHtmlFromJson | extract_data_press_release_page.py:52-73 | the body is returned exactly when the file is a JSON object with a non-empty body; a missing or empty body is the generic error with its prefix |
| HtmlExtractor.ValidateScrapeDate | api/scraper_service.py:351-356 | a date is accepted exactly when it parses as YYYY-MM-DD, else the message naming it |
| HtmlExtractor.PressScraper.constructor | api/scraper_service.py:285-296 | a new scraper has sent no request |
| HtmlExtractor.PressScraper.ScrapeDateRange | api/scraper_service.py:298-349 | an invalid date gives None before any request; otherwise exactly one request is sent and its outcome returned |
| HtmlExtractor.ExtractFromJsonFile | extract_data_press_release_page.py:75-108 | a file that cannot be read is the error and no record is added; otherwise the page's records are added and returned |
| Grouping.CompaniesMembers | infomerics/group_companies_instruments.py:60-61 | a company is grouped exactly when some entry carries its name, 'Unknown Company' for an entry without one |
| Grouping.InstrumentsInOrder | infomerics/group_companies_instruments.py:67-76 | a company's instruments are its entries' instruments, in input order |
| Grouping.DatesMembers | infomerics/group_companies_instruments.py:77 | a date is in a company's dates exactly when one of its entries carries it, 'N/A' for an entry without one |
| Grouping.UrlsMembers | infomerics/group_companies_instruments.py:79-80 | a url is in a company's urls exactly when it is non-empty and one of its entries carries it |
| Grouping.UnnamedEntryGrouping | infomerics/group_companies_instruments.py:61-77 | an entry without a company name is grouped under 'Unknown Company', and its absent fields read 'N/A' |
| Grouping.AbsentCompanyEmpty | infomerics/group_companies_instruments.py:60-80 | a name no entry carries gathers no instrument, date or url |
| Grouping.TotalsAddUp | infomerics/group_companies_instruments.py:83-86 | every entry is counted once: the group totals add up to the number of entries |
| Grouping.AddEntryStep | infomerics/group_companies_instruments.py:60-80 | one turn of the entry loop keeps every accumulator equal to the group of the entries read so far |
| Grouping.SortedList | infomerics/group_companies_instruments.py:84 | `sorted(list(dates))`: strictly increasing, holding exactly the set's members |
| Grouping.Insert | infomerics/group_companies_instruments.py:84 | a value placed into a strictly sorted list keeps it strictly sorted, adding only that value |
| Grouping.ListOf | infomerics/group_companies_instruments.py:85 | `list(urls)`: each member of the set once |
| Grouping.GroupByCompany | infomerics/group_companies_instruments.py:42-88 | one group per company name, holding its instruments in input order, their count, its sorted dates and its urls |
| Grouping.EmptyInputFailsSummary | infomerics/group_companies_instruments.py:142-150 | on an empty input the average divides by zero companies |
| Grouping.SummaryCounts | infomerics/group_companies_instruments.py:142-150 | the summary counts each company once and each entry once; on a non-empty input the average is entries over companies |
| Grouping.CompaniesOfNonEmpty | infomerics/group_companies_instruments.py:42-88 | there is no company exactly when there is no entry |
| RatingStore.ParseDateForDb | api/database.py:105-137 | empty text and 'Not found' give no date; otherwise the stripped text is tried against the formats in order, ISO first, and the first that parses gives the date |
| RatingStore.NullIfNotFound | api/database.py:258-261 | an optional field is stored exactly when it is present, non-empty and not 'Not found', and then unchanged |
| RatingStore.BatchKey | api/database.py:302-311 | an entry has a key exactly when its date parses and its company name is non-empty; the key carries that name |
| RatingStore.PrepareEntry | api/database.py:302-330 | an entry is prepared exactly when it has a key, and carries that key |
| RatingStore.PrepareStep | api/database.py:302-330 | the preparing loop appends one prepared row per keyed entry, in input order |
| RatingStore.PreparedKeysAreAccepted | api/database.py:302-330 | the keys of the prepared rows are exactly the keys of the accepted entries |
| RatingStore.CountNewIsNewKeys | api/database.py:334-349 | the number of inserts that return an id is the number of distinct keys not stored before, never more than the rows tried |
| RatingStore.RatingDb.constructor | api/database.py:140-197 | an empty table of ratings and companies |
| RatingStore.RatingDb.EnsureCompany | api/database.py:236-241 | `get_or_create_company`: an unknown company is added without an Airtable id, a known one is left alone; ratings unchanged |
| RatingStore.RatingDb.InsertIfAbsent | api/database.py:244-269 | `ON CONFLICT (company_name, instrument, rating, date) DO NOTHING`: an id is returned exactly when the key was not stored, and then one row is added under a fresh id; a conflict changes nothing |
| RatingStore.RatingDb.InsertRatingWithDeduplication | api/database.py:200-274 | is-new exactly when an id is returned; a date that does not parse returns (false, none) and writes nothing; otherwise the company is ensured and the row inserted unless its key is stored |
| RatingStore.RatingDb.BatchInsertRatings | api/database.py:277-359 | new + duplicate = number of inputs; new is the number of rows added and of distinct new keys; the stored keys grow by exactly the accepted keys |
| RatingStore.RatingDb.PrepareBatch | api/database.py:300-330 | the prepared rows are `Prepare` of the inputs (rows with an unparsable date or an empty company skipped), skipped + prepared = inputs, every prepared company exists afterwards with earlier companies unchanged, and no rating is written |
| RatingStore.RatingDb.InsertPrepared | api/database.py:333-349 | new + duplicate = prepared rows, new counts the rows added, and the stored keys grow by exactly the prepared keys |
| RatingStore.RatingDb.GetUnsyncedRatings | api/database.py:362-394 | exactly the stored rows of the job without an Airtable id and not marked failed, in increasing id order |
| RatingStore.RatingDb.GetCompaniesWithoutAirtableId | api/database.py:447-480 | each selected company exactly once: with a job id, the companies without an Airtable id that a row of the job names; with an empty (falsy) job id, every company without an Airtable id |
| RatingStore.CompanySelectionByJob | api/database.py:459-474 | the two branches of the query: no job id selects every company lacking an Airtable id, a job id exactly those of them named by a row of the job |
| RatingStore.RatingDb.UpdateRatingsAirtableIds | api/database.py:517-542 | each named row gets the last Airtable id given for it and its failure mark cleared; the count is the mapping's length; no key changes |
| RatingStore.RatingDb.MarkRatingsSyncFailed | api/database.py:545-569 | exactly the named stored rows are marked failed with the message; the count is the number of rows matched |
| RatingStore.MarkFailed | api/database.py:545-569 | marking rows failed keeps every row id, every key and every Airtable id |
| RatingStore.RatingDb.BatchUpdateCompanyAirtableIds | api/database.py:482-514 | upsert: each named company gets its Airtable id, the others keep theirs; the count is the mapping's size |
| RatingStore.LastAirtableId | api/database.py:529-537 | a row is given an id exactly when the mapping names it |
| RatingStore.ApplyAirtableIdsEffect | api/database.py:529-537 | the batch update leaves the row ids alone and gives each named row the last id the mapping gives it |
| RatingStore.CountNewSnoc | api/database.py:334-349 | one more insert counts as new exactly when its key is neither stored nor seen earlier in the batch |
| AirtableClient.FirstValue | api/airtable_client.py:110-112 | the value of the first key, in mapping order, that matches; none exactly when no key matches |
| AirtableClient.MapOutlook | api/airtable_client.py:91-115 | returns `OutlookOf`: none for empty text or "Not found"; otherwise the value of the exact key, else of the first key equal ignoring case, else "Not Available" |
| AirtableClient.MapOutlookIn | api/airtable_client.py:91-115 | the same rule over any mapping, as a loop over its items |
| AirtableClient.OutlookInRange | api/airtable_client.py:17-115 | no outlook exactly for empty text or 'Not found'; every other text maps to one of the mapping's values |
| AirtableClient.OutlookCases | api/airtable_client.py:104-115 | an exact key gives its value; failing that, the first key equal ignoring case gives its value; failing that, 'Not Available' |
| AirtableClient.Formatted | api/airtable_client.py:84 | a parsed date written as YYYY-MM-DD reads back as the same day |
| AirtableClient.ParseDate | api/airtable_client.py:57-89 | returns `DateFieldOf`: none for empty text or "Not found", otherwise the ISO form of the first format in list order that parses, or none |
| AirtableClient.DateFieldCases | api/airtable_client.py:57-89 | no date for empty text, 'Not found' or text no format parses; otherwise the text of the first format that parses the stripped text, in list order |
| AirtableClient.RatingFieldsShape | api/airtable_client.py:218-242 | a record links its company and always has instrument and rating; it has an outlook exactly when the input's is truthy and not 'Not found', and then a mapping value; a date only when the input's parses; a source URL exactly when the input's is truthy |
| AirtableClient.RatingRecords | api/airtable_client.py:217-242 | one record per rating, in input order |
| AirtableClient.RatingRecord | api/airtable_client.py:219-242 | the fields are `RatingFieldsOf` the rating: outlook mapped, date parsed, and optional fields present only when truthy |
| AirtableClient.ContactRecords | api/airtable_client.py:328-348 | one record per contact, in order: the name (empty when absent), each of phone, email and address present exactly when the input's is truthy and then equal to it, and the company link a one-element list of the company id exactly when that id is truthy |
| AirtableClient.ContactRecordUnique | api/airtable_client.py:328-348 | those rules fix every field of a contact's record |
| AirtableClient.CreateWithRetry | api/airtable_client.py:245-266 | result, number of calls and waits are those of `RetryFrom`: a rate-limit error before the last attempt is retried after a wait of 2^attempt, and any other error, or one on the last attempt, is raised again |
| AirtableClient.RetryStep | api/airtable_client.py:245-264 | one attempt returns the records, re-raises a non-rate-limit error or the last attempt's error, or waits 2^attempt seconds and moves on |
| AirtableClient.RetryBounds | api/airtable_client.py:245-266 | at most `max_retries` calls with one wait between two calls; the "after N retries" error comes exactly when `max_retries` is not positive |
| AirtableClient.RetryWaits | api/airtable_client.py:255-260 | the k-th wait is 2^k seconds |
| AirtableClient.RetryDecidedAt | api/airtable_client.py:245-264 | when every earlier call hit a rate limit, the first call that succeeds, fails otherwise or is the last decides the result, after exactly that many calls |
| AirtableClient.BatchCreateCompanies | api/airtable_client.py:144-167 | no call for an empty list; otherwise one call, whose records are returned or whose error is re-raised |
| AirtableClient.BatchCreateRatings | api/airtable_client.py:188-266 | no call for an empty list; otherwise the records of the ratings, in order, go through the retry loop |
| AirtableClient.BatchCreateContacts | api/airtable_client.py:301-372 | no call for an empty list; otherwise the records sent through the retry loop are, field by field, the contact records of the inputs, in order |
| AirtableClient.UpdateScraperStatus | api/airtable_client.py:268-299 | the update is called exactly for a non-empty record id and one of the four statuses; true exactly when it is called and succeeds |
| BrightDataClient.NewClient | api/bright_data_client.py:63-79 | refused exactly for an empty API key; otherwise the session carries the bearer token and the JSON content type |
| BrightDataClient.PayloadOf | api/bright_data_client.py:122-143 | zone, URL, format and the method upper-cased on ASCII letters always; the given country unless empty, else the configured one; data format, headers and body exactly when given and truthy |
| BrightDataClient.FetchUrl | api/bright_data_client.py:84-249 | the fetch as evidently intended: a URL without http:// or https:// is refused before any request; otherwise the result, POSTs and sleeps are those of the retry loop over the payload under the intended attempt rule, in which a final 429 or 5xx, a 400 and any other unexpected status raise their own error at once |
| BrightDataClient.FetchUrlAsWritten | api/bright_data_client.py:84-249 | the fetch as written: the same URL refusal and payload, with the loop's attempts following the code's `try`/`except`, so errors raised for a status are caught by the generic handler, wrapped as unexpected and retried |
| BrightDataClient.RetryLoop | api/bright_data_client.py:146-249 | result, number of POSTs and sleeps are those of `RunFrom` applied to the attempt rule, from attempt 1 up to `max_retries` |
| BrightDataClient.RunStep | api/bright_data_client.py:146-239 | one attempt returns the page, raises, or sleeps (only when an attempt is left) and moves on with the updated last exception |
| BrightDataClient.RunBounds | api/bright_data_client.py:146-249 | at most `max_retries` POSTs with one sleep between two; the "failed to fetch after N attempts" error exactly when no attempt ran |
| BrightDataClient.RunDecidedAt | api/bright_data_client.py:146-239 | when every earlier attempt was retried, the first attempt that returns or raises decides the result, after exactly that many POSTs |
| BrightDataClient.FetchBounds | api/bright_data_client.py:146-249 | for `fetch_url`, as written and as intended: at most `max_retries` POSTs, one sleep fewer than POSTs, and the exhaustion error exactly when `max_retries` is not positive |
| BrightDataClient.RunWaits | api/bright_data_client.py:179-239 | under either attempt rule, the sleep after attempt a is `retry_backoff ** a`, doubled after a 429 |
| BrightDataClient.AttemptsWait | api/bright_data_client.py:179-239 | the code as written and the intended rule sleep alike before every retry; they differ only in what they raise |
| BrightDataClient.SuccessAndAuthDecide | api/bright_data_client.py:161-229 | after timeouts and request errors, a 200 returns its text and a 401 raises the authentication error at once |
| BrightDataClient.AlwaysRateLimited | api/bright_data_client.py:171-182 | when every POST is rate limited, every attempt runs and the rate-limit error is raised |
| BrightDataClient.AsWrittenNeverRateLimited | api/bright_data_client.py:171-239 | as written the rate-limit error never leaves the loop as itself: the generic handler catches it |
| BrightDataClient.AsWrittenAlwaysRateLimited | api/bright_data_client.py:171-247 | as written, always-429 ends with the rate-limit error wrapped as unexpected |
| BrightDataClient.BadRequestRetriedAsWritten | api/bright_data_client.py:185-239 | as written a 400 is retried and a later 200 is returned; the intended loop raises the bad-request error after one POST |
| SyncBatches.ChunksConcat | api/services/company_service.py:97-98 | the slices `items[i:i + batch_size]` cover the items once, in order |
| SyncBatches.ChunksSized | api/services/company_service.py:97-98 | each slice holds between one and `batch_size` items |
| SyncBatches.ChunksCount | api/services/company_service.py:97-98 | no slices exactly for no items; there are ceil(len / batch_size) slices |
| SyncBatches.ChunksStep | api/services/company_service.py:97-98 | the slices from offset i are the slice at i followed by the slices from i + batch_size |
| SyncBatches.Paired | api/services/company_service.py:107-112 | the j-th created record is paired with the j-th item of the slice, for as many as both have |
| SyncBatches.CreateInBatches | api/services/company_service.py:97-117 | the tally is `TallyOf`: one create per slice of at most `size` items, in order; created ids paired with the slice by position; a failing slice counted whole as failed |
| SyncBatches.TallyCounts | api/services/company_service.py:90-117 | the synced count is the number of pairs, the failed count the number of failed items, and together they do not exceed the items handled |
| SyncBatches.TallyFromItems | api/services/company_service.py:107-117 | every pair and every failed item comes from the slices |
| SyncBatches.TallyAllFail | api/services/company_service.py:115-117 | when every create call raises, nothing is synced and every item is failed, in order |
| SyncBatches.TallyAllCreated | api/services/company_service.py:104-112 | when every call creates a record per item, every item is paired in order and nothing fails |
| SyncBatches.TallyPairsGrow | api/services/company_service.py:107-112 | later slices only append pairs |
| SyncBatches.TallyOfCounts | api/services/company_service.py:87-128 | empty input gives zeros; synced plus failed is at most the number of items; pairs and failed items come from the input |
| CompanyService.MappingOfMembers | api/services/company_service.py:107-111 | the name-to-id mapping holds only created pairs and has a key for every pair |
| CompanyService.BatchCreateCompanies | api/services/company_service.py:74-128 | the outcome is `BatchCreateCompaniesOf`: nothing for no names, otherwise the batch tally's counts and, when some name was mapped, one write of the name-to-record mapping |
| CompanyService.SyncCompaniesForJob | api/services/company_service.py:39-72 | the job's unsynced companies go through the batch create; none gives zero counts |
| CompanyService.CompanySyncCounts | api/services/company_service.py:87-128 | no names gives zeros and no write; synced plus failed is at most the number of names; the id write holds only given names, and happens exactly when something was synced |
| CompanyService.CompanySyncAllFail | api/services/company_service.py:115-125 | when every create raises, every name is failed and nothing is written |
| RatingService.EnrichRatings | api/services/rating_service.py:98-131 | the enriched ratings are those whose company has a truthy Airtable id, in order, and the failed ids are the ids of the others, in order |
| RatingService.EnrichPartition | api/services/rating_service.py:113-129 | every rating is either enriched with its company's id or has its id listed as failed, and the two counts add up to the number of ratings |
| RatingService.EnrichedHaveIds | api/services/rating_service.py:125-129 | an enriched rating comes from the input and carries its company's non-empty Airtable id |
| RatingService.BatchCreateRatings | api/services/rating_service.py:133-211 | the outcome is `BatchCreateRatingsOf`: the batch tally's counts, the id write-back when a record was paired, and the sync-failed mark of the ratings of failed slices |
| RatingService.BatchCreateRatingsCounts | api/services/rating_service.py:149-211 | synced plus failed is at most the number of ratings; the id update holds one pair per synced rating; the failure mark lists every rating of a failed batch with "Failed to create in Airtable" |
| RatingService.SyncRatingsForJob | api/services/rating_service.py:40-96 | the outcome is `SyncRatingsOf`: ratings without a company id are marked failed and counted failed, and the rest are batch-created |
| RatingService.SyncRatingsCounts | api/services/rating_service.py:60-96 | no ratings gives zeros and no write; the failed count adds the ratings without a company id to the batch failures; synced plus failed is at most the number of ratings |
| RatingService.MissingCompanyMarked | api/services/rating_service.py:70-79 | a rating whose company has no Airtable id is marked failed with "Company not synced to Airtable" by the first write |
| ContactService.AttestrRequestOf | api/services/contact_service.py:208-235 | Basic authorization from the key; the CIN as `reg`; the given maximum unless absent or zero, else the configured one |
| ContactService.FetchFromAttestr | api/services/contact_service.py:187-261 | an unset API key fails before any request; otherwise the result is the reply to the request built from the settings |
| ContactService.AttestrStatusMapping | api/services/contact_service.py:241-256 | 400, 401, 403, 429 and 5xx become their errors, with the body's message where the source reads one; below 400 the body is returned |
| ContactService.AuthHeader | api/services/contact_service.py:215-220 | a key ending in '=' is sent as it is; any other key is base64-encoded |
| ContactService.StoreContactsInPostgres | api/services/contact_service.py:263-321 | the counts and ids are `StoreOf`: each named contact whose upsert returns an id counts as new or updated and adds its id, in order; unnamed or unstored contacts are skipped |
| ContactService.StoreCounts | api/services/contact_service.py:280-321 | new plus updated equals the number of ids returned, at most one per contact, and every id is that of a named contact stored successfully |
| ContactService.StoreSkipsUnnamed | api/services/contact_service.py:291-294 | contacts without a name are skipped: the insert is never consulted for them |
| ContactService.SyncContactsToAirtable | api/services/contact_service.py:323-418 | the outcome is `SyncContactsOf`: a failed read raises; otherwise the contacts to sync are created, a create error marks them all failed, and a write-back error marks them all failed after they were counted synced |
| ContactService.FilterByIds | api/services/contact_service.py:348-352 | the unsynced contacts whose id is in the list, in order |
| ContactService.PairCreated | api/services/contact_service.py:391-397 | the pairs are `CreatedPairs`: the k-th created record id with the k-th contact, for as many as both lists hold |
| ContactService.MarkAllMarks | api/services/contact_service.py:408-410 | one failure mark per contact to sync, in order, each with the error |
| ContactService.CreatedPairsBound | api/services/contact_service.py:391-397 | no more pairs than contacts or created records |
| ContactService.CreateFailureMarksAll | api/services/contact_service.py:404-410 | when the batch create fails, nothing is synced and every contact to sync is counted failed and marked, in order |
| ContactService.SyncSelection | api/services/contact_service.py:343-356 | with ids, only unsynced contacts whose id is listed are synced; without, all unsynced ones; synced plus failed is at most their number when the id write-back succeeds |
| ContactService.WriteBackFailureCountsTwice | api/services/contact_service.py:392-418 | when the id write-back raises after records were created, the create handler marks every contact failed and counts them all failed while the synced count is kept, so the two counts add up to more than the contacts |
| ContactService.FetchAndStoreContacts | api/services/contact_service.py:44-185 | the result is `FetchAndStoreOf`: stored contacts are returned unless a refresh is forced, otherwise Attestr is asked and its answer is stored and synced, each failure giving its own message |
| ContactService.ExistingContactsReturned | api/services/contact_service.py:88-125 | without a forced refresh, stored contacts are returned as they are, counting those already in Airtable, and Attestr is never called |
| ContactService.AttestrAnswers | api/services/contact_service.py:128-145 | an invalid Attestr answer fails; a valid one without contacts succeeds with "No contacts found for this CIN" |
| ContactService.ProcessedCounts | api/services/contact_service.py:147-177 | new plus updated never exceeds the contacts fetched |
| CinLookupService.ScrapeCinHtml | api/services/cin_lookup_service.py:25-66 | success exactly when the scrape gave non-empty HTML, which is returned base64-encoded; otherwise an error result without HTML |
| CinLookupService.ExtractionShape | api/services/cin_lookup_service.py:68-147 | a scrape error, missing HTML or undecodable HTML gives the error extraction; an erstwhile name is kept only for 'no_results' or 'not_found'; an error without a name has no CIN |
| CinLookupService.ScrapeThenExtract | api/services/cin_lookup_service.py:25-137 | a successful scrape whose page decodes and matches hands the extractor's CIN and status on unchanged |
| CinLookupService.FallbackRule | api/services/cin_lookup_service.py:170-191 | the fallback chain starts exactly for 'no_results' or 'not_found' with an erstwhile name, and then neither store is written; fallback is reported only when it was queued |
| CinLookupService.AirtableNeverUpdatedAsWritten | api/services/cin_lookup_service.py:209-241 | as written, the Airtable step calls a `CompanyService` method that does not exist; the error is caught, so no input writes Airtable or reports it updated, and every other outcome is that of the intended step |
| CinLookupService.AirtableRule | api/airtable_client.py:169-186 | the intended step, which the rest of the model uses: it updates the company's Airtable record with the CIN exactly when Postgres was updated, the CIN is non-empty, the status is 'found' or 'multiple_matches' and the company has an Airtable record id; it reports Airtable updated only when that update succeeded |
| CinLookupService.ReadFailureHidesPostgresWrite | api/services/cin_lookup_service.py:196-252 | when reading the company back raises after the Postgres write, the result reports Postgres as not updated although the write happened |
| CinLookupService.FirstUnqueued | api/services/cin_lookup_service.py:290-303 | the first company whose chain could not be queued; every earlier one was queued |
| CinLookupService.TriggerCinLookupsForJob | api/services/cin_lookup_service.py:264-312 | the count and queued chains are `TriggerOf`: one chain per company in order; a failing queue call returns 0 and keeps the chains queued before it |
| CinLookupService.TriggerCounts | api/services/cin_lookup_service.py:276-312 | no companies gives 0; the queued chains are a prefix of the companies; the count is the number of companies exactly when every chain was queued, and 0 when one failed |
| ScrapeProcessing.ExtractInstrumentsFromResults | api/services/scrape_processing_service.py:115-161 | the instruments are `ExtractedOf`: the instruments of every successful page, page by page in order, and nothing for a failed page |
| ScrapeProcessing.SkippedResults | api/services/scrape_processing_service.py:130-159 | results without a body and chunks whose parse raises contribute nothing; every instrument comes from a usable chunk |
| ScrapeProcessing.ExtractedAppend | api/services/scrape_processing_service.py:130-161 | the instruments of two runs of results are those of each, concatenated |
| ScrapeProcessing.SyncToAirtable | api/services/scrape_processing_service.py:188-211 | stats and writes are `SyncOf`: companies are synced first, ratings then use the company ids as they stand afterwards, and the failures of the two add up |
| ScrapeProcessing.SyncTotals | api/services/scrape_processing_service.py:188-211 | synced companies, synced ratings and failures together never exceed the companies and ratings to sync; nothing to sync gives zeros and no write |
| ScrapeProcessing.CompaniesFirst | api/services/scrape_processing_service.py:198-202 | a rating whose company was created in the company step and written back is enriched with that company's new id in the rating step |
| ScrapeProcessing.WriteOne | api/database.py:482-569 | one sync write issued against the store: the store becomes `ApplyWrite` of it, a failing company write-back changes nothing, and no row is added, removed or re-keyed |
| ScrapeProcessing.WriteBack | api/database.py:482-569 | the sync writes issued in order: the store becomes `ApplyWrites` of them, with the same row ids and keys |
| ScrapeProcessing.LookupMatchesStore | api/services/company_service.py:121-126 | the company ids the rating sync uses are, for every name, those the store holds after the company sync's write-back |
| ScrapeProcessing.ProcessScrapeResults | api/services/scrape_processing_service.py:45-113 | no instruments gives all-zero stats and leaves the store unchanged; otherwise every instrument is counted new or duplicate, the store gains exactly the accepted new keys, the two syncs run on what the store holds after the save (the job's companies without an Airtable id, each once; its unsynced rows; the stored company ids), the stats are those of the syncs, and the store ends as their writes leave it |
| Auth.IsStrongPassword | api/auth/password_utils.py:48-76 | the password is accepted exactly when no message is given |
| Auth.PasswordFirstBrokenRule | api/auth/password_utils.py:64-76 | a password is accepted exactly when it breaks none of the four rules, and otherwise the message is that of the first rule broken, in the order length, uppercase, lowercase, digit |
| Auth.StrongPasswordIff | api/auth/password_utils.py:64-76 | accepted exactly when at least 8 characters long with an uppercase letter, a lowercase letter and a digit |
| Auth.PasswordSamples | api/auth/password_utils.py:64-76 | a valid 8-character password passes; a 7-character one, one without uppercase and one without lowercase get their messages |
| Auth.ValidateSlug | api/auth/models.py:21-29 | no slug passes; a slug that passes is returned unchanged; a refusal carries the slug message |
| Auth.SlugAcceptedIff | api/auth/models.py:25-28 | a slug passes exactly when it is made of lower-case letters, digits, hyphens and underscores and holds at least one letter |
| Auth.SlugUnderscorePasses | api/auth/models.py:27-28 | an underscore passes although the message mentions only hyphens |
| Auth.SlugDigitsRejected | api/auth/models.py:27-28 | a slug of digits only is refused, since it is not lower case |
| Auth.ValidateSlugField | api/auth/models.py:12-29 | the slug field passes exactly when absent or 2 to 100 characters long and accepted by the validator |
| Auth.ValidSignup | api/auth/models.py:8-29 | a signup request passes exactly when the e-mail is valid, the organisation name has 2 to 255 characters, the password at least 8, first and last names 1 to 100, the phone at most 50, and the slug field passes |
| Auth.ValidateRole | api/auth/models.py:75-82 | a role passes exactly when it is owner, admin, manager or agent |
| Auth.FullName | api/auth/dependencies.py:39-43 | first and last name joined by a space when both are set; else the one that is set; else the email |
| Auth.FullNameNonEmpty | api/auth/dependencies.py:39-43 | the full name is empty only when the email is empty and neither name is set |
| Auth.GetCurrentUser | api/auth/dependencies.py:59-144 | a user is returned only for a valid token with user id and email, whose row exists and whose account and organisation are active, and it carries that row's fields |
| Auth.BadTokenBeforeLookup | api/auth/dependencies.py:84-92 | an invalid token or one missing the user id or email is refused with 401 before any lookup |
| Auth.LookupOutcomes | api/auth/dependencies.py:114-144 | a missing row or a failing lookup gives 401; an inactive user gives "User account is inactive"; an inactive organisation gives "Organization is inactive" |
| Auth.GetCurrentActiveUser | api/auth/dependencies.py:147-167 | passes exactly an authenticated active user |
| Auth.ActiveCheckRedundant | api/auth/dependencies.py:118-167 | after `get_current_user` the active check never refuses anyone |
| Auth.RequirePermission | api/auth/dependencies.py:170-194 | an authentication failure passes through; an authenticated user passes exactly when holding the permission, else 403 |
| Auth.RequireRole | api/auth/dependencies.py:197-219 | an authentication failure passes through; an authenticated user passes exactly when their role is allowed, else 403 |
| Auth.RequireRoleMonotone | api/auth/dependencies.py:211-217 | allowing more roles never refuses a user allowed before |
| TenantContext.PublicPathIsPrefixTest | api/middleware/tenant_context.py:35-38 | public paths are tested as prefixes: '/healthcheck/internal' and '/docs-private' skip the token, '/api/health' does not |
| TenantContext.BearerToken | api/middleware/tenant_context.py:42-43 | the token holds no space |
| TenantContext.BearerTokenIsSecondPiece | api/middleware/tenant_context.py:43 | the token is the second piece of the header split on spaces |
| TenantContext.RequestState.constructor | api/middleware/tenant_context.py:30-32 | a request starts with no organisation and no user |
| TenantContext.RequestState.Dispatch | api/middleware/tenant_context.py:28-62 | both ids are cleared, then set from the decoded claims exactly when the path is not public, the header is a bearer header and the token decodes |
| TenantContext.RequestState.RequireOrganizationContext | api/middleware/tenant_context.py:78-99 | 401 exactly when no organisation is recorded, otherwise that organisation |
| TenantContext.NoContextWithoutClaims | api/middleware/tenant_context.py:35-54 | a public path, a missing or non-bearer header, or a token that does not decode records no claims |
| TenantContext.DispatchThenRequire | api/middleware/tenant_context.py:28-99 | a request carrying a decodable bearer token with an organisation gets that organisation; one whose token does not decode gets 401 |
| WhatsAppInstanceManager.NewInstance | api/services/whatsapp_instance_manager.py:45-57 | a new instance is active, unauthenticated, with the daily limit 1000, no messages sent and no QR code |
| WhatsAppInstanceManager.UniquePhonesUpdate | api/services/whatsapp_instance_manager.py:35-43 | updating a row without touching its organisation or phone keeps phone numbers unique per organisation |
| WhatsAppInstanceManager.UniquePhonesInsert | api/services/whatsapp_instance_manager.py:35-57 | inserting a row whose phone is free in its organisation keeps phone numbers unique per organisation |
| WhatsAppInstanceManager.ResetCounts | api/services/whatsapp_instance_manager.py:374-379 | the reset keeps every instance |
| WhatsAppInstanceManager.ResetIdempotent | api/services/whatsapp_instance_manager.py:374-379 | after a reset no counter is positive, and a second reset changes nothing |
| WhatsAppInstanceManager.ResetOnlyCounts | api/services/whatsapp_instance_manager.py:374-379 | the reset zeroes positive counters and changes nothing else |
| WhatsAppInstanceManager.ApplyConfig | api/services/whatsapp_instance_manager.py:495-519 | the configuration update leaves the organisation, phone, authentication state, QR code and counter alone |
| WhatsAppInstanceManager.ApplyConfigFields | api/services/whatsapp_instance_manager.py:495-507 | exactly the given name, limit and active flag are set, and nothing else changes |
| WhatsAppInstanceManager.ConfigFields | api/services/whatsapp_instance_manager.py:495-510 | no field to set exactly when none is given |
| WhatsAppInstanceManager.InstanceManager.constructor | api/services/whatsapp_instance_manager.py:13-14 | the manager starts over an empty instance table |
| WhatsAppInstanceManager.InstanceManager.CreateInstance | api/services/whatsapp_instance_manager.py:16-70 | a phone already used in the organisation gives None and inserts nothing; otherwise exactly the new row is inserted under a fresh id |
| WhatsAppInstanceManager.InstanceManager.GetInstance | api/services/whatsapp_instance_manager.py:72-116 | the row exactly when it exists and belongs to the organisation |
| WhatsAppInstanceManager.InstanceManager.UpdateInstanceStatus | api/services/whatsapp_instance_manager.py:164-222 | only that row changes; the QR expiry is now + 5 minutes exactly when a QR is given and the instance is not authenticated; the connection time is stamped only on authentication |
| WhatsAppInstanceManager.InstanceManager.UpdateInstanceDisconnected | api/services/whatsapp_instance_manager.py:224-252 | only that row changes: unauthenticated, QR cleared, disconnection stamped |
| WhatsAppInstanceManager.InstanceManager.DeleteInstance | api/services/whatsapp_instance_manager.py:254-286 | true exactly when the organisation's row existed, and then exactly that row is removed |
| WhatsAppInstanceManager.InstanceManager.GetInstanceQr | api/services/whatsapp_instance_manager.py:288-337 | None for an unknown instance; an expired QR is reported expired without its code; otherwise the code and expiry as stored |
| WhatsAppInstanceManager.InstanceManager.IncrementMessageCount | api/services/whatsapp_instance_manager.py:339-363 | only that row changes: the counter goes up by one and the send time is stamped |
| WhatsAppInstanceManager.InstanceManager.ResetDailyMessageCounts | api/services/whatsapp_instance_manager.py:365-387 | the table becomes the reset table, and the count is the number of rows whose counter was positive |
| WhatsAppInstanceManager.InstanceManager.CheckMessageLimit | api/services/whatsapp_instance_manager.py:389-440 | a missing or inactive instance cannot send, with limit 0; otherwise it can send exactly when below its limit, with the remaining count |
| WhatsAppInstanceManager.InstanceManager.InstancesNeedingInitialization | api/services/whatsapp_instance_manager.py:442-469 | exactly the active instances |
| WhatsAppInstanceManager.InstanceManager.UpdateInstanceConfig | api/services/whatsapp_instance_manager.py:471-532 | no field succeeds and changes nothing; otherwise true exactly when the organisation's row exists, and then only the given fields and the update time change |
| WhatsAppService.ContactOrPhone | api/services/whatsapp_service.py:91 | the contact name when given and non-empty, else the phone number |
| WhatsAppService.QueuedOf | api/services/whatsapp_service.py:145-151 | at most one queued entry per contact |
| WhatsAppService.FailuresOf | api/services/whatsapp_service.py:152-157 | at most one error entry per contact |
| WhatsAppService.QueuedPlusFailures | api/services/whatsapp_service.py:138-157 | every contact lands in exactly one of the queued and failed lists |
| WhatsAppService.ServicePayload | api/services/whatsapp_service.py:86-93 | the payload carries the phone, the message and the contact name or phone, and no instance id |
| WhatsAppService.BulkStep | api/services/whatsapp_service.py:138-157 | one more contact appends its queued entry, its error or its payload, according to its send result |
| WhatsAppService.WhatsAppService.Connect | api/services/whatsapp_service.py:28-49 | succeeds exactly when the broker is reachable, leaving connection and channel open with both queues declared; a failure changes nothing |
| WhatsAppService.WhatsAppService.EnsureConnection | api/services/whatsapp_service.py:51-62 | an open connection and channel are kept as they are; an open connection with a closed channel gets a new channel and both queues when the channel opens, and otherwise falls back to reconnecting; a closed connection is reopened exactly when the broker is reachable |
| WhatsAppService.WhatsAppService.SendMessage | api/services/whatsapp_service.py:64-121 | the message is queued, with its id and payload published, exactly when the connection can be ensured and the publish succeeds; a failure publishes nothing |
| WhatsAppService.WhatsAppService.SendBulkMessages | api/services/whatsapp_service.py:123-167 | the total is the number of contacts; success and failed add up to it and count the queued and error lists, which come in contact order; exactly the queued payloads are published, in order |
| WhatsAppService.WhatsAppService.SendAndRecord | api/services/whatsapp_service.py:139-157 | one iteration of the bulk loop sends one contact and records it in the queued or the error list |
| WhatsAppService.OnStatusMessage | api/services/whatsapp_service.py:284-298 | a status message is acked exactly when it decodes and the callback returns; otherwise it is nacked without requeue; the callback runs exactly when it decodes |
| WhatsAppRouter.QrAnswers | api/routers/whatsapp_instances.py:233-305 | an unknown instance gives 404; an authenticated one answers authenticated, with no QR code and not expired |
| WhatsAppRouter.SendGuards | api/routers/whatsapp_instances.py:383-411 | a send passes the guards exactly when the organisation's instance exists, is authenticated, is active and is below its daily limit |
| WhatsAppRouter.SendGuardStatuses | api/routers/whatsapp_instances.py:386-411 | the first guard that fails decides: 404 for an unknown instance, 400 when unauthenticated, 400 when inactive, and at the daily limit a 429 whose detail names the instance's limit |
| WhatsAppRouter.RouterPayload | api/routers/whatsapp_instances.py:427-442 | the queued payload carries the instance id, phone and message, with the contact name falling back to the phone |
| WhatsAppRouter.SendMessageAsWritten | api/routers/whatsapp_instances.py:367-514 | as written the endpoint has no effect: nothing is published or logged |
| WhatsAppRouter.AsWrittenNeverSends | api/routers/whatsapp_instances.py:441-512 | as written every send fails: one that passes all guards reaches `datetime.now()` without `datetime` imported and ends in a 500 |
| WhatsAppRouter.SendMessage | api/routers/whatsapp_instances.py:367-514 | a refused send has no effect; an accepted one reports success with its message id, instance and phone |
| WhatsAppRouter.CorrectedSends | api/routers/whatsapp_instances.py:383-502 | with the import in place a send succeeds exactly when the request is well formed, the guards pass and the queue is reachable; it publishes the router payload, logs the message, and logs a CRM activity exactly when a contact id is given; a refused send answers as the code as written does |
| WhatsAppRouter.QrFallbackOrder | api/routers/whatsapp_instances.py:249-295 | the gateway is consulted only for an unauthenticated known instance; "QR code not available" never happens, since the database row was just found; without a gateway QR the stored QR, expiry and expired flag are returned |
| Campaigns.ScheduledStart | api/routers/campaigns.py:197-206 | no start time or an empty one gives none; otherwise 400 exactly when the text, with 'Z' read as '+00:00', is not ISO |
| Campaigns.StatusNameInjective | api/routers/campaigns.py:106 | statuses are compared through their enum text, and no two statuses share one: a runner-written status never has a named status's text |
| Campaigns.NewCampaign | api/routers/campaigns.py:208-230 | a new campaign is a draft of the organisation and instance, created by the user, with the parsed start time, no actual start and all counters zero |
| Campaigns.IdSetSize | api/routers/campaigns.py:402-410 | the ids found are at most as many as requested, and as many exactly when the requested ids are distinct |
| Campaigns.FoundCountCheck | api/routers/campaigns.py:402-414 | the count check passes exactly when the requested ids are distinct and every one is a contact of the organisation, so a repeated id fails |
| Campaigns.AddContactsGuard | api/routers/campaigns.py:380-414 | adding passes exactly for 1 to 1000 ids on a draft or scheduled campaign of the organisation whose contacts are all found; the errors come in that order: 422, 404, 400 |
| Campaigns.StartGuard | api/routers/campaigns.py:478-504 | starting passes exactly for a draft, scheduled or paused campaign with contacts; an unknown one gives 404, the rest 400 |
| Campaigns.PauseGuard | api/routers/campaigns.py:556-574 | pausing passes exactly for a running campaign; a known campaign that is not running gives 400 |
| Campaigns.DeleteGuard | api/routers/campaigns.py:676-697 | deleting passes exactly for a known campaign that is not running; a running one gives 400 |
| Campaigns.RunPauseCycle | api/routers/campaigns.py:492-697 | a startable campaign, once running, can be paused but not restarted or deleted; once paused it can be restarted or deleted but not paused again |
| Campaigns.NoContactsAfterStart | api/routers/campaigns.py:395-399 | a running or paused campaign refuses new contacts |
| Campaigns.PendingCount | api/routers/campaigns.py:437 | the pending count never exceeds the number of links |
| Campaigns.AllPendingCount | api/routers/campaigns.py:421-437 | when every link is pending, the pending count is the number of links |
| Campaigns.AddLink | api/routers/campaigns.py:419-427 | a new pending link keeps the earlier links and adds exactly one |
| Campaigns.LinkContacts | api/routers/campaigns.py:417-430 | after the insert loop the links are the earlier ones plus the requested ids, earlier links unchanged and new ones pending, and the added count is the number of new links |
| Campaigns.CampaignStore.Find | api/routers/campaigns.py:380-386 | a campaign exactly when it exists and belongs to the organisation |
| Campaigns.CampaignStore.CreateCampaign | api/routers/campaigns.py:173-288 | 422 for a malformed request, 400 for an instance not owned or a bad start time, changing nothing; otherwise exactly the new draft campaign is added under a fresh id, which has no contact links |
| Campaigns.CampaignStore.AddContacts | api/routers/campaigns.py:367-462 | a refused request changes nothing; otherwise only this campaign's links change, gaining the requested ids as pending, and its total and pending counts are recounted from its links |
| Campaigns.CampaignStore.StartCampaign | api/routers/campaigns.py:464-541 | the answer is the start guard's; on success only this campaign changes, to running with the start time stamped |
| Campaigns.CampaignStore.PauseCampaign | api/routers/campaigns.py:543-606 | the answer is the pause guard's; on success only this campaign changes, to paused |
| Campaigns.CampaignStore.DeleteCampaign | api/routers/campaigns.py:665-724 | the answer is the delete guard's; on success exactly this campaign is removed |

## Left out

- The Node.js WhatsApp gateway is not part of this model. Its session lifecycle, its dispatch consumer and its phone formatting are all excluded; only the Python side that queues messages and consumes status updates is modelled.
- Logging, printing, reading and writing the JSON and CSV files, and the command-line scripts around the extractors and the grouping are left out. They only move data.
- HTTP sessions, RabbitMQ/pika connections, Celery task dispatch, pyairtable, the Attestr and ZaubaCorp APIs and `time.sleep` are left out. Each is an oracle parameter: the answer for each call is given, and the waits are returned as a list.
- The Postgres helpers whose code is not shown, and database errors, are not modelled. The exceptions are the places where a service turns such an error into a counted failure; those are modelled.
- The BeautifulSoup document tree is not modelled. A page is a sequence of `h3` elements with their following siblings, and the texts the `find` queries return are given.
- The regular expression that finds instrument blocks in the markdown extractor is an oracle that gives its matches in order.
- Base64 encoding, JWT decoding and signature checks, bcrypt hashing and the `EmailStr` e-mail check are opaque oracle values.
- Date parsing in several formats (`parse_date_for_db`, the Airtable date parser) is a first-match search over abstract parsers. Only `%Y-%m-%d` is concrete. Dates are day numbers.
- Python's Unicode character classes (`isupper`, `islower`, `isdigit`, `isalnum`, and the `\d` of `strptime`'s patterns, which `Dates.ParseIsoDate` reads as ASCII digits) and `str.upper()` (the request method in `BrightDataClient.PayloadOf`) are modelled on ASCII letters and digits only; a non-ASCII letter is left as it is. `isspace` uses Python's full whitespace set.
- Floating-point arithmetic is not modelled. The campaign statistics `delivery_rate` is left out with its endpoint; the grouping average is a real number.
- The `asyncio` lock of the job manager is left out. Each operation is modelled as atomic.
- `WhatsAppInstanceManager.list_instances`, and `WhatsAppService.get_connection_status`, `get_queue_stats` and `close` (with `WhatsAppStatusListener.close`), are left out. They read or report without a rule of their own.
- The campaign list, get and statistics endpoints, and the other CRUD routers (CRM, users, organisations), are left out. They are queries with no guard beyond the organisation filter.
- The JSON parsing of addresses in the contact service is left out. The parsed address is an input.
- WhatsAppInstanceManager.InstanceManager.InstancesNeedingInitialization: returns the active instances as a set, so the order of the SQL result is not modelled.
- Campaigns.CampaignStore.DeleteCampaign: removes the campaign and keeps its contact links in the link table; whatever the database's cascade does to those rows is not modelled. Ids are never reused, and a new campaign's id has no links, so those rows are never read again.
- AirtableClient.ParseDate: the date formats yield only dates from year 1000 on, whose `strftime('%Y-%m-%d')` has four year digits; a parsed date before year 1000 is not modelled.
- RatingStore.RatingDb.BatchInsertRatings: states the counts and the keys stored, not that empty or "Not found" optional columns are stored as NULL; that rule is stated once, by `RatingStore.NullIfNotFound`.
- Jobs.JobManager.ListJobs: jobs with equal creation times may come out in a different order than Python's stable sort gives; the order by creation time is stated, ties are not.
- ContactService.FetchAndStoreContacts: an Attestr answer whose `message` or `contacts` is present but JSON null is treated as absent, where Python reads `None` instead of the default.
- Jobs.JobManager.UpdateJob: keywords naming the job's other attributes (`errors`, `created_at`, `completed_at`, `job_id`, `start_date`, `end_date`, the methods) or giving a value of the wrong type are excluded, though Python's `setattr` would accept them; every caller in the scraping tasks passes only the status, the progress and the counters.
- BrightDataClient.FetchUrl: models the intended attempt rule, which differs from the code for a final 429 or 5xx, for a 400 and for any other unexpected status; the code as written is `FetchUrlAsWritten`, and the difference is recorded under Findings.
- RatingStore.RatingDb.GetCompaniesWithoutAirtableId: returns each selected company once, in no stated order. The query's `ORDER BY company_name` follows the database's collation, which the code-point order `Strings.StrLess` does not model.
- CinLookupService.UpdateCompanyCin: models the intended Airtable step, through the Airtable client on the company's record; the code as written is `UpdateCompanyCinAsWritten`, which never reaches Airtable, and the difference is recorded under Findings.
- The Airtable and sync batch sizes are the configured constant 10, not a setting read at run time.
- `uuid4`, `datetime.now()` and `CURRENT_TIMESTAMP` are parameters.

## Findings

| source | as written | input that shows it | evidently intended | confidence | as-written member | corrected member |
|---|---|---|---|---|---|---|
| api/routers/whatsapp_instances.py:441-512 | the send endpoint calls `datetime.now()`, but the module never imports `datetime`; the `NameError` is caught and answered as a 500 | any send request that passes every guard | the message is queued and logged, and the endpoint answers with its message id | high, not executed | WhatsAppRouter.AsWrittenNeverSends | WhatsAppRouter.CorrectedSends |
| api/bright_data_client.py:171-247 | the generic `except Exception` also catches the `RateLimitError` raised on the last 429, so it is wrapped as an unexpected error | a POST that answers 429 on every attempt | `RateLimitError` reaches the caller | high, not executed | BrightDataClient.AsWrittenAlwaysRateLimited | BrightDataClient.AlwaysRateLimited |
| api/bright_data_client.py:185-239 | the 400 error is caught by the generic handler and retried | a 400 answer followed by a 200 | a bad request is raised after one POST, with no retry | high, not executed | BrightDataClient.BadRequestRetriedAsWritten | BrightDataClient.FetchUrl |
| api/tasks.py:49-55 | `split_date_range` with `chunk_days` of 0 keeps the next start equal to the current one, so the loop never ends; a negative size walks the start backwards until `datetime` raises `OverflowError` below year 1 | `chunk_days = 0` with start ≤ end | a non-positive chunk size is refused | medium (the callers pass the configured 30), not executed | DateChunks.NonPositiveChunkStalls | DateChunks.SplitDateRange |
| infomerics/group_companies_instruments.py:142-150 | `print_summary` divides the instrument total by the company count | an empty list of entries | the average is reported only when there is at least one company | high, not executed | Grouping.EmptyInputFailsSummary | Grouping.SummaryCounts |
| api/services/cin_lookup_service.py:215-231 | the Airtable step calls `CompanyService.update_company_cin_in_airtable`, which no class defines; the `AttributeError` is caught and logged, so `airtable_updated` stays false | any extraction with status 'found' and a CIN, for a company with an Airtable record id, after a successful Postgres update | the CIN is written to the company's Airtable record through `AirtableClient.update_company_cin` | high, not executed | CinLookupService.AirtableNeverUpdatedAsWritten | CinLookupService.AirtableRule |
