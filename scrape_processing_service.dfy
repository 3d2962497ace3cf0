/** `ScrapeProcessingService`: the scraped pages of a job are run through
    the HTML extractor, the instruments saved to Postgres with
    deduplication, and then companies and ratings synced to Airtable, in
    that order. The ratings and companies tables are a `RatingDb`, from
    which the syncs read their companies, rows and company ids; the HTML
    parser and the Airtable calls are inputs. */
module ScrapeProcessing {
  import opened Common
  import opened Dates
  import opened SyncBatches
  import HtmlExtractor
  import RatingStore
  import CompanyService
  import RatingService

  type Instrument = HtmlExtractor.Instrument

  /** The HTML parser: the headers of a page, `None` when building the
      extractor or running it raises. */
  type PageParser = string -> Option<seq<HtmlExtractor.Header>>

  // ---------------------------------------------------------------------
  // `_extract_instruments_from_results`

  /** A scrape result is used when it exists and has a non-empty body;
      `None` stands for a missing result or a missing body. */
  predicate HasBody(body: Option<string>) { body.Some? && body.value != "" }

  predicate UsableBody(parse: PageParser, body: Option<string>) { HasBody(body) && parse(body.value).Some? }

  function Usable(parse: PageParser): Option<string> -> bool {
    body => UsableBody(parse, body)
  }

  /** The instruments one result contributes: those of a fresh extractor
      over its page, or none when it is skipped or its extraction raises. */
  function InstrumentsOf(parse: PageParser, body: Option<string>): seq<Instrument> {
    if !HasBody(body) then []
    else
      var headers := parse(body.value);
      if headers.None? then [] else HtmlExtractor.ExtractAll([], HtmlExtractor.CompanyHeaders(headers.value))
  }

  function ChunkInstruments(parse: PageParser): Option<string> -> seq<Instrument> {
    body => InstrumentsOf(parse, body)
  }

  function ExtractedOf(results: seq<Option<string>>, parse: PageParser): seq<Instrument> {
    FlatMap(results, ChunkInstruments(parse))
  }

  method ExtractInstrumentsFromResults(results: seq<Option<string>>, parse: PageParser)
    returns (allInstruments: seq<Instrument>)
    ensures allInstruments == ExtractedOf(results, parse)
  {
    allInstruments := [];
    var i := 0;
    while i < |results|
      invariant 0 <= i <= |results|
      invariant allInstruments == FlatMap(results[..i], ChunkInstruments(parse))
    {
      FlatMapStep(results, i, ChunkInstruments(parse));
      var result := results[i];
      i := i + 1;
      if !HasBody(result) {
        continue;
      }
      var headers := parse(result.value);
      if headers.None? {
        continue;
      }
      var extractor := new HtmlExtractor.Extractor();
      var extractedData := extractor.ExtractCompanyData(headers.value);
      allInstruments := allInstruments + extractedData;
    }
    assert results[..i] == results;
  }

  lemma {:induction false} FlatMapMembers<A, B>(xs: seq<A>, f: A -> seq<B>, y: B)
    requires y in FlatMap(xs, f)
    ensures exists x | x in xs :: y in f(x)
  {
    if xs != [] {
      var init, last := xs[..|xs| - 1], xs[|xs| - 1];
      if y in FlatMap(init, f) {
        FlatMapMembers(init, f, y);
        var x :| x in init && y in f(x);
        assert x in xs;
      } else {
        assert last in xs;
      }
    }
  }

  /** Results without a body and results whose extraction raises are
      skipped without stopping the others: the instruments are those of
      the usable results alone, and each instrument comes from one. */
  lemma SkippedResults(results: seq<Option<string>>, parse: PageParser)
    ensures ExtractedOf(results, parse) == FlatMap(Select(results, Usable(parse)), ChunkInstruments(parse))
    ensures forall x | x in ExtractedOf(results, parse) ::
      exists body | body in results :: Usable(parse)(body) && x in ChunkInstruments(parse)(body)
  {
    forall body: Option<string> | !Usable(parse)(body) ensures ChunkInstruments(parse)(body) == [] {
    }
    FlatMapSkips(results, ChunkInstruments(parse), Usable(parse));
    forall x | x in ExtractedOf(results, parse)
      ensures exists body | body in results :: Usable(parse)(body) && x in ChunkInstruments(parse)(body)
    {
      FlatMapMembers(results, ChunkInstruments(parse), x);
    }
  }

  /** The instruments of a run are those of its results taken one at a
      time and concatenated. */
  lemma {:induction false} ExtractedAppend(a: seq<Option<string>>, b: seq<Option<string>>, parse: PageParser)
    ensures ExtractedOf(a + b, parse) == ExtractedOf(a, parse) + ExtractedOf(b, parse)
    decreases |b|
  {
    if b != [] {
      var init := b[..|b| - 1];
      var f, last := ChunkInstruments(parse), b[|b| - 1];
      ExtractedAppend(a, init, parse);
      assert (a + b)[..|a + b| - 1] == a + init && (a + b)[|a + b| - 1] == last;
      assert FlatMap(a + b, f) == FlatMap(a + init, f) + f(last);
      assert FlatMap(b, f) == FlatMap(init, f) + f(last);
      AppendAssoc(FlatMap(a, f), FlatMap(init, f), f(last));
    } else {
      assert a + b == a;
    }
  }

  // ---------------------------------------------------------------------
  // `_sync_to_airtable`

  /** What the two syncs read and call: the company names without an
      Airtable id, the company create call and whether the id write-back
      succeeded; the unsynced ratings, the company-id lookup as it was
      before the company sync, and the rating create call. */
  datatype SyncInputs = SyncInputs(
    companiesToSync: seq<string>, companyCreate: CreateCall<string>, companyWriteOk: bool,
    unsynced: seq<RatingStore.RatingRow>, lookup: RatingService.CompanyLookup, ratingCreate: RatingService.RatingsCreate)

  datatype SyncStats = SyncStats(companiesSynced: nat, ratingsSynced: nat, syncFailures: nat)

  /** The lookup the rating sync sees: the ids written by the company sync
      on top of the ones stored before. */
  function AfterCompanySync(lookup: RatingService.CompanyLookup, written: map<string, string>): RatingService.CompanyLookup {
    name => if name in written then Some(written[name]) else lookup(name)
  }

  function RatingLookup(s: SyncInputs, company: SyncOutcome): RatingService.CompanyLookup {
    if s.companyWriteOk then AfterCompanySync(s.lookup, CompanyService.WrittenMapping(company)) else s.lookup
  }

  /** Companies are synced first, then ratings against the company ids as
      they stand afterwards; the Postgres writes are the company sync's
      followed by the rating sync's. */
  function SyncOf(s: SyncInputs): (SyncStats, seq<DbWrite>) {
    var company := CompanyService.BatchCreateCompaniesOf(s.companiesToSync, s.companyCreate);
    var rating := RatingService.SyncRatingsOf(s.unsynced, RatingLookup(s, company), s.ratingCreate);
    (SyncStats(company.synced, rating.synced, company.failed + rating.failed), company.writes + rating.writes)
  }

  /** `_sync_to_airtable`, calling the two services in order. */
  method SyncToAirtable(s: SyncInputs) returns (stats: SyncStats, writes: seq<DbWrite>)
    ensures (stats, writes) == SyncOf(s)
  {
    var companyResult := CompanyService.SyncCompaniesForJob(s.companiesToSync, s.companyCreate);
    var lookup := s.lookup;
    if s.companyWriteOk {
      lookup := AfterCompanySync(s.lookup, CompanyService.WrittenMapping(companyResult));
    }
    var ratingResult := RatingService.SyncRatingsForJob(s.unsynced, lookup, s.ratingCreate);
    stats := SyncStats(companyResult.synced, ratingResult.synced, companyResult.failed + ratingResult.failed);
    writes := companyResult.writes + ratingResult.writes;
  }

  /** The failures count both syncs' failures, and together with the two
      synced counts they never exceed the companies and ratings handled. */
  lemma SyncTotals(s: SyncInputs)
    ensures var (st, _) := SyncOf(s);
      && st.companiesSynced + st.ratingsSynced + st.syncFailures <= |s.companiesToSync| + |s.unsynced|
      && (s.companiesToSync == [] && s.unsynced == [] ==> SyncOf(s) == (SyncStats(0, 0, 0), []))
  {
    var company := CompanyService.BatchCreateCompaniesOf(s.companiesToSync, s.companyCreate);
    CompanyService.CompanySyncCounts(s.companiesToSync, s.companyCreate);
    RatingService.SyncRatingsCounts(s.unsynced, RatingLookup(s, company), s.ratingCreate);
    if s.companiesToSync == [] && s.unsynced == [] {
      var rating := RatingService.SyncRatingsOf(s.unsynced, RatingLookup(s, company), s.ratingCreate);
      assert company == SyncOutcome(0, 0, []) && rating == SyncOutcome(0, 0, []);
      assert SyncOf(s) == (SyncStats(company.synced, rating.synced, company.failed + rating.failed), company.writes + rating.writes);
      assert company.writes + rating.writes == [];
    }
  }

  /** Why companies go first: a rating whose company gets its Airtable id
      in this run's company sync is sent with that id, not marked as
      missing its company. */
  lemma CompaniesFirst(s: SyncInputs, r: RatingStore.RatingRow)
    requires s.companyWriteOk && r in s.unsynced
    requires var written := CompanyService.WrittenMapping(CompanyService.BatchCreateCompaniesOf(s.companiesToSync, s.companyCreate));
      r.key.companyName in written && written[r.key.companyName] != ""
    ensures var company := CompanyService.BatchCreateCompaniesOf(s.companiesToSync, s.companyCreate);
      RatingService.Enriched(r, CompanyService.WrittenMapping(company)[r.key.companyName])
        in RatingService.EnrichedOf(s.unsynced, RatingLookup(s, company))
  {
    var company := CompanyService.BatchCreateCompaniesOf(s.companiesToSync, s.companyCreate);
    RatingService.EnrichPartition(s.unsynced, RatingLookup(s, company));
  }

  // ---------------------------------------------------------------------
  // `process_scrape_results`

  datatype ProcessStats = ProcessStats(
    totalExtracted: nat, newRecords: nat, duplicateRecords: nat,
    companiesSynced: nat, ratingsSynced: nat, syncFailures: nat)

  /** An instrument as the dictionary `batch_insert_ratings` receives. */
  function InputOf(x: Instrument): RatingStore.RatingInput {
    RatingStore.RatingInput(Some(x.companyName), Some(x.category), Some(x.rating), Some(x.outlook),
                            Some(x.amount), Some(x.date), Some(x.url))
  }

  /** The Airtable side of the two syncs: the company create call, whether
      the company id write-back succeeds, and the rating create call. */
  datatype SyncCalls = SyncCalls(
    companyCreate: CreateCall<string>, companyWriteOk: bool, ratingCreate: RatingService.RatingsCreate)

  /** `get_company_airtable_id` over the stored companies. */
  function StoredLookup(companies: map<string, Option<string>>): RatingService.CompanyLookup {
    name => if name in companies then companies[name] else None
  }

  /** What the ratings and companies tables hold. */
  datatype Store = Store(rows: map<int, RatingStore.RatingRow>, companies: map<string, Option<string>>)

  /** The store after one write of a sync. The company id write-back
      changes nothing when it fails (it is caught and logged); the other
      writes are not expected to fail. */
  function ApplyWrite(st: Store, w: DbWrite, companyWriteOk: bool): Store {
    match w
    case MarkRatingsSyncFailed(ids, message) => st.(rows := RatingStore.MarkFailed(st.rows, ids, message))
    case UpdateRatingsAirtableIds(pairs) => st.(rows := RatingStore.ApplyAirtableIds(st.rows, pairs))
    case UpdateCompanyAirtableIds(mapping) =>
      if companyWriteOk then st.(companies := RatingStore.UpsertCompanyIds(st.companies, mapping)) else st
  }

  /** The store after the writes, applied in order. */
  function ApplyWrites(st: Store, writes: seq<DbWrite>, companyWriteOk: bool): Store
    decreases |writes|
  {
    if writes == [] then st
    else ApplyWrite(ApplyWrites(st, writes[..|writes| - 1], companyWriteOk), writes[|writes| - 1], companyWriteOk)
  }

  /** One write of a sync, issued against the store. */
  method WriteOne(db: RatingStore.RatingDb, w: DbWrite, companyWriteOk: bool)
    requires db.Valid()
    modifies db
    ensures db.Valid() && db.rows.Keys == old(db.rows.Keys) && db.Keys() == old(db.Keys())
    ensures Store(db.rows, db.companies) == ApplyWrite(Store(old(db.rows), old(db.companies)), w, companyWriteOk)
  {
    match w {
      case MarkRatingsSyncFailed(ids, message) =>
        var _ := db.MarkRatingsSyncFailed(ids, message);
      case UpdateRatingsAirtableIds(pairs) =>
        var _ := db.UpdateRatingsAirtableIds(pairs);
      case UpdateCompanyAirtableIds(mapping) =>
        if companyWriteOk {
          var _ := db.BatchUpdateCompanyAirtableIds(mapping);
          assert db.Keys() == RatingStore.KeysOf(db.rows);
        }
    }
  }

  /** The writes of the two syncs, issued against the store in order: they
      mark rows, give them Airtable ids and record company ids, and never
      add, remove or re-key a row. */
  method WriteBack(db: RatingStore.RatingDb, writes: seq<DbWrite>, companyWriteOk: bool)
    requires db.Valid()
    modifies db
    ensures db.Valid() && db.rows.Keys == old(db.rows.Keys) && db.Keys() == old(db.Keys())
    ensures Store(db.rows, db.companies) == ApplyWrites(Store(old(db.rows), old(db.companies)), writes, companyWriteOk)
  {
    var i := 0;
    while i < |writes|
      invariant 0 <= i <= |writes| && db.Valid()
      invariant db.rows.Keys == old(db.rows.Keys) && db.Keys() == old(db.Keys())
      invariant Store(db.rows, db.companies) == ApplyWrites(Store(old(db.rows), old(db.companies)), writes[..i], companyWriteOk)
    {
      assert writes[..i + 1][..i] == writes[..i];
      WriteOne(db, writes[i], companyWriteOk);
      i := i + 1;
    }
    assert writes[..i] == writes;
  }

  /** The company ids the rating sync sees are the ones the store holds
      once the company sync's write-back has been issued: the overlay of
      `RatingLookup` and the store agree on every name. */
  lemma LookupMatchesStore(s: SyncInputs, saved: Store, name: string)
    requires s.lookup == StoredLookup(saved.companies)
    ensures var company := CompanyService.BatchCreateCompaniesOf(s.companiesToSync, s.companyCreate);
      StoredLookup(ApplyWrites(saved, company.writes, s.companyWriteOk).companies)(name) == RatingLookup(s, company)(name)
  {
  }

  /** The pipeline: nothing is saved or synced when nothing was extracted;
      otherwise every instrument is saved (as new or as a duplicate), the
      two syncs run on what they read from the store as it then is
      (`saved`), and their writes are issued against it. `read` holds the
      job's companies without an Airtable id, its unsynced rows and the
      stored company ids, with `calls`. `others` are the extra date
      formats of `parse_date_for_db`. */
  method ProcessScrapeResults(db: RatingStore.RatingDb, results: seq<Option<string>>, jobId: string,
                              parse: PageParser, others: seq<DateParser>, calls: SyncCalls)
    returns (stats: ProcessStats, writes: seq<DbWrite>, read: SyncInputs, ghost saved: Store)
    requires db.Valid()
    modifies db
    ensures db.Valid()
    ensures ExtractedOf(results, parse) == [] ==>
      stats == ProcessStats(0, 0, 0, 0, 0, 0) && writes == []
      && db.rows == old(db.rows) && db.companies == old(db.companies)
    ensures ExtractedOf(results, parse) != [] ==>
      && stats.totalExtracted == |ExtractedOf(results, parse)|
      && stats.newRecords + stats.duplicateRecords == stats.totalExtracted
      && stats.newRecords == |db.rows| - |old(db.rows)|
      && db.Keys() == old(db.Keys()) + RatingStore.AcceptedKeys(MapSeq(ExtractedOf(results, parse), InputOf), RatingStore.DbDate(others))
      && read.companyCreate == calls.companyCreate && read.companyWriteOk == calls.companyWriteOk
      && read.ratingCreate == calls.ratingCreate
      && (forall i, j | 0 <= i < j < |read.companiesToSync| :: read.companiesToSync[i] != read.companiesToSync[j])
      && (forall i | 0 <= i < |read.companiesToSync| ::
            read.companiesToSync[i] in RatingStore.CompaniesWithoutAirtableId(saved.companies, saved.rows, jobId))
      && (forall n | n in RatingStore.CompaniesWithoutAirtableId(saved.companies, saved.rows, jobId) :: n in read.companiesToSync)
      && RatingStore.UnsyncedRows(saved.rows, read.unsynced, jobId)
      && read.lookup == StoredLookup(saved.companies)
      && (SyncStats(stats.companiesSynced, stats.ratingsSynced, stats.syncFailures), writes) == SyncOf(read)
      && Store(db.rows, db.companies) == ApplyWrites(saved, writes, calls.companyWriteOk)
  {
    read := SyncInputs([], calls.companyCreate, calls.companyWriteOk, [], StoredLookup(db.companies), calls.ratingCreate);
    saved := Store(db.rows, db.companies);
    var allInstruments := ExtractInstrumentsFromResults(results, parse);
    if allInstruments == [] {
      return ProcessStats(0, 0, 0, 0, 0, 0), [], read, saved;
    }
    var newRecords, duplicateRecords := db.BatchInsertRatings(MapSeq(allInstruments, InputOf), jobId, others);
    saved := Store(db.rows, db.companies);
    var companiesToSync := db.GetCompaniesWithoutAirtableId(jobId);
    var unsynced := db.GetUnsyncedRatings(jobId);
    read := SyncInputs(companiesToSync, calls.companyCreate, calls.companyWriteOk, unsynced, StoredLookup(db.companies), calls.ratingCreate);
    var syncStats;
    syncStats, writes := SyncToAirtable(read);
    WriteBack(db, writes, calls.companyWriteOk);
    stats := ProcessStats(|allInstruments|, newRecords, duplicateRecords,
                          syncStats.companiesSynced, syncStats.ratingsSynced, syncStats.syncFailures);
  }
}
