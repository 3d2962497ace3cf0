/** `RatingService`: a job's unsynced ratings are enriched with their
    company's Airtable id, sent to Airtable in batches, and the outcome is
    written back to Postgres. The Postgres reads are inputs (the unsynced
    rows and the company lookup), the Airtable call an oracle, and the
    Postgres writes are returned. */
module RatingService {
  import opened Common
  import opened RatingStore
  import opened SyncBatches

  const RatingBatchSize: nat := 10
  const MissingCompanyMessage: string := "Company not synced to Airtable"
  const CreateFailedMessage: string := "Failed to create in Airtable"

  /** `get_company_airtable_id`. */
  type CompanyLookup = string -> Option<string>

  predicate Truthy(id: Option<string>) { id.Some? && id.value != "" }

  /** A rating with `company_airtable_id` added. */
  datatype Enriched = Enriched(row: RatingRow, companyAirtableId: string)

  function CompanyOf(row: RatingRow): string { row.key.companyName }

  // ---------------------------------------------------------------------
  // `_enrich_ratings_with_company_ids`

  function EnrichedOf(ratings: seq<RatingRow>, lookup: CompanyLookup): seq<Enriched> {
    if ratings == [] then []
    else
      var last := ratings[|ratings| - 1];
      var id := lookup(CompanyOf(last));
      EnrichedOf(ratings[..|ratings| - 1], lookup) + (if Truthy(id) then [Enriched(last, id.value)] else [])
  }

  function MissingIds(ratings: seq<RatingRow>, lookup: CompanyLookup): seq<int> {
    if ratings == [] then []
    else
      var last := ratings[|ratings| - 1];
      MissingIds(ratings[..|ratings| - 1], lookup) + (if Truthy(lookup(CompanyOf(last))) then [] else [last.id])
  }

  method EnrichRatings(ratings: seq<RatingRow>, lookup: CompanyLookup) returns (enriched: seq<Enriched>, failedIds: seq<int>)
    ensures enriched == EnrichedOf(ratings, lookup)
    ensures failedIds == MissingIds(ratings, lookup)
  {
    enriched, failedIds := [], [];
    var i := 0;
    while i < |ratings|
      invariant 0 <= i <= |ratings|
      invariant enriched == EnrichedOf(ratings[..i], lookup)
      invariant failedIds == MissingIds(ratings[..i], lookup)
    {
      assert ratings[..i + 1][..i] == ratings[..i];
      var companyAirtableId := lookup(CompanyOf(ratings[i]));
      if !Truthy(companyAirtableId) {
        failedIds := failedIds + [ratings[i].id];
      } else {
        enriched := enriched + [Enriched(ratings[i], companyAirtableId.value)];
      }
      i := i + 1;
    }
    assert ratings[..i] == ratings;
  }

  /** Every rating lands on exactly one side: enriched with its company's
      id when the company has one, among the failed ids otherwise. */
  lemma {:induction false} EnrichPartition(ratings: seq<RatingRow>, lookup: CompanyLookup)
    ensures |EnrichedOf(ratings, lookup)| + |MissingIds(ratings, lookup)| == |ratings|
    ensures forall r | r in ratings && Truthy(lookup(CompanyOf(r))) ::
      Enriched(r, lookup(CompanyOf(r)).value) in EnrichedOf(ratings, lookup)
    ensures forall r | r in ratings && !Truthy(lookup(CompanyOf(r))) :: r.id in MissingIds(ratings, lookup)
    decreases |ratings|
  {
    if ratings != [] {
      var init := ratings[..|ratings| - 1];
      EnrichPartition(init, lookup);
      assert ratings == init + [ratings[|ratings| - 1]];
    }
  }

  /** Only ratings whose company has an id are enriched, and with that id. */
  lemma {:induction false} EnrichedHaveIds(ratings: seq<RatingRow>, lookup: CompanyLookup)
    ensures forall e | e in EnrichedOf(ratings, lookup) ::
      e.row in ratings && e.companyAirtableId != "" && lookup(CompanyOf(e.row)) == Some(e.companyAirtableId)
    decreases |ratings|
  {
    if ratings != [] {
      var init := ratings[..|ratings| - 1];
      EnrichedHaveIds(init, lookup);
      assert ratings == init + [ratings[|ratings| - 1]];
    }
  }

  // ---------------------------------------------------------------------
  // `_batch_create_ratings`

  /** The Airtable fields of one rating, as `batch_data` holds them; the
      date stays a day number. */
  datatype RatingData = RatingData(
    companyAirtableId: string, instrument: string, rating: string, outlook: Option<string>,
    instrumentAmount: Option<string>, date: int, sourceUrl: Option<string>)

  function BatchDataOf(e: Enriched): RatingData {
    RatingData(e.companyAirtableId, e.row.key.instrument, e.row.key.rating, e.row.outlook,
               e.row.instrumentAmount, e.row.key.date, e.row.sourceUrl)
  }

  /** `AirtableClient.batch_create_ratings`: the created record ids, or
      `None` when it raises. */
  type RatingsCreate = seq<RatingData> -> Option<seq<string>>

  /** The create call on a slice of enriched ratings. */
  function SendRatings(create: RatingsCreate): CreateCall<Enriched> {
    batch => create(MapSeq(batch, BatchDataOf))
  }

  function PairId(p: (Enriched, string)): (int, string) { (p.0.row.id, p.1) }
  function RowId(e: Enriched): int { e.row.id }

  /** The counts and the two writes (`update_ratings_airtable_ids` when a
      record was paired, `mark_ratings_sync_failed` when a slice failed). */
  function BatchCreateRatingsOf(ratings: seq<Enriched>, create: RatingsCreate): SyncOutcome {
    if ratings == [] then SyncOutcome(0, 0, [])
    else
      var t := TallyOf(ratings, RatingBatchSize, SendRatings(create));
      var mapping := MapSeq(t.pairs, PairId);
      var failedIds := MapSeq(t.failedItems, RowId);
      SyncOutcome(t.synced, t.failed,
        (if mapping != [] then [UpdateRatingsAirtableIds(mapping)] else [])
        + (if failedIds != [] then [MarkRatingsSyncFailed(failedIds, CreateFailedMessage)] else []))
  }

  method BatchCreateRatings(ratings: seq<Enriched>, create: RatingsCreate) returns (o: SyncOutcome)
    ensures o == BatchCreateRatingsOf(ratings, create)
  {
    if ratings == [] {
      return SyncOutcome(0, 0, []);
    }
    var t := CreateInBatches(ratings, RatingBatchSize, SendRatings(create));
    var mapping := MapSeq(t.pairs, PairId);
    var failedIds := MapSeq(t.failedItems, RowId);
    var writes := [];
    if mapping != [] {
      writes := writes + [UpdateRatingsAirtableIds(mapping)];
    }
    if failedIds != [] {
      writes := writes + [MarkRatingsSyncFailed(failedIds, CreateFailedMessage)];
    }
    o := SyncOutcome(t.synced, t.failed, writes);
  }

  /** Created plus failed never exceeds the ratings sent; the failed ones
      are written back as failed, one id per failed rating, and the
      paired ones with their record ids, one pair per synced rating. */
  lemma BatchCreateRatingsCounts(ratings: seq<Enriched>, create: RatingsCreate)
    ensures BatchCreateRatingsOf(ratings, create).synced + BatchCreateRatingsOf(ratings, create).failed <= |ratings|
    ensures forall w | w in BatchCreateRatingsOf(ratings, create).writes ::
      (w.UpdateRatingsAirtableIds? ==> |w.pairs| == BatchCreateRatingsOf(ratings, create).synced)
      && (w.MarkRatingsSyncFailed? ==> |w.ids| == BatchCreateRatingsOf(ratings, create).failed && w.message == CreateFailedMessage)
    ensures BatchCreateRatingsOf(ratings, create).failed > 0 ==>
      MarkRatingsSyncFailed(MapSeq(TallyOf(ratings, RatingBatchSize, SendRatings(create)).failedItems, RowId), CreateFailedMessage)
        in BatchCreateRatingsOf(ratings, create).writes
  {
    if ratings != [] {
      TallyOfCounts(ratings, RatingBatchSize, SendRatings(create));
    }
  }

  // ---------------------------------------------------------------------
  // `sync_ratings_for_job`

  function SyncRatingsOf(unsynced: seq<RatingRow>, lookup: CompanyLookup, create: RatingsCreate): SyncOutcome {
    if unsynced == [] then SyncOutcome(0, 0, [])
    else
      var enriched := EnrichedOf(unsynced, lookup);
      var missing := MissingIds(unsynced, lookup);
      var marked := if missing != [] then [MarkRatingsSyncFailed(missing, MissingCompanyMessage)] else [];
      if enriched == [] then SyncOutcome(0, |missing|, marked)
      else
        var batch := BatchCreateRatingsOf(enriched, create);
        SyncOutcome(batch.synced, batch.failed + |missing|, marked + batch.writes)
  }

  method SyncRatingsForJob(unsynced: seq<RatingRow>, lookup: CompanyLookup, create: RatingsCreate) returns (o: SyncOutcome)
    ensures o == SyncRatingsOf(unsynced, lookup, create)
  {
    if unsynced == [] {
      return SyncOutcome(0, 0, []);
    }
    var enriched, failedRatingIds := EnrichRatings(unsynced, lookup);
    var writes := [];
    if failedRatingIds != [] {
      writes := [MarkRatingsSyncFailed(failedRatingIds, MissingCompanyMessage)];
    }
    if enriched == [] {
      return SyncOutcome(0, |failedRatingIds|, writes);
    }
    var batch := BatchCreateRatings(enriched, create);
    o := SyncOutcome(batch.synced, batch.failed + |failedRatingIds|, writes + batch.writes);
  }

  /** No unsynced ratings gives zeros and no write; the reported failures
      are the batch failures plus the ratings whose company has no
      Airtable id, and synced plus failed never exceeds the ratings. */
  lemma SyncRatingsCounts(unsynced: seq<RatingRow>, lookup: CompanyLookup, create: RatingsCreate)
    ensures unsynced == [] ==> SyncRatingsOf(unsynced, lookup, create) == SyncOutcome(0, 0, [])
    ensures unsynced != [] ==>
      SyncRatingsOf(unsynced, lookup, create).failed ==
      BatchCreateRatingsOf(EnrichedOf(unsynced, lookup), create).failed + |MissingIds(unsynced, lookup)|
    ensures SyncRatingsOf(unsynced, lookup, create).synced + SyncRatingsOf(unsynced, lookup, create).failed <= |unsynced|
  {
    EnrichPartition(unsynced, lookup);
    BatchCreateRatingsCounts(EnrichedOf(unsynced, lookup), create);
  }

  /** A rating whose company has no Airtable id is written back as failed
      with the missing-company message, before any Airtable call. */
  lemma MissingCompanyMarked(unsynced: seq<RatingRow>, lookup: CompanyLookup, create: RatingsCreate, r: RatingRow)
    requires r in unsynced && !Truthy(lookup(CompanyOf(r)))
    ensures |SyncRatingsOf(unsynced, lookup, create).writes| > 0
    ensures SyncRatingsOf(unsynced, lookup, create).writes[0] == MarkRatingsSyncFailed(MissingIds(unsynced, lookup), MissingCompanyMessage)
    ensures r.id in SyncRatingsOf(unsynced, lookup, create).writes[0].ids
  {
    EnrichPartition(unsynced, lookup);
  }
}
