/** The PostgreSQL side of the scraping pipeline: the `credit_ratings`
    table with its uniqueness on (company, instrument, rating, date), the
    `companies` table's Airtable ids, the insert-if-absent operations and
    the sync-flag updates. Row ids come from a counter, as from a serial
    column. Database failures are not modelled. */
module RatingStore {
  import opened Common
  import opened Strings
  import opened Dates

  /** `parse_date_for_db`: the formats are '%Y-%m-%d' and then `others`
      (the six textual formats), tried in order on the stripped text. */
  function ParseDateForDb(dateStr: string, others: seq<DateParser>): (r: Option<int>)
    ensures dateStr == "" || dateStr == "Not found" ==> r == None
    ensures dateStr != "" && dateStr != "Not found" && ParseIsoDate(Strip(dateStr)).Ok? ==>
      r == Some(ParseIsoDate(Strip(dateStr)).value)
    ensures dateStr != "" && dateStr != "Not found" && ParseIsoDate(Strip(dateStr)).Err? ==>
      r == FirstMatch(others, Strip(dateStr))
  {
    if dateStr == "" || dateStr == "Not found" then None
    else
      var parsers := [IsoParser] + others;
      assert parsers[1..] == others;
      FirstMatch(parsers, Strip(dateStr))
  }

  /** The columns of the uniqueness constraint. */
  datatype RatingKey = RatingKey(companyName: string, instrument: string, rating: string, date: int)

  datatype RatingRow = RatingRow(
    id: int, key: RatingKey, outlook: Option<string>, instrumentAmount: Option<string>,
    sourceUrl: Option<string>, jobId: string,
    airtableRecordId: Option<string>, syncFailed: bool, syncError: Option<string>)

  /** `value if value and value != "Not found" else None`. */
  function NullIfNotFound(v: Option<string>): (r: Option<string>)
    ensures r.Some? <==> v.Some? && v.value != "" && v.value != "Not found"
    ensures r.Some? ==> r == v
  {
    if v.Some? && v.value != "" && v.value != "Not found" then v else None
  }

  /** One dictionary of `ratings_data`; `None` is a missing key. */
  datatype RatingInput = RatingInput(
    companyName: Option<string>, instrumentCategory: Option<string>, rating: Option<string>,
    outlook: Option<string>, instrumentAmount: Option<string>, date: Option<string>, url: Option<string>)

  /** `parse_date_for_db` as a parser value, for the batch functions. */
  function DbDate(others: seq<DateParser>): DateParser {
    s => ParseDateForDb(s, others)
  }

  /** The conflict key a batch entry is inserted under, or None when it is
      counted as a duplicate without an insert (no date, or no company). */
  function BatchKey(r: RatingInput, parse: DateParser): (k: Option<RatingKey>)
    ensures k.Some? <==> parse(r.date.GetOr("")).Some? && r.companyName.GetOr("") != ""
    ensures k.Some? ==> k.value.companyName == r.companyName.value
  {
    match parse(r.date.GetOr(""))
    case None => None
    case Some(d) =>
      if r.companyName.GetOr("") == "" then None
      else Some(RatingKey(r.companyName.value, r.instrumentCategory.GetOr(""), r.rating.GetOr(""), d))
  }

  /** One tuple of `batch_data`: the key and the nullable columns. */
  datatype Prepared = Prepared(key: RatingKey, outlook: Option<string>, amount: Option<string>, url: Option<string>)

  function PrepareEntry(r: RatingInput, parse: DateParser): (p: Option<Prepared>)
    ensures p.Some? <==> BatchKey(r, parse).Some?
    ensures p.Some? ==> p.value.key == BatchKey(r, parse).value
  {
    match BatchKey(r, parse)
    case None => None
    case Some(k) => Some(Prepared(k, NullIfNotFound(r.outlook), NullIfNotFound(r.instrumentAmount), NullIfNotFound(r.url)))
  }

  /** `batch_data`: the accepted entries, in order. */
  function Prepare(batch: seq<RatingInput>, parse: DateParser): (r: seq<Prepared>)
    ensures |r| <= |batch|
  {
    if batch == [] then []
    else
      var last := batch[|batch| - 1];
      Prepare(batch[..|batch| - 1], parse) + (if PrepareEntry(last, parse).Some? then [PrepareEntry(last, parse).value] else [])
  }

  lemma PrepareStep(batch: seq<RatingInput>, i: nat, parse: DateParser)
    requires i < |batch|
    ensures Prepare(batch[..i + 1], parse) == Prepare(batch[..i], parse)
      + (if PrepareEntry(batch[i], parse).Some? then [PrepareEntry(batch[i], parse).value] else [])
  {
    assert batch[..i + 1][..i] == batch[..i];
  }

  function KeysOfPrepared(ps: seq<Prepared>): (r: seq<RatingKey>)
    ensures |r| == |ps|
  {
    seq(|ps|, i requires 0 <= i < |ps| => ps[i].key)
  }

  /** The keys of the entries of a batch that are not skipped. */
  function AcceptedKeys(batch: seq<RatingInput>, parse: DateParser): set<RatingKey> {
    set i | 0 <= i < |batch| && BatchKey(batch[i], parse).Some? :: BatchKey(batch[i], parse).value
  }

  /** `batch_data` holds exactly the keys of the entries that are not skipped. */
  lemma {:induction false} PreparedKeysAreAccepted(batch: seq<RatingInput>, parse: DateParser)
    ensures KeySet(KeysOfPrepared(Prepare(batch, parse))) == AcceptedKeys(batch, parse)
    decreases |batch|
  {
    if batch == [] {
      assert KeysOfPrepared([]) == [];
    } else {
      var init, last := batch[..|batch| - 1], batch[|batch| - 1];
      PreparedKeysAreAccepted(init, parse);
      AcceptedKeysSnoc(batch, parse);
      var e := PrepareEntry(last, parse);
      if e.Some? {
        KeysOfPreparedSnoc(Prepare(init, parse), e.value);
      } else {
        assert Prepare(batch, parse) == Prepare(init, parse);
      }
    }
  }

  lemma AcceptedKeysSnoc(batch: seq<RatingInput>, parse: DateParser)
    requires batch != []
    ensures var last := BatchKey(batch[|batch| - 1], parse);
      AcceptedKeys(batch, parse) ==
        AcceptedKeys(batch[..|batch| - 1], parse) + (if last.Some? then {last.value} else {})
  {
    var init := batch[..|batch| - 1];
    forall i | 0 <= i < |init| ensures init[i] == batch[i] { }
  }

  lemma KeysOfPreparedSnoc(ps: seq<Prepared>, p: Prepared)
    ensures KeySet(KeysOfPrepared(ps + [p])) == KeySet(KeysOfPrepared(ps)) + {p.key}
  {
    assert KeysOfPrepared(ps + [p]) == KeysOfPrepared(ps) + [p.key];
  }

  /** Counting inserts against the keys already stored: a key is new exactly
      when it is neither stored nor earlier in the batch. */
  function CountNew(stored: set<RatingKey>, keys: seq<RatingKey>): (n: nat)
    decreases |keys|
  {
    if keys == [] then 0
    else if keys[0] !in stored then 1 + CountNew(stored + {keys[0]}, keys[1..])
    else CountNew(stored, keys[1..])
  }

  function KeySet(keys: seq<RatingKey>): set<RatingKey> {
    set k | k in keys
  }

  /** The new rows are the keys that were not stored before, so their
      number never exceeds the batch and repeating a key adds nothing. */
  lemma {:induction false} CountNewIsNewKeys(stored: set<RatingKey>, keys: seq<RatingKey>)
    ensures CountNew(stored, keys) == |KeySet(keys) - stored|
    ensures CountNew(stored, keys) <= |keys|
    decreases |keys|
  {
    if keys != [] {
      var k0, rest := keys[0], keys[1..];
      KeySetCons(keys);
      if k0 !in stored {
        CountNewIsNewKeys(stored + {k0}, rest);
        NewKeysCons(stored, k0, KeySet(rest));
      } else {
        CountNewIsNewKeys(stored, rest);
        assert KeySet(keys) - stored == KeySet(rest) - stored;
      }
    }
  }

  lemma KeySetCons(keys: seq<RatingKey>)
    requires keys != []
    ensures KeySet(keys) == {keys[0]} + KeySet(keys[1..])
  {
    assert keys == [keys[0]] + keys[1..];
  }

  lemma NewKeysCons(stored: set<RatingKey>, k: RatingKey, rest: set<RatingKey>)
    requires k !in stored
    ensures |({k} + rest) - stored| == 1 + |rest - (stored + {k})|
  {
    var tail := rest - (stored + {k});
    assert ({k} + rest) - stored == {k} + tail;
    assert k !in tail;
  }


  class RatingDb {
    var rows: map<int, RatingRow>
    var nextId: int
    /** `companies`: name to Airtable record id. */
    var companies: map<string, Option<string>>

    ghost predicate Valid()
      reads this
    {
      nextId >= 1
      && (forall id | id in rows :: rows[id].id == id && 1 <= id < nextId)
      && (forall i, j | i in rows && j in rows && i != j :: rows[i].key != rows[j].key)
    }

    function Keys(): set<RatingKey>
      reads this
    {
      KeysOf(rows)
    }

    constructor ()
      ensures Valid() && rows == map[] && companies == map[]
    {
      rows := map[];
      nextId := 1;
      companies := map[];
    }

    /** `get_or_create_company`. */
    method EnsureCompany(name: string)
      modifies this
      ensures companies == if name in old(companies) then old(companies) else old(companies)[name := None]
      ensures rows == old(rows) && nextId == old(nextId)
    {
      if name !in companies {
        companies := companies[name := None];
      }
    }

    /** INSERT ... ON CONFLICT (company_name, instrument, rating, date) DO
        NOTHING RETURNING id. */
    method InsertIfAbsent(key: RatingKey, outlook: Option<string>, amount: Option<string>, url: Option<string>, jobId: string)
      returns (id: Option<int>)
      requires Valid()
      modifies this
      ensures Valid() && companies == old(companies)
      ensures id.None? <==> key in old(Keys())
      ensures id.None? ==> rows == old(rows) && nextId == old(nextId)
      ensures id.Some? ==> (id.value == old(nextId) && nextId == old(nextId) + 1
        && rows == old(rows)[old(nextId) := RatingRow(old(nextId), key, outlook, amount, url, jobId, None, false, None)])
      ensures Keys() == old(Keys()) + {key}
      ensures |rows| == |old(rows)| + (if id.Some? then 1 else 0)
      ensures forall k | k in old(rows) :: k in rows && rows[k] == old(rows)[k]
    {
      if key in Keys() {
        return None;
      }
      assert forall i | i in rows :: rows[i].key != key;
      var row := RatingRow(nextId, key, outlook, amount, url, jobId, None, false, None);
      KeysOfAdd(rows, nextId, row);
      rows := rows[nextId := row];
      id := Some(nextId);
      nextId := nextId + 1;
    }

    /** `insert_rating_with_deduplication`: (True, id) for a new row;
        (False, None) for an unparsable date (before anything is touched)
        and for an existing key. */
    method InsertRatingWithDeduplication(
      companyName: string, instrument: string, rating: string, outlook: Option<string>,
      instrumentAmount: Option<string>, date: string, sourceUrl: Option<string>, jobId: string,
      others: seq<DateParser>)
      returns (isNew: bool, recordId: Option<int>)
      requires Valid()
      modifies this
      ensures Valid()
      ensures isNew <==> recordId.Some?
      ensures ParseDateForDb(date, others).None? ==>
        !isNew && rows == old(rows) && companies == old(companies)
      ensures ParseDateForDb(date, others).Some? ==>
        var key := RatingKey(companyName, instrument, rating, ParseDateForDb(date, others).value);
        && companyName in companies
        && (isNew <==> key !in old(Keys()))
        && (!isNew ==> rows == old(rows))
        && (isNew ==> rows == old(rows)[recordId.value := RatingRow(recordId.value, key,
              NullIfNotFound(outlook), NullIfNotFound(instrumentAmount), NullIfNotFound(sourceUrl),
              jobId, None, false, None)])
    {
      var parsed := ParseDateForDb(date, others);
      if parsed.None? {
        return false, None;
      }
      EnsureCompany(companyName);
      var key := RatingKey(companyName, instrument, rating, parsed.value);
      recordId := InsertIfAbsent(key, NullIfNotFound(outlook), NullIfNotFound(instrumentAmount), NullIfNotFound(sourceUrl), jobId);
      isNew := recordId.Some?;
    }

    /** `batch_insert_ratings`: every entry is counted once, as new or as a
        duplicate. Entries without a parsable date or a company name are
        duplicates without an insert; the others are prepared first (their
        companies created) and then inserted in order, where a key already
        stored or earlier in the batch is a duplicate. */
    method BatchInsertRatings(ratingsData: seq<RatingInput>, jobId: string, others: seq<DateParser>)
      returns (newRecords: nat, duplicateRecords: nat)
      requires Valid()
      modifies this
      ensures Valid()
      ensures newRecords + duplicateRecords == |ratingsData|
      ensures newRecords == |rows| - |old(rows)|
      ensures newRecords == CountNew(old(Keys()), KeysOfPrepared(Prepare(ratingsData, DbDate(others))))
      ensures Keys() == old(Keys()) + AcceptedKeys(ratingsData, DbDate(others))
      ensures forall id | id in old(rows) :: id in rows && rows[id] == old(rows)[id]
      ensures forall p | p in Prepare(ratingsData, DbDate(others)) :: p.key.companyName in companies
      ensures forall n | n in old(companies) :: n in companies && companies[n] == old(companies)[n]
    {
      if ratingsData == [] {
        return 0, 0;
      }
      var batchData, skipped := PrepareBatch(ratingsData, DbDate(others));
      var duplicates;
      newRecords, duplicates := InsertPrepared(batchData, jobId);
      duplicateRecords := skipped + duplicates;
      PreparedKeysAreAccepted(ratingsData, DbDate(others));
    }

    /** The first loop of `batch_insert_ratings`: `batch_data` and the
        entries skipped, creating the company of every accepted entry. */
    method PrepareBatch(ratingsData: seq<RatingInput>, parse: DateParser)
      returns (batchData: seq<Prepared>, skipped: nat)
      modifies this
      ensures batchData == Prepare(ratingsData, parse)
      ensures skipped + |batchData| == |ratingsData|
      ensures rows == old(rows) && nextId == old(nextId)
      ensures forall p | p in batchData :: p.key.companyName in companies
      ensures forall n | n in old(companies) :: n in companies && companies[n] == old(companies)[n]
    {
      batchData, skipped := [], 0;
      var i := 0;
      while i < |ratingsData|
        invariant 0 <= i <= |ratingsData|
        invariant batchData == Prepare(ratingsData[..i], parse)
        invariant skipped == i - |batchData|
        invariant rows == old(rows) && nextId == old(nextId)
        invariant forall p | p in batchData :: p.key.companyName in companies
        invariant forall n | n in old(companies) :: n in companies && companies[n] == old(companies)[n]
      {
        PrepareStep(ratingsData, i, parse);
        var entry := PrepareEntry(ratingsData[i], parse);
        if entry.None? {
          skipped := skipped + 1;
        } else {
          EnsureCompany(entry.value.key.companyName);
          assert forall p | p in batchData + [entry.value] :: p in batchData || p == entry.value;
          batchData := batchData + [entry.value];
        }
        i := i + 1;
      }
      assert ratingsData[..i] == ratingsData;
    }

    /** The second loop of `batch_insert_ratings`: each prepared row is
        inserted unless its key is taken. */
    method InsertPrepared(batchData: seq<Prepared>, jobId: string) returns (newRecords: nat, duplicates: nat)
      requires Valid()
      modifies this
      ensures Valid() && companies == old(companies)
      ensures newRecords + duplicates == |batchData|
      ensures newRecords == |rows| - |old(rows)|
      ensures newRecords == CountNew(old(Keys()), KeysOfPrepared(batchData))
      ensures Keys() == old(Keys()) + KeySet(KeysOfPrepared(batchData))
      ensures forall id | id in old(rows) :: id in rows && rows[id] == old(rows)[id]
    {
      newRecords, duplicates := 0, 0;
      ghost var keys := KeysOfPrepared(batchData);
      ghost var stored := KeysOf(rows);
      ghost var seen: set<RatingKey> := {};
      var j := 0;
      while j < |batchData|
        invariant 0 <= j <= |batchData|
        invariant Valid() && companies == old(companies)
        invariant newRecords + duplicates == j
        invariant newRecords == |rows| - |old(rows)|
        invariant seen == KeySet(keys[..j])
        invariant newRecords == CountNew(stored, keys[..j])
        invariant KeysOf(rows) == stored + seen
        invariant forall id | id in old(rows) :: id in rows && rows[id] == old(rows)[id]
      {
        var data := batchData[j];
        assert data.key == keys[j];
        ghost var before := KeysOf(rows);
        var id := InsertIfAbsent(data.key, data.outlook, data.amount, data.url, jobId);
        var isNew := id.Some?;
        InsertStep(before, KeysOf(rows), stored, seen, keys, j, newRecords, isNew);
        seen := seen + {data.key};
        if isNew {
          newRecords := newRecords + 1;
        } else {
          duplicates := duplicates + 1;
        }
        j := j + 1;
      }
      BatchDone(stored, keys, j, seen, newRecords);
    }

    /** `get_unsynced_ratings`. */
    method GetUnsyncedRatings(jobId: string) returns (r: seq<RatingRow>)
      requires Valid()
      ensures UnsyncedRows(rows, r, jobId)
    {
      r := [];
      var id := 1;
      while id < nextId
        invariant 1 <= id <= nextId
        invariant forall i | 0 <= i < |r| :: r[i].id in rows && rows[r[i].id] == r[i] && Unsynced(r[i], jobId) && r[i].id < id
        invariant forall i, j | 0 <= i < j < |r| :: r[i].id < r[j].id
        invariant forall k | k in rows && k < id && Unsynced(rows[k], jobId) :: rows[k] in r
      {
        if id in rows && Unsynced(rows[id], jobId) {
          r := r + [rows[id]];
        }
        id := id + 1;
      }
    }

    /** `get_companies_without_airtable_id`: each selected company once
        (`SELECT DISTINCT`); an empty job id, which Python reads as no job
        id, takes the query without the job filter. */
    method GetCompaniesWithoutAirtableId(jobId: string) returns (names: seq<string>)
      ensures forall i, j | 0 <= i < j < |names| :: names[i] != names[j]
      ensures forall i | 0 <= i < |names| :: names[i] in CompaniesWithoutAirtableId(companies, rows, jobId)
      ensures forall n | n in CompaniesWithoutAirtableId(companies, rows, jobId) :: n in names
    {
      names := [];
      var rest := companies.Keys;
      while rest != {}
        invariant rest <= companies.Keys
        invariant forall i | 0 <= i < |names| :: names[i] in CompaniesWithoutAirtableId(companies, rows, jobId) && names[i] !in rest
        invariant forall i, j | 0 <= i < j < |names| :: names[i] != names[j]
        invariant forall n | n in CompaniesWithoutAirtableId(companies, rows, jobId) && n !in rest :: n in names
        decreases |rest|
      {
        var n :| n in rest;
        if companies[n].None? && (jobId == "" || exists id | id in rows :: rows[id].jobId == jobId && rows[id].key.companyName == n) {
          names := names + [n];
        }
        rest := rest - {n};
      }
    }

    /** `update_ratings_airtable_ids`: one UPDATE per pair, in order; the
        result is the number of pairs, whether or not their ids exist. */
    method UpdateRatingsAirtableIds(mapping: seq<(int, string)>) returns (count: nat)
      requires Valid()
      modifies this
      ensures Valid() && count == |mapping|
      ensures rows == ApplyAirtableIds(old(rows), mapping)
      ensures companies == old(companies) && Keys() == old(Keys()) && rows.Keys == old(rows.Keys)
    {
      var i := 0;
      while i < |mapping|
        invariant 0 <= i <= |mapping|
        invariant rows == ApplyAirtableIds(old(rows), mapping[..i])
        invariant Valid() && Keys() == old(Keys()) && companies == old(companies) && rows.Keys == old(rows.Keys)
      {
        var (rid, aid) := mapping[i];
        assert mapping[..i + 1][..i] == mapping[..i];
        if rid in rows {
          var updated := rows[rid := SyncedRow(rows[rid], aid)];
          KeysOfSame(rows, updated);
          rows := updated;
        }
        i := i + 1;
      }
      assert mapping[..i] == mapping;
      count := |mapping|;
    }

    /** `mark_ratings_sync_failed`: marks the listed rows and returns how
        many rows matched. */
    method MarkRatingsSyncFailed(ratingIds: seq<int>, errorMessage: string) returns (count: nat)
      requires Valid()
      modifies this
      ensures Valid() && rows == MarkFailed(old(rows), ratingIds, errorMessage) && companies == old(companies)
      ensures Keys() == old(Keys())
      ensures count == |set id | id in rows && id in ratingIds|
    {
      var marked := MarkFailed(rows, ratingIds, errorMessage);
      KeysOfSame(rows, marked);
      rows := marked;
      count := |set id | id in rows && id in ratingIds|;
    }

    /** `batch_update_company_airtable_ids`: an upsert per company; the
        result is the number of companies given. */
    method BatchUpdateCompanyAirtableIds(mapping: map<string, string>) returns (count: nat)
      modifies this
      ensures count == |mapping| && companies == UpsertCompanyIds(old(companies), mapping)
      ensures companies.Keys == old(companies.Keys) + mapping.Keys
      ensures forall n | n in mapping :: companies[n] == Some(mapping[n])
      ensures forall n | n in old(companies) && n !in mapping :: companies[n] == old(companies)[n]
      ensures rows == old(rows) && nextId == old(nextId)
    {
      companies := UpsertCompanyIds(companies, mapping);
      count := |mapping|;
    }
  }

  /** The answer of `get_unsynced_ratings` over `rows`: exactly the job's
      rows with no Airtable id that have not failed to sync, in increasing
      id order. */
  ghost predicate UnsyncedRows(rows: map<int, RatingRow>, r: seq<RatingRow>, jobId: string) {
    && (forall i | 0 <= i < |r| :: r[i].id in rows && rows[r[i].id] == r[i] && Unsynced(r[i], jobId))
    && (forall i, j | 0 <= i < j < |r| :: r[i].id < r[j].id)
    && (forall id | id in rows && Unsynced(rows[id], jobId) :: rows[id] in r)
  }

  /** The companies `get_companies_without_airtable_id` selects: those
      with no Airtable id, and, for a non-empty job id, only those that a
      row of the job names. */
  function CompaniesWithoutAirtableId(companies: map<string, Option<string>>, rows: map<int, RatingRow>, jobId: string): set<string> {
    set n | n in companies && companies[n].None?
      && (jobId == "" || exists id | id in rows :: rows[id].jobId == jobId && rows[id].key.companyName == n)
  }

  /** The two queries: without a job id every company lacking an Airtable
      id is selected; with one, exactly those of them that a row of the
      job names. */
  lemma CompanySelectionByJob(companies: map<string, Option<string>>, rows: map<int, RatingRow>, jobId: string, n: string)
    ensures jobId == "" ==> (n in CompaniesWithoutAirtableId(companies, rows, jobId) <==> n in companies && companies[n].None?)
    ensures jobId != "" ==> (n in CompaniesWithoutAirtableId(companies, rows, jobId) <==>
      (n in companies && companies[n].None? && exists id | id in rows :: rows[id].jobId == jobId && rows[id].key.companyName == n))
  {
  }

  /** `mark_ratings_sync_failed` over `rows`: the listed rows are marked
      failed with the message, the others are kept. */
  function MarkFailed(rows: map<int, RatingRow>, ids: seq<int>, message: string): (r: map<int, RatingRow>)
    ensures r.Keys == rows.Keys
    ensures forall id | id in r :: r[id].key == rows[id].key && r[id].airtableRecordId == rows[id].airtableRecordId
  {
    map id | id in rows :: if id in ids then rows[id].(syncFailed := true, syncError := Some(message)) else rows[id]
  }

  /** `batch_update_company_airtable_ids` over `companies`: an upsert of
      every pair of the mapping. */
  function UpsertCompanyIds(companies: map<string, Option<string>>, mapping: map<string, string>): map<string, Option<string>> {
    map n | n in companies.Keys + mapping.Keys :: if n in mapping then Some(mapping[n]) else companies[n]
  }

  /** A row once Airtable has accepted it under `aid`. */
  function SyncedRow(r: RatingRow, aid: string): RatingRow {
    r.(airtableRecordId := Some(aid), syncFailed := false, syncError := None)
  }

  /** The table after the UPDATEs of `mapping`, applied in order; a pair
      whose id has no row changes nothing. */
  function ApplyAirtableIds(rows: map<int, RatingRow>, mapping: seq<(int, string)>): map<int, RatingRow>
    decreases |mapping|
  {
    if mapping == [] then rows
    else
      var before := ApplyAirtableIds(rows, mapping[..|mapping| - 1]);
      var (rid, aid) := mapping[|mapping| - 1];
      if rid in before then before[rid := SyncedRow(before[rid], aid)] else before
  }

  /** The Airtable id the last pair for `id` carries, if any pair does. */
  function LastAirtableId(mapping: seq<(int, string)>, id: int): (r: Option<string>)
    ensures r.Some? <==> id in RowIds(mapping)
    decreases |mapping|
  {
    if mapping == [] then None
    else
      var init := mapping[..|mapping| - 1];
      assert RowIds(mapping) == RowIds(init) + {mapping[|mapping| - 1].0} by {
        assert mapping == init + [mapping[|mapping| - 1]];
      }
      if mapping[|mapping| - 1].0 == id then Some(mapping[|mapping| - 1].1)
      else LastAirtableId(init, id)
  }

  /** After the UPDATEs the table has the same rows; each row some pair
      names carries the Airtable id of the last such pair and is no longer
      marked failed; every other row is unchanged. */
  lemma {:induction false} ApplyAirtableIdsEffect(rows: map<int, RatingRow>, mapping: seq<(int, string)>, id: int)
    requires id in rows
    ensures ApplyAirtableIds(rows, mapping).Keys == rows.Keys
    ensures ApplyAirtableIds(rows, mapping)[id] ==
      if LastAirtableId(mapping, id).Some? then SyncedRow(rows[id], LastAirtableId(mapping, id).value) else rows[id]
    decreases |mapping|
  {
    if mapping != [] {
      var init := mapping[..|mapping| - 1];
      ApplyAirtableIdsEffect(rows, init, id);
    }
  }

  function RowIds(mapping: seq<(int, string)>): set<int> {
    set p | p in mapping :: p.0
  }

  /** The conflict keys present in a table. */
  function KeysOf(m: map<int, RatingRow>): set<RatingKey> {
    set id | id in m :: m[id].key
  }

  lemma KeysOfAdd(m: map<int, RatingRow>, id: int, row: RatingRow)
    requires id !in m
    ensures KeysOf(m[id := row]) == KeysOf(m) + {row.key}
  {
    var m' := m[id := row];
    forall k | k in KeysOf(m') ensures k in KeysOf(m) + {row.key} {
      var i :| i in m' && m'[i].key == k;
      if i != id { assert m[i] == m'[i]; }
    }
    forall k | k in KeysOf(m) ensures k in KeysOf(m') {
      var i :| i in m && m[i].key == k;
      assert m'[i] == m[i];
    }
    assert m'[id] == row;
  }

  lemma KeysOfSame(m: map<int, RatingRow>, m': map<int, RatingRow>)
    requires m.Keys == m'.Keys && forall id | id in m :: m[id].key == m'[id].key
    ensures KeysOf(m) == KeysOf(m')
  {
    forall k | k in KeysOf(m') ensures k in KeysOf(m) {
      var i :| i in m' && m'[i].key == k;
      assert m[i].key == k;
    }
    forall k | k in KeysOf(m) ensures k in KeysOf(m') {
      var i :| i in m && m[i].key == k;
      assert m'[i].key == k;
    }
  }

  /** A row `get_unsynced_ratings` selects for the job. */
  predicate Unsynced(row: RatingRow, jobId: string) {
    row.jobId == jobId && row.airtableRecordId.None? && !row.syncFailed
  }

  /** One insert of the batch: the key set grows by `keys[j]`, and the
      count of new keys by one exactly when the insert added a row. */
  lemma InsertStep(before: set<RatingKey>, after: set<RatingKey>, stored: set<RatingKey>,
                   seen: set<RatingKey>, keys: seq<RatingKey>, j: nat, n: nat, isNew: bool)
    requires j < |keys| && seen == KeySet(keys[..j])
    requires before == stored + seen && after == before + {keys[j]}
    requires n == CountNew(stored, keys[..j]) && (isNew <==> keys[j] !in before)
    ensures after == stored + (seen + {keys[j]})
    ensures seen + {keys[j]} == KeySet(keys[..j + 1])
    ensures n + (if isNew then 1 else 0) == CountNew(stored, keys[..j + 1])
  {
    assert keys[..j + 1] == keys[..j] + [keys[j]];
    CountNewSnoc(stored, keys[..j], keys[j]);
  }

  /** Counting one more key. */
  lemma {:induction false} CountNewSnoc(stored: set<RatingKey>, keys: seq<RatingKey>, k: RatingKey)
    ensures KeySet(keys + [k]) == KeySet(keys) + {k}
    ensures CountNew(stored, keys + [k]) == CountNew(stored, keys) + (if k !in stored + KeySet(keys) then 1 else 0)
    decreases |keys|
  {
    if keys == [] {
      assert [k][1..] == [];
    } else {
      assert (keys + [k])[1..] == keys[1..] + [k];
      assert (keys + [k])[0] == keys[0];
      assert KeySet(keys) == {keys[0]} + KeySet(keys[1..]) by {
        assert keys == [keys[0]] + keys[1..];
      }
      if keys[0] !in stored {
        CountNewSnoc(stored + {keys[0]}, keys[1..], k);
      } else {
        CountNewSnoc(stored, keys[1..], k);
      }
    }
  }

  /** After the last insert the seen keys are the whole batch's. */
  lemma BatchDone(stored: set<RatingKey>, keys: seq<RatingKey>, j: nat, seen: set<RatingKey>, n: nat)
    requires j == |keys| && seen == KeySet(keys[..j]) && n == CountNew(stored, keys[..j])
    ensures seen == KeySet(keys) && n == CountNew(stored, keys)
  {
    assert keys[..j] == keys;
  }


}
