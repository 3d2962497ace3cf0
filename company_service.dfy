/** `CompanyService`: the job's companies without an Airtable id are
    created in Airtable in batches, and the name-to-record mapping is
    written back to Postgres. The names to sync are an input, the Airtable
    call an oracle, and the Postgres write is returned. */
module CompanyService {
  import opened Common
  import opened SyncBatches

  const CompanyBatchSize: nat := 10

  /** `company_mapping[name] = id` over the pairs in order: a later pair
      for the same name replaces an earlier one. */
  function MappingOf(pairs: seq<(string, string)>): map<string, string> {
    if pairs == [] then map[]
    else MappingOf(pairs[..|pairs| - 1])[pairs[|pairs| - 1].0 := pairs[|pairs| - 1].1]
  }

  /** The mapping holds exactly the paired names, each with a record id
      paired with it. */
  lemma {:induction false} MappingOfMembers(pairs: seq<(string, string)>)
    ensures forall n | n in MappingOf(pairs) :: (n, MappingOf(pairs)[n]) in pairs
    ensures forall p | p in pairs :: p.0 in MappingOf(pairs)
    ensures |MappingOf(pairs)| <= |pairs|
    decreases |pairs|
  {
    if pairs != [] {
      var init := pairs[..|pairs| - 1];
      MappingOfMembers(init);
      assert pairs == init + [pairs[|pairs| - 1]];
    }
  }

  /** `_batch_create_companies`: the counts, and one
      `batch_update_company_airtable_ids` when some name was mapped. The
      counts are fixed before that write, so its failing (logged only)
      does not change them. */
  function BatchCreateCompaniesOf(names: seq<string>, create: CreateCall<string>): SyncOutcome {
    if names == [] then SyncOutcome(0, 0, [])
    else
      var t := TallyOf(names, CompanyBatchSize, create);
      var mapping := MappingOf(t.pairs);
      SyncOutcome(t.synced, t.failed, if mapping != map[] then [UpdateCompanyAirtableIds(mapping)] else [])
  }

  method BatchCreateCompanies(names: seq<string>, create: CreateCall<string>) returns (o: SyncOutcome)
    ensures o == BatchCreateCompaniesOf(names, create)
  {
    if names == [] {
      return SyncOutcome(0, 0, []);
    }
    var t := CreateInBatches(names, CompanyBatchSize, create);
    var companyMapping := MappingOf(t.pairs);
    var writes := [];
    if companyMapping != map[] {
      writes := [UpdateCompanyAirtableIds(companyMapping)];
    }
    o := SyncOutcome(t.synced, t.failed, writes);
  }

  /** `sync_companies_for_job` over the names `get_companies_without_airtable_id`
      returned: zeros and no write when there are none. */
  method SyncCompaniesForJob(companiesToSync: seq<string>, create: CreateCall<string>) returns (o: SyncOutcome)
    ensures o == BatchCreateCompaniesOf(companiesToSync, create)
  {
    if companiesToSync == [] {
      return SyncOutcome(0, 0, []);
    }
    o := BatchCreateCompanies(companiesToSync, create);
  }

  /** The record ids written back for the companies, when a write was issued. */
  function WrittenMapping(o: SyncOutcome): map<string, string> {
    if |o.writes| > 0 && o.writes[0].UpdateCompanyAirtableIds? then o.writes[0].mapping else map[]
  }

  /** Zeros without names; synced plus failed never exceeds the names;
      the mapping written back names only companies of the list, each
      with a record id created for it, and the written mapping is at most
      as large as the synced count. */
  lemma CompanySyncCounts(names: seq<string>, create: CreateCall<string>)
    ensures names == [] ==> BatchCreateCompaniesOf(names, create) == SyncOutcome(0, 0, [])
    ensures BatchCreateCompaniesOf(names, create).synced + BatchCreateCompaniesOf(names, create).failed <= |names|
    ensures forall n | n in WrittenMapping(BatchCreateCompaniesOf(names, create)) :: n in names
    ensures |WrittenMapping(BatchCreateCompaniesOf(names, create))| <= BatchCreateCompaniesOf(names, create).synced
    ensures BatchCreateCompaniesOf(names, create).synced > 0 <==> WrittenMapping(BatchCreateCompaniesOf(names, create)) != map[]
  {
    if names != [] {
      var t := TallyOf(names, CompanyBatchSize, create);
      TallyOfCounts(names, CompanyBatchSize, create);
      MappingOfMembers(t.pairs);
      if t.pairs != [] {
        assert t.pairs[0].0 in MappingOf(t.pairs);
      }
    }
  }

  /** When every batch create raises, nothing is synced, every name is
      failed, and no write is issued. */
  lemma CompanySyncAllFail(names: seq<string>, create: CreateCall<string>)
    requires forall b :: create(b).None?
    ensures BatchCreateCompaniesOf(names, create) == SyncOutcome(0, |names|, [])
  {
    if names != [] {
      ChunksConcat(names, CompanyBatchSize);
      TallyAllFail(NoTally(), Chunks(names, CompanyBatchSize), create);
    }
  }
}
