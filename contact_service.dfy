/** `ContactService`: director contacts of a company, fetched from Attestr
    by CIN, stored in Postgres and synced to Airtable. The Postgres
    helpers, the Attestr POST and the Airtable call are oracles; the
    Postgres writes of the Airtable sync are returned. */
module ContactService {
  import opened Common
  import opened Strings

  const AttestrMaxContacts: int := 100

  // ---------------------------------------------------------------------
  // `_fetch_from_attestr`

  datatype AttestrSettings = AttestrSettings(apiKey: string, apiUrl: string)

  /** A director as Attestr (and the response) lists it. */
  datatype ApiContact = ApiContact(
    indexId: Option<string>, fullName: Option<string>, mobileNumber: Option<string>,
    emailAddress: Option<string>, addresses: seq<string>)

  /** The decoded JSON body; absent keys read as `None` / empty. */
  datatype AttestrBody = AttestrBody(
    valid: bool, message: Option<string>, businessName: Option<string>, contacts: seq<ApiContact>)

  /** What the POST does: a response (with its body, `None` when it is
      not JSON), a timeout, or another requests error. */
  datatype AttestrReply =
    | Reply(status: int, body: Option<AttestrBody>)
    | TimedOut
    | ConnectionError(detail: string)

  /** Why a requests error was raised. */
  datatype RequestCause = Transport(detail: string) | HttpStatus(code: int) | NotJson

  datatype AttestrError =
    | MissingApiKey
    | BadRequest(message: string)
    | InvalidCredentials
    | Forbidden(message: string)
    | RateLimited
    | ServerError(status: int)
    | RequestTimedOut
    | RequestFailed(cause: RequestCause)

  datatype AttestrRequest = AttestrRequest(url: string, authorization: string, reg: string, maxContacts: int)

  /** The Basic credential: a key ending in '=' is taken as already
      encoded, any other key is base64-encoded (`encode`). */
  function AuthString(apiKey: string, encode: string -> string): string {
    if EndsWith(apiKey, "=") then apiKey else encode(apiKey)
  }

  /** The request: the CIN as `reg`, and `maxContacts` from the argument
      when it is given and non-zero, else the configured default. */
  function AttestrRequestOf(settings: AttestrSettings, cin: string, maxContacts: Option<int>, encode: string -> string): (q: AttestrRequest)
    ensures q.authorization == "Basic " + AuthString(settings.apiKey, encode)
    ensures q.maxContacts == if maxContacts.Some? && maxContacts.value != 0 then maxContacts.value else AttestrMaxContacts
    ensures q.reg == cin && q.url == settings.apiUrl
  {
    AttestrRequest(settings.apiUrl, "Basic " + AuthString(settings.apiKey, encode), cin,
      if maxContacts.Some? && maxContacts.value != 0 then maxContacts.value else AttestrMaxContacts)
  }

  function MessageOr(body: AttestrBody): string { body.message.GetOr("Unknown error") }

  /** The status checks, in order, then `raise_for_status` and the JSON
      decode; the requests errors are re-raised as request failures. */
  function AttestrOutcome(reply: AttestrReply): Result<AttestrBody, AttestrError> {
    match reply
    case TimedOut => Err(RequestTimedOut)
    case ConnectionError(d) => Err(RequestFailed(Transport(d)))
    case Reply(status, body) =>
      if status == 400 then (if body.Some? then Err(BadRequest(MessageOr(body.value))) else Err(RequestFailed(NotJson)))
      else if status == 401 then Err(InvalidCredentials)
      else if status == 403 then (if body.Some? then Err(Forbidden(MessageOr(body.value))) else Err(RequestFailed(NotJson)))
      else if status == 429 then Err(RateLimited)
      else if status >= 500 then Err(ServerError(status))
      else if status >= 400 then Err(RequestFailed(HttpStatus(status)))
      else if body.None? then Err(RequestFailed(NotJson))
      else Ok(body.value)
  }

  /** `_fetch_from_attestr`: no request without a key; otherwise the
      outcome of the one POST. */
  function FetchFromAttestr(settings: AttestrSettings, cin: string, maxContacts: Option<int>,
                            encode: string -> string, post: AttestrRequest -> AttestrReply): (r: Result<AttestrBody, AttestrError>)
    ensures settings.apiKey == "" ==> r == Err(MissingApiKey)
    ensures settings.apiKey != "" ==> r == AttestrOutcome(post(AttestrRequestOf(settings, cin, maxContacts, encode)))
  {
    if settings.apiKey == "" then Err(MissingApiKey)
    else AttestrOutcome(post(AttestrRequestOf(settings, cin, maxContacts, encode)))
  }

  /** Each error status maps to its own error, before `raise_for_status`;
      a body is returned only for a status below 400 that decodes. */
  lemma AttestrStatusMapping(status: int, body: AttestrBody)
    ensures status == 400 ==> AttestrOutcome(Reply(status, Some(body))) == Err(BadRequest(MessageOr(body)))
    ensures status == 401 ==> AttestrOutcome(Reply(status, Some(body))) == Err(InvalidCredentials)
    ensures status == 403 ==> AttestrOutcome(Reply(status, Some(body))) == Err(Forbidden(MessageOr(body)))
    ensures status == 429 ==> AttestrOutcome(Reply(status, Some(body))) == Err(RateLimited)
    ensures status >= 500 ==> AttestrOutcome(Reply(status, Some(body))) == Err(ServerError(status))
    ensures AttestrOutcome(Reply(status, Some(body))).Ok? <==> status < 400
    ensures forall b: Option<AttestrBody> :: AttestrOutcome(Reply(status, b)).Ok? ==> status < 400 && b.Some?
  {
  }

  /** A key ending in '=' is sent verbatim; any other key encoded. */
  lemma AuthHeader(settings: AttestrSettings, cin: string, maxContacts: Option<int>, encode: string -> string)
    ensures EndsWith(settings.apiKey, "=") ==>
      AttestrRequestOf(settings, cin, maxContacts, encode).authorization == "Basic " + settings.apiKey
    ensures !EndsWith(settings.apiKey, "=") ==>
      AttestrRequestOf(settings, cin, maxContacts, encode).authorization == "Basic " + encode(settings.apiKey)
  {
  }

  // ---------------------------------------------------------------------
  // `_store_contacts_in_postgres`

  /** `insert_contact_with_deduplication`: (success, contact_id, is_new),
      or an exception (caught per contact). */
  datatype InsertOutcome = Inserted(success: bool, contactId: Option<int>, isNew: bool) | InsertRaised

  type ContactInsert = ApiContact -> InsertOutcome

  predicate Named(c: ApiContact) { c.fullName.Some? && c.fullName.value != "" }

  predicate Stored(o: InsertOutcome) { o.Inserted? && o.success && o.contactId.Some? && o.contactId.value != 0 }

  datatype StoreResult = StoreResult(newCount: nat, updatedCount: nat, contactIds: seq<int>)

  /** The store of one contact on top of `acc`. */
  function StoreStep(acc: StoreResult, c: ApiContact, insert: ContactInsert): StoreResult {
    if !Named(c) then acc
    else
      var o := insert(c);
      if !Stored(o) then acc
      else if o.isNew then acc.(newCount := acc.newCount + 1, contactIds := acc.contactIds + [o.contactId.value])
      else acc.(updatedCount := acc.updatedCount + 1, contactIds := acc.contactIds + [o.contactId.value])
  }

  function StoreOf(contacts: seq<ApiContact>, insert: ContactInsert): StoreResult {
    if contacts == [] then StoreResult(0, 0, [])
    else StoreStep(StoreOf(contacts[..|contacts| - 1], insert), contacts[|contacts| - 1], insert)
  }

  method StoreContactsInPostgres(contacts: seq<ApiContact>, insert: ContactInsert) returns (r: StoreResult)
    ensures r == StoreOf(contacts, insert)
  {
    var newCount, updatedCount, contactIds := 0, 0, [];
    var i := 0;
    while i < |contacts|
      invariant 0 <= i <= |contacts|
      invariant StoreResult(newCount, updatedCount, contactIds) == StoreOf(contacts[..i], insert)
    {
      assert contacts[..i + 1][..i] == contacts[..i];
      var contact := contacts[i];
      i := i + 1;
      if !Named(contact) {
        continue;
      }
      var outcome := insert(contact);
      if Stored(outcome) {
        contactIds := contactIds + [outcome.contactId.value];
        if outcome.isNew {
          newCount := newCount + 1;
        } else {
          updatedCount := updatedCount + 1;
        }
      }
    }
    assert contacts[..i] == contacts;
    r := StoreResult(newCount, updatedCount, contactIds);
  }

  /** New plus updated is the number of ids kept, at most one per named
      contact; every id kept came from storing a named contact. */
  lemma {:induction false} StoreCounts(contacts: seq<ApiContact>, insert: ContactInsert)
    ensures StoreOf(contacts, insert).newCount + StoreOf(contacts, insert).updatedCount == |StoreOf(contacts, insert).contactIds|
    ensures |StoreOf(contacts, insert).contactIds| <= |contacts|
    ensures forall id | id in StoreOf(contacts, insert).contactIds ::
      exists c | c in contacts :: Named(c) && Stored(insert(c)) && insert(c).contactId == Some(id)
    decreases |contacts|
  {
    if contacts != [] {
      var init, last := contacts[..|contacts| - 1], contacts[|contacts| - 1];
      StoreCounts(init, insert);
      assert contacts == init + [last];
      forall id | id in StoreOf(contacts, insert).contactIds
        ensures exists c | c in contacts :: Named(c) && Stored(insert(c)) && insert(c).contactId == Some(id)
      {
        if id !in StoreOf(init, insert).contactIds {
          assert Named(last) && Stored(insert(last)) && insert(last).contactId == Some(id);
        } else {
          var c :| c in init && Named(c) && Stored(insert(c)) && insert(c).contactId == Some(id);
          assert c in contacts;
        }
      }
    }
  }

  /** Contacts without a name never reach the insert: the result is the
      same whatever the insert would do with them. */
  lemma {:induction false} StoreSkipsUnnamed(contacts: seq<ApiContact>, insert: ContactInsert, insert': ContactInsert)
    requires forall c | c in contacts && Named(c) :: insert(c) == insert'(c)
    ensures StoreOf(contacts, insert) == StoreOf(contacts, insert')
    decreases |contacts|
  {
    if contacts != [] {
      var init := contacts[..|contacts| - 1];
      assert forall c | c in init :: c in contacts;
      StoreSkipsUnnamed(init, insert, insert');
    }
  }

  // ---------------------------------------------------------------------
  // `_sync_contacts_to_airtable`

  /** A row of `get_contacts_without_airtable_id`; the address is the
      first address's `fullAddress`, when the JSON yields one. */
  datatype StoredContact = StoredContact(
    id: int, fullName: string, mobileNumber: Option<string>, emailAddress: Option<string>, fullAddress: Option<string>)

  datatype ContactFields = ContactFields(
    name: string, phoneNumber: Option<string>, email: Option<string>, address: Option<string>, companyAirtableId: string)

  /** The Postgres writes of the contact sync. */
  datatype ContactWrite =
    | UpdateContactAirtableIds(mapping: map<int, string>)
    | MarkContactSyncFailed(contactId: int, error: string)

  /** How the sync ends: the counts and writes, or an exception that
      escapes it. */
  datatype ContactSync = Synced(synced: nat, failed: nat, writes: seq<ContactWrite>) | SyncRaised

  function FieldsOf(companyAirtableId: string): StoredContact -> ContactFields {
    (c: StoredContact) => ContactFields(c.fullName, c.mobileNumber, c.emailAddress, c.fullAddress, companyAirtableId)
  }

  function InIds(contactIds: seq<int>): StoredContact -> bool {
    (c: StoredContact) => c.id in contactIds
  }

  /** `[c for c in contacts_to_sync if c['id'] in contact_ids]`, applied
      only when the id list is non-empty. */
  function ToSync(unsynced: seq<StoredContact>, contactIds: seq<int>): seq<StoredContact> {
    if contactIds != [] then Select(unsynced, InIds(contactIds)) else unsynced
  }

  /** The (Postgres id, record id) pairs of the created records: the
      record at index j belongs to the j-th contact, skipped when that
      id is 0. */
  function CreatedPairs(toSync: seq<StoredContact>, created: seq<string>): seq<(int, string)> {
    if toSync == [] || created == [] then []
    else (if toSync[0].id != 0 then [(toSync[0].id, created[0])] else []) + CreatedPairs(toSync[1..], created[1..])
  }

  function IdMapping(pairs: seq<(int, string)>): map<int, string> {
    if pairs == [] then map[]
    else IdMapping(pairs[..|pairs| - 1])[pairs[|pairs| - 1].0 := pairs[|pairs| - 1].1]
  }

  function MarkAll(toSync: seq<StoredContact>, error: string): seq<ContactWrite> {
    if toSync == [] then [] else [MarkContactSyncFailed(toSync[0].id, error)] + MarkAll(toSync[1..], error)
  }

  /** The sync. `unsynced` is `None` when the read raises: the handler
      then reads the unbound `contacts_to_sync` and raises in turn.
      `create` gives the record ids or the error text; `updateError` is
      the error of the id write-back, if it raises. */
  function SyncContactsOf(companyAirtableId: string, contactIds: seq<int>, unsynced: Option<seq<StoredContact>>,
                          create: seq<ContactFields> -> Result<seq<string>, string>, updateError: Option<string>): ContactSync {
    if unsynced.None? then SyncRaised
    else
      var toSync := ToSync(unsynced.value, contactIds);
      if toSync == [] then Synced(0, 0, [])
      else
        var outcome := create(MapSeq(toSync, FieldsOf(companyAirtableId)));
        if outcome.Err? then Synced(0, |toSync|, MarkAll(toSync, outcome.error))
        else
          var pairs := CreatedPairs(toSync, outcome.value);
          var mapping := IdMapping(pairs);
          if mapping == map[] then Synced(|pairs|, 0, [])
          else if updateError.None? then Synced(|pairs|, 0, [UpdateContactAirtableIds(mapping)])
          else Synced(|pairs|, |toSync|, MarkAll(toSync, updateError.value))
  }

  method SyncContactsToAirtable(companyAirtableId: string, contactIds: seq<int>, unsynced: Option<seq<StoredContact>>,
                                create: seq<ContactFields> -> Result<seq<string>, string>, updateError: Option<string>)
    returns (r: ContactSync)
    ensures r == SyncContactsOf(companyAirtableId, contactIds, unsynced, create, updateError)
  {
    if unsynced.None? {
      return SyncRaised;
    }
    var contactsToSync := unsynced.value;
    if contactIds != [] {
      contactsToSync := FilterByIds(contactsToSync, contactIds);
    }
    if contactsToSync == [] {
      return Synced(0, 0, []);
    }
    var airtableContacts := MapSeq(contactsToSync, FieldsOf(companyAirtableId));
    var outcome := create(airtableContacts);
    if outcome.Err? {
      return Synced(0, |contactsToSync|, MarkAll(contactsToSync, outcome.error));
    }
    var pairs := PairCreated(contactsToSync, outcome.value);
    var mapping := IdMapping(pairs);
    var syncedCount := |pairs|;
    if mapping == map[] {
      return Synced(syncedCount, 0, []);
    }
    if updateError.None? {
      return Synced(syncedCount, 0, [UpdateContactAirtableIds(mapping)]);
    }
    r := Synced(syncedCount, |contactsToSync|, MarkAll(contactsToSync, updateError.value));
  }

  /** The id filter loop. */
  method FilterByIds(contacts: seq<StoredContact>, contactIds: seq<int>) returns (r: seq<StoredContact>)
    ensures r == Select(contacts, InIds(contactIds))
  {
    r := [];
    var i := 0;
    while i < |contacts|
      invariant 0 <= i <= |contacts|
      invariant r == Select(contacts[..i], InIds(contactIds))
    {
      SelectStep(contacts, i, InIds(contactIds));
      if contacts[i].id in contactIds {
        r := r + [contacts[i]];
      }
      i := i + 1;
    }
    assert contacts[..i] == contacts;
  }

  /** The `enumerate(created_records)` loop. */
  method PairCreated(toSync: seq<StoredContact>, created: seq<string>) returns (pairs: seq<(int, string)>)
    ensures pairs == CreatedPairs(toSync, created)
  {
    pairs := [];
    var idx := 0;
    while idx < |created| && idx < |toSync|
      invariant 0 <= idx <= |created| && idx <= |toSync|
      invariant pairs + CreatedPairs(toSync[idx..], created[idx..]) == CreatedPairs(toSync, created)
    {
      assert toSync[idx..][1..] == toSync[idx + 1..] && created[idx..][1..] == created[idx + 1..];
      if toSync[idx].id != 0 {
        AppendAssoc(pairs, [(toSync[idx].id, created[idx])], CreatedPairs(toSync[idx + 1..], created[idx + 1..]));
        pairs := pairs + [(toSync[idx].id, created[idx])];
      }
      idx := idx + 1;
    }
  }

  /** Every mark write names a contact of the list, once each, in order. */
  lemma {:induction false} MarkAllMarks(toSync: seq<StoredContact>, error: string)
    ensures |MarkAll(toSync, error)| == |toSync|
    ensures forall k | 0 <= k < |toSync| :: MarkAll(toSync, error)[k] == MarkContactSyncFailed(toSync[k].id, error)
    decreases |toSync|
  {
    if toSync != [] {
      MarkAllMarks(toSync[1..], error);
    }
  }

  lemma {:induction false} CreatedPairsBound(toSync: seq<StoredContact>, created: seq<string>)
    ensures |CreatedPairs(toSync, created)| <= Min(|toSync|, |created|)
    decreases |toSync|
  {
    if toSync != [] && created != [] {
      CreatedPairsBound(toSync[1..], created[1..]);
    }
  }

  /** When the Airtable create raises, nothing is synced and every contact
      to sync is counted and marked as failed with the error. */
  lemma CreateFailureMarksAll(companyAirtableId: string, contactIds: seq<int>, unsynced: seq<StoredContact>,
                              create: seq<ContactFields> -> Result<seq<string>, string>, updateError: Option<string>)
    requires create(MapSeq(ToSync(unsynced, contactIds), FieldsOf(companyAirtableId))).Err?
    ensures var r := SyncContactsOf(companyAirtableId, contactIds, Some(unsynced), create, updateError);
      && r.Synced? && r.synced == 0 && r.failed == |ToSync(unsynced, contactIds)|
      && |r.writes| == r.failed
      && forall k | 0 <= k < |r.writes| :: r.writes[k].MarkContactSyncFailed? && r.writes[k].contactId == ToSync(unsynced, contactIds)[k].id
  {
    MarkAllMarks(ToSync(unsynced, contactIds), create(MapSeq(ToSync(unsynced, contactIds), FieldsOf(companyAirtableId))).error);
  }

  /** Only the given ids are synced when some are given; an empty id
      list (nothing stored) syncs every unsynced contact of the company.
      With the write-back succeeding, synced plus failed is at most the
      contacts to sync. */
  lemma SyncSelection(companyAirtableId: string, contactIds: seq<int>, unsynced: seq<StoredContact>,
                      create: seq<ContactFields> -> Result<seq<string>, string>)
    ensures contactIds != [] ==> forall c | c in ToSync(unsynced, contactIds) :: c in unsynced && c.id in contactIds
    ensures contactIds == [] ==> ToSync(unsynced, contactIds) == unsynced
    ensures var r := SyncContactsOf(companyAirtableId, contactIds, Some(unsynced), create, None);
      r.Synced? && r.synced + r.failed <= |ToSync(unsynced, contactIds)|
  {
    if contactIds != [] {
      forall c | c in ToSync(unsynced, contactIds) ensures c in unsynced && c.id in contactIds {
        SelectMembers(unsynced, InIds(contactIds), c);
      }
    }
    var toSync := ToSync(unsynced, contactIds);
    var outcome := create(MapSeq(toSync, FieldsOf(companyAirtableId)));
    if outcome.Ok? {
      CreatedPairsBound(toSync, outcome.value);
    }
  }

  /** As written, a failing write-back after the create leaves the synced
      count in place and also counts every contact as failed. */
  lemma WriteBackFailureCountsTwice(companyAirtableId: string, contactIds: seq<int>, unsynced: seq<StoredContact>,
                                    create: seq<ContactFields> -> Result<seq<string>, string>, error: string)
    requires create(MapSeq(ToSync(unsynced, contactIds), FieldsOf(companyAirtableId))).Ok?
    requires CreatedPairs(ToSync(unsynced, contactIds), create(MapSeq(ToSync(unsynced, contactIds), FieldsOf(companyAirtableId))).value) != []
    ensures var r := SyncContactsOf(companyAirtableId, contactIds, Some(unsynced), create, Some(error));
      && r.Synced? && r.failed == |ToSync(unsynced, contactIds)| && r.synced > 0
      && r.synced + r.failed > |ToSync(unsynced, contactIds)|
  {
    var pairs := CreatedPairs(ToSync(unsynced, contactIds), create(MapSeq(ToSync(unsynced, contactIds), FieldsOf(companyAirtableId))).value);
    assert pairs[|pairs| - 1].0 in IdMapping(pairs);
  }

  // ---------------------------------------------------------------------
  // `fetch_and_store_contacts`

  /** A row of `get_contacts_by_company`. */
  datatype ExistingContact = ExistingContact(
    din: Option<string>, fullName: Option<string>, mobileNumber: Option<string>, emailAddress: Option<string>,
    addresses: seq<string>, airtableRecordId: Option<string>)

  /** Why processing stopped with an exception. */
  datatype ProcessingError = DatabaseReadFailed | Attestr(error: AttestrError) | SyncFailed

  datatype Message =
    | NoMessage
    | ReturnedExisting(count: nat)
    | AttestrMessage(text: string)
    | NoContactsFound
    | Processed(total: nat, newCount: nat, updatedCount: nat, synced: nat)
    | ProcessingFailed(error: ProcessingError)

  datatype ContactResult = ContactResult(
    success: bool, message: Message, cin: string, businessName: Option<string>,
    totalContactsFetched: nat, newContacts: nat, updatedContacts: nat,
    syncedToAirtable: nat, failedSyncs: nat, contacts: seq<ApiContact>)

  function InitialResult(cin: string): ContactResult {
    ContactResult(false, NoMessage, cin, None, 0, 0, 0, 0, 0, [])
  }

  function ResponseContact(c: ExistingContact): ApiContact {
    ApiContact(c.din, c.fullName, c.mobileNumber, c.emailAddress, c.addresses)
  }

  function HasRecordId(c: ExistingContact): bool { c.airtableRecordId.Some? && c.airtableRecordId.value != "" }

  /** The collaborators `fetch_and_store_contacts` calls. */
  datatype ContactBackends = ContactBackends(
    existing: Option<seq<ExistingContact>>,
    settings: AttestrSettings,
    encode: string -> string,
    post: AttestrRequest -> AttestrReply,
    insert: ContactInsert,
    unsynced: Option<seq<StoredContact>>,
    create: seq<ContactFields> -> Result<seq<string>, string>,
    updateError: Option<string>)

  function FetchAndStoreOf(cin: string, companyAirtableId: string, maxContacts: Option<int>, forceRefresh: bool,
                           b: ContactBackends): ContactResult {
    var result := InitialResult(cin);
    if !forceRefresh && b.existing.None? then result.(message := ProcessingFailed(DatabaseReadFailed))
    else
      var existing := if forceRefresh then [] else b.existing.value;
      if existing != [] then
        result.(success := true, message := ReturnedExisting(|existing|), totalContactsFetched := |existing|,
                contacts := MapSeq(existing, ResponseContact),
                syncedToAirtable := |Select(existing, HasRecordId)|)
      else
        var response := FetchFromAttestr(b.settings, cin, maxContacts, b.encode, b.post);
        if response.Err? then result.(message := ProcessingFailed(Attestr(response.error)))
        else if !response.value.valid then
          result.(message := AttestrMessage(response.value.message.GetOr("Data not available from Attestr")))
        else
          var contacts := response.value.contacts;
          var result := result.(businessName := response.value.businessName, totalContactsFetched := |contacts|, contacts := contacts);
          if contacts == [] then result.(success := true, message := NoContactsFound)
          else
            var stored := StoreOf(contacts, b.insert);
            var result := result.(newContacts := stored.newCount, updatedContacts := stored.updatedCount);
            var sync := SyncContactsOf(companyAirtableId, stored.contactIds, b.unsynced, b.create, b.updateError);
            if sync.SyncRaised? then result.(message := ProcessingFailed(SyncFailed))
            else result.(syncedToAirtable := sync.synced, failedSyncs := sync.failed, success := true,
                         message := Processed(|contacts|, stored.newCount, stored.updatedCount, sync.synced))
  }

  /** `fetch_and_store_contacts`, filling the result step by step. */
  method FetchAndStoreContacts(cin: string, companyAirtableId: string, maxContacts: Option<int>, forceRefresh: bool,
                               b: ContactBackends) returns (result: ContactResult)
    ensures result == FetchAndStoreOf(cin, companyAirtableId, maxContacts, forceRefresh, b)
  {
    result := InitialResult(cin);
    var existing: seq<ExistingContact>;
    if !forceRefresh {
      if b.existing.None? {
        result := result.(message := ProcessingFailed(DatabaseReadFailed));
        return;
      }
      existing := b.existing.value;
    } else {
      existing := [];
    }
    if existing != [] && !forceRefresh {
      var contactsList := MapSeq(existing, ResponseContact);
      result := result.(success := true, message := ReturnedExisting(|existing|), totalContactsFetched := |existing|);
      result := result.(contacts := contactsList, syncedToAirtable := |Select(existing, HasRecordId)|);
      return;
    }
    var response := FetchFromAttestr(b.settings, cin, maxContacts, b.encode, b.post);
    if response.Err? {
      result := result.(message := ProcessingFailed(Attestr(response.error)));
      return;
    }
    if !response.value.valid {
      result := result.(message := AttestrMessage(response.value.message.GetOr("Data not available from Attestr")));
      return;
    }
    var contacts := response.value.contacts;
    result := result.(businessName := response.value.businessName, totalContactsFetched := |contacts|, contacts := contacts);
    if contacts == [] {
      result := result.(success := true, message := NoContactsFound);
      return;
    }
    var stored := StoreContactsInPostgres(contacts, b.insert);
    result := result.(newContacts := stored.newCount, updatedContacts := stored.updatedCount);
    var sync := SyncContactsToAirtable(companyAirtableId, stored.contactIds, b.unsynced, b.create, b.updateError);
    if sync.SyncRaised? {
      result := result.(message := ProcessingFailed(SyncFailed));
      return;
    }
    result := result.(syncedToAirtable := sync.synced, failedSyncs := sync.failed);
    result := result.(success := true, message := Processed(|contacts|, stored.newCount, stored.updatedCount, sync.synced));
  }

  /** With stored contacts and no forced refresh, they are returned
      without an Attestr call (the result does not depend on the POST),
      and the synced count is the number having an Airtable record id. */
  lemma ExistingContactsReturned(cin: string, companyAirtableId: string, maxContacts: Option<int>,
                                 b: ContactBackends, post': AttestrRequest -> AttestrReply)
    requires b.existing.Some? && b.existing.value != []
    ensures FetchAndStoreOf(cin, companyAirtableId, maxContacts, false, b).success
    ensures FetchAndStoreOf(cin, companyAirtableId, maxContacts, false, b).totalContactsFetched == |b.existing.value|
    ensures FetchAndStoreOf(cin, companyAirtableId, maxContacts, false, b).syncedToAirtable == |Select(b.existing.value, HasRecordId)|
    ensures FetchAndStoreOf(cin, companyAirtableId, maxContacts, false, b) == FetchAndStoreOf(cin, companyAirtableId, maxContacts, false, b.(post := post'))
  {
  }

  /** An invalid Attestr answer fails; a valid one without contacts
      succeeds with nothing stored or synced. */
  lemma AttestrAnswers(cin: string, companyAirtableId: string, maxContacts: Option<int>, forceRefresh: bool, b: ContactBackends)
    requires forceRefresh || (b.existing.Some? && b.existing.value == [])
    requires FetchFromAttestr(b.settings, cin, maxContacts, b.encode, b.post).Ok?
    ensures !FetchFromAttestr(b.settings, cin, maxContacts, b.encode, b.post).value.valid ==>
      !FetchAndStoreOf(cin, companyAirtableId, maxContacts, forceRefresh, b).success
    ensures var body := FetchFromAttestr(b.settings, cin, maxContacts, b.encode, b.post).value;
      body.valid && body.contacts == [] ==>
        var r := FetchAndStoreOf(cin, companyAirtableId, maxContacts, forceRefresh, b);
        r.success && r.message == NoContactsFound && r.newContacts == 0 && r.syncedToAirtable == 0
  {
  }

  /** A processed fetch reports new plus updated contacts as at most the
      contacts fetched. */
  lemma ProcessedCounts(cin: string, companyAirtableId: string, maxContacts: Option<int>, forceRefresh: bool, b: ContactBackends)
    ensures var r := FetchAndStoreOf(cin, companyAirtableId, maxContacts, forceRefresh, b);
      r.message.Processed? ==> r.newContacts + r.updatedContacts <= r.totalContactsFetched
  {
    var response := FetchFromAttestr(b.settings, cin, maxContacts, b.encode, b.post);
    if response.Ok? {
      StoreCounts(response.value.contacts, b.insert);
    }
  }
}
