/** The campaign endpoints: a campaign is created as a draft on one of the
    organisation's WhatsApp instances, contacts of the organisation are
    linked to it while it is a draft or scheduled, and it is started,
    paused and deleted under status guards. The caller is already
    authorised (its organisation id is given); the ISO time parser and the
    clock are parameters. */
module Campaigns {
  import opened Common
  import opened Strings
  import opened WhatsAppInstanceManager

  /** The text of a status the campaign runner (not part of this model)
      writes, such as completed: never one of the four named below. */
  type OtherStatusName = name: string | name != "draft" && name != "scheduled" && name != "running" && name != "paused"
    witness "completed"

  /** `campaign_status_enum`; `Other` stands for the values only the
      campaign runner writes. */
  datatype Status = Draft | Scheduled | Running | Paused | Other(name: OtherStatusName)

  datatype Campaign = Campaign(
    organizationId: int, instanceId: int, name: string, description: Option<string>,
    messageTemplate: string, status: Status, scheduledStart: Option<int>, actualStart: Option<int>,
    messagesPerHour: int, delaySeconds: int,
    totalContacts: int, messagesSent: int, messagesFailed: int, messagesPending: int,
    createdBy: int)

  /** The status of a `campaign_contacts` row: links are inserted pending;
      the other values are written by the campaign runner (not part of
      this model). */
  datatype LinkStatus = Pending | Delivered(name: string)

  datatype CreateRequest = CreateRequest(
    name: string, description: Option<string>, messageTemplate: string, instanceId: int,
    scheduledStart: Option<string>, messagesPerHour: int, delaySeconds: int)

  /** The field bounds of `CreateCampaignRequest`: a name of 1 to 255
      characters, a non-empty template, 1 to 500 messages an hour and a
      delay of at least a second. */
  predicate WellFormedCreate(req: CreateRequest) {
    1 <= |req.name| <= 255 && |req.messageTemplate| >= 1
    && 1 <= req.messagesPerHour <= 500 && req.delaySeconds >= 1
  }

  const ValidationFailed := HttpError(422, "Request validation failed")
  const InstanceNotOwned := HttpError(400, "WhatsApp instance not found or doesn't belong to your organization")
  const BadStartTime := HttpError(400, "Invalid scheduled_start_time format. Use ISO format.")
  const CampaignNotFound := HttpError(404, "Campaign not found")
  const NotEditable := HttpError(400, "Cannot add contacts to running or completed campaign")
  const ForeignContacts := HttpError(400, "Some contacts not found or don't belong to your organization")
  const NoContacts := HttpError(400, "Cannot start campaign with no contacts")
  const NotRunning := HttpError(400, "Can only pause running campaigns")
  const DeleteRunning := HttpError(400, "Cannot delete running campaign. Pause it first.")

  /** The scheduled start of a create request: none when the field is
      missing or empty, otherwise `fromisoformat` of the text with 'Z'
      spelled "+00:00", and a 400 when that does not parse. */
  function ScheduledStart(text: Option<string>, parseIso: string -> Option<int>): (r: Result<Option<int>, HttpError>)
    ensures (text.None? || text.value == "") ==> r == Ok(None)
    ensures text.Some? && text.value != "" ==>
      (r.Err? <==> parseIso(Replace(text.value, "Z", "+00:00")).None?)
    ensures r.Err? ==> r.error == BadStartTime
  {
    if text.None? || text.value == "" then Ok(None)
    else
      match parseIso(Replace(text.value, "Z", "+00:00"))
      case None => Err(BadStartTime)
      case Some(t) => Ok(Some(t))
  }

  /** The row `create_campaign` inserts: a draft, never started, with
      every counter zero. */
  function NewCampaign(organizationId: int, req: CreateRequest, start: Option<int>, userId: int): (c: Campaign)
    ensures c.status == Draft && c.actualStart.None? && c.scheduledStart == start
    ensures c.totalContacts == 0 && c.messagesSent == 0 && c.messagesFailed == 0 && c.messagesPending == 0
    ensures c.organizationId == organizationId && c.instanceId == req.instanceId && c.createdBy == userId
  {
    Campaign(organizationId, req.instanceId, req.name, req.description, req.messageTemplate, Draft,
             start, None, req.messagesPerHour, req.delaySeconds, 0, 0, 0, 0, userId)
  }

  // ---------------------------------------------------------------------
  // Guards

  /** The ids `SELECT id FROM contacts WHERE id = ANY(ids) AND
      organization_id = org` returns: each matching contact once. */
  function OwnedContacts(ids: seq<int>, owner: map<int, int>, organizationId: int): set<int> {
    set x | x in ids && x in owner && owner[x] == organizationId
  }

  predicate DistinctIds(ids: seq<int>) {
    forall i, j | 0 <= i < j < |ids| :: ids[i] != ids[j]
  }

  function IdSet(ids: seq<int>): set<int> {
    set x | x in ids
  }

  /** A sequence has as many distinct elements as entries exactly when no
      entry repeats. */
  lemma {:induction false} IdSetSize(ids: seq<int>)
    ensures |IdSet(ids)| <= |ids|
    ensures |IdSet(ids)| == |ids| <==> DistinctIds(ids)
  {
    if ids != [] {
      var rest := ids[1..];
      IdSetSize(rest);
      IdSetCons(ids);
      if ids[0] in rest {
        var k :| 0 <= k < |rest| && rest[k] == ids[0];
        assert ids[k + 1] == ids[0];
      } else {
        DistinctCons(ids);
      }
    }
  }

  lemma IdSetCons(ids: seq<int>)
    requires ids != []
    ensures IdSet(ids) == IdSet(ids[1..]) + {ids[0]}
  {
    assert ids == [ids[0]] + ids[1..];
  }

  lemma DistinctCons(ids: seq<int>)
    requires ids != [] && ids[0] !in ids[1..]
    ensures DistinctIds(ids) <==> DistinctIds(ids[1..])
  {
    var rest := ids[1..];
    if DistinctIds(rest) {
      forall i, j | 0 <= i < j < |ids| ensures ids[i] != ids[j] {
        assert ids[j] == rest[j - 1];
        if i > 0 { assert ids[i] == rest[i - 1]; }
      }
    }
    if DistinctIds(ids) {
      forall i, j | 0 <= i < j < |rest| ensures rest[i] != rest[j] {
        assert rest[i] == ids[i + 1] && rest[j] == ids[j + 1];
      }
    }
  }

  /** The count check of `add_contacts_to_campaign` passes exactly when the
      list names each contact once and every contact belongs to the
      organisation: a repeated id fails it as a foreign one does. */
  lemma FoundCountCheck(ids: seq<int>, owner: map<int, int>, organizationId: int)
    ensures |OwnedContacts(ids, owner, organizationId)| == |ids| <==>
      DistinctIds(ids) && forall x | x in ids :: x in owner && owner[x] == organizationId
  {
    var found := OwnedContacts(ids, owner, organizationId);
    IdSetSize(ids);
    assert found <= IdSet(ids);
    if forall x | x in ids :: x in owner && owner[x] == organizationId {
      assert found == IdSet(ids);
    } else {
      var y :| y in ids && !(y in owner && owner[y] == organizationId);
      assert y in IdSet(ids) && y !in found;
      SubsetSize(found, IdSet(ids));
    }
  }

  /** The guards of `add_contacts_to_campaign`, first failure wins: the
      request's 1 to 1000 ids, an unknown campaign, a campaign past
      scheduling, a found count that differs from the requested one. */
  function AddContactsGuard(found: Option<Campaign>, ids: seq<int>, owner: map<int, int>, organizationId: int): (r: Option<HttpError>)
    ensures r.None? <==> (1 <= |ids| <= 1000 && found.Some? && found.value.status in {Draft, Scheduled}
      && |OwnedContacts(ids, owner, organizationId)| == |ids|)
    ensures !(1 <= |ids| <= 1000) ==> r == Some(ValidationFailed)
    ensures 1 <= |ids| <= 1000 && found.None? ==> r == Some(CampaignNotFound)
    ensures 1 <= |ids| <= 1000 && found.Some? && found.value.status !in {Draft, Scheduled} ==> r == Some(NotEditable)
  {
    if !(1 <= |ids| <= 1000) then Some(ValidationFailed)
    else if found.None? then Some(CampaignNotFound)
    else if found.value.status !in {Draft, Scheduled} then Some(NotEditable)
    else if |OwnedContacts(ids, owner, organizationId)| != |ids| then Some(ForeignContacts)
    else None
  }

  /** The guards of `start_campaign`: an unknown campaign, a status other
      than draft, scheduled or paused, no contacts. */
  function StartGuard(found: Option<Campaign>): (r: Option<HttpError>)
    ensures r.None? <==> found.Some? && found.value.status in {Draft, Scheduled, Paused} && found.value.totalContacts != 0
    ensures found.None? ==> r == Some(CampaignNotFound)
    ensures r.Some? ==> r.value.status in {400, 404}
  {
    if found.None? then Some(CampaignNotFound)
    else if found.value.status !in {Draft, Scheduled, Paused} then
      Some(HttpError(400, "Cannot start campaign with status: " + StatusName(found.value.status)))
    else if found.value.totalContacts == 0 then Some(NoContacts)
    else None
  }

  function StatusName(s: Status): string {
    match s
    case Draft => "draft"
    case Scheduled => "scheduled"
    case Running => "running"
    case Paused => "paused"
    case Other(name) => name
  }

  /** Each enum value has its own text: two statuses with the same text
      are the same status. */
  lemma StatusNameInjective(a: Status, b: Status)
    requires StatusName(a) == StatusName(b)
    ensures a == b
  {
  }

  /** The guards of `pause_campaign`: an unknown campaign, one not running. */
  function PauseGuard(found: Option<Campaign>): (r: Option<HttpError>)
    ensures r.None? <==> found.Some? && found.value.status == Running
    ensures found.Some? && found.value.status != Running ==> r == Some(NotRunning)
  {
    if found.None? then Some(CampaignNotFound)
    else if found.value.status != Running then Some(NotRunning)
    else None
  }

  /** The guards of `delete_campaign`: an unknown campaign, a running one. */
  function DeleteGuard(found: Option<Campaign>): (r: Option<HttpError>)
    ensures r.None? <==> found.Some? && found.value.status != Running
    ensures found.Some? && found.value.status == Running ==> r == Some(DeleteRunning)
  {
    if found.None? then Some(CampaignNotFound)
    else if found.value.status == Running then Some(DeleteRunning)
    else None
  }

  /** Start and pause take a campaign with contacts round the cycle
      running, paused, running; neither can be repeated, and only the
      paused campaign can be deleted. */
  lemma {:induction false} RunPauseCycle(c: Campaign)
    requires c.status in {Draft, Scheduled, Paused} && c.totalContacts != 0
    ensures StartGuard(Some(c)).None?
    ensures var running := c.(status := Running);
      && StartGuard(Some(running)).Some? && PauseGuard(Some(running)).None? && DeleteGuard(Some(running)).Some?
    ensures var paused := c.(status := Paused);
      && StartGuard(Some(paused)).None? && PauseGuard(Some(paused)).Some? && DeleteGuard(Some(paused)).None?
  {
    var running := c.(status := Running);
    assert running.status !in {Draft, Scheduled, Paused};
  }

  /** Contacts can be linked only before the first start: a running or
      paused campaign takes none, whatever the list. */
  lemma NoContactsAfterStart(c: Campaign, ids: seq<int>, owner: map<int, int>, organizationId: int)
    requires c.status in {Running, Paused}
    ensures AddContactsGuard(Some(c), ids, owner, organizationId).Some?
  {
    assert c.status !in {Draft, Scheduled};
  }

  /** The number of pending links of a campaign. */
  function PendingCount(links: map<int, LinkStatus>): (n: nat)
    ensures n <= |links|
  {
    var pending := set k | k in links && links[k] == Pending;
    SubsetSize(pending, links.Keys);
    |pending|
  }

  /** A campaign whose links are all still pending has as many pending
      messages as contacts. */
  lemma AllPendingCount(links: map<int, LinkStatus>)
    requires forall k | k in links :: links[k] == Pending
    ensures PendingCount(links) == |links|
  {
    var pending := set k | k in links && links[k] == Pending;
    forall k ensures k in pending <==> k in links.Keys {
    }
    assert pending == links.Keys;
  }

  /** `linked` keeps every link of `before` as it was, and every link it
      adds is pending. */
  predicate KeepsAndPends(before: map<int, LinkStatus>, linked: map<int, LinkStatus>) {
    && (forall k | k in before :: k in linked && linked[k] == before[k])
    && (forall k | k in linked && k !in before :: linked[k] == Pending)
  }

  lemma AddLink(before: map<int, LinkStatus>, linked: map<int, LinkStatus>, contactId: int)
    requires KeepsAndPends(before, linked) && contactId !in linked
    ensures KeepsAndPends(before, linked[contactId := Pending])
    ensures |linked[contactId := Pending]| == |linked| + 1
  {
  }

  /** The insert loop of `add_contacts_to_campaign` on one campaign's
      links: each id not yet linked gets a pending link and is counted
      (`ON CONFLICT DO NOTHING` leaves an existing link and does not count
      it). */
  method LinkContacts(before: map<int, LinkStatus>, contactIds: seq<int>) returns (linked: map<int, LinkStatus>, added: nat)
    ensures forall x :: x in linked <==> x in before || x in contactIds
    ensures KeepsAndPends(before, linked)
    ensures |linked| == |before| + added
  {
    linked := before;
    added := 0;
    var i := 0;
    while i < |contactIds|
      invariant 0 <= i <= |contactIds|
      invariant forall x :: x in linked <==> x in before || x in contactIds[..i]
      invariant KeepsAndPends(before, linked)
      invariant |linked| == |before| + added
    {
      var contactId := contactIds[i];
      assert contactIds[..i + 1] == contactIds[..i] + [contactId];
      if contactId !in linked {
        AddLink(before, linked, contactId);
        linked := linked[contactId := Pending];
        added := added + 1;
      }
      i := i + 1;
    }
    assert contactIds[..i] == contactIds;
  }

  class CampaignStore {
    /** `campaigns`, by id. */
    var campaigns: map<int, Campaign>
    /** `campaign_contacts`: for each campaign id, its contacts and the
        status of each link. */
    var links: map<int, map<int, LinkStatus>>
    /** `contacts`: the organisation of each contact id. */
    var contactOwner: map<int, int>
    var nextId: int

    ghost predicate Valid()
      reads this
    {
      && (forall id | id in campaigns :: id < nextId)
      && (forall id | id in links :: id < nextId)
    }

    constructor (contactOwner: map<int, int>)
      ensures Valid() && campaigns == map[] && links == map[] && this.contactOwner == contactOwner
    {
      campaigns := map[];
      links := map[];
      this.contactOwner := contactOwner;
      nextId := 1;
    }

    /** The campaign with this id, only to its own organisation. */
    function Find(campaignId: int, organizationId: int): (r: Option<Campaign>)
      reads this
      ensures r.Some? <==> campaignId in campaigns && campaigns[campaignId].organizationId == organizationId
      ensures r.Some? ==> r.value == campaigns[campaignId]
    {
      if campaignId in campaigns && campaigns[campaignId].organizationId == organizationId
      then Some(campaigns[campaignId]) else None
    }

    function LinksOf(campaignId: int): map<int, LinkStatus>
      reads this
    {
      if campaignId in links then links[campaignId] else map[]
    }

    /** `create_campaign`: validation, an instance of the organisation, a
        parsable start time, then a fresh draft. */
    method CreateCampaign(manager: InstanceManager, organizationId: int, userId: int, req: CreateRequest,
                          parseIso: string -> Option<int>) returns (r: Result<int, HttpError>)
      requires Valid()
      modifies this
      ensures Valid() && links == old(links) && contactOwner == old(contactOwner)
      ensures !WellFormedCreate(req) ==> r == Err(ValidationFailed)
      ensures WellFormedCreate(req) && manager.GetInstance(req.instanceId, organizationId).None? ==> r == Err(InstanceNotOwned)
      ensures (WellFormedCreate(req) && manager.GetInstance(req.instanceId, organizationId).Some?
        && ScheduledStart(req.scheduledStart, parseIso).Err?) ==> r == Err(BadStartTime)
      ensures r.Err? ==> campaigns == old(campaigns)
      ensures r.Ok? <==> (WellFormedCreate(req) && manager.GetInstance(req.instanceId, organizationId).Some?
        && ScheduledStart(req.scheduledStart, parseIso).Ok?)
      ensures r.Ok? ==> r.value !in old(links)
      ensures r.Ok? ==> r.value !in old(campaigns) && campaigns == old(campaigns)[r.value :=
        NewCampaign(organizationId, req, ScheduledStart(req.scheduledStart, parseIso).value, userId)]
    {
      if !WellFormedCreate(req) {
        return Err(ValidationFailed);
      }
      var instance := manager.GetInstance(req.instanceId, organizationId);
      if instance.None? {
        return Err(InstanceNotOwned);
      }
      var start := ScheduledStart(req.scheduledStart, parseIso);
      if start.Err? {
        return Err(start.error);
      }
      campaigns := campaigns[nextId := NewCampaign(organizationId, req, start.value, userId)];
      r := Ok(nextId);
      nextId := nextId + 1;
    }

    /** `add_contacts_to_campaign`: after the guards, each id not yet
        linked gets a pending link and is counted; the campaign's contact
        and pending counts are then recounted from its links. Returns the
        number of links added. */
    method AddContacts(campaignId: int, organizationId: int, contactIds: seq<int>) returns (r: Result<nat, HttpError>)
      requires Valid()
      modifies this
      ensures Valid() && contactOwner == old(contactOwner) && nextId == old(nextId)
      ensures var g := AddContactsGuard(old(Find(campaignId, organizationId)), contactIds, contactOwner, organizationId);
        && (g.Some? ==> r == Err(g.value) && campaigns == old(campaigns) && links == old(links))
        && (g.None? <==> r.Ok?)
      ensures forall c | c != campaignId :: LinksOf(c) == old(LinksOf(c))
      ensures r.Ok? ==>
        && (forall x :: x in LinksOf(campaignId) <==> x in old(LinksOf(campaignId)) || x in contactIds)
        && KeepsAndPends(old(LinksOf(campaignId)), LinksOf(campaignId))
        && |LinksOf(campaignId)| == |old(LinksOf(campaignId))| + r.value
        && campaigns == old(campaigns)[campaignId := old(campaigns)[campaignId].(
             totalContacts := |LinksOf(campaignId)|, messagesPending := PendingCount(LinksOf(campaignId)))]
    {
      var guard := AddContactsGuard(Find(campaignId, organizationId), contactIds, contactOwner, organizationId);
      if guard.Some? {
        return Err(guard.value);
      }
      var before := LinksOf(campaignId);
      var linked, added := LinkContacts(before, contactIds);
      links := links[campaignId := linked];
      campaigns := campaigns[campaignId := campaigns[campaignId].(
        totalContacts := |linked|, messagesPending := PendingCount(linked))];
      r := Ok(added);
    }

    /** `start_campaign`: a draft, scheduled or paused campaign with
        contacts becomes running, stamped with the start time. */
    method StartCampaign(campaignId: int, organizationId: int, now: int) returns (r: Option<HttpError>)
      requires Valid()
      modifies this
      ensures Valid() && links == old(links) && contactOwner == old(contactOwner)
      ensures r == StartGuard(old(Find(campaignId, organizationId)))
      ensures r.Some? ==> campaigns == old(campaigns)
      ensures r.None? ==> campaigns == old(campaigns)[campaignId :=
        old(campaigns)[campaignId].(status := Running, actualStart := Some(now))]
    {
      r := StartGuard(Find(campaignId, organizationId));
      if r.None? {
        campaigns := campaigns[campaignId := campaigns[campaignId].(status := Running, actualStart := Some(now))];
      }
    }

    /** `pause_campaign`: a running campaign becomes paused. */
    method PauseCampaign(campaignId: int, organizationId: int) returns (r: Option<HttpError>)
      requires Valid()
      modifies this
      ensures Valid() && links == old(links) && contactOwner == old(contactOwner)
      ensures r == PauseGuard(old(Find(campaignId, organizationId)))
      ensures r.Some? ==> campaigns == old(campaigns)
      ensures r.None? ==> campaigns == old(campaigns)[campaignId := old(campaigns)[campaignId].(status := Paused)]
    {
      r := PauseGuard(Find(campaignId, organizationId));
      if r.None? {
        campaigns := campaigns[campaignId := campaigns[campaignId].(status := Paused)];
      }
    }

    /** `delete_campaign`: any campaign of the organisation that is not
        running is removed. */
    method DeleteCampaign(campaignId: int, organizationId: int) returns (r: Option<HttpError>)
      requires Valid()
      modifies this
      ensures Valid() && links == old(links) && contactOwner == old(contactOwner)
      ensures r == DeleteGuard(old(Find(campaignId, organizationId)))
      ensures r.Some? ==> campaigns == old(campaigns)
      ensures r.None? ==> campaigns == old(campaigns) - {campaignId}
    {
      r := DeleteGuard(Find(campaignId, organizationId));
      if r.None? {
        campaigns := campaigns - {campaignId};
      }
    }
  }
}
