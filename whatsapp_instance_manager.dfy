/** The WhatsApp instance records of the multi-tenant API: one row per
    connected phone, with its authentication state, pending QR code and
    daily message counter. The table is a map from instance id to row;
    `CURRENT_TIMESTAMP` and `datetime.utcnow()` are the `now` parameter, in
    seconds. Database errors, which make every operation return its failure
    value, are not modelled. */
module WhatsAppInstanceManager {
  import opened Common

  /** How long a QR code stays valid: five minutes. */
  const QrValiditySeconds := 5 * 60
  const DefaultDailyMessageLimit := 1000

  datatype Instance = Instance(
    organizationId: int, name: string, phoneNumber: string,
    isActive: bool, isAuthenticated: bool,
    qrCode: Option<string>, qrExpiresAt: Option<int>, clientInfo: Option<string>,
    lastConnectedAt: Option<int>, lastDisconnectedAt: Option<int>,
    messagesSentToday: int, dailyMessageLimit: int, lastMessageSentAt: Option<int>,
    createdAt: int, updatedAt: int)

  /** The row `create_instance` inserts: active, not authenticated, with the
      default limit and the column defaults elsewhere. */
  function NewInstance(organizationId: int, name: string, phoneNumber: string, now: int): (r: Instance)
    ensures r.isActive && !r.isAuthenticated && r.dailyMessageLimit == DefaultDailyMessageLimit
    ensures r.messagesSentToday == 0 && r.qrCode.None? && r.qrExpiresAt.None?
    ensures r.organizationId == organizationId && r.name == name && r.phoneNumber == phoneNumber
  {
    Instance(organizationId, name, phoneNumber, true, false, None, None, None, None, None,
             0, DefaultDailyMessageLimit, None, now, now)
  }

  /** No organisation has two instances with the same phone number. */
  predicate UniquePhones(rows: map<int, Instance>) {
    forall a, b | a in rows && b in rows && a != b ::
      rows[a].organizationId == rows[b].organizationId ==> rows[a].phoneNumber != rows[b].phoneNumber
  }

  predicate PhoneTaken(rows: map<int, Instance>, organizationId: int, phoneNumber: string) {
    exists id | id in rows :: rows[id].organizationId == organizationId && rows[id].phoneNumber == phoneNumber
  }

  /** Replacing a row by one with the same organisation and phone keeps the
      phones unique. */
  lemma UniquePhonesUpdate(rows: map<int, Instance>, id: int, r: Instance)
    requires UniquePhones(rows) && id in rows
    requires r.organizationId == rows[id].organizationId && r.phoneNumber == rows[id].phoneNumber
    ensures UniquePhones(rows[id := r])
  {
    var m := rows[id := r];
    forall a, b | a in m && b in m && a != b && m[a].organizationId == m[b].organizationId
      ensures m[a].phoneNumber != m[b].phoneNumber
    {
      assert m[a].organizationId == rows[a].organizationId && m[a].phoneNumber == rows[a].phoneNumber;
      assert m[b].organizationId == rows[b].organizationId && m[b].phoneNumber == rows[b].phoneNumber;
    }
  }

  /** Adding a row for a phone its organisation does not use yet keeps the
      phones unique. */
  lemma UniquePhonesInsert(rows: map<int, Instance>, id: int, r: Instance)
    requires UniquePhones(rows) && id !in rows && !PhoneTaken(rows, r.organizationId, r.phoneNumber)
    ensures UniquePhones(rows[id := r])
  {
    var m := rows[id := r];
    forall a, b | a in m && b in m && a != b && m[a].organizationId == m[b].organizationId
      ensures m[a].phoneNumber != m[b].phoneNumber
    {
      if a == id { assert b in rows; }
      else if b == id { assert a in rows; }
    }
  }

  /** Rows of `reset_daily_message_counts` that have sent something today. */
  function PositiveIds(rows: map<int, Instance>): set<int> {
    set id | id in rows && rows[id].messagesSentToday > 0
  }

  /** The table after `SET messages_sent_today = 0 WHERE messages_sent_today > 0`. */
  function ResetCounts(rows: map<int, Instance>): (r: map<int, Instance>)
    ensures r.Keys == rows.Keys
  {
    map id | id in rows :: if rows[id].messagesSentToday > 0 then rows[id].(messagesSentToday := 0) else rows[id]
  }

  /** After a reset no row has a positive count, so a second reset changes
      nothing and reports zero rows. */
  lemma ResetIdempotent(rows: map<int, Instance>)
    ensures PositiveIds(ResetCounts(rows)) == {}
    ensures ResetCounts(ResetCounts(rows)) == ResetCounts(rows)
  {
  }

  /** A reset changes only the count of a row, and only a positive count,
      which becomes zero. */
  lemma ResetOnlyCounts(rows: map<int, Instance>, id: int)
    requires id in rows
    ensures ResetCounts(rows)[id] == rows[id].(messagesSentToday := ResetCounts(rows)[id].messagesSentToday)
    ensures ResetCounts(rows)[id].messagesSentToday == if rows[id].messagesSentToday > 0 then 0 else rows[id].messagesSentToday
  {
  }

  /** What `get_instance_qr` returns for a row. */
  datatype QrInfo = QrInfo(qrCode: Option<string>, expiresAt: Option<int>, isAuthenticated: bool, expired: bool)

  /** What `check_message_limit` returns. */
  datatype LimitCheck = LimitCheck(canSend: bool, messagesSent: int, limit: int, remaining: Option<int>, error: Option<string>)

  /** One column `update_instance_config` sets. */
  datatype ConfigField = SetName(name: string) | SetLimit(limit: int) | SetActive(active: bool)

  /** The row with the given columns set, in order. */
  function ApplyConfig(r: Instance, fields: seq<ConfigField>): (q: Instance)
    ensures q.organizationId == r.organizationId && q.phoneNumber == r.phoneNumber
    ensures q.isAuthenticated == r.isAuthenticated && q.qrCode == r.qrCode && q.qrExpiresAt == r.qrExpiresAt
    ensures q.messagesSentToday == r.messagesSentToday && q.updatedAt == r.updatedAt
    decreases |fields|
  {
    if fields == [] then r
    else
      var q := match fields[0]
        case SetName(n) => r.(name := n)
        case SetLimit(l) => r.(dailyMessageLimit := l)
        case SetActive(a) => r.(isActive := a);
      ApplyConfig(q, fields[1..])
  }

  /** The fields named once each, in the order name, limit, active, each
      taking the value given for it. */
  lemma {:induction false} ApplyConfigFields(r: Instance, name: Option<string>, limit: Option<int>, active: Option<bool>)
    ensures var q := ApplyConfig(r, ConfigFields(name, limit, active));
      && q.name == name.GetOr(r.name)
      && q.dailyMessageLimit == limit.GetOr(r.dailyMessageLimit)
      && q.isActive == active.GetOr(r.isActive)
      && q == r.(name := q.name, dailyMessageLimit := q.dailyMessageLimit, isActive := q.isActive)
    decreases |ConfigFields(name, limit, active)|
  {
    var fields := ConfigFields(name, limit, active);
    if name.Some? {
      assert fields[1..] == ConfigFields(None, limit, active);
      ApplyConfigFields(r.(name := name.value), None, limit, active);
    } else if limit.Some? {
      assert fields[1..] == ConfigFields(None, None, active);
      ApplyConfigFields(r.(dailyMessageLimit := limit.value), None, None, active);
    } else if active.Some? {
      assert fields[1..] == [];
    }
  }

  /** The fields `update_instance_config` collects: one per argument given. */
  function ConfigFields(name: Option<string>, limit: Option<int>, active: Option<bool>): (r: seq<ConfigField>)
    ensures r == [] <==> name.None? && limit.None? && active.None?
    ensures |r| <= 3
  {
    (if name.Some? then [SetName(name.value)] else [])
    + (if limit.Some? then [SetLimit(limit.value)] else [])
    + (if active.Some? then [SetActive(active.value)] else [])
  }

  class InstanceManager {
    /** `whatsapp_instances`, by id. */
    var rows: map<int, Instance>
    /** The next value of the id sequence. */
    var nextId: int

    ghost predicate Valid()
      reads this
    {
      (forall id | id in rows :: id < nextId) && UniquePhones(rows)
    }

    constructor ()
      ensures Valid() && rows == map[]
    {
      rows := map[];
      nextId := 1;
    }

    /** `create_instance`: None when the organisation already has an
        instance for the phone, otherwise a fresh id for a new row. */
    method CreateInstance(organizationId: int, name: string, phoneNumber: string, now: int) returns (id: Option<int>)
      requires Valid()
      modifies this
      ensures Valid()
      ensures old(PhoneTaken(rows, organizationId, phoneNumber)) ==> id.None? && rows == old(rows)
      ensures !old(PhoneTaken(rows, organizationId, phoneNumber)) ==>
        id.Some? && id.value !in old(rows) && rows == old(rows)[id.value := NewInstance(organizationId, name, phoneNumber, now)]
    {
      if PhoneTaken(rows, organizationId, phoneNumber) {
        return None;
      }
      var r := NewInstance(organizationId, name, phoneNumber, now);
      UniquePhonesInsert(rows, nextId, r);
      rows := rows[nextId := r];
      id := Some(nextId);
      nextId := nextId + 1;
    }

    /** `get_instance`: the row, only to its own organisation. */
    function GetInstance(instanceId: int, organizationId: int): (r: Option<Instance>)
      reads this
      ensures r.Some? <==> instanceId in rows && rows[instanceId].organizationId == organizationId
      ensures r.Some? ==> r.value == rows[instanceId]
    {
      if instanceId in rows && rows[instanceId].organizationId == organizationId then Some(rows[instanceId]) else None
    }

    /** `update_instance_status`: sets the authentication state and the QR
        code as given; the QR expires five minutes from now only when a QR
        is given and the instance is not authenticated, and otherwise the
        expiry is cleared; the connection time is stamped only on
        authentication. Reports success even when no row has the id. */
    method UpdateInstanceStatus(instanceId: int, isAuthenticated: bool, qrCode: Option<string>,
                                clientInfo: Option<string>, now: int) returns (ok: bool)
      requires Valid()
      modifies this
      ensures Valid() && ok && rows.Keys == old(rows.Keys) && nextId == old(nextId)
      ensures forall id | id in rows && id != instanceId :: rows[id] == old(rows[id])
      ensures instanceId in rows ==> var o := old(rows[instanceId]); var r := rows[instanceId];
        && r.isAuthenticated == isAuthenticated && r.qrCode == qrCode
        && r.qrExpiresAt == (if qrCode.Some? && qrCode.value != "" && !isAuthenticated then Some(now + QrValiditySeconds) else None)
        && r.clientInfo == (if clientInfo.Some? && clientInfo.value != "" then clientInfo else None)
        && r.lastConnectedAt == (if isAuthenticated then Some(now) else o.lastConnectedAt)
        && r == o.(isAuthenticated := r.isAuthenticated, qrCode := r.qrCode, qrExpiresAt := r.qrExpiresAt,
                   clientInfo := r.clientInfo, lastConnectedAt := r.lastConnectedAt, updatedAt := now)
    {
      var expiresAt: Option<int> := None;
      if qrCode.Some? && qrCode.value != "" && !isAuthenticated {
        expiresAt := Some(now + QrValiditySeconds);
      }
      if instanceId in rows {
        var o := rows[instanceId];
        var r := o.(isAuthenticated := isAuthenticated, qrCode := qrCode, qrExpiresAt := expiresAt,
                    clientInfo := if clientInfo.Some? && clientInfo.value != "" then clientInfo else None,
                    lastConnectedAt := if isAuthenticated then Some(now) else o.lastConnectedAt,
                    updatedAt := now);
        UniquePhonesUpdate(rows, instanceId, r);
        rows := rows[instanceId := r];
      }
      ok := true;
    }

    /** `update_instance_disconnected`: unauthenticated, no QR, the
        disconnection stamped. */
    method UpdateInstanceDisconnected(instanceId: int, now: int) returns (ok: bool)
      requires Valid()
      modifies this
      ensures Valid() && ok && rows.Keys == old(rows.Keys) && nextId == old(nextId)
      ensures forall id | id in rows && id != instanceId :: rows[id] == old(rows[id])
      ensures instanceId in rows ==>
        rows[instanceId] == old(rows[instanceId]).(isAuthenticated := false, qrCode := None, qrExpiresAt := None,
                                                  lastDisconnectedAt := Some(now), updatedAt := now)
    {
      if instanceId in rows {
        var r := rows[instanceId].(isAuthenticated := false, qrCode := None, qrExpiresAt := None,
                                   lastDisconnectedAt := Some(now), updatedAt := now);
        UniquePhonesUpdate(rows, instanceId, r);
        rows := rows[instanceId := r];
      }
      ok := true;
    }

    /** `delete_instance`: removes the row only for its own organisation,
        and says whether a row went. */
    method DeleteInstance(instanceId: int, organizationId: int) returns (ok: bool)
      requires Valid()
      modifies this
      ensures Valid() && nextId == old(nextId)
      ensures ok <==> old(GetInstance(instanceId, organizationId)).Some?
      ensures rows == if ok then old(rows) - {instanceId} else old(rows)
    {
      ok := GetInstance(instanceId, organizationId).Some?;
      if ok {
        rows := rows - {instanceId};
      }
    }

    /** `get_instance_qr`: None for an unknown instance; no QR and `expired`
        once the expiry has passed; otherwise the stored QR. */
    function GetInstanceQr(instanceId: int, organizationId: int, now: int): (r: Option<QrInfo>)
      reads this
      ensures r.None? <==> GetInstance(instanceId, organizationId).None?
      ensures r.Some? ==> var row := rows[instanceId];
        && r.value.isAuthenticated == row.isAuthenticated
        && (r.value.expired <==> row.qrExpiresAt.Some? && row.qrExpiresAt.value < now)
        && (r.value.expired ==> r.value.qrCode.None?)
        && (!r.value.expired ==> r.value.qrCode == row.qrCode && r.value.expiresAt == row.qrExpiresAt)
    {
      match GetInstance(instanceId, organizationId)
      case None => None
      case Some(row) =>
        if row.qrExpiresAt.Some? && row.qrExpiresAt.value < now then Some(QrInfo(None, None, row.isAuthenticated, true))
        else Some(QrInfo(row.qrCode, row.qrExpiresAt, row.isAuthenticated, false))
    }

    /** `increment_message_count`: one more message today. */
    method IncrementMessageCount(instanceId: int, now: int) returns (ok: bool)
      requires Valid()
      modifies this
      ensures Valid() && ok && rows.Keys == old(rows.Keys) && nextId == old(nextId)
      ensures forall id | id in rows && id != instanceId :: rows[id] == old(rows[id])
      ensures instanceId in rows ==>
        rows[instanceId] == old(rows[instanceId]).(messagesSentToday := old(rows[instanceId].messagesSentToday) + 1,
                                                  lastMessageSentAt := Some(now))
    {
      if instanceId in rows {
        var r := rows[instanceId].(messagesSentToday := rows[instanceId].messagesSentToday + 1, lastMessageSentAt := Some(now));
        UniquePhonesUpdate(rows, instanceId, r);
        rows := rows[instanceId := r];
      }
      ok := true;
    }

    /** `reset_daily_message_counts`: zeroes the positive counts and returns
        how many rows that changed. */
    method ResetDailyMessageCounts() returns (count: int)
      requires Valid()
      modifies this
      ensures Valid() && nextId == old(nextId)
      ensures rows == ResetCounts(old(rows))
      ensures count == |PositiveIds(old(rows))|
    {
      count := |PositiveIds(rows)|;
      var reset := ResetCounts(rows);
      assert UniquePhones(reset) by {
        forall a, b | a in reset && b in reset && a != b && reset[a].organizationId == reset[b].organizationId
          ensures reset[a].phoneNumber != reset[b].phoneNumber
        {
          assert reset[a].phoneNumber == rows[a].phoneNumber && reset[b].phoneNumber == rows[b].phoneNumber;
        }
      }
      rows := reset;
    }

    /** `check_message_limit`: a missing, foreign or inactive instance cannot
        send and reports a limit of 0; otherwise it can send while under its
        daily limit. */
    function CheckMessageLimit(instanceId: int, organizationId: int): (r: LimitCheck)
      reads this
      ensures var found := GetInstance(instanceId, organizationId);
        if found.None? || !found.value.isActive then
          !r.canSend && r.limit == 0 && r.messagesSent == 0 && r.error.Some?
        else
          && (r.canSend <==> found.value.messagesSentToday < found.value.dailyMessageLimit)
          && r.remaining == Some(r.limit - r.messagesSent) && r.error.None?
          && r.limit == found.value.dailyMessageLimit && r.messagesSent == found.value.messagesSentToday
    {
      match GetInstance(instanceId, organizationId)
      case None => LimitCheck(false, 0, 0, None, Some("Instance not found or inactive"))
      case Some(row) =>
        if !row.isActive then LimitCheck(false, 0, 0, None, Some("Instance not found or inactive"))
        else LimitCheck(row.messagesSentToday < row.dailyMessageLimit, row.messagesSentToday,
                        row.dailyMessageLimit, Some(row.dailyMessageLimit - row.messagesSentToday), None)
    }

    /** `get_instances_needing_initialization`: every active instance. The
        query does not filter on authentication, so authenticated instances
        are included too. */
    function InstancesNeedingInitialization(): (r: set<int>)
      reads this
      ensures forall id :: id in r <==> id in rows && rows[id].isActive
    {
      set id | id in rows && rows[id].isActive
    }

    /** `update_instance_config`: with no field given it succeeds and changes
        nothing; otherwise it sets exactly the given fields of the row of
        that organisation and fails when there is none. */
    method UpdateInstanceConfig(instanceId: int, organizationId: int, name: Option<string>,
                                limit: Option<int>, active: Option<bool>, now: int) returns (ok: bool)
      requires Valid()
      modifies this
      ensures Valid() && rows.Keys == old(rows.Keys) && nextId == old(nextId)
      ensures forall id | id in rows && id != instanceId :: rows[id] == old(rows[id])
      ensures name.None? && limit.None? && active.None? ==> ok && rows == old(rows)
      ensures !(name.None? && limit.None? && active.None?) ==>
        (ok <==> old(GetInstance(instanceId, organizationId)).Some?)
      ensures !(name.None? && limit.None? && active.None?) && ok ==>
        rows[instanceId] == ApplyConfig(old(rows[instanceId]), ConfigFields(name, limit, active)).(updatedAt := now)
      ensures !ok ==> rows == old(rows)
    {
      var fields: seq<ConfigField> := [];
      if name.Some? {
        fields := fields + [SetName(name.value)];
      }
      if limit.Some? {
        fields := fields + [SetLimit(limit.value)];
      }
      if active.Some? {
        fields := fields + [SetActive(active.value)];
      }
      assert fields == ConfigFields(name, limit, active);
      if fields == [] {
        return true;
      }
      if GetInstance(instanceId, organizationId).None? {
        return false;
      }
      var r := ApplyConfig(rows[instanceId], fields).(updatedAt := now);
      UniquePhonesUpdate(rows, instanceId, r);
      rows := rows[instanceId := r];
      ok := true;
    }
  }
}
