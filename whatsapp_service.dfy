/** The Python producer side of WhatsApp messaging: queueing messages on
    RabbitMQ for the gateway, and the acknowledgement rule of the status
    consumer. The broker is an oracle: whether it accepts a connection and
    whether a publish raises is given with each call; message ids
    (`uuid4`) and timestamps are parameters. */
module WhatsAppService {
  import opened Common

  const MessageQueue := "whatsapp_messages"
  const StatusQueue := "whatsapp_status"

  /** The body published to the message queue. The router adds the id of
      the sending instance; the service leaves it out. */
  datatype Payload = Payload(
    messageId: string, instanceId: Option<int>, phoneNumber: string,
    message: string, contactName: string, queuedAt: string)

  /** `contact_name or phone_number`. */
  function ContactOrPhone(contactName: Option<string>, phoneNumber: string): (r: string)
    ensures contactName.Some? && contactName.value != "" ==> r == contactName.value
    ensures contactName.None? || contactName.value == "" ==> r == phoneNumber
  {
    if contactName.Some? && contactName.value != "" then contactName.value else phoneNumber
  }

  /** A pika connection or channel. */
  datatype Link = Absent | Open | Closed

  /** How the broker answers one call: whether a new connection can be
      opened, whether a new channel (with its queue declarations) can be
      opened on an open connection, and the error a publish raises, if
      any. */
  datatype Broker = Broker(reachable: bool, connectError: string, channelOpens: bool, publishError: Option<string>)

  /** What `send_message` returns. */
  datatype SendResult =
    | Sent(messageId: string, phoneNumber: string, contactName: Option<string>)
    | NotSent(error: string, phoneNumber: string, contactName: Option<string>)

  /** One input of `send_bulk_messages`. */
  datatype Contact = Contact(phoneNumber: string, message: string, name: Option<string>)

  /** An entry of `message_ids` and one of `errors`. */
  datatype Queued = Queued(messageId: string, phoneNumber: string, contactName: Option<string>)
  datatype Failure = Failure(phoneNumber: string, error: Option<string>)

  datatype BulkSummary = BulkSummary(success: nat, failed: nat, total: nat, messageIds: seq<Queued>, errors: seq<Failure>)

  /** `message_ids`: the sends that succeeded, in input order. */
  function QueuedOf(contacts: seq<Contact>, results: seq<SendResult>): (r: seq<Queued>)
    requires |results| == |contacts|
    ensures |r| <= |contacts|
  {
    if contacts == [] then []
    else
      var n := |contacts| - 1;
      QueuedOf(contacts[..n], results[..n])
      + (if results[n].Sent? then [Queued(results[n].messageId, contacts[n].phoneNumber, contacts[n].name)] else [])
  }

  /** `errors`: the sends that failed, in input order. */
  function FailuresOf(contacts: seq<Contact>, results: seq<SendResult>): (r: seq<Failure>)
    requires |results| == |contacts|
    ensures |r| <= |contacts|
  {
    if contacts == [] then []
    else
      var n := |contacts| - 1;
      FailuresOf(contacts[..n], results[..n])
      + (if results[n].NotSent? then [Failure(contacts[n].phoneNumber, Some(results[n].error))] else [])
  }

  /** Every send lands in exactly one of the two lists. */
  lemma {:induction false} QueuedPlusFailures(contacts: seq<Contact>, results: seq<SendResult>)
    requires |results| == |contacts|
    ensures |QueuedOf(contacts, results)| + |FailuresOf(contacts, results)| == |contacts|
  {
    if contacts != [] {
      var n := |contacts| - 1;
      QueuedPlusFailures(contacts[..n], results[..n]);
    }
  }

  /** The payloads of the sends that succeeded, in order. */
  function PayloadsOf(contacts: seq<Contact>, results: seq<SendResult>, queuedAt: seq<string>): seq<Payload>
    requires |results| == |contacts| == |queuedAt|
  {
    if contacts == [] then []
    else
      var n := |contacts| - 1;
      PayloadsOf(contacts[..n], results[..n], queuedAt[..n])
      + (if results[n].Sent? then [ServicePayload(results[n].messageId, contacts[n], queuedAt[n])] else [])
  }

  /** The body `send_message` publishes. */
  function ServicePayload(messageId: string, c: Contact, queuedAt: string): (p: Payload)
    ensures p.instanceId.None? && p.phoneNumber == c.phoneNumber && p.message == c.message
    ensures p.contactName == ContactOrPhone(c.name, c.phoneNumber)
  {
    Payload(messageId, None, c.phoneNumber, c.message, ContactOrPhone(c.name, c.phoneNumber), queuedAt)
  }

  lemma PrefixStep<T>(s: seq<T>, i: nat)
    requires i < |s|
    ensures s[..i + 1][..i] == s[..i] && s[..i + 1][i] == s[i]
  {
  }

  /** The three lists after one more send. */
  lemma BulkStep(contacts: seq<Contact>, results: seq<SendResult>, times: seq<string>, i: nat, r: SendResult)
    requires i < |contacts| == |times| && |results| == i
    ensures QueuedOf(contacts[..i + 1], results + [r]) == QueuedOf(contacts[..i], results)
      + (if r.Sent? then [Queued(r.messageId, contacts[i].phoneNumber, contacts[i].name)] else [])
    ensures FailuresOf(contacts[..i + 1], results + [r]) == FailuresOf(contacts[..i], results)
      + (if r.NotSent? then [Failure(contacts[i].phoneNumber, Some(r.error))] else [])
    ensures PayloadsOf(contacts[..i + 1], results + [r], times[..i + 1]) == PayloadsOf(contacts[..i], results, times[..i])
      + (if r.Sent? then [ServicePayload(r.messageId, contacts[i], times[i])] else [])
  {
    PrefixStep(contacts, i);
    PrefixStep(times, i);
    assert (results + [r])[..i] == results;
  }

  /** Each send that succeeded carries the message id given for it. */
  predicate SentWithIds(results: seq<SendResult>, ids: seq<string>) {
    forall k | 0 <= k < |results| && k < |ids| :: results[k].Sent? ==> results[k].messageId == ids[k]
  }

  /** The payload the i-th send publishes, if it succeeded. */
  function Delta(contacts: seq<Contact>, times: seq<string>, results: seq<SendResult>, i: nat): seq<Payload>
    requires i < |contacts| == |times| && i < |results|
  {
    if results[i].Sent? then [ServicePayload(results[i].messageId, contacts[i], times[i])] else []
  }

  class WhatsAppService {
    var connection: Link
    var channel: Link
    /** The queues declared on the current channel. */
    var declared: set<string>
    /** The bodies published to the message queue, oldest first. */
    var published: seq<Payload>

    /** An open channel has both queues declared. */
    predicate Consistent()
      reads this
    {
      connection == Open && channel == Open ==> MessageQueue in declared && StatusQueue in declared
    }

    predicate Ready()
      reads this
    {
      connection == Open && channel == Open && MessageQueue in declared && StatusQueue in declared
    }

    /** `_connect`: a new connection and channel with both queues declared,
        or the connection error. */
    method Connect(broker: Broker) returns (err: Option<string>)
      modifies this
      ensures published == old(published)
      ensures err.None? <==> broker.reachable
      ensures err.None? ==> Ready()
      ensures err.Some? ==> connection == old(connection) && channel == old(channel) && declared == old(declared)
    {
      if !broker.reachable {
        return Some(broker.connectError);
      }
      connection := Open;
      channel := Open;
      declared := {MessageQueue, StatusQueue};
      err := None;
    }

    /** `_ensure_connection`: reconnects when the connection is missing or
        closed; when only the channel is missing or closed it opens a new
        one on the same connection and declares the queues again, and when
        that raises it falls back to reconnecting. */
    method EnsureConnection(broker: Broker) returns (err: Option<string>)
      requires Consistent()
      modifies this
      ensures Consistent()
      ensures published == old(published)
      ensures err.None? ==> Ready()
      ensures old(connection) == Open && old(channel) == Open ==>
        err.None? && connection == Open && channel == Open && declared == old(declared)
      ensures old(connection) == Open && old(channel) != Open && broker.channelOpens ==>
        err.None? && connection == Open && declared == old(declared) + {MessageQueue, StatusQueue}
      ensures old(connection) == Open && old(channel) != Open && !broker.channelOpens ==>
        (err.None? <==> broker.reachable)
      ensures old(connection) != Open ==> (err.None? <==> broker.reachable)
    {
      if connection != Open {
        err := Connect(broker);
      } else if channel != Open && !broker.channelOpens {
        err := Connect(broker);
      } else if channel != Open {
        channel := Open;
        declared := declared + {MessageQueue, StatusQueue};
        err := None;
      } else {
        err := None;
      }
    }

    /** `send_message`: makes sure of the connection, then publishes the
        message; any failure on the way is reported, not raised, and then
        nothing is published. */
    method SendMessage(c: Contact, messageId: string, queuedAt: string, broker: Broker) returns (r: SendResult)
      requires Consistent()
      modifies this
      ensures Consistent()
      ensures r.phoneNumber == c.phoneNumber && r.contactName == c.name
      ensures r.Sent? ==> r.messageId == messageId && published == old(published) + [ServicePayload(messageId, c, queuedAt)]
      ensures r.NotSent? ==> published == old(published)
      ensures r.Sent? <==> (broker.publishError.None?
        && ((old(connection) == Open && (old(channel) == Open || broker.channelOpens)) || broker.reachable))
    {
      var err := EnsureConnection(broker);
      if err.Some? {
        return NotSent(err.value, c.phoneNumber, c.name);
      }
      if broker.publishError.Some? {
        return NotSent(broker.publishError.value, c.phoneNumber, c.name);
      }
      published := published + [ServicePayload(messageId, c, queuedAt)];
      r := Sent(messageId, c.phoneNumber, c.name);
    }

    /** `send_bulk_messages`: one send per contact, counting successes and
        failures; the lists hold the successes and the failures in input
        order, and exactly the successful messages are published. */
    method SendBulkMessages(contacts: seq<Contact>, ids: seq<string>, times: seq<string>, brokers: seq<Broker>)
      returns (summary: BulkSummary, ghost results: seq<SendResult>)
      requires |ids| == |times| == |brokers| == |contacts|
      requires Consistent()
      modifies this
      ensures Consistent()
      ensures |results| == |contacts|
      ensures summary.total == |contacts| && summary.success + summary.failed == summary.total
      ensures summary.messageIds == QueuedOf(contacts, results) && summary.success == |summary.messageIds|
      ensures summary.errors == FailuresOf(contacts, results) && summary.failed == |summary.errors|
      ensures published == old(published) + PayloadsOf(contacts, results, times)
      ensures SentWithIds(results, ids)
    {
      var success, failed := 0, 0;
      var messageIds: seq<Queued> := [];
      var errors: seq<Failure> := [];
      results := [];
      var i := 0;
      while i < |contacts|
        invariant 0 <= i <= |contacts| && |results| == i
        invariant Consistent()
        invariant messageIds == QueuedOf(contacts[..i], results) && success == |messageIds|
        invariant errors == FailuresOf(contacts[..i], results) && failed == |errors|
        invariant published == old(published) + PayloadsOf(contacts[..i], results, times[..i])
        invariant SentWithIds(results, ids)
      {
        var sent;
        messageIds, errors, results, sent := SendAndRecord(contacts, ids, times, brokers, i, messageIds, errors, results);
        AppendAssoc(old(published), PayloadsOf(contacts[..i], results[..i], times[..i]), Delta(contacts, times, results, i));
        if sent {
          success := success + 1;
        } else {
          failed := failed + 1;
        }
        i := i + 1;
      }
      assert contacts[..i] == contacts && times[..i] == times;
      QueuedPlusFailures(contacts, results);
      summary := BulkSummary(success, failed, |contacts|, messageIds, errors);
    }

    /** One turn of the bulk loop: the send, and the entry it adds to one
        of the two lists. */
    method SendAndRecord(contacts: seq<Contact>, ids: seq<string>, times: seq<string>, brokers: seq<Broker>, i: nat,
                         messageIds: seq<Queued>, errors: seq<Failure>, ghost results: seq<SendResult>)
      returns (messageIds': seq<Queued>, errors': seq<Failure>, ghost results': seq<SendResult>, sent: bool)
      requires i < |contacts| && |ids| == |times| == |brokers| == |contacts| && |results| == i
      requires Consistent()
      requires messageIds == QueuedOf(contacts[..i], results) && errors == FailuresOf(contacts[..i], results)
      requires SentWithIds(results, ids)
      modifies this
      ensures Consistent()
      ensures |results'| == i + 1 && results'[..i] == results
      ensures SentWithIds(results', ids)
      ensures sent <==> results'[i].Sent?
      ensures messageIds' == QueuedOf(contacts[..i + 1], results') && |messageIds'| == |messageIds| + (if sent then 1 else 0)
      ensures errors' == FailuresOf(contacts[..i + 1], results') && |errors'| == |errors| + (if sent then 0 else 1)
      ensures PayloadsOf(contacts[..i + 1], results', times[..i + 1]) == PayloadsOf(contacts[..i], results, times[..i]) + Delta(contacts, times, results', i)
      ensures published == old(published) + Delta(contacts, times, results', i)
    {
      var r := SendMessage(contacts[i], ids[i], times[i], brokers[i]);
      BulkStep(contacts, results, times, i, r);
      results' := results + [r];
      assert results'[..i] == results;
      sent := r.Sent?;
      if sent {
        messageIds' := messageIds + [Queued(r.messageId, contacts[i].phoneNumber, contacts[i].name)];
        errors' := errors;
      } else {
        messageIds' := messageIds;
        errors' := errors + [Failure(contacts[i].phoneNumber, Some(r.error))];
      }
    }
  }

  /** How the status consumer settles one delivery. */
  datatype Settle = Ack | Nack(requeue: bool)

  /** The status consumer's `on_message`: the body is decoded and handed to
      the callback, and the delivery is acknowledged only after the callback
      returns; a body that does not decode or a callback that raises gets a
      negative acknowledgement without requeueing. Returns the settlement
      and whether the callback ran. */
  function OnStatusMessage<S>(body: string, decode: string -> Option<S>, callbackReturns: S -> bool): (r: (Settle, bool))
    ensures r.0 == Ack <==> decode(body).Some? && callbackReturns(decode(body).value)
    ensures r.0.Nack? ==> !r.0.requeue
    ensures r.1 <==> decode(body).Some?
  {
    match decode(body)
    case None => (Nack(false), false)
    case Some(data) => if callbackReturns(data) then (Ack, true) else (Nack(false), true)
  }
}
