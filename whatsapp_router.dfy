/** The WhatsApp endpoints of the API that reach the gateway: fetching the
    QR code of an instance and sending one message through an instance.
    The caller is already authorised (its organisation id is given); the
    gateway's HTTP answer, the contact lookup and the broker are oracles;
    the message id and the time are parameters. */
module WhatsAppRouter {
  import opened Common
  import opened Strings
  import opened WhatsAppInstanceManager
  import opened WhatsAppService

  // ---------------------------------------------------------------------
  // QR code

  /** What the gateway's `/instances/{id}/qr` gave when it answered 200. */
  datatype GatewayQr = GatewayQr(qrCode: Option<string>, qrImage: Option<string>)

  datatype QrResponse = QrResponse(
    qrCode: Option<string>, qrImage: Option<string>, isAuthenticated: bool,
    expiresAt: Option<int>, expired: bool)

  const InstanceNotFound := HttpError(404, "WhatsApp instance not found")
  const QrNotAvailable := HttpError(404, "QR code not available yet. Please wait for instance to initialize.")

  /** `get_instance_qr_code`: an instance of another organisation or none at
      all is a 404; an authenticated one needs no QR; otherwise the
      gateway's QR if it answered, else the stored one. `gateway` is None
      when the request failed or did not answer 200. */
  function GetInstanceQrCode(manager: InstanceManager, instanceId: int, organizationId: int,
                             gateway: Option<GatewayQr>, now: int): (r: Result<QrResponse, HttpError>)
    reads manager
  {
    match manager.GetInstance(instanceId, organizationId)
    case None => Err(InstanceNotFound)
    case Some(instance) =>
      if instance.isAuthenticated then Ok(QrResponse(None, None, true, None, false))
      else if gateway.Some? then Ok(QrResponse(gateway.value.qrCode, gateway.value.qrImage, false, None, false))
      else
        match manager.GetInstanceQr(instanceId, organizationId, now)
        case None => Err(QrNotAvailable)
        case Some(info) => Ok(QrResponse(info.qrCode, None, info.isAuthenticated, info.expiresAt, info.expired))
  }

  /** A foreign or unknown instance is a 404, and an authenticated one gets
      no QR code. */
  lemma QrAnswers(manager: InstanceManager, instanceId: int, organizationId: int, gateway: Option<GatewayQr>, now: int)
    ensures manager.GetInstance(instanceId, organizationId).None? ==>
      GetInstanceQrCode(manager, instanceId, organizationId, gateway, now) == Err(InstanceNotFound)
    ensures var r := GetInstanceQrCode(manager, instanceId, organizationId, gateway, now);
      r.Ok? && r.value.isAuthenticated ==> r.value.qrCode.None? && !r.value.expired
  {
  }

  /** The order of the answers: the gateway is consulted only for a known,
      unauthenticated instance, and the stored QR only when the gateway
      failed; for an instance that exists the stored QR is always there, so
      the second 404 cannot occur. */
  lemma QrFallbackOrder(manager: InstanceManager, instanceId: int, organizationId: int,
                        g1: Option<GatewayQr>, g2: Option<GatewayQr>, now: int)
    ensures var found := manager.GetInstance(instanceId, organizationId);
      (found.None? || found.value.isAuthenticated) ==>
        GetInstanceQrCode(manager, instanceId, organizationId, g1, now) == GetInstanceQrCode(manager, instanceId, organizationId, g2, now)
    ensures GetInstanceQrCode(manager, instanceId, organizationId, g1, now) != Err(QrNotAvailable)
    ensures var found := manager.GetInstance(instanceId, organizationId);
      (found.Some? && !found.value.isAuthenticated && g1.None?) ==>
        var info := manager.GetInstanceQr(instanceId, organizationId, now).value;
        GetInstanceQrCode(manager, instanceId, organizationId, g1, now)
          == Ok(QrResponse(info.qrCode, None, false, info.expiresAt, info.expired))
  {
  }

  // ---------------------------------------------------------------------
  // Sending

  datatype SendRequest = SendRequest(instanceId: int, phoneNumber: string, message: string, contactId: Option<int>)

  /** The field bounds of the request body: a phone number of at least 10
      characters and a message of 1 to 4096. */
  predicate WellFormedRequest(req: SendRequest) {
    |req.phoneNumber| >= 10 && 1 <= |req.message| <= 4096
  }

  datatype MessageResponse = MessageResponse(success: bool, message: string, messageId: Option<string>,
                                             instanceId: int, phoneNumber: string)

  /** What a send leaves behind: the body published to the message queue,
      whether the outbound message row was written, and whether a CRM
      activity was logged for the contact. */
  datatype Effects = Effects(published: Option<Payload>, messageLogged: bool, activityLogged: bool)

  const NoEffects := Effects(None, false, false)
  const SendFailed := HttpError(500, "Failed to send WhatsApp message")

  /** Python truthiness of `contact_id`. */
  predicate HasContact(req: SendRequest) { req.contactId.Some? && req.contactId.value != 0 }

  /** The 429 refusal, naming the instance's daily limit. */
  function LimitReached(limit: int): HttpError {
    HttpError(429, "Daily message limit reached (" + IntText(limit) + "). Try again tomorrow.")
  }

  /** The guards of `send_whatsapp_message`, first failure wins: unknown
      instance, not authenticated, inactive, daily limit reached. */
  function SendGuards(manager: InstanceManager, req: SendRequest, organizationId: int): (r: Option<HttpError>)
    reads manager
    ensures r.None? <==> (manager.GetInstance(req.instanceId, organizationId).Some?
      && manager.rows[req.instanceId].isAuthenticated && manager.rows[req.instanceId].isActive
      && manager.rows[req.instanceId].messagesSentToday < manager.rows[req.instanceId].dailyMessageLimit)
  {
    match manager.GetInstance(req.instanceId, organizationId)
    case None => Some(InstanceNotFound)
    case Some(instance) =>
      if !instance.isAuthenticated then Some(HttpError(400, "WhatsApp instance is not authenticated. Please scan QR code first."))
      else if !instance.isActive then Some(HttpError(400, "WhatsApp instance is not active"))
      else
        var check := manager.CheckMessageLimit(req.instanceId, organizationId);
        if !check.canSend then Some(LimitReached(check.limit))
        else None
  }

  /** Each refusal carries the status of the first guard that fails. */
  lemma SendGuardStatuses(manager: InstanceManager, req: SendRequest, organizationId: int)
    ensures var found := manager.GetInstance(req.instanceId, organizationId);
      var g := SendGuards(manager, req, organizationId);
      && (found.None? ==> g.Some? && g.value.status == 404)
      && (found.Some? && !found.value.isAuthenticated ==> g.Some? && g.value.status == 400)
      && (found.Some? && found.value.isAuthenticated && !found.value.isActive ==> g.Some? && g.value.status == 400)
      && ((found.Some? && found.value.isAuthenticated && found.value.isActive
           && found.value.messagesSentToday >= found.value.dailyMessageLimit) ==> g == Some(LimitReached(found.value.dailyMessageLimit)))
  {
  }

  /** The body the endpoint means to publish: the router's payload names the
      sending instance, and the contact's name falls back to the phone
      number. */
  function RouterPayload(req: SendRequest, contactName: Option<string>, messageId: string, queuedAt: string): (p: Payload)
    ensures p.instanceId == Some(req.instanceId) && p.phoneNumber == req.phoneNumber && p.message == req.message
    ensures p.contactName == ContactOrPhone(contactName, req.phoneNumber)
  {
    Payload(messageId, Some(req.instanceId), req.phoneNumber, req.message, ContactOrPhone(contactName, req.phoneNumber), queuedAt)
  }

  /** The contact name looked up only when a contact id is given. */
  function ContactName(req: SendRequest, lookup: int -> Option<string>): Option<string> {
    if HasContact(req) then lookup(req.contactId.value) else None
  }

  /** `send_whatsapp_message` as written: the payload's `queued_at` calls
      `datetime.now()`, but the module never imports `datetime`, so every
      request that passes the guards raises `NameError` there, which the
      generic handler turns into a 500 before anything is published or
      logged. */
  function SendMessageAsWritten(manager: InstanceManager, req: SendRequest, organizationId: int): (r: (Result<MessageResponse, HttpError>, Effects))
    reads manager
    ensures r.1 == NoEffects
  {
    if !WellFormedRequest(req) then (Err(HttpError(422, "Request validation failed")), NoEffects)
    else
      match SendGuards(manager, req, organizationId)
      case Some(e) => (Err(e), NoEffects)
      case None => (Err(SendFailed), NoEffects)
  }

  /** No request ever succeeds as written: each is refused by validation or
      a guard, or ends in the 500. */
  lemma AsWrittenNeverSends(manager: InstanceManager, req: SendRequest, organizationId: int)
    ensures SendMessageAsWritten(manager, req, organizationId).0.Err?
    ensures WellFormedRequest(req) && SendGuards(manager, req, organizationId).None? ==>
      SendMessageAsWritten(manager, req, organizationId).0 == Err(SendFailed)
  {
  }

  /** `send_whatsapp_message` with the `datetime` import in place:
      validation, the guards, then the payload is published and the
      message row written; the CRM activity is logged only with a contact.
      `brokerUp` says whether the service reached RabbitMQ. */
  function SendMessage(manager: InstanceManager, req: SendRequest, organizationId: int,
                       lookup: int -> Option<string>, messageId: string, queuedAt: string,
                       brokerUp: bool): (r: (Result<MessageResponse, HttpError>, Effects))
    reads manager
    ensures r.0.Err? ==> r.1 == NoEffects
    ensures r.0.Ok? ==> (r.0.value.success && r.0.value.messageId == Some(messageId)
      && r.0.value.instanceId == req.instanceId && r.0.value.phoneNumber == req.phoneNumber)
  {
    if !WellFormedRequest(req) then (Err(HttpError(422, "Request validation failed")), NoEffects)
    else
      match SendGuards(manager, req, organizationId)
      case Some(e) => (Err(e), NoEffects)
      case None =>
        if !brokerUp then (Err(SendFailed), NoEffects)
        else
          var payload := RouterPayload(req, ContactName(req, lookup), messageId, queuedAt);
          (Ok(MessageResponse(true, "Message queued successfully", Some(messageId), req.instanceId, req.phoneNumber)),
           Effects(Some(payload), true, HasContact(req)))
  }

  /** The corrected endpoint sends exactly when the request is well formed,
      every guard passes and the broker is up; then the published body names
      the instance, and an activity is logged exactly when a contact is
      given. It refuses in the same cases, with the same error, as the code
      as written. */
  lemma CorrectedSends(manager: InstanceManager, req: SendRequest, organizationId: int,
                       lookup: int -> Option<string>, messageId: string, queuedAt: string, brokerUp: bool)
    ensures var r := SendMessage(manager, req, organizationId, lookup, messageId, queuedAt, brokerUp);
      && (r.0.Ok? <==> WellFormedRequest(req) && SendGuards(manager, req, organizationId).None? && brokerUp)
      && (r.0.Ok? ==> r.1.published == Some(RouterPayload(req, ContactName(req, lookup), messageId, queuedAt))
                      && r.1.messageLogged && (r.1.activityLogged <==> HasContact(req)))
    ensures var r := SendMessage(manager, req, organizationId, lookup, messageId, queuedAt, brokerUp);
      var w := SendMessageAsWritten(manager, req, organizationId);
      !(WellFormedRequest(req) && SendGuards(manager, req, organizationId).None?) ==> r == w
  {
  }
}
