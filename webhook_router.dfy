/** The webhook endpoint `POST /api/agora/webhook`: it dispatches on the numeric event type,
    remembers the session id announced by "recorder started", launches the relay on "file backed
    up" without waiting for it, and acknowledges every delivery it can read. */
module WebhookRouter {
  import opened JsValues
  import opened FileLocator

  const RecorderStarted: int := 40
  const FilesUploaded: int := 31
  const FilesBackedUp: int := 32
  const UploadingProgress: int := 33
  const PostponedTranscodeFinalResult: int := 1001

  const AckMessage: string := "Webhook received and is being processed."
  const FailureMessage: string := "Failed to process webhook"

  /** A delivery's body: not JSON (or JSON `null`), or an object with an `eventType` (None when
      absent or not a number) and a `payload` (None when absent or null; a number, string or
      boolean payload has every field None). */
  datatype WebhookBody = Unparsable | Parsed(eventType: Option<int>, payload: Option<Payload>)

  /** Whether the relay was started, and with which `body.payload`. */
  datatype RelayLaunch = NoRelay | RelayFor(payload: Option<Payload>)

  datatype Reply = Acknowledged(message: string) | Rejected(error: string)

  /** What one delivery does: the status and body sent back, the module-level `recordingSid`
      afterwards and the relay it started. */
  datatype Routed = Routed(status: int, reply: Reply, recordingSid: Option<string>, relay: RelayLaunch)

  /** The events whose log line reads `body.payload.sid` without optional chaining, so a delivery
      without a payload throws there. */
  predicate ReadsPayloadSid(eventType: Option<int>) {
    eventType == Some(RecorderStarted) || eventType == Some(FilesUploaded)
    || eventType == Some(PostponedTranscodeFinalResult)
  }

  /** The handler as a function of the `recordingSid` before the delivery. */
  function Route(body: WebhookBody, recordingSid: Option<string>): Routed {
    var failed := Routed(500, Rejected(FailureMessage), recordingSid, NoRelay);
    match body
    case Unparsable => failed
    case Parsed(eventType, payload) =>
      if ReadsPayloadSid(eventType) && payload.None? then failed
      else if eventType == Some(RecorderStarted) then
        Routed(200, Acknowledged(AckMessage), payload.value.sid, NoRelay)
      else if eventType == Some(FilesBackedUp) then
        Routed(200, Acknowledged(AckMessage), recordingSid, RelayFor(payload))
      else Routed(200, Acknowledged(AckMessage), recordingSid, NoRelay)
  }

  /** The route module and its one mutable variable. */
  class WebhookEndpoint {
    var recordingSid: Option<string>

    constructor ()
      ensures recordingSid == None
    {
      recordingSid := None;
    }

    /** One delivery. The relay it launches runs detached: its outcome reaches neither the
        status nor `recordingSid`. */
    method Post(body: WebhookBody) returns (status: int, reply: Reply, relay: RelayLaunch)
      modifies this
      ensures var r := Route(body, old(recordingSid));
              status == r.status && reply == r.reply && relay == r.relay && recordingSid == r.recordingSid
    {
      relay := NoRelay;
      if body.Unparsable? {
        status, reply := 500, Rejected(FailureMessage);
        return;
      }
      var eventType := body.eventType;
      if eventType == Some(RecorderStarted) {
        if body.payload.None? {
          status, reply := 500, Rejected(FailureMessage);
          return;
        }
        recordingSid := body.payload.value.sid;
      } else if eventType == Some(FilesBackedUp) {
        relay := RelayFor(body.payload);
      } else if eventType == Some(FilesUploaded) || eventType == Some(PostponedTranscodeFinalResult) {
        if body.payload.None? {
          status, reply := 500, Rejected(FailureMessage);
          return;
        }
      }
      status, reply := 200, Acknowledged(AckMessage);
    }
  }
}
