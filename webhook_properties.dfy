/** What the webhook endpoint guarantees, over single deliveries and over any sequence of them. */
module WebhookProperties {
  import opened JsValues
  import opened FileLocator
  import opened WebhookRouter

  /** Only a readable "recorder started" delivery with a payload changes `recordingSid`, and it
      sets it to the payload's `sid` (absent included). */
  lemma OnlyRecorderStartedSetsSid(body: WebhookBody, sid: Option<string>)
    ensures Route(body, sid).recordingSid != sid ==>
              body.Parsed? && body.eventType == Some(RecorderStarted) && body.payload.Some?
    ensures body.Parsed? && body.eventType == Some(RecorderStarted) && body.payload.Some? ==>
              Route(body, sid).recordingSid == body.payload.value.sid
  {
  }

  /** Every readable delivery is acknowledged with 200, for known and unknown event types alike,
      except the events whose log line dereferences a missing payload; those, and unreadable
      bodies, get 500. */
  lemma AcknowledgedUnlessUnreadable(body: WebhookBody, sid: Option<string>)
    ensures var r := Route(body, sid);
            && (r.status == 200 || r.status == 500)
            && (r.status == 500 <==> body.Unparsable? || (ReadsPayloadSid(body.eventType) && body.payload.None?))
            && (r.status == 200 <==> r.reply == Acknowledged(AckMessage))
            && (r.status == 500 ==> r.recordingSid == sid && r.relay == NoRelay)
  {
  }

  /** The relay is launched by "file backed up" deliveries only, always with the delivery's own
      payload, and the acknowledgement does not wait for it. */
  lemma RelayOnlyOnBackup(body: WebhookBody, sid: Option<string>)
    ensures Route(body, sid).relay.RelayFor? <==> body.Parsed? && body.eventType == Some(FilesBackedUp)
    ensures Route(body, sid).relay.RelayFor? ==>
              Route(body, sid) == Routed(200, Acknowledged(AckMessage), sid, RelayFor(body.payload))
  {
  }

  /** `recordingSid` after a sequence of deliveries handled one after another. */
  function Deliver(bodies: seq<WebhookBody>, sid: Option<string>): Option<string>
    decreases |bodies|
  {
    if bodies == [] then sid
    else Route(bodies[|bodies| - 1], Deliver(bodies[..|bodies| - 1], sid)).recordingSid
  }

  /** A delivery that announces a recording. */
  predicate Announces(body: WebhookBody) {
    body.Parsed? && body.eventType == Some(RecorderStarted) && body.payload.Some?
  }

  /** Deliveries without an announcement leave `recordingSid` as it was. */
  lemma {:induction false} DeliverWithoutAnnouncementKeepsSid(bodies: seq<WebhookBody>, sid: Option<string>)
    requires forall i :: 0 <= i < |bodies| ==> !Announces(bodies[i])
    ensures Deliver(bodies, sid) == sid
    decreases |bodies|
  {
    if bodies != [] {
      var prefix := bodies[..|bodies| - 1];
      assert forall i :: 0 <= i < |prefix| ==> prefix[i] == bodies[i];
      DeliverWithoutAnnouncementKeepsSid(prefix, sid);
      OnlyRecorderStartedSetsSid(bodies[|bodies| - 1], sid);
    }
  }

  /** After any sequence of deliveries, `recordingSid` is the `sid` of the latest announcement. */
  lemma {:induction false} DeliverKeepsLatestAnnouncement(bodies: seq<WebhookBody>, sid: Option<string>, i: nat)
    requires i < |bodies| && Announces(bodies[i])
    requires forall j :: i < j < |bodies| ==> !Announces(bodies[j])
    ensures Deliver(bodies, sid) == bodies[i].payload.value.sid
    decreases |bodies|
  {
    var prefix := bodies[..|bodies| - 1];
    var before := Deliver(prefix, sid);
    OnlyRecorderStartedSetsSid(bodies[|bodies| - 1], before);
    if i < |bodies| - 1 {
      assert forall j :: 0 <= j < |prefix| ==> prefix[j] == bodies[j];
      DeliverKeepsLatestAnnouncement(prefix, sid, i);
    }
  }
}
