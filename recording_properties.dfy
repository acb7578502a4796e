/** What the recording controller guarantees, stated over `Recording.Handle` and proved for all
    configurations, slots and vendor replies. */
module RecordingProperties {
  import opened JsValues
  import opened Paths
  import opened Recording

  /** A missing credential stops the request before any vendor call, and the slot is untouched. */
  lemma GateRefusesWithoutCalls(c: Config, s: RecordingState, request: Request, nowMs: int,
                                acquire: VendorReply, start: VendorReply, stop: VendorReply)
    requires exists i :: 0 <= i < |RequiredCreds(c)| && !Truthy(RequiredCreds(c)[i])
    ensures Handle(c, s, request, nowMs, acquire, start, stop)
         == Outcome(s, Response(500, Failure(NotConfiguredMessage)), [])
  {
  }

  /** `start` while a recording is in progress answers success and changes and calls nothing. */
  lemma StartWhileActiveIsNoOp(c: Config, s: RecordingState, nowMs: int,
                               acquire: VendorReply, start: VendorReply, stop: VendorReply)
    requires Configured(c) && Active(s)
    ensures Handle(c, s, Parsed(Some("start")), nowMs, acquire, start, stop)
         == Outcome(s, Response(200, Success(AlreadyRecordingMessage, None)), [])
  {
  }

  /** A slot with only one identifier set, or none, does not block `start`: the handshake begins
      with an acquire call. */
  lemma StartWhileInactiveAcquires(c: Config, s: RecordingState, nowMs: int,
                                   acquire: VendorReply, start: VendorReply, stop: VendorReply)
    requires Configured(c) && !Active(s)
    ensures var o := Handle(c, s, Parsed(Some("start")), nowMs, acquire, start, stop);
            |o.calls| >= 1 && o.calls[0] == AcquireCall(AcquireUrl(c), ChannelName, RecorderUid)
  {
  }

  /** A handshake whose two replies are ok stores the acquire reply's resource id and the start
      reply's session id, and the start call carries the acquired resource id and the expiries. */
  lemma StartSucceeds(c: Config, s: RecordingState, nowMs: int, acquireJson: string, resourceId: Option<string>,
                      startJson: string, sid: Option<string>, stop: VendorReply)
    requires Configured(c) && !Active(s)
    ensures Handle(c, s, Parsed(Some("start")), nowMs, Answered(true, acquireJson, resourceId),
                   Answered(true, startJson, sid), stop)
         == Outcome(RecordingState(resourceId, sid), Response(200, Success(StartedMessage, Some(startJson))),
                    [AcquireCall(AcquireUrl(c), ChannelName, RecorderUid),
                     StartCall(StartUrl(c, resourceId), ChannelName, RecorderUid,
                               TokenExpiry(nowMs), TokenExpiry(nowMs), Storage(c))])
  {
  }

  /** Once the gate has passed, the start call's storage config names vendor 1 and carries the
      configured region, bucket and keys themselves. */
  lemma StartStorageCarriesConfig(c: Config)
    requires Configured(c)
    ensures var st := Storage(c);
            && st.vendor == StorageVendor
            && c.bucketRegion == Some(st.region) && c.bucketName == Some(st.bucket)
            && c.accessKeyId == Some(st.accessKey) && c.secretAccessKey == Some(st.secretKey)
            && st.region != "" && st.bucket != "" && st.accessKey != "" && st.secretKey != ""
  {
    ConfiguredIff(c);
  }

  /** A handshake that fails at either step ends with the slot cleared and a 500; the start call
      is made only after an ok acquire reply. */
  lemma StartFailureClears(c: Config, s: RecordingState, nowMs: int,
                           acquire: VendorReply, start: VendorReply, stop: VendorReply)
    requires Configured(c) && !Active(s)
    requires !(acquire.Answered? && acquire.ok && start.Answered? && start.ok)
    ensures var o := Handle(c, s, Parsed(Some("start")), nowMs, acquire, start, stop);
            && o.state == Cleared
            && o.response.status == 500 && o.response.body.Failure?
            && |o.calls| == (if acquire.Answered? && acquire.ok then 2 else 1)
  {
  }

  /** `stop` with no recording in progress is refused with 400, without a call or a change. */
  lemma StopWithoutRecordingRefused(c: Config, s: RecordingState, nowMs: int,
                                    acquire: VendorReply, start: VendorReply, stop: VendorReply)
    requires Configured(c) && !Active(s)
    ensures Handle(c, s, Parsed(Some("stop")), nowMs, acquire, start, stop)
         == Outcome(s, Response(400, Failure(NothingToStopMessage)), [])
  {
  }

  /** `stop` with a recording in progress makes exactly one call, addressed to the stored
      resource and session, and clears the slot whether or not the vendor accepts it; it
      reports success exactly when the vendor's reply is ok. */
  lemma StopAlwaysClears(c: Config, s: RecordingState, nowMs: int,
                         acquire: VendorReply, start: VendorReply, stop: VendorReply)
    requires Configured(c) && Active(s)
    ensures var o := Handle(c, s, Parsed(Some("stop")), nowMs, acquire, start, stop);
            && o.state == Cleared
            && o.calls == [StopCall(SessionUrl(c.appId.value, s.resourceId.value, s.sid.value, "stop"),
                                    ChannelName, RecorderUid)]
            && (o.response.status == 200 <==> stop.Answered? && stop.ok)
            && (o.response.status != 200 ==> o.response.status == 500)
  {
  }

  /** Stop URLs of two recordings (slash-free identifiers) coincide exactly when the recordings
      do: the URL built from the slot names that slot's job and no other. */
  lemma StopUrlDeterminesRecording(c: Config, s1: RecordingState, s2: RecordingState)
    requires Active(s1) && Active(s2)
    requires '/' !in s1.resourceId.value && '/' !in s1.sid.value
    requires '/' !in s2.resourceId.value && '/' !in s2.sid.value
    ensures StopUrl(c, s1) == StopUrl(c, s2) <==> s1 == s2
  {
    SessionUrlInjective(Interpolate(c.appId), "stop", s1.resourceId.value, s1.sid.value,
                        s2.resourceId.value, s2.sid.value);
  }

  /** An action other than "start" and "stop" is refused with 400 and the slot is kept. */
  lemma InvalidActionKeepsState(c: Config, s: RecordingState, action: Option<string>, nowMs: int,
                                acquire: VendorReply, start: VendorReply, stop: VendorReply)
    requires Configured(c) && action != Some("start") && action != Some("stop")
    ensures Handle(c, s, Parsed(action), nowMs, acquire, start, stop)
         == Outcome(s, Response(400, Failure(InvalidActionMessage)), [])
  {
  }

  /** A body that does not parse falls into the catch block: 500 and the slot cleared. */
  lemma UnparsableBodyClears(c: Config, s: RecordingState, error: string, nowMs: int,
                             acquire: VendorReply, start: VendorReply, stop: VendorReply)
    requires Configured(c)
    ensures Handle(c, s, Unparsable(error), nowMs, acquire, start, stop)
         == Outcome(Cleared, Response(500, Failure(error)), [])
  {
  }

  /** The slot is either empty or holds a recording in progress. */
  predicate Consistent(s: RecordingState) {
    s == Cleared || Active(s)
  }

  /** An ok vendor reply carries a usable identifier. */
  predicate IdPresent(r: VendorReply) {
    r.Answered? && r.ok ==> Truthy(r.id)
  }

  /** No request leaves the slot half-filled, provided the vendor's ok replies carry their ids. */
  lemma HandleKeepsConsistent(c: Config, s: RecordingState, request: Request, nowMs: int,
                              acquire: VendorReply, start: VendorReply, stop: VendorReply)
    requires Consistent(s) && IdPresent(acquire) && IdPresent(start)
    ensures Consistent(Handle(c, s, request, nowMs, acquire, start, stop).state)
  {
  }

  /** Without that proviso the slot can be half-filled: the handler stores whatever `sid` an ok
      start reply carries, so a reply without one leaves a resource id alone in the slot. */
  lemma OkStartWithoutSidHalfFills(c: Config, nowMs: int, stop: VendorReply)
    requires Configured(c)
    ensures var o := Handle(c, Cleared, Parsed(Some("start")), nowMs, Answered(true, "{}", Some("H1")),
                            Answered(true, "{}", None), stop);
            o.state == RecordingState(Some("H1"), None) && o.response.status == 200 && !Consistent(o.state)
  {
  }

  /** One request of a sequence, with the replies the vendor would give to it. */
  datatype Exchange = Exchange(request: Request, nowMs: int, acquire: VendorReply, start: VendorReply,
                               stop: VendorReply)

  /** The slot after a sequence of requests, the replies to them and all vendor calls, in order. */
  datatype Run = Run(state: RecordingState, responses: seq<Response>, calls: seq<VendorCall>)

  /** Requests handled one after another, as the route handles them when they do not overlap. */
  function Replay(c: Config, s: RecordingState, xs: seq<Exchange>): (r: Run)
    ensures |r.responses| == |xs|
    decreases |xs|
  {
    if xs == [] then Run(s, [], [])
    else
      var o := Handle(c, s, xs[0].request, xs[0].nowMs, xs[0].acquire, xs[0].start, xs[0].stop);
      var rest := Replay(c, o.state, xs[1..]);
      Run(rest.state, [o.response] + rest.responses, o.calls + rest.calls)
  }

  function AcquireCount(calls: seq<VendorCall>): nat {
    if calls == [] then 0 else (if calls[0].AcquireCall? then 1 else 0) + AcquireCount(calls[1..])
  }

  lemma {:induction false} AcquireCountAppend(a: seq<VendorCall>, b: seq<VendorCall>)
    ensures AcquireCount(a + b) == AcquireCount(a) + AcquireCount(b)
    decreases |a|
  {
    if a == [] {
      assert a + b == b;
    } else {
      assert (a + b)[1..] == a[1..] + b;
      AcquireCountAppend(a[1..], b);
    }
  }

  /** Every request is a `start` whose handshake the vendor accepts with usable ids. */
  predicate AcceptedStarts(xs: seq<Exchange>) {
    forall i :: 0 <= i < |xs| ==>
      xs[i].request == Parsed(Some("start")) && xs[i].acquire.Answered? && xs[i].acquire.ok
      && Truthy(xs[i].acquire.id) && xs[i].start.Answered? && xs[i].start.ok && Truthy(xs[i].start.id)
  }

  /** Repeated `start` requests issue one acquire (and one start) in all: only the first request
      on an idle slot runs the handshake, every later one finds the recording in progress and
      answers "already in progress". */
  lemma {:induction false} RepeatedStartsAcquireOnce(c: Config, s: RecordingState, xs: seq<Exchange>)
    requires Configured(c) && AcceptedStarts(xs)
    ensures var r := Replay(c, s, xs);
            && AcquireCount(r.calls) == (if xs == [] || Active(s) then 0 else 1)
            && (xs != [] ==> Active(r.state))
            && (Active(s) ==> r.state == s)
            && forall i :: 0 < i < |xs| || (0 <= i < |xs| && Active(s)) ==>
                 r.responses[i] == Response(200, Success(AlreadyRecordingMessage, None))
    decreases |xs|
  {
    if xs != [] {
      var x := xs[0];
      var o := Handle(c, s, x.request, x.nowMs, x.acquire, x.start, x.stop);
      var rest := Replay(c, o.state, xs[1..]);
      assert AcceptedStarts(xs[1..]) by {
        forall i | 0 <= i < |xs[1..]| ensures xs[1..][i] == xs[i + 1] { }
      }
      RepeatedStartsAcquireOnce(c, o.state, xs[1..]);
      AcquireCountAppend(o.calls, rest.calls);
      assert Active(o.state);
      forall i | 0 < i < |xs|
        ensures Replay(c, s, xs).responses[i] == Response(200, Success(AlreadyRecordingMessage, None))
      {
        assert Replay(c, s, xs).responses[i] == rest.responses[i - 1];
      }
    }
  }

  /** The lifecycle of one recording: start on an idle slot stores {H1, S1}; a second start is a
      no-op; stop addresses H1/S1 and clears the slot; a second stop is refused. */
  lemma StartStopLifecycle(c: Config, nowMs: int)
    requires Configured(c)
    ensures var none := Unreadable("unused");
            var startX := Exchange(Parsed(Some("start")), nowMs, Answered(true, "{}", Some("H1")),
                                   Answered(true, "{}", Some("S1")), none);
            var stopX := Exchange(Parsed(Some("stop")), nowMs, none, none, Answered(true, "{}", None));
            var r := Replay(c, Cleared, [startX, startX, stopX, stopX]);
            && r.state == Cleared
            && r.responses == [Response(200, Success(StartedMessage, Some("{}"))),
                               Response(200, Success(AlreadyRecordingMessage, None)),
                               Response(200, Success(StoppedMessage, Some("{}"))),
                               Response(400, Failure(NothingToStopMessage))]
            && |r.calls| == 3 && r.calls[2].url == SessionUrl(c.appId.value, "H1", "S1", "stop")
  {
    var none := Unreadable("unused");
    var startX := Exchange(Parsed(Some("start")), nowMs, Answered(true, "{}", Some("H1")),
                           Answered(true, "{}", Some("S1")), none);
    var stopX := Exchange(Parsed(Some("stop")), nowMs, none, none, Answered(true, "{}", None));
    var active := RecordingState(Some("H1"), Some("S1"));
    var refused := Response(400, Failure(NothingToStopMessage));
    var stopCall := StopCall(StopUrl(c, active), ChannelName, RecorderUid);
    assert [stopX][1..] == [];
    assert Replay(c, Cleared, [stopX]) == Run(Cleared, [refused], []);
    assert [stopX, stopX][1..] == [stopX];
    assert Replay(c, active, [stopX, stopX])
        == Run(Cleared, [Response(200, Success(StoppedMessage, Some("{}"))), refused], [stopCall]);
    assert [startX, stopX, stopX][1..] == [stopX, stopX];
    assert Replay(c, active, [startX, stopX, stopX]).calls == [stopCall];
    assert [startX, startX, stopX, stopX][1..] == [startX, stopX, stopX];
    assert |Replay(c, Cleared, [startX, startX, stopX, stopX]).calls| == 3;
  }
}
