/** The cloud-recording controller behind `POST /api/agora/recording`: a credential gate, then a
    start/stop state machine over one module-level slot that remembers the vendor's resource id
    and session id of the recording in progress. The vendor's HTTP replies are inputs; the model
    says which calls are made, what comes back to the client and how the slot changes. */
module Recording {
  import opened JsValues
  import opened Paths

  const ChannelName: string := "the-main-event-stream"
  const RecorderUid: string := "999999"
  /** Lifetime, in seconds, of the subscriber token and of its privileges. */
  const TokenLifetime: int := 3600
  /** The object-store vendor code the start request names (1 is Amazon S3). */
  const StorageVendor: int := 1

  const NotConfiguredMessage: string := "Recording service is not configured on the server."
  const AlreadyRecordingMessage: string := "Recording is already in progress."
  const StartedMessage: string := "Recording started."
  const StoppedMessage: string := "Recording stopped."
  const NothingToStopMessage: string := "No active recording found to stop."
  const InvalidActionMessage: string := "Invalid action specified."

  /** The eight environment values the handler needs, read once when the module loads. */
  datatype Config = Config(
    appId: Option<string>, appCertificate: Option<string>,
    customerId: Option<string>, customerSecret: Option<string>,
    bucketName: Option<string>, bucketRegion: Option<string>,
    accessKeyId: Option<string>, secretAccessKey: Option<string>)

  function RequiredCreds(c: Config): seq<Option<string>> {
    [c.appId, c.appCertificate, c.customerId, c.customerSecret,
     c.bucketName, c.bucketRegion, c.accessKeyId, c.secretAccessKey]
  }

  /** `creds.some((cred) => !cred)`: some value is absent or empty. */
  function SomeMissing(creds: seq<Option<string>>): (missing: bool)
    ensures missing <==> exists i :: 0 <= i < |creds| && !Truthy(creds[i])
  {
    if creds == [] then false
    else
      assert forall i :: 0 < i < |creds| ==> creds[i] == creds[1..][i - 1];
      !Truthy(creds[0]) || SomeMissing(creds[1..])
  }

  /** The credential gate passes. */
  predicate Configured(c: Config) {
    !SomeMissing(RequiredCreds(c))
  }

  /** The gate passes exactly when each of the eight values is present and non-empty. */
  lemma ConfiguredIff(c: Config)
    ensures Configured(c) <==>
      Truthy(c.appId) && Truthy(c.appCertificate) && Truthy(c.customerId) && Truthy(c.customerSecret)
      && Truthy(c.bucketName) && Truthy(c.bucketRegion) && Truthy(c.accessKeyId) && Truthy(c.secretAccessKey)
  {
    var creds := RequiredCreds(c);
    assert creds[0] == c.appId && creds[1] == c.appCertificate && creds[2] == c.customerId;
    assert creds[3] == c.customerSecret && creds[4] == c.bucketName && creds[5] == c.bucketRegion;
    assert creds[6] == c.accessKeyId && creds[7] == c.secretAccessKey;
  }

  /** The module-level `recordingState`: the identifiers stored as the vendor returned them. */
  datatype RecordingState = RecordingState(resourceId: Option<string>, sid: Option<string>)

  const Cleared: RecordingState := RecordingState(None, None)

  /** `recordingState.resourceId && recordingState.sid`: a recording counts as in progress. */
  predicate Active(s: RecordingState) {
    Truthy(s.resourceId) && Truthy(s.sid)
  }

  /** The client's request body: either it fails to parse as JSON, or it carries an `action`. */
  datatype Request = Unparsable(error: string) | Parsed(action: Option<string>)

  /** A vendor reply: the call threw or its body was not JSON (`error` is the exception's
      message), or it answered with `response.ok`, the body's JSON text and the id field the
      caller reads (`resourceId` from acquire, `sid` from start). */
  datatype VendorReply = Unreadable(error: string) | Answered(ok: bool, json: string, id: Option<string>)

  datatype Body = Success(message: string, data: Option<string>) | Failure(error: string)

  datatype Response = Response(status: int, body: Body)

  /** Where the vendor is told to put the recording. The region is the configured text; its
      `parseInt` is not modelled. */
  datatype StorageConfig = StorageConfig(vendor: int, region: string, bucket: string, accessKey: string,
                                         secretKey: string)

  /** An outbound call to the vendor, with the URL and the fields of its JSON body. */
  datatype VendorCall =
    | AcquireCall(url: string, cname: string, uid: string)
    | StartCall(url: string, cname: string, uid: string, tokenExpiry: int, privilegeExpiry: int,
                storage: StorageConfig)
    | StopCall(url: string, cname: string, uid: string)

  /** What one request does: the slot afterwards, the reply, the vendor calls in order. */
  datatype Outcome = Outcome(state: RecordingState, response: Response, calls: seq<VendorCall>)

  /** `Math.floor(Date.now() / 1000) + 3600`: one hour past the current second. */
  function TokenExpiry(nowMs: int): (expiry: int)
    ensures (expiry - TokenLifetime) * 1000 <= nowMs < (expiry - TokenLifetime) * 1000 + 1000
  {
    nowMs / 1000 + TokenLifetime
  }

  function AcquireUrl(c: Config): string {
    CloudRecordingBase(Interpolate(c.appId)) + "/acquire"
  }

  function StartUrl(c: Config, resourceId: Option<string>): string {
    CloudRecordingBase(Interpolate(c.appId)) + "/resourceid/" + Interpolate(resourceId) + "/mode/mix/start"
  }

  function StopUrl(c: Config, s: RecordingState): string {
    SessionUrl(Interpolate(c.appId), Interpolate(s.resourceId), Interpolate(s.sid), "stop")
  }

  function Storage(c: Config): StorageConfig {
    StorageConfig(StorageVendor, Interpolate(c.bucketRegion), Interpolate(c.bucketName),
                  Interpolate(c.accessKeyId), Interpolate(c.secretAccessKey))
  }

  /** The catch block: whatever was thrown, the slot is reset and the message is returned. */
  function Thrown(message: string, calls: seq<VendorCall>): Outcome {
    Outcome(Cleared, Response(500, Failure(message)), calls)
  }

  /** The acquire-then-start handshake of a `start` request with no recording in progress. */
  function StartRecording(c: Config, nowMs: int, acquire: VendorReply, start: VendorReply): Outcome {
    var acquireCall := AcquireCall(AcquireUrl(c), ChannelName, RecorderUid);
    match acquire
    case Unreadable(e) => Thrown(e, [acquireCall])
    case Answered(acquireOk, acquireJson, resourceId) =>
      if !acquireOk then Thrown("Agora Acquire Error: " + acquireJson, [acquireCall])
      else
        var startCall := StartCall(StartUrl(c, resourceId), ChannelName, RecorderUid,
                                   TokenExpiry(nowMs), TokenExpiry(nowMs), Storage(c));
        match start
        case Unreadable(e) => Thrown(e, [acquireCall, startCall])
        case Answered(startOk, startJson, sid) =>
          if !startOk then Thrown("Agora Start Error: " + startJson, [acquireCall, startCall])
          else Outcome(RecordingState(resourceId, sid), Response(200, Success(StartedMessage, Some(startJson))),
                       [acquireCall, startCall])
  }

  /** The stop call of a `stop` request while a recording is in progress. */
  function StopRecording(c: Config, s: RecordingState, stop: VendorReply): Outcome {
    var stopCall := StopCall(StopUrl(c, s), ChannelName, RecorderUid);
    match stop
    case Unreadable(e) => Thrown(e, [stopCall])
    case Answered(ok, json, _) =>
      if !ok then Thrown("Agora Stop Error: " + json, [stopCall])
      else Outcome(Cleared, Response(200, Success(StoppedMessage, Some(json))), [stopCall])
  }

  /** The whole `POST` handler as a function of the slot before the request. */
  function Handle(c: Config, s: RecordingState, request: Request, nowMs: int,
                  acquire: VendorReply, start: VendorReply, stop: VendorReply): Outcome
  {
    if !Configured(c) then Outcome(s, Response(500, Failure(NotConfiguredMessage)), [])
    else
      match request
      case Unparsable(e) => Thrown(e, [])
      case Parsed(action) =>
        if action == Some("start") then
          if Active(s) then Outcome(s, Response(200, Success(AlreadyRecordingMessage, None)), [])
          else StartRecording(c, nowMs, acquire, start)
        else if action == Some("stop") then
          if !Active(s) then Outcome(s, Response(400, Failure(NothingToStopMessage)), [])
          else StopRecording(c, s, stop)
        else Outcome(s, Response(400, Failure(InvalidActionMessage)), [])
  }

  /** The route module: its configuration and its one mutable slot. */
  class RecordingController {
    const config: Config
    var resourceId: Option<string>
    var sid: Option<string>

    function State(): RecordingState
      reads this
    {
      RecordingState(resourceId, sid)
    }

    constructor (config: Config)
      ensures this.config == config && State() == Cleared
    {
      this.config := config;
      resourceId, sid := None, None;
    }

    /** One `POST` request; `nowMs` is `Date.now()`, the replies are what the vendor answers. */
    method Post(request: Request, nowMs: int, acquire: VendorReply, start: VendorReply, stop: VendorReply)
      returns (response: Response, calls: seq<VendorCall>)
      modifies this
      ensures var o := Handle(config, old(State()), request, nowMs, acquire, start, stop);
              State() == o.state && response == o.response && calls == o.calls
    {
      calls := [];
      if SomeMissing(RequiredCreds(config)) {
        response := Response(500, Failure(NotConfiguredMessage));
        return;
      }
      if request.Unparsable? {
        resourceId, sid := None, None;
        response := Response(500, Failure(request.error));
        return;
      }
      var action := request.action;
      if action == Some("start") {
        if Truthy(resourceId) && Truthy(sid) {
          response := Response(200, Success(AlreadyRecordingMessage, None));
          return;
        }
        calls := calls + [AcquireCall(AcquireUrl(config), ChannelName, RecorderUid)];
        if acquire.Unreadable? || !acquire.ok {
          resourceId, sid := None, None;
          var message := if acquire.Unreadable? then acquire.error else "Agora Acquire Error: " + acquire.json;
          response := Response(500, Failure(message));
          return;
        }
        var tokenExpiry := nowMs / 1000 + TokenLifetime;
        var privilegeExpiry := nowMs / 1000 + TokenLifetime;
        var newResourceId := acquire.id;
        calls := calls + [StartCall(StartUrl(config, newResourceId), ChannelName, RecorderUid,
                                    tokenExpiry, privilegeExpiry, Storage(config))];
        if start.Unreadable? || !start.ok {
          resourceId, sid := None, None;
          var message := if start.Unreadable? then start.error else "Agora Start Error: " + start.json;
          response := Response(500, Failure(message));
          return;
        }
        resourceId, sid := newResourceId, start.id;
        response := Response(200, Success(StartedMessage, Some(start.json)));
      } else if action == Some("stop") {
        if !Truthy(resourceId) || !Truthy(sid) {
          response := Response(400, Failure(NothingToStopMessage));
          return;
        }
        calls := calls + [StopCall(StopUrl(config, State()), ChannelName, RecorderUid)];
        if stop.Unreadable? || !stop.ok {
          resourceId, sid := None, None;
          var message := if stop.Unreadable? then stop.error else "Agora Stop Error: " + stop.json;
          response := Response(500, Failure(message));
          return;
        }
        resourceId, sid := None, None;
        response := Response(200, Success(StoppedMessage, Some(stop.json)));
      } else {
        response := Response(400, Failure(InvalidActionMessage));
      }
    }
  }
}
