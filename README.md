# agora-starter cloud recording, modelled in Dafny

This project models the two server routes of the agora-starter live-streaming app that drive
Agora Cloud Recording. Everything is in the system's own terms.

- **Recording controller** (`POST /api/agora/recording`, modules `Recording` and
  `RecordingProperties`).
  - It refuses to work unless eight credentials are set.
  - On `start` it runs the acquire/start handshake and stores the resource id and session id in
    an in-memory slot. A `start` while that slot holds a recording does nothing.
  - On `stop` it stops the session in the slot.
  - Any thrown error, including an unreadable request body, clears the slot.
  - The handler is the specification function `Recording.Handle`. The class
    `Recording.RecordingController` holds the slot as two fields, and its `Post` method is proved
    equal to `Handle`.
- **Webhook dispatch** (`POST /api/agora/webhook`, modules `WebhookRouter` and
  `WebhookProperties`).
  - It dispatches on `eventType`.
  - It keeps the module-level `recordingSid` of the latest "recorder started" event (40).
  - On "file backed up" (32) it launches the relay without waiting for it.
  - `Route` specifies one delivery. `WebhookEndpoint.Post` updates `recordingSid` in place and is
    proved equal to `Route`.
- **File locator** (modules `FileLocator` and `FileLocatorProperties`).
  - It takes the payload's `fileList`, or, when that is absent or empty, the answer of the query
    fallback. The fallback uses the placeholder resource id lookup.
  - It then picks the first entry whose name ends in `.mp4`. That entry must have a download URL.
- **Relay** (modules `Relay` and `RelayProperties`).
  - The download passes through a byte-counting stage, `ProgressTracker.Transform`. It logs
    progress whenever the percentage has grown by at least five points.
  - The counted stream is uploaded to `<sid>/<file name>` with overwriting allowed.
  - `Track` specifies the stage over a sequence of chunk lengths.

JavaScript values that may be `null`, `undefined` or empty are `Option<string>`, and
`JsValues.Truthy` is JavaScript truthiness on them. The following are inputs to the model:
- the environment variables;
- the vendor's replies;
- the current time in milliseconds;
- the download and the storage client's error.

## Model

| member | source | states |
|---|---|---|
| Recording.SomeMissing | src/app/api/agora/recording/route.ts:41 | `requiredCreds.some(cred => !cred)`: true exactly when some credential is falsy |
| Recording.ConfiguredIff | src/app/api/agora/recording/route.ts:30-41 | the gate passes exactly when all eight credentials (app id, certificate, customer id and secret, bucket name, region, access key, secret key) are truthy |
| RecordingProperties.GateRefusesWithoutCalls | src/app/api/agora/recording/route.ts:41-49 | a missing credential answers 500 "Recording service is not configured on the server.", makes no vendor call and leaves the slot as it was |
| Recording.TokenExpiry | src/app/api/agora/recording/route.ts:86-87 | the expiry is the current time in whole seconds, rounded down, plus 3600 |
| Recording.RecordingController.Post | src/app/api/agora/recording/route.ts:28-204 | the response, the vendor calls and the new slot fields are exactly those of `Handle` on the old slot |
| RecordingProperties.StartWhileActiveIsNoOp | src/app/api/agora/recording/route.ts:59-67 | `start` with both ids set answers 200 "Recording is already in progress.", calls nothing and keeps the slot |
| RecordingProperties.StartWhileInactiveAcquires | src/app/api/agora/recording/route.ts:61-81 | with either id missing, `start` first calls `<base>/acquire` with the channel "the-main-event-stream" and uid "999999" |
| RecordingProperties.StartSucceeds | src/app/api/agora/recording/route.ts:69-152 | two ok replies store the acquired resource id and the started sid, answer 200 "Recording started." with the start reply. The calls are exactly acquire, then start on that resource id, with both expiries and the storage config (vendor 1, region, bucket, access key, secret key) |
| RecordingProperties.StartStorageCarriesConfig | src/app/api/agora/recording/route.ts:114-120 | the start call's storage config is vendor 1 with the configured region, bucket, access key and secret key, all non-empty once the gate has passed |
| RecordingProperties.StartFailureClears | src/app/api/agora/recording/route.ts:82-142 | a non-ok or unreadable acquire or start reply clears the slot and answers 500. Start is called only after an ok acquire |
| RecordingProperties.StopWithoutRecordingRefused | src/app/api/agora/recording/route.ts:153-159 | `stop` with either id missing answers 400 "No active recording found to stop.", calls nothing, keeps the slot |
| RecordingProperties.StopAlwaysClears | src/app/api/agora/recording/route.ts:161-188 | `stop` on a recording makes one call, to `.../resourceid/<rid>/sid/<sid>/mode/mix/stop`. It clears the slot whatever the reply, answering 200 when the reply is ok and 500 otherwise |
| RecordingProperties.StopUrlDeterminesRecording | src/app/api/agora/recording/route.ts:161-162 | for slash-free ids, two stop URLs are equal exactly when they name the same resource id and sid |
| Paths.SessionUrlInjective | src/app/api/agora/recording/route.ts:162 | a session URL (base, resource id, sid, verb) determines its slash-free resource id and sid, both directions |
| RecordingProperties.InvalidActionKeepsState | src/app/api/agora/recording/route.ts:189-194 | any other action answers 400 "Invalid action specified.", calls nothing, keeps the slot |
| RecordingProperties.UnparsableBodyClears | src/app/api/agora/recording/route.ts:195-203 | an unreadable body answers 500 with the parse error, calls nothing and clears the slot |
| RecordingProperties.HandleKeepsConsistent | src/app/api/agora/recording/route.ts:144-145 | if the vendor's ok replies carry their ids, the slot is always either empty or fully set |
| RecordingProperties.OkStartWithoutSidHalfFills | src/app/api/agora/recording/route.ts:144-145 | an ok start reply without `sid` leaves the slot holding a resource id alone, and answers 200 |
| RecordingProperties.RepeatedStartsAcquireOnce | src/app/api/agora/recording/route.ts:59-89 | any run of accepted `start` requests issues at most one acquire and ends with a recording in the slot. Every request after the first answers "already in progress" |
| RecordingProperties.StartStopLifecycle | src/app/api/agora/recording/route.ts:59-188 | start, start, stop, stop gives: started, already in progress, stopped at H1/S1, refused with 400. The slot ends empty |
| WebhookRouter.WebhookEndpoint.Post | src/app/api/agora/webhook/route.ts:29-101 | status, body, relay launch and the new `recordingSid` are exactly those of `Route` on the old `recordingSid` |
| WebhookProperties.OnlyRecorderStartedSetsSid | src/app/api/agora/webhook/route.ts:43-46 | only an event 40 with a payload changes `recordingSid`, and it sets it to `payload.sid` |
| WebhookProperties.AcknowledgedUnlessUnreadable | src/app/api/agora/webhook/route.ts:30-100 | status is 200 with "Webhook received and is being processed.", or 500 with "Failed to process webhook". It is 500 exactly for an unreadable body, or for events 40, 31 and 1001 without a payload. A 500 changes nothing and launches nothing |
| WebhookProperties.RelayOnlyOnBackup | src/app/api/agora/webhook/route.ts:48-58 | the relay is launched exactly for event 32, with the delivery's payload. The answer is then 200 and `recordingSid` is kept |
| WebhookProperties.DeliverWithoutAnnouncementKeepsSid | src/app/api/agora/webhook/route.ts:14 | a run of deliveries without an event 40 with a payload leaves `recordingSid` unchanged |
| WebhookProperties.DeliverKeepsLatestAnnouncement | src/app/api/agora/webhook/route.ts:43-46 | after any run of deliveries, `recordingSid` is the `sid` of the latest event 40 with a payload |
| FileLocator.FirstMp4 | src/app/api/agora/webhook/route.ts:129-132 | the index found is the first entry whose name (`fileName`, else `filename`, else empty) ends in ".mp4"; none is found exactly when no entry does |
| FileLocatorProperties.SelectChoosesFirstMp4 | src/app/api/agora/webhook/route.ts:129-152 | the chosen file is the first `.mp4` entry, with its name and download URL. "No MP4" is reported exactly when no entry qualifies. Any other abort is "no download URL" |
| FileLocatorProperties.SingleEntryIsWrapped | src/app/api/agora/webhook/route.ts:129 | a single entry object is treated as the one-element list |
| FileLocatorProperties.MissingSidAborts | src/app/api/agora/webhook/route.ts:107-111 | a falsy `sid` abandons the relay at once, without the fallback |
| FileLocatorProperties.PayloadListSkipsFallback | src/app/api/agora/webhook/route.ts:113-116 | a non-empty payload list is used as is. Neither credentials nor the query answer matter |
| FileLocatorProperties.EmptyListConsultsFallback | src/app/api/agora/webhook/route.ts:115-127 | an absent or empty list consults the fallback. A null answer abandons the relay, and a list answer is searched |
| FileLocatorProperties.QueryFilesAnswer | src/app/api/agora/webhook/route.ts:222-292 | the fallback answers null exactly when the lookup fails, a credential is missing, the call throws or is not ok, or the body lacks `serverResponse.fileList`; otherwise it answers that list. It fetches the `.../mode/mix/query` URL exactly when the lookup and the credentials are present |
| FileLocatorProperties.QueryUrlDeterminesSession | src/app/api/agora/webhook/route.ts:248 | for slash-free ids, two query URLs are equal exactly when resource id and sid are |
| FileLocator.ResourceIdForSession | src/app/api/agora/webhook/route.ts:300-324 | the placeholder lookup always yields a resource id |
| FileLocatorProperties.LocatedFileIsMp4 | src/app/api/agora/webhook/route.ts:106-152 | a located file has the payload's sid, a name ending in ".mp4" and a non-empty download URL |
| FileLocatorProperties.PlaylistThenMp4 | src/app/api/agora/webhook/route.ts:113-152 | a payload listing `rec.m3u8` then `rec.mp4` locates `rec.mp4` without the fallback |
| Relay.Observe | src/app/api/agora/webhook/route.ts:169-181 | one chunk adds its length to the byte count. A report happens exactly when the total is positive and the percentage has reached the last logged one plus 5, and it then becomes the last logged one |
| Relay.ProgressTracker.Transform | src/app/api/agora/webhook/route.ts:169-181 | forwards the chunk unchanged, updates `uploadedBytes` and `lastLoggedPercentage` as in `Observe`, and appends its report to the reports of `Track` over the chunks seen |
| RelayProperties.TrackCountsBytes | src/app/api/agora/webhook/route.ts:165-170 | `uploadedBytes` is the sum of the chunk lengths seen |
| RelayProperties.TrackReportsSpaced | src/app/api/agora/webhook/route.ts:166-178 | the first report is at least 4, each later one exceeds its predecessor by at least 5, and `lastLoggedPercentage` is the latest report (or -1) |
| RelayProperties.TrackSilentWithoutTotal | src/app/api/agora/webhook/route.ts:164-171 | without a positive content length nothing is reported |
| RelayProperties.ReportsBoundedByProgress | src/app/api/agora/webhook/route.ts:170-178 | no report exceeds the percentage of the bytes counted so far |
| RelayProperties.ThreeChunkExample | src/app/api/agora/webhook/route.ts:168-182 | 23, 7 and 70 bytes of 100 report 23, 30 and 100 percent |
| RelayProperties.ConcatLength | src/app/api/agora/webhook/route.ts:180-184 | the bytes passed on are as many as the stage counted |
| RelayProperties.UploadPathInjective | src/app/api/agora/webhook/route.ts:186 | for slash-free sids, `${sid}/${filename}` determines both the sid and the file name |
| RelayProperties.AbandonedRelayTouchesNothing | src/app/api/agora/webhook/route.ts:106-152 | an abandoned relay downloads, uploads and reports nothing |
| RelayProperties.UploadCarriesTheRecording | src/app/api/agora/webhook/route.ts:154-207 | an upload happens exactly when a file is located, downloaded and the bucket is named. It goes to `<sid>/<mp4 name>` with "video/mp4" and upsert, and carries every downloaded byte in order. It succeeds exactly when the store reports no error |
| RelayProperties.RedeliveryTargetsSamePath | src/app/api/agora/webhook/route.ts:186-202 | a redelivered event whose payload lists its files is uploaded, with overwrite, to the same path |
| RelayProperties.LocatedFileUploaded | src/app/api/agora/webhook/route.ts:154-207 | a located, downloaded file with a named bucket and no store error is uploaded to `<sid>/<name>`, with the progress reports of its chunks |
| RelayProperties.PlaylistThenMp4Relayed | src/app/api/agora/webhook/route.ts:106-207 | the playlist-then-MP4 payload, downloaded in chunks of 23, 7 and 70 of 100 bytes, lands at "S1/rec.mp4" with reports 23, 30, 100 |

## Left out

- Token signing (`RtcTokenBuilder.buildTokenWithUid`) is not modelled. The start call records the two expiries it is given, but not the token.
- The Base64 `Authorization` headers are not modelled.
- The recording profile literal (channel type, stream types, 1920x1080 transcoding) is not modelled.
- RecordingProperties.StartStorageCarriesConfig: `parseInt` of the bucket region is not modelled. The storage config carries the region as the configured text, not as the number the source sends.
- The network is not modelled. Every vendor reply, the download and the storage client's outcome are inputs. A reply whose body is not JSON counts the same as a rejected `fetch`: both land in the same `catch`.
- Stream backpressure and chunk timing are not modelled. The download is a finite sequence of chunks, all consumed. When the store reports an error, the model still counts every chunk.
- The detached relay and its `.catch` run concurrently with later deliveries. They are modelled as one `RelayLaunch` value and a separate function `ProcessAndUpload`.
- Concurrent requests on either route are not modelled. Interleaved handlers sharing the slot or `recordingSid` are not captured.
- A relay launched for event 32 with no payload rejects at once and only logs. `ProcessAndUpload` takes a present payload.
- Logging is not modelled, including the event 33 progress line, the final size in MB and the missing-signature warning. Only the effect of a log line is kept, where it throws: the webhook lines for events 40, 31 and 1001 read `body.payload.sid` (lines 44, 62 and 79 of src/app/api/agora/webhook/route.ts), and the first line reads `body.eventType` (line 33). These throws are what turn the answer into 500.
- Signature validation is absent in the source.
- Recording.StartUrl: a vendor reply whose `resourceId` is JSON `null` and one without it are both None, and the start URL interpolates None as "undefined". For an explicit `null` the source's URL reads `.../resourceid/null/mode/mix/start` instead.
- Date.now is read twice for the two expiries, and the model reads it once (`nowMs`). The two values can differ by one second across a second boundary.
- The `data` field of the success responses is the vendor reply's JSON text, not a structured object.
- Relay.Percentage: computed as the exact integer `uploaded*100/total`, whereas the source floors a floating-point product. These can differ by one (29 of 100 bytes gives 28 in floating point).
- A JSON `null` request body is modelled as an unreadable body. In the source it throws on property access, which answers 500 on both routes.
- A number, string or boolean `payload` reads every field as `undefined`, so it is modelled as a payload whose fields are all None. An event 40 with such a payload answers 200 and sets `recordingSid` to None.
- A number, string or boolean entry in a file list is modelled as an entry whose fields are all None, which the `.mp4` search skips.
- A `null` entry in a file list is not modelled. It throws inside the detached relay, which abandons the relay and only logs; the webhook's 200 is unchanged.
- A `fileList` that is a string or number is not modelled. Such values are neither an array nor an entry object.
- Deviation from the intended behaviour, kept as written: events 40, 31 and 1001 dereference `body.payload.sid` without optional chaining, so such a delivery without a payload answers 500, not 200 (`WebhookProperties.AcknowledgedUnlessUnreadable`).
- Deviation from the intended behaviour, kept as written: an ok start reply without `sid` half-fills the slot (`RecordingProperties.OkStartWithoutSidHalfFills`). The slot invariant is proved only for replies that carry their ids.
