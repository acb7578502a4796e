/** The relay of a located recording into object storage, the second half of
    `processAndUploadRecording`: the download is piped through a byte-counting stage that logs
    progress in steps of at least five percent, and the counted stream is uploaded, with
    overwriting allowed, to `<sid>/<file name>`. Download and upload are inputs. */
module Relay {
  import opened JsValues
  import opened Paths
  import opened FileLocator

  /** A progress line is logged only when the percentage has grown by at least this much. */
  const ReportStep: int := 5
  const ContentType: string := "video/mp4"

  // ---- Progress counting, the `transform` of the progress stream ----

  /** The stage's two counters, `uploadedBytes` and `lastLoggedPercentage`. */
  datatype Progress = Progress(uploadedBytes: nat, lastLogged: int)

  const Initial: Progress := Progress(0, -1)

  /** `Math.floor((uploaded / total) * 100)`, taken as exact integer division. */
  function Percentage(uploaded: nat, total: int): nat
    requires total > 0
  {
    uploaded * 100 / total
  }

  /** The counters after one chunk, and the percentage logged for it, if any. */
  datatype Observation = Observation(progress: Progress, report: Option<nat>)

  function Observe(total: int, p: Progress, chunkLength: nat): (o: Observation)
    ensures o.progress.uploadedBytes == p.uploadedBytes + chunkLength
    ensures o.report.Some? <==> total > 0 && Percentage(p.uploadedBytes + chunkLength, total) >= p.lastLogged + ReportStep
    ensures o.report.Some? ==> o.report.value == Percentage(o.progress.uploadedBytes, total) == o.progress.lastLogged
    ensures o.report.None? ==> o.progress.lastLogged == p.lastLogged
  {
    var uploaded := p.uploadedBytes + chunkLength;
    if total > 0 && Percentage(uploaded, total) >= p.lastLogged + ReportStep then
      Observation(Progress(uploaded, Percentage(uploaded, total)), Some(Percentage(uploaded, total)))
    else Observation(Progress(uploaded, p.lastLogged), None)
  }

  function ReportList(r: Option<nat>): seq<nat> {
    match r
    case None => []
    case Some(p) => [p]
  }

  /** The counters after a run of chunks, and every percentage logged on the way. */
  datatype Tracked = Tracked(progress: Progress, reports: seq<nat>)

  function Track(total: int, lengths: seq<nat>): Tracked
    decreases |lengths|
  {
    if lengths == [] then Tracked(Initial, [])
    else
      var before := Track(total, lengths[..|lengths| - 1]);
      var o := Observe(total, before.progress, lengths[|lengths| - 1]);
      Tracked(o.progress, before.reports + ReportList(o.report))
  }

  function Sum(lengths: seq<nat>): nat
    decreases |lengths|
  {
    if lengths == [] then 0 else Sum(lengths[..|lengths| - 1]) + lengths[|lengths| - 1]
  }

  /** The stage state of one transfer. `chunkLengths` is the history the counters summarise. */
  class ProgressTracker {
    const totalSize: int
    var uploadedBytes: nat
    var lastLoggedPercentage: int
    ghost var chunkLengths: seq<nat>

    ghost predicate Valid()
      reads this
    {
      Track(totalSize, chunkLengths).progress == Progress(uploadedBytes, lastLoggedPercentage)
    }

    /** The percentages logged so far. */
    ghost function Reports(): seq<nat>
      reads this
    {
      Track(totalSize, chunkLengths).reports
    }

    /** `totalSize` is the download's content length (0 when absent or not a number). */
    constructor (totalSize: int)
      ensures Valid() && this.totalSize == totalSize && chunkLengths == []
      ensures uploadedBytes == 0 && lastLoggedPercentage == -1
    {
      this.totalSize := totalSize;
      uploadedBytes := 0;
      lastLoggedPercentage := -1;
      chunkLengths := [];
    }

    /** `transform(chunk, controller)`: count the chunk, maybe log, pass the chunk on unchanged. */
    method Transform(chunk: seq<bv8>) returns (forwarded: seq<bv8>, report: Option<nat>)
      requires Valid()
      modifies this
      ensures Valid()
      ensures forwarded == chunk
      ensures chunkLengths == old(chunkLengths) + [|chunk|]
      ensures uploadedBytes == old(uploadedBytes) + |chunk|
      ensures report.Some? <==> totalSize > 0 && Percentage(uploadedBytes, totalSize) >= old(lastLoggedPercentage) + ReportStep
      ensures report.Some? ==> report.value == Percentage(uploadedBytes, totalSize) == lastLoggedPercentage
      ensures report.None? ==> lastLoggedPercentage == old(lastLoggedPercentage)
      ensures Reports() == old(Reports()) + ReportList(report)
    {
      uploadedBytes := uploadedBytes + |chunk|;
      report := None;
      if totalSize > 0 {
        var percentage := uploadedBytes * 100 / totalSize;
        if percentage >= lastLoggedPercentage + ReportStep {
          lastLoggedPercentage := percentage;
          report := Some(percentage);
        }
      }
      chunkLengths := chunkLengths + [|chunk|];
      assert chunkLengths[..|chunkLengths| - 1] == old(chunkLengths);
      forwarded := chunk;
    }
  }

  // ---- The upload ----

  /** `${sid}/${filename}`: where the recording goes in the bucket. */
  function UploadPath(sid: string, fileName: string): string {
    sid + "/" + fileName
  }

  /** The chunks of the download, in order. */
  function Concat(chunks: seq<seq<bv8>>): seq<bv8>
    decreases |chunks|
  {
    if chunks == [] then [] else Concat(chunks[..|chunks| - 1]) + chunks[|chunks| - 1]
  }

  function Lengths(chunks: seq<seq<bv8>>): (lengths: seq<nat>)
    ensures |lengths| == |chunks| && forall i :: 0 <= i < |chunks| ==> lengths[i] == |chunks[i]|
  {
    seq(|chunks|, i requires 0 <= i < |chunks| => |chunks[i]|)
  }

  /** The download: it failed (non-ok status or no body), or it delivered its content length and
      its body as a sequence of chunks. */
  datatype Download = DownloadFailed(status: int) | Downloaded(totalSize: int, chunks: seq<seq<bv8>>)

  /** The call to the storage bucket. */
  datatype UploadRequest = UploadRequest(bucket: string, path: string, contentType: string, upsert: bool,
                                         bytes: seq<bv8>)

  datatype RelayResult = Abandoned(reason: LocateError) | Failed(message: string) | Uploaded(path: string)

  /** What a relay did: its result, whether it consulted the query fallback, the URL it downloaded
      from, the upload it issued and the progress percentages it logged. */
  datatype RelayRun = RelayRun(result: RelayResult, consulted: bool, downloadUrl: Option<string>,
                               upload: Option<UploadRequest>, reports: seq<nat>)

  /** `processAndUploadRecording(payload)`; `bucket` is `SUPABASE_RECORDINGS_BUCKET_NAME` and
      `uploadError` the storage client's error, if it returned one. */
  function ProcessAndUpload(payload: Payload, env: QueryEnv, query: QueryReply, download: Download,
                            bucket: Option<string>, uploadError: Option<string>): RelayRun
  {
    var loc := Locate(payload, env, query);
    match loc.result
    case Abort(reason) => RelayRun(Abandoned(reason), loc.consulted, None, None, [])
    case Found(f) =>
      var url := Some(f.downloadUrl);
      match download
      case DownloadFailed(_) =>
        RelayRun(Failed("Failed to download file from Agora: " + f.fileName), loc.consulted, url, None, [])
      case Downloaded(totalSize, chunks) =>
        if !Truthy(bucket) then
          RelayRun(Failed("Supabase bucket name is not configured."), loc.consulted, url, None, [])
        else
          var request := UploadRequest(bucket.value, UploadPath(f.sid, f.fileName), ContentType, true, Concat(chunks));
          var reports := Track(totalSize, Lengths(chunks)).reports;
          match uploadError
          case Some(message) =>
            RelayRun(Failed("Supabase upload failed: " + message), loc.consulted, url, Some(request), reports)
          case None => RelayRun(Uploaded(request.path), loc.consulted, url, Some(request), reports)
  }
}
