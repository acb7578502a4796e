/** What the relay guarantees: the counters' meaning, the spacing of progress reports, the upload
    destination and when nothing is downloaded or uploaded. */
module RelayProperties {
  import opened JsValues
  import opened Paths
  import opened FileLocator
  import opened FileLocatorProperties
  import opened Relay

  /** `uploadedBytes` is the total length of the chunks seen so far. */
  lemma {:induction false} TrackCountsBytes(total: int, lengths: seq<nat>)
    ensures Track(total, lengths).progress.uploadedBytes == Sum(lengths)
    decreases |lengths|
  {
    if lengths != [] {
      TrackCountsBytes(total, lengths[..|lengths| - 1]);
    }
  }

  /** Reports are spaced: the first is at least 4 (the last logged value starts at -1), each later
      one exceeds its predecessor by at least 5, and the stage remembers the latest one. */
  lemma {:induction false} TrackReportsSpaced(total: int, lengths: seq<nat>)
    ensures var t := Track(total, lengths);
            && (t.reports != [] ==> t.reports[0] >= Initial.lastLogged + ReportStep)
            && (forall i :: 0 < i < |t.reports| ==> t.reports[i] >= t.reports[i - 1] + ReportStep)
            && t.progress.lastLogged == if t.reports == [] then Initial.lastLogged else t.reports[|t.reports| - 1]
    decreases |lengths|
  {
    if lengths != [] {
      TrackReportsSpaced(total, lengths[..|lengths| - 1]);
    }
  }

  /** Without a positive content length nothing is ever reported. */
  lemma {:induction false} TrackSilentWithoutTotal(total: int, lengths: seq<nat>)
    requires total <= 0
    ensures Track(total, lengths).reports == [] && Track(total, lengths).progress.lastLogged == Initial.lastLogged
    decreases |lengths|
  {
    if lengths != [] {
      TrackSilentWithoutTotal(total, lengths[..|lengths| - 1]);
    }
  }

  lemma PercentageMonotone(a: nat, b: nat, total: int)
    requires total > 0 && a <= b
    ensures Percentage(a, total) <= Percentage(b, total)
  {
    var x, y := a * 100, b * 100;
    var qx, qy := x / total, y / total;
    assert x == qx * total + x % total && 0 <= x % total;
    assert y == qy * total + y % total && y % total < total;
    if qx > qy {
      MultiplyMonotone(qy + 1, qx, total);
      assert false;
    }
  }

  lemma MultiplyMonotone(p: int, q: int, t: int)
    requires p <= q && t > 0
    ensures p * t <= q * t
  {
    assert q * t - p * t == (q - p) * t;
  }

  /** No report exceeds the percentage of the bytes counted so far. */
  lemma {:induction false} ReportsBoundedByProgress(total: int, lengths: seq<nat>)
    requires total > 0
    ensures forall i :: 0 <= i < |Track(total, lengths).reports| ==>
              Track(total, lengths).reports[i] <= Percentage(Sum(lengths), total)
    decreases |lengths|
  {
    if lengths != [] {
      var prefix := lengths[..|lengths| - 1];
      ReportsBoundedByProgress(total, prefix);
      TrackCountsBytes(total, prefix);
      PercentageMonotone(Sum(prefix), Sum(lengths), total);
    }
  }

  /** Total 100, chunks of 23, 7 and 70 bytes: reports at 23, 30 and 100 percent. */
  lemma ThreeChunkExample()
    ensures Track(100, [23, 7, 70]).reports == [23, 30, 100]
  {
    assert [23, 7, 70][..2] == [23, 7];
    assert [23, 7][..1] == [23];
    assert [23][..0] == [];
  }

  /** The bytes handed to the upload are as many as the stage counted. */
  lemma {:induction false} ConcatLength(chunks: seq<seq<bv8>>)
    ensures |Concat(chunks)| == Sum(Lengths(chunks))
    decreases |chunks|
  {
    if chunks != [] {
      var prefix := chunks[..|chunks| - 1];
      assert Lengths(chunks)[..|chunks| - 1] == Lengths(prefix);
      ConcatLength(prefix);
    }
  }

  /** Distinct sessions (slash-free ids) or distinct file names never share a destination. */
  lemma UploadPathInjective(sid1: string, fileName1: string, sid2: string, fileName2: string)
    requires '/' !in sid1 && '/' !in sid2
    ensures UploadPath(sid1, fileName1) == UploadPath(sid2, fileName2) <==> sid1 == sid2 && fileName1 == fileName2
  {
    if UploadPath(sid1, fileName1) == UploadPath(sid2, fileName2) {
      HeadTailInjective(sid1, fileName1, sid2, fileName2);
    }
  }

  /** A relay the locator abandons downloads nothing, uploads nothing and reports nothing. */
  lemma AbandonedRelayTouchesNothing(payload: Payload, env: QueryEnv, query: QueryReply, download: Download,
                                     bucket: Option<string>, uploadError: Option<string>)
    requires Locate(payload, env, query).result.Abort?
    ensures ProcessAndUpload(payload, env, query, download, bucket, uploadError)
         == RelayRun(Abandoned(Locate(payload, env, query).result.reason), Locate(payload, env, query).consulted,
                     None, None, [])
  {
  }

  /** An upload is issued exactly when a file is located, downloaded, and the bucket is named; it
      goes to `<sid>/<file name>` of an MP4 entry, overwrites, carries every downloaded byte in
      order, and is as long as the stage counted. The relay succeeds exactly when the store
      reports no error. */
  lemma UploadCarriesTheRecording(payload: Payload, env: QueryEnv, query: QueryReply, download: Download,
                                  bucket: Option<string>, uploadError: Option<string>)
    ensures var run := ProcessAndUpload(payload, env, query, download, bucket, uploadError);
            var loc := Locate(payload, env, query);
            && (run.upload.Some? <==> loc.result.Found? && download.Downloaded? && Truthy(bucket))
            && (run.upload.Some? ==>
                  var f := loc.result.file;
                  var u := run.upload.value;
                  && u == UploadRequest(bucket.value, UploadPath(payload.sid.value, f.fileName), "video/mp4", true,
                                        Concat(download.chunks))
                  && EndsWith(f.fileName, ".mp4")
                  && |u.bytes| == Track(download.totalSize, Lengths(download.chunks)).progress.uploadedBytes
                  && run.reports == Track(download.totalSize, Lengths(download.chunks)).reports
                  && (run.result.Uploaded? <==> uploadError.None?)
                  && (run.result.Uploaded? ==> run.result.path == u.path))
            && (run.result.Uploaded? ==> run.upload.Some?)
  {
    var run := ProcessAndUpload(payload, env, query, download, bucket, uploadError);
    if run.upload.Some? {
      LocatedFileIsMp4(payload, env, query);
      ConcatLength(download.chunks);
      TrackCountsBytes(download.totalSize, Lengths(download.chunks));
    }
  }

  /** A redelivered event whose payload lists its files is relayed to the same destination,
      whatever the downloads, buckets and credentials of the two deliveries, and both uploads
      overwrite. */
  lemma RedeliveryTargetsSamePath(payload: Payload, env1: QueryEnv, query1: QueryReply, download1: Download,
                                  bucket1: Option<string>, uploadError1: Option<string>,
                                  env2: QueryEnv, query2: QueryReply, download2: Download,
                                  bucket2: Option<string>, uploadError2: Option<string>)
    requires !NeedsFallback(PayloadFileList(payload))
    ensures var run1 := ProcessAndUpload(payload, env1, query1, download1, bucket1, uploadError1);
            var run2 := ProcessAndUpload(payload, env2, query2, download2, bucket2, uploadError2);
            run1.upload.Some? && run2.upload.Some? ==>
              run1.upload.value.path == run2.upload.value.path && run1.upload.value.upsert && run2.upload.value.upsert
  {
  }

  /** The backed-up recording of the locator example, downloaded as 23, 7 and 70 of 100 bytes,
      lands at "S1/rec.mp4" with reports at 23, 30 and 100 percent. */
  lemma PlaylistThenMp4Relayed(env: QueryEnv, query: QueryReply, c1: seq<bv8>, c2: seq<bv8>, c3: seq<bv8>)
    requires |c1| == 23 && |c2| == 7 && |c3| == 70
    ensures var payload := Payload(Some("S1"), Some("the-main-event-stream"), Some(Details(Files([
              FileEntry(Some("rec.m3u8"), None, None),
              FileEntry(Some("rec.mp4"), None, Some("https://vendor/f"))]))));
            var run := ProcessAndUpload(payload, env, query, Downloaded(100, [c1, c2, c3]), Some("recordings"), None);
            && run.result == Uploaded("S1/rec.mp4")
            && run.downloadUrl == Some("https://vendor/f")
            && run.upload.value.bytes == c1 + c2 + c3
            && run.reports == [23, 30, 100]
  {
    var payload := Payload(Some("S1"), Some("the-main-event-stream"), Some(Details(Files([
                     FileEntry(Some("rec.m3u8"), None, None),
                     FileEntry(Some("rec.mp4"), None, Some("https://vendor/f"))]))));
    var f := ResolvedFile("S1", "rec.mp4", "https://vendor/f");
    var download := Downloaded(100, [c1, c2, c3]);
    assert Locate(payload, env, query).result == Found(f) by { PlaylistThenMp4(env, query); }
    assert Concat(download.chunks) == c1 + c2 + c3 && Lengths(download.chunks) == [23, 7, 70] by {
      ConcatThree(c1, c2, c3);
    }
    assert Track(100, [23, 7, 70]).reports == [23, 30, 100] by { ThreeChunkExample(); }
    assert UploadPath("S1", "rec.mp4") == "S1/rec.mp4";
    LocatedFileUploaded(payload, env, query, f, download, "recordings");
  }

  lemma LocatedFileUploaded(payload: Payload, env: QueryEnv, query: QueryReply, f: ResolvedFile,
                            download: Download, bucket: string)
    requires Locate(payload, env, query).result == Found(f) && download.Downloaded? && bucket != ""
    ensures var run := ProcessAndUpload(payload, env, query, download, Some(bucket), None);
            && run.result == Uploaded(UploadPath(f.sid, f.fileName))
            && run.downloadUrl == Some(f.downloadUrl)
            && run.upload == Some(UploadRequest(bucket, UploadPath(f.sid, f.fileName), ContentType, true,
                                                Concat(download.chunks)))
            && run.reports == Track(download.totalSize, Lengths(download.chunks)).reports
  {
  }

  lemma ConcatThree(c1: seq<bv8>, c2: seq<bv8>, c3: seq<bv8>)
    ensures Concat([c1, c2, c3]) == c1 + c2 + c3
    ensures Lengths([c1, c2, c3]) == [|c1|, |c2|, |c3|]
  {
    var chunks := [c1, c2, c3];
    assert chunks[..2] == [c1, c2] && [c1, c2][..1] == [c1] && [c1][..0] == [];
    assert Concat([c1]) == c1 by { assert [] + c1 == c1; }
    assert Concat([c1, c2]) == c1 + c2;
  }
}
