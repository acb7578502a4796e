/** What the file locator guarantees: when the query fallback answers null, when it is consulted,
    which entry is chosen, and when the relay is abandoned before any download. */
module FileLocatorProperties {
  import opened JsValues
  import opened Paths
  import opened FileLocator

  /** The fallback answers null exactly when the lookup is empty, a credential is missing, the
      call throws or is not ok, or the body has no `serverResponse.fileList`; otherwise it answers
      that list. It fetches only once the lookup and the credentials are there, and then the URL
      names the looked-up resource and the session. */
  lemma QueryFilesAnswer(sid: string, lookup: Option<string>, env: QueryEnv, reply: QueryReply)
    ensures var q := QueryFiles(sid, lookup, env, reply);
            && (q.fileList.None? <==>
                  || !Truthy(lookup) || !Truthy(env.appId) || !Truthy(env.customerId) || !Truthy(env.customerSecret)
                  || !reply.QueryOk? || reply.serverResponse.None? || reply.serverResponse.value.fileList.Missing?)
            && (q.fileList.Some? ==> q.fileList == Some(reply.serverResponse.value.fileList))
            && (q.requested.Some? <==>
                  Truthy(lookup) && Truthy(env.appId) && Truthy(env.customerId) && Truthy(env.customerSecret))
            && (q.requested.Some? ==> q.requested.value == QueryUrl(env.appId.value, lookup.value, sid))
  {
  }

  /** Query URLs for slash-free identifiers name one resource and one session. */
  lemma QueryUrlDeterminesSession(appId: string, resourceId1: string, sid1: string,
                                  resourceId2: string, sid2: string)
    requires '/' !in resourceId1 && '/' !in sid1 && '/' !in resourceId2 && '/' !in sid2
    ensures QueryUrl(appId, resourceId1, sid1) == QueryUrl(appId, resourceId2, sid2)
        <==> resourceId1 == resourceId2 && sid1 == sid2
  {
    SessionUrlInjective(appId, "query", resourceId1, sid1, resourceId2, sid2);
  }

  /** A payload without a session id is abandoned at once, without consulting the fallback. */
  lemma MissingSidAborts(payload: Payload, env: QueryEnv, reply: QueryReply)
    requires !Truthy(payload.sid)
    ensures Locate(payload, env, reply) == Location(Abort(MissingSid), false, None)
  {
  }

  /** A non-empty payload list is used as it is: the fallback is not consulted, so neither the
      credentials nor the vendor's answer can change the outcome. */
  lemma PayloadListSkipsFallback(payload: Payload, env1: QueryEnv, reply1: QueryReply,
                                 env2: QueryEnv, reply2: QueryReply)
    requires Truthy(payload.sid) && !NeedsFallback(PayloadFileList(payload))
    ensures Locate(payload, env1, reply1) == Locate(payload, env2, reply2)
         == Location(Select(payload.sid.value, PayloadFileList(payload)), false, None)
  {
  }

  /** An absent or empty payload list sends the locator to the fallback, which, the lookup being
      the placeholder, queries as soon as the credentials are there; a null answer abandons the
      relay. */
  lemma EmptyListConsultsFallback(payload: Payload, env: QueryEnv, reply: QueryReply)
    requires Truthy(payload.sid) && NeedsFallback(PayloadFileList(payload))
    ensures var sid := payload.sid.value;
            var loc := Locate(payload, env, reply);
            var q := QueryFiles(sid, Some(PlaceholderResourceId), env, reply);
            && loc.consulted
            && loc.queryUrl == q.requested
            && (loc.queryUrl.Some? <==> Truthy(env.appId) && Truthy(env.customerId) && Truthy(env.customerSecret))
            && (loc.queryUrl.Some? ==> loc.queryUrl.value == QueryUrl(env.appId.value, PlaceholderResourceId, sid))
            && (q.fileList.None? ==> loc.result == Abort(NoFileList))
            && (q.fileList.Some? ==> loc.result == Select(sid, q.fileList.value))
  {
    QueryFilesAnswer(payload.sid.value, Some(PlaceholderResourceId), env, reply);
  }

  /** A single entry object behaves as a list holding just that entry. */
  lemma SingleEntryIsWrapped(sid: string, e: FileEntry)
    ensures Select(sid, Single(e)) == Select(sid, Files([e]))
  {
  }

  /** The chosen file is the first entry whose name ends in ".mp4", and it has a download URL;
      the locator gives up with NoMp4 exactly when no entry qualifies and with NoDownloadUrl
      exactly when the first one that does has no URL. */
  lemma SelectChoosesFirstMp4(sid: string, v: FileListValue)
    requires !v.Missing?
    ensures var files := AsArray(v);
            && (Select(sid, v) == Abort(NoMp4) <==> forall j :: 0 <= j < |files| ==> !IsMp4(files[j]))
            && (Select(sid, v).Found? <==>
                  exists i :: 0 <= i < |files| && IsMp4(files[i]) && Truthy(files[i].downloadUrl)
                              && forall j :: 0 <= j < i ==> !IsMp4(files[j]))
            && (Select(sid, v).Found? ==>
                  exists i :: 0 <= i < |files| && IsMp4(files[i]) && (forall j :: 0 <= j < i ==> !IsMp4(files[j]))
                              && Select(sid, v).file == ResolvedFile(sid, NameOf(files[i]), files[i].downloadUrl.value))
            && (Select(sid, v).Abort? ==> Select(sid, v).reason in {NoMp4, NoDownloadUrl})
  {
    var files := AsArray(v);
    var found := FirstMp4(files);
    if found.Some? {
      var i := found.value;
      forall k | 0 <= k < |files| && IsMp4(files[k]) && Truthy(files[k].downloadUrl)
                 && (forall j :: 0 <= j < k ==> !IsMp4(files[j]))
        ensures k == i
      {
      }
    }
  }

  /** Whatever route it takes, a located file belongs to the payload's session, is named like an
      MP4 recording and has a non-empty download URL. */
  lemma LocatedFileIsMp4(payload: Payload, env: QueryEnv, reply: QueryReply)
    requires Locate(payload, env, reply).result.Found?
    ensures var f := Locate(payload, env, reply).result.file;
            && Truthy(payload.sid) && f.sid == payload.sid.value
            && EndsWith(f.fileName, ".mp4") && f.downloadUrl != ""
  {
  }

  /** The example of a backed-up recording whose payload lists a playlist and then the MP4. */
  lemma PlaylistThenMp4(env: QueryEnv, reply: QueryReply)
    ensures var payload := Payload(Some("S1"), Some("the-main-event-stream"), Some(Details(Files([
              FileEntry(Some("rec.m3u8"), None, None),
              FileEntry(Some("rec.mp4"), None, Some("https://vendor/f"))]))));
            Locate(payload, env, reply) == Location(Found(ResolvedFile("S1", "rec.mp4", "https://vendor/f")), false, None)
  {
    var files := [FileEntry(Some("rec.m3u8"), None, None), FileEntry(Some("rec.mp4"), None, Some("https://vendor/f"))];
    assert !IsMp4(files[0]) by {
      assert NameOf(files[0]) == "rec.m3u8";
      assert "rec.m3u8"[8 - 4..] != ".mp4" by { assert "rec.m3u8"[5] == '3'; }
    }
    assert IsMp4(files[1]) by {
      assert NameOf(files[1]) == "rec.mp4";
      assert "rec.mp4"[7 - 4..] == ".mp4";
    }
    assert files[1..] == [files[1]];
    assert FirstMp4(files[1..]) == Some(0);
  }
}
