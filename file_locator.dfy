/** Finding the recording to relay when the "file backed up" webhook arrives: the file list comes
    from the webhook payload, or, when the payload has none, from the vendor's query endpoint;
    from that list the first `.mp4` entry is chosen, and it must carry a download URL. */
module FileLocator {
  import opened JsValues
  import opened Paths

  /** One entry of a vendor file list; the vendor spells the name field either way. A number,
      string or boolean entry has every field None. */
  datatype FileEntry = FileEntry(fileName: Option<string>, filename: Option<string>, downloadUrl: Option<string>)

  /** A `fileList` value: absent (or null), an array, or a single entry object. */
  datatype FileListValue = Missing | Files(entries: seq<FileEntry>) | Single(entry: FileEntry)

  datatype Details = Details(fileList: FileListValue)

  /** The webhook's `payload`: `sid`, `cname` and the optional `details`. */
  datatype Payload = Payload(sid: Option<string>, cname: Option<string>, details: Option<Details>)

  /** `payload.details?.fileList`. */
  function PayloadFileList(p: Payload): FileListValue {
    match p.details
    case None => Missing
    case Some(d) => d.fileList
  }

  /** `!fileList || fileList.length === 0`: an absent list or an empty array (an object has no
      length, so a single entry never counts as empty). */
  predicate NeedsFallback(v: FileListValue) {
    v.Missing? || (v.Files? && v.entries == [])
  }

  /** `Array.isArray(fileList) ? fileList : [fileList]`. */
  function AsArray(v: FileListValue): (files: seq<FileEntry>)
    requires !v.Missing?
  {
    match v
    case Files(entries) => entries
    case Single(entry) => [entry]
  }

  /** `file.fileName || file.filename || ""`. */
  function NameOf(e: FileEntry): string {
    Interpolate(Or(Or(e.fileName, e.filename), Some("")))
  }

  predicate IsMp4(e: FileEntry) {
    EndsWith(NameOf(e), ".mp4")
  }

  /** `files.find(...)` with the `.mp4` test, as the index of the entry found. */
  function FirstMp4(files: seq<FileEntry>): (found: Option<nat>)
    ensures found.Some? ==> found.value < |files| && IsMp4(files[found.value])
                            && forall j :: 0 <= j < found.value ==> !IsMp4(files[j])
    ensures found.None? ==> forall j :: 0 <= j < |files| ==> !IsMp4(files[j])
    decreases |files|
  {
    if files == [] then None
    else if IsMp4(files[0]) then Some(0)
    else
      match FirstMp4(files[1..])
      case None => None
      case Some(k) => Some(k + 1)
  }

  // ---- The query fallback, `getRecordingFilesFromQueryAPI` ----

  /** The Agora credentials the fallback reads from the environment. */
  datatype QueryEnv = QueryEnv(appId: Option<string>, customerId: Option<string>, customerSecret: Option<string>)

  datatype ServerResponse = ServerResponse(fileList: FileListValue)

  /** The query call's outcome: it threw (network or JSON error), answered non-ok, or answered ok
      with a body that may hold `serverResponse`. */
  datatype QueryReply = QueryThrew | QueryNotOk(status: int) | QueryOk(serverResponse: Option<ServerResponse>)

  /** The fallback's answer (`null` is None) and the URL it fetched, if it got that far. */
  datatype QueryResult = QueryResult(fileList: Option<FileListValue>, requested: Option<string>)

  /** The resource id `getResourceIdForSession` hands back for every session: a fixed placeholder,
      not a lookup. */
  const PlaceholderResourceId: string :=
    "8j7vMUXkKfQXGLiwHRgEE5ebUH1mfCCJwloA6dTT3hj1Xx85OWB-ZhrpNDxNzG_gG-0oGlgC76LcccXLKooD51pvoi-3JW7qA8kL0diwR8dDgXgRlvJSWLBvfYAOtVOnGtH-TozP0KFZWFZykg9BT_iAconbhvcuAoh90lW-YG-2iCsZ7pRq1W0iJOu03Nr54yOr0xm8LZG_VXGj11WEs_nH3UgG3L2tOOADzB03Tgc"

  /** `getResourceIdForSession`: the placeholder never reports a miss. */
  function ResourceIdForSession(sid: string): (resourceId: Option<string>)
    ensures Truthy(resourceId)
  {
    Some(PlaceholderResourceId)
  }

  function QueryUrl(appId: string, resourceId: string, sid: string): string {
    SessionUrl(appId, resourceId, sid, "query")
  }

  /** `getRecordingFilesFromQueryAPI`, given the resource id the lookup produced. */
  function QueryFiles(sid: string, lookup: Option<string>, env: QueryEnv, reply: QueryReply): QueryResult {
    if !Truthy(lookup) then QueryResult(None, None)
    else if !Truthy(env.appId) || !Truthy(env.customerId) || !Truthy(env.customerSecret) then QueryResult(None, None)
    else
      var url := Some(QueryUrl(env.appId.value, lookup.value, sid));
      match reply
      case QueryThrew => QueryResult(None, url)
      case QueryNotOk(_) => QueryResult(None, url)
      case QueryOk(response) =>
        if response.Some? && !response.value.fileList.Missing? then QueryResult(Some(response.value.fileList), url)
        else QueryResult(None, url)
  }

  // ---- The locator, the first half of `processAndUploadRecording` ----

  /** The file to relay. */
  datatype ResolvedFile = ResolvedFile(sid: string, fileName: string, downloadUrl: string)

  /** Why the relay returns before downloading anything. */
  datatype LocateError = MissingSid | NoFileList | NoMp4 | NoDownloadUrl

  datatype Located = Found(file: ResolvedFile) | Abort(reason: LocateError)

  /** The locator's result, whether the query fallback was consulted, and the URL it fetched. */
  datatype Location = Location(result: Located, consulted: bool, queryUrl: Option<string>)

  /** The first `.mp4` entry of a list, provided it has a download URL. */
  function Select(sid: string, v: FileListValue): Located
    requires !v.Missing?
  {
    var files := AsArray(v);
    match FirstMp4(files)
    case None => Abort(NoMp4)
    case Some(i) =>
      if !Truthy(files[i].downloadUrl) then Abort(NoDownloadUrl)
      else Found(ResolvedFile(sid, NameOf(files[i]), files[i].downloadUrl.value))
  }

  function Locate(payload: Payload, env: QueryEnv, reply: QueryReply): Location {
    if !Truthy(payload.sid) then Location(Abort(MissingSid), false, None)
    else
      var sid := payload.sid.value;
      var fromPayload := PayloadFileList(payload);
      if NeedsFallback(fromPayload) then
        var q := QueryFiles(sid, ResourceIdForSession(sid), env, reply);
        match q.fileList
        case None => Location(Abort(NoFileList), true, q.requested)
        case Some(v) => Location(Select(sid, v), true, q.requested)
      else Location(Select(sid, fromPayload), false, None)
  }
}
