/** Slash-separated strings: the vendor's REST URLs and the object-store paths are built by joining
    identifiers with '/'. When the identifiers hold no '/', the joined string determines them. */
module Paths {

  /** Two `head/tail` strings with slash-free heads are equal only when both parts are. */
  lemma HeadTailInjective(head1: string, tail1: string, head2: string, tail2: string)
    requires '/' !in head1 && '/' !in head2
    requires head1 + "/" + tail1 == head2 + "/" + tail2
    ensures head1 == head2 && tail1 == tail2
  {
    var s1, s2 := head1 + "/" + tail1, head2 + "/" + tail2;
    assert s1[|head1|] == '/' && forall k :: 0 <= k < |head1| ==> s1[k] == head1[k];
    assert s2[|head2|] == '/' && forall k :: 0 <= k < |head2| ==> s2[k] == head2[k];
    assert |head1| == |head2|;
    assert head1 == s1[..|head1|] && head2 == s2[..|head2|];
    assert tail1 == s1[|head1| + 1..] && tail2 == s2[|head2| + 1..];
  }

  /** Strings that agree after a common prefix agree. */
  lemma DropCommonPrefix(prefix: string, rest1: string, rest2: string)
    requires prefix + rest1 == prefix + rest2
    ensures rest1 == rest2
  {
    assert rest1 == (prefix + rest1)[|prefix|..];
    assert rest2 == (prefix + rest2)[|prefix|..];
  }

  /** The vendor's cloud-recording REST base, `https://api.agora.io/v1/apps/${appId}/cloud_recording`. */
  function CloudRecordingBase(appId: string): string {
    "https://api.agora.io/v1/apps/" + appId + "/cloud_recording"
  }

  /** The URL of a call addressed to one recording job:
      `<base>/resourceid/${resourceId}/sid/${sid}/mode/mix/<verb>`. */
  function SessionUrl(appId: string, resourceId: string, sid: string, verb: string): string {
    CloudRecordingBase(appId) + "/resourceid/" + resourceId + "/sid/" + sid + "/mode/mix/" + verb
  }

  /** A job URL determines the resource and the session it addresses: two calls to the same
      endpoint with slash-free identifiers hit the same URL exactly when they target the same job. */
  lemma SessionUrlInjective(appId: string, verb: string, resourceId1: string, sid1: string,
                            resourceId2: string, sid2: string)
    requires '/' !in resourceId1 && '/' !in sid1 && '/' !in resourceId2 && '/' !in sid2
    ensures SessionUrl(appId, resourceId1, sid1, verb) == SessionUrl(appId, resourceId2, sid2, verb)
        <==> resourceId1 == resourceId2 && sid1 == sid2
  {
    if SessionUrl(appId, resourceId1, sid1, verb) == SessionUrl(appId, resourceId2, sid2, verb) {
      var prefix := CloudRecordingBase(appId) + "/resourceid/";
      var tail := "/mode/mix/" + verb;
      assert SessionUrl(appId, resourceId1, sid1, verb) == prefix + (resourceId1 + "/" + ("sid/" + sid1 + tail));
      assert SessionUrl(appId, resourceId2, sid2, verb) == prefix + (resourceId2 + "/" + ("sid/" + sid2 + tail));
      DropCommonPrefix(prefix, resourceId1 + "/" + ("sid/" + sid1 + tail), resourceId2 + "/" + ("sid/" + sid2 + tail));
      HeadTailInjective(resourceId1, "sid/" + sid1 + tail, resourceId2, "sid/" + sid2 + tail);
      assert "sid/" + sid1 + tail == "sid/" + (sid1 + "/" + ("mode/mix/" + verb));
      assert "sid/" + sid2 + tail == "sid/" + (sid2 + "/" + ("mode/mix/" + verb));
      DropCommonPrefix("sid/", sid1 + "/" + ("mode/mix/" + verb), sid2 + "/" + ("mode/mix/" + verb));
      HeadTailInjective(sid1, "mode/mix/" + verb, sid2, "mode/mix/" + verb);
    }
  }
}
