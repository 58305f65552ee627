/** The string helpers and the HAL resource wrappers of rexos/service.go.

    A wrapper receives what the injected client call returned and turns it into either the
    body or a `{code, message}` status. */
module Service {
  import opened Wrappers
  import opened Codec
  import opened Http
  import opened Strings
  import RexClient

  // ------------------------------------------------------------------ string helpers

  /** The URL before its first `{`: HATEOAS links end in template parameters such as
      `{?projection}`. */
  function StripTemplateParameter(templateURL: string): (r: string)
    ensures '{' !in r
    ensures |r| <= |templateURL| && templateURL[..|r|] == r
    ensures |r| < |templateURL| ==> templateURL[|r|] == '{'
    ensures '{' !in templateURL ==> r == templateURL
  {
    SplitHead(templateURL, '{');
    Split(templateURL, '{')[0]
  }

  lemma StripTemplateParameterIdempotent(u: string)
    ensures StripTemplateParameter(StripTemplateParameter(u)) == StripTemplateParameter(u)
  {
  }

  /** Appending a template to a URL without `{` is undone by stripping. */
  lemma StripTemplateRoundTrip(url: string, template: string)
    requires '{' !in url
    ensures StripTemplateParameter(url + "{" + template) == url
  {
    IndexOfAfterPrefix(url, '{', template);
    assert url + "{" + template == url + ['{'] + template;
    SplitHead(url + "{" + template, '{');
    assert (url + "{" + template)[..|url|] == url;
  }

  /** The field of a HAL document a path names, as a string ("" when absent). */
  type JsonLookup = (Bytes, string) -> string

  /** The stripped self link of a HAL document. */
  function GetSelfLinkFromHal(json: Bytes, lookup: JsonLookup): (r: string)
    ensures '{' !in r
    ensures var link := lookup(json, "_links.self.href"); |r| <= |link| && link[..|r|] == r
  {
    StripTemplateParameter(lookup(json, "_links.self.href"))
  }

  /** The text between the first and the second `=` of a download link, "" when it has no `=`. */
  function GetHashFromDownloadLink(link: string): (r: string)
    ensures '=' !in r
    ensures '=' !in link ==> r == ""
  {
    var res := Split(link, '=');
    if |res| < 2 then "" else res[1]
  }

  /** The hash is what follows the first `=`, up to the next `=`. */
  lemma HashFollowsFirstEquals(link: string)
    requires '=' in link
    ensures var i := IndexOf(link, '=');
            GetHashFromDownloadLink(link) == Split(link[i + 1..], '=')[0]
  {
    SplitTail(link, '=');
  }

  /** Appending `=` and a hash to a link without `=` yields that hash back. */
  lemma HashRoundTrip(prefix: string, hash: string)
    requires '=' !in prefix && '=' !in hash
    ensures GetHashFromDownloadLink(prefix + "=" + hash) == hash
  {
    var link := prefix + "=" + hash;
    IndexOfAfterPrefix(prefix, '=', hash);
    assert link == prefix + ['='] + hash;
    HashFollowsFirstEquals(link);
    assert link[|prefix| + 1..] == hash;
    assert Split(hash, '=') == [hash];
  }

  /** The third `:`-separated field of a URN, or a 500 status when it has fewer than three. */
  function GetNumberFromUrn(urn: string): (r: Result<string, Status>)
    ensures r.Failure? ==> r.error == Status(StatusInternalServerError, "Cannot get number from urn ")
    ensures r.Success? ==> ':' !in r.value
  {
    var parts := Split(urn, ':');
    if |parts| < 3 then Failure(Status(StatusInternalServerError, "Cannot get number from urn "))
    else Success(parts[2])
  }

  /** The lookup fails exactly when the URN has fewer than two colons. */
  lemma UrnFailsOnFewColons(urn: string)
    ensures GetNumberFromUrn(urn).Failure? <==> Count(urn, ':') < 2
  {
    SplitCount(urn, ':');
  }

  /** A URN assembled from colon-free fields gives its third field back. */
  lemma UrnRoundTrip(fields: seq<string>)
    requires |fields| >= 3
    requires forall i :: 0 <= i < |fields| ==> ':' !in fields[i]
    ensures GetNumberFromUrn(Join(fields, ':')) == Success(fields[2])
  {
    SplitJoin(fields, ':');
  }

  lemma UrnExample()
    ensures GetNumberFromUrn("robotic-eyes:project:12345") == Success("12345")
  {
    var fields := ["robotic-eyes", "project", "12345"];
    assert Join(fields, ':') == "robotic-eyes:project:12345" by {
      assert Join(fields[2..], ':') == "12345";
      assert Join(fields[1..], ':') == "project:12345";
    }
    UrnRoundTrip(fields);
  }

  /** The parts of a parsed URL this model reads. */
  datatype Url = Url(scheme: string, path: string)

  /** The last path segment of an absolute link; "" for a link without a scheme or a path with
      no `/`. `None` stands for a link the parser rejects, on which the process exits. */
  function GetGUIDFromRexTagURL(link: string, parseURL: string -> Option<Url>): (r: Option<string>)
    ensures r.None? <==> parseURL(link).None?
    ensures r.Some? && parseURL(link).value.scheme == "" ==> r.value == ""
    ensures r.Some? ==> '/' !in r.value
    ensures r.Some? && '/' !in parseURL(link).value.path ==> r.value == ""
  {
    match parseURL(link)
    case None => None
    case Some(u) =>
      if u.scheme == "" then Some("")
      else
        var res := Split(u.path, '/');
        if |res| < 2 then Some("") else Some(res[|res| - 1])
  }

  /** A GUID is the path's final segment: a suffix of the path right after a `/`. */
  lemma GUIDIsLastSegment(link: string, parseURL: string -> Option<Url>)
    requires parseURL(link).Some? && parseURL(link).value.scheme != "" && '/' in parseURL(link).value.path
    ensures var g := GetGUIDFromRexTagURL(link, parseURL).value;
            var p := parseURL(link).value.path;
            |g| < |p| && p[|p| - |g|..] == g && p[|p| - |g| - 1] == '/'
  {
    var p := parseURL(link).value.path;
    SplitCount(p, '/');
    assert Count(p, '/') >= 1;
    SplitLast(p, '/');
  }

  lemma SplitExamplePath()
    ensures Split("/v1/xxx", '/') == ["", "v1", "xxx"]
  {
    var parts := ["", "v1", "xxx"];
    assert Join(parts, '/') == "/v1/xxx" by {
      assert Join(parts[2..], '/') == "xxx";
      assert Join(parts[1..], '/') == "v1/xxx";
    }
    SplitJoin(parts, '/');
  }

  /** The three links of the package's tests, read as Go's URL parser reads them: no scheme,
      an empty path, and a path ending in the GUID. */
  lemma GUIDExamples(parseURL: string -> Option<Url>)
    requires parseURL("hugo") == Some(Url("", "hugo"))
    requires parseURL("http://hugo") == Some(Url("http", ""))
    requires parseURL("https://rex.codes/v1/xxx?type=stub") == Some(Url("https", "/v1/xxx"))
    ensures GetGUIDFromRexTagURL("hugo", parseURL) == Some("")
    ensures GetGUIDFromRexTagURL("http://hugo", parseURL) == Some("")
    ensures GetGUIDFromRexTagURL("https://rex.codes/v1/xxx?type=stub", parseURL) == Some("xxx")
  {
    assert Split("", '/') == [""];
    SplitExamplePath();
  }

  // ------------------------------------------------------------------ HAL wrappers

  /** A wrapper's result: the body, or the status to hand to the caller. */
  type HalResult = Result<Bytes, Status>

  /** One wrapper call a workflow makes: a GET, or a PATCH with its payload. */
  datatype HalCall<P> = HalGet(resourceName: string, url: string) | HalPatch(resourceName: string, url: string, payload: P)

  /** Shared failure test of the wrappers: an error, or a code outside [200, 300). */
  predicate Failed(err: Option<RexClient.ClientError>, code: int) {
    err.Some? || !Is2xx(code)
  }

  /** `getHalResource` and `getHalResourceNoContext` over the reply of their GET call. */
  function GetHalResource(resourceName: string, reply: RexClient.GetReply): (r: HalResult)
    ensures r.Success? <==> reply.err.None? && Is2xx(reply.code)
    ensures r.Success? ==> r.value == reply.body
    ensures r.Failure? ==> r.error.code == reply.code && r.error.message == "Can not get resource " + resourceName
  {
    if Failed(reply.err, reply.code) then Failure(Status(reply.code, "Can not get resource " + resourceName))
    else Success(reply.body)
  }

  /** `createHalResource` over the reply of its POST call. */
  function CreateHalResource(resourceName: string, reply: RexClient.Reply): (r: HalResult)
    ensures r.Success? <==> reply.err.None? && Is2xx(reply.code)
    ensures r.Success? ==> r.value == reply.body
    ensures r.Failure? ==> r.error.code == reply.code && r.error.message == "Can not create resource " + resourceName
  {
    if Failed(reply.err, reply.code) then Failure(Status(reply.code, "Can not create resource " + resourceName))
    else Success(reply.body)
  }

  /** `patchHalResource` and `patchHalResourceNoContext` over the reply of their PATCH call. */
  function PatchHalResource(resourceName: string, reply: RexClient.Reply): (r: HalResult)
    ensures r.Success? <==> reply.err.None? && Is2xx(reply.code)
    ensures r.Success? ==> r.value == reply.body
    ensures r.Failure? ==> r.error.code == reply.code && r.error.message == "Can not modify resource " + resourceName
  {
    if Failed(reply.err, reply.code) then Failure(Status(reply.code, "Can not modify resource " + resourceName))
    else Success(reply.body)
  }

  /** `DeleteHalResource` over the reply of its DELETE call: `None` is success. */
  function DeleteHalResource(resourceName: string, reply: RexClient.Reply): (r: Option<Status>)
    ensures r.None? <==> reply.err.None? && Is2xx(reply.code)
    ensures r.Some? ==> r.value == Status(reply.code, "Can not delete resource " + resourceName)
  {
    if Failed(reply.err, reply.code) then Some(Status(reply.code, "Can not delete resource " + resourceName))
    else None
  }

  /** The name a download is reported under. */
  function DownloadName(fileName: string): (name: string)
    ensures name != ""
    ensures fileName != "" ==> name == fileName
  {
    if fileName == "" then "file.rex" else fileName
  }

  /** `DownloadFileContent` over the reply of its GET call: only exactly 200 is success. */
  function DownloadFileContent(reply: RexClient.GetReply): (r: HalResult)
    ensures r.Success? <==> reply.err.None? && reply.code == StatusOK
    ensures r.Success? ==> r.value == reply.body
    ensures r.Failure? ==> r.error == Status(reply.code, "Can not access file " + DownloadName(reply.fileName))
  {
    if reply.err.Some? || reply.code != StatusOK then
      Failure(Status(reply.code, "Can not access file " + DownloadName(reply.fileName)))
    else Success(reply.body)
  }

  // ------------------------------------------------------------------ wrappers over the client

  /** A GET resource read succeeds exactly when the first answer other than 408, within three
      tries, is a 2xx; the body is that answer's. */
  lemma GetHalResourceOverRetries(resourceName: string, t: seq<Response>)
    requires RexClient.Answered(t, RexClient.MaxTrials)
    ensures var n := RexClient.Attempts(t);
            var r := GetHalResource(resourceName, RexClient.GetOutcome(t));
            (r.Success? <==> Is2xx(t[n - 1].status)) &&
            (r.Success? ==> r.value == t[n - 1].body) &&
            (r.Failure? ==> r.error.code == t[n - 1].status)
  {
  }

  /** A create succeeds exactly when the POST got a 2xx: a 409, which the client passes on
      without error, and a transport failure, passed on as 500 without error, both fail. */
  lemma CreateHalResourceOverPost(resourceName: string, r: Response)
    ensures var h := CreateHalResource(resourceName, RexClient.PostOutcome(r));
            (h.Success? <==> r.Response? && Is2xx(r.status)) &&
            (r.TransportError? ==> h == Failure(Status(StatusInternalServerError, "Can not create resource " + resourceName))) &&
            (r.Response? && r.status == StatusConflict ==>
               RexClient.PostOutcome(r).err.None? && h == Failure(Status(StatusConflict, "Can not create resource " + resourceName)))
  {
  }

  /** A patch succeeds exactly when the PATCH got a 2xx. */
  lemma PatchHalResourceOverPatch(resourceName: string, r: Response)
    requires r.Response?
    ensures var h := PatchHalResource(resourceName, RexClient.PatchOutcome(r));
            (h.Success? <==> Is2xx(r.status)) && (h.Success? ==> h.value == r.body)
  {
  }

  /** A delete succeeds exactly when the first answer other than 408, within three tries, is a
      2xx; three 408s give a 408 status. */
  lemma DeleteHalResourceOverRetries(resourceName: string, t: seq<Response>)
    requires RexClient.Answered(t, RexClient.MaxTrials)
    ensures var n := RexClient.Attempts(t);
            var d := DeleteHalResource(resourceName, RexClient.DeleteOutcome(t));
            (d.None? <==> Is2xx(t[n - 1].status)) &&
            (d.Some? ==> d.value.code == t[n - 1].status)
  {
  }

  /** A 2xx other than 200 is a successful GET but a failed download. */
  lemma DownloadNeedsExactly200(body: Bytes)
    ensures GetHalResource("file", RexClient.GetReply("", body, 204, None)).Success?
    ensures DownloadFileContent(RexClient.GetReply("", body, 204, None))
         == Failure(Status(204, "Can not access file file.rex"))
  {
    assert "Can not access file " + "file.rex" == "Can not access file file.rex";
  }
}
