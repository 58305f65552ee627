/** The request executor and the credential façade of rexos/client.go.

    The network is replaced by a transport: a sequence of abstract responses, consumed one per
    request sent, so that "how many requests went out" and "which answer was returned" are
    observable. Go's `nil` and empty byte slices are both the empty sequence here. */
module RexClient {
  import opened Wrappers
  import opened Codec
  import opened Http
  import Strings

  /** The most requests GET and DELETE send for one call. */
  const MaxTrials: nat := 3

  type Uint64 = x: int | 0 <= x < 0x1_0000_0000_0000_0000

  /** Process configuration. `notApplyServiceUser` switches the service-user identity off. */
  datatype Config = Config(
    accessTokenURL: string,
    clientID: string,
    clientSecret: string,
    jwtSigningKey: string,
    basePathExtern: string,
    notApplyServiceUser: bool)

  /** The typed fields of the token endpoint's answer. */
  datatype JwtToken = JwtToken(
    accessToken: string,
    tokenType: string,
    expiresIn: Uint64,
    scope: string,
    jti: string)

  const ZeroToken := JwtToken("", "", 0, "", "")

  /** The fields a JSON document carries; absent ones are `None`. */
  datatype TokenFields = TokenFields(
    accessToken: Option<string>,
    tokenType: Option<string>,
    expiresIn: Option<Uint64>,
    scope: Option<string>,
    jti: Option<string>)

  /** What `json.Unmarshal` makes of a body: a syntax error writes nothing; otherwise the fields
      present are written, and `typeError` reports a field of the wrong JSON type (the others
      are still written). */
  datatype TokenDecoding = Malformed | Decoded(fields: TokenFields, typeError: bool)

  /** A document that carries none of the token's fields. */
  const NoFields := TokenFields(None, None, None, None, None)

  /** A document that carries every field of `u`. */
  function AllFields(u: JwtToken): TokenFields {
    TokenFields(Some(u.accessToken), Some(u.tokenType), Some(u.expiresIn), Some(u.scope), Some(u.jti))
  }

  /** Unmarshalling into an existing struct: present fields overwrite, absent ones are kept.
      A document without fields leaves the token as it was; a complete one replaces it
      whatever it was; and the access token and expiry are the document's when it carries
      them. */
  function Overlay(t: JwtToken, f: TokenFields): (r: JwtToken)
    ensures f == NoFields ==> r == t
    ensures forall u :: f == AllFields(u) ==> r == u
    ensures r.accessToken == f.accessToken.GetOr(t.accessToken)
    ensures r.expiresIn == f.expiresIn.GetOr(t.expiresIn)
  {
    JwtToken(
      f.accessToken.GetOr(t.accessToken),
      f.tokenType.GetOr(t.tokenType),
      f.expiresIn.GetOr(t.expiresIn),
      f.scope.GetOr(t.scope),
      f.jti.GetOr(t.jti))
  }

  /** Decoding the same document again changes nothing, and of two documents the later one
      wins on every field it carries. */
  lemma OverlayIdempotent(t: JwtToken, f: TokenFields, u: JwtToken)
    ensures Overlay(Overlay(t, f), f) == Overlay(t, f)
    ensures Overlay(Overlay(t, f), AllFields(u)) == u
  {
  }

  /** Reverse-proxy provenance of the inbound request. */
  datatype XForwarded = XForwarded(forwardedFor: string, host: string, port: string, prefix: string, proto: string)

  /** `XForwarded{For: ""}`, used by the variants that have no context. */
  const NoForwarding := XForwarded("", "", "", "", "")

  /** The per-request data a caller puts into the context. */
  datatype ContextData = ContextData(accessToken: string, userID: string, xf: XForwarded)

  /** The context argument: absent for the `NoContext` variants, otherwise a context that may
      or may not carry data. */
  datatype Ctx = NoContext | WithContext(data: Option<ContextData>)

  /** Whose credentials a call uses. */
  datatype Identity = ServiceUser | Caller

  /** The token and forwarding record a call is sent with. */
  datatype Credentials = Credentials(token: string, xf: XForwarded)

  datatype ClientError =
    | NoServiceUser
    | CannotGetHost
    | MissingToken
    | GetFailed(trials: nat)
    | PostTimedOut
    | PostFailed
    | PatchTimedOut
    | PatchFailed
    | DeleteFailed(trials: nat)

  /** The text of each error. */
  function Message(e: ClientError): string {
    match e
    case NoServiceUser => "No service user initialized"
    case CannotGetHost => "Cannot get host"
    case MissingToken => "Missing token in context"
    case GetFailed(n) => "Internal GET request failed after " + Strings.NatToString(n) + " trials"
    case PostTimedOut => "Internal POST request timed out"
    case PostFailed => "Internal POST request failed"
    case PatchTimedOut => "Internal PATCH request timed out"
    case PatchFailed => "Internal PATCH request failed"
    case DeleteFailed(n) => "Internal DELETE request failed after " + Strings.NatToString(n) + " trials"
  }

  /** GET's result: suggested file name, body, status code and error. */
  datatype GetReply = GetReply(fileName: string, body: Bytes, code: int, err: Option<ClientError>)

  /** POST, PATCH and DELETE's result: body, status code and error. */
  datatype Reply = Reply(body: Bytes, code: int, err: Option<ClientError>)

  // ------------------------------------------------------------------ header assembly

  /** The four forwarding headers, sent only on request; the prefix comes from configuration. */
  function ForwardingHeaders(xf: XForwarded, prefix: string, addXForwardedHeader: bool): seq<Header> {
    if addXForwardedHeader then
      [Header("X-Forwarded-Host", xf.host), Header("X-Forwarded-Port", xf.port),
       Header("X-Forwarded-Proto", xf.proto), Header("X-Forwarded-Prefix", prefix)]
    else []
  }

  function GetHeaders(token: string, xf: XForwarded, prefix: string, authenticate: bool, addXForwardedHeader: bool): seq<Header> {
    [Header("Content-Type", "application/json"), Header("Accept", "application/json"),
     Header("X-Requested-With", "XMLHttpRequest"), Header("X-Forwarded-For", xf.forwardedFor)]
    + ForwardingHeaders(xf, prefix, addXForwardedHeader)
    + (if authenticate then [Header("Authorization", token)] else [])
  }

  /** The headers of POST and PATCH. */
  function SendHeaders(contentType: string, token: string, xf: XForwarded, prefix: string, addXForwardedHeader: bool): seq<Header> {
    [Header("Content-Type", contentType), Header("Accept", "application/json"),
     Header("X-Requested-With", "XMLHttpRequest"), Header("Authorization", token),
     Header("X-Forwarded-For", xf.forwardedFor)]
    + ForwardingHeaders(xf, prefix, addXForwardedHeader)
  }

  /** DELETE sets `X-Requested-With` and `authorization` (which `Header.Add` canonicalises). */
  function DeleteHeaders(token: string): seq<Header> {
    [Header("X-Requested-With", "XMLHttpRequest"), Header("Authorization", token)]
  }

  lemma Values2(a: Header, b: Header, name: string)
    ensures Values([a, b], name) == Pick(a, name) + Pick(b, name)
  {
    ValuesCons(b, [], name);
    assert [a, b] == [a] + [b];
    ValuesCons(a, [b], name);
  }

  lemma Values4(a: Header, b: Header, c: Header, d: Header, name: string)
    ensures Values([a, b, c, d], name) == Pick(a, name) + Pick(b, name) + Pick(c, name) + Pick(d, name)
  {
    Values2(c, d, name);
    assert [b, c, d] == [b] + [c, d];
    ValuesCons(b, [c, d], name);
    assert [a, b, c, d] == [a] + [b, c, d];
    ValuesCons(a, [b, c, d], name);
  }

  lemma ForwardingValues(xf: XForwarded, prefix: string, add: bool)
    ensures var h := ForwardingHeaders(xf, prefix, add);
            Values(h, "X-Forwarded-Host") == (if add then [xf.host] else []) &&
            Values(h, "X-Forwarded-Port") == (if add then [xf.port] else []) &&
            Values(h, "X-Forwarded-Proto") == (if add then [xf.proto] else []) &&
            Values(h, "X-Forwarded-Prefix") == (if add then [prefix] else []) &&
            Values(h, "X-Forwarded-For") == [] && Values(h, "Authorization") == [] &&
            Values(h, "Content-Type") == []
  {
    if add {
      var a, b, c, d := Header("X-Forwarded-Host", xf.host), Header("X-Forwarded-Port", xf.port),
                        Header("X-Forwarded-Proto", xf.proto), Header("X-Forwarded-Prefix", prefix);
      Values4(a, b, c, d, "X-Forwarded-Host");
      Values4(a, b, c, d, "X-Forwarded-Port");
      Values4(a, b, c, d, "X-Forwarded-Proto");
      Values4(a, b, c, d, "X-Forwarded-Prefix");
      Values4(a, b, c, d, "X-Forwarded-For");
      Values4(a, b, c, d, "Authorization");
      Values4(a, b, c, d, "Content-Type");
    }
  }

  /** The header names the request builders send differ pairwise: the forwarding names share
      their third letter with no other name, and the rest differ in length or in that letter. */
  lemma HeaderNamesDistinct()
    ensures "X-Forwarded-Host" != "Content-Type" && "X-Forwarded-Host" != "Accept" && "X-Forwarded-Host" != "X-Requested-With" && "X-Forwarded-Host" != "Authorization" && "X-Forwarded-Host" != "X-Forwarded-For"
    ensures "X-Forwarded-Port" != "Content-Type" && "X-Forwarded-Port" != "Accept" && "X-Forwarded-Port" != "X-Requested-With" && "X-Forwarded-Port" != "Authorization" && "X-Forwarded-Port" != "X-Forwarded-For"
    ensures "X-Forwarded-Proto" != "Content-Type" && "X-Forwarded-Proto" != "Accept" && "X-Forwarded-Proto" != "X-Requested-With" && "X-Forwarded-Proto" != "Authorization" && "X-Forwarded-Proto" != "X-Forwarded-For"
    ensures "X-Forwarded-Prefix" != "Content-Type" && "X-Forwarded-Prefix" != "Accept" && "X-Forwarded-Prefix" != "X-Requested-With" && "X-Forwarded-Prefix" != "Authorization" && "X-Forwarded-Prefix" != "X-Forwarded-For"
    ensures "X-Forwarded-For" != "Content-Type" && "X-Forwarded-For" != "Accept" && "X-Forwarded-For" != "X-Requested-With"
    ensures "Authorization" != "Content-Type" && "Authorization" != "Accept" && "Authorization" != "X-Requested-With"
    ensures "Authorization" != "X-Forwarded-For" && "Content-Type" != "Accept" && "Content-Type" != "X-Requested-With"
  {
    assert "Content-Type"[2] == 'n' && "Accept"[2] == 'c' && "X-Requested-With"[2] == 'R' && "Authorization"[2] == 't';
    assert "X-Forwarded-Host"[2] == 'F' && "X-Forwarded-Port"[2] == 'F';
    assert "X-Forwarded-Proto"[2] == 'F' && "X-Forwarded-Prefix"[2] == 'F';
  }

  lemma GetHeadersValues(token: string, xf: XForwarded, prefix: string, authenticate: bool, add: bool, name: string)
    ensures Values(GetHeaders(token, xf, prefix, authenticate, add), name)
         == Pick(Header("Content-Type", "application/json"), name) + Pick(Header("Accept", "application/json"), name)
          + Pick(Header("X-Requested-With", "XMLHttpRequest"), name) + Pick(Header("X-Forwarded-For", xf.forwardedFor), name)
          + Values(ForwardingHeaders(xf, prefix, add), name)
          + (if authenticate then Pick(Header("Authorization", token), name) else [])
  {
    var a, b, c, d := Header("Content-Type", "application/json"), Header("Accept", "application/json"),
                      Header("X-Requested-With", "XMLHttpRequest"), Header("X-Forwarded-For", xf.forwardedFor);
    var fwd := ForwardingHeaders(xf, prefix, add);
    var auth := if authenticate then [Header("Authorization", token)] else [];
    ValuesAppend([a, b, c, d] + fwd, auth, name);
    ValuesAppend([a, b, c, d], fwd, name);
    Values4(a, b, c, d, name);
    ValuesCons(Header("Authorization", token), [], name);
  }

  /** A forwarding name gets, in a GET, exactly the values the forwarding headers give it. */
  lemma GetHeadersForwarded(token: string, xf: XForwarded, prefix: string, authenticate: bool, add: bool, name: string)
    requires name != "Content-Type" && name != "Accept" && name != "X-Requested-With"
    requires name != "X-Forwarded-For" && name != "Authorization"
    ensures Values(GetHeaders(token, xf, prefix, authenticate, add), name) == Values(ForwardingHeaders(xf, prefix, add), name)
  {
    GetHeadersValues(token, xf, prefix, authenticate, add, name);
    assert Pick(Header("Content-Type", "application/json"), name) == [];
    assert Pick(Header("Accept", "application/json"), name) == [];
    assert Pick(Header("X-Requested-With", "XMLHttpRequest"), name) == [];
    assert Pick(Header("X-Forwarded-For", xf.forwardedFor), name) == [];
    assert Pick(Header("Authorization", token), name) == [];
  }

  lemma GetForwardingSpec(token: string, xf: XForwarded, prefix: string, authenticate: bool, add: bool)
    ensures var h := GetHeaders(token, xf, prefix, authenticate, add);
            Values(h, "X-Forwarded-Host") == (if add then [xf.host] else []) &&
            Values(h, "X-Forwarded-Port") == (if add then [xf.port] else []) &&
            Values(h, "X-Forwarded-Proto") == (if add then [xf.proto] else []) &&
            Values(h, "X-Forwarded-Prefix") == (if add then [prefix] else [])
  {
    HeaderNamesDistinct();
    ForwardingValues(xf, prefix, add);
    GetHeadersForwarded(token, xf, prefix, authenticate, add, "X-Forwarded-Host");
    GetHeadersForwarded(token, xf, prefix, authenticate, add, "X-Forwarded-Port");
    GetHeadersForwarded(token, xf, prefix, authenticate, add, "X-Forwarded-Proto");
    GetHeadersForwarded(token, xf, prefix, authenticate, add, "X-Forwarded-Prefix");
  }

  lemma GetFixedSpec(token: string, xf: XForwarded, prefix: string, authenticate: bool, add: bool)
    ensures var h := GetHeaders(token, xf, prefix, authenticate, add);
            Values(h, "X-Forwarded-For") == [xf.forwardedFor] &&
            Values(h, "Authorization") == (if authenticate then [token] else [])
  {
    HeaderNamesDistinct();
    ForwardingValues(xf, prefix, add);
    assert Values(GetHeaders(token, xf, prefix, authenticate, add), "X-Forwarded-For") == [xf.forwardedFor] by {
      GetHeadersValues(token, xf, prefix, authenticate, add, "X-Forwarded-For");
    }
    assert Values(GetHeaders(token, xf, prefix, authenticate, add), "Authorization") == (if authenticate then [token] else []) by {
      GetHeadersValues(token, xf, prefix, authenticate, add, "Authorization");
    }
  }

  /** GET always forwards the client address; the other forwarding headers go only when asked
      for, and the token only when `authenticate` is set. */
  lemma GetHeadersSpec(token: string, xf: XForwarded, prefix: string, authenticate: bool, add: bool)
    ensures var h := GetHeaders(token, xf, prefix, authenticate, add);
            Values(h, "X-Forwarded-For") == [xf.forwardedFor] &&
            Values(h, "X-Forwarded-Host") == (if add then [xf.host] else []) &&
            Values(h, "X-Forwarded-Port") == (if add then [xf.port] else []) &&
            Values(h, "X-Forwarded-Proto") == (if add then [xf.proto] else []) &&
            Values(h, "X-Forwarded-Prefix") == (if add then [prefix] else []) &&
            Values(h, "Authorization") == (if authenticate then [token] else [])
  {
    GetFixedSpec(token, xf, prefix, authenticate, add);
    GetForwardingSpec(token, xf, prefix, authenticate, add);
  }


  lemma SendHeadersValues(contentType: string, token: string, xf: XForwarded, prefix: string, add: bool, name: string)
    ensures Values(SendHeaders(contentType, token, xf, prefix, add), name)
         == Pick(Header("Content-Type", contentType), name) + Pick(Header("Accept", "application/json"), name)
          + Pick(Header("X-Requested-With", "XMLHttpRequest"), name) + Pick(Header("Authorization", token), name)
          + Pick(Header("X-Forwarded-For", xf.forwardedFor), name)
          + Values(ForwardingHeaders(xf, prefix, add), name)
  {
    var a, b, c, d := Header("Content-Type", contentType), Header("Accept", "application/json"),
                      Header("X-Requested-With", "XMLHttpRequest"), Header("Authorization", token);
    var e := Header("X-Forwarded-For", xf.forwardedFor);
    var fwd := ForwardingHeaders(xf, prefix, add);
    ValuesAppend([a, b, c, d], [e], name);
    ValuesCons(e, [], name);
    assert [a, b, c, d, e] == [a, b, c, d] + [e];
    ValuesAppend([a, b, c, d, e], fwd, name);
    Values4(a, b, c, d, name);
  }

  /** A forwarding name gets, in a POST or PATCH, exactly the values the forwarding headers give it. */
  lemma SendHeadersForwarded(contentType: string, token: string, xf: XForwarded, prefix: string, add: bool, name: string)
    requires name != "Content-Type" && name != "Accept" && name != "X-Requested-With"
    requires name != "X-Forwarded-For" && name != "Authorization"
    ensures Values(SendHeaders(contentType, token, xf, prefix, add), name) == Values(ForwardingHeaders(xf, prefix, add), name)
  {
    SendHeadersValues(contentType, token, xf, prefix, add, name);
    assert Pick(Header("Content-Type", contentType), name) == [];
    assert Pick(Header("Accept", "application/json"), name) == [];
    assert Pick(Header("X-Requested-With", "XMLHttpRequest"), name) == [];
    assert Pick(Header("Authorization", token), name) == [];
    assert Pick(Header("X-Forwarded-For", xf.forwardedFor), name) == [];
  }

  lemma SendForwardingSpec(contentType: string, token: string, xf: XForwarded, prefix: string, add: bool)
    ensures var h := SendHeaders(contentType, token, xf, prefix, add);
            Values(h, "X-Forwarded-Host") == (if add then [xf.host] else []) &&
            Values(h, "X-Forwarded-Port") == (if add then [xf.port] else []) &&
            Values(h, "X-Forwarded-Proto") == (if add then [xf.proto] else []) &&
            Values(h, "X-Forwarded-Prefix") == (if add then [prefix] else [])
  {
    HeaderNamesDistinct();
    ForwardingValues(xf, prefix, add);
    SendHeadersForwarded(contentType, token, xf, prefix, add, "X-Forwarded-Host");
    SendHeadersForwarded(contentType, token, xf, prefix, add, "X-Forwarded-Port");
    SendHeadersForwarded(contentType, token, xf, prefix, add, "X-Forwarded-Proto");
    SendHeadersForwarded(contentType, token, xf, prefix, add, "X-Forwarded-Prefix");
  }

  lemma SendFixedSpec(contentType: string, token: string, xf: XForwarded, prefix: string, add: bool)
    ensures var h := SendHeaders(contentType, token, xf, prefix, add);
            Values(h, "Content-Type") == [contentType] &&
            Values(h, "Authorization") == [token] &&
            Values(h, "X-Forwarded-For") == [xf.forwardedFor]
  {
    HeaderNamesDistinct();
    ForwardingValues(xf, prefix, add);
    assert Values(SendHeaders(contentType, token, xf, prefix, add), "Content-Type") == [contentType] by {
      SendHeadersValues(contentType, token, xf, prefix, add, "Content-Type");
    }
    assert Values(SendHeaders(contentType, token, xf, prefix, add), "Authorization") == [token] by {
      SendHeadersValues(contentType, token, xf, prefix, add, "Authorization");
    }
    assert Values(SendHeaders(contentType, token, xf, prefix, add), "X-Forwarded-For") == [xf.forwardedFor] by {
      SendHeadersValues(contentType, token, xf, prefix, add, "X-Forwarded-For");
    }
  }

  /** POST and PATCH always send the token and the client address; the other forwarding
      headers only when asked for. */
  lemma SendHeadersSpec(contentType: string, token: string, xf: XForwarded, prefix: string, add: bool)
    ensures var h := SendHeaders(contentType, token, xf, prefix, add);
            Values(h, "Content-Type") == [contentType] &&
            Values(h, "Authorization") == [token] &&
            Values(h, "X-Forwarded-For") == [xf.forwardedFor] &&
            Values(h, "X-Forwarded-Host") == (if add then [xf.host] else []) &&
            Values(h, "X-Forwarded-Port") == (if add then [xf.port] else []) &&
            Values(h, "X-Forwarded-Proto") == (if add then [xf.proto] else []) &&
            Values(h, "X-Forwarded-Prefix") == (if add then [prefix] else [])
  {
    SendFixedSpec(contentType, token, xf, prefix, add);
    SendForwardingSpec(contentType, token, xf, prefix, add);
  }



  /** DELETE sends no forwarding header at all, only the token. */
  lemma DeleteHeadersSpec(token: string, name: string)
    ensures Values(DeleteHeaders(token), name) ==
      if name == "X-Requested-With" then ["XMLHttpRequest"]
      else if name == "Authorization" then [token]
      else []
  {
    Values2(Header("X-Requested-With", "XMLHttpRequest"), Header("Authorization", token), name);
  }

  // ------------------------------------------------------------------ retry policy

  /** The responses GET and DELETE consume are real responses (Go dereferences the response
      before looking at the transport error). */
  predicate Answered(transport: seq<Response>, n: nat) {
    n <= |transport| && forall i :: 0 <= i < n ==> transport[i].Response?
  }

  /** The number of 408 answers the transport gives before anything else. */
  function LeadingTimeouts(t: seq<Response>): (n: nat)
    ensures n <= |t|
  {
    if t == [] || !IsTimeout(t[0]) then 0 else 1 + LeadingTimeouts(t[1..])
  }

  /** The leading timeouts are exactly the timeouts before the first other answer. */
  lemma {:induction false} LeadingTimeoutsAt(t: seq<Response>, k: nat)
    requires k <= |t|
    requires forall i :: 0 <= i < k ==> IsTimeout(t[i])
    ensures k <= LeadingTimeouts(t)
    ensures k < |t| && !IsTimeout(t[k]) ==> LeadingTimeouts(t) == k
  {
    if k > 0 {
      assert IsTimeout(t[0]);
      forall i | 0 <= i < k - 1 ensures IsTimeout(t[1..][i]) {
        assert t[1..][i] == t[i + 1];
      }
      LeadingTimeoutsAt(t[1..], k - 1);
    }
  }

  /** Every answer counted by `LeadingTimeouts` is a 408. */
  lemma {:induction false} LeadingTimeoutsAreTimeouts(t: seq<Response>)
    ensures forall i :: 0 <= i < LeadingTimeouts(t) ==> IsTimeout(t[i])
    ensures LeadingTimeouts(t) < |t| ==> !IsTimeout(t[LeadingTimeouts(t)])
  {
    if t != [] && IsTimeout(t[0]) {
      LeadingTimeoutsAreTimeouts(t[1..]);
      forall i | 0 < i < LeadingTimeouts(t) ensures IsTimeout(t[i]) {
        assert t[i] == t[1..][i - 1];
      }
    }
  }

  /** The number of requests GET and DELETE send. */
  function Attempts(t: seq<Response>): (n: nat)
    ensures 1 <= n <= MaxTrials
  {
    var k := LeadingTimeouts(t);
    if k < MaxTrials then k + 1 else MaxTrials
  }

  /** The last file name any of the answers suggested, "" when none did. */
  function LastFileName(rs: seq<Response>): string {
    if rs == [] then ""
    else
      var r := rs[|rs| - 1];
      if r.Response? && r.fileName.Some? then r.fileName.value else LastFileName(rs[..|rs| - 1])
  }

  /** What GET returns for a transport. */
  function GetOutcome(t: seq<Response>): GetReply
    requires Answered(t, MaxTrials)
  {
    var n := Attempts(t);
    var last := t[n - 1];
    var name := LastFileName(t[..n]);
    if IsTimeout(last) then GetReply(name, [], StatusRequestTimeout, Some(GetFailed(n + 1)))
    else if !Is2xx(last.status) then GetReply(name, last.body, last.status, Some(GetFailed(n)))
    else GetReply(name, last.body, last.status, None)
  }

  /** What DELETE returns for a transport. */
  function DeleteOutcome(t: seq<Response>): Reply
    requires Answered(t, MaxTrials)
  {
    var n := Attempts(t);
    var last := t[n - 1];
    if IsTimeout(last) then Reply([], StatusRequestTimeout, Some(DeleteFailed(n + 1)))
    else if !Is2xx(last.status) then Reply(last.body, last.status, Some(DeleteFailed(n)))
    else Reply([], last.status, None)
  }

  /** GET and DELETE retry only on 408 and send at most `MaxTrials` requests. */
  lemma RetryOnlyOnTimeout(t: seq<Response>)
    requires Answered(t, MaxTrials)
    ensures 1 <= Attempts(t) <= MaxTrials
    ensures forall i :: 0 <= i < Attempts(t) - 1 ==> IsTimeout(t[i])
    ensures Attempts(t) < MaxTrials ==> !IsTimeout(t[Attempts(t) - 1])
  {
    LeadingTimeoutsAreTimeouts(t);
  }

  /** A first answer outside 408 on attempt `k + 1` ends the loop: a 2xx is a success, anything
      else a failure with that code, and no further request is sent. */
  lemma StopsAtFirstOtherAnswer(t: seq<Response>, k: nat)
    requires Answered(t, MaxTrials) && k < MaxTrials
    requires forall i :: 0 <= i < k ==> IsTimeout(t[i])
    requires t[k].status != StatusRequestTimeout
    ensures Attempts(t) == k + 1
    ensures var g := GetOutcome(t);
            g.code == t[k].status && g.body == t[k].body &&
            g.err == (if Is2xx(t[k].status) then None else Some(GetFailed(k + 1)))
    ensures var d := DeleteOutcome(t);
            d.code == t[k].status &&
            d.body == (if Is2xx(t[k].status) then [] else t[k].body) &&
            d.err == (if Is2xx(t[k].status) then None else Some(DeleteFailed(k + 1)))
  {
    LeadingTimeoutsAt(t, k);
  }

  /** Three 408 answers exhaust the retries: GET gives an empty body, DELETE an empty body,
      both 408 and an error that reports 4 trials. */
  lemma RetriesExhausted(t: seq<Response>)
    requires Answered(t, MaxTrials)
    requires forall i :: 0 <= i < MaxTrials ==> IsTimeout(t[i])
    ensures Attempts(t) == MaxTrials
    ensures GetOutcome(t) == GetReply(LastFileName(t[..MaxTrials]), [], StatusRequestTimeout, Some(GetFailed(4)))
    ensures DeleteOutcome(t) == Reply([], StatusRequestTimeout, Some(DeleteFailed(4)))
    ensures Message(GetFailed(4)) == "Internal GET request failed after 4 trials"
    ensures Message(DeleteFailed(4)) == "Internal DELETE request failed after 4 trials"
  {
    LeadingTimeoutsAt(t, MaxTrials);
  }

  /** What POST returns for the one answer it gets. */
  function PostOutcome(r: Response): (reply: Reply)
    ensures reply.err.None? <==> r.TransportError? || r.status == StatusConflict || Is2xx(r.status)
    ensures r.TransportError? ==> reply == Reply([], StatusInternalServerError, None)
    ensures r.Response? ==> reply.code == r.status
    ensures r.Response? && r.status != StatusRequestTimeout ==> reply.body == r.body
    ensures IsTimeout(r) ==> reply == Reply([], StatusRequestTimeout, Some(PostTimedOut))
  {
    match r
    case TransportError => Reply([], StatusInternalServerError, None)
    case Response(status, body, _) =>
      if status == StatusConflict then Reply(body, status, None)
      else if status == StatusRequestTimeout then Reply([], StatusRequestTimeout, Some(PostTimedOut))
      else if !Is2xx(status) then Reply(body, status, Some(PostFailed))
      else Reply(body, status, None)
  }

  /** What PATCH returns for the one answer it gets. */
  function PatchOutcome(r: Response): (reply: Reply)
    requires r.Response?
    ensures reply.err.None? <==> Is2xx(r.status)
    ensures reply.code == r.status
    ensures r.status != StatusRequestTimeout ==> reply.body == r.body
    ensures IsTimeout(r) ==> reply == Reply([], StatusRequestTimeout, Some(PatchTimedOut))
  {
    if r.status == StatusRequestTimeout then Reply([], StatusRequestTimeout, Some(PatchTimedOut))
    else if !Is2xx(r.status) then Reply(r.body, r.status, Some(PatchFailed))
    else Reply(r.body, r.status, None)
  }

  // ------------------------------------------------------------------ token refresh

  /** The next refresh comes 30 s before the token expires, but never sooner than 30 s. */
  function RefreshInterval(expiresIn: Uint64): (interval: Uint64)
    ensures interval >= 30
    ensures interval > 60 ==> interval + 30 == expiresIn
    ensures interval <= 60 ==> interval == 30 && expiresIn <= 90
  {
    if expiresIn > 30 && expiresIn - 30 > 60 then expiresIn - 30 else 30
  }

  lemma RefreshIntervalExamples()
    ensures RefreshInterval(3600) == 3570
    ensures RefreshInterval(40) == 30
    ensures RefreshInterval(90) == 30
    ensures RefreshInterval(91) == 61
    ensures RefreshInterval(0) == 30
  {
  }

  /** The `Authorization` value of the client-credentials grant (section 2 of RFC 7617). */
  function BasicAuthorization(clientID: string, clientSecret: string): string {
    "Basic " + Base64(Utf8(clientID + ":" + clientSecret))
  }

  /** The Basic header carries exactly `clientID:clientSecret`. */
  lemma BasicAuthorizationDecodes(clientID: string, clientSecret: string)
    ensures var h := BasicAuthorization(clientID, clientSecret);
            |h| >= 6 && h[..6] == "Basic " &&
            Base64Decode(h[6..]) == Some(Utf8(clientID + ":" + clientSecret)) &&
            Utf8Decode(Base64Decode(h[6..]).value) == Some(clientID + ":" + clientSecret)
  {
    var payload := Utf8(clientID + ":" + clientSecret);
    var h := BasicAuthorization(clientID, clientSecret);
    assert h[6..] == Base64(payload);
    Base64RoundTrip(payload);
    Utf8RoundTrip(clientID + ":" + clientSecret);
  }

  /** The form the token request posts. */
  const ClientCredentialsForm := "grant_type=client_credentials"

  /** The client-credentials grant request (section 4.4.2 of RFC 6749); its form is ASCII, so
      its bytes are its UTF-8 encoding (`AsciiIsUtf8`). */
  function TokenRequest(config: Config): Request {
    Request(POST, config.accessTokenURL,
      [Header("Content-Type", "application/x-www-form-urlencoded"),
       Header("Accept", "application/json"),
       Header("Authorization", BasicAuthorization(config.clientID, config.clientSecret))],
      AsciiBytes(ClientCredentialsForm))
  }

  /** The client shared by all services: its configuration and the cached service-user token. */
  class Client {
    var config: Config
    var serviceToken: JwtToken
    /** Whether the background refresh of the service-user token was started. */
    var refreshStarted: bool

    constructor(cfg: Config)
      ensures config == cfg && serviceToken == ZeroToken
      ensures refreshStarted == !cfg.notApplyServiceUser
    {
      config := cfg;
      serviceToken := ZeroToken;
      refreshStarted := !cfg.notApplyServiceUser;
    }

    /** The token and forwarding record of a call, or the reason it is refused with 403. */
    function CredentialsFor(who: Identity, ctx: Ctx): (r: Result<Credentials, ClientError>)
      reads this
      ensures who == ServiceUser && config.notApplyServiceUser ==> r == Failure(NoServiceUser)
      ensures who == ServiceUser && !config.notApplyServiceUser && ctx.WithContext? && ctx.data.None? ==>
                r == Failure(CannotGetHost)
      ensures who == Caller && r.Failure? ==> r == Failure(MissingToken)
      ensures r.Failure? <==>
                (who == ServiceUser && config.notApplyServiceUser) ||
                (ctx.WithContext? && ctx.data.None?) || (who == Caller && ctx.NoContext?)
      ensures r.Success? && who == ServiceUser ==> r.value.token == "Bearer " + serviceToken.accessToken
      ensures r.Success? && who == Caller ==> r.value.token == ctx.data.value.accessToken
      ensures r.Success? ==> r.value.xf == if ctx.NoContext? then NoForwarding else ctx.data.value.xf
    {
      match who
      case ServiceUser =>
        if config.notApplyServiceUser then Failure(NoServiceUser)
        else (match ctx
          case NoContext => Success(Credentials("Bearer " + serviceToken.accessToken, NoForwarding))
          case WithContext(None) => Failure(CannotGetHost)
          case WithContext(Some(d)) => Success(Credentials("Bearer " + serviceToken.accessToken, d.xf)))
      case Caller =>
        match ctx
        case WithContext(Some(d)) => Success(Credentials(d.accessToken, d.xf))
        case _ => Failure(MissingToken)
    }

    /** One client-credentials grant: the answer's body is unmarshalled into the cached token
        whatever its status code. A transport or body-read failure leaves the token alone. */
    method RefreshToken(response: Response, unmarshal: Bytes -> TokenDecoding) returns (req: Request, ok: bool)
      modifies this`serviceToken
      ensures req == TokenRequest(config)
      ensures response.TransportError? ==> !ok && serviceToken == old(serviceToken)
      ensures response.Response? ==>
        match unmarshal(response.body)
        case Malformed => !ok && serviceToken == old(serviceToken)
        case Decoded(fields, typeError) => ok == !typeError && serviceToken == Overlay(old(serviceToken), fields)
    {
      req := TokenRequest(config);
      if response.TransportError? {
        return req, false;
      }
      match unmarshal(response.body)
      case Malformed =>
        ok := false;
      case Decoded(fields, typeError) =>
        serviceToken := Overlay(serviceToken, fields);
        ok := !typeError;
    }

    /** GET with retries on 408. */
    method ExecuteGet(token: string, xf: XForwarded, query: string, authenticate: bool, addXForwardedHeader: bool,
                      transport: seq<Response>)
      returns (req: Request, sent: nat, reply: GetReply)
      requires Answered(transport, MaxTrials)
      ensures req == Request(GET, query, GetHeaders(token, xf, config.basePathExtern, authenticate, addXForwardedHeader), [])
      ensures sent == Attempts(transport)
      ensures reply == GetOutcome(transport)
    {
      req := Request(GET, query, GetHeaders(token, xf, config.basePathExtern, authenticate, addXForwardedHeader), []);
      var fileName := "";
      var trials := 0;
      while trials < MaxTrials
        invariant 0 <= trials <= MaxTrials
        invariant forall i :: 0 <= i < trials ==> IsTimeout(transport[i])
        invariant fileName == LastFileName(transport[..trials])
      {
        var resp := transport[trials];
        assert transport[..trials + 1][..trials] == transport[..trials];
        if resp.fileName.Some? {
          fileName := resp.fileName.value;
        }
        if resp.status == StatusRequestTimeout {
          trials := trials + 1;
          continue;
        }
        LeadingTimeoutsAt(transport, trials);
        if !Is2xx(resp.status) {
          return req, trials + 1, GetReply(fileName, resp.body, resp.status, Some(GetFailed(trials + 1)));
        }
        return req, trials + 1, GetReply(fileName, resp.body, resp.status, None);
      }
      LeadingTimeoutsAt(transport, trials);
      sent := trials;
      reply := GetReply(fileName, [], StatusRequestTimeout, Some(GetFailed(trials + 1)));
    }

    /** POST: exactly one request, never retried. */
    method ExecutePost(token: string, xf: XForwarded, query: string, payload: Bytes, contentType: string,
                       addXForwardedHeader: bool, transport: seq<Response>)
      returns (req: Request, sent: nat, reply: Reply)
      requires |transport| >= 1
      ensures req == Request(POST, query, SendHeaders(contentType, token, xf, config.basePathExtern, addXForwardedHeader), payload)
      ensures sent == 1
      ensures reply == PostOutcome(transport[0])
    {
      req := Request(POST, query, SendHeaders(contentType, token, xf, config.basePathExtern, addXForwardedHeader), payload);
      sent := 1;
      var resp := transport[0];
      if resp.TransportError? {
        return req, sent, Reply([], StatusInternalServerError, None);
      }
      if resp.status == StatusConflict {
        return req, sent, Reply(resp.body, resp.status, None);
      }
      if resp.status == StatusRequestTimeout {
        return req, sent, Reply([], StatusRequestTimeout, Some(PostTimedOut));
      }
      if !Is2xx(resp.status) {
        return req, sent, Reply(resp.body, resp.status, Some(PostFailed));
      }
      reply := Reply(resp.body, resp.status, None);
    }

    /** PATCH: exactly one request, never retried. */
    method ExecutePatch(token: string, xf: XForwarded, query: string, payload: Bytes, contentType: string,
                        addXForwardedHeader: bool, transport: seq<Response>)
      returns (req: Request, sent: nat, reply: Reply)
      requires Answered(transport, 1)
      ensures req == Request(PATCH, query, SendHeaders(contentType, token, xf, config.basePathExtern, addXForwardedHeader), payload)
      ensures sent == 1
      ensures reply == PatchOutcome(transport[0])
    {
      req := Request(PATCH, query, SendHeaders(contentType, token, xf, config.basePathExtern, addXForwardedHeader), payload);
      sent := 1;
      var resp := transport[0];
      if resp.status == StatusRequestTimeout {
        return req, sent, Reply([], StatusRequestTimeout, Some(PatchTimedOut));
      }
      if !Is2xx(resp.status) {
        return req, sent, Reply(resp.body, resp.status, Some(PatchFailed));
      }
      reply := Reply(resp.body, resp.status, None);
    }

    /** DELETE with retries on 408. */
    method ExecuteDelete(token: string, link: string, transport: seq<Response>)
      returns (req: Request, sent: nat, reply: Reply)
      requires Answered(transport, MaxTrials)
      ensures req == Request(DELETE, link, DeleteHeaders(token), [])
      ensures sent == Attempts(transport)
      ensures reply == DeleteOutcome(transport)
    {
      req := Request(DELETE, link, DeleteHeaders(token), []);
      var trials := 0;
      while trials < MaxTrials
        invariant 0 <= trials <= MaxTrials
        invariant forall i :: 0 <= i < trials ==> IsTimeout(transport[i])
      {
        var resp := transport[trials];
        if resp.status == StatusRequestTimeout {
          trials := trials + 1;
          continue;
        }
        LeadingTimeoutsAt(transport, trials);
        if !Is2xx(resp.status) {
          return req, trials + 1, Reply(resp.body, resp.status, Some(DeleteFailed(trials + 1)));
        }
        return req, trials + 1, Reply([], resp.status, None);
      }
      LeadingTimeoutsAt(transport, trials);
      sent := trials;
      reply := Reply([], StatusRequestTimeout, Some(DeleteFailed(trials + 1)));
    }

    /** GET as the service user or as the caller, with or without the forwarding headers
        (`GetWithServiceUser`, `Get`, `GetWithServiceUserNoXF`, `GetWithServiceUserNoXFNoContext`,
        `GetNoXF`). A refused call sends nothing and answers 403. */
    method Get(who: Identity, ctx: Ctx, query: string, authenticate: bool, addXForwardedHeader: bool,
               transport: seq<Response>)
      returns (req: Option<Request>, sent: nat, reply: GetReply)
      requires CredentialsFor(who, ctx).Success? ==> Answered(transport, MaxTrials)
      ensures match CredentialsFor(who, ctx)
        case Failure(e) => req == None && sent == 0 && reply == GetReply("", [], StatusForbidden, Some(e))
        case Success(c) =>
          req == Some(Request(GET, query, GetHeaders(c.token, c.xf, config.basePathExtern, authenticate, addXForwardedHeader), [])) &&
          sent == Attempts(transport) && reply == GetOutcome(transport)
    {
      match CredentialsFor(who, ctx)
      case Failure(e) =>
        return None, 0, GetReply("", [], StatusForbidden, Some(e));
      case Success(c) =>
        var r;
        r, sent, reply := ExecuteGet(c.token, c.xf, query, authenticate, addXForwardedHeader, transport);
        req := Some(r);
    }

    /** POST as the service user or as the caller (`PostWithServiceUser`, `Post`, `PostWithXF`,
        `PostWithServiceUserWithXF`). */
    method Post(who: Identity, ctx: Ctx, query: string, payload: Bytes, contentType: string,
                addXForwardedHeader: bool, transport: seq<Response>)
      returns (req: Option<Request>, sent: nat, reply: Reply)
      requires CredentialsFor(who, ctx).Success? ==> |transport| >= 1
      ensures match CredentialsFor(who, ctx)
        case Failure(e) => req == None && sent == 0 && reply == Reply([], StatusForbidden, Some(e))
        case Success(c) =>
          req == Some(Request(POST, query, SendHeaders(contentType, c.token, c.xf, config.basePathExtern, addXForwardedHeader), payload)) &&
          sent == 1 && reply == PostOutcome(transport[0])
    {
      match CredentialsFor(who, ctx)
      case Failure(e) =>
        return None, 0, Reply([], StatusForbidden, Some(e));
      case Success(c) =>
        var r;
        r, sent, reply := ExecutePost(c.token, c.xf, query, payload, contentType, addXForwardedHeader, transport);
        req := Some(r);
    }

    /** PATCH as the service user or as the caller (`PatchWithServiceUser`, `Patch`,
        `PatchWithServiceUserWithXF`, `PatchWithXF`, `PatchWithServiceUserNoContext`). */
    method Patch(who: Identity, ctx: Ctx, query: string, payload: Bytes, contentType: string,
                 addXForwardedHeader: bool, transport: seq<Response>)
      returns (req: Option<Request>, sent: nat, reply: Reply)
      requires CredentialsFor(who, ctx).Success? ==> Answered(transport, 1)
      ensures match CredentialsFor(who, ctx)
        case Failure(e) => req == None && sent == 0 && reply == Reply([], StatusForbidden, Some(e))
        case Success(c) =>
          req == Some(Request(PATCH, query, SendHeaders(contentType, c.token, c.xf, config.basePathExtern, addXForwardedHeader), payload)) &&
          sent == 1 && reply == PatchOutcome(transport[0])
    {
      match CredentialsFor(who, ctx)
      case Failure(e) =>
        return None, 0, Reply([], StatusForbidden, Some(e));
      case Success(c) =>
        var r;
        r, sent, reply := ExecutePatch(c.token, c.xf, query, payload, contentType, addXForwardedHeader, transport);
        req := Some(r);
    }

    /** DELETE as the service user or as the caller (`DeleteWithServiceUser`, `Delete`). The
        service-user variant never looks at the context. */
    method Delete(who: Identity, ctx: Ctx, link: string, transport: seq<Response>)
      returns (req: Option<Request>, sent: nat, reply: Reply)
      requires CredentialsFor(who, if who == ServiceUser then NoContext else ctx).Success? ==> Answered(transport, MaxTrials)
      ensures match CredentialsFor(who, if who == ServiceUser then NoContext else ctx)
        case Failure(e) => req == None && sent == 0 && reply == Reply([], StatusForbidden, Some(e))
        case Success(c) =>
          req == Some(Request(DELETE, link, DeleteHeaders(c.token), [])) &&
          sent == Attempts(transport) && reply == DeleteOutcome(transport)
    {
      match CredentialsFor(who, if who == ServiceUser then NoContext else ctx)
      case Failure(e) =>
        return None, 0, Reply([], StatusForbidden, Some(e));
      case Success(c) =>
        var r;
        r, sent, reply := ExecuteDelete(c.token, link, transport);
        req := Some(r);
    }
  }
}
