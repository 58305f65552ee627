# gococo rexos core in Dafny

This project models the `rexos` package of gococo. The package is the Go client library that
composite services use to reach the REX platform. The model covers these parts:

- **The REST client** (`rexos/client.go`). It holds the client configuration and the
  service-user token. The token is fetched with the OAuth 2.0 client-credentials grant (section
  4.4.2 of RFC 6749), using HTTP Basic credentials (section 2 of RFC 7617), and refreshed 30
  seconds before it expires. The client sends GET, POST, PATCH and DELETE requests with either
  the service user's token or the caller's token, with optional `X-Forwarded-*` headers. GET and
  DELETE are retried while the server answers 408 (section 15.5.9 of RFC 9110). Each answer
  becomes the status code, the body and an error with the library's own message.
- **The bearer-token middleware** (`rexos/token.go`). It picks the verification key from the
  token's `alg` (section 3.1 of RFC 7518). It decides whether a request is refused with 403,
  or passed on with the user id stored. It also implements the license-item check.
- **The HAL helpers** (`rexos/service.go`). They get, create, modify and delete resources on top
  of the client, download files, and take URLs, hashes, GUIDs and numbers apart.
- **The query builders** (`rexos/query.go`).
- **The user workflows** (`rexos/user.go`): read the user information, read the user's licenses
  and update the user information.
- **The project ownership transfer** (`rexos/project.go`).

Each Go file is one Dafny module: `RexClient`, `Token`, `Service`, `Query`, `User` and
`ProjectTransfer`. Four support modules sit below them:

- `Wrappers` holds `Option` and `Result`.
- `Strings` holds Go's `strings.Split` and `strings.Join` on one character, with their
  round trips.
- `Codec` holds UTF-8 encoding and standard base64 (section 4 of RFC 4648), with their round
  trips.
- `Http` holds status codes, requests with header lists, and transport answers.

What the model does not run stands in as parameters:

- **The network.** Every request is answered by the next element of a `transport` sequence. A
  `TransportError` means no response at all.
- **JSON and JWT decoding, URL and PKIX parsing.** These are function-typed parameters (oracles).

The client and the middleware's gin context are classes, because the Go code updates them in
place. The retry loop of `get` and `delete` and the license loop of `GetUserLicenses` are
`while` loops, proved against specification functions (`GetOutcome`, `DeleteOutcome`,
`FetchLicenses`).

Four places where the code's behaviour is easy to misread:

- When the token's header segment does not decode, `ValidateToken` returns without aborting.
  Gin then runs the protected handler with no user id stored. This is recorded under
  "## Findings"; the model's middleware refuses such a token with 403.
- `createHalResource` treats a 409 as a failure, even though `post` reports it without error.
- A failed POST transport is reported as 500 with no error.
- The HTTP status of the token endpoint's answer is never checked. The JSON body is overlaid onto
  the current token, even when decoding reports a type error.

## Model

| member | source | states |
|---|---|---|
| RexClient.Overlay | rexos/client.go:105-111 | A token answer that carries no field leaves the cached token as it was. One that carries every field of a token replaces the cached token by it, whatever it was. The access token and the expiry are the answer's whenever it carries them. |
| RexClient.OverlayIdempotent | rexos/client.go:105-111 | Decoding the same answer twice equals decoding it once. A later complete answer wins over any earlier one. |
| RexClient.Client.constructor | rexos/client.go:62-72 | A new client holds the configuration and a zero token. The refresh loop starts exactly when the service user is applied. |
| RexClient.Client.RefreshToken | rexos/client.go:74-113 | Sends a POST with Basic credentials and the client-credentials grant. Without a response the token is unchanged and the result is false. A body that is not JSON leaves the token unchanged and gives false. Otherwise the token becomes the decoded fields overlaid on the old token, whatever the status code, and the result is true exactly when decoding raised no type error. |
| Codec.AsciiIsUtf8 | rexos/client.go:80 | On ASCII text, one byte per character is exactly the UTF-8 encoding that Go's `[]byte` conversion produces. The token request's form `grant_type=client_credentials` is ASCII, and the model builds its bytes this way. |
| RexClient.RefreshInterval | rexos/client.go:126-131 | The next refresh comes at least 30 s from now, and 30 s before expiry whenever that is more than 60 s away. |
| RexClient.RefreshIntervalExamples | rexos/client.go:126-131 | Expiries of 3600, 91, 90, 40 and 0 seconds give 3570, 61, 30, 30 and 30 seconds. |
| RexClient.BasicAuthorizationDecodes | rexos/client.go:78-83 | The Authorization value is "Basic " followed by base64. The base64 part decodes back to the UTF-8 of `clientID:clientSecret`. |
| RexClient.Client.CredentialsFor | rexos/client.go:139-216 | The service user is refused with "No service user initialized" when it is not applied, and with "Cannot get host" when a context carries no data. A caller's call fails exactly when the context carries no data, and then with "Missing token in context". Otherwise the service user's token is "Bearer " plus its access token, the caller's token is the context's, and the forwarding data comes from the context. |
| RexClient.GetHeadersSpec | rexos/client.go:224-239 | A GET always forwards the client address. It carries the host, port, proto and prefix forwarding headers only when asked; the prefix is the configured external base path. It carries the token as Authorization only when authenticated. |
| RexClient.SendHeadersSpec | rexos/client.go:369-381 | A POST or PATCH carries exactly the given Content-Type, the token and the client address. The other forwarding headers go only when asked. |
| RexClient.DeleteHeadersSpec | rexos/client.go:587-589 | A DELETE carries only `X-Requested-With` and the token. It has no forwarding header. |
| RexClient.LeadingTimeoutsAreTimeouts | rexos/client.go:242-294 | The counted leading answers are all 408, and the answer after them is not. |
| RexClient.RetryOnlyOnTimeout | rexos/client.go:242-294 | GET and DELETE send between 1 and 3 requests. Every request but the last was answered 408. Fewer than 3 requests means the last was not a 408. |
| RexClient.StopsAtFirstOtherAnswer | rexos/client.go:276-291 | The first answer that is not a 408 ends the retries. A 2xx gives its body and no error; any other code gives an error carrying that code. |
| RexClient.RetriesExhausted | rexos/client.go:242-294 | Three 408s give status 408 and the messages "Internal GET request failed after 4 trials" and "Internal DELETE request failed after 4 trials". |
| RexClient.PostOutcome | rexos/client.go:383-425 | A POST reports no error exactly on 2xx, on 409, or when the transport failed. A transport failure gives 500. A 408 gives the timeout error and an empty body. Any other answer passes its code and body on. |
| RexClient.PatchOutcome | rexos/client.go:531-558 | A PATCH reports no error exactly on 2xx. A 408 gives the timeout error. Every other code and body is passed on. |
| RexClient.Client.ExecuteGet | rexos/client.go:222-295 | Sends the GET request with the GET headers. The number of requests and the reply are exactly those of the retry specification, including the last Content-Disposition file name. |
| RexClient.Client.ExecutePost | rexos/client.go:367-426 | Sends one POST request with the send headers and the payload. The reply is the POST outcome of the first answer. |
| RexClient.Client.ExecutePatch | rexos/client.go:515-559 | Sends one PATCH request with the send headers and the payload. The reply is the PATCH outcome of the first answer. |
| RexClient.Client.ExecuteDelete | rexos/client.go:585-629 | Sends the DELETE request with the delete headers. The number of requests and the reply are those of the retry specification. |
| RexClient.Client.Get | rexos/client.go:139-216 | The five GET variants. Missing credentials give their error and send nothing. Otherwise the request is sent with the chosen identity's token and forwarding data. |
| RexClient.Client.Post | rexos/client.go:298-361 | The four POST variants. Missing credentials give their error and send nothing. Otherwise the request is sent with the chosen identity's token and forwarding data. |
| RexClient.Client.Patch | rexos/client.go:429-509 | The five PATCH variants. Missing credentials give their error and send nothing. Otherwise the request is sent with the chosen identity's token and forwarding data. |
| RexClient.Client.Delete | rexos/client.go:562-582 | The two DELETE variants. The service-user variant never reads the context. |
| Token.GetKey | rexos/token.go:53-68 | HS256 yields the UTF-8 secret. RS256 yields the parsed RSA key when the key parses. Everything else yields no key. |
| Token.TokenString | rexos/token.go:74-84 | A non-empty Authorization header is the token. When the header is missing or empty, the token is the value stored under "authorization", or "" when nothing is stored. |
| Token.BearerPrefix | rexos/token.go:86-94 | Splitting at spaces yields a first piece that lower-cases to "bearer" with a space after it exactly for tokens in bearer form. The second piece is then the raw token, possibly empty. A lone "bearer" has no space. |
| Token.DecideAsWritten | rexos/token.go:72-141 | The code as written lets the protected handler run exactly for a bearer token whose header segment does not decode, or whose valid claims pass the license validator. It panics exactly for a lone "bearer" (any case), and for a bearer token whose header has no string `alg`. |
| Token.Decide | rexos/token.go:72-141 | Never panics and never lets a request through without a verdict. A token not of the form "bearer " (any case) plus the rest is refused. A request is authorized exactly when its raw token names an algorithm, parses into valid claims with that algorithm's key, and the license validator accepts the claims. It is denied exactly when the claims are valid but the validator refuses them. The user id stored is the claims'. Wherever the code neither panics nor falls through, the decision is the code's. |
| Token.BareBearerPanics | rexos/token.go:86-94 | "Bearer" with no token panics as written and is refused with 403 when corrected. |
| Token.MissingAlgPanics | rexos/token.go:98-108 | A bearer token whose header has no string `alg` panics as written and is refused when corrected. |
| Token.UndecodableHeaderPasses | rexos/token.go:98-107 | A bearer token whose header segment does not decode: as written the middleware returns without aborting, so the protected handler runs with no user id. As corrected it is refused. |
| Token.UnknownAlgorithmRejected | rexos/token.go:53-68 | A bearer token whose `alg` is neither HS256 nor RS256 gets no key. Since the JWT library accepts no token against no key, it is refused, both as written and as corrected. |
| Token.ClaimsContainCompositeName | rexos/token.go:162-173 | True for an empty name. Otherwise true exactly when some license item's key equals the name. |
| Token.LicenseScenario | rexos/token.go:120-137 | A valid token whose claims hold the composite's license item is authorized. A demanded item the claims lack is denied, with the user id stored. A service that demands no item lets it pass. Under another shared secret the token is rejected (`ScenarioSecretOther`, for every other secret). |
| Token.ValidateToken | rexos/token.go:72-141 | A refusal aborts with 403 and stores nothing. A denial stores the user id and aborts with 403. An authorization stores the user id and calls `Next`. On a context not yet aborted, the protected handler runs exactly when the decision lets the request through. The headers are not changed. |
| Service.StripTemplateParameter | rexos/service.go:43-45 | The result is the longest prefix of the URL without '{'. A URL without a template is returned unchanged. |
| Service.StripTemplateParameterIdempotent | rexos/service.go:43-45 | Stripping twice equals stripping once. |
| Service.StripTemplateRoundTrip | rexos/service.go:41-45 | A URL followed by a template parameter strips back to the URL. |
| Service.GetSelfLinkFromHal | rexos/service.go:49-51 | The self link is the template-free prefix of `_links.self.href`. |
| Service.GetHashFromDownloadLink | rexos/service.go:465-474 | The hash contains no '='. A link without '=' has the empty hash. |
| Service.HashFollowsFirstEquals | rexos/service.go:465-474 | The hash is the text between the first '=' and the next '='. |
| Service.HashRoundTrip | rexos/service.go:463-474 | `prefix=hash` gives back the hash. |
| Service.GetNumberFromUrn | rexos/service.go:500-510 | Fails only with 500 "Cannot get number from urn ". A number contains no ':'. |
| Service.UrnFailsOnFewColons | rexos/service.go:500-508 | Fails exactly when the URN has fewer than two ':'. |
| Service.UrnRoundTrip | rexos/service.go:499-510 | The URN joined from three or more colon-free fields gives back the third field. |
| Service.UrnExample | rexos/service.go:499 | "robotic-eyes:project:12345" gives "12345". |
| Service.GetGUIDFromRexTagURL | rexos/service.go:478-497 | The process exits exactly when the URL does not parse. A URL without a scheme gives "". A path with no '/' (a split into fewer than two parts) gives "". The GUID never contains '/'. |
| Service.GUIDIsLastSegment | rexos/service.go:491-496 | With a scheme and a '/' in the path, the GUID is the path's last segment: a suffix of the path that follows its last '/'. |
| Service.GUIDExamples | rexos/service_test.go:5-24 | "hugo" and "http://hugo" give "", and "https://rex.codes/v1/xxx?type=stub" gives "xxx". |
| Service.GetHalResource | rexos/service.go:98-157 | Succeeds exactly on 2xx without error, with the body. Otherwise the status carries the code and "Can not get resource " plus the name. |
| Service.CreateHalResource | rexos/service.go:182-211 | Succeeds exactly on 2xx without error. Otherwise the status carries the code and "Can not create resource ". |
| Service.PatchHalResource | rexos/service.go:239-300 | Succeeds exactly on 2xx without error. Otherwise the status carries the code and "Can not modify resource ". |
| Service.DeleteHalResource | rexos/service.go:303-324 | No status exactly on 2xx without error. Otherwise the code and "Can not delete resource ". |
| Service.DownloadName | rexos/service.go:330-333 | The file name, or "file.rex" when none was given. The result is never empty. |
| Service.DownloadFileContent | rexos/service.go:327-350 | Succeeds exactly on 200 without error. Otherwise the status carries "Can not access file " plus the download name. |
| Service.GetHalResourceOverRetries | rexos/service.go:98-125 | A read succeeds exactly when the first answer other than 408, within three tries, is a 2xx, and yields that answer's body. |
| Service.CreateHalResourceOverPost | rexos/service.go:182-211 | A create succeeds exactly on a 2xx answer. A 409 fails with 409, although the client reports no error. A transport failure fails with 500. |
| Service.PatchHalResourceOverPatch | rexos/service.go:239-268 | A patch succeeds exactly on a 2xx answer, with its body. |
| Service.DeleteHalResourceOverRetries | rexos/service.go:303-324 | A delete succeeds exactly when the first answer other than 408 is a 2xx. Otherwise it reports that code. |
| Service.DownloadNeedsExactly200 | rexos/service.go:341-347 | A 204 is a successful read but a failed download. |
| Query.QueryFindByKey | rexos/query.go:4-6 | The query is the base, then "/search/findByKey?key=", then the key, with nothing else. |
| Query.QueryFindByUrn | rexos/query.go:9-11 | The query is the base, then "/search/findByUrn?urn=", then the URN, with nothing else. |
| Query.QueryFindByParentReferenceAndCategory | rexos/query.go:14-16 | The query is the base, "/search/findAllByParentReferenceAndCategory?parentReference=", the parent, "&category=" and the category, with nothing else. |
| Query.QueryGetPage | rexos/query.go:19-21 | The query is the base, then "?page=", then the page, with nothing else. |
| Query.QueriesDetermineArguments | rexos/query.go:4-21 | For a fixed base, the key, URN and page queries are one-to-one in their argument. |
| Query.ParentCategoryAmbiguous | rexos/query.go:14-16 | Without escaping, two different parent/category pairs build the same query. |
| User.GetUserInformation | rexos/user.go:69-114 | Reads the current user, then the user resource (template stripped), then the description. The first failure ends the workflow with its code and that step's message and no information. On success the information is the description decoded over the user resource. |
| User.FetchLicensesSucceeds | rexos/user.go:171-193 | Fetching succeeds exactly when every license resource answers. Then there is one license per embedded entry, in order, each named by its resource. |
| User.FetchLicensesStopsAtFailure | rexos/user.go:171-193 | A failed fetch stops at the first license resource that fails, having requested the resources of the entries before it. |
| User.FetchFailureIsFinal | rexos/user.go:171-193 | Once a prefix of the entries has failed, later entries change nothing. |
| User.FetchEach | rexos/user.go:171-193 | The loop requests exactly the links and returns exactly the result of the fetch specification. |
| User.GetUserLicenses | rexos/user.go:146-194 | Reads the current user, then the license list, then each license in order. Each failure gives its own message and no licenses. |
| User.MergeAddress | rexos/user.go:232-262 | Each address field of the result is the provided one, or else the stored one. |
| User.MergeAddressField | rexos/user.go:233-262 | After one field merge, the update and the description both hold the provided value, or else the stored one. |
| User.MergeDescriptionSpec | rexos/user.go:228-269 | Company, uid and each address field are the provided ones, or else the stored ones. The returned address equals the description's, and nothing else in the update changes. |
| User.MergeIdempotent | rexos/user.go:228-269 | Merging the merged update into the description it produced changes nothing. |
| User.MergeIntoDescription | rexos/user.go:228-269 | The description PATCH and the returned information are those of the merge specification. |
| User.InfoPatchSpec | rexos/user.go:285-303 | Names and e-mail go into the user PATCH, with "" for missing ones. The returned information agrees with the PATCH. |
| User.CompleteUserInfo | rexos/user.go:285-303 | The user PATCH and the returned information are those of the patch specification. |
| User.UpdateUserInformation | rexos/user.go:197-316 | Reads the current user and the description, then PATCHes the merged description, then the user's names and e-mail. The first failure ends the workflow with its step's message. The returned information reflects every completed step. |
| ProjectTransfer.OwnerLookups | rexos/project.go:44-50 | The owner is looked up by e-mail. The username lookup is made exactly when the e-mail lookup answered 404. |
| ProjectTransfer.TransferProject | rexos/project.go:26-100 | Finds the project by URN, then the new owner. An unchanged owner sends no PATCH. Otherwise the owner becomes the user's `userId`, and the project is PATCHed at its self link. Each failure gives its own status. |

## Left out

- Network I/O, logging, the `http.Client` timeout and reading response bodies. A failed body
  read is not modelled: the body is part of each transport answer.
- The background token-refresh goroutine, its cron-like waiting and the mutex. `RefreshInterval`
  and `RefreshToken` model one round of it.
- A missing response in `get`, `patch` and `delete`. The Go code dereferences the nil response
  and panics, so `Answered` is a precondition of those methods.
- Signature checking, JSON decoding, base64url, `url.Parse`, `mime.ParseMediaType` and PKIX key
  parsing. These are oracles passed in as parameters.
- `getFile` and `GetFileWithServiceUser`, the upload helpers, `GetUserStatistics`, and the
  `status` package's parsing of error bodies. A status is modelled as a code and a message.
- Token.GetKey: a PKIX key that is not RSA fails Go's type assertion. The key oracle yields only
  RSA keys, so that panic is not modelled.
- Token.ClaimsContainCompositeName: the item is taken as a string. The type assertion on the
  `interface{}` argument is not modelled.
- User.UpdateUserInformation: the Go code also writes the merged address through the caller's
  `*Address` pointer. That aliasing is not modelled; only the returned value is.
- Errors of `json.Unmarshal` that the user and project workflows ignore. The decoders are total
  functions.
- The `user_id`, `user_name` and `user_display_name` fields of the token answer, which no code
  reads.
- Each backend answers a HAL call as a function of the call alone. Two identical calls, such as
  the GETs of two license entries that share a link, are assumed to get the same answer; the
  real server may answer them differently.
- A caller identity without any context has no Go variant. The model treats it like a context
  without data.
- Service.GetGUIDFromRexTagURL: `log.Fatal` ends the process. This is modelled as a `None`
  result.
- Strings.AsciiLower stands in for `strings.ToLower` when checking the bearer scheme. The two
  agree on that comparison, since no non-ASCII character lower-cases to b, e, a or r.
- The service-test examples with full GUIDs. The shorter `/v1/xxx` path covers the same logic.

## Findings

| source | as written | input that shows it | evidently intended | confidence | as-written member | corrected member |
|---|---|---|---|---|---|---|
| rexos/token.go:86-94 | `split[1]` is read without checking that the token has a second field | the header `Authorization: Bearer` (lemma `Token.BareBearerPanics`) | refuse the request with 403 | high; not executed | Token.DecideAsWritten | Token.Decide |
| rexos/token.go:104-108 | `token.Header["alg"].(string)` is an unchecked type assertion | a bearer token whose decoded header has no string `alg` (lemma `Token.MissingAlgPanics`) | refuse the request with 403 | high; not executed | Token.DecideAsWritten | Token.Decide |
| rexos/token.go:98-107 | when the header segment does not decode, the middleware logs and returns without aborting, so gin runs the protected handler with no user id stored | a bearer token whose first segment is not valid base64url (lemma `Token.UndecodableHeaderPasses`) | refuse the request with 403, like every other rejection path | high; not executed | Token.DecideAsWritten | Token.Decide |
