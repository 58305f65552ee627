/** HTTP vocabulary shared by the client and the resource wrappers: status codes, the
    `{code, message}` status record, requests with their header lists, and the abstract
    responses a transport hands back. */
module Http {
  import opened Wrappers
  import opened Codec

  const StatusOK := 200
  const StatusMultipleChoices := 300
  const StatusForbidden := 403
  const StatusNotFound := 404
  const StatusRequestTimeout := 408
  const StatusConflict := 409
  const StatusInternalServerError := 500

  /** The success range [200, 300). */
  predicate Is2xx(code: int) {
    StatusOK <= code < StatusMultipleChoices
  }

  /** The user-facing status of the `status` package: a code and a short message. */
  datatype Status = Status(code: int, message: string)

  /** One `Header.Add`; names are kept in Go's canonical form. */
  datatype Header = Header(name: string, value: string)

  datatype Verb = GET | POST | PATCH | DELETE

  datatype Request = Request(verb: Verb, url: string, headers: seq<Header>, body: Bytes)

  /** What the transport answers to one request: a status, the body read from it and the
      `filename` parameter of a `Content-Disposition` header when that header is present and
      parses; or a failure of the transport itself (no response at all). */
  datatype Response =
    | Response(status: int, body: Bytes, fileName: Option<string>)
    | TransportError

  predicate IsTimeout(r: Response) {
    r.Response? && r.status == StatusRequestTimeout
  }

  /** All values added under `name`, in the order they were added. */
  function Values(headers: seq<Header>, name: string): (vs: seq<string>)
    ensures |vs| <= |headers|
  {
    if headers == [] then []
    else (if headers[0].name == name then [headers[0].value] else []) + Values(headers[1..], name)
  }

  /** The value `h` contributes under `name`. */
  function Pick(h: Header, name: string): seq<string> {
    if h.name == name then [h.value] else []
  }

  lemma ValuesCons(h: Header, t: seq<Header>, name: string)
    ensures Values([h] + t, name) == Pick(h, name) + Values(t, name)
  {
    assert ([h] + t)[0] == h;
    assert ([h] + t)[1..] == t;
  }

  /** Adding headers in two steps adds the values of both steps. */
  lemma {:induction false} ValuesAppend(a: seq<Header>, b: seq<Header>, name: string)
    ensures Values(a + b, name) == Values(a, name) + Values(b, name)
  {
    if a == [] {
      assert a + b == b;
    } else {
      assert (a + b)[0] == a[0];
      assert (a + b)[1..] == a[1..] + b;
      ValuesAppend(a[1..], b, name);
      calc {
        Values(a + b, name);
        Pick(a[0], name) + Values(a[1..] + b, name);
        Pick(a[0], name) + (Values(a[1..], name) + Values(b, name));
        Values(a, name) + Values(b, name);
      }
    }
  }
}
