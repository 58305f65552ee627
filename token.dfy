/** Bearer-token validation middleware of rexos/token.go.

    Signature verification and JSON decoding are outside this model: the JOSE header reader,
    the PKIX key parser and the JWT parser are function parameters. */
module Token {
  import opened Wrappers
  import opened Codec
  import opened Http
  import opened Strings

  /** The header, and the context key, the token is looked up under. */
  const AuthorizationKey := "authorization"
  /** The context key the validated user id is stored under. */
  const KeyUserID := "UserID"

  datatype LicenseItem = LicenseItem(key: string, valueBoolean: bool, valueLong: int)

  /** The custom claims of a token: storage quota, license items, user id and expiry. */
  datatype CustomClaims = CustomClaims(maxStorage: int, licenseItems: seq<LicenseItem>, userID: string, expiresAt: int)

  datatype PublicKey = RsaPublicKey(modulus: nat, exponent: nat)

  /** The key a token is verified with; `NoKey` is Go's nil key, which no signature verifies against. */
  datatype Key = NoKey | Secret(bytes: Bytes) | Rsa(pub: PublicKey)

  /** The JOSE header of a token, as far as validation reads it: the first segment did not
      decode (or was not a JSON object), carried no string `alg`, or named an algorithm. */
  datatype JoseHeader = Undecodable | NoStringAlg | Alg(name: string)

  /** What the JWT library makes of a token and a key. */
  datatype Parsed = ParseError | Parsed(claims: CustomClaims, valid: bool)

  /** HS256 verifies with the configured secret, RS256 with the configured public key when it
      parses (section 3.1 of RFC 7518); every other algorithm gets no key. */
  function GetKey(alg: string, signingKey: string, signingPublicKey: Bytes, parsePKIX: Bytes -> Option<PublicKey>): (k: Key)
    ensures k.Secret? <==> alg == "HS256"
    ensures k.Secret? ==> k.bytes == Utf8(signingKey)
    ensures k.Rsa? <==> alg == "RS256" && parsePKIX(signingPublicKey).Some?
    ensures k.Rsa? ==> Some(k.pub) == parsePKIX(signingPublicKey)
  {
    if alg == "HS256" then Secret(Utf8(signingKey))
    else if alg == "RS256" then
      match parsePKIX(signingPublicKey)
      case None => NoKey
      case Some(pub) => Rsa(pub)
    else NoKey
  }

  /** What the middleware does with a request. */
  datatype Verdict =
    | Rejected            // aborted with 403 before any claim was read
    | Ignored             // returned without aborting or storing a user id: the handler runs
    | Denied(userID: string)      // user id stored, then aborted with 403
    | Authorized(userID: string)  // user id stored, then passed on
    | Panicked            // the handler panicked

  /** Whether the protected handler runs: gin goes on with the handler chain whenever a
      middleware returns without aborting, whether or not it called `Next`. */
  predicate PassesOn(v: Verdict) {
    v.Authorized? || v.Ignored?
  }

  /** The token of a request: the `Authorization` header, else the value a composite service
      stored in the context under `authorization`. */
  function TokenString(headers: seq<Header>, keys: map<string, string>): (t: string)
    ensures Values(headers, "Authorization") != [] && Values(headers, "Authorization")[0] != "" ==>
              t == Values(headers, "Authorization")[0]
    ensures (Values(headers, "Authorization") == [] || Values(headers, "Authorization")[0] == "") ==>
              t == (if AuthorizationKey in keys then keys[AuthorizationKey] else "")
  {
    var fromHeader := if Values(headers, "Authorization") == [] then "" else Values(headers, "Authorization")[0];
    if fromHeader != "" then fromHeader
    else if AuthorizationKey in keys then keys[AuthorizationKey] else ""
  }

  /** "bearer" in any letter case, a space, then the rest of the token (possibly empty). */
  predicate BearerForm(t: string) {
    |t| > 6 && AsciiLower(t[..6]) == "bearer" && t[6] == ' '
  }

  /** The token the JWT library is given: the text after the scheme up to the next space. */
  function RawToken(t: string): string
    requires BearerForm(t)
  {
    Split(t[7..], ' ')[0]
  }

  /** The JOSE header of a raw token, read from its first dot-separated segment. */
  function HeaderOf(raw: string, readHeader: string -> JoseHeader): JoseHeader {
    readHeader(Split(raw, '.')[0])
  }

  /** The claims of a raw token whose header names an algorithm and which the JWT library
      accepts as valid with the key chosen for that algorithm; none otherwise. */
  function ValidClaims(raw: string, signingKey: string, signingPublicKey: Bytes,
                       readHeader: string -> JoseHeader, parsePKIX: Bytes -> Option<PublicKey>,
                       parse: (string, Key) -> Parsed): Option<CustomClaims>
  {
    match HeaderOf(raw, readHeader)
    case Alg(alg) =>
      (match parse(raw, GetKey(alg, signingKey, signingPublicKey, parsePKIX))
       case Parsed(claims, valid) => if valid then Some(claims) else None
       case ParseError => None)
    case _ => None
  }

  /** A string that lower-cases to "bearer" contains no space. */
  lemma LowerBearerHasNoSpace(s: string)
    requires AsciiLower(s) == "bearer"
    ensures ' ' !in s
  {
    assert ' ' !in "bearer";
    forall k | 0 <= k < |s| ensures s[k] != ' ' {
      assert AsciiLower(s)[k] == "bearer"[k];
    }
  }

  /** A token in bearer form has its first space right after the scheme. */
  lemma BearerFormSplit(t: string)
    requires BearerForm(t)
    ensures ' ' in t && IndexOf(t, ' ') == 6
    ensures Split(t, ' ')[0] == t[..6] && |Split(t, ' ')| >= 2 && Split(t, ' ')[1] == RawToken(t)
  {
    LowerBearerHasNoSpace(t[..6]);
    assert t == t[..6] + [' '] + t[7..];
    IndexOfAfterPrefix(t[..6], ' ', t[7..]);
    SplitHead(t, ' ');
    SplitTail(t, ' ');
  }

  /** A first piece that lower-cases to "bearer", followed by a space, means bearer form. */
  lemma SplitSchemeIsBearerForm(t: string)
    requires ' ' in t && AsciiLower(Split(t, ' ')[0]) == "bearer"
    ensures BearerForm(t)
  {
    var i := IndexOf(t, ' ');
    SplitHead(t, ' ');
    assert |AsciiLower(t[..i])| == i == 6;
    assert t[..6] == t[..i];
  }

  /** How splitting at spaces sees the scheme: the first piece lower-cases to "bearer" and is
      followed by a space exactly for tokens in bearer form, whose second piece is then the raw
      token; a token without a space is a single piece. */
  lemma {:induction false} BearerPrefix(t: string)
    ensures (' ' in t && AsciiLower(Split(t, ' ')[0]) == "bearer") <==> BearerForm(t)
    ensures ' ' in t ==> |Split(t, ' ')| >= 2
    ensures BearerForm(t) ==> Split(t, ' ')[1] == RawToken(t)
    ensures ' ' !in t ==> Split(t, ' ') == [t]
    ensures AsciiLower(t) == "bearer" ==> ' ' !in t
  {
    if ' ' in t {
      SplitTail(t, ' ');
      if AsciiLower(Split(t, ' ')[0]) == "bearer" {
        SplitSchemeIsBearerForm(t);
      }
    }
    if BearerForm(t) {
      BearerFormSplit(t);
    }
    if AsciiLower(t) == "bearer" {
      LowerBearerHasNoSpace(t);
    }
  }

  /** The decision as the code is written, including its two panics (a lone scheme indexes a
      missing field, a header without a string `alg` fails a type assertion) and its fall-through
      on an undecodable header, which lets the request through unauthenticated. */
  function DecideAsWritten<I>(tokenString: string, signingKey: string, signingPublicKey: Bytes,
                              readHeader: string -> JoseHeader, parsePKIX: Bytes -> Option<PublicKey>,
                              parse: (string, Key) -> Parsed,
                              licenseItemsValid: (CustomClaims, I) -> bool, validationItems: I): (w: Verdict)
    ensures PassesOn(w) <==>
              BearerForm(tokenString) &&
              (HeaderOf(RawToken(tokenString), readHeader).Undecodable? ||
               var c := ValidClaims(RawToken(tokenString), signingKey, signingPublicKey, readHeader, parsePKIX, parse);
               c.Some? && licenseItemsValid(c.value, validationItems))
    ensures w.Panicked? <==>
              (|tokenString| == 6 && AsciiLower(tokenString) == "bearer") ||
              (BearerForm(tokenString) && HeaderOf(RawToken(tokenString), readHeader).NoStringAlg?)
  {
    BearerPrefix(tokenString);
    if tokenString == "" then Rejected
    else
      var split := Split(tokenString, ' ');
      if AsciiLower(split[0]) != "bearer" then Rejected
      else if |split| < 2 then Panicked
      else
        var raw := split[1];
        match readHeader(Split(raw, '.')[0])
        case Undecodable => Ignored
        case NoStringAlg => Panicked
        case Alg(alg) =>
          match parse(raw, GetKey(alg, signingKey, signingPublicKey, parsePKIX))
          case ParseError => Rejected
          case Parsed(claims, valid) =>
            if !valid then Rejected
            else if licenseItemsValid(claims, validationItems) then Authorized(claims.userID)
            else Denied(claims.userID)
  }

  /** The intended decision: a malformed token, and a token whose header does not decode, are
      refused with 403. A request passes exactly when its token is in bearer form and parses
      into valid claims that the license validator accepts; the user id stored is the claims'. */
  function Decide<I>(tokenString: string, signingKey: string, signingPublicKey: Bytes,
                     readHeader: string -> JoseHeader, parsePKIX: Bytes -> Option<PublicKey>,
                     parse: (string, Key) -> Parsed,
                     licenseItemsValid: (CustomClaims, I) -> bool, validationItems: I): (v: Verdict)
    ensures !v.Panicked? && !v.Ignored?
    ensures !BearerForm(tokenString) ==> v == Rejected
    ensures var c := if BearerForm(tokenString)
                     then ValidClaims(RawToken(tokenString), signingKey, signingPublicKey, readHeader, parsePKIX, parse)
                     else None;
            (v.Authorized? <==> c.Some? && licenseItemsValid(c.value, validationItems)) &&
            (v.Denied? <==> c.Some? && !licenseItemsValid(c.value, validationItems)) &&
            (!v.Rejected? ==> v.userID == c.value.userID)
    ensures var w := DecideAsWritten(tokenString, signingKey, signingPublicKey, readHeader, parsePKIX, parse,
                                     licenseItemsValid, validationItems);
            !w.Panicked? && !w.Ignored? ==> v == w
  {
    BearerPrefix(tokenString);
    var w := DecideAsWritten(tokenString, signingKey, signingPublicKey, readHeader, parsePKIX, parse,
                             licenseItemsValid, validationItems);
    if w.Panicked? || w.Ignored? then Rejected else w
  }

  /** A bare "Bearer" with no token after it: the code as written panics, the intended
      behaviour refuses it. */
  lemma BareBearerPanics<I>(signingKey: string, signingPublicKey: Bytes,
                            readHeader: string -> JoseHeader, parsePKIX: Bytes -> Option<PublicKey>,
                            parse: (string, Key) -> Parsed,
                            licenseItemsValid: (CustomClaims, I) -> bool, validationItems: I)
    ensures DecideAsWritten("Bearer", signingKey, signingPublicKey, readHeader, parsePKIX, parse,
                            licenseItemsValid, validationItems) == Panicked
    ensures Decide("Bearer", signingKey, signingPublicKey, readHeader, parsePKIX, parse,
                   licenseItemsValid, validationItems) == Rejected
  {
    assert ' ' !in "Bearer";
    assert Split("Bearer", ' ') == ["Bearer"];
    assert AsciiLower("Bearer") == "bearer";
  }

  lemma SplitBearerScheme(raw: string)
    requires ' ' !in raw
    ensures Split("Bearer " + raw, ' ') == ["Bearer", raw]
  {
    assert "Bearer " + raw == Join(["Bearer", raw], ' ') by {
      assert Join(["Bearer", raw][1..], ' ') == raw;
    }
    assert ' ' !in "Bearer";
    SplitJoin(["Bearer", raw], ' ');
  }

  lemma BearerLowered()
    ensures AsciiLower("Bearer") == "bearer"
  {
  }

  /** "Bearer " followed by a token without spaces splits into the scheme and the token. */
  lemma BearerSplit(raw: string)
    requires ' ' !in raw
    ensures Split("Bearer " + raw, ' ') == ["Bearer", raw]
    ensures AsciiLower("Bearer") == "bearer"
    ensures BearerForm("Bearer " + raw) && RawToken("Bearer " + raw) == raw
  {
    var t := "Bearer " + raw;
    SplitBearerScheme(raw);
    BearerLowered();
    assert t[..6] == "Bearer" && t[6] == ' ' && t[7..] == raw;
    assert Split(raw, ' ') == [raw];
  }

  /** A token whose header has no string `alg`: the code as written panics, the intended
      behaviour refuses it. */
  lemma MissingAlgPanics<I>(raw: string, signingKey: string, signingPublicKey: Bytes,
                            readHeader: string -> JoseHeader, parsePKIX: Bytes -> Option<PublicKey>,
                            parse: (string, Key) -> Parsed,
                            licenseItemsValid: (CustomClaims, I) -> bool, validationItems: I)
    requires ' ' !in raw && readHeader(Split(raw, '.')[0]) == NoStringAlg
    ensures DecideAsWritten("Bearer " + raw, signingKey, signingPublicKey, readHeader, parsePKIX, parse,
                            licenseItemsValid, validationItems) == Panicked
    ensures Decide("Bearer " + raw, signingKey, signingPublicKey, readHeader, parsePKIX, parse,
                   licenseItemsValid, validationItems) == Rejected
  {
    BearerSplit(raw);
  }

  /** A bearer token whose header segment does not decode: the code as written returns without
      aborting, so the protected handler runs with no user id stored; the intended behaviour
      refuses it. */
  lemma UndecodableHeaderPasses<I>(raw: string, signingKey: string, signingPublicKey: Bytes,
                                   readHeader: string -> JoseHeader, parsePKIX: Bytes -> Option<PublicKey>,
                                   parse: (string, Key) -> Parsed,
                                   licenseItemsValid: (CustomClaims, I) -> bool, validationItems: I)
    requires ' ' !in raw && readHeader(Split(raw, '.')[0]) == Undecodable
    ensures var w := DecideAsWritten("Bearer " + raw, signingKey, signingPublicKey, readHeader, parsePKIX, parse,
                                     licenseItemsValid, validationItems);
            w == Ignored && PassesOn(w)
    ensures Decide("Bearer " + raw, signingKey, signingPublicKey, readHeader, parsePKIX, parse,
                   licenseItemsValid, validationItems) == Rejected
  {
    BearerSplit(raw);
  }

  /** A token whose `alg` is neither HS256 nor RS256 gets no key, and since the JWT library
      accepts no token verified against no key, it is refused, as written and as intended. */
  lemma UnknownAlgorithmRejected<I>(tokenString: string, signingKey: string, signingPublicKey: Bytes,
                                    readHeader: string -> JoseHeader, parsePKIX: Bytes -> Option<PublicKey>,
                                    parse: (string, Key) -> Parsed,
                                    licenseItemsValid: (CustomClaims, I) -> bool, validationItems: I)
    requires forall r :: !(parse(r, NoKey).Parsed? && parse(r, NoKey).valid)
    requires BearerForm(tokenString)
    requires var h := HeaderOf(RawToken(tokenString), readHeader);
             h.Alg? && h.name != "HS256" && h.name != "RS256"
    ensures GetKey(HeaderOf(RawToken(tokenString), readHeader).name, signingKey, signingPublicKey, parsePKIX) == NoKey
    ensures DecideAsWritten(tokenString, signingKey, signingPublicKey, readHeader, parsePKIX, parse,
                            licenseItemsValid, validationItems) == Rejected
    ensures Decide(tokenString, signingKey, signingPublicKey, readHeader, parsePKIX, parse,
                   licenseItemsValid, validationItems) == Rejected
  {
    var raw := RawToken(tokenString);
    BearerPrefix(tokenString);
    assert !(parse(raw, NoKey).Parsed? && parse(raw, NoKey).valid);
  }
  /** Whether the claims grant the named license item; an empty name grants everything. */
  predicate ContainsCompositeName(claims: CustomClaims, itemName: string) {
    itemName == "" || exists i :: 0 <= i < |claims.licenseItems| && claims.licenseItems[i].key == itemName
  }

  /** The license validator the services install: scans the items for the name. */
  method ClaimsContainCompositeName(claims: CustomClaims, itemName: string) returns (found: bool)
    ensures found <==> ContainsCompositeName(claims, itemName)
  {
    if itemName == "" {
      return true;
    }
    var i := 0;
    while i < |claims.licenseItems|
      invariant 0 <= i <= |claims.licenseItems|
      invariant forall j :: 0 <= j < i ==> claims.licenseItems[j].key != itemName
    {
      if claims.licenseItems[i].key == itemName {
        return true;
      }
      i := i + 1;
    }
    return false;
  }

  /** The claims of the scenario below: two license items and user "u-1". */
  const ScenarioClaims := CustomClaims(0, [LicenseItem("proj-x", true, 0), LicenseItem("proj-y", true, 0)], "u-1", 0)

  /** Every header of the scenario names HS256. */
  function ScenarioHeader(segment: string): JoseHeader {
    Alg("HS256")
  }

  /** The JWT library of the scenario: only the shared secret "s3cret" verifies the token. */
  function ScenarioParse(raw: string, k: Key): Parsed {
    if k == Secret(Utf8("s3cret")) then Parsed(ScenarioClaims, true) else ParseError
  }

  /** No public key parses in the scenario. */
  function NoPublicKey(b: Bytes): Option<PublicKey> {
    None
  }

  /** Under the shared secret, the scenario's token is authorized exactly for the services
      whose name its claims hold, and otherwise denied. */
  lemma ScenarioSecretKnown(sig: string, name: string)
    requires ' ' !in sig
    ensures Decide("Bearer " + sig, "s3cret", [], ScenarioHeader, NoPublicKey, ScenarioParse,
                   ContainsCompositeName, name)
         == if ContainsCompositeName(ScenarioClaims, name) then Authorized("u-1") else Denied("u-1")
  {
    BearerSplit(sig);
    assert ValidClaims(sig, "s3cret", [], ScenarioHeader, NoPublicKey, ScenarioParse) == Some(ScenarioClaims);
  }

  /** Under any other secret, the scenario's token is rejected. */
  lemma ScenarioSecretOther(sig: string, key: string, name: string)
    requires ' ' !in sig && key != "s3cret"
    ensures Decide("Bearer " + sig, key, [], ScenarioHeader, NoPublicKey, ScenarioParse,
                   ContainsCompositeName, name) == Rejected
  {
    BearerSplit(sig);
    assert Utf8(key) != Utf8("s3cret") by {
      Utf8RoundTrip(key);
      Utf8RoundTrip("s3cret");
    }
    assert ValidClaims(sig, key, [], ScenarioHeader, NoPublicKey, ScenarioParse) == None;
  }

  /** A token signed with the shared secret and granting "proj-x" and "proj-y" passes a
      service that demands "proj-x", is stopped by one that demands "proj-z", passes one that
      demands nothing, and is refused by a service holding another secret. */
  lemma LicenseScenario(sig: string)
    requires ' ' !in sig
    ensures Decide("Bearer " + sig, "s3cret", [], ScenarioHeader, NoPublicKey, ScenarioParse,
                   ContainsCompositeName, "proj-x") == Authorized("u-1")
    ensures Decide("Bearer " + sig, "s3cret", [], ScenarioHeader, NoPublicKey, ScenarioParse,
                   ContainsCompositeName, "proj-z") == Denied("u-1")
    ensures Decide("Bearer " + sig, "s3cret", [], ScenarioHeader, NoPublicKey, ScenarioParse,
                   ContainsCompositeName, "") == Authorized("u-1")
    ensures Decide("Bearer " + sig, "other", [], ScenarioHeader, NoPublicKey, ScenarioParse,
                   ContainsCompositeName, "proj-x") == Rejected
  {
    ScenarioSecretKnown(sig, "proj-x");
    assert ScenarioClaims.licenseItems[0].key == "proj-x";
    ScenarioSecretKnown(sig, "proj-z");
    assert "proj-z" != "proj-x" && "proj-z" != "proj-y" by {
      assert "proj-z"[5] == 'z';
    }
    ScenarioSecretKnown(sig, "");
    ScenarioSecretOther(sig, "other", "proj-x");
  }

  /** The request context the middleware works on. */
  class GinContext {
    var headers: seq<Header>
    /** The string values stored in the context. */
    var keys: map<string, string>
    /** The status the request was aborted with, if it was. */
    var abortStatus: Option<int>
    /** Whether the middleware called `Next`. Gin runs the rest of the handler chain exactly
        when the request was not aborted; `Next` only runs it before the middleware returns. */
    var proceeded: bool

    constructor(headers: seq<Header>, keys: map<string, string>)
      ensures this.headers == headers && this.keys == keys
      ensures abortStatus == None && !proceeded
    {
      this.headers := headers;
      this.keys := keys;
      abortStatus := None;
      proceeded := false;
    }

    /** Whether the protected handler runs after the middleware chain. */
    predicate HandlerRuns()
      reads this
    {
      abortStatus.None?
    }
  }

  /** The middleware, with the two panics and the fall-through on an undecodable header
      replaced by a 403 refusal. */
  method ValidateToken<I>(c: GinContext, signingKey: string, signingPublicKey: Bytes,
                          readHeader: string -> JoseHeader, parsePKIX: Bytes -> Option<PublicKey>,
                          parse: (string, Key) -> Parsed,
                          licenseItemsValid: (CustomClaims, I) -> bool, validationItems: I)
    modifies c
    ensures c.headers == old(c.headers)
    ensures var v := Decide(TokenString(old(c.headers), old(c.keys)), signingKey, signingPublicKey, readHeader,
                            parsePKIX, parse, licenseItemsValid, validationItems);
            (v.Rejected? ==>
               c.abortStatus == Some(StatusForbidden) && c.keys == old(c.keys) && c.proceeded == old(c.proceeded)) &&
            (v.Denied? ==>
               c.abortStatus == Some(StatusForbidden) && c.keys == old(c.keys)[KeyUserID := v.userID] &&
               c.proceeded == old(c.proceeded)) &&
            (v.Authorized? ==>
               c.abortStatus == old(c.abortStatus) && c.keys == old(c.keys)[KeyUserID := v.userID] && c.proceeded)
    ensures old(c.HandlerRuns()) ==>
              (c.HandlerRuns() <==> PassesOn(Decide(TokenString(old(c.headers), old(c.keys)), signingKey,
                                                    signingPublicKey, readHeader, parsePKIX, parse,
                                                    licenseItemsValid, validationItems)))
  {
    var values := Values(c.headers, "Authorization");
    var tokenString := if values == [] then "" else values[0];
    if tokenString == "" {
      tokenString := if AuthorizationKey in c.keys then c.keys[AuthorizationKey] else "";
      if tokenString == "" {
        c.abortStatus := Some(StatusForbidden);
        return;
      }
    }
    var split := Split(tokenString, ' ');
    if AsciiLower(split[0]) != "bearer" || |split| < 2 {
      c.abortStatus := Some(StatusForbidden);
      return;
    }
    var raw := split[1];
    var header := readHeader(Split(raw, '.')[0]);
    if header.Undecodable? || header.NoStringAlg? {
      c.abortStatus := Some(StatusForbidden);
      return;
    }
    var parsed := parse(raw, GetKey(header.name, signingKey, signingPublicKey, parsePKIX));
    if parsed.ParseError? {
      c.abortStatus := Some(StatusForbidden);
      return;
    }
    if parsed.valid {
      c.keys := c.keys[KeyUserID := parsed.claims.userID];
      if licenseItemsValid(parsed.claims, validationItems) {
        c.proceeded := true;
        return;
      }
      c.abortStatus := Some(StatusForbidden);
      return;
    }
    c.abortStatus := Some(StatusForbidden);
  }
}
