/**
 * The request gate of auth/auth.py: reading the bearer token from the `Authorization`
 * header (RFC 6750, section 2.1, with a case-insensitive scheme word and any whitespace
 * runs), finding the signing key named by the token's `kid` header (RFC 7515, section
 * 4.1.4) in the identity provider's JWK Set (RFC 7517, section 5), mapping the outcome of
 * decoding the token onto a fixed set of errors, checking a permission, and composing the
 * three steps.
 *
 * The JWKS download and the two calls into the JOSE library are not modelled: the fetched
 * key set and the library's answers are inputs (`KeySetFetch`, `Jose`).
 */
module Auth {
  import opened Wrappers
  import opened Text

  /** The only error the gate raises on purpose: a message and the HTTP status to answer with. */
  datatype AuthError = AuthError(error: string, statusCode: int)

  /**
   * How a step of the gate fails: it raises an `AuthError`, or some other exception
   * escapes it (an index or key error, a library error outside a `try`), which the web
   * framework answers with status 500.
   */
  datatype Fault = Raised(err: AuthError) | Crash

  const HeaderExpected := AuthError("Authorization header is expected.", 401)
  const SchemeNotBearer := AuthError("Authorization header must start with \"Bearer\".", 401)
  const TokenNotFound := AuthError("Token not found.", 401)
  const HeaderNotBearerToken := AuthError("Authorization header must be Bearer<Token>.", 401)
  const PermissionsNotIncluded := AuthError("Permissions not included in JWT.", 400)
  const PermissionNotFound := AuthError("Permission not found.", 403)
  const AuthorizationMalformed := AuthError("Authorization malformed.", 401)
  const TokenExpired := AuthError("Token expired.", 401)
  const IncorrectClaims := AuthError("Incorrect claims. Please, check the audience and issuer.", 401)
  const UnableToParse := AuthError("Unable to parse authentication token.", 400)
  const KeyNotFound := AuthError("Unable to find the appropriate key.", 403)

  // ---------------------------------------------------------------------------------
  // Header parsing
  // ---------------------------------------------------------------------------------

  /** The scheme word compared case-insensitively with `bearer`. */
  predicate IsBearer(word: string) {
    Lower(word) == "bearer"
  }

  /**
   * `get_token_auth_header`: `auth` is the `Authorization` header, `None` when the
   * request has none. A header of whitespace only has no first part, and indexing it
   * crashes.
   */
  function GetTokenAuthHeader(auth: Option<string>): (r: Result<string, Fault>)
    ensures auth == None || auth == Some("") ==> r == Failure(Raised(HeaderExpected))
    ensures r == Failure(Crash) <==> auth.Some? && auth.value != "" && AllSpace(auth.value)
    ensures r.Failure? && r.error.Raised? ==> r.error.err.statusCode == 401
    ensures r.Success? ==>
      IsWord(r.value) && auth.Some? &&
      |Split(auth.value)| == 2 && IsBearer(Split(auth.value)[0]) && Split(auth.value)[1] == r.value
  {
    if auth.None? || auth.value == "" then Failure(Raised(HeaderExpected))
    else
      var parts := Split(auth.value);
      if parts == [] then Failure(Crash)
      else if !IsBearer(parts[0]) then Failure(Raised(SchemeNotBearer))
      else if |parts| == 1 then Failure(Raised(TokenNotFound))
      else if |parts| > 2 then Failure(Raised(HeaderNotBearerToken))
      else Success(parts[1])
  }

  lemma BearerIsWord(scheme: string)
    requires IsBearer(scheme)
    ensures IsWord(scheme)
  {
    assert |scheme| == 6;
    forall i | 0 <= i < |scheme| ensures !IsSpace(scheme[i]) {
      assert LowerChar(scheme[i]) == "bearer"[i];
    }
  }

  /**
   * `bearer <t>`, in any letter case and with any whitespace around and between the two
   * words, yields exactly `t`.
   */
  lemma BearerTokenExtracted(ws1: string, scheme: string, ws2: string, t: string, ws3: string)
    requires AllSpace(ws1) && AllSpace(ws2) && AllSpace(ws3) && ws2 != []
    requires IsBearer(scheme) && IsWord(t)
    ensures GetTokenAuthHeader(Some(ws1 + scheme + ws2 + t + ws3)) == Success(t)
  {
    BearerIsWord(scheme);
    SplitTwoWords(ws1, scheme, ws2, t, ws3);
  }

  /**
   * The scheme is checked before the number of parts: a first word other than `bearer`
   * is rejected with the scheme error whatever follows it.
   */
  lemma SchemeCheckedFirst(ws: string, word: string, rest: string)
    requires AllSpace(ws) && IsWord(word) && !IsBearer(word)
    requires rest == [] || IsSpace(rest[0])
    ensures GetTokenAuthHeader(Some(ws + word + rest)) == Failure(Raised(SchemeNotBearer))
  {
    assert ws + word + rest == ws + (word + rest);
    SplitSkipsSpace(ws, word + rest);
    SplitWord(word, rest);
  }

  /** A header that is only the scheme word has no token. */
  lemma SchemeAloneHasNoToken(ws1: string, scheme: string, ws2: string)
    requires AllSpace(ws1) && AllSpace(ws2) && IsBearer(scheme)
    ensures GetTokenAuthHeader(Some(ws1 + scheme + ws2)) == Failure(Raised(TokenNotFound))
  {
    BearerIsWord(scheme);
    assert ws1 + scheme + ws2 == ws1 + (scheme + ws2);
    SplitSkipsSpace(ws1, scheme + ws2);
    SplitWord(scheme, ws2);
    assert Split(ws2) == [];
  }

  /**
   * A third word after `bearer <t>` makes the header malformed, whatever whitespace comes
   * before the scheme and whatever comes after the third word.
   */
  lemma ThirdPartRejected(ws0: string, scheme: string, ws1: string, t: string, ws2: string, u: string, rest: string)
    requires AllSpace(ws0) && AllSpace(ws1) && AllSpace(ws2) && ws1 != [] && ws2 != []
    requires IsBearer(scheme) && IsWord(t) && IsWord(u)
    requires rest == [] || IsSpace(rest[0])
    ensures GetTokenAuthHeader(Some(ws0 + scheme + ws1 + t + ws2 + u + rest)) == Failure(Raised(HeaderNotBearerToken))
  {
    BearerIsWord(scheme);
    var tail3 := u + rest;
    var mid2 := ws2 + tail3;
    var tail2 := t + mid2;
    var mid1 := ws1 + tail2;
    var tail1 := scheme + mid1;
    assert ws0 + scheme + ws1 + t + ws2 + u + rest == ws0 + tail1;
    SplitSkipsSpace(ws0, tail1);
    SplitWord(scheme, mid1);
    SplitSkipsSpace(ws1, tail2);
    SplitWord(t, mid2);
    SplitSkipsSpace(ws2, tail3);
    SplitWord(u, rest);
  }

  /** The header `Basic xyz` fails on its scheme. */
  lemma BasicSchemeRejected()
    ensures GetTokenAuthHeader(Some("Basic xyz")) == Failure(Raised(SchemeNotBearer))
  {
    assert Lower("Basic")[1] == 'a';
    assert IsWord("Basic");
    assert "Basic xyz" == "" + "Basic" + " xyz";
    SchemeCheckedFirst("", "Basic", " xyz");
  }

  /** The header `Bearer` has no token. */
  lemma BareBearerRejected()
    ensures GetTokenAuthHeader(Some("Bearer")) == Failure(Raised(TokenNotFound))
  {
    assert Lower("Bearer") == "bearer";
    assert "Bearer" == "" + "Bearer" + "";
    SchemeAloneHasNoToken("", "Bearer", "");
  }

  /** The header `Bearer a b` has one part too many. */
  lemma ThreePartsRejected()
    ensures GetTokenAuthHeader(Some("Bearer a b")) == Failure(Raised(HeaderNotBearerToken))
  {
    assert Lower("Bearer") == "bearer";
    assert "Bearer a b" == "" + "Bearer" + " " + "a" + " " + "b" + "";
    ThirdPartRejected("", "Bearer", " ", "a", " ", "b", "");
  }

  // ---------------------------------------------------------------------------------
  // Permission check
  // ---------------------------------------------------------------------------------

  /**
   * The decoded token body: the `permissions` claim when present (a list of permission
   * strings) and the other claims (`iss`, `aud`, `exp`, `sub`, ...).
   */
  datatype Payload = Payload(permissions: Option<seq<string>>, claims: map<string, string>)

  /** `check_permissions`: a plain membership test; the payload is returned untouched by the gate. */
  function CheckPermissions(permission: string, payload: Payload): (r: Result<bool, AuthError>)
    ensures r.Success? ==> r.value
    ensures r == Failure(PermissionsNotIncluded) <==> payload.permissions.None?
    ensures r == Failure(PermissionNotFound) <==>
      payload.permissions.Some? && permission !in payload.permissions.value
    ensures r.Success? <==> payload.permissions.Some? && permission in payload.permissions.value
  {
    if payload.permissions.None? then Failure(PermissionsNotIncluded)
    else if permission !in payload.permissions.value then Failure(PermissionNotFound)
    else Success(true)
  }

  /** Granting more permissions never turns an accepted check into a rejected one. */
  lemma PermissionsMonotone(permission: string, granted: seq<string>, more: seq<string>, claims: map<string, string>)
    requires CheckPermissions(permission, Payload(Some(granted), claims)).Success?
    requires forall p :: p in granted ==> p in more
    ensures CheckPermissions(permission, Payload(Some(more), claims)).Success?
  {
  }

  /** The empty permission is not special: it passes only when `""` is literally granted. */
  lemma EmptyPermissionNotSpecial(payload: Payload)
    ensures CheckPermissions("", payload).Success? <==>
      payload.permissions.Some? && "" in payload.permissions.value
    ensures payload.permissions.None? ==> CheckPermissions("", payload) == Failure(PermissionsNotIncluded)
  {
  }

  // ---------------------------------------------------------------------------------
  // Key lookup
  // ---------------------------------------------------------------------------------

  /** One entry of the JWK Set, as a JSON object of string members. */
  type Jwk = map<string, string>

  /** The key handed to the decoder: exactly five members copied from a JWK entry. */
  datatype RsaKey = RsaKey(kty: string, kid: string, use: string, n: string, e: string)

  predicate Matches(key: Jwk, kid: string) {
    "kid" in key && key["kid"] == kid
  }

  predicate HasKeyFields(key: Jwk) {
    "kty" in key && "kid" in key && "use" in key && "n" in key && "e" in key
  }

  /** An entry on which the scan fails with a key error: no `kid`, or a match missing a member. */
  predicate BreaksScan(key: Jwk, kid: string) {
    "kid" !in key || (key["kid"] == kid && !HasKeyFields(key))
  }

  predicate ScanSucceeds(keys: seq<Jwk>, kid: string) {
    forall i :: 0 <= i < |keys| ==> !BreaksScan(keys[i], kid)
  }

  predicate CopiedFrom(k: RsaKey, key: Jwk) {
    HasKeyFields(key) && k == RsaKey(key["kty"], key["kid"], key["use"], key["n"], key["e"])
  }

  function Copy(key: Jwk): RsaKey
    requires HasKeyFields(key)
  {
    RsaKey(key["kty"], key["kid"], key["use"], key["n"], key["e"])
  }

  /** The position of the last entry whose `kid` equals `kid`. */
  function LastMatch(keys: seq<Jwk>, kid: string): (r: Option<nat>)
    ensures r.Some? ==>
      r.value < |keys| && Matches(keys[r.value], kid) &&
      forall j :: r.value < j < |keys| ==> !Matches(keys[j], kid)
    ensures r.None? <==> forall j :: 0 <= j < |keys| ==> !Matches(keys[j], kid)
  {
    if keys == [] then None
    else if Matches(keys[|keys| - 1], kid) then Some(|keys| - 1)
    else LastMatch(keys[..|keys| - 1], kid)
  }

  function LastCopy(keys: seq<Jwk>, kid: string): Option<RsaKey>
    requires ScanSucceeds(keys, kid)
  {
    match LastMatch(keys, kid)
    case None => None
    case Some(i) => Some(Copy(keys[i]))
  }

  /**
   * What the key scan of `verify_decode_jwt` leaves in `rsa_key`: nothing when no entry
   * matches, otherwise a copy of the LAST matching entry (the loop never stops early);
   * an entry it cannot read makes it crash.
   */
  function SelectKey(keys: seq<Jwk>, kid: string): (r: Result<Option<RsaKey>, Fault>)
    ensures r.Failure? <==> exists i :: 0 <= i < |keys| && BreaksScan(keys[i], kid)
    ensures r.Failure? ==> r.error == Crash
    ensures r == Success(None) <==>
      ScanSucceeds(keys, kid) && forall j :: 0 <= j < |keys| ==> !Matches(keys[j], kid)
    ensures r.Success? && r.value.Some? ==>
      exists i :: 0 <= i < |keys| && Matches(keys[i], kid) && CopiedFrom(r.value.value, keys[i]) &&
        forall j :: i < j < |keys| ==> !Matches(keys[j], kid)
  {
    if exists i :: 0 <= i < |keys| && BreaksScan(keys[i], kid) then Failure(Crash)
    else Success(LastCopy(keys, kid))
  }

  /** When several entries share the `kid`, the one chosen is the last of them. */
  lemma LastDuplicateWins(keys: seq<Jwk>, kid: string, i: nat)
    requires ScanSucceeds(keys, kid)
    requires i < |keys| && Matches(keys[i], kid)
    requires forall j :: i < j < |keys| ==> !Matches(keys[j], kid)
    ensures SelectKey(keys, kid) == Success(Some(Copy(keys[i])))
  {
  }

  /** The key scan as the source runs it: a loop over every entry, reassigning on each match. */
  method FindKey(keys: seq<Jwk>, kid: string) returns (r: Result<Option<RsaKey>, Fault>)
    ensures r == SelectKey(keys, kid)
  {
    var rsaKey: Option<RsaKey> := None;
    var i := 0;
    while i < |keys|
      invariant 0 <= i <= |keys|
      invariant ScanSucceeds(keys[..i], kid)
      invariant rsaKey == LastCopy(keys[..i], kid)
    {
      var key := keys[i];
      if "kid" !in key {
        return Failure(Crash);
      }
      if key["kid"] == kid {
        if !HasKeyFields(key) {
          return Failure(Crash);
        }
        rsaKey := Some(RsaKey(key["kty"], key["kid"], key["use"], key["n"], key["e"]));
      }
      assert keys[..i + 1][..i] == keys[..i];
      i := i + 1;
    }
    assert keys[..i] == keys;
    r := Success(rsaKey);
  }

  // ---------------------------------------------------------------------------------
  // Verification
  // ---------------------------------------------------------------------------------

  /** The identity-provider settings read from the environment. */
  datatype Config = Config(domain: string, algorithms: string, audience: string)

  /** The outcome of downloading and parsing the JWK Set document; `keys` is its `keys` member, if any. */
  datatype KeySetFetch = FetchFailed | Fetched(keys: Option<seq<Jwk>>)

  /** The arguments of the library's decode call. */
  datatype DecodeRequest = DecodeRequest(token: string, key: RsaKey, algorithms: string, audience: string, issuer: string)

  /** What the library's decode call does: returns the payload or raises one of three kinds of error. */
  datatype DecodeOutcome = Decoded(payload: Payload) | ExpiredSignature | ClaimsMismatch | Undecodable

  /**
   * The JOSE library as seen by the gate: the unverified header of a token (`None` when
   * the library cannot read it) and the decoder.
   */
  datatype Jose = Jose(unverifiedHeader: string -> Option<map<string, string>>, decode: DecodeRequest -> DecodeOutcome)

  function ExpectedIssuer(config: Config): string {
    "https://" + config.domain + "/"
  }

  /**
   * The part of `verify_decode_jwt` before decoding: fetch the key set, read the token's
   * `kid`, scan the set.
   */
  function KeyFor(jwks: KeySetFetch, jose: Jose, token: string): (r: Result<RsaKey, Fault>)
    ensures jwks == FetchFailed ==> r == Failure(Crash)
    ensures jwks.Fetched? && jose.unverifiedHeader(token).Some? && "kid" !in jose.unverifiedHeader(token).value ==>
      r == Failure(Raised(AuthorizationMalformed))
    ensures r == Failure(Raised(KeyNotFound)) <==>
      jwks.Fetched? && jwks.keys.Some? && jose.unverifiedHeader(token).Some? &&
      "kid" in jose.unverifiedHeader(token).value &&
      SelectKey(jwks.keys.value, jose.unverifiedHeader(token).value["kid"]) == Success(None)
    ensures r.Success? ==>
      jwks.Fetched? && jwks.keys.Some? && jose.unverifiedHeader(token).Some? &&
      "kid" in jose.unverifiedHeader(token).value &&
      SelectKey(jwks.keys.value, jose.unverifiedHeader(token).value["kid"]) == Success(Some(r.value))
    ensures jwks.Fetched? && jose.unverifiedHeader(token).None? ==> r == Failure(Crash)
    ensures jwks.Fetched? && jwks.keys.None? && jose.unverifiedHeader(token).Some? &&
            "kid" in jose.unverifiedHeader(token).value ==>
      r == Failure(Crash)
    ensures jwks.Fetched? && jwks.keys.Some? && jose.unverifiedHeader(token).Some? &&
            "kid" in jose.unverifiedHeader(token).value ==>
      var selected := SelectKey(jwks.keys.value, jose.unverifiedHeader(token).value["kid"]);
      && (selected.Failure? ==> r == Failure(Crash))
      && (selected.Success? && selected.value.Some? ==> r == Success(selected.value.value))
  {
    if jwks.FetchFailed? then Failure(Crash)
    else
      var header := jose.unverifiedHeader(token);
      if header.None? then Failure(Crash)
      else if "kid" !in header.value then Failure(Raised(AuthorizationMalformed))
      else if jwks.keys.None? then Failure(Crash)
      else
        var selected :- SelectKey(jwks.keys.value, header.value["kid"]);
        if selected.None? then Failure(Raised(KeyNotFound)) else Success(selected.value)
  }

  /** The `except` clauses around the decode call, in their order. */
  function DecodeResult(outcome: DecodeOutcome): Result<Payload, Fault> {
    match outcome
    case Decoded(payload) => Success(payload)
    case ExpiredSignature => Failure(Raised(TokenExpired))
    case ClaimsMismatch => Failure(Raised(IncorrectClaims))
    case Undecodable => Failure(Raised(UnableToParse))
  }

  /**
   * `verify_decode_jwt`: decoding is attempted only once a key was found, always against
   * the configured algorithms and audience and the issuer `https://<domain>/`, and its
   * outcome decides the result.
   */
  function VerifyDecodeJwt(config: Config, jose: Jose, jwks: KeySetFetch, token: string): (r: Result<Payload, Fault>)
    ensures KeyFor(jwks, jose, token).Failure? ==> r == Failure(KeyFor(jwks, jose, token).error)
    ensures KeyFor(jwks, jose, token).Success? ==>
      var outcome := jose.decode(DecodeRequest(token, KeyFor(jwks, jose, token).value,
                                               config.algorithms, config.audience,
                                               "https://" + config.domain + "/"));
      && (r.Success? <==> outcome.Decoded?)
      && (outcome.Decoded? ==> r.value == outcome.payload)
      && (outcome == ExpiredSignature ==> r == Failure(Raised(TokenExpired)))
      && (outcome == ClaimsMismatch ==> r == Failure(Raised(IncorrectClaims)))
      && (outcome == Undecodable ==> r == Failure(Raised(UnableToParse)))
  {
    var key :- KeyFor(jwks, jose, token);
    DecodeResult(jose.decode(DecodeRequest(token, key, config.algorithms, config.audience, ExpectedIssuer(config))))
  }

  /**
   * A token whose `kid` names no key of a readable key set is refused with 403, whatever
   * its signature and claims.
   */
  lemma UnknownKidRefused(config: Config, jose: Jose, keys: seq<Jwk>, token: string)
    requires jose.unverifiedHeader(token).Some? && "kid" in jose.unverifiedHeader(token).value
    requires forall i :: 0 <= i < |keys| ==> "kid" in keys[i] && keys[i]["kid"] != jose.unverifiedHeader(token).value["kid"]
    ensures VerifyDecodeJwt(config, jose, Fetched(Some(keys)), token) == Failure(Raised(KeyNotFound))
  {
  }

  /**
   * The decoder is consulted only about the one request built from the token, the chosen
   * key and the configuration: two decoders that agree on the requests carrying the
   * expected issuer give the same result.
   */
  lemma DecodeOnlyWithExpectedIssuer(config: Config, j1: Jose, j2: Jose, jwks: KeySetFetch, token: string)
    requires j1.unverifiedHeader(token) == j2.unverifiedHeader(token)
    requires forall k :: j1.decode(DecodeRequest(token, k, config.algorithms, config.audience, ExpectedIssuer(config)))
                      == j2.decode(DecodeRequest(token, k, config.algorithms, config.audience, ExpectedIssuer(config)))
    ensures VerifyDecodeJwt(config, j1, jwks, token) == VerifyDecodeJwt(config, j2, jwks, token)
  {
  }

  // ---------------------------------------------------------------------------------
  // Composition
  // ---------------------------------------------------------------------------------

  /** The three checks of `requires_auth`, in order, stopping at the first failure. */
  function Authenticate(config: Config, jose: Jose, jwks: KeySetFetch, auth: Option<string>, permission: string): (r: Result<Payload, Fault>)
    ensures GetTokenAuthHeader(auth).Failure? ==> r == Failure(GetTokenAuthHeader(auth).error)
    ensures GetTokenAuthHeader(auth).Success? && VerifyDecodeJwt(config, jose, jwks, GetTokenAuthHeader(auth).value).Failure? ==>
      r == Failure(VerifyDecodeJwt(config, jose, jwks, GetTokenAuthHeader(auth).value).error)
    ensures r.Success? ==>
      GetTokenAuthHeader(auth).Success? &&
      VerifyDecodeJwt(config, jose, jwks, GetTokenAuthHeader(auth).value) == Success(r.value) &&
      CheckPermissions(permission, r.value).Success?
    ensures GetTokenAuthHeader(auth).Success? && VerifyDecodeJwt(config, jose, jwks, GetTokenAuthHeader(auth).value).Success? ==>
      var payload := VerifyDecodeJwt(config, jose, jwks, GetTokenAuthHeader(auth).value).value;
      && (CheckPermissions(permission, payload).Failure? ==> r == Failure(Raised(CheckPermissions(permission, payload).error)))
      && (CheckPermissions(permission, payload).Success? ==> r == Success(payload))
    ensures r.Failure? && r.error.Raised? && r.error.err in {PermissionsNotIncluded, PermissionNotFound} ==>
      GetTokenAuthHeader(auth).Success? && VerifyDecodeJwt(config, jose, jwks, GetTokenAuthHeader(auth).value).Success?
  {
    var token :- GetTokenAuthHeader(auth);
    var payload :- VerifyDecodeJwt(config, jose, jwks, token);
    var granted := CheckPermissions(permission, payload);
    if granted.Failure? then Failure(Raised(granted.error)) else Success(payload)
  }

  /** `requires_auth(permission)(handler)`: the handler runs on the payload only when every check passed. */
  function RequiresAuth<A>(config: Config, jose: Jose, jwks: KeySetFetch, auth: Option<string>, permission: string,
                           handler: Payload -> A): (r: Result<A, Fault>)
    ensures r.Success? <==> Authenticate(config, jose, jwks, auth, permission).Success?
    ensures r.Success? ==> r.value == handler(Authenticate(config, jose, jwks, auth, permission).value)
    ensures r.Failure? ==> r.error == Authenticate(config, jose, jwks, auth, permission).error
  {
    var payload :- Authenticate(config, jose, jwks, auth, permission);
    Success(handler(payload))
  }

  /** On a failed check the handler is never consulted: any two handlers give the same failure. */
  lemma HandlerIrrelevantOnFailure<A>(config: Config, jose: Jose, jwks: KeySetFetch, auth: Option<string>, permission: string,
                                      h1: Payload -> A, h2: Payload -> A)
    requires Authenticate(config, jose, jwks, auth, permission).Failure?
    ensures RequiresAuth(config, jose, jwks, auth, permission, h1) == RequiresAuth(config, jose, jwks, auth, permission, h2)
  {
  }

  /** A request without an `Authorization` header is answered 401 before anything else happens. */
  lemma NoHeaderIs401(config: Config, jose: Jose, jwks: KeySetFetch, permission: string)
    ensures Authenticate(config, jose, jwks, None, permission) == Failure(Raised(HeaderExpected))
    ensures HeaderExpected.statusCode == 401
  {
  }

  /**
   * A valid token whose permissions lack the required one is refused with 403, and one
   * that carries it passes with its payload unchanged.
   */
  lemma PermissionDecides(config: Config, jose: Jose, jwks: KeySetFetch, auth: Option<string>, permission: string, payload: Payload)
    requires GetTokenAuthHeader(auth).Success?
    requires VerifyDecodeJwt(config, jose, jwks, GetTokenAuthHeader(auth).value) == Success(payload)
    requires payload.permissions.Some?
    ensures permission !in payload.permissions.value ==>
      Authenticate(config, jose, jwks, auth, permission) == Failure(Raised(PermissionNotFound))
    ensures permission in payload.permissions.value ==>
      Authenticate(config, jose, jwks, auth, permission) == Success(payload)
  {
  }

  /**
   * A request that gets through: a well-formed `bearer <t>` header, a readable key set whose
   * last entry with the token's `kid` is key `i`, a decoder that accepts the token under
   * that key, and a payload granting the permission. The gate returns that payload.
   */
  lemma ValidTokenAdmitted(config: Config, jose: Jose, keys: seq<Jwk>, ws1: string, scheme: string, ws2: string,
                           t: string, ws3: string, i: nat, payload: Payload, permission: string)
    requires AllSpace(ws1) && AllSpace(ws2) && AllSpace(ws3) && ws2 != []
    requires IsBearer(scheme) && IsWord(t)
    requires jose.unverifiedHeader(t).Some? && "kid" in jose.unverifiedHeader(t).value
    requires ScanSucceeds(keys, jose.unverifiedHeader(t).value["kid"])
    requires i < |keys| && Matches(keys[i], jose.unverifiedHeader(t).value["kid"])
    requires forall j :: i < j < |keys| ==> !Matches(keys[j], jose.unverifiedHeader(t).value["kid"])
    requires jose.decode(DecodeRequest(t, Copy(keys[i]), config.algorithms, config.audience, ExpectedIssuer(config))) == Decoded(payload)
    requires payload.permissions.Some? && permission in payload.permissions.value
    ensures Authenticate(config, jose, Fetched(Some(keys)), Some(ws1 + scheme + ws2 + t + ws3), permission) == Success(payload)
  {
    BearerTokenExtracted(ws1, scheme, ws2, t, ws3);
    LastDuplicateWins(keys, jose.unverifiedHeader(t).value["kid"], i);
  }
}
