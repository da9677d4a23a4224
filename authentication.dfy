/**
 * The request guards and the token builder of helpers/authentication.py: the
 * `x-yang-auth` Basic check, the `Authorization` Bearer check and the claims
 * `create_jwt_token` signs. The stored secrets, `jwt.decode` and `jwt.encode`
 * are foreign calls and come in as parameters.
 */
module Authentication {
  import opened Wrappers
  import opened Values
  import opened PyText

  /** The `HTTPException` a guard raises. */
  datatype HttpError = HttpError(status: int, detail: string)

  const Unauthorized := 401
  const BadRequest := 400

  // ---------------------------------------------------------------------------
  // Header shape

  /** `scheme, credential = header.split(" ")`: the two parts, or `None` for the
      `ValueError` the unpacking raises when the split does not give exactly two. */
  function SplitHeader(h: string): (r: Option<(string, string)>)
    ensures r.Some? <==> Count(' ', h) == 1
    ensures r.Some? ==> h == r.value.0 + " " + r.value.1
    ensures r.Some? ==> ' ' !in r.value.0 && ' ' !in r.value.1
  {
    var parts := Split(h, ' ');
    if |parts| == 2 then
      SplitParts(h, ' ');
      assert ' ' !in parts[0] && ' ' !in parts[1];
      JoinSplit(h, ' ');
      assert Join(parts, " ") == parts[0] + " " + Join(parts[1..], " ");
      Some((parts[0], parts[1]))
    else None
  }

  /** A scheme and a credential without spaces, joined by one space, split back
      into themselves. */
  lemma SplitHeaderOf(scheme: string, credential: string)
    requires ' ' !in scheme && ' ' !in credential
    ensures SplitHeader(scheme + " " + credential) == Some((scheme, credential))
  {
    var h := scheme + " " + credential;
    var i := |scheme|;
    assert h[..i] == scheme && h[i + 1..] == credential && h[i] == ' ';
    SplitOnce(h, ' ', i);
  }

  // ---------------------------------------------------------------------------
  // verify_yang_auth_token

  /** The checks `verify_yang_auth_token` makes before it reads the secret: the
      header is sent, splits into a scheme and a credential, and the scheme reads
      "basic" in any letter case. Gives the credential. */
  function YangCredential(header: Option<string>): Result<string, HttpError> {
    match header
    case None => Failure(HttpError(Unauthorized, "Missing x-yang-auth header"))
    case Some(h) =>
      match SplitHeader(h)
      case None => Failure(HttpError(BadRequest, "Invalid Authorization format"))
      case Some((scheme, credential)) =>
        if Lower(scheme) != "basic" then Failure(HttpError(BadRequest, "Authorization must start with Basic"))
        else Success(credential)
  }

  /** `verify_yang_auth_token` with the secret's name read from a configuration
      field that exists: `header` is the `x-yang-auth` header, if sent, and
      `apiCredential` the stored API secret. */
  function VerifyYangAuthToken(header: Option<string>, apiCredential: string): (r: Result<bool, HttpError>)
    ensures r.Success? ==> r.value
    ensures r.Failure? ==> r.error.status in {Unauthorized, BadRequest}
  {
    match YangCredential(header)
    case Failure(e) => Failure(e)
    case Success(credential) =>
      if credential != apiCredential then Failure(HttpError(Unauthorized, "Invalid API token"))
      else Success(true)
  }

  /** What a guard raises: an `HTTPException`, or another exception, which FastAPI
      answers with a 500. */
  datatype GuardError = Http(error: HttpError) | Raised(message: string)

  /** `AppConfig` has no `api_auth_key_name` field. */
  const ApiAuthKeyNameMissing := "'AppConfig' object has no attribute 'api_auth_key_name'"

  /** `verify_yang_auth_token` as written: after the scheme check it reads
      `app_conf.api_auth_key_name`, which `AppConfig` does not define. */
  function VerifyYangAuthTokenAsWritten(header: Option<string>): (r: Result<bool, GuardError>)
    ensures r.Failure?
  {
    match YangCredential(header)
    case Failure(e) => Failure(Http(e))
    case Success(_) => Failure(Raised(ApiAuthKeyNameMissing))
  }

  /** As written, the guard lets no request through. It refuses a missing or
      malformed header, or a wrong scheme, as the corrected guard does. Every header
      that would reach the credential check raises the missing-attribute error
      instead, so the header the corrected guard accepts gets a 500. */
  lemma YangAsWritten(header: Option<string>, apiCredential: string)
    ensures VerifyYangAuthTokenAsWritten(header).Failure?
    ensures VerifyYangAuthToken(header, apiCredential).Success? ==>
      VerifyYangAuthTokenAsWritten(header) == Failure(Raised(ApiAuthKeyNameMissing))
    ensures VerifyYangAuthToken(header, apiCredential) == Failure(HttpError(Unauthorized, "Invalid API token")) ==>
      VerifyYangAuthTokenAsWritten(header) == Failure(Raised(ApiAuthKeyNameMissing))
    ensures VerifyYangAuthToken(header, apiCredential).Failure? &&
            VerifyYangAuthToken(header, apiCredential) != Failure(HttpError(Unauthorized, "Invalid API token")) ==>
      VerifyYangAuthTokenAsWritten(header) == Failure(Http(VerifyYangAuthToken(header, apiCredential).error))
  {
  }

  /** "Basic k" with the secret "k": the corrected guard accepts it, and the guard as
      written raises the missing-attribute error. */
  lemma YangBasicRaisesAsWritten()
    ensures VerifyYangAuthToken(Some("Basic k"), "k") == Success(true)
    ensures VerifyYangAuthTokenAsWritten(Some("Basic k")) == Failure(Raised(ApiAuthKeyNameMissing))
  {
    SplitHeaderOf("Basic", "k");
    assert "Basic" + " " + "k" == "Basic k";
    assert Lower("Basic") == "basic";
  }

  /** A header that does not hold exactly one space is refused as malformed, whatever
      its scheme and credential. */
  lemma YangFormat(h: string, apiCredential: string)
    ensures VerifyYangAuthToken(Some(h), apiCredential) == Failure(HttpError(BadRequest, "Invalid Authorization format"))
      <==> Count(' ', h) != 1
  {
  }

  /** A well-formed header is judged on its scheme first (letter case ignored), then
      on its credential, which must equal the secret exactly. */
  lemma YangDecides(scheme: string, credential: string, apiCredential: string)
    requires ' ' !in scheme && ' ' !in credential
    ensures VerifyYangAuthToken(Some(scheme + " " + credential), apiCredential) ==
      if Lower(scheme) != "basic" then Failure(HttpError(BadRequest, "Authorization must start with Basic"))
      else if credential != apiCredential then Failure(HttpError(Unauthorized, "Invalid API token"))
      else Success(true)
  {
    SplitHeaderOf(scheme, credential);
  }

  /** The guard lets a request through exactly when it sends `<scheme> <secret>` for
      a scheme that reads "basic" in any letter case, and the secret holds no space. */
  lemma YangAccepts(header: Option<string>, apiCredential: string)
    ensures VerifyYangAuthToken(header, apiCredential).Success? <==>
      ' ' !in apiCredential &&
      exists scheme: string :: ' ' !in scheme && Lower(scheme) == "basic" && header == Some(scheme + " " + apiCredential)
  {
    if VerifyYangAuthToken(header, apiCredential).Success? {
      var (scheme, credential) := SplitHeader(header.value).value;
      assert ' ' !in scheme && Lower(scheme) == "basic" && header == Some(scheme + " " + apiCredential);
    }
    if ' ' !in apiCredential &&
       exists scheme: string :: ' ' !in scheme && Lower(scheme) == "basic" && header == Some(scheme + " " + apiCredential) {
      var scheme: string :| ' ' !in scheme && Lower(scheme) == "basic" && header == Some(scheme + " " + apiCredential);
      YangDecides(scheme, apiCredential, apiCredential);
    }
  }

  /** A secret that holds a space can never be presented: `<scheme> <secret>` then
      splits into three or more parts and is refused as malformed. */
  lemma SplitHeaderNeedsOneSpace(scheme: string, credential: string)
    requires ' ' in credential
    ensures SplitHeader(scheme + " " + credential).None?
  {
    CountAppend(' ', scheme + " ", credential);
    CountAppend(' ', scheme, " ");
    CountPositive(' ', credential);
  }

  /** Occurrences add up over concatenation. */
  lemma {:induction false} CountAppend(c: char, a: string, b: string)
    ensures Count(c, a + b) == Count(c, a) + Count(c, b)
  {
    if a == [] {
      assert a + b == b;
    } else {
      assert (a + b)[0] == a[0];
      assert (a + b)[1..] == a[1..] + b;
      CountAppend(c, a[1..], b);
    }
  }

  lemma {:induction false} CountPositive(c: char, s: string)
    requires c in s
    ensures Count(c, s) >= 1
  {
    if s[0] != c {
      CountPositive(c, s[1..]);
    }
  }

  /** The guard tests the header in a fixed order: a missing header is reported before
      anything else, a malformed one before its scheme, a wrong scheme before the
      credential. */
  lemma YangOrder(header: Option<string>, apiCredential: string)
    ensures header.None? ==>
      VerifyYangAuthToken(header, apiCredential) == Failure(HttpError(Unauthorized, "Missing x-yang-auth header"))
    ensures VerifyYangAuthToken(header, apiCredential) == Failure(HttpError(Unauthorized, "Invalid API token")) ==>
      header.Some? && SplitHeader(header.value).Some? && Lower(SplitHeader(header.value).value.0) == "basic"
    ensures VerifyYangAuthToken(header, apiCredential) == Failure(HttpError(BadRequest, "Authorization must start with Basic")) ==>
      header.Some? && SplitHeader(header.value).Some?
  {
  }

  /** The scheme's letter case never changes the outcome. */
  lemma YangIgnoresCase(scheme: string, credential: string, apiCredential: string)
    requires ' ' !in scheme && ' ' !in credential
    ensures VerifyYangAuthToken(Some(Lower(scheme) + " " + credential), apiCredential)
         == VerifyYangAuthToken(Some(scheme + " " + credential), apiCredential)
  {
    LowerIsLower(scheme);
    LowerIdempotent(scheme);
    YangDecides(scheme, credential, apiCredential);
    YangDecides(Lower(scheme), credential, apiCredential);
  }

  // ---------------------------------------------------------------------------
  // verify_user_admin_auth_token

  /** What `jwt.decode(credential, secret, algorithms=["HS256"])` does: return the
      claims, or raise `ExpiredSignatureError` or another `InvalidTokenError`. */
  datatype Decoded = Claims(claims: Fields) | ExpiredSignature | InvalidToken

  /** What the admin guard answers for the header `<scheme> <credential>`: a scheme
      other than `bearer` in any letter case is refused, and otherwise the decoder
      decides between the claims, an expired token and an invalid one. */
  function AdminVerdict(scheme: string, credential: string, decode: string -> Decoded): Result<Fields, HttpError> {
    if Lower(scheme) != "bearer" then Failure(HttpError(BadRequest, "Authorization must start with Bearer"))
    else
      match decode(credential)
      case Claims(c) => Success(c)
      case ExpiredSignature => Failure(HttpError(Unauthorized, "Token expired"))
      case InvalidToken => Failure(HttpError(Unauthorized, "Invalid token"))
  }

  /** `verify_user_admin_auth_token`: `header` is the `Authorization` header, if sent,
      and `decode` is `jwt.decode` under the stored JWT secret. */
  function VerifyUserAdminAuthToken(header: Option<string>, decode: string -> Decoded): (r: Result<Fields, HttpError>)
    ensures r.Failure? ==> r.error.status in {Unauthorized, BadRequest}
  {
    match header
    case None => Failure(HttpError(Unauthorized, "Missing Authorization header"))
    case Some(h) =>
      match SplitHeader(h)
      case None => Failure(HttpError(BadRequest, "Invalid Authorization format"))
      case Some((scheme, credential)) => AdminVerdict(scheme, credential, decode)
  }

  /** The header checks of the admin guard: only a well-formed `Bearer` header
      reaches the token, and what the token decodes to decides the rest. */
  lemma AdminDecides(header: Option<string>, decode: string -> Decoded)
    ensures header.None? ==>
      VerifyUserAdminAuthToken(header, decode) == Failure(HttpError(Unauthorized, "Missing Authorization header"))
    ensures header.Some? && Count(' ', header.value) != 1 ==>
      VerifyUserAdminAuthToken(header, decode) == Failure(HttpError(BadRequest, "Invalid Authorization format"))
    ensures forall scheme: string, credential: string
      | ' ' !in scheme && ' ' !in credential && header == Some(scheme + " " + credential) ::
        VerifyUserAdminAuthToken(header, decode) == AdminVerdict(scheme, credential, decode)
  {
    forall scheme: string, credential: string
      | ' ' !in scheme && ' ' !in credential && header == Some(scheme + " " + credential)
      ensures VerifyUserAdminAuthToken(header, decode) == AdminVerdict(scheme, credential, decode)
    {
      SplitHeaderOf(scheme, credential);
    }
  }

  /** The admin guard returns claims only for a token the decoder accepts, and then
      exactly the claims it decoded. */
  lemma AdminAccepts(header: Option<string>, decode: string -> Decoded)
    ensures VerifyUserAdminAuthToken(header, decode).Success? <==>
      header.Some? && SplitHeader(header.value).Some? && Lower(SplitHeader(header.value).value.0) == "bearer"
      && decode(SplitHeader(header.value).value.1).Claims?
    ensures VerifyUserAdminAuthToken(header, decode).Success? ==>
      VerifyUserAdminAuthToken(header, decode).value == decode(SplitHeader(header.value).value.1).claims
  {
  }

  // ---------------------------------------------------------------------------
  // create_jwt_token

  /** `d[key] = value` on an ordered dictionary: an existing key keeps its place and
      takes the new value, a new key goes last. */
  function DictSet(fs: Fields, key: string, v: Value): (r: Fields)
    ensures key in Keys(fs) ==> Keys(r) == Keys(fs)
    ensures key !in Keys(fs) ==> r == fs + [Field(key, v)]
  {
    if key in Keys(fs) then
      seq(|fs|, i requires 0 <= i < |fs| => if fs[i].key == key then Field(key, v) else fs[i])
    else fs + [Field(key, v)]
  }

  /** After `d[key] = value`, `key` reads `value` and every other key reads what it
      read before. */
  lemma DictSetLookup(fs: Fields, key: string, v: Value, other: string)
    ensures Lookup(DictSet(fs, key, v), key) == Some(v)
    ensures other != key ==> Lookup(DictSet(fs, key, v), other) == Lookup(fs, other)
  {
    var r := DictSet(fs, key, v);
    if key in Keys(fs) {
      assert Keys(fs)[..|fs|] == Keys(fs);
      DictSetBefore(fs, key, v, key, |fs|);
      DictSetBefore(fs, key, v, other, |fs|);
    } else {
      assert Keys(r) == Keys(fs) + [key];
      LookupPrefix(r, other, |fs|, |fs|);
      assert r[..|fs|] == fs;
    }
  }

  lemma {:induction false} DictSetBefore(fs: Fields, key: string, v: Value, other: string, n: nat)
    requires key in Keys(fs) && n <= |fs|
    ensures other == key && key in Keys(fs)[..n] ==> LookupBefore(DictSet(fs, key, v), other, n) == Some(v)
    ensures other != key ==> LookupBefore(DictSet(fs, key, v), other, n) == LookupBefore(fs, other, n)
    ensures key !in Keys(fs)[..n] ==> LookupBefore(DictSet(fs, key, v), other, n) == LookupBefore(fs, other, n)
  {
    var r := DictSet(fs, key, v);
    if n > 0 {
      DictSetBefore(fs, key, v, other, n - 1);
      assert Keys(fs)[..n] == Keys(fs)[..n - 1] + [fs[n - 1].key];
      assert |r| == |fs| && r[n - 1] == if fs[n - 1].key == key then Field(key, v) else fs[n - 1];
    }
  }

  /** A small mutable dictionary: the copy `create_jwt_token` updates in place. */
  class PyDict {
    var entries: Fields

    constructor (entries: Fields)
      ensures this.entries == entries
    {
      this.entries := entries;
    }

    /** `d.copy()`: a new dictionary with the same entries. */
    method Copy() returns (d: PyDict)
      ensures fresh(d) && d.entries == entries
    {
      d := new PyDict(entries);
    }

    /** `d.update({key: value})`. */
    method Update(key: string, v: Value)
      modifies this
      ensures entries == DictSet(old(entries), key, v)
    {
      entries := DictSet(entries, key, v);
    }
  }

  /** The claims the token carries: the payload, with `"exp"` set when the expiry is
      truthy. */
  function TokenClaims(payload: Fields, expiresDelta: Value): (claims: Fields)
    ensures !Truthy(expiresDelta) ==> claims == payload
    ensures Truthy(expiresDelta) ==> Lookup(claims, "exp") == Some(expiresDelta)
  {
    if Truthy(expiresDelta) then
      DictSetLookup(payload, "exp", expiresDelta, "exp");
      DictSet(payload, "exp", expiresDelta)
    else payload
  }

  /** `create_jwt_token`: `encode` is `jwt.encode` under the stored JWT secret. The
      method changes nothing it was given: the caller's payload is read, never
      written. */
  method CreateJwtToken(payload: PyDict, expiresDelta: Value, encode: Fields -> string) returns (token: string)
    ensures token == encode(TokenClaims(payload.entries, expiresDelta))
  {
    var toEncode := payload.Copy();
    if Truthy(expiresDelta) {
      toEncode.Update("exp", expiresDelta);
    }
    token := encode(toEncode.entries);
  }

  /** `"exp"` is in the claims exactly when the expiry is truthy or the payload already
      had one, and no other key changes. */
  lemma TokenClaimsKeys(payload: Fields, expiresDelta: Value, key: string)
    ensures key != "exp" ==> Lookup(TokenClaims(payload, expiresDelta), key) == Lookup(payload, key)
    ensures Lookup(TokenClaims(payload, expiresDelta), "exp") ==
      if Truthy(expiresDelta) then Some(expiresDelta) else Lookup(payload, "exp")
  {
    if Truthy(expiresDelta) {
      DictSetLookup(payload, "exp", expiresDelta, key);
    }
  }

  /** The payload's own keys keep their order, and a new `"exp"` goes after them. */
  lemma TokenClaimsOrder(payload: Fields, expiresDelta: Value)
    ensures "exp" !in Keys(payload) && Truthy(expiresDelta) ==>
      TokenClaims(payload, expiresDelta) == payload + [Field("exp", expiresDelta)]
    ensures "exp" in Keys(payload) ==> Keys(TokenClaims(payload, expiresDelta)) == Keys(payload)
  {
  }

  /** The login route's tokens: no expiry is passed, so the claims are the payload
      itself and carry no `"exp"` of their own. */
  lemma LoginTokenNeverExpires(username: Value, email: Value, fullname: Value, role: Value)
    ensures var payload := [Field("sub", Str("yang-yang")), Field("username", username), Field("email", email),
                            Field("fullname", fullname), Field("role", role)];
      TokenClaims(payload, Null) == payload && Lookup(TokenClaims(payload, Null), "exp").None?
  {
    var payload := [Field("sub", Str("yang-yang")), Field("username", username), Field("email", email),
                    Field("fullname", fullname), Field("role", role)];
    assert Keys(payload) == ["sub", "username", "email", "fullname", "role"];
  }
}
