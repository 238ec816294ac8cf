/**
 * The authentication middleware of the research routes: a request passes
 * on only when its `x-api-key` header names a stored API key.
 */
module ApiKeyMiddleware {
  import opened Wrappers
  import opened Records
  import opened Store

  /** What the middleware does with a request: hand it on, or answer it. */
  datatype Decision = CallNext | Respond(response: Response)

  const MissingKeyResponse: Response := Response(401, ErrorReply("API Key is missing"))
  const InvalidKeyResponse: Response := Response(401, ErrorReply("Invalid API Key"))
  const LookupErrorResponse: Response := Response(500, ErrorReply("Internal Server Error"))

  /**
   * `apiKeyMiddleware` for the header value `header` against the key table
   * `keys`; `lookupFails` says whether the key lookup raises.
   */
  function Authenticate(header: Option<string>, keys: map<string, ApiKeyRecord>, lookupFails: bool): (d: Decision)
    ensures d == CallNext <==> header.Some? && header.value != "" && !lookupFails && header.value in keys
    ensures (header.None? || header.value == "") ==> d == Respond(MissingKeyResponse)
    ensures header.Some? && header.value != "" && lookupFails ==> d == Respond(LookupErrorResponse)
    ensures header.Some? && header.value != "" && !lookupFails && header.value !in keys ==>
      d == Respond(InvalidKeyResponse)
  {
    if header.None? || header.value == "" then Respond(MissingKeyResponse)
    else if lookupFails then Respond(LookupErrorResponse)
    else if header.value !in keys then Respond(InvalidKeyResponse)
    else CallNext
  }

  /** A request without a key is answered before the table is consulted. */
  lemma MissingKeyIgnoresTable(keys1: map<string, ApiKeyRecord>, keys2: map<string, ApiKeyRecord>,
                               fails1: bool, fails2: bool)
    ensures Authenticate(None, keys1, fails1) == Authenticate(None, keys2, fails2)
    ensures Authenticate(Some(""), keys1, fails1) == Authenticate(None, keys2, fails2)
  {
  }

  /** Once a non-empty key has been stored, a request presenting it passes. */
  lemma GeneratedKeyAuthenticates(t: Tables, key: string, createdAt: int)
    requires key != ""
    ensures Authenticate(Some(key), Apply(t, ApiKeyCreated(ApiKeyRecord(key, createdAt))).apiKeys, false) == CallNext
  {
  }

  /** Storing another key never revokes one that already passes. */
  lemma AuthenticationSurvivesKeyCreation(t: Tables, header: Option<string>, k: ApiKeyRecord)
    requires Authenticate(header, t.apiKeys, false) == CallNext
    ensures Authenticate(header, Apply(t, ApiKeyCreated(k)).apiKeys, false) == CallNext
  {
  }
}
