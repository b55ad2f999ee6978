/** `apiKeyAuth(req)` of src/middleware/apiKeyAuth.ts: the ordered decision
    chain missing key (401), tenant-user key, unknown key (403), tenant key
    over its rate limit (429), tenant key. */
module ApiKeyAuth {
  import opened Wrappers
  import opened Http
  import TenantRateLimit

  datatype TenantUser = TenantUser(id: string, tenantId: string, role: string)
  datatype Tenant = Tenant(id: string, name: string)

  /** The value the middleware resolves to: a JSON error response, or the
      record of whoever the key belongs to. */
  datatype Verdict = Rejected(response: Response) | UserKey(user: TenantUser) | TenantKey(tenant: Tenant)

  /** The verdict or the error thrown by the rate limiter, and the tenant
      rate-limit table afterwards. */
  datatype Auth = Auth(result: Result<Verdict>, rows: map<string, TenantRateLimit.TenantRow>)

  const ApiKeyHeader := "X-API-Key"
  const MissingKey := Response(401, JsonError("API Key is missing"), Some(JsonType))
  const InvalidKey := Response(403, JsonError("Invalid API Key"), Some(JsonType))
  const RateLimited := Response(429, JsonError("Rate limit exceeded"), Some(JsonType))

  /** The middleware, with `validateUserApiKey` and `validateApiKey` as the
      maps `userKeys` and `tenantKeys` from API key to record, and
      `checkRateLimit` run against `rows` at time `now`. */
  function Authenticate(req: Request, userKeys: map<string, TenantUser>, tenantKeys: map<string, Tenant>,
                        rows: map<string, TenantRateLimit.TenantRow>, now: int): (a: Auth)
    ensures a.rows != rows ==> a.result.Ok? && a.result.value.TenantKey?
    ensures a.result.Ok? && a.result.value.Rejected? ==>
      a.result.value.response in {MissingKey, InvalidKey, RateLimited}
  {
    var key := Header(req, ApiKeyHeader);
    if key.None? || key.value == "" then Auth(Ok(Rejected(MissingKey)), rows)
    else if key.value in userKeys then Auth(Ok(UserKey(userKeys[key.value])), rows)
    else if key.value !in tenantKeys then Auth(Ok(Rejected(InvalidKey)), rows)
    else
      var tenant := tenantKeys[key.value];
      match TenantRateLimit.Decide(TenantRateLimit.Lookup(rows, tenant.id), now)
      case Err(e) => Auth(Err(e), rows)
      case Ok(check) =>
        var rows' := TenantRateLimit.After(rows, tenant.id, now);
        if check.allowed then Auth(Ok(TenantKey(tenant)), rows') else Auth(Ok(Rejected(RateLimited)), rows')
  }

  /** A missing or empty key is refused with 401 before any lookup. */
  lemma MissingKeyFirst(req: Request, userKeys: map<string, TenantUser>, tenantKeys: map<string, Tenant>,
                        rows: map<string, TenantRateLimit.TenantRow>, now: int)
    requires Header(req, ApiKeyHeader).None? || Header(req, ApiKeyHeader).value == ""
    ensures Authenticate(req, userKeys, tenantKeys, rows, now) == Auth(Ok(Rejected(MissingKey)), rows)
  {
  }

  /** A tenant user's key yields that user; the rate limit is not touched,
      even when the same key also belongs to a tenant. */
  lemma UserKeyWins(req: Request, userKeys: map<string, TenantUser>, tenantKeys: map<string, Tenant>,
                    rows: map<string, TenantRateLimit.TenantRow>, now: int)
    requires Header(req, ApiKeyHeader).Some? && Header(req, ApiKeyHeader).value != ""
    requires Header(req, ApiKeyHeader).value in userKeys
    ensures Authenticate(req, userKeys, tenantKeys, rows, now) ==
      Auth(Ok(UserKey(userKeys[Header(req, ApiKeyHeader).value])), rows)
  {
  }

  /** A key known to neither table is refused with 403. */
  lemma UnknownKeyRefused(req: Request, userKeys: map<string, TenantUser>, tenantKeys: map<string, Tenant>,
                          rows: map<string, TenantRateLimit.TenantRow>, now: int)
    requires Header(req, ApiKeyHeader).Some? && Header(req, ApiKeyHeader).value != ""
    requires Header(req, ApiKeyHeader).value !in userKeys && Header(req, ApiKeyHeader).value !in tenantKeys
    ensures Authenticate(req, userKeys, tenantKeys, rows, now) == Auth(Ok(Rejected(InvalidKey)), rows)
  {
  }

  /** A tenant key runs the tenant's rate limit once: the table is what one
      `checkRateLimit` leaves, the tenant is returned when it allows, 429
      when it refuses, and its error propagates. */
  lemma TenantKeyRateLimited(req: Request, userKeys: map<string, TenantUser>, tenantKeys: map<string, Tenant>,
                             rows: map<string, TenantRateLimit.TenantRow>, now: int)
    requires Header(req, ApiKeyHeader).Some? && Header(req, ApiKeyHeader).value != ""
    requires Header(req, ApiKeyHeader).value !in userKeys && Header(req, ApiKeyHeader).value in tenantKeys
    ensures var t := tenantKeys[Header(req, ApiKeyHeader).value];
      var a := Authenticate(req, userKeys, tenantKeys, rows, now);
      && a.rows == TenantRateLimit.After(rows, t.id, now)
      && (match TenantRateLimit.Decide(TenantRateLimit.Lookup(rows, t.id), now)
          case Err(e) => a.result == Err(e)
          case Ok(c) => a.result == Ok(if c.allowed then TenantKey(t) else Rejected(RateLimited)))
  {
  }

  /** A tenant whose row has already counted `MaxRequests` calls in the
      running window is refused with 429 and its row is left as it was. */
  lemma FullWindowRefused(req: Request, userKeys: map<string, TenantUser>, tenantKeys: map<string, Tenant>,
                          rows: map<string, TenantRateLimit.TenantRow>, now: int, start: int)
    requires Header(req, ApiKeyHeader).Some? && Header(req, ApiKeyHeader).value != ""
    requires Header(req, ApiKeyHeader).value !in userKeys && Header(req, ApiKeyHeader).value in tenantKeys
    requires var id := tenantKeys[Header(req, ApiKeyHeader).value].id;
      id in rows && rows[id] == TenantRateLimit.TenantRow(Some(TenantRateLimit.MaxRequests), Some(start))
    requires start != 0 && now - start <= TenantRateLimit.Window
    ensures Authenticate(req, userKeys, tenantKeys, rows, now) == Auth(Ok(Rejected(RateLimited)), rows)
  {
    TenantRateLimit.InWindow(TenantRateLimit.MaxRequests, start, now);
  }

  /** The header is found whatever the case the client wrote its name in: a
      request whose `Headers` hold `x-api-key` set to a user's key is
      authenticated as that user. */
  lemma LowerCaseKeyAccepted(key: string, user: TenantUser, tenantKeys: map<string, Tenant>,
                             rows: map<string, TenantRateLimit.TenantRow>, now: int)
    requires key != ""
    ensures var req := Request("GET", "/", map["x-api-key" := key]);
      Authenticate(req, map[key := user], tenantKeys, rows, now) == Auth(Ok(UserKey(user)), rows)
  {
    assert LowerName(ApiKeyHeader) == "x-api-key";
  }
}
