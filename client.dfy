/**
 * The authenticated transport of `transport/client.ts`: the process-wide
 * token cache with its OAuth2 client-credentials refresh (section 4.4 of
 * RFC 6749), the request assembly with its bearer header (section 2.1 of
 * RFC 6750), the paging loop, and the small pure helpers next to them.
 *
 * The credential store, the wall clock, the token endpoint and the API
 * server are oracles fixed when a `Client` is built: the clock is a function
 * of how many times it has been read, the token endpoint a function of the
 * request and its sequence number, and the API server a finite script of
 * replies, one per request sent.
 */
module Transport {
  import opened Results
  import opened Text
  import opened Json
  import opened Constants
  import Helpers

  // ---------------------------------------------------------------------------
  // Placeholder substitution (resolvePath)

  /** Index of the first occurrence of `pat` in `s` at or after `i`, or -1. */
  function FindFrom(s: string, pat: string, i: nat): (r: int)
    requires i <= |s|
    ensures r == -1 || (i <= r && OccursAt(s, pat, r))
    ensures forall k :: i <= k && (r == -1 || k < r) ==> !OccursAt(s, pat, k)
    decreases |s| - i
  {
    if OccursAt(s, pat, i) then i
    else if i == |s| then -1
    else FindFrom(s, pat, i + 1)
  }

  /** `s.indexOf(pat)` */
  function IndexOfText(s: string, pat: string): (r: int)
    ensures r == -1 <==> forall k :: !OccursAt(s, pat, k)
    ensures r != -1 ==> OccursAt(s, pat, r) && forall k :: 0 <= k < r ==> !OccursAt(s, pat, k)
  {
    FindFrom(s, pat, 0)
  }

  /**
   * The replacement text `String.prototype.replace` builds from a string
   * replacement (GetSubstitution of ECMA-262 with no capture groups): `$$`
   * stands for `$`, `$&` for the matched text, `` $` `` for the text before
   * the match and `$'` for the text after it; any other character is copied.
   */
  function Substitute(rep: string, matched: string, before: string, after: string): string {
    if rep == [] then []
    else if |rep| >= 2 && rep[0] == '$' && rep[1] == '$' then "$" + Substitute(rep[2..], matched, before, after)
    else if |rep| >= 2 && rep[0] == '$' && rep[1] == '&' then matched + Substitute(rep[2..], matched, before, after)
    else if |rep| >= 2 && rep[0] == '$' && rep[1] == '`' then before + Substitute(rep[2..], matched, before, after)
    else if |rep| >= 2 && rep[0] == '$' && rep[1] == '\'' then after + Substitute(rep[2..], matched, before, after)
    else [rep[0]] + Substitute(rep[1..], matched, before, after)
  }

  /** `path.replace('{tenant}', tenantId)` exactly as JavaScript evaluates it. */
  function ResolvePathAsWritten(path: string, tenantId: string): string {
    var k := IndexOfText(path, TENANT_PLACEHOLDER);
    if k == -1 then path
    else
      var before := path[..k];
      var after := path[k + |TENANT_PLACEHOLDER|..];
      before + Substitute(tenantId, TENANT_PLACEHOLDER, before, after) + after
  }

  /** The intended substitution: the first `{tenant}` is replaced by the tenant id, verbatim. */
  function ResolvePath(path: string, tenantId: string): string {
    var k := IndexOfText(path, TENANT_PLACEHOLDER);
    if k == -1 then path else path[..k] + tenantId + path[k + |TENANT_PLACEHOLDER|..]
  }

  /**
   * Only the first occurrence of the placeholder is replaced; the code as
   * written does the same for a tenant id without `$`.
   */
  lemma ResolvePathFirstOnly(path: string, tenantId: string, k: int)
    requires OccursAt(path, TENANT_PLACEHOLDER, k)
    requires forall j :: 0 <= j < k ==> !OccursAt(path, TENANT_PLACEHOLDER, j)
    ensures ResolvePath(path, tenantId) == path[..k] + tenantId + path[k + |TENANT_PLACEHOLDER|..]
    ensures '$' !in tenantId ==> ResolvePathAsWritten(path, tenantId) == path[..k] + tenantId + path[k + |TENANT_PLACEHOLDER|..]
  {
    assert IndexOfText(path, TENANT_PLACEHOLDER) == k;
    if '$' !in tenantId {
      ResolvePathAgrees(path, tenantId);
    }
  }

  lemma ResolvePathNoPlaceholder(path: string, tenantId: string)
    requires forall k :: !OccursAt(path, TENANT_PLACEHOLDER, k)
    ensures ResolvePath(path, tenantId) == path
  {
  }

  /** A replacement without `$` is copied literally. */
  lemma {:induction false} SubstituteLiteral(rep: string, matched: string, before: string, after: string)
    requires '$' !in rep
    ensures Substitute(rep, matched, before, after) == rep
  {
    if rep != [] {
      assert rep[1..] == rep[1..];
      assert '$' !in rep[1..] by {
        forall c | c in rep[1..] ensures c != '$' { assert c in rep; }
      }
      SubstituteLiteral(rep[1..], matched, before, after);
    }
  }

  /** For a tenant id without `$`, the code as written and the intended substitution agree. */
  lemma ResolvePathAgrees(path: string, tenantId: string)
    requires '$' !in tenantId
    ensures ResolvePathAsWritten(path, tenantId) == ResolvePath(path, tenantId)
  {
    var k := IndexOfText(path, TENANT_PLACEHOLDER);
    if k != -1 {
      SubstituteLiteral(tenantId, TENANT_PLACEHOLDER, path[..k], path[k + |TENANT_PLACEHOLDER|..]);
    }
  }

  /**
   * Resolving an endpoint path puts the tenant id exactly where the
   * placeholder stood; so does the code as written, for a tenant id without `$`.
   */
  lemma ResolveApiPath(p: ApiPath, tenantId: string)
    requires WellShaped(p)
    ensures ResolvePath(PathText(p), tenantId) == p.service + "/" + API_VERSION + "/tenant/" + tenantId + p.resource
    ensures '$' !in tenantId ==> ResolvePathAsWritten(PathText(p), tenantId) == p.service + "/" + API_VERSION + "/tenant/" + tenantId + p.resource
  {
    if '$' !in tenantId {
      ResolvePathAgrees(PathText(p), tenantId);
    }
    var s := PathText(p);
    var at := |p.service| + 11;
    PlaceholderAt(p);
    PlaceholderOnlyAt(p, IndexOfText(s, TENANT_PLACEHOLDER));
    PathTextParts(p);
    assert s[..at] == p.service + "/" + API_VERSION + "/tenant/";
    assert s[at + |TENANT_PLACEHOLDER|..] == p.resource;
  }

  /**
   * No placeholder can straddle a tenant id whose neighbours hold no `{`,
   * when what follows the tenant id starts a new path segment.
   */
  lemma {:induction false} NoPlaceholderAround(head: string, tenantId: string, tail: string, k: int)
    requires '{' !in head && '{' !in tail && (tail == "" || tail[0] == '/')
    requires forall j :: !OccursAt(tenantId, TENANT_PLACEHOLDER, j)
    ensures !OccursAt(head + tenantId + tail, TENANT_PLACEHOLDER, k)
  {
    var r := head + tenantId + tail;
    var pat := TENANT_PLACEHOLDER;
    var n := |head| + |tenantId|;
    if 0 <= k && k + |pat| <= |r| {
      if k < |head| {
        assert r[k..k + |pat|][0] == head[k] != pat[0];
      } else if k >= n {
        assert r[k] == tail[k - n];
        assert tail[k - n] in tail;
        assert r[k..k + |pat|][0] == r[k];
      } else if k + |pat| <= n {
        assert r[k..k + |pat|] == tenantId[k - |head|..k - |head| + |pat|];
        assert !OccursAt(tenantId, pat, k - |head|);
      } else {
        assert '/' !in pat;
        assert r[k..k + |pat|][n - k] == tail[0] == '/';
      }
    }
  }

  lemma PathHeadHasNoBrace(service: string)
    requires '{' !in service
    ensures '{' !in service + "/" + API_VERSION + "/tenant/"
  {
    var head := service + "/" + API_VERSION + "/tenant/";
    forall i | 0 <= i < |head| ensures head[i] != '{' {
      if i >= |service| {
        assert head[i] == "/v2/tenant/"[i - |service|];
      }
    }
  }

  /**
   * With the intended substitution, no endpoint path keeps a `{tenant}`
   * placeholder unless the tenant id itself contains one.
   */
  lemma ResolvedApiPathHasNoPlaceholder(p: ApiPath, tenantId: string, k: int)
    requires WellShaped(p)
    requires forall j :: !OccursAt(tenantId, TENANT_PLACEHOLDER, j)
    ensures !OccursAt(ResolvePath(PathText(p), tenantId), TENANT_PLACEHOLDER, k)
  {
    ResolveApiPath(p, tenantId);
    PathHeadHasNoBrace(p.service);
    NoPlaceholderAround(p.service + "/" + API_VERSION + "/tenant/", tenantId, p.resource, k);
  }

  /**
   * The code as written keeps the placeholder for the tenant id `$&`: the
   * replacement pattern puts the matched `{tenant}` straight back, so the
   * request goes to the unresolved path.
   */
  lemma ResolvePathAsWrittenKeepsPlaceholder(p: ApiPath)
    ensures ResolvePathAsWritten(PathText(p), "$&") == PathText(p)
    ensures OccursAt(ResolvePathAsWritten(PathText(p), "$&"), TENANT_PLACEHOLDER, |p.service| + 11)
  {
    AmpersandRestoresMatch(PathText(p));
    PlaceholderAt(p);
  }

  /** `$&` puts back whatever it replaces, so the replacement leaves every path unchanged. */
  lemma AmpersandRestoresMatch(path: string)
    ensures ResolvePathAsWritten(path, "$&") == path
  {
    var k := IndexOfText(path, TENANT_PLACEHOLDER);
    if k != -1 {
      var before := path[..k];
      var after := path[k + |TENANT_PLACEHOLDER|..];
      assert "$&"[2..] == [];
      assert Substitute("$&", TENANT_PLACEHOLDER, before, after) == TENANT_PLACEHOLDER;
      assert before + TENANT_PLACEHOLDER + after == path;
    }
  }

  // ---------------------------------------------------------------------------
  // URL-encoding of the token request's form fields

  predicate Unreserved(c: char) {
    ('A' <= c <= 'Z') || ('a' <= c <= 'z') || ('0' <= c <= '9')
    || c == '-' || c == '_' || c == '.' || c == '!' || c == '~' || c == '*' || c == '\'' || c == '(' || c == ')'
  }

  predicate IsHexDigit(c: char) {
    ('0' <= c <= '9') || ('A' <= c <= 'F')
  }

  /** `%XX` with upper-case hexadecimal digits. */
  function PercentByte(b: nat): (s: string)
    requires b < 256
    ensures |s| == 3 && s[0] == '%' && IsHexDigit(s[1]) && IsHexDigit(s[2])
  {
    "%" + ["0123456789ABCDEF"[b / 16]] + ["0123456789ABCDEF"[b % 16]]
  }

  /** The UTF-8 encoding of a Unicode scalar value. */
  function Utf8(cp: nat): (bytes: seq<nat>)
    requires cp < 0x11_0000
    ensures 1 <= |bytes| <= 4 && forall i :: 0 <= i < |bytes| ==> bytes[i] < 256
  {
    if cp < 0x80 then [cp]
    else if cp < 0x800 then [0xC0 + cp / 64, 0x80 + cp % 64]
    else if cp < 0x1_0000 then [0xE0 + cp / 4096, 0x80 + (cp / 64) % 64, 0x80 + cp % 64]
    else [0xF0 + cp / 262144, 0x80 + (cp / 4096) % 64, 0x80 + (cp / 64) % 64, 0x80 + cp % 64]
  }

  function PercentBytes(bytes: seq<nat>): (s: string)
    requires forall i :: 0 <= i < |bytes| ==> bytes[i] < 256
    ensures forall i :: 0 <= i < |s| ==> s[i] == '%' || IsHexDigit(s[i])
  {
    if bytes == [] then "" else PercentByte(bytes[0]) + PercentBytes(bytes[1..])
  }

  /** `encodeURIComponent(s)` */
  function EncodeUriComponent(s: string): (e: string)
    ensures forall i :: 0 <= i < |e| ==> Unreserved(e[i]) || e[i] == '%' || IsHexDigit(e[i])
  {
    if s == [] then ""
    else (if Unreserved(s[0]) then [s[0]] else PercentBytes(Utf8(s[0] as nat))) + EncodeUriComponent(s[1..])
  }

  /** A string of unreserved characters is sent unchanged. */
  lemma {:induction false} EncodeUnreserved(s: string)
    requires forall i :: 0 <= i < |s| ==> Unreserved(s[i])
    ensures EncodeUriComponent(s) == s
  {
    if s != [] {
      EncodeUnreserved(s[1..]);
    }
  }

  /** An encoded field never contains the form separators `&` and `=`, so the three fields stay apart. */
  lemma EncodedHasNoSeparators(s: string)
    ensures '&' !in EncodeUriComponent(s) && '=' !in EncodeUriComponent(s)
  {
    var e := EncodeUriComponent(s);
    forall i | 0 <= i < |e| ensures e[i] != '&' && e[i] != '=' {
    }
  }

  // ---------------------------------------------------------------------------
  // The token cache (getAccessToken)

  /** The fields of the `serviceTitanApi` credential the transport reads. */
  datatype Credentials = Credentials(clientId: string, clientSecret: string, tenantId: string, authHost: string, apiHost: string)

  /** A cache entry; `expiresAt` is `None` when `expires_in * 1000` is `NaN`. */
  datatype CachedToken = CachedToken(accessToken: Value, expiresAt: Option<int>)

  datatype TokenRequest = TokenRequest(httpMethod: string, url: string, contentType: string, body: string)

  /** What the token endpoint does with a request: a parsed JSON reply, or a thrown error. */
  datatype TokenReply = TokenOk(response: Value) | TokenFailed(message: string)

  datatype TokenGrant = TokenGrant(accessToken: Value, expiresIn: Value)

  /** The part of the client's state the token logic reads and writes. */
  datatype TokenState = TokenState(cache: map<string, CachedToken>, clockReads: nat, requests: seq<TokenRequest>)

  const TOKEN_LEEWAY_MS: int := 300000
  const DEFAULT_AUTH_HOST: string := "auth.servicetitan.io"
  const DEFAULT_API_HOST: string := "api.servicetitan.io"
  const TOKEN_ERROR: string := "Failed to obtain access token from ServiceTitan"

  function CacheKey(creds: Credentials): string {
    creds.clientId + ":" + creds.tenantId
  }

  /** A cached token is reused only while it has more than five minutes left; `NaN` never compares greater. */
  predicate IsFresh(entry: CachedToken, now: int) {
    entry.expiresAt.Some? && entry.expiresAt.value > now + TOKEN_LEEWAY_MS
  }

  function AuthHost(creds: Credentials): string {
    if creds.authHost == "" then DEFAULT_AUTH_HOST else creds.authHost
  }

  /** The client-credentials grant posted to the token endpoint. */
  function TokenRequestFor(creds: Credentials): (req: TokenRequest)
    ensures req.url == "https://" + AuthHost(creds) + "/connect/token"
    ensures StartsWith(req.body, "grant_type=client_credentials&client_id=")
  {
    TokenRequest(
      "POST",
      "https://" + AuthHost(creds) + "/connect/token",
      "application/x-www-form-urlencoded",
      "grant_type=client_credentials&client_id=" + EncodeUriComponent(creds.clientId)
        + "&client_secret=" + EncodeUriComponent(creds.clientSecret))
  }

  /**
   * The token and lifetime read from the endpoint's reply (section 5.1 of
   * RFC 6749); a thrown request error passes through unchanged.
   */
  function ParseTokenReply(reply: TokenReply): (r: Result<TokenGrant>)
    ensures r.Ok? ==> Truthy(r.value.accessToken)
    ensures reply.TokenOk? && reply.response.Obj? && !Truthy(Lookup(reply.response.fields, "access_token")) ==> r == Err(TOKEN_ERROR)
    ensures reply.TokenFailed? ==> r == Err(reply.message)
  {
    match reply
    case TokenFailed(m) => Err(m)
    case TokenOk(response) =>
      match Get(response, "access_token")
      case Err(m) => Err(m)
      case Ok(token) =>
        if !Truthy(token) then Err(TOKEN_ERROR)
        else Ok(TokenGrant(token, Member(response, "expires_in")))
  }

  /** `now + expires_in * 1000`, where `expires_in` is converted to a number as JavaScript does. */
  function ExpiresAt(now: int, expiresIn: Value): Option<int> {
    match expiresIn
    case Num(n) => Some(now + n * 1000)
    case Null => Some(now)
    case Bool(b) => Some(now + if b then 1000 else 0)
    case _ => None
  }

  /**
   * getAccessToken: the token returned and the state afterwards. The clock
   * is read once to test a cached entry (only if there is one) and once more
   * to stamp a newly fetched token.
   */
  function AcquireToken(st: TokenState, creds: Credentials, clock: nat -> int, server: (nat, TokenRequest) -> TokenReply): (Result<Value>, TokenState) {
    var key := CacheKey(creds);
    var ticks := if key in st.cache then st.clockReads + 1 else st.clockReads;
    if key in st.cache && IsFresh(st.cache[key], clock(st.clockReads)) then
      (Ok(st.cache[key].accessToken), st.(clockReads := ticks))
    else
      var req := TokenRequestFor(creds);
      var asked := st.(clockReads := ticks, requests := st.requests + [req]);
      match ParseTokenReply(server(|st.requests|, req))
      case Err(m) => (Err(m), asked)
      case Ok(grant) =>
        var entry := CachedToken(grant.accessToken, ExpiresAt(clock(ticks), grant.expiresIn));
        (Ok(grant.accessToken), asked.(cache := st.cache[key := entry], clockReads := ticks + 1))
  }

  /** A fresh cached token is returned with no token request and no change to the cache. */
  lemma AcquireTokenReuses(st: TokenState, creds: Credentials, clock: nat -> int, server: (nat, TokenRequest) -> TokenReply)
    requires CacheKey(creds) in st.cache && IsFresh(st.cache[CacheKey(creds)], clock(st.clockReads))
    ensures AcquireToken(st, creds, clock, server).0 == Ok(st.cache[CacheKey(creds)].accessToken)
    ensures AcquireToken(st, creds, clock, server).1.cache == st.cache
    ensures AcquireToken(st, creds, clock, server).1.requests == st.requests
  {
  }

  /** Otherwise exactly one token request is made; an entry with exactly five minutes left counts as expired. */
  lemma AcquireTokenRequests(st: TokenState, creds: Credentials, clock: nat -> int, server: (nat, TokenRequest) -> TokenReply)
    requires CacheKey(creds) in st.cache ==> !IsFresh(st.cache[CacheKey(creds)], clock(st.clockReads))
    ensures AcquireToken(st, creds, clock, server).1.requests == st.requests + [TokenRequestFor(creds)]
  {
  }

  lemma ExpiryBoundaryIsStale(entry: CachedToken, now: int)
    requires entry.expiresAt == Some(now + TOKEN_LEEWAY_MS)
    ensures !IsFresh(entry, now)
  {
  }

  /**
   * A successful fetch overwrites only the entry under the credentials' key,
   * with the token it returns, expiring `expires_in` seconds after the clock
   * reading taken once the token has arrived.
   */
  lemma AcquireTokenStores(st: TokenState, creds: Credentials, clock: nat -> int, server: (nat, TokenRequest) -> TokenReply)
    requires CacheKey(creds) in st.cache ==> !IsFresh(st.cache[CacheKey(creds)], clock(st.clockReads))
    requires ParseTokenReply(server(|st.requests|, TokenRequestFor(creds))).Ok?
    ensures var (r, after) := AcquireToken(st, creds, clock, server);
      var grant := ParseTokenReply(server(|st.requests|, TokenRequestFor(creds))).value;
      && r == Ok(grant.accessToken)
      && CacheKey(creds) in after.cache
      && after.cache[CacheKey(creds)].accessToken == grant.accessToken
      && after.cache[CacheKey(creds)].expiresAt
         == ExpiresAt(clock(if CacheKey(creds) in st.cache then st.clockReads + 1 else st.clockReads), grant.expiresIn)
      && after.cache.Keys == st.cache.Keys + {CacheKey(creds)}
      && forall key :: key in st.cache && key != CacheKey(creds) ==> after.cache[key] == st.cache[key]
  {
  }

  /** A failed fetch, including a reply without `access_token`, reports an error and leaves the cache alone. */
  lemma AcquireTokenFailure(st: TokenState, creds: Credentials, clock: nat -> int, server: (nat, TokenRequest) -> TokenReply)
    requires CacheKey(creds) in st.cache ==> !IsFresh(st.cache[CacheKey(creds)], clock(st.clockReads))
    requires ParseTokenReply(server(|st.requests|, TokenRequestFor(creds))).Err?
    ensures AcquireToken(st, creds, clock, server).0 == Err(ParseTokenReply(server(|st.requests|, TokenRequestFor(creds))).message)
    ensures AcquireToken(st, creds, clock, server).1.cache == st.cache
  {
  }

  /**
   * A token fetched with lifetime `e` seconds at clock reading `t` is reused
   * by the next call exactly when that call's clock reading is more than five
   * minutes before `t + 1000 * e`.
   */
  lemma FetchedTokenReuse(st: TokenState, creds: Credentials, clock: nat -> int, server: (nat, TokenRequest) -> TokenReply, e: int)
    requires CacheKey(creds) !in st.cache
    requires server(|st.requests|, TokenRequestFor(creds)) == TokenOk(Obj([Field("access_token", Str("T")), Field("expires_in", Num(e))]))
    ensures var after := AcquireToken(st, creds, clock, server).1;
      var t := clock(st.clockReads);
      var now := clock(st.clockReads + 1);
      && after.clockReads == st.clockReads + 1
      && (AcquireToken(after, creds, clock, server) == (Ok(Str("T")), after.(clockReads := after.clockReads + 1))
          <==> t + e * 1000 > now + TOKEN_LEEWAY_MS)
  {
    var grant := TokenGrant(Str("T"), Num(e));
    assert Lookup([Field("access_token", Str("T")), Field("expires_in", Num(e))], "expires_in") == Num(e);
    assert ParseTokenReply(server(|st.requests|, TokenRequestFor(creds))) == Ok(grant);
    var after := AcquireToken(st, creds, clock, server).1;
    var now := clock(st.clockReads + 1);
    if !(clock(st.clockReads) + e * 1000 > now + TOKEN_LEEWAY_MS) {
      assert |AcquireToken(after, creds, clock, server).1.requests| == |after.requests| + 1;
    }
  }

  // ---------------------------------------------------------------------------
  // Request assembly (getBaseUrl, serviceTitanApiRequest)

  /** The options a caller passes to `serviceTitanApiRequest`. */
  datatype RequestOptions = RequestOptions(httpMethod: string, endpoint: string, body: Option<seq<Field>>, qs: Option<seq<Field>>)

  datatype HttpRequest = HttpRequest(httpMethod: string, url: string, headers: seq<Field>, body: Option<seq<Field>>, qs: Option<seq<Field>>)

  /** What the API server does with a request: a parsed JSON reply, or a thrown error. */
  datatype HttpReply = Replied(response: Value) | Failed(message: string)

  /** The error a request beyond the server's script meets. */
  const NO_REPLY: string := "socket hang up"

  const REQUEST_ERROR_PREFIX: string := "ServiceTitan API request failed: "

  function ApiHost(creds: Credentials): string {
    if creds.apiHost == "" then DEFAULT_API_HOST else creds.apiHost
  }

  function BaseUrl(apiHost: string): (url: string)
    ensures StartsWith(url, "https://") && url[8..] == apiHost
  {
    "https://" + apiHost
  }

  /** An object is attached only when it has at least one key. */
  function NonEmpty(obj: Option<seq<Field>>): Option<seq<Field>> {
    if obj.Some? && |obj.value| > 0 then obj else None
  }

  /** The request `serviceTitanApiRequest` sends once it holds a token. */
  function AssembleRequest(creds: Credentials, token: Value, options: RequestOptions): (req: HttpRequest)
    ensures req.httpMethod == options.httpMethod
    ensures req.url == BaseUrl(ApiHost(creds)) + "/" + ResolvePath(options.endpoint, creds.tenantId)
    ensures Lookup(req.headers, "Authorization") == Str("Bearer " + ToText(token))
    ensures Lookup(req.headers, "ST-App-Key") == Str(creds.clientId)
    ensures Lookup(req.headers, "Content-Type") == Str("application/json")
    ensures req.body.Some? <==> options.body.Some? && options.body.value != []
    ensures req.body.Some? ==> req.body == options.body
    ensures req.qs.Some? <==> options.qs.Some? && options.qs.value != []
    ensures req.qs.Some? ==> req.qs == options.qs
  {
    var headers := [
      Field("Authorization", Str("Bearer " + ToText(token))),
      Field("ST-App-Key", Str(creds.clientId)),
      Field("Content-Type", Str("application/json")) ];
    LookupFirst(headers, "ST-App-Key", 1);
    LookupFirst(headers, "Content-Type", 2);
    HttpRequest(
      options.httpMethod,
      BaseUrl(ApiHost(creds)) + "/" + ResolvePath(options.endpoint, creds.tenantId),
      headers,
      NonEmpty(options.body),
      NonEmpty(options.qs))
  }

  /** The full URL of a request to an endpoint of the path table. */
  lemma RequestUrlForApiPath(creds: Credentials, token: Value, options: RequestOptions, p: ApiPath)
    requires WellShaped(p) && options.endpoint == PathText(p)
    ensures AssembleRequest(creds, token, options).url
      == "https://" + ApiHost(creds) + "/" + p.service + "/v2/tenant/" + creds.tenantId + p.resource
  {
    ResolveApiPath(p, creds.tenantId);
  }

  /** The server's reply to request number `n` of its script. */
  function ReplyAt(script: seq<HttpReply>, n: nat): HttpReply {
    if n < |script| then script[n] else Failed(NO_REPLY)
  }

  /** A thrown request error is re-thrown with the node's prefix. */
  function Answer(reply: HttpReply): Result<Value> {
    match reply
    case Replied(v) => Ok(v)
    case Failed(m) => Err(REQUEST_ERROR_PREFIX + m)
  }

  /** A reply is the body; a transport failure keeps its message behind the node's prefix. */
  lemma AnswerWraps(reply: HttpReply)
    ensures reply.Replied? ==> Answer(reply) == Ok(reply.response)
    ensures reply.Failed? ==>
      && Answer(reply).Err?
      && EndsWith(Answer(reply).message, reply.message)
      && StartsWith(Answer(reply).message, REQUEST_ERROR_PREFIX)
  {
    if reply.Failed? {
      var m := Answer(reply).message;
      assert m == REQUEST_ERROR_PREFIX + reply.message;
      assert m[|m| - |reply.message|..] == reply.message;
      assert m[..|REQUEST_ERROR_PREFIX|] == REQUEST_ERROR_PREFIX;
    }
  }

  // ---------------------------------------------------------------------------
  // What a sequence of requests does to the client

  /**
   * What a client's calls depend on besides their arguments: how a token is
   * acquired (`AcquireToken` over the client's clock and token endpoint) and
   * the API server's script.
   */
  datatype Servers = Servers(acquire: (TokenState, Credentials) -> (Result<Value>, TokenState), apiServer: seq<HttpReply>)

  /**
   * What a run of `serviceTitanApiRequest` calls does: the outcome of each
   * call, the token state after the last one, and the API requests sent.
   */
  datatype Exchanged = Exchanged(outcomes: seq<Result<Value>>, tokens: TokenState, requests: seq<HttpRequest>)

  /** The request the API server received carries the caller's method, endpoint, body and query. */
  predicate Carries(req: HttpRequest, creds: Credentials, options: RequestOptions) {
    && req.httpMethod == options.httpMethod
    && req.url == BaseUrl(ApiHost(creds)) + "/" + ResolvePath(options.endpoint, creds.tenantId)
    && req.body == NonEmpty(options.body)
    && req.qs == NonEmpty(options.qs)
  }

  /**
   * One `serviceTitanApiRequest` call from token state `st` after `n`
   * requests have been sent: a token failure sends nothing and is the
   * outcome; otherwise one request is sent and reply `n` of the script
   * answers it.
   */
  function Exchange(st: TokenState, n: nat, creds: Credentials, servers: Servers, options: RequestOptions): Exchanged {
    var token := servers.acquire(st, creds);
    if token.0.Err? then Exchanged([Err(token.0.message)], token.1, [])
    else Exchanged([Answer(ReplyAt(servers.apiServer, n))], token.1, [AssembleRequest(creds, token.0.value, options)])
  }

  /** A call, from a token state after some number of requests have been sent. */
  type Call = (TokenState, nat, RequestOptions) -> Exchanged

  /** The calls a client with these credentials makes. */
  function CallWith(creds: Credentials, servers: Servers): Call {
    (st: TokenState, n: nat, options: RequestOptions) => Exchange(st, n, creds, servers, options)
  }

  /** The request sent carries the options of the call that sent it. */
  function CarriesFor(creds: Credentials): (HttpRequest, RequestOptions) -> bool {
    (req, options) => Carries(req, creds, options)
  }

  /**
   * One call sent at most one request, and sent one if it succeeded; the
   * request it sent is answered by reply `n` and satisfies `carries` for the
   * call's options.
   */
  predicate Sends(x: Exchanged, n: nat, apiServer: seq<HttpReply>, carries: (HttpRequest, RequestOptions) -> bool, options: RequestOptions) {
    && |x.outcomes| == 1 && |x.requests| <= 1
    && (x.outcomes[0].Ok? ==> |x.requests| == 1)
    && (|x.requests| == 1 ==> x.outcomes[0] == Answer(ReplyAt(apiServer, n)) && carries(x.requests[0], options))
  }

  /** Every call `call` makes behaves as `Sends` says. */
  ghost predicate SendsAtMostOne(call: Call, apiServer: seq<HttpReply>, carries: (HttpRequest, RequestOptions) -> bool) {
    forall st, n, options :: Sends(call(st, n, options), n, apiServer, carries, options)
  }

  /** The client's calls send at most one request each, carrying the call's options. */
  lemma ExchangeSends(creds: Credentials, servers: Servers)
    ensures SendsAtMostOne(CallWith(creds, servers), servers.apiServer, CarriesFor(creds))
  {
    forall st, n, options
      ensures Sends(CallWith(creds, servers)(st, n, options), n, servers.apiServer, CarriesFor(creds), options)
    {
      var x := Exchange(st, n, creds, servers, options);
      assert CallWith(creds, servers)(st, n, options) == x;
    }
  }

  /** The first `k` calls, one per element of `requested`, in order. */
  function Exchanges(call: Call, st: TokenState, n: nat, requested: seq<RequestOptions>, k: nat): Exchanged
    requires k <= |requested|
  {
    if k == 0 then Exchanged([], st, [])
    else
      var e := Exchanges(call, st, n, requested, k - 1);
      var x := call(e.tokens, n + |e.requests|, requested[k - 1]);
      Exchanged(e.outcomes + x.outcomes, x.tokens, e.requests + x.requests)
  }

  /** The first `k` calls do not depend on the calls after them. */
  lemma {:induction false} ExchangesPrefix(call: Call, st: TokenState, n: nat, requested: seq<RequestOptions>, longer: seq<RequestOptions>, k: nat)
    requires k <= |requested| <= |longer| && requested == longer[..|requested|]
    ensures Exchanges(call, st, n, requested, k) == Exchanges(call, st, n, longer, k)
  {
    if k > 0 {
      ExchangesPrefix(call, st, n, requested, longer, k - 1);
      assert requested[k - 1] == longer[k - 1];
    }
  }

  /** One more call after a run is one more exchange, from where the run left off. */
  lemma ExchangesSnoc(call: Call, st: TokenState, n: nat, requested: seq<RequestOptions>, options: RequestOptions)
    ensures var e := Exchanges(call, st, n, requested, |requested|);
      var x := call(e.tokens, n + |e.requests|, options);
      Exchanges(call, st, n, requested + [options], |requested| + 1) == Exchanged(e.outcomes + x.outcomes, x.tokens, e.requests + x.requests)
  {
    var longer := requested + [options];
    ExchangesPrefix(call, st, n, requested, longer, |requested|);
    assert longer[|requested|] == options;
  }

  /** A run of one call is that call. */
  lemma ExchangesSingle(call: Call, st: TokenState, n: nat, options: RequestOptions)
    ensures Exchanges(call, st, n, [options], 1) == call(st, n, options)
  {
    var x := call(st, n, options);
    assert [] + x.outcomes == x.outcomes && [] + x.requests == x.requests;
  }

  /** One outcome per call, and at most one request sent per call. */
  lemma {:induction false} ExchangesLength(call: Call, apiServer: seq<HttpReply>, carries: (HttpRequest, RequestOptions) -> bool,
                                           st: TokenState, n: nat, requested: seq<RequestOptions>, k: nat)
    requires SendsAtMostOne(call, apiServer, carries)
    requires k <= |requested|
    ensures |Exchanges(call, st, n, requested, k).outcomes| == k
    ensures |Exchanges(call, st, n, requested, k).requests| <= k
  {
    if k > 0 {
      ExchangesLength(call, apiServer, carries, st, n, requested, k - 1);
      var p := Exchanges(call, st, n, requested, k - 1);
      assert Sends(call(p.tokens, n + |p.requests|, requested[k - 1]), n + |p.requests|, apiServer, carries, requested[k - 1]);
    }
  }

  /**
   * Starting from token state `st0` with `sent0` sent, one call per element
   * of `requested`, in order, had these outcomes and left token state `st`
   * with `sent` sent.
   */
  ghost predicate Recorded(call: Call, st0: TokenState, sent0: seq<HttpRequest>,
                           requested: seq<RequestOptions>, outcomes: seq<Result<Value>>, st: TokenState, sent: seq<HttpRequest>) {
    var e := Exchanges(call, st0, |sent0|, requested, |requested|);
    outcomes == e.outcomes && |outcomes| == |requested| && st == e.tokens && sent == sent0 + e.requests
  }

  /** A record extended by one more call. */
  lemma RecordedSnoc(call: Call, st0: TokenState, sent0: seq<HttpRequest>,
                     requested: seq<RequestOptions>, outcomes: seq<Result<Value>>, st1: TokenState, sent1: seq<HttpRequest>,
                     options: RequestOptions, r: Result<Value>, st2: TokenState, sent2: seq<HttpRequest>)
    requires Recorded(call, st0, sent0, requested, outcomes, st1, sent1)
    requires Recorded(call, st1, sent1, [options], [r], st2, sent2)
    ensures Recorded(call, st0, sent0, requested + [options], outcomes + [r], st2, sent2)
  {
    var e := Exchanges(call, st0, |sent0|, requested, |requested|);
    var x := call(st1, |sent1|, options);
    ExchangesSingle(call, st1, |sent1|, options);
    assert [r] == x.outcomes && st2 == x.tokens && sent2 == sent1 + x.requests;
    ExchangesSnoc(call, st0, |sent0|, requested, options);
    var l := Exchanges(call, st0, |sent0|, requested + [options], |requested| + 1);
    assert l.outcomes == outcomes + [r] && l.tokens == st2;
    AppendAssociates(sent0, e.requests, x.requests);
  }

  /**
   * A record of one call says what `serviceTitanApiRequest` does: the token
   * is acquired; a token failure is the outcome and sends nothing; otherwise
   * the request assembled with the token is sent and the server's next reply
   * is the outcome.
   */
  lemma RecordedOnce(creds: Credentials, servers: Servers, st0: TokenState, sent0: seq<HttpRequest>,
                     options: RequestOptions, r: Result<Value>, st: TokenState, sent: seq<HttpRequest>)
    requires Recorded(CallWith(creds, servers), st0, sent0, [options], [r], st, sent)
    ensures var token := servers.acquire(st0, creds);
      && st == token.1
      && (token.0.Err? ==> r == Err(token.0.message) && sent == sent0)
      && (token.0.Ok? ==> r == Answer(ReplyAt(servers.apiServer, |sent0|)) && sent == sent0 + [AssembleRequest(creds, token.0.value, options)])
  {
    ExchangesSingle(CallWith(creds, servers), st0, |sent0|, options);
    var x := Exchange(st0, |sent0|, creds, servers, options);
    assert CallWith(creds, servers)(st0, |sent0|, options) == x;
    assert [r] == x.outcomes;
  }

  /** When every call succeeded, every call sent its request. */
  lemma {:induction false} ExchangesAllSent(call: Call, apiServer: seq<HttpReply>, carries: (HttpRequest, RequestOptions) -> bool,
                                            st: TokenState, n: nat, requested: seq<RequestOptions>, k: nat)
    requires SendsAtMostOne(call, apiServer, carries)
    requires k <= |requested|
    requires forall i :: 0 <= i < |Exchanges(call, st, n, requested, k).outcomes| ==> Exchanges(call, st, n, requested, k).outcomes[i].Ok?
    ensures |Exchanges(call, st, n, requested, k).requests| == k
  {
    if k > 0 {
      var e := Exchanges(call, st, n, requested, k);
      var p := Exchanges(call, st, n, requested, k - 1);
      var x := call(p.tokens, n + |p.requests|, requested[k - 1]);
      ExchangesLength(call, apiServer, carries, st, n, requested, k - 1);
      assert Sends(x, n + |p.requests|, apiServer, carries, requested[k - 1]);
      assert e.outcomes == p.outcomes + x.outcomes && e.requests == p.requests + x.requests;
      forall i | 0 <= i < k - 1
        ensures p.outcomes[i].Ok?
      {
        assert e.outcomes[i] == p.outcomes[i];
      }
      ExchangesAllSent(call, apiServer, carries, st, n, requested, k - 1);
      assert x.outcomes[0] == e.outcomes[k - 1];
    }
  }

  /**
   * When every call succeeded, the last call sent the last request, which
   * carries its options, and its outcome is the server's reply to it.
   */
  lemma ExchangesLastAnswered(call: Call, apiServer: seq<HttpReply>, carries: (HttpRequest, RequestOptions) -> bool,
                              st: TokenState, n: nat, requested: seq<RequestOptions>, k: nat)
    requires SendsAtMostOne(call, apiServer, carries)
    requires 0 < k <= |requested|
    requires forall i :: 0 <= i < |Exchanges(call, st, n, requested, k).outcomes| ==> Exchanges(call, st, n, requested, k).outcomes[i].Ok?
    ensures var e := Exchanges(call, st, n, requested, k);
      && k - 1 < |e.outcomes|
      && k - 1 < |e.requests|
      && e.outcomes[k - 1] == Answer(ReplyAt(apiServer, n + k - 1))
      && carries(e.requests[k - 1], requested[k - 1])
  {
    var e := Exchanges(call, st, n, requested, k);
    var p := Exchanges(call, st, n, requested, k - 1);
    var x := call(p.tokens, n + |p.requests|, requested[k - 1]);
    ExchangesLength(call, apiServer, carries, st, n, requested, k - 1);
    assert Sends(x, n + |p.requests|, apiServer, carries, requested[k - 1]);
    assert e.outcomes == p.outcomes + x.outcomes && e.requests == p.requests + x.requests;
    forall i | 0 <= i < k - 1
      ensures p.outcomes[i].Ok?
    {
      assert e.outcomes[i] == p.outcomes[i];
    }
    ExchangesAllSent(call, apiServer, carries, st, n, requested, k - 1);
    assert x.outcomes[0] == e.outcomes[k - 1];
    assert |p.requests| == k - 1 && |x.requests| == 1;
    assert e.requests[k - 1] == x.requests[0];
  }

  /**
   * When call `j` and every call before it succeeded, call `j` sent request
   * number `n + j`, which carries `requested[j]`, and its outcome is the
   * server's reply to that request.
   */
  lemma {:induction false} ExchangesAnswered(call: Call, apiServer: seq<HttpReply>, carries: (HttpRequest, RequestOptions) -> bool,
                                             st: TokenState, n: nat, requested: seq<RequestOptions>, k: nat, j: nat)
    requires SendsAtMostOne(call, apiServer, carries)
    requires j < k <= |requested|
    requires forall i :: 0 <= i <= j && i < |Exchanges(call, st, n, requested, k).outcomes| ==> Exchanges(call, st, n, requested, k).outcomes[i].Ok?
    ensures var e := Exchanges(call, st, n, requested, k);
      && j < |e.outcomes|
      && j < |e.requests|
      && e.outcomes[j] == Answer(ReplyAt(apiServer, n + j))
      && carries(e.requests[j], requested[j])
  {
    var e := Exchanges(call, st, n, requested, k);
    var p := Exchanges(call, st, n, requested, k - 1);
    var x := call(p.tokens, n + |p.requests|, requested[k - 1]);
    ExchangesLength(call, apiServer, carries, st, n, requested, k - 1);
    assert e.outcomes == p.outcomes + x.outcomes && e.requests == p.requests + x.requests;
    if j < k - 1 {
      forall i | 0 <= i <= j
        ensures p.outcomes[i].Ok?
      {
        assert e.outcomes[i] == p.outcomes[i];
      }
      ExchangesAnswered(call, apiServer, carries, st, n, requested, k - 1, j);
      assert j < |p.outcomes| && j < |p.requests|;
      assert e.outcomes[j] == p.outcomes[j] && e.requests[j] == p.requests[j];
    } else {
      ExchangesLastAnswered(call, apiServer, carries, st, n, requested, k);
    }
  }

  /**
   * A run that went on only while its calls succeeded: every call that
   * succeeded sent its own request, in order, and was answered by the
   * server's reply to it.
   */
  lemma ExchangesInOrder(call: Call, apiServer: seq<HttpReply>, carries: (HttpRequest, RequestOptions) -> bool, st: TokenState, n: nat, requested: seq<RequestOptions>)
    requires SendsAtMostOne(call, apiServer, carries)
    requires var e := Exchanges(call, st, n, requested, |requested|);
      forall i :: 0 <= i < |e.outcomes| - 1 ==> e.outcomes[i].Ok?
    ensures var e := Exchanges(call, st, n, requested, |requested|);
      && |e.outcomes| == |requested|
      && forall j :: 0 <= j < |e.outcomes| && e.outcomes[j].Ok? ==>
        && j < |e.requests|
        && e.outcomes[j] == Answer(ReplyAt(apiServer, n + j))
        && carries(e.requests[j], requested[j])
  {
    ExchangesLength(call, apiServer, carries, st, n, requested, |requested|);
    var e := Exchanges(call, st, n, requested, |requested|);
    forall j | 0 <= j < |e.outcomes| && e.outcomes[j].Ok? {
      ExchangesAnswered(call, apiServer, carries, st, n, requested, |requested|, j);
    }
  }


  // ---------------------------------------------------------------------------
  // The paging loop (serviceTitanApiRequestAllItems)

  const PAGE_SIZE: int := 100

  /** `options.qs || {}` */
  function BaseQuery(qs: Option<seq<Field>>): seq<Field> {
    if qs.Some? then qs.value else []
  }

  /** The query of page `page`: the caller's query with `pageSize` and `page` assigned. */
  function PageQuery(base: seq<Field>, page: nat): seq<Field> {
    Put(Put(base, "pageSize", Num(PAGE_SIZE)), "page", Num(page))
  }

  /** The request options for page `page`. */
  function PageOptions(options: RequestOptions, page: nat): RequestOptions {
    options.(qs := Some(PageQuery(BaseQuery(options.qs), page)))
  }

  /** The options of pages 1 to `count`, in order. */
  function PageRequests(options: RequestOptions, count: nat): seq<RequestOptions>
    decreases count
  {
    if count == 0 then [] else PageRequests(options, count - 1) + [PageOptions(options, count)]
  }

  /** Page `j + 1` is the `j`-th request of the loop. */
  lemma {:induction false} PageRequestsAt(options: RequestOptions, count: nat)
    ensures |PageRequests(options, count)| == count
    ensures forall j :: 0 <= j < count ==> PageRequests(options, count)[j] == PageOptions(options, j + 1)
    decreases count
  {
    if count > 0 {
      PageRequestsAt(options, count - 1);
    }
  }

  /** `(response[propertyName] || [])`, as spread into the result. */
  function PageItems(response: Value, propertyName: string): Result<seq<Value>> {
    match Get(response, propertyName)
    case Err(m) => Err(m)
    case Ok(items) => if Truthy(items) then IterateItems(items) else Ok([])
  }

  /** Where the loop stands after a page: it goes on with what it has collected, or it has finished. */
  datatype Step = More(collected: seq<Value>) | Done(result: Result<seq<Value>>)

  /** One iteration of the do-while loop, given the outcome of that page's request. */
  function PageStep(collected: seq<Value>, outcome: Result<Value>, propertyName: string, limit: nat): Step {
    match outcome
    case Err(m) => Done(Err(m))
    case Ok(response) =>
      match PageItems(response, propertyName)
      case Err(m) => Done(Err(m))
      case Ok(items) =>
        var all := collected + items;
        if limit != 0 && |all| >= limit then Done(Ok(all[..limit]))
        else if !Truthy(Member(response, "hasMore")) || |items| < PAGE_SIZE then Done(Ok(all))
        else More(all)
  }

  /** The loop run over the outcomes of its requests, in page order. */
  function Run(collected: seq<Value>, outcomes: seq<Result<Value>>, propertyName: string, limit: nat): Step
    decreases |outcomes|
  {
    if outcomes == [] then More(collected)
    else match PageStep(collected, outcomes[0], propertyName, limit)
      case Done(r) => Done(r)
      case More(all) => Run(all, outcomes[1..], propertyName, limit)
  }

  /** The items of every page, concatenated in page order (a page that failed contributes nothing). */
  function Fetched(outcomes: seq<Result<Value>>, propertyName: string): seq<Value>
    decreases |outcomes|
  {
    if outcomes == [] then []
    else
      var page := if outcomes[0].Ok? && PageItems(outcomes[0].value, propertyName).Ok?
        then PageItems(outcomes[0].value, propertyName).value else [];
      page + Fetched(outcomes[1..], propertyName)
  }

  /**
   * While the loop goes on, it has collected exactly the items of the pages
   * so far, in order, and every one of those pages was full and said
   * `hasMore`.
   */
  lemma {:induction false} RunCollects(collected: seq<Value>, outcomes: seq<Result<Value>>, propertyName: string, limit: nat)
    requires Run(collected, outcomes, propertyName, limit).More?
    ensures Run(collected, outcomes, propertyName, limit).collected == collected + Fetched(outcomes, propertyName)
    ensures forall j :: 0 <= j < |outcomes| ==>
      && outcomes[j].Ok?
      && PageItems(outcomes[j].value, propertyName).Ok?
      && |PageItems(outcomes[j].value, propertyName).value| >= PAGE_SIZE
      && Truthy(Member(outcomes[j].value, "hasMore"))
    decreases |outcomes|
  {
    if outcomes != [] {
      var all := Run(collected, outcomes[..1], propertyName, limit);
      var items := PageItems(outcomes[0].value, propertyName).value;
      RunCollects(collected + items, outcomes[1..], propertyName, limit);
      forall j | 0 < j < |outcomes|
        ensures outcomes[j] == outcomes[1..][j - 1]
      {
      }
      assert collected + items + Fetched(outcomes[1..], propertyName) == collected + Fetched(outcomes, propertyName);
    }
  }

  /**
   * The result of a finished run: without a limit it is every item fetched,
   * in page order; with a limit it is the first `limit` items when that many
   * were fetched, and all of them otherwise.
   */
  lemma {:induction false} RunResult(outcomes: seq<Result<Value>>, propertyName: string, limit: nat, items: seq<Value>)
    requires outcomes != [] && Run([], outcomes[..|outcomes| - 1], propertyName, limit).More?
    requires Run([], outcomes, propertyName, limit) == Done(Ok(items))
    ensures limit == 0 ==> items == Fetched(outcomes, propertyName)
    ensures limit != 0 ==> |items| <= limit && items <= Fetched(outcomes, propertyName)
    ensures limit != 0 && |items| < limit ==> items == Fetched(outcomes, propertyName)
  {
    RunResultFrom([], outcomes, propertyName, limit, items);
  }

  lemma {:induction false} RunResultFrom(collected: seq<Value>, outcomes: seq<Result<Value>>, propertyName: string, limit: nat, items: seq<Value>)
    requires limit != 0 ==> |collected| < limit
    requires outcomes != [] && Run(collected, outcomes[..|outcomes| - 1], propertyName, limit).More?
    requires Run(collected, outcomes, propertyName, limit) == Done(Ok(items))
    ensures limit == 0 ==> items == collected + Fetched(outcomes, propertyName)
    ensures limit != 0 ==> |items| <= limit && items <= collected + Fetched(outcomes, propertyName)
    ensures limit != 0 && |items| < limit ==> items == collected + Fetched(outcomes, propertyName)
    decreases |outcomes|
  {
    var step := PageStep(collected, outcomes[0], propertyName, limit);
    assert outcomes[0].Ok? && PageItems(outcomes[0].value, propertyName).Ok?;
    var page := PageItems(outcomes[0].value, propertyName).value;
    var all := collected + page;
    var rest := Fetched(outcomes[1..], propertyName);
    assert collected + Fetched(outcomes, propertyName) == all + rest;
    if step.More? {
      assert outcomes[..|outcomes| - 1][1..] == outcomes[1..][..|outcomes| - 2];
      RunResultFrom(all, outcomes[1..], propertyName, limit, items);
    } else {
      assert |outcomes| == 1;
      assert rest == [];
    }
    if step.More? {
    } else if limit != 0 && |all| >= limit {
      assert items == all[..limit];
      assert (all + rest)[..limit] == all[..limit];
    } else {
      assert items == all;
    }
  }

  /**
   * Every call that succeeded was request number `|sent0| + j` of the
   * server's script, carrying `requested[j]`, and its outcome is the
   * server's reply to that request.
   */
  ghost predicate AnsweredInOrder(sent0: seq<HttpRequest>, sent: seq<HttpRequest>, apiServer: seq<HttpReply>, carries: (HttpRequest, RequestOptions) -> bool,
                                  requested: seq<RequestOptions>, outcomes: seq<Result<Value>>) {
    forall j :: 0 <= j < |outcomes| && outcomes[j].Ok? ==>
      && |sent0| + j < |sent|
      && j < |requested|
      && outcomes[j] == Answer(ReplyAt(apiServer, |sent0| + j))
      && carries(sent[|sent0| + j], requested[j])
  }

  /**
   * One more page of the paging loop, as the client requested it: the run
   * takes one more step, and the requests are answered in order, since every
   * page but the last succeeded.
   */
  lemma NextPage(call: Call, apiServer: seq<HttpReply>, carries: (HttpRequest, RequestOptions) -> bool,
                 st0: TokenState, sent0: seq<HttpRequest>, requested: seq<RequestOptions>,
                 before: seq<Result<Value>>, response: Result<Value>, st: TokenState, sent: seq<HttpRequest>, propertyName: string, limit: nat)
    requires SendsAtMostOne(call, apiServer, carries)
    requires Continuing(before, propertyName, limit) && Run([], before, propertyName, limit).More?
    requires Recorded(call, st0, sent0, requested, before + [response], st, sent)
    ensures Run([], before + [response], propertyName, limit)
      == PageStep(Run([], before, propertyName, limit).collected, response, propertyName, limit)
    ensures Run([], before + [response], propertyName, limit).More? ==> Continuing(before + [response], propertyName, limit)
    ensures (before + [response])[..|before|] == before
    ensures AnsweredInOrder(sent0, sent, apiServer, carries, requested, before + [response])
  {
    RunExtend(before, response, propertyName, limit);
    assert (before + [response])[..|before|] == before;
    RunCollects([], before, propertyName, limit);
    var outcomes := before + [response];
    assert forall i :: 0 <= i < |outcomes| - 1 ==> outcomes[i] == before[i];
    AnsweredWhileSucceeding(call, apiServer, carries, st0, sent0, requested, outcomes, st, sent);
  }

  /**
   * A run of calls that went on only while its calls succeeded is answered
   * in order.
   */
  lemma AnsweredWhileSucceeding(call: Call, apiServer: seq<HttpReply>, carries: (HttpRequest, RequestOptions) -> bool,
                                st0: TokenState, sent0: seq<HttpRequest>, requested: seq<RequestOptions>,
                                outcomes: seq<Result<Value>>, st: TokenState, sent: seq<HttpRequest>)
    requires SendsAtMostOne(call, apiServer, carries)
    requires forall i :: 0 <= i < |outcomes| - 1 ==> outcomes[i].Ok?
    requires Recorded(call, st0, sent0, requested, outcomes, st, sent)
    ensures AnsweredInOrder(sent0, sent, apiServer, carries, requested, outcomes)
  {
    ExchangesInOrder(call, apiServer, carries, st0, |sent0|, requested);
    var e := Exchanges(call, st0, |sent0|, requested, |requested|);
    forall j | 0 <= j < |outcomes| && outcomes[j].Ok?
      ensures |sent0| + j < |sent|
      ensures sent[|sent0| + j] == e.requests[j]
    {
      assert outcomes[j] == e.outcomes[j] && j < |e.requests|;
    }
  }

  // ---------------------------------------------------------------------------
  // The stateful client

  class Client {
    /** The module-level token cache, keyed by `clientId:tenantId`. */
    var tokenCache: map<string, CachedToken>
    /** How many times `Date.now()` has been read. */
    var clockReads: nat
    /** Every token request made, in order. */
    var tokenRequests: seq<TokenRequest>
    /** Every API request sent, in order. */
    var sent: seq<HttpRequest>

    const clock: nat -> int
    const tokenServer: (nat, TokenRequest) -> TokenReply
    const apiServer: seq<HttpReply>

    function TokenStateOf(): TokenState
      reads this
    {
      TokenState(tokenCache, clockReads, tokenRequests)
    }

    function ServersOf(): Servers {
      Servers((st, creds) => AcquireToken(st, creds, clock, tokenServer), apiServer)
    }

    /**
     * Starting from token state `st0` with `sent0` sent, the client made one
     * `serviceTitanApiRequest` call per element of `requested`, in order,
     * with these outcomes, and nothing else.
     */
    ghost predicate Performed(st0: TokenState, sent0: seq<HttpRequest>, creds: Credentials, requested: seq<RequestOptions>, outcomes: seq<Result<Value>>)
      reads this
    {
      Recorded(CallWith(creds, ServersOf()), st0, sent0, requested, outcomes, TokenStateOf(), sent)
    }

    constructor (clock: nat -> int, tokenServer: (nat, TokenRequest) -> TokenReply, apiServer: seq<HttpReply>)
      ensures tokenCache == map[] && clockReads == 0 && tokenRequests == [] && sent == []
      ensures this.clock == clock && this.tokenServer == tokenServer && this.apiServer == apiServer
    {
      this.clock := clock;
      this.tokenServer := tokenServer;
      this.apiServer := apiServer;
      tokenCache := map[];
      clockReads := 0;
      tokenRequests := [];
      sent := [];
    }

    /** `getAccessToken` */
    method GetAccessToken(creds: Credentials) returns (r: Result<Value>)
      modifies this
      ensures (r, TokenStateOf()) == AcquireToken(old(TokenStateOf()), creds, clock, tokenServer)
      ensures sent == old(sent)
    {
      var key := CacheKey(creds);
      if key in tokenCache {
        var now := clock(clockReads);
        clockReads := clockReads + 1;
        if IsFresh(tokenCache[key], now) {
          return Ok(tokenCache[key].accessToken);
        }
      }
      var req := TokenRequestFor(creds);
      var reply := tokenServer(|tokenRequests|, req);
      tokenRequests := tokenRequests + [req];
      var grant := ParseTokenReply(reply);
      if grant.Err? {
        return Err(grant.message);
      }
      var now := clock(clockReads);
      clockReads := clockReads + 1;
      tokenCache := tokenCache[key := CachedToken(grant.value.accessToken, ExpiresAt(now, grant.value.expiresIn))];
      r := Ok(grant.value.accessToken);
    }

    /** `serviceTitanApiRequest`: fetch a token, then send one request and wrap a failure. */
    method ApiRequest(creds: Credentials, options: RequestOptions) returns (r: Result<Value>)
      modifies this
      ensures TokenStateOf() == AcquireToken(old(TokenStateOf()), creds, clock, tokenServer).1
      ensures var token := AcquireToken(old(TokenStateOf()), creds, clock, tokenServer).0;
        token.Err? ==> r == Err(token.message) && sent == old(sent)
      ensures var token := AcquireToken(old(TokenStateOf()), creds, clock, tokenServer).0;
        token.Ok? ==> sent == old(sent) + [AssembleRequest(creds, token.value, options)] && r == Answer(ReplyAt(apiServer, |old(sent)|))
      ensures Performed(old(TokenStateOf()), old(sent), creds, [options], [r])
    {
      ExchangesSingle(CallWith(creds, ServersOf()), TokenStateOf(), |sent|, options);
      var token := GetAccessToken(creds);
      if token.Err? {
        return Err(token.message);
      }
      var req := AssembleRequest(creds, token.value, options);
      var reply := ReplyAt(apiServer, |sent|);
      sent := sent + [req];
      r := Answer(reply);
    }

    /**
     * One more call, which extends the record of the calls made so far; an
     * answered request used up one reply of the server's script.
     */
    method ApiRequestNext(creds: Credentials, options: RequestOptions, ghost st0: TokenState, ghost sent0: seq<HttpRequest>,
                       ghost requested: seq<RequestOptions>, ghost outcomes: seq<Result<Value>>) returns (r: Result<Value>)
      modifies this
      requires Performed(st0, sent0, creds, requested, outcomes)
      ensures Performed(st0, sent0, creds, requested + [options], outcomes + [r])
      ensures r.Ok? ==> |old(sent)| < |apiServer| && |sent| == |old(sent)| + 1 && r == Answer(ReplyAt(apiServer, |old(sent)|))
    {
      ghost var before, mid := sent, TokenStateOf();
      r := ApiRequest(creds, options);
      RecordedSnoc(CallWith(creds, ServersOf()), st0, sent0, requested, outcomes, mid, before, options, r, TokenStateOf(), sent);
    }

    /**
     * One pass of the paging loop: page `page` is requested, which takes the
     * run one step further and keeps the pages answered in order.
     */
    method RequestPage(creds: Credentials, options: RequestOptions, page: nat, propertyName: string, limit: nat,
                       ghost st0: TokenState, ghost sent0: seq<HttpRequest>, ghost requested: seq<RequestOptions>,
                       ghost outcomes: seq<Result<Value>>, ghost collected: seq<Value>) returns (response: Result<Value>)
      modifies this
      requires Continuing(outcomes, propertyName, limit) && Run([], outcomes, propertyName, limit) == More(collected)
      requires Performed(st0, sent0, creds, requested, outcomes)
      ensures Performed(st0, sent0, creds, requested + [PageOptions(options, page)], outcomes + [response])
      ensures AnsweredInOrder(sent0, sent, apiServer, CarriesFor(creds), requested + [PageOptions(options, page)], outcomes + [response])
      ensures Run([], outcomes + [response], propertyName, limit) == PageStep(collected, response, propertyName, limit)
      ensures Run([], outcomes + [response], propertyName, limit).More? ==> Continuing(outcomes + [response], propertyName, limit)
      ensures response.Ok? ==> |old(sent)| < |apiServer| && |sent| == |old(sent)| + 1
    {
      var pageOptions := PageOptions(options, page);
      response := ApiRequestNext(creds, pageOptions, st0, sent0, requested, outcomes);
      ExchangeSends(creds, ServersOf());
      NextPage(CallWith(creds, ServersOf()), apiServer, CarriesFor(creds), st0, sent0, requested + [pageOptions], outcomes, response, TokenStateOf(), sent, propertyName, limit);
    }

    /**
     * `serviceTitanApiRequestAllItems`: pages 1, 2, 3, ... are requested in
     * turn until the limit is reached, a page says there is no more, a page
     * is short, or a request fails. `limit == 0` stands for no limit.
     */
    method ApiRequestAllItems(creds: Credentials, options: RequestOptions, propertyName: string, limit: nat)
      returns (r: Result<seq<Value>>, ghost outcomes: seq<Result<Value>>, ghost requested: seq<RequestOptions>)
      modifies this
      ensures |outcomes| == |requested| > 0
      ensures requested == PageRequests(options, |requested|)
      ensures Continuing(outcomes[..|outcomes| - 1], propertyName, limit)
      ensures Run([], outcomes, propertyName, limit) == Done(r)
      ensures Performed(old(TokenStateOf()), old(sent), creds, requested, outcomes)
      ensures AnsweredInOrder(old(sent), sent, apiServer, CarriesFor(creds), requested, outcomes)
    {
      ghost var st0, sent0 := TokenStateOf(), sent;
      var returnData: seq<Value> := [];
      var page: nat := 1;
      outcomes := [];
      requested := [];
      while true
        invariant page == |outcomes| + 1 && |requested| == |outcomes|
        invariant requested == PageRequests(options, |requested|)
        invariant Continuing(outcomes, propertyName, limit)
        invariant Run([], outcomes, propertyName, limit) == More(returnData)
        invariant Performed(st0, sent0, creds, requested, outcomes)
        decreases |apiServer| - |sent|
      {
        var response := RequestPage(creds, options, page, propertyName, limit, st0, sent0, requested, outcomes, returnData);
        ghost var prior := outcomes;
        outcomes := outcomes + [response];
        requested := requested + [PageOptions(options, page)];
        assert outcomes[..|outcomes| - 1] == prior;
        if response.Err? {
          return Err(response.message), outcomes, requested;
        }
        var items := PageItems(response.value, propertyName);
        if items.Err? {
          return Err(items.message), outcomes, requested;
        }
        returnData := returnData + items.value;
        if limit != 0 && |returnData| >= limit {
          return Ok(returnData[..limit]), outcomes, requested;
        }
        var hasMore := Member(response.value, "hasMore");
        if !Truthy(hasMore) || |items.value| < PAGE_SIZE {
          break;
        }
        page := page + 1;
      }
      r := Ok(returnData);
    }
  }

  /** The run is still going after every prefix of its outcomes. */
  ghost predicate Continuing(outcomes: seq<Result<Value>>, propertyName: string, limit: nat) {
    forall j :: 0 <= j <= |outcomes| ==> Run([], outcomes[..j], propertyName, limit).More?
  }

  lemma RunExtend(outcomes: seq<Result<Value>>, next: Result<Value>, propertyName: string, limit: nat)
    requires Continuing(outcomes, propertyName, limit) && Run([], outcomes, propertyName, limit).More?
    ensures Run([], outcomes + [next], propertyName, limit)
      == PageStep(Run([], outcomes, propertyName, limit).collected, next, propertyName, limit)
    ensures Run([], outcomes + [next], propertyName, limit).More? ==> Continuing(outcomes + [next], propertyName, limit)
  {
    assert Run([], outcomes[..|outcomes|], propertyName, limit).More?;
    assert outcomes[..|outcomes|] == outcomes;
    RunAppend([], outcomes, next, propertyName, limit);
    var longer := outcomes + [next];
    forall j | 0 <= j <= |longer|
      ensures Run([], longer[..j], propertyName, limit).More? || j == |longer|
    {
      if j <= |outcomes| {
        assert longer[..j] == outcomes[..j];
      }
    }
    assert longer[..|longer|] == longer;
  }

  /** Running one more page after a run that is still going is one more step. */
  lemma {:induction false} RunAppend(collected: seq<Value>, outcomes: seq<Result<Value>>, next: Result<Value>, propertyName: string, limit: nat)
    requires Run(collected, outcomes, propertyName, limit).More?
    ensures Run(collected, outcomes + [next], propertyName, limit)
      == PageStep(Run(collected, outcomes, propertyName, limit).collected, next, propertyName, limit)
    decreases |outcomes|
  {
    if outcomes != [] {
      assert (outcomes + [next])[1..] == outcomes[1..] + [next];
      var all := PageStep(collected, outcomes[0], propertyName, limit).collected;
      RunAppend(all, outcomes[1..], next, propertyName, limit);
    } else {
      assert [next][1..] == [];
    }
  }

  // ---------------------------------------------------------------------------
  // Pure helpers

  /** The first required parameter, in list order, that is `undefined`, `null` or `''`. */
  function FirstMissing(params: seq<Field>, requiredFields: seq<string>): (r: Option<string>)
    ensures r.Some? ==> r.value in requiredFields && IsBlank(Lookup(params, r.value))
    ensures r.None? <==> forall f :: f in requiredFields ==> !IsBlank(Lookup(params, f))
  {
    if requiredFields == [] then None
    else if IsBlank(Lookup(params, requiredFields[0])) then Some(requiredFields[0])
    else FirstMissing(params, requiredFields[1..])
  }

  /** The first missing parameter is the head of the list `validateRequired` reports. */
  lemma {:induction false} FirstMissingIsFirstReported(params: seq<Field>, requiredFields: seq<string>)
    ensures FirstMissing(params, requiredFields)
      == if Helpers.MissingFields(params, requiredFields) == [] then None else Some(Helpers.MissingFields(params, requiredFields)[0])
  {
    if requiredFields != [] && !IsBlank(Lookup(params, requiredFields[0])) {
      FirstMissingIsFirstReported(params, requiredFields[1..]);
    }
  }

  function MissingParamMessage(field: string): string {
    "Required parameter \"" + field + "\" is missing"
  }

  /** `validateRequiredParams`: stops at the first missing field. */
  method ValidateRequiredParams(params: seq<Field>, requiredFields: seq<string>) returns (r: Result<()>)
    ensures FirstMissing(params, requiredFields).None? ==> r == Ok(())
    ensures FirstMissing(params, requiredFields).Some? ==> r == Err(MissingParamMessage(FirstMissing(params, requiredFields).value))
  {
    for i := 0 to |requiredFields|
      invariant FirstMissing(params, requiredFields) == FirstMissing(params, requiredFields[i..])
    {
      assert requiredFields[i..][1..] == requiredFields[i + 1..];
      var field := requiredFields[i];
      var value := Lookup(params, field);
      if value == Undefined || value == Null || value == Str("") {
        return Err(MissingParamMessage(field));
      }
    }
    r := Ok(());
  }

  /** `formatDate` on a string: the date text is passed through untouched. */
  function FormatDate(date: string): string {
    date
  }

  /** What a `catch` receives: an `Error` (with its message and any `response`), or some other thrown value. */
  datatype Thrown = ErrorInstance(message: string, response: Value) | OtherThrown(value: Value)

  /** `v?.key` */
  function OptionalMember(v: Value, key: string): Value {
    if v == Undefined || v == Null then Undefined else Member(v, key)
  }

  /**
   * `parseServiceTitanError`: the response body's `message`, else its
   * `errors` joined with `", "`, else the error's own message. Calling
   * `join` on a truthy `errors` that is not an array throws.
   */
  function ParseServiceTitanError(error: Thrown): (r: Result<Value>)
    ensures error.OtherThrown? ==> r == Ok(Str("Unknown error occurred"))
    ensures error.ErrorInstance? && Truthy(OptionalMember(OptionalMember(error.response, "body"), "message"))
      ==> r == Ok(OptionalMember(OptionalMember(error.response, "body"), "message"))
    ensures error.ErrorInstance? && !Truthy(OptionalMember(error.response, "body")) ==> r == Ok(Str(error.message))
    ensures error.ErrorInstance? ==>
      var body := OptionalMember(error.response, "body");
      var es := OptionalMember(body, "errors");
      !Truthy(OptionalMember(body, "message")) && Truthy(es)
      ==> r == (if es.Arr? then Ok(Str(JoinValues(es.items, ", "))) else Err("errorObj.response.body.errors.join is not a function"))
    ensures error.ErrorInstance? ==>
      var body := OptionalMember(error.response, "body");
      !Truthy(OptionalMember(body, "message")) && !Truthy(OptionalMember(body, "errors")) ==> r == Ok(Str(error.message))
    ensures r.Err? <==> (error.ErrorInstance? &&
      var es := OptionalMember(OptionalMember(error.response, "body"), "errors");
      !Truthy(OptionalMember(OptionalMember(error.response, "body"), "message")) && Truthy(es) && !es.Arr?)
  {
    match error
    case OtherThrown(_) => Ok(Str("Unknown error occurred"))
    case ErrorInstance(message, response) =>
      var body := OptionalMember(response, "body");
      var bodyMessage := OptionalMember(body, "message");
      var errors := OptionalMember(body, "errors");
      if Truthy(bodyMessage) then Ok(bodyMessage)
      else if Truthy(errors) then
        if errors.Arr? then Ok(Str(JoinValues(errors.items, ", ")))
        else Err("errorObj.response.body.errors.join is not a function")
      else Ok(Str(message))
  }

  /** A body `message` wins, whatever `errors` holds. */
  lemma BodyMessageWins(message: string, bodyMessage: string, errors: Value)
    requires bodyMessage != ""
    ensures ParseServiceTitanError(ErrorInstance(message, Obj([Field("body", Obj([Field("message", Str(bodyMessage)), Field("errors", errors)]))]))) == Ok(Str(bodyMessage))
  {
  }

  /**
   * Without a body `message`, an `errors` array wins over the error's own
   * message, whatever else the body holds; an empty array is truthy too,
   * and joins to the empty string.
   */
  lemma ErrorsJoined(message: string, body: seq<Field>, errors: seq<Value>)
    requires !Truthy(Lookup(body, "message")) && Lookup(body, "errors") == Arr(errors)
    ensures ParseServiceTitanError(ErrorInstance(message, Obj([Field("body", Obj(body))]))) == Ok(Str(JoinValues(errors, ", ")))
  {
    assert OptionalMember(Obj([Field("body", Obj(body))]), "body") == Obj(body);
  }

  /** Without a body `message`, a truthy `errors` that is not an array makes `join` throw. */
  lemma ErrorsNotArrayThrows(message: string, body: seq<Field>)
    requires !Truthy(Lookup(body, "message")) && Truthy(Lookup(body, "errors")) && !Lookup(body, "errors").Arr?
    ensures ParseServiceTitanError(ErrorInstance(message, Obj([Field("body", Obj(body))]))).Err?
  {
    assert OptionalMember(Obj([Field("body", Obj(body))]), "body") == Obj(body);
  }

  /** With neither, the error's own message is the answer. */
  lemma ErrorMessageLast(message: string, body: seq<Field>)
    requires !Truthy(Lookup(body, "message")) && !Truthy(Lookup(body, "errors"))
    ensures ParseServiceTitanError(ErrorInstance(message, Obj([Field("body", Obj(body))]))) == Ok(Str(message))
  {
    assert OptionalMember(Obj([Field("body", Obj(body))]), "body") == Obj(body);
  }
}
