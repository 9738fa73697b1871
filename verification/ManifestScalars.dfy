/** The scalar fields of a manifest (src/config.js, src/security.js): listeners and URLs
    are taken as already parsed into host and port, host names as ASCII. */
module ManifestScalars {
  import opened Results
  import opened Texts

  // ----- addresses

  datatype Address = Address(host: string, port: int)

  const LOOPBACK := "127.0.0.1"

  /** normalizeManifestListener */
  predicate IsListener(a: Address) { a.host == LOOPBACK && 1 <= a.port <= 65535 }

  /** normalizeManifestTarget: a URL parser drops the default port, which is then missed. */
  predicate IsTarget(a: Address) { IsListener(a) && a.port != 80 }

  /** normalizeExistingSiteUpstream */
  predicate IsSiteUpstream(secure: bool, a: Address) { IsTarget(a) && (secure ==> a.port != 443) }

  // ----- domains

  function LowerChar(c: char): char { if IsUpper(c) then c - 'A' + 'a' else c }

  function Lower(s: string): (r: string)
    ensures |r| == |s|
  {
    seq(|s|, i requires 0 <= i < |s| => LowerChar(s[i]))
  }

  /** A label boundary: before the text, after it, or at a dot. */
  predicate IsEdge(s: string, i: int) { i < 0 || i >= |s| || s[i] == '.' }

  /** Every label matches `[a-z0-9](?:[a-z0-9-]{0,61}[a-z0-9])?`. */
  predicate HasGoodLabels(s: string) {
    && s != []
    && (forall i :: 0 <= i < |s| ==> IsLower(s[i]) || IsDigit(s[i]) || s[i] == '-' || s[i] == '.')
    && (forall i :: 0 <= i < |s| && (s[i] == '-' || s[i] == '.') ==> !IsEdge(s, i - 1) && !IsEdge(s, i + 1))
    && (forall i :: 0 <= i <= |s| - 64 ==> DotWithin(s, i))
  }

  predicate DotWithin(s: string, i: nat)
    requires i + 64 <= |s|
  {
    '.' in s[i..i + 64]
  }

  /** URL parsing turns a host whose last label is a number into an IP address. */
  predicate EndsInNumber(s: string) { exists k :: 0 <= k < |s| && NumberFrom(s, k) }

  predicate NumberFrom(s: string, k: nat) { IsEdge(s, k - 1) && forall i :: k <= i < |s| ==> IsDigit(s[i]) }

  /** normalizeDomain accepts, and then returns `Lower(s)`. */
  predicate DomainOk(s: string) {
    |s| <= 253 && HasGoodLabels(Lower(s)) && '.' in Lower(s) && !EndsInNumber(Lower(s))
  }

  /** normalizeSshHost accepts (IPv6 literals aside), and then returns `Lower(s)`. */
  predicate SshHostOk(s: string) { |s| <= 253 && HasGoodLabels(Lower(s)) }

  lemma LowerIsIdempotent(s: string)
    ensures Lower(Lower(s)) == Lower(s)
    ensures DomainOk(Lower(s)) == DomainOk(s) && SshHostOk(Lower(s)) == SshHostOk(s)
  {
    assert Lower(Lower(s)) == Lower(s);
  }

  // ----- numbers

  function Default(value: Option<int>, fallback: int): int { if value.Some? then value.value else fallback }

  /** optionalPort and optionalLimit */
  predicate InRange(value: Option<int>, fallback: int, least: int, most: int) {
    least <= Default(value, fallback) <= most
  }

  const DEFAULT_MAX_BODY_BYTES := 1024 * 1024
  const MAX_BODY_BYTES := 1024 * 1024 * 1024
  const DEFAULT_MAX_CONCURRENT_REQUESTS := 4
  const MAX_CONCURRENT_REQUESTS := 1024
  const DEFAULT_IDLE_TIMEOUT_SECONDS := 900
  const MAX_IDLE_TIMEOUT_SECONDS := 86_400
  const DEFAULT_HTTP_PORT := 10_080
  const DEFAULT_HTTPS_PORT := 10_443
  const DEFAULT_SSH_PORT := 22

  // ----- methods and profiles

  const METHODS := {"GET", "POST", "PUT", "PATCH", "DELETE", "HEAD", "OPTIONS"}

  const GENERIC := "generic-http"
  const LOCALLLM := "localllm-openai"
  const LOCALLLM_ADMISSION := "localllm-openai-admission"

  predicate IsProfile(p: Option<string>) {
    p == None || p == Some(GENERIC) || p == Some(LOCALLLM) || p == Some(LOCALLLM_ADMISSION)
  }

  /** LOCALLLM_OPENAI_ROUTE_METHODS */
  predicate OpenAiClaim(path: string, verb: string) {
    || (path == "/v1/models" && verb == "GET")
    || (verb == "POST" && (path == "/v1/chat/completions" || path == "/v1/responses" || path == "/v1/embeddings"))
  }

  /** LOCALLLM_REQUIRED_ADMISSION_CLAIMS */
  predicate AdmissionClaim(path: string, verb: string) {
    verb == "GET" && (path == "/readyz" || path == "/api/node/capabilities")
  }

  predicate ProfilePermits(profile: Option<string>, path: string, verb: string) {
    if profile == Some(LOCALLLM) then OpenAiClaim(path, verb)
    else if profile == Some(LOCALLLM_ADMISSION) then OpenAiClaim(path, verb) || AdmissionClaim(path, verb)
    else true
  }

  /** SSH user names: `^[a-z_][a-z0-9_-]{0,30}$` */
  predicate IsUserName(s: string) {
    Shape(s, c => IsLower(c) || c == '_', c => IsLower(c) || IsDigit(c) || c == '_' || c == '-', 0, 30)
  }

  /** `^[A-Za-z0-9][A-Za-z0-9._-]{0,252}$` */
  predicate IsAlias(s: string) {
    Shape(s, IsAlnum, c => IsAlnum(c) || c == '.' || c == '_' || c == '-', 0, 252)
  }
}
