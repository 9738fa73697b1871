/** Header sanitising of the reverse proxy (src/proxy.js, copyHeaders and
    sanitizeRequestHeaders) and what survives its two hops. */
module ProxyHeaders {
  import opened Results
  import opened Texts
  import opened Numbers
  import opened ManifestScalars
  import opened ProxyLength

  datatype HeaderValue = Undefined | One(text: string) | Many(texts: seq<string>)

  datatype Header = Header(name: string, value: HeaderValue)

  type HeaderMap = map<string, HeaderValue>

  const RELAY := "x-lazyedge-relay-authorization"

  const HOP_BY_HOP := {
    "connection", "keep-alive", "proxy-authenticate", "proxy-authorization", "te", "trailer", "transfer-encoding", "upgrade"}

  const REQUEST_BLOCKED := HOP_BY_HOP + {
    "authorization", RELAY, "cookie", "expect", "forwarded", "host", "proxy-connection", "via",
    "x-forwarded-for", "x-forwarded-host", "x-forwarded-path", "x-forwarded-port", "x-forwarded-prefix",
    "x-forwarded-proto", "x-forwarded-uri", "x-http-method", "x-http-method-override", "x-method-override",
    "x-middleware-rewrite", "x-original-url", "x-original-uri", "x-reproxy-url", "x-real-ip", "x-rewrite-url",
    "x-envoy-original-path"}

  // ----- connection options

  function CommaAt(s: string): (k: nat)
    ensures k <= |s| && (k < |s| ==> s[k] == ',')
  {
    if s == [] || s[0] == ',' then 0 else 1 + CommaAt(s[1..])
  }

  /** `value.split(",")` */
  function Split(s: string): seq<string>
    decreases |s|
  {
    var k := CommaAt(s);
    if k == |s| then [s] else [s[..k]] + Split(s[k + 1..])
  }

  function Trim(s: string): string {
    if s == [] then s
    else if IsSpace(s[0]) then Trim(s[1..])
    else if IsSpace(s[|s| - 1]) then Trim(s[..|s| - 1])
    else s
  }

  predicate IsTokenChar(c: char) {
    IsLower(c) || IsDigit(c) || c in {'!', '#', '$', '%', '&', '\'', '*', '+', '.', '^', '_', '`', '|', '~', '-'}
  }

  predicate IsToken(s: string) { s != [] && forall i :: 0 <= i < |s| ==> IsTokenChar(s[i]) }

  /** The header names that one Connection value nominates. */
  function Options(value: string): set<string> { Names(Split(value)) }

  function Names(tokens: seq<string>): set<string> {
    set token | token in tokens && IsToken(Lower(Trim(token))) :: Lower(Trim(token))
  }

  lemma OneMoreName(tokens: seq<string>, k: nat)
    requires k < |tokens|
    ensures var name := Lower(Trim(tokens[k]));
            Names(tokens[..k + 1]) == Names(tokens[..k]) + (if IsToken(name) then {name} else {})
  {
    assert tokens[..k + 1] == tokens[..k] + [tokens[k]];
  }

  /** `source[name]`: property names are exact. */
  function Property(source: seq<Header>, name: string): HeaderValue {
    if source == [] then Undefined
    else if source[|source| - 1].name == name then source[|source| - 1].value
    else Property(source[..|source| - 1], name)
  }

  function Values(v: HeaderValue): seq<string> {
    match v
    case Undefined => []
    case One(text) => [text]
    case Many(texts) => texts
  }

  /** The header fields that the Connection header declares to be hop-by-hop. */
  function Nominated(source: seq<Header>): set<string> {
    set value, option | value in Values(Property(source, "connection")) && option in Options(value) :: option
  }

  // ----- copyHeaders

  predicate IsInternal(name: string) { "x-lazyedge-" <= name }

  predicate Passes(h: Header, blocked: set<string>) {
    Lower(h.name) !in blocked && !IsInternal(Lower(h.name)) && h.value != Undefined
  }

  /** Entries in order, later ones replacing earlier ones of the same lower-case name. */
  function Kept(source: seq<Header>, blocked: set<string>): HeaderMap {
    if source == [] then map[]
    else
      var h := source[|source| - 1];
      var before := Kept(source[..|source| - 1], blocked);
      if Passes(h, blocked) then before[Lower(h.name) := h.value] else before
  }

  method CopyHeaders(source: seq<Header>, blocked: set<string>) returns (target: HeaderMap)
    ensures target == Kept(source, blocked + Nominated(source))
  {
    var effective := blocked;
    var values := Values(Property(source, "connection"));
    for i := 0 to |values|
      invariant effective == blocked + set value, option | value in values[..i] && option in Options(value) :: option
    {
      assert values[..i + 1] == values[..i] + [values[i]];
      effective := AddOptions(values[i], effective);
    }
    assert values[..|values|] == values;
    target := map[];
    for i := 0 to |source|
      invariant target == Kept(source[..i], effective)
    {
      assert source[..i + 1][..i] == source[..i];
      if Passes(source[i], effective) { target := target[Lower(source[i].name) := source[i].value]; }
    }
    assert source[..|source|] == source;
  }

  method AddOptions(value: string, blocked: set<string>) returns (effective: set<string>)
    ensures effective == blocked + Options(value)
  {
    effective := blocked;
    var tokens := Split(value);
    for k := 0 to |tokens|
      invariant effective == blocked + Names(tokens[..k])
    {
      OneMoreName(tokens, k);
      var name := Lower(Trim(tokens[k]));
      if IsToken(name) { effective := effective + {name}; }
    }
    assert tokens[..|tokens|] == tokens;
  }

  // ----- sanitizeRequestHeaders

  datatype Injected = Injected(name: string, value: string)

  predicate InjectionOk(h: Injected) { IsToken(Lower(h.name)) && '\r' !in h.value && '\n' !in h.value }

  predicate InjectionsOk(inject: seq<Injected>) { forall i :: 0 <= i < |inject| ==> InjectionOk(inject[i]) }

  function WithInjected(headers: HeaderMap, inject: seq<Injected>): HeaderMap {
    if inject == [] then headers
    else WithInjected(headers, inject[..|inject| - 1])[Lower(inject[|inject| - 1].name) := One(inject[|inject| - 1].value)]
  }

  function Blocked(forwardCookies: bool): set<string> { if forwardCookies then REQUEST_BLOCKED - {"cookie"} else REQUEST_BLOCKED }

  /** A TypeError of the code is `None`. */
  function Sanitized(headers: seq<Header>, inject: seq<Injected>, forwardCookies: bool): Option<HeaderMap> {
    if InjectionsOk(inject)
    then Some(WithInjected(Kept(headers, Blocked(forwardCookies) + Nominated(headers)), inject))
    else None
  }

  method InjectHeaders(copied: HeaderMap, inject: seq<Injected>) returns (r: Option<HeaderMap>)
    ensures r == if InjectionsOk(inject) then Some(WithInjected(copied, inject)) else None
  {
    var sanitized := copied;
    for i := 0 to |inject|
      invariant InjectionsOk(inject[..i])
      invariant sanitized == WithInjected(copied, inject[..i])
    {
      assert inject[..i + 1][..i] == inject[..i];
      if !InjectionOk(inject[i]) { return None; }
      sanitized := sanitized[Lower(inject[i].name) := One(inject[i].value)];
    }
    assert inject[..|inject|] == inject;
    return Some(sanitized);
  }

  method SanitizeRequestHeaders(headers: seq<Header>, inject: seq<Injected>, forwardCookies: bool)
    returns (r: Option<HeaderMap>)
    ensures r == Sanitized(headers, inject, forwardCookies)
  {
    var copied := CopyHeaders(headers, Blocked(forwardCookies));
    r := InjectHeaders(copied, inject);
  }

  // ----- what one proxy sends on

  /** An incoming request: raw header fields, and the header object made from them. */
  datatype Request = Request(raw: seq<(string, string)>, headers: seq<Header>)

  function ParsedLength(headers: seq<Header>): Option<string> {
    match Property(headers, "content-length")
    case One(text) => Some(text)
    case _ => None
  }

  function DeclaredLength(q: Request): Length { LengthOf(Declared(q.raw, ParsedLength(q.headers))) }

  /** The headers of the upstream request: none for a malformed length, one beyond the
      limit or a bad injection; otherwise the sanitised headers, with the length put
      back as a number if one was declared. */
  function Sent(q: Request, inject: seq<Injected>, forwardCookies: bool, maxBodyBytes: nat): Option<HeaderMap> {
    var headers := Sanitized(q.headers, inject, forwardCookies);
    match DeclaredLength(q)
    case Malformed => None
    case Absent => headers
    case Exactly(n) =>
      if n > maxBodyBytes || headers.None? then None else Some(headers.value["content-length" := One(Decimal(n))])
  }

  // ----- what the specification functions mean

  /** A name is kept exactly when its last passing entry is, with that entry's value. */
  lemma {:induction false} KeptExactly(source: seq<Header>, blocked: set<string>, name: string)
    ensures name in Kept(source, blocked) <==> exists i :: 0 <= i < |source| && Lower(source[i].name) == name && Passes(source[i], blocked)
    ensures name in Kept(source, blocked) ==> name !in blocked && !IsInternal(name)
    ensures name in Kept(source, blocked) ==>
              exists i :: 0 <= i < |source| && Lower(source[i].name) == name && source[i].value == Kept(source, blocked)[name]
                          && Passes(source[i], blocked)
                          && forall j :: i < j < |source| && Passes(source[j], blocked) ==> Lower(source[j].name) != name
  {
    if source != [] {
      var last := |source| - 1;
      var before := source[..last];
      KeptExactly(before, blocked, name);
      assert forall i :: 0 <= i < last ==> before[i] == source[i];
    }
  }

  lemma {:induction false} InjectedExactly(headers: HeaderMap, inject: seq<Injected>, name: string)
    ensures name in WithInjected(headers, inject) <==>
              name in headers || exists i :: 0 <= i < |inject| && Lower(inject[i].name) == name
    ensures (forall i :: 0 <= i < |inject| ==> Lower(inject[i].name) != name) ==>
              (name in headers <==> name in WithInjected(headers, inject))
              && (name in headers ==> WithInjected(headers, inject)[name] == headers[name])
  {
    if inject != [] {
      var last := |inject| - 1;
      InjectedExactly(headers, inject[..last], name);
      assert forall i :: 0 <= i < last ==> inject[..last][i] == inject[i];
    }
  }

  // ----- two hops

  /** How Node's parser makes the header object: lower-case names, and the first
      Content-Length field. */
  ghost predicate Parsed(q: Request) {
    && (forall i :: 0 <= i < |q.headers| ==> Lower(q.headers[i].name) == q.headers[i].name)
    && (forall i :: 0 <= i < |q.headers| && q.headers[i].name == "content-length" ==>
          LengthFields(q.raw) != [] && q.headers[i].value == One(LengthFields(q.raw)[0]))
    && (LengthFields(q.raw) != [] ==> exists i :: 0 <= i < |q.headers| && q.headers[i].name == "content-length")
  }

  /** Header names that Node's HTTP client adds on the way to the worker. */
  const TRANSPORT := {"host", "connection", "transfer-encoding", "content-length", "keep-alive"}

  /** The worker receives headers that the edge sent, as they were, and transport headers. */
  ghost predicate Arrives(sent: HeaderMap, q: Request) {
    && Parsed(q)
    && (forall i :: 0 <= i < |q.headers| ==> q.headers[i].name in sent || q.headers[i].name in TRANSPORT)
    && (forall i :: 0 <= i < |q.headers| && q.headers[i].name in sent ==> q.headers[i].value == sent[q.headers[i].name])
  }

  /** Nothing gets lost on the way, one length field stays one, and the client's own
      Connection header says keep-alive or close. */
  ghost predicate Delivers(sent: HeaderMap, q: Request) {
    && Arrives(sent, q)
    && (forall name :: name in sent ==> exists i :: 0 <= i < |q.headers| && q.headers[i].name == name)
    && |LengthFields(q.raw)| <= 1
    && Nominated(q.headers) <= {"keep-alive", "close"}
  }

  function EdgeInjects(relay: string): seq<Injected> { [Injected(RELAY, relay)] }

  function WorkerInjects(credential: string): seq<Injected> { [Injected("authorization", credential)] }

  /** The edge forwards no client credential, nothing hop-by-hop and nothing the client
      nominated; it adds the relay header and the length. */
  lemma EdgeHop(client: Request, relay: string, cookies: bool, limit: nat, name: string)
    requires Sent(client, EdgeInjects(relay), cookies, limit).Some?
    requires name in Sent(client, EdgeInjects(relay), cookies, limit).value
    ensures || name == RELAY
            || (name == "content-length" && DeclaredLength(client).Exactly?)
            || (name !in Blocked(cookies) && name !in Nominated(client.headers) && !IsInternal(name))
  {
    RelayIsLower();
    var blocked := Blocked(cookies) + Nominated(client.headers);
    KeptExactly(client.headers, blocked, name);
    InjectedExactly(Kept(client.headers, blocked), EdgeInjects(relay), name);
  }

  lemma RelayIsLower()
    ensures Lower(RELAY) == RELAY && IsInternal(RELAY)
  {
  }

  lemma AuthorizationIsLower()
    ensures Lower("authorization") == "authorization" && !IsInternal("authorization")
  {
    assert "authorization"[0] == 'a';
  }

  lemma BlockedIsEnough(cookies: bool, name: string)
    requires name !in Blocked(cookies)
    ensures name !in HOP_BY_HOP && name != RELAY && name != "authorization"
  {
  }

  lemma EndToEnd()
    ensures "authorization" !in HOP_BY_HOP && "content-length" !in HOP_BY_HOP
    ensures "authorization" != RELAY && "content-length" != RELAY && "content-length" != "authorization"
    ensures !IsInternal("content-length") && "content-length" !in Blocked(true) && "content-length" !in Blocked(false)
  {
    assert "content-length"[0] == 'c';
    assert "authorization"[0] == 'a';
  }

  /** After edge and worker the upstream sees the worker's Authorization and no other,
      no relay or internal header, nothing hop-by-hop, and of what the client's
      Connection header nominated nothing but a content-length.  That is present exactly
      when the worker found one canonical length, and is the text of that number. */
  lemma TwoHopSeparation(
    client: Request, relay: string, received: Request, credential: string, cookies: bool, limit: nat)
    requires Sent(client, EdgeInjects(relay), cookies, limit).Some?
    requires Arrives(Sent(client, EdgeInjects(relay), cookies, limit).value, received)
    requires Sent(received, WorkerInjects(credential), cookies, limit).Some?
    ensures var upstream := Sent(received, WorkerInjects(credential), cookies, limit).value;
            && "authorization" in upstream && upstream["authorization"] == One(credential)
            && ("content-length" in upstream <==> LengthFields(received.raw) != [])
            && ("content-length" in upstream ==>
                  exists n: nat :: n <= limit && n <= MAX_SAFE_INTEGER && LengthFields(received.raw) == [Decimal(n)]
                                   && upstream["content-length"] == One(Decimal(n)))
            && forall name :: name in upstream ==>
                 && !IsInternal(name) && name != RELAY && name !in HOP_BY_HOP
                 && (name in Nominated(client.headers) ==> name == "authorization" || name == "content-length")
                 && (name in Blocked(cookies) ==> name == "authorization")
  {
    WorkerNames(received, credential, cookies, limit);
    UpstreamLength(received, credential, cookies, limit);
    AddedNames(client.headers, cookies);
    forall name | name in Kept(received.headers, Blocked(cookies) + Nominated(received.headers))
      ensures UpstreamMaySee(client.headers, cookies, name)
    {
      UpstreamName(client, relay, received, cookies, limit, name);
    }
  }

  /** A worker sends on what it kept, its Authorization and the length. */
  lemma WorkerNames(received: Request, credential: string, cookies: bool, limit: nat)
    requires Sent(received, WorkerInjects(credential), cookies, limit).Some?
    ensures var upstream := Sent(received, WorkerInjects(credential), cookies, limit).value;
            && "authorization" in upstream && upstream["authorization"] == One(credential)
            && forall name :: name in upstream ==>
                 || name == "authorization" || name == "content-length"
                 || name in Kept(received.headers, Blocked(cookies) + Nominated(received.headers))
  {
    InjectedAuthorization(Kept(received.headers, Blocked(cookies) + Nominated(received.headers)), credential);
    EndToEnd();
  }

  /** The length that a worker sends on is the one declared by what it received. */
  lemma UpstreamLength(received: Request, credential: string, cookies: bool, limit: nat)
    requires Parsed(received) && Sent(received, WorkerInjects(credential), cookies, limit).Some?
    ensures var upstream := Sent(received, WorkerInjects(credential), cookies, limit).value;
            if LengthFields(received.raw) == [] then DeclaredLength(received) == Absent && "content-length" !in upstream
            else exists n: nat :: && n <= limit && n <= MAX_SAFE_INTEGER && LengthFields(received.raw) == [Decimal(n)]
                                  && "content-length" in upstream && upstream["content-length"] == One(Decimal(n))
  {
    var blocked := Blocked(cookies) + Nominated(received.headers);
    InjectedAuthorization(Kept(received.headers, blocked), credential);
    EndToEnd();
    PropertyExactly(received.headers, "content-length");
    if LengthFields(received.raw) == [] {
      KeptExactly(received.headers, blocked, "content-length");
    } else {
      var values := Declared(received.raw, ParsedLength(received.headers));
      LengthIsExact(values);
      var n := LengthOf(values).n;
      assert LengthOf(values) == Exactly(n);
    }
  }

  lemma {:induction false} PropertyExactly(source: seq<Header>, name: string)
    ensures (forall i :: 0 <= i < |source| ==> source[i].name != name) ==> Property(source, name) == Undefined
    ensures Property(source, name) != Undefined ==>
              exists i :: 0 <= i < |source| && source[i].name == name && source[i].value == Property(source, name)
  {
    if source != [] {
      PropertyExactly(source[..|source| - 1], name);
      assert forall i :: 0 <= i < |source| - 1 ==> source[..|source| - 1][i] == source[i];
    }
  }

  ghost predicate UpstreamMaySee(client: seq<Header>, cookies: bool, name: string) {
    && !IsInternal(name) && name != RELAY && name !in HOP_BY_HOP
    && (name in Nominated(client) ==> name == "authorization" || name == "content-length")
    && (name in Blocked(cookies) ==> name == "authorization")
  }

  lemma AddedNames(client: seq<Header>, cookies: bool)
    ensures UpstreamMaySee(client, cookies, "authorization") && UpstreamMaySee(client, cookies, "content-length")
  {
    AuthorizationIsLower();
    EndToEnd();
  }

  lemma InjectedAuthorization(kept: HeaderMap, credential: string)
    ensures WithInjected(kept, WorkerInjects(credential)) == kept["authorization" := One(credential)]
  {
    AuthorizationIsLower();
    assert WorkerInjects(credential)[..0] == [];
  }

  /** Where a header that the worker kept comes from. */
  lemma UpstreamName(
    client: Request, relay: string, received: Request, cookies: bool, limit: nat, name: string)
    requires Sent(client, EdgeInjects(relay), cookies, limit).Some?
    requires Arrives(Sent(client, EdgeInjects(relay), cookies, limit).value, received)
    requires name in Kept(received.headers, Blocked(cookies) + Nominated(received.headers))
    ensures UpstreamMaySee(client.headers, cookies, name)
  {
    var blocked := Blocked(cookies) + Nominated(received.headers);
    KeptExactly(received.headers, blocked, name);
    BlockedIsEnough(cookies, name);
    assert name !in Blocked(cookies) && !IsInternal(name);
    if name in Sent(client, EdgeInjects(relay), cookies, limit).value {
      EdgeHop(client, relay, cookies, limit, name);
    } else {
      assert name == "content-length";
    }
  }

  // ----- named headers

  /** A client's cookies pass one proxy exactly if forwarding is on, no Connection option
      nominates them and there are any; unless the proxy injects some itself. */
  lemma CookiePassesExactly(headers: seq<Header>, inject: seq<Injected>, forwardCookies: bool)
    requires Sanitized(headers, inject, forwardCookies).Some?
    requires forall i :: 0 <= i < |inject| ==> Lower(inject[i].name) != "cookie"
    ensures "cookie" in Sanitized(headers, inject, forwardCookies).value <==>
              && forwardCookies && "cookie" !in Nominated(headers)
              && exists i :: 0 <= i < |headers| && Lower(headers[i].name) == "cookie" && headers[i].value != Undefined
  {
    var blocked := Blocked(forwardCookies) + Nominated(headers);
    assert "cookie"[0] == 'c' && !IsInternal("cookie");
    KeptExactly(headers, blocked, "cookie");
    InjectedExactly(Kept(headers, blocked), inject, "cookie");
    if i :| 0 <= i < |headers| && Lower(headers[i].name) == "cookie" && headers[i].value != Undefined {
      assert "cookie" !in blocked ==> Passes(headers[i], blocked);
    }
  }

  /** By name: what never reaches the upstream, whatever is sent and forwarded. */
  const NEVER := {
    "connection", "keep-alive", "proxy-authenticate", "proxy-authorization", "te", "trailer", "transfer-encoding", "upgrade",
    "x-lazyedge-relay-authorization", "expect", "forwarded", "host", "proxy-connection", "via",
    "x-forwarded-for", "x-forwarded-host", "x-forwarded-path", "x-forwarded-port", "x-forwarded-prefix",
    "x-forwarded-proto", "x-forwarded-uri", "x-http-method", "x-http-method-override", "x-method-override",
    "x-middleware-rewrite", "x-original-url", "x-original-uri", "x-reproxy-url", "x-real-ip", "x-rewrite-url",
    "x-envoy-original-path"}

  lemma NeverIsBlocked(cookies: bool)
    ensures forall name :: name in NEVER ==> name in Blocked(cookies) && name != "authorization"
    ensures !cookies ==> "cookie" in Blocked(cookies)
  {
  }

  /** After both hops none of these headers is there, and a cookie only if forwarding is on. */
  lemma NamedHeadersStop(
    client: Request, relay: string, received: Request, credential: string, cookies: bool, limit: nat, name: string)
    requires Sent(client, EdgeInjects(relay), cookies, limit).Some?
    requires Arrives(Sent(client, EdgeInjects(relay), cookies, limit).value, received)
    requires Sent(received, WorkerInjects(credential), cookies, limit).Some?
    ensures var upstream := Sent(received, WorkerInjects(credential), cookies, limit).value;
            && (name in NEVER ==> name !in upstream)
            && ("cookie" in upstream ==> cookies)
  {
    TwoHopSeparation(client, relay, received, credential, cookies, limit);
    NeverIsBlocked(cookies);
    assert "cookie" != "authorization";
  }

  // ----- the options of a Connection header

  /** `tokens.join(",")` */
  function Joined(tokens: seq<string>): string {
    if tokens == [] then "" else if |tokens| == 1 then tokens[0] else tokens[0] + "," + Joined(tokens[1..])
  }

  lemma CommaIsFirst(s: string, k: nat)
    requires k <= |s| && (forall i :: 0 <= i < k ==> s[i] != ',') && (k < |s| ==> s[k] == ',')
    ensures CommaAt(s) == k
    decreases k
  {
    if k > 0 { CommaIsFirst(s[1..], k - 1); }
  }

  /** Splitting a list of comma-free texts joined by commas gives them back. */
  lemma {:induction false} SplitJoined(tokens: seq<string>)
    requires tokens != [] && forall i :: 0 <= i < |tokens| ==> ',' !in tokens[i]
    ensures Split(Joined(tokens)) == tokens
    decreases |tokens|
  {
    var s := Joined(tokens);
    if |tokens| == 1 {
      CommaIsFirst(s, |s|);
    } else {
      var first := tokens[0];
      assert s == first + ([','] + Joined(tokens[1..]));
      CommaIsFirst(s, |first|);
      assert s[..|first|] == first && s[|first| + 1..] == Joined(tokens[1..]);
      SplitJoined(tokens[1..]);
    }
  }

  predicate AllBlank(s: string) { forall i :: 0 <= i < |s| ==> IsSpace(s[i]) }

  /** Blanks around a text without blanks at its ends are trimmed. */
  lemma {:induction false} TrimPadded(before: string, s: string, after: string)
    requires AllBlank(before) && AllBlank(after) && s != [] && !IsSpace(s[0]) && !IsSpace(s[|s| - 1])
    ensures Trim(before + s + after) == s
    decreases |before| + |after|
  {
    var t := before + s + after;
    if before != [] {
      assert t[0] == before[0] && t[1..] == before[1..] + s + after;
      TrimPadded(before[1..], s, after);
    } else if after != [] {
      assert t[0] == s[0] && t[|t| - 1] == after[|after| - 1] && t[..|t| - 1] == before + s + after[..|after| - 1];
      TrimPadded(before, s, after[..|after| - 1]);
    } else {
      assert t == s;
    }
  }

  lemma TokenCharIsNoBlank(c: char)
    requires IsTokenChar(LowerChar(c))
    ensures !IsSpace(c)
  {
  }

  lemma TokenEnds(name: string)
    requires IsToken(Lower(name))
    ensures name != [] && !IsSpace(name[0]) && !IsSpace(name[|name| - 1])
  {
    assert Lower(name)[0] == LowerChar(name[0]) && Lower(name)[|name| - 1] == LowerChar(name[|name| - 1]);
    TokenCharIsNoBlank(name[0]);
    TokenCharIsNoBlank(name[|name| - 1]);
  }

  lemma ListedIsOption(tokens: seq<string>, k: nat, before: string, name: string, after: string)
    requires k < |tokens| && (forall i :: 0 <= i < |tokens| ==> ',' !in tokens[i])
    requires tokens[k] == before + name + after && AllBlank(before) && AllBlank(after) && IsToken(Lower(name))
    ensures Lower(name) in Options(Joined(tokens))
  {
    SplitJoined(tokens);
    TokenEnds(name);
    TrimPadded(before, name, after);
    assert tokens[k] in tokens && Lower(Trim(tokens[k])) == Lower(name);
  }

  /** The property of a name that occurs once. */
  lemma {:induction false} PropertyOfOne(source: seq<Header>, i: nat)
    requires i < |source| && forall j :: 0 <= j < |source| && source[j].name == source[i].name ==> j == i
    ensures Property(source, source[i].name) == source[i].value
    decreases |source|
  {
    if i < |source| - 1 {
      assert source[..|source| - 1][i] == source[i];
      PropertyOfOne(source[..|source| - 1], i);
    }
  }

  /** The value of the one header of this name is this text, or has it as an element. */
  predicate HasText(source: seq<Header>, name: string, i: nat, text: string) {
    && i < |source| && source[i].name == name
    && (forall j :: 0 <= j < |source| && source[j].name == name ==> j == i)
    && (source[i].value == One(text) || (source[i].value.Many? && text in source[i].value.texts))
  }

  /** A header name listed in the Connection header, in any case and with blanks around it,
      is nominated. */
  lemma ListedIsNominated(
    source: seq<Header>, i: nat, tokens: seq<string>, k: nat, before: string, name: string, after: string)
    requires HasText(source, "connection", i, Joined(tokens))
    requires k < |tokens| && (forall i :: 0 <= i < |tokens| ==> ',' !in tokens[i])
    requires tokens[k] == before + name + after && AllBlank(before) && AllBlank(after) && IsToken(Lower(name))
    ensures Lower(name) in Nominated(source)
  {
    PropertyOfOne(source, i);
    ListedIsOption(tokens, k, before, name, after);
    assert Joined(tokens) in Values(source[i].value);
  }

  /** And nothing else is: every nominated name is some entry between the commas. */
  lemma NominatedIsListed(source: seq<Header>, i: nat, tokens: seq<string>, name: string)
    requires HasText(source, "connection", i, Joined(tokens)) && source[i].value == One(Joined(tokens))
    requires tokens != [] && (forall i :: 0 <= i < |tokens| ==> ',' !in tokens[i]) && name in Nominated(source)
    ensures exists k :: 0 <= k < |tokens| && Lower(Trim(tokens[k])) == name
  {
    PropertyOfOne(source, i);
    SplitJoined(tokens);
  }

  // ----- what is sent at all

  /** The Content-Length values of a request: all raw fields of that name in any case, or
      if there is none the one header of that name. */
  ghost predicate DeclaresOnly(q: Request, text: string) {
    || LengthFields(q.raw) == [text]
    || (LengthFields(q.raw) == [] && exists i :: 0 <= i < |q.headers| && HasText(q.headers, "content-length", i, text)
                                                 && q.headers[i].value == One(text))
  }

  /** A request is passed on if and only if the injected headers are valid and it either
      declares no length, or just one, in canonical decimal and within the limit. */
  lemma SentExactly(q: Request, inject: seq<Injected>, cookies: bool, limit: nat)
    requires forall i, j :: 0 <= i < j < |q.headers| && q.headers[i].name == "content-length" ==> q.headers[j].name != "content-length"
    requires forall i :: 0 <= i < |q.headers| && q.headers[i].name == "content-length" ==> q.headers[i].value.One?
    ensures Sent(q, inject, cookies, limit).Some? <==>
              && (forall i :: 0 <= i < |inject| ==>
                    IsToken(Lower(inject[i].name)) && '\r' !in inject[i].value && '\n' !in inject[i].value)
              && (|| (LengthFields(q.raw) == [] && forall i :: 0 <= i < |q.headers| ==> q.headers[i].name != "content-length")
                  || exists n: nat :: n <= limit && n <= MAX_SAFE_INTEGER && DeclaresOnly(q, Decimal(n)))
  {
    LengthIsExact(Declared(q.raw, ParsedLength(q.headers)));
    DeclaredExactly(q);
    assert Sent(q, inject, cookies, limit).Some? <==>
             InjectionsOk(inject) && (DeclaredLength(q).Absent? || (DeclaredLength(q).Exactly? && DeclaredLength(q).n <= limit));
    if DeclaredLength(q).Exactly? { assert DeclaresOnly(q, Decimal(DeclaredLength(q).n)); }
    forall n: nat | n <= limit && n <= MAX_SAFE_INTEGER && DeclaresOnly(q, Decimal(n)) ensures DeclaredLength(q) == Exactly(n) { }
    InjectionsExactly(inject);
  }

  lemma InjectionsExactly(inject: seq<Injected>)
    ensures InjectionsOk(inject) <==>
              forall i :: 0 <= i < |inject| ==>
                IsToken(Lower(inject[i].name)) && '\r' !in inject[i].value && '\n' !in inject[i].value
  {
    forall i | 0 <= i < |inject|
      ensures InjectionOk(inject[i]) <==>
                IsToken(Lower(inject[i].name)) && '\r' !in inject[i].value && '\n' !in inject[i].value
    { }
  }

  lemma DeclaredExactly(q: Request)
    requires forall i, j :: 0 <= i < j < |q.headers| && q.headers[i].name == "content-length" ==> q.headers[j].name != "content-length"
    requires forall i :: 0 <= i < |q.headers| && q.headers[i].name == "content-length" ==> q.headers[i].value.One?
    ensures forall text :: Declared(q.raw, ParsedLength(q.headers)) == [text] <==> DeclaresOnly(q, text)
    ensures Declared(q.raw, ParsedLength(q.headers)) == [] <==>
              LengthFields(q.raw) == [] && forall i :: 0 <= i < |q.headers| ==> q.headers[i].name != "content-length"
  {
    if i :| 0 <= i < |q.headers| && q.headers[i].name == "content-length" {
      PropertyOfOne(q.headers, i);
      assert HasText(q.headers, "content-length", i, q.headers[i].value.text);
    } else {
      PropertyExactly(q.headers, "content-length");
    }
  }

  // ----- what must arrive

  /** Over a transport that loses nothing, every client header that is neither blocked
      nor nominated reaches the upstream with its value unchanged. */
  lemma EndToEndHeaderArrives(
    client: Request, relay: string, received: Request, credential: string, cookies: bool, limit: nat, name: string)
    requires Sent(client, EdgeInjects(relay), cookies, limit).Some?
    requires Delivers(Sent(client, EdgeInjects(relay), cookies, limit).value, received)
    requires Sent(received, WorkerInjects(credential), cookies, limit).Some?
    requires name in Kept(client.headers, Blocked(cookies) + Nominated(client.headers))
    requires name != "content-length" && name != "close"
    ensures var upstream := Sent(received, WorkerInjects(credential), cookies, limit).value;
            name in upstream && upstream[name] == Kept(client.headers, Blocked(cookies) + Nominated(client.headers))[name]
  {
    var sent := Sent(client, EdgeInjects(relay), cookies, limit).value;
    EdgeKeeps(client, relay, cookies, limit, name);
    var i :| 0 <= i < |received.headers| && received.headers[i].name == name;
    WorkerKeeps(received, credential, cookies, limit, i, sent[name]);
  }

  lemma EdgeKeeps(client: Request, relay: string, cookies: bool, limit: nat, name: string)
    requires Sent(client, EdgeInjects(relay), cookies, limit).Some? && name != "content-length"
    requires name in Kept(client.headers, Blocked(cookies) + Nominated(client.headers))
    ensures var sent := Sent(client, EdgeInjects(relay), cookies, limit).value;
            && name in sent && sent[name] == Kept(client.headers, Blocked(cookies) + Nominated(client.headers))[name]
            && sent[name] != Undefined && name !in Blocked(cookies) && !IsInternal(name)
  {
    var blocked := Blocked(cookies) + Nominated(client.headers);
    KeptExactly(client.headers, blocked, name);
    RelayIsLower();
    InjectedRelay(Kept(client.headers, blocked), relay);
  }

  lemma WorkerKeeps(received: Request, credential: string, cookies: bool, limit: nat, i: nat, value: HeaderValue)
    requires Sent(received, WorkerInjects(credential), cookies, limit).Some? && Parsed(received)
    requires i < |received.headers| && value != Undefined
    requires forall j :: 0 <= j < |received.headers| && received.headers[j].name == received.headers[i].name ==>
               received.headers[j].value == value
    requires var name := received.headers[i].name;
             && name !in Blocked(cookies) && name !in Nominated(received.headers) && !IsInternal(name)
             && name != "content-length"
    ensures var upstream := Sent(received, WorkerInjects(credential), cookies, limit).value;
            received.headers[i].name in upstream && upstream[received.headers[i].name] == value
  {
    var blocked, name := Blocked(cookies) + Nominated(received.headers), received.headers[i].name;
    assert Passes(received.headers[i], blocked);
    KeptExactly(received.headers, blocked, name);
    BlockedIsEnough(cookies, name);
    InjectedAuthorization(Kept(received.headers, blocked), credential);
  }

  /** Over such a transport a length that the client declared is the length that the
      upstream is told, in the same text, and the worker accepts it as the edge did. */
  lemma LengthArrives(
    client: Request, relay: string, received: Request, credential: string, cookies: bool, limit: nat)
    requires Sent(client, EdgeInjects(relay), cookies, limit).Some?
    requires Delivers(Sent(client, EdgeInjects(relay), cookies, limit).value, received)
    requires InjectionsOk(WorkerInjects(credential)) && DeclaredLength(client) != Absent
    ensures Sent(received, WorkerInjects(credential), cookies, limit).Some?
    ensures var upstream := Sent(received, WorkerInjects(credential), cookies, limit).value;
            && "content-length" in upstream
            && Declared(client.raw, ParsedLength(client.headers)) == Values(upstream["content-length"])
  {
    var sent := Sent(client, EdgeInjects(relay), cookies, limit).value;
    LengthIsExact(Declared(client.raw, ParsedLength(client.headers)));
    var n := DeclaredLength(client).n;
    assert DeclaredLength(client) == Exactly(n) && sent["content-length"] == One(Decimal(n));
    var i :| 0 <= i < |received.headers| && received.headers[i].name == "content-length";
    assert received.headers[i].value == One(Decimal(n));
    assert LengthFields(received.raw) == [Decimal(n)];
    LengthIsExact(LengthFields(received.raw));
  }

  lemma InjectedRelay(copied: HeaderMap, relay: string)
    ensures WithInjected(copied, EdgeInjects(relay)) == copied[RELAY := One(relay)]
  {
    RelayIsLower();
    assert EdgeInjects(relay)[..0] == [];
  }
}
