/** Token records, the question a verification asks of them, and what a published
    store file may do to its predecessor (src/token-store.js). */
module TokenRecords {
  import opened Results
  import opened Texts

  type Id = string
  type Milliseconds = int

  /** The token text `le1_<id>_<secret>`.  Its SHA-256 digest is modelled by the token itself. */
  datatype Token = Token(id: Id, secret: string)

  datatype Scope = Scope(
    serviceIds: Option<set<string>>, hosts: Option<set<string>>,
    methods: Option<set<string>>, paths: Option<set<string>>)

  datatype Context = Context(serviceId: string, host: string, verb: string, path: string)

  datatype Record = Record(
    tokenSet: string, digest: Token, createdAt: Milliseconds, expiresAt: Milliseconds,
    revokedAt: Option<Milliseconds>, scope: Scope)

  type Records = map<Id, Record>

  // ----- verification

  predicate Permits(allowed: Option<set<string>>, value: string) { allowed.Some? ==> value in allowed.value }

  predicate ScopeAllows(scope: Scope, context: Option<Context>) {
    if context.None? then scope == Scope(None, None, None, None)
    else
      var c := context.value;
      && Permits(scope.serviceIds, c.serviceId) && Permits(scope.hosts, c.host)
      && Permits(scope.methods, c.verb) && Permits(scope.paths, c.path)
  }

  datatype Query = Query(token: Token, tokenSet: Option<string>, context: Option<Context>)

  datatype Answer = Rejected | Accepted(record: Record) | Invalid

  /** The synchronous part of `verify`, on the records at hand. */
  function Decide(records: Records, q: Query, now: Milliseconds): Answer {
    if q.token.id !in records then Rejected
    else
      var record := records[q.token.id];
      if record.digest != q.token then Rejected
      else if q.tokenSet.Some? && !IsName(q.tokenSet.value) then Invalid
      else if q.tokenSet.Some? && record.tokenSet != q.tokenSet.value then Rejected
      else if record.revokedAt.Some? || record.expiresAt <= now then Rejected
      else if !ScopeAllows(record.scope, q.context) then Rejected
      else Accepted(record)
  }

  /** What an acceptance vouches for: the right secret and token set, neither revoked nor
      expired, and each part of the scope absent or containing the request's; without a
      request, no part at all. */
  predicate Vouched(record: Record, q: Query, now: Milliseconds) {
    && record.digest == q.token && record.revokedAt == None && now < record.expiresAt
    && (q.tokenSet == None || q.tokenSet == Some(record.tokenSet))
    && (match q.context
        case None =>
          && record.scope.serviceIds == None && record.scope.hosts == None
          && record.scope.methods == None && record.scope.paths == None
        case Some(c) =>
          && (record.scope.serviceIds == None || c.serviceId in record.scope.serviceIds.value)
          && (record.scope.hosts == None || c.host in record.scope.hosts.value)
          && (record.scope.methods == None || c.verb in record.scope.methods.value)
          && (record.scope.paths == None || c.path in record.scope.paths.value))
  }

  lemma AcceptedIsVouched(records: Records, q: Query, now: Milliseconds)
    requires q.tokenSet.Some? ==> IsName(q.tokenSet.value)
    ensures Decide(records, q, now).Accepted? <==>
              q.token.id in records && Vouched(records[q.token.id], q, now)
    ensures Decide(records, q, now).Accepted? ==> Decide(records, q, now).record == records[q.token.id]
  {
  }

  // ----- expiry

  datatype Expiry = Unset | At(time: Milliseconds) | In(seconds: int) | Both

  const DEFAULT_TTL_SECONDS := 30 * 24 * 60 * 60
  const MAX_TTL_SECONDS := 366 * 24 * 60 * 60

  /** expirationFromOptions */
  function Expiration(e: Expiry, now: Milliseconds): (r: Option<Milliseconds>)
    ensures r.Some? ==> now < r.value
    ensures r.Some? && !e.At? ==> r.value <= now + MAX_TTL_SECONDS * 1000
  {
    match e
    case Both => None
    case At(time) => if time <= now then None else Some(time)
    case Unset => Some(now + DEFAULT_TTL_SECONDS * 1000)
    case In(ttl) => if 1 <= ttl <= MAX_TTL_SECONDS then Some(now + ttl * 1000) else None
  }

  /** Exactly which expiries are accepted, and what they come to: a duration of n seconds
      expires n thousand milliseconds from now, at most 366 days; the default is 30 days. */
  lemma ExpirationExactly(e: Expiry, now: Milliseconds)
    ensures forall time :: Expiration(e, now) == Some(time) <==>
              || (e == At(time) && now < time)
              || (e == Unset && time == now + 2_592_000_000)
              || (e.In? && 1 <= e.seconds <= 31_622_400 && time == now + 1000 * e.seconds)
  {
  }

  // ----- one change of a store file

  datatype Change = Add(id: Id, record: Record) | Revoke(id: Id, at: Milliseconds)

  predicate Fits(records: Records, c: Change) {
    match c
    case Add(id, record) => id !in records && record.revokedAt.None?
    case Revoke(id, _) => id in records && records[id].revokedAt.None?
  }

  function Made(records: Records, c: Change): Records
    requires Fits(records, c)
  {
    match c
    case Add(id, record) => records[id := record]
    case Revoke(id, at) => records[id := records[id].(revokedAt := Some(at))]
  }

  /** The rollback of a failed persist. */
  function Undone(records: Records, c: Change): Records
    requires c.id in records
  {
    match c
    case Add(id, _) => records - {id}
    case Revoke(id, _) => records[id := records[id].(revokedAt := None)]
  }

  lemma UndoneRestores(records: Records, c: Change)
    requires Fits(records, c)
    ensures Undone(Made(records, c), c) == records
  {
  }

  // ----- the history of the store file

  /** The first `n` publications leave this content; 0 stands for the missing file. */
  function Content(files: seq<Records>, n: nat): Records
    requires n <= |files|
  {
    if n == 0 then map[] else files[n - 1]
  }

  /** `next` is its predecessor with one record added or one revocation set. */
  ghost predicate OneChange(prev: Records, next: Records) {
    exists c: Change :: Fits(prev, c) && next == Made(prev, c)
  }

  ghost predicate History(files: seq<Records>, initial: nat) {
    && initial <= |files|
    && forall n: nat :: initial <= n < |files| ==> OneChange(Content(files, n), Content(files, n + 1))
  }

  /** Records are kept, and so is everything in them except that a revocation may be set once. */
  ghost predicate Keeps(prev: Records, next: Records) {
    forall id :: id in prev ==>
      && id in next && next[id].(revokedAt := prev[id].revokedAt) == prev[id]
      && (prev[id].revokedAt.Some? ==> next[id] == prev[id])
  }

  lemma {:induction false} LaterKeepsEarlier(files: seq<Records>, initial: nat, m: nat, n: nat)
    requires History(files, initial) && initial <= m <= n <= |files|
    ensures Keeps(Content(files, m), Content(files, n))
    decreases n - m
  {
    if m < n {
      LaterKeepsEarlier(files, initial, m, n - 1);
      assert OneChange(Content(files, n - 1), Content(files, n));
    }
  }

  lemma Published(files: seq<Records>, initial: nat, c: Change)
    requires History(files, initial) && Fits(Content(files, |files|), c)
    ensures History(files + [Made(Content(files, |files|), c)], initial)
  {
    var longer := files + [Made(Content(files, |files|), c)];
    forall n: nat | initial <= n < |longer| ensures OneChange(Content(longer, n), Content(longer, n + 1)) {
      if n < |files| {
        assert Content(longer, n) == Content(files, n) && Content(longer, n + 1) == Content(files, n + 1);
        assert OneChange(Content(files, n), Content(files, n + 1));
      } else {
        assert Content(longer, n) == Content(files, |files|);
      }
    }
  }
}
