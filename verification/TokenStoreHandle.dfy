/** One token-store instance, one undisturbed call at a time (src/token-store.js,
    class TokenStore).  TokenStoreRuns has the interleavings. */
module TokenStoreHandle {
  import opened Results
  import opened Texts
  import opened TokenRecords

  /** Where a persist breaks off. */
  datatype Fault = NoFault | BeforeRename | AfterRename

  /** The store file: everything ever renamed into place. */
  class StoreFile {
    var files: seq<Records>

    constructor (existing: Option<Records>)
      ensures files == if existing.Some? then [existing.value] else []
    {
      files := if existing.Some? then [existing.value] else [];
    }

    function Now(): Records
      reads this
    {
      Content(files, |files|)
    }
  }

  class TokenStore {
    const file: StoreFile
    var records: Records
    var fingerprint: nat
    var mutating: bool

    /** Between mutations the cache is the file that its fingerprint names. */
    ghost predicate Valid()
      reads this, file
    {
      !mutating && fingerprint <= |file.files| && records == Content(file.files, fingerprint)
    }

    constructor (file: StoreFile)
      ensures Valid() && this.file == file && records == file.Now() && fingerprint == |file.files|
    {
      this.file := file;
      records, fingerprint, mutating := Content(file.files, |file.files|), |file.files|, false;
    }

    method Reload(readable: bool) returns (ok: bool)
      modifies `records, `fingerprint
      ensures ok == readable
      ensures ok ==> records == file.Now() && fingerprint == |file.files|
      ensures !ok ==> records == old(records) && fingerprint == old(fingerprint)
    {
      if !readable { return false; }
      records, fingerprint := file.Now(), |file.files|;
      return true;
    }

    method Persist(fault: Fault) returns (ok: bool)
      modifies file, `fingerprint
      ensures ok == fault.NoFault?
      ensures file.files == if fault.BeforeRename? then old(file.files) else old(file.files) + [records]
      ensures fingerprint == if ok then |file.files| else old(fingerprint)
    {
      if fault.BeforeRename? { return false; }
      file.files := file.files + [records];
      if fault.AfterRename? { return false; }
      fingerprint := |file.files|;
      return true;
    }

    /** Ids are drawn until one is free. */
    method DrawId(draws: seq<Id>) returns (id: Id)
      requires exists k :: 0 <= k < |draws| && draws[k] !in records
      ensures id in draws && id !in records
    {
      var k := 0;
      while draws[k] in records
        invariant 0 <= k < |draws|
        invariant forall j :: 0 <= j < k ==> draws[j] in records
        invariant exists j :: k <= j < |draws| && draws[j] !in records
        decreases |draws| - k
      {
        k := k + 1;
      }
      return draws[k];
    }

    /** A new record reaches the file exactly when everything up to the rename works;
        success is reported exactly when what follows works too. */
    method Issue(tokenSet: string, expiry: Expiry, scope: Scope, draws: seq<Id>, secret: string,
                 now: Milliseconds, readable: bool, fault: Fault)
      returns (issued: Option<(Token, Record)>)
      requires Valid()
      requires exists k :: 0 <= k < |draws| && draws[k] !in file.Now()
      modifies this, file
      ensures Valid()
      ensures issued.Some? <==> IsName(tokenSet) && readable && Expiration(expiry, now).Some? && fault.NoFault?
      ensures IsName(tokenSet) && readable && Expiration(expiry, now).Some? && !fault.BeforeRename? ==>
                exists id :: id in draws && id !in old(file.Now()) &&
                  var change := Add(id, Record(tokenSet, Token(id, secret), now, Expiration(expiry, now).value, None, scope));
                  && file.files == old(file.files) + [Made(old(file.Now()), change)]
                  && (issued.Some? ==> issued.value == (Token(id, secret), change.record) && records == file.Now())
      ensures !(IsName(tokenSet) && readable && Expiration(expiry, now).Some?) || fault.BeforeRename? ==>
                file.files == old(file.files)
    {
      if !IsName(tokenSet) { return None; }
      mutating := true;
      var loaded := Reload(readable);
      if !loaded { mutating := false; return None; }
      var expiresAt := Expiration(expiry, now);
      if expiresAt.None? { mutating := false; return None; }
      var id := DrawId(draws);
      var record := Record(tokenSet, Token(id, secret), now, expiresAt.value, None, scope);
      ghost var change := Add(id, record);
      records := records[id := record];
      assert records == Made(old(file.Now()), change);
      var ok := Persist(fault);
      if !ok {
        UndoneRestores(old(file.Now()), change);
        records, mutating := records - {id}, false;
        return None;
      }
      mutating := false;
      return Some((Token(id, secret), record));
    }

    /** Likewise; a token that is unknown or already revoked changes nothing. */
    method Revoke(id: Id, now: Milliseconds, readable: bool, fault: Fault) returns (r: Result<bool, ()>)
      requires Valid()
      modifies this, file
      ensures Valid()
      ensures var fits := Fits(old(file.Now()), TokenRecords.Revoke(id, now));
              && (r == Success(true) <==> readable && fits && fault.NoFault?)
              && (r == Success(false) <==> readable && !fits)
              && file.files == (if readable && fits && !fault.BeforeRename?
                                then old(file.files) + [Made(old(file.Now()), TokenRecords.Revoke(id, now))]
                                else old(file.files))
              && (r.Success? ==> records == file.Now())
    {
      mutating := true;
      var loaded := Reload(readable);
      if !loaded { mutating := false; return Failure(()); }
      if id !in records || records[id].revokedAt.Some? { mutating := false; return Success(false); }
      ghost var change := TokenRecords.Revoke(id, now);
      records := records[id := records[id].(revokedAt := Some(now))];
      assert records == Made(old(file.Now()), change);
      var ok := Persist(fault);
      if !ok {
        UndoneRestores(old(file.Now()), change);
        records, mutating := records[id := records[id].(revokedAt := None)], false;
        return Failure(());
      }
      mutating := false;
      return Success(true);
    }

    /** `stat` and `readable` say whether the refresh's two system calls work; without
        a refresh the answer comes from the cache. */
    method Verify(q: Query, due: bool, stat: bool, readable: bool, now: Milliseconds) returns (r: Result<Answer, ()>)
      requires Valid()
      modifies `records, `fingerprint
      ensures Valid()
      ensures !due ==> r == Success(Decide(old(records), q, now)) && records == old(records)
      ensures due && r.Success? ==> r.value == Decide(file.Now(), q, now) && records == file.Now()
      ensures r.Failure? <==> due && (!stat || (!readable && old(fingerprint) != |file.files|))
      ensures r.Failure? ==> records == map[]
      ensures r.Success? && (q.tokenSet.Some? ==> IsName(q.tokenSet.value)) ==>
                var seen := if due then file.Now() else old(records);
                && (r.value.Accepted? <==>
                      && q.token.id in seen
                      && var record := seen[q.token.id];
                      && record.digest == q.token && record.revokedAt == None && now < record.expiresAt
                      && (q.tokenSet.Some? ==> record.tokenSet == q.tokenSet.value)
                      && (record.scope.serviceIds.Some? ==> q.context.Some? && q.context.value.serviceId in record.scope.serviceIds.value)
                      && (record.scope.hosts.Some? ==> q.context.Some? && q.context.value.host in record.scope.hosts.value)
                      && (record.scope.methods.Some? ==> q.context.Some? && q.context.value.verb in record.scope.methods.value)
                      && (record.scope.paths.Some? ==> q.context.Some? && q.context.value.path in record.scope.paths.value))
                && (r.value.Accepted? ==> r.value.record == seen[q.token.id])
    {
      if due {
        var ok := stat;
        if stat && fingerprint != |file.files| { ok := Reload(readable); }
        if !ok {
          records, fingerprint := map[], 0;
          return Failure(());
        }
      }
      if q.tokenSet.Some? ==> IsName(q.tokenSet.value) { AcceptedIsVouched(records, q, now); }
      return Success(Decide(records, q, now));
    }
  }
}
