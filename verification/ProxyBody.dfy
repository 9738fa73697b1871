/** The request body of one proxied exchange (src/proxy.js, proxyHttpRequest): the event
    handlers as methods of an object, and what every sequence of events keeps. */
module ProxyBody {
  import opened Results

  type Byte = b: int | 0 <= b < 256

  // ----- the state of an exchange

  datatype Upstream = Upstream(written: seq<Byte>, ended: bool, destroyed: bool, responded: bool)

  datatype Response = Response(headersSent: bool, ended: bool, destroyed: bool, errorCode: Option<string>)

  datatype Settlement = Settlement(ok: bool, code: string)

  /** `client` and `clientEnded` are history: what the client has sent so far. */
  datatype State = State(
    settled: Option<Settlement>, bodyBytes: nat, bodyRejected: bool, upstream: Upstream, response: Response,
    client: seq<Byte>, clientEnded: bool)

  datatype Event =
    | Data(chunk: seq<Byte>) | End | Aborted | RequestError
    | UpstreamResponds | UpstreamEnds | UpstreamAborts | UpstreamFails(timeout: bool) | UpstreamCloses
    | Finish | Close(finished: bool)

  const START := State(None, 0, false, Upstream([], false, false, false), Response(false, false, false, None), [], false)

  // ----- the effect of one event

  /** A destroyed or ended stream takes no more bytes. */
  function Written(u: Upstream, chunk: seq<Byte>): Upstream {
    if u.destroyed || u.ended then u else u.(written := u.written + chunk)
  }

  /** sendJsonError */
  function WithError(r: Response, code: string): Response {
    if r.headersSent || r.destroyed then r.(destroyed := true)
    else r.(headersSent := true, ended := true, errorCode := Some(code))
  }

  function Settle(s: State, result: Settlement): State { if s.settled.Some? then s else s.(settled := Some(result)) }

  function Next(maxBodyBytes: nat, s: State, e: Event): State {
    match e
    case Data(chunk) =>
      var t := s.(client := s.client + chunk);
      if s.bodyRejected then t
      else if s.bodyBytes + |chunk| > maxBodyBytes then
        t.(bodyBytes := s.bodyBytes + |chunk|, bodyRejected := true,
           upstream := s.upstream.(destroyed := true), response := WithError(s.response, "body_too_large"))
      else t.(bodyBytes := s.bodyBytes + |chunk|, upstream := Written(s.upstream, chunk))
    case End =>
      s.(clientEnded := true,
         upstream := if s.bodyRejected || s.upstream.destroyed then s.upstream else s.upstream.(ended := true))
    case Aborted => Settle(s.(upstream := s.upstream.(destroyed := true)), Settlement(false, "client_aborted"))
    case RequestError => s.(upstream := s.upstream.(destroyed := true))
    case UpstreamResponds =>
      s.(upstream := s.upstream.(responded := true),
         response := if s.bodyRejected || s.response.destroyed then s.response else s.response.(headersSent := true))
    case UpstreamEnds => if s.response.destroyed then s else s.(response := s.response.(ended := true))
    case UpstreamAborts => s.(response := s.response.(destroyed := true))
    case UpstreamFails(timeout) =>
      s.(upstream := s.upstream.(destroyed := true),
         response := if s.bodyRejected then s.response
                     else if !s.response.headersSent then
                       WithError(s.response, if timeout then "upstream_timeout" else "upstream_unavailable")
                     else s.response.(destroyed := true))
    case UpstreamCloses => s.(upstream := s.upstream.(destroyed := true))
    case Finish => Settle(s, Settlement(!s.bodyRejected, if s.bodyRejected then "body_too_large" else "ok"))
    case Close(finished) =>
      Settle(s.(upstream := if finished then s.upstream else s.upstream.(destroyed := true)),
             Settlement(finished && !s.bodyRejected, "closed"))
  }

  // ----- what every event keeps

  ghost predicate Inv(maxBodyBytes: nat, s: State) {
    && s.upstream.written <= s.client && |s.upstream.written| <= maxBodyBytes
    && (s.bodyRejected <==> |s.client| > maxBodyBytes)
    && (s.bodyRejected ==> s.upstream.destroyed && !s.upstream.ended)
    && (!s.bodyRejected ==> s.bodyBytes == |s.client|)
    && (!s.upstream.destroyed ==> s.upstream.written == s.client)
    && (s.upstream.ended ==> s.clientEnded && s.upstream.written == s.client)
  }

  lemma NextKeepsInv(maxBodyBytes: nat, s: State, e: Event)
    requires Inv(maxBodyBytes, s) && (e.Data? ==> !s.clientEnded)
    ensures Inv(maxBodyBytes, Next(maxBodyBytes, s, e))
  {
  }

  // ----- the handlers

  class ProxyExchange {
    const maxBodyBytes: nat
    var settled: Option<Settlement>
    var bodyBytes: nat
    var bodyRejected: bool
    var upstream: Upstream
    var response: Response
    ghost var client: seq<Byte>
    ghost var clientEnded: bool

    ghost function Now(): State
      reads this
    {
      State(settled, bodyBytes, bodyRejected, upstream, response, client, clientEnded)
    }

    /** The upstream has a prefix of what the client sent, within the limit, and has been
        ended normally only after all of it. */
    ghost predicate Valid()
      reads this
    {
      Inv(maxBodyBytes, Now())
    }

    constructor (maxBodyBytes: nat)
      ensures Valid() && Now() == START && this.maxBodyBytes == maxBodyBytes
    {
      this.maxBodyBytes := maxBodyBytes;
      settled, bodyBytes, bodyRejected := None, 0, false;
      upstream, response := Upstream([], false, false, false), Response(false, false, false, None);
      client, clientEnded := [], false;
    }

    method DestroyUpstream()
      modifies `upstream
      ensures upstream == old(upstream).(destroyed := true)
    {
      upstream := upstream.(destroyed := true);
    }

    method SendJsonError(code: string)
      modifies `response
      ensures response == WithError(old(response), code)
    {
      if response.headersSent || response.destroyed { response := response.(destroyed := true); return; }
      response := Response(true, true, false, Some(code));
    }

    method SettleWith(result: Settlement)
      modifies `settled
      ensures Now() == Settle(old(Now()), result)
    {
      if settled.Some? { return; }
      settled := Some(result);
    }

    /** A readable stream delivers no data after its end. */
    method OnData(chunk: seq<Byte>)
      requires Valid() && !clientEnded
      modifies this
      ensures Valid() && Now() == Next(maxBodyBytes, old(Now()), Data(chunk))
    {
      client := client + chunk;
      if bodyRejected { return; }
      bodyBytes := bodyBytes + |chunk|;
      if bodyBytes > maxBodyBytes {
        bodyRejected := true;
        DestroyUpstream();
        SendJsonError("body_too_large");
        return;
      }
      if !upstream.destroyed && !upstream.ended { upstream := upstream.(written := upstream.written + chunk); }
    }

    method OnEnd()
      requires Valid()
      modifies this
      ensures Valid() && Now() == Next(maxBodyBytes, old(Now()), End)
    {
      clientEnded := true;
      if !bodyRejected && !upstream.destroyed { upstream := upstream.(ended := true); }
    }

    method OnAborted()
      requires Valid()
      modifies this
      ensures Valid() && Now() == Next(maxBodyBytes, old(Now()), Aborted)
    {
      DestroyUpstream();
      SettleWith(Settlement(false, "client_aborted"));
    }

    method OnRequestError()
      requires Valid()
      modifies this
      ensures Valid() && Now() == Next(maxBodyBytes, old(Now()), RequestError)
    {
      DestroyUpstream();
    }

    method OnUpstreamError(timeout: bool)
      requires Valid()
      modifies this
      ensures Valid() && Now() == Next(maxBodyBytes, old(Now()), UpstreamFails(timeout))
    {
      DestroyUpstream();
      if bodyRejected { return; }
      if !response.headersSent { SendJsonError(if timeout then "upstream_timeout" else "upstream_unavailable"); }
      else if !response.destroyed { response := response.(destroyed := true); }
    }

    method OnUpstreamResponse()
      requires Valid()
      modifies this
      ensures Valid() && Now() == Next(maxBodyBytes, old(Now()), UpstreamResponds)
    {
      upstream := upstream.(responded := true);
      if bodyRejected || response.destroyed { return; }
      response := response.(headersSent := true);
    }

    method OnIncomingEnd()
      requires Valid()
      modifies this
      ensures Valid() && Now() == Next(maxBodyBytes, old(Now()), UpstreamEnds)
    {
      if !response.destroyed { response := response.(ended := true); }
    }

    method OnIncomingAborted()
      requires Valid()
      modifies this
      ensures Valid() && Now() == Next(maxBodyBytes, old(Now()), UpstreamAborts)
    {
      if !response.destroyed { response := response.(destroyed := true); }
    }

    method OnFinish()
      requires Valid()
      modifies this
      ensures Valid() && Now() == Next(maxBodyBytes, old(Now()), Finish)
    {
      SettleWith(Settlement(!bodyRejected, if bodyRejected then "body_too_large" else "ok"));
    }

    method OnClose(finished: bool)
      requires Valid()
      modifies this
      ensures Valid() && Now() == Next(maxBodyBytes, old(Now()), Close(finished))
    {
      if !finished { DestroyUpstream(); }
      SettleWith(Settlement(finished && !bodyRejected, "closed"));
    }
  }

  // ----- every sequence of events

  function Run(maxBodyBytes: nat, events: seq<Event>): State {
    if events == [] then START else Next(maxBodyBytes, Run(maxBodyBytes, events[..|events| - 1]), events[|events| - 1])
  }

  /** What a readable stream promises: nothing comes after its end. */
  ghost predicate StreamOrder(events: seq<Event>) {
    forall i, j :: 0 <= i < j < |events| && events[i].End? ==> !events[j].Data? && !events[j].End?
  }

  /** The bytes that the client sent. */
  function Body(events: seq<Event>): seq<Byte> {
    if events == [] then []
    else Body(events[..|events| - 1]) + (if events[|events| - 1].Data? then events[|events| - 1].chunk else [])
  }

  predicate HasEnd(events: seq<Event>) { exists i :: 0 <= i < |events| && events[i].End? }

  lemma NextHistory(maxBodyBytes: nat, s: State, e: Event)
    ensures Next(maxBodyBytes, s, e).client == s.client + (if e.Data? then e.chunk else [])
    ensures Next(maxBodyBytes, s, e).clientEnded == (s.clientEnded || e.End?)
  {
  }

  lemma {:induction false} RunHistory(maxBodyBytes: nat, events: seq<Event>)
    ensures Run(maxBodyBytes, events).client == Body(events)
    ensures Run(maxBodyBytes, events).clientEnded == HasEnd(events)
  {
    if events != [] {
      var last := |events| - 1;
      var before := events[..last];
      assert forall i :: 0 <= i < last ==> before[i] == events[i];
      RunHistory(maxBodyBytes, before);
      NextHistory(maxBodyBytes, Run(maxBodyBytes, before), events[last]);
    }
  }

  lemma StreamOrderBefore(events: seq<Event>)
    requires StreamOrder(events) && events != []
    ensures StreamOrder(events[..|events| - 1])
    ensures events[|events| - 1].Data? ==> !HasEnd(events[..|events| - 1])
  {
    var last := |events| - 1;
    assert forall i :: 0 <= i < last ==> events[..last][i] == events[i];
  }

  lemma {:induction false} RunKeepsInv(maxBodyBytes: nat, events: seq<Event>)
    requires StreamOrder(events)
    ensures Inv(maxBodyBytes, Run(maxBodyBytes, events))
  {
    if events != [] {
      var before := events[..|events| - 1];
      StreamOrderBefore(events);
      RunHistory(maxBodyBytes, before);
      RunKeepsInv(maxBodyBytes, before);
      NextKeepsInv(maxBodyBytes, Run(maxBodyBytes, before), events[|events| - 1]);
    }
  }

  /** The upstream gets a prefix of the client's body of at most the allowed length, the
      body is rejected exactly when it is longer, and the upstream request is ended
      normally only after the client's end and with the whole body. */
  lemma BoundedPrefix(maxBodyBytes: nat, events: seq<Event>)
    requires StreamOrder(events)
    ensures var s := Run(maxBodyBytes, events);
            && s.upstream.written <= Body(events) && |s.upstream.written| <= maxBodyBytes
            && (s.bodyRejected <==> |Body(events)| > maxBodyBytes)
            && (s.upstream.ended ==>
                  s.upstream.written == Body(events) && !s.bodyRejected && HasEnd(events))
            && (!s.upstream.destroyed ==> s.upstream.written == Body(events))
  {
    RunKeepsInv(maxBodyBytes, events);
    RunHistory(maxBodyBytes, events);
  }

  predicate Undisturbed(e: Event) {
    !(e.Aborted? || e.RequestError? || e.UpstreamFails? || e.UpstreamCloses? || (e.Close? && !e.finished))
  }

  /** Without failures, aborts or early closes a body that fits is forwarded and ended. */
  lemma {:induction false} CompleteBodyIsForwarded(maxBodyBytes: nat, events: seq<Event>)
    requires StreamOrder(events) && |Body(events)| <= maxBodyBytes
    requires forall i :: 0 <= i < |events| ==> Undisturbed(events[i])
    ensures var s := Run(maxBodyBytes, events);
            !s.upstream.destroyed && s.upstream.written == Body(events) && (s.upstream.ended <==> HasEnd(events))
  {
    BoundedPrefix(maxBodyBytes, events);
    RunHistory(maxBodyBytes, events);
    if events != [] {
      var before := events[..|events| - 1];
      StreamOrderBefore(events);
      CompleteBodyIsForwarded(maxBodyBytes, before);
      BoundedPrefix(maxBodyBytes, before);
      RunHistory(maxBodyBytes, before);
      NextForwards(maxBodyBytes, Run(maxBodyBytes, before), events[|events| - 1]);
    }
  }

  lemma NextForwards(maxBodyBytes: nat, s: State, e: Event)
    requires Undisturbed(e) && !Next(maxBodyBytes, s, e).bodyRejected && !s.bodyRejected
    requires !s.upstream.destroyed && (s.upstream.ended <==> s.clientEnded)
    ensures var t := Next(maxBodyBytes, s, e); !t.upstream.destroyed && (t.upstream.ended <==> t.clientEnded)
  {
  }

  /** The promise settles once. */
  lemma {:induction false} SettledIsFinal(maxBodyBytes: nat, events: seq<Event>, n: nat)
    requires n <= |events| && Run(maxBodyBytes, events[..n]).settled.Some?
    ensures Run(maxBodyBytes, events).settled == Run(maxBodyBytes, events[..n]).settled
  {
    if n == |events| {
      assert events[..n] == events;
    } else {
      assert events[..|events| - 1][..n] == events[..n];
      SettledIsFinal(maxBodyBytes, events[..|events| - 1], n);
    }
  }

  // ----- outcome and answer

  predicate Settles(e: Event) { e.Aborted? || e.Finish? || e.Close? }

  /** The outcome of an exchange: by the first abort of the client, finish or close of the
      response, and what of the body had come by then. */
  lemma {:induction false} SettlementExactly(maxBodyBytes: nat, events: seq<Event>, n: nat)
    requires StreamOrder(events) && n < |events| && Settles(events[n])
    requires forall i :: 0 <= i < n ==> !Settles(events[i])
    ensures var fits := |Body(events[..n])| <= maxBodyBytes;
            Run(maxBodyBytes, events).settled ==
              Some(match events[n]
                   case Aborted => Settlement(false, "client_aborted")
                   case Finish => Settlement(fits, if fits then "ok" else "body_too_large")
                   case Close(finished) => Settlement(finished && fits, "closed")
                   case _ => Settlement(false, ""))
  {
    var before := events[..n];
    assert StreamOrder(before);
    Unsettled(maxBodyBytes, before);
    BoundedPrefix(maxBodyBytes, before);
    assert events[..n + 1][..n] == before && events[..n + 1][n] == events[n];
    SettledIsFinal(maxBodyBytes, events, n + 1);
  }

  lemma {:induction false} Unsettled(maxBodyBytes: nat, events: seq<Event>)
    requires forall i :: 0 <= i < |events| ==> !Settles(events[i])
    ensures Run(maxBodyBytes, events).settled == None
  {
    if events != [] {
      assert !Settles(events[|events| - 1]);
      Unsettled(maxBodyBytes, events[..|events| - 1]);
    }
  }

  /** The chunk that makes the body too long is answered, for good, with that error if the
      client has had no response headers and is still there; otherwise the response is
      destroyed. */
  lemma {:induction false} RejectionIsAnswered(maxBodyBytes: nat, events: seq<Event>, n: nat)
    requires StreamOrder(events) && n < |events| && events[n].Data?
    requires |Body(events[..n])| <= maxBodyBytes < |Body(events[..n])| + |events[n].chunk|
    ensures var before, after := Run(maxBodyBytes, events[..n]).response, Run(maxBodyBytes, events).response;
            if before.headersSent || before.destroyed then after.destroyed
            else after.errorCode == Some("body_too_large") && after.ended
    decreases |events|
  {
    assert StreamOrder(events[..n]);
    BoundedPrefix(maxBodyBytes, events[..n]);
    RunKeepsInv(maxBodyBytes, events[..n]);
    RunHistory(maxBodyBytes, events[..n]);
    AnsweredForGood(maxBodyBytes, events, n + 1);
    assert events[..n + 1][..n] == events[..n] && events[..n + 1][n] == events[n];
    assert Run(maxBodyBytes, events[..n + 1]) == Next(maxBodyBytes, Run(maxBodyBytes, events[..n]), events[n]);
  }

  predicate Keeps(before: Response, after: Response) {
    && (before.headersSent ==> after.headersSent && after.errorCode == before.errorCode)
    && (before.destroyed ==> after.destroyed) && (before.ended ==> after.ended)
  }

  lemma NextKeepsAnswer(maxBodyBytes: nat, s: State, e: Event)
    ensures Keeps(s.response, Next(maxBodyBytes, s, e).response)
  {
  }

  /** Once headers are out, no error code is sent or taken back; what is destroyed or ended
      stays so. */
  lemma {:induction false} AnsweredForGood(maxBodyBytes: nat, events: seq<Event>, n: nat)
    requires n <= |events|
    ensures var before, after := Run(maxBodyBytes, events[..n]).response, Run(maxBodyBytes, events).response;
            && (before.headersSent ==> after.headersSent && after.errorCode == before.errorCode)
            && (before.destroyed ==> after.destroyed) && (before.ended ==> after.ended)
  {
    if n == |events| {
      assert events[..n] == events;
    } else {
      var before := events[..|events| - 1];
      assert before[..n] == events[..n];
      AnsweredForGood(maxBodyBytes, before, n);
      NextKeepsAnswer(maxBodyBytes, Run(maxBodyBytes, before), events[|events| - 1]);
    }
  }
}
