/**
 * The SSE session map: `GET /events` registers a fresh transport under the
 * session id it minted, the transport's close callback deletes that id, and
 * `POST /events?sessionId=...` is routed by looking the id up
 * (scripts/start-server.ts, lines 36-71).
 */
module Sessions {
  import opened Wrappers

  /** An SSE transport object: the session id it minted, and an identity that tells transport objects apart. */
  datatype Transport = Transport(sessionId: string, handle: nat)

  /** A change to the session map: a registration by the GET handler, or a deletion by a close callback. */
  datatype Event = Opened(transport: Transport) | Closed(sessionId: string) {
    function Key(): string {
      match this
      case Opened(t) => t.sessionId
      case Closed(s) => s
    }
  }

  /** The POST handler's answer: 404, or the message handed to a transport. */
  datatype PostResult = NotFound | Delegated(transport: Transport)

  /** How building the per-session proxy ended: connected, `initProxy` rejected, or `connect` rejected. */
  datatype ProxyOutcome = ProxyConnected | InitFailed | ConnectFailed

  /** The GET handler's answer: a live stream, a 500 response, or a failure with no response (headers already out). */
  datatype OpenResult = Streaming(sessionId: string) | ServerError | Unanswered

  function Step(m: map<string, Transport>, e: Event): map<string, Transport> {
    match e
    case Opened(t) => m[t.sessionId := t]
    case Closed(s) => m - {s}
  }

  /** The session map after a sequence of changes, starting from the empty map. */
  function Replay(events: seq<Event>): (m: map<string, Transport>)
    ensures forall k :: k in m ==> m[k].sessionId == k
  {
    if events == [] then map[] else Step(Replay(events[..|events| - 1]), events[|events| - 1])
  }

  /** The last change in `events` that concerns `key`. */
  function LatestFor(events: seq<Event>, key: string): (r: Option<Event>)
    ensures r.Some? ==> r.value in events && r.value.Key() == key
  {
    if events == [] then None
    else if events[|events| - 1].Key() == key then Some(events[|events| - 1])
    else LatestFor(events[..|events| - 1], key)
  }

  /** Routing decided from the history alone: delegate to the transport of the last registration, unless a close came after it. */
  function RouteByHistory(events: seq<Event>, key: string): PostResult {
    match LatestFor(events, key)
    case Some(Opened(t)) => Delegated(t)
    case _ => NotFound
  }

  /** `String(req.query.sessionId || '')`: a missing id is the empty string. */
  function QueryKey(query: Option<string>): string {
    match query
    case Some(s) => s
    case None => ""
  }

  /** The GET handler's answer once the proxy build has ended; a 500 only when headers were not yet sent. */
  function EstablishResult(sessionId: string, proxy: ProxyOutcome, headersSent: bool): (r: OpenResult)
    ensures r.Streaming? <==> proxy == ProxyConnected
    ensures r.Streaming? ==> r.sessionId == sessionId
    ensures r == ServerError <==> proxy != ProxyConnected && !headersSent
  {
    if proxy == ProxyConnected then Streaming(sessionId)
    else if headersSent then Unanswered
    else ServerError
  }

  /** The map's content for a key is the last registration for that key, unless a close came after it. */
  lemma {:induction false} ReplayFollowsLatest(events: seq<Event>, key: string)
    ensures key in Replay(events) <==> LatestFor(events, key).Some? && LatestFor(events, key).value.Opened?
    ensures key in Replay(events) ==> Replay(events)[key] == LatestFor(events, key).value.transport
  {
    if events != [] {
      var prefix := events[..|events| - 1];
      if events[|events| - 1].Key() != key {
        ReplayFollowsLatest(prefix, key);
      }
    }
  }

  lemma AppendReplay(events: seq<Event>, e: Event)
    ensures Replay(events + [e]) == Step(Replay(events), e)
  {
    assert (events + [e])[..|events|] == events;
  }

  /** Closing is idempotent: a second close of the same id changes nothing. */
  lemma CloseIdempotent(m: map<string, Transport>, s: string)
    ensures Step(Step(m, Closed(s)), Closed(s)) == Step(m, Closed(s))
  {
  }

  /** Closing one id leaves every other session exactly as it was. */
  lemma CloseKeepsOthers(m: map<string, Transport>, s: string, k: string)
    requires k != s
    ensures k in Step(m, Closed(s)) <==> k in m
    ensures k in m ==> Step(m, Closed(s))[k] == m[k]
  {
  }

  class SessionRegistry {
    var sessions: map<string, Transport>
    ghost var history: seq<Event>

    ghost predicate Valid()
      reads this
    {
      sessions == Replay(history)
    }

    /** `new Map<string, SSEServerTransport>()`. */
    constructor ()
      ensures Valid() && history == [] && sessions == map[]
    {
      sessions := map[];
      history := [];
    }

    /**
     * `GET /events`: register the new transport under its session id before
     * the proxy is built; the build's outcome decides only the response.
     */
    method Open(t: Transport, proxy: ProxyOutcome, headersSent: bool) returns (r: OpenResult)
      requires Valid()
      modifies this
      ensures Valid() && history == old(history) + [Opened(t)]
      ensures sessions == old(sessions)[t.sessionId := t]
      ensures r == EstablishResult(t.sessionId, proxy, headersSent)
    {
      AppendReplay(history, Opened(t));
      sessions := sessions[t.sessionId := t];
      history := history + [Opened(t)];
      r := EstablishResult(t.sessionId, proxy, headersSent);
    }

    /** The transport's close callback: delete its session id, present or not. */
    method Close(sessionId: string)
      requires Valid()
      modifies this
      ensures Valid() && history == old(history) + [Closed(sessionId)]
      ensures sessions == old(sessions) - {sessionId}
    {
      AppendReplay(history, Closed(sessionId));
      sessions := sessions - {sessionId};
      history := history + [Closed(sessionId)];
    }

    /**
     * `POST /events`: 404 for an unknown id, otherwise delegation to the
     * transport registered under exactly that id, which is the one the last
     * registration for the id installed.
     */
    method Post(query: Option<string>) returns (r: PostResult)
      requires Valid()
      ensures r.Delegated? <==> QueryKey(query) in sessions
      ensures r.Delegated? ==> r.transport == sessions[QueryKey(query)] && r.transport.sessionId == QueryKey(query)
      ensures r == RouteByHistory(history, QueryKey(query))
    {
      var sessionId := QueryKey(query);
      ReplayFollowsLatest(history, sessionId);
      if sessionId !in sessions {
        r := NotFound;
      } else {
        r := Delegated(sessions[sessionId]);
      }
    }
  }

  /** A failed proxy build leaves the session registered, and a 500 is sent only before headers went out. */
  method FailedBuildStaysRegistered(t: Transport, failure: ProxyOutcome, headersSent: bool)
    returns (response: OpenResult, posted: PostResult)
    requires failure != ProxyConnected
    ensures response == (if headersSent then Unanswered else ServerError)
    ensures posted == Delegated(t)
  {
    var registry := new SessionRegistry();
    response := registry.Open(t, failure, headersSent);
    posted := registry.Post(Some(t.sessionId));
  }

  /**
   * A close that arrives while the proxy is being built: the completion does
   * not touch the map, so the stream may still report success while its id
   * is already gone; a second close is harmless.
   */
  method CloseDuringBuild(t: Transport, headersSent: bool)
    returns (response: OpenResult, posted: PostResult, postedAfterSecondClose: PostResult)
    ensures response == Streaming(t.sessionId)
    ensures posted == NotFound && postedAfterSecondClose == NotFound
  {
    var registry := new SessionRegistry();
    response := registry.Open(t, ProxyConnected, headersSent);
    registry.Close(t.sessionId);
    posted := registry.Post(Some(t.sessionId));
    registry.Close(t.sessionId);
    postedAfterSecondClose := registry.Post(Some(t.sessionId));
  }

  /** Two sessions with distinct ids each receive only their own messages, also after the other one closes. */
  method SessionsAreIsolated(a: Transport, b: Transport)
    returns (toA: PostResult, toB: PostResult, toBAfterCloseA: PostResult, toAAfterCloseA: PostResult)
    requires a.sessionId != b.sessionId
    ensures toA == Delegated(a) && toB == Delegated(b)
    ensures toBAfterCloseA == Delegated(b) && toAAfterCloseA == NotFound
  {
    var registry := new SessionRegistry();
    var _ := registry.Open(a, ProxyConnected, true);
    var _ := registry.Open(b, ProxyConnected, true);
    toA := registry.Post(Some(a.sessionId));
    toB := registry.Post(Some(b.sessionId));
    registry.Close(a.sessionId);
    toBAfterCloseA := registry.Post(Some(b.sessionId));
    toAAfterCloseA := registry.Post(Some(a.sessionId));
  }

  /** A POST without a session id looks up the empty string, and finds nothing unless a transport minted that id. */
  method MissingIdIsNotFound(registry: SessionRegistry) returns (r: PostResult)
    requires registry.Valid() && "" !in registry.sessions
    ensures r == NotFound
  {
    r := registry.Post(None);
  }
}
