/** The SSE endpoint `GET /notifications/stream/:userId` (routes/stream.js): the
    request is validated, the response is registered under the user id, the
    `connected` event is written, and from then on the session reacts to three
    events: a heartbeat tick, the request's `close` and the request's `error`. */
module Stream {
  import opened Wrappers
  import opened Registry
  import opened Sse

  /** What a session did, in order: the registration, each chunk that reached the
      response, the cancellation of the heartbeat timer, and the registry cleanup. */
  datatype SessionEffect = Registered(userId: UserId) | Wrote(chunk: string) | HeartbeatCancelled | CleanedUp

  /** Each chunk, as the effect of writing it. */
  function WroteEach(chunks: seq<string>): seq<SessionEffect> {
    seq(|chunks|, k requires 0 <= k < |chunks| => SessionEffect.Wrote(chunks[k]))
  }

  /** The answer to a stream request: 400 when the user id is empty, otherwise the
      stream is opened (200 with the event-stream headers). */
  datatype Opening = Rejected(code: nat, error: string) | Opened(session: Session)

  /** One open SSE response and its heartbeat timer. `heartbeatActive` is whether the
      interval is still scheduled; once it is cleared the session is closed for good. */
  class Session {
    const userId: UserId
    const conn: Conn
    const registry: ConnectionManager
    var heartbeatActive: bool
    var trace: seq<SessionEffect>

    /** Registers the response under the user id, writes the `connected` event and
        starts the heartbeat. The response is not added to any group. */
    constructor Open(registry: ConnectionManager, userId: UserId, conn: Conn, now: string)
      requires registry.Valid()
      modifies registry
      ensures this.registry == registry && this.userId == userId && this.conn == conn
      ensures registry.Valid() && registry.Snapshot() == AddUser(old(registry.Snapshot()), userId, conn)
      ensures registry.Snapshot().groups == old(registry.Snapshot()).groups
      ensures heartbeatActive
      ensures trace == [Registered(userId)] + WroteEach(ConnectedChunks(userId, now))
    {
      this.registry := registry;
      this.userId := userId;
      this.conn := conn;
      new;
      registry.AddUserConnection(userId, conn);
      trace := [Registered(userId)] + WroteEach(ConnectedChunks(userId, now));
      heartbeatActive := true;
    }

    /** Clears the timer and runs the registry cleanup for this user and response. */
    method Teardown()
      requires registry.Valid()
      modifies this, registry
      ensures !heartbeatActive
      ensures trace == old(trace) + [HeartbeatCancelled, CleanedUp]
      ensures registry.Valid() && registry.Snapshot() == Cleanup(old(registry.Snapshot()), userId, conn)
      ensures userId !in registry.users
    {
      heartbeatActive := false;
      trace := trace + [HeartbeatCancelled];
      registry.CleanupConnection(userId, conn);
      trace := trace + [CleanedUp];
    }

    /** A heartbeat tick when the response takes `accepted` more writes before one
        throws: both heartbeat chunks when it takes them all; otherwise the chunks
        that went through, then the timer is cleared and the registry cleaned up. */
    method Tick(accepted: nat)
      requires registry.Valid()
      modifies this, registry
      ensures registry.Valid()
      ensures !old(heartbeatActive) ==>
        !heartbeatActive && trace == old(trace) && registry.Snapshot() == old(registry.Snapshot())
      ensures old(heartbeatActive) && accepted >= |HeartbeatChunks| ==>
        heartbeatActive && trace == old(trace) + WroteEach(HeartbeatChunks)
        && registry.Snapshot() == old(registry.Snapshot())
      ensures old(heartbeatActive) && accepted < |HeartbeatChunks| ==>
        !heartbeatActive
        && trace == old(trace) + WroteEach(HeartbeatChunks[..accepted]) + [HeartbeatCancelled, CleanedUp]
        && registry.Snapshot() == Cleanup(old(registry.Snapshot()), userId, conn)
        && userId !in registry.users
    {
      if !heartbeatActive {
        return;
      }
      var k := 0;
      while k < |HeartbeatChunks| && k < accepted
        invariant 0 <= k <= |HeartbeatChunks| && k <= accepted
        invariant trace == old(trace) + WroteEach(HeartbeatChunks[..k])
        invariant heartbeatActive && registry.Snapshot() == old(registry.Snapshot())
      {
        trace := trace + [SessionEffect.Wrote(HeartbeatChunks[k])];
        k := k + 1;
        assert WroteEach(HeartbeatChunks[..k]) == WroteEach(HeartbeatChunks[..k - 1]) + [SessionEffect.Wrote(HeartbeatChunks[k - 1])];
      }
      if k < |HeartbeatChunks| {
        assert k == accepted;
        Teardown();
      } else {
        assert HeartbeatChunks[..k] == HeartbeatChunks;
      }
    }

    /** The request's `close` event. */
    method OnClose()
      requires registry.Valid()
      modifies this, registry
      ensures !heartbeatActive
      ensures trace == old(trace) + [HeartbeatCancelled, CleanedUp]
      ensures registry.Valid() && registry.Snapshot() == Cleanup(old(registry.Snapshot()), userId, conn)
      ensures userId !in registry.users
    {
      Teardown();
    }

    /** The request's `error` event: the same teardown as `close`. */
    method OnError()
      requires registry.Valid()
      modifies this, registry
      ensures !heartbeatActive
      ensures trace == old(trace) + [HeartbeatCancelled, CleanedUp]
      ensures registry.Valid() && registry.Snapshot() == Cleanup(old(registry.Snapshot()), userId, conn)
      ensures userId !in registry.users
    {
      Teardown();
    }
  }

  /** The route handler: an empty user id is refused with 400 and leaves the registry
      alone; any other id opens a session. */
  method HandleStream(registry: ConnectionManager, userId: UserId, conn: Conn, now: string) returns (result: Opening)
    requires registry.Valid()
    modifies registry
    ensures registry.Valid()
    ensures userId == "" ==>
      result == Rejected(400, "Missing required parameter: userId")
      && registry.Snapshot() == old(registry.Snapshot())
    ensures userId != "" ==>
      result.Opened? && fresh(result.session)
      && result.session.registry == registry && result.session.userId == userId
      && result.session.heartbeatActive
      && registry.Snapshot() == AddUser(old(registry.Snapshot()), userId, conn)
      && LookupUser(registry.Snapshot(), userId) == Some(conn)
  {
    if userId == "" {
      return Rejected(400, "Missing required parameter: userId");
    }
    var session := new Session.Open(registry, userId, conn, now);
    result := Opened(session);
  }

  /** A session whose heartbeat write fails and whose request then closes: the
      second cleanup finds nothing more to do when the response sits in each group
      at most once, and either way the user id is no longer registered. */
  method HeartbeatFailureThenClose(registry: ConnectionManager, userId: UserId, conn: Conn, now: string)
    returns (session: Session)
    requires registry.Valid() && userId != ""
    requires forall g :: g in registry.groups ==> multiset(registry.groups[g])[conn] <= 1
    modifies registry
    ensures fresh(session) && !session.heartbeatActive
    ensures registry.Valid() && userId !in registry.users
    ensures registry.Snapshot() == Cleanup(AddUser(old(registry.Snapshot()), userId, conn), userId, conn)
  {
    session := new Session.Open(registry, userId, conn, now);
    ghost var afterOpen := registry.Snapshot();
    session.Tick(2);
    session.Tick(1);
    ghost var afterFailure := registry.Snapshot();
    assert afterFailure == Cleanup(afterOpen, userId, conn);
    session.OnClose();
    CleanupIdempotent(afterOpen, userId, conn);
  }
}
