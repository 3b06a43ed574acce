/** The legacy Redis route of the broadcaster
    (broadcaster-api/src/services/redis-subscriber.js): each message of the
    `notifications` channel is parsed, and its JSON text is written as a single
    data-only SSE frame to the recipient's response. Every failure on the way is
    caught and logged, so handling a message never fails. */
module RedisRouting {
  import opened Wrappers
  import opened Registry
  import opened Sse

  /** A channel message once `JSON.parse` succeeded: the two fields the route reads,
      and `text`, the message serialised again by `JSON.stringify`. */
  datatype Parsed = Parsed(notification: Option<Json>, recipient: Option<Recipient>, text: Json)

  /** Whether handling gets as far as routing: logging `notification.notification.title`
      throws when the `notification` field is absent, and reading `recipient.type`
      throws when `recipient` is; `None` is a message `JSON.parse` rejects. */
  predicate Routed(parsed: Option<Parsed>) {
    parsed.Some? && parsed.value.notification.Some? && parsed.value.recipient.Some?
  }

  /** The one chunk written per target: the serialised message as a data line. */
  function Frame(p: Parsed): seq<string> {
    DataOnlyChunks(p.text)
  }

  /** What `handleNotification` writes as the code stands. The broadcast branch calls
      `connections.getAllConnections()`, which the connection manager does not define:
      the call throws a TypeError that the catch in `handleNotification` swallows, so a
      broadcast reaches nobody. Only an individual recipient with a live response gets
      the frame (one write, lost if that write throws). */
  function AsWrittenWrites(reg: State, parsed: Option<Parsed>, accepts: nat -> nat): (ws: seq<Write>)
    ensures |ws| <= 1
    ensures ws != [] <==>
      Routed(parsed) && parsed.value.recipient.value.kind == Individual
      && parsed.value.recipient.value.id in reg.users && accepts(0) >= 1
    ensures ws != [] ==>
      ws == [Write(reg.users[parsed.value.recipient.value.id], "data: " + parsed.value.text + "\n\n")]
  {
    if !Routed(parsed) then []
    else
      var r := parsed.value.recipient.value;
      if r.kind == Individual then
        match LookupUser(reg, r.id)
        case Some(c) => FrameWrites(c, Frame(parsed.value), accepts(0))
        case None => []
      else []
  }

  /** A message to a broadcast recipient, with one user connected: as written, nothing
      is written, where the evident intent writes the frame to that user's response. */
  lemma AsWrittenBroadcastReachesNobody(text: Json)
    ensures var reg := AddUser(Empty, "u1", 1);
      var parsed := Some(Parsed(Some("{}"), Some(Recipient(Broadcast, "all")), text));
      var accepts := (i: nat) => 1;
      && AsWrittenWrites(reg, parsed, accepts) == []
      && Writes(AllUserConns(reg), Frame(parsed.value), accepts, |AllUserConns(reg)|)
         == [Write(1, "data: " + text + "\n\n")]
  {
    var reg := AddUser(Empty, "u1", 1);
    assert reg.order == ["u1"] && reg.users == map["u1" := 1];
    assert ValuesInOrder(reg.users, reg.order[1..]) == [];
  }

  /** `handleNotification` with the broadcast branch doing what it evidently means:
      the frame goes to every registered user response, in the registry's iteration
      order, each write isolated from the others' failures. The individual branch and
      the silent cases are those of the code as written. */
  method HandleNotification(reg: State, message: string, parse: string -> Option<Parsed>, accepts: nat -> nat)
    returns (writes: seq<Write>)
    ensures !Routed(parse(message)) ==> writes == []
    ensures Routed(parse(message)) && parse(message).value.recipient.value.kind != Broadcast ==>
      writes == AsWrittenWrites(reg, parse(message), accepts)
    ensures Routed(parse(message)) && parse(message).value.recipient.value.kind == Broadcast ==>
      writes == Writes(AllUserConns(reg), Frame(parse(message).value), accepts, |AllUserConns(reg)|)
  {
    var parsed := parse(message);
    if !Routed(parsed) {
      return [];
    }
    var p := parsed.value;
    var r := p.recipient.value;
    if r.kind == Individual {
      match LookupUser(reg, r.id)
      case Some(c) =>
        var _, ws := FanOut([c], Frame(p), accepts);
        writes := ws;
      case None =>
        writes := [];
    } else if r.kind == Broadcast {
      var all := AllUserConns(reg);
      var _, ws := FanOut(all, Frame(p), accepts);
      writes := ws;
    } else {
      writes := [];
    }
  }

  /** With every response taking its write, the fan-out of a one-chunk frame writes
      that chunk once to each target, in target order. */
  lemma {:induction false} SingleChunkWrites(targets: seq<Conn>, chunk: string, accepts: nat -> nat, n: nat)
    requires n <= |targets|
    requires forall i :: 0 <= i < n ==> accepts(i) >= 1
    ensures |Writes(targets, [chunk], accepts, n)| == n
    ensures forall i :: 0 <= i < n ==> Writes(targets, [chunk], accepts, n)[i] == Write(targets[i], chunk)
  {
    if n > 0 {
      SingleChunkWrites(targets, chunk, accepts, n - 1);
      var before := Writes(targets, [chunk], accepts, n - 1);
      var last := FrameWrites(targets[n - 1], [chunk], accepts(n - 1));
      assert last == [Write(targets[n - 1], chunk)];
      assert Writes(targets, [chunk], accepts, n) == before + last;
      forall i | 0 <= i < n
        ensures Writes(targets, [chunk], accepts, n)[i] == Write(targets[i], chunk)
      {
        if i < n - 1 {
          assert (before + last)[i] == before[i];
        }
      }
    }
  }

  /** The intended broadcast reaches every connected user exactly once: one write per
      registered user, and each user's response among them. */
  lemma BroadcastReachesEveryUser(reg: State, text: Json, accepts: nat -> nat)
    requires WellFormed(reg)
    requires forall i :: accepts(i) >= 1
    ensures var ws := Writes(AllUserConns(reg), DataOnlyChunks(text), accepts, |AllUserConns(reg)|);
      && |ws| == |reg.users|
      && forall u :: u in reg.users ==> Write(reg.users[u], "data: " + text + "\n\n") in ws
  {
    var all := AllUserConns(reg);
    BroadcastTargets(reg);
    SingleChunkWrites(all, "data: " + text + "\n\n", accepts, |all|);
    var ws := Writes(all, DataOnlyChunks(text), accepts, |all|);
    forall u | u in reg.users
      ensures Write(reg.users[u], "data: " + text + "\n\n") in ws
    {
      var i :| 0 <= i < |reg.order| && reg.order[i] == u;
      assert ws[i] == Write(all[i], "data: " + text + "\n\n");
    }
  }
}
