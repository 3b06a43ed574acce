/** Server-sent-events framing, in the event-stream format of the WHATWG HTML
    Living Standard, section 9.2 (Server-sent events), and the per-target
    fan-out loop with its per-target try/catch that both bus handlers run. */
module Sse {
  import opened Registry

  // ---------------------------------------------------------------------------
  // The event-stream format
  // ---------------------------------------------------------------------------

  /** One field line: the field name, a colon, a space, the value and a line feed. */
  function Field(name: string, value: string): string {
    name + ": " + value + "\n"
  }

  function Concat(chunks: seq<string>): string {
    if chunks == [] then "" else chunks[0] + Concat(chunks[1..])
  }

  lemma ConcatThree(a: string, b: string, c: string)
    ensures Concat([a, b, c]) == a + b + c
  {
    assert [a, b, c][1..] == [b, c];
    assert [b, c][1..] == [c];
    assert Concat([c]) == c + Concat([]);
  }

  lemma ConcatTwo(a: string, b: string)
    ensures Concat([a, b]) == a + b
  {
    assert [a, b][1..] == [b];
    assert Concat([b]) == b + Concat([]);
  }

  /** No line terminator of the event-stream format: neither LF nor CR. */
  predicate NoBreak(s: string) {
    '\n' !in s && '\r' !in s
  }

  /** The lines a reader of the stream sees. As in section 9.2.5 of the WHATWG HTML
      standard a line ends at CRLF, at a lone LF or at a lone CR; the last element
      is what follows the final line terminator (empty when the text ends with one). */
  function SplitLines(s: string): (lines: seq<string>)
    ensures |lines| >= 1
    ensures forall i :: 0 <= i < |lines| ==> NoBreak(lines[i])
    decreases |s|
  {
    if s == [] then [""]
    else if s[0] == '\n' then [""] + SplitLines(s[1..])
    else if s[0] == '\r' then
      if |s| > 1 && s[1] == '\n' then [""] + SplitLines(s[2..]) else [""] + SplitLines(s[1..])
    else
      var rest := SplitLines(s[1..]);
      [[s[0]] + rest[0]] + rest[1..]
  }

  /** A line without terminators, ended by a line feed, is the first line read. */
  lemma {:induction false} SplitLinesAfterLine(a: string, b: string)
    requires NoBreak(a)
    ensures SplitLines(a + "\n" + b) == [a] + SplitLines(b)
    decreases |a|
  {
    if a == [] {
      assert a + "\n" + b == ['\n'] + b;
      assert (['\n'] + b)[1..] == b;
    } else {
      assert (a + "\n" + b)[1..] == a[1..] + "\n" + b;
      SplitLinesAfterLine(a[1..], b);
      assert [a[0]] + a[1..] == a;
    }
  }

  /** A lone carriage return ends a line too. */
  lemma {:induction false} SplitLinesAfterReturn(a: string, b: string)
    requires NoBreak(a) && (b == [] || b[0] != '\n')
    ensures SplitLines(a + "\r" + b) == [a] + SplitLines(b)
    decreases |a|
  {
    if a == [] {
      assert a + "\r" + b == ['\r'] + b;
      assert (['\r'] + b)[1..] == b;
    } else {
      assert (a + "\r" + b)[1..] == a[1..] + "\r" + b;
      SplitLinesAfterReturn(a[1..], b);
      assert [a[0]] + a[1..] == a;
    }
  }

  /** The three writes of a notification event: event name, data, id and the
      blank line that ends the block (pubsub-handler.js, subscription.controller.js). */
  function NotificationChunks(json: string, messageId: string): seq<string> {
    ["event: notification\n", "data: " + json + "\n", "id: " + messageId + "\n\n"]
  }

  /** The payload of the `connected` event, built by string interpolation (no escaping). */
  function ConnectedJson(userId: string, timestamp: string): string {
    "{\"userId\":\"" + userId + "\",\"timestamp\":\"" + timestamp + "\"}"
  }

  /** The two writes of the `connected` event (routes/stream.js). */
  function ConnectedChunks(userId: string, timestamp: string): seq<string> {
    ["event: connected\n", "data: " + ConnectedJson(userId, timestamp) + "\n\n"]
  }

  /** The two writes of a heartbeat tick (routes/stream.js). */
  const HeartbeatChunks: seq<string> := ["event: heartbeat\n", "data: ping\n\n"]

  /** The single write of the Redis route: a data line and the blank line, nothing else. */
  function DataOnlyChunks(json: string): seq<string> {
    ["data: " + json + "\n\n"]
  }

  /** A notification frame is the block `event`, `data`, `id` followed by a blank line. */
  lemma NotificationFrameLayout(json: string, messageId: string)
    ensures Concat(NotificationChunks(json, messageId))
         == Field("event", "notification") + Field("data", json) + Field("id", messageId) + "\n"
  {
    ConcatThree("event: notification\n", "data: " + json + "\n", "id: " + messageId + "\n\n");
  }

  /** The `connected` frame has an event line and a data line, and no `id` line. */
  lemma ConnectedFrameLayout(userId: string, timestamp: string)
    ensures Concat(ConnectedChunks(userId, timestamp))
         == Field("event", "connected") + Field("data", ConnectedJson(userId, timestamp)) + "\n"
  {
    ConcatTwo("event: connected\n", "data: " + ConnectedJson(userId, timestamp) + "\n\n");
  }

  lemma HeartbeatFrameLayout()
    ensures Concat(HeartbeatChunks) == Field("event", "heartbeat") + Field("data", "ping") + "\n"
  {
  }

  lemma DataOnlyFrameLayout(json: string)
    ensures Concat(DataOnlyChunks(json)) == Field("data", json) + "\n"
  {
  }

  /** A reader of the stream sees exactly three field lines and then the blank line
      that dispatches the event, provided the JSON and the id hold no line terminator.
      `JSON.stringify` escapes both, but the message id is written as received. */
  lemma NotificationFrameLines(json: string, messageId: string)
    requires NoBreak(json) && NoBreak(messageId)
    ensures SplitLines(Concat(NotificationChunks(json, messageId)))
         == ["event: notification", "data: " + json, "id: " + messageId, "", ""]
  {
    var e, d, i := "event: notification", "data: " + json, "id: " + messageId;
    ConcatThree("event: notification\n", "data: " + json + "\n", "id: " + messageId + "\n\n");
    assert Concat(NotificationChunks(json, messageId)) == e + "\n" + (d + "\n" + (i + "\n" + ("" + "\n" + "")));
    SplitLinesAfterLine("", "");
    SplitLinesAfterLine(i, "" + "\n" + "");
    SplitLinesAfterLine(d, i + "\n" + ("" + "\n" + ""));
    SplitLinesAfterLine(e, d + "\n" + (i + "\n" + ("" + "\n" + "")));
  }

  /** A carriage return in the message id ends the `id` line early: the reader takes
      only the part before it as the event id, and the rest becomes a line of its own. */
  lemma MessageIdWithReturnCutsIdLine(json: string, a: string, b: string)
    requires NoBreak(json) && NoBreak(a) && NoBreak(b) && b != []
    ensures SplitLines(Concat(NotificationChunks(json, a + "\r" + b)))
         == ["event: notification", "data: " + json, "id: " + a, b, "", ""]
  {
    var e, d, i := "event: notification", "data: " + json, "id: " + a;
    var tail := b + "\n" + ("" + "\n" + "");
    ConcatThree("event: notification\n", "data: " + json + "\n", "id: " + (a + "\r" + b) + "\n\n");
    assert "\n\n" == "\n" + ("" + "\n" + "");
    assert "id: " + (a + "\r" + b) + "\n\n" == i + "\r" + tail;
    assert Concat(NotificationChunks(json, a + "\r" + b)) == e + "\n" + (d + "\n" + (i + "\r" + tail));
    SplitLinesAfterLine("", "");
    SplitLinesAfterLine(b, "" + "\n" + "");
    SplitLinesAfterReturn(i, tail);
    SplitLinesAfterLine(d, i + "\r" + tail);
    SplitLinesAfterLine(e, d + "\n" + (i + "\r" + tail));
  }

  /** A reader sees the `connected` frame as an event line, a data line and the
      blank line, with no `id` line, when the user id holds no line terminator. */
  lemma ConnectedFrameLines(userId: string, timestamp: string)
    requires NoBreak(userId) && NoBreak(timestamp)
    ensures SplitLines(Concat(ConnectedChunks(userId, timestamp)))
         == ["event: connected", "data: " + ConnectedJson(userId, timestamp), "", ""]
  {
    var e, d := "event: connected", "data: " + ConnectedJson(userId, timestamp);
    assert NoBreak(d);
    ConcatTwo("event: connected\n", d + "\n\n");
    assert Concat(ConnectedChunks(userId, timestamp)) == e + "\n" + (d + "\n" + ("" + "\n" + ""));
    SplitLinesAfterLine("", "");
    SplitLinesAfterLine(d, "" + "\n" + "");
    SplitLinesAfterLine(e, d + "\n" + ("" + "\n" + ""));
  }

  /** The user id is interpolated unescaped, so a (percent-decoded) line feed in it
      ends the data line and what follows is read as a line of its own: with
      `b` = `id: x` the frame gains an `id` field. */
  lemma ConnectedUserIdInjectsLine(a: string, b: string, timestamp: string)
    requires NoBreak(a) && NoBreak(b) && NoBreak(timestamp)
    ensures SplitLines(Concat(ConnectedChunks(a + "\n" + b, timestamp)))
         == ["event: connected", "data: {\"userId\":\"" + a, b + "\",\"timestamp\":\"" + timestamp + "\"}", "", ""]
  {
    var e, d1 := "event: connected", "data: {\"userId\":\"" + a;
    var d2 := b + "\",\"timestamp\":\"" + timestamp + "\"}";
    assert NoBreak(d1) && NoBreak(d2);
    var last := "" + "\n" + "";
    ConcatTwo("event: connected\n", "data: " + ConnectedJson(a + "\n" + b, timestamp) + "\n\n");
    assert "\n\n" == "\n" + last;
    assert "data: " + ConnectedJson(a + "\n" + b, timestamp) + "\n\n" == d1 + "\n" + (d2 + "\n" + last);
    assert Concat(ConnectedChunks(a + "\n" + b, timestamp)) == e + "\n" + (d1 + "\n" + (d2 + "\n" + last));
    SplitLinesAfterLine("", "");
    SplitLinesAfterLine(d2, last);
    SplitLinesAfterLine(d1, d2 + "\n" + last);
    SplitLinesAfterLine(e, d1 + "\n" + (d2 + "\n" + last));
  }

  // ---------------------------------------------------------------------------
  // Fan-out with per-target failure isolation
  // ---------------------------------------------------------------------------

  /** A chunk that reached a response stream. */
  datatype Write = Write(conn: Conn, chunk: string)

  function Min(a: nat, b: nat): nat {
    if a < b then a else b
  }

  /** The writes one frame makes on `c` when `c` accepts only `accepted` writes:
      the write that throws ends the frame there. */
  function FrameWrites(c: Conn, chunks: seq<string>, accepted: nat): (ws: seq<Write>)
    ensures |ws| == Min(accepted, |chunks|)
    ensures forall k :: 0 <= k < |ws| ==> ws[k] == Write(c, chunks[k])
  {
    var n := Min(accepted, |chunks|);
    seq(n, k requires 0 <= k < n => Write(c, chunks[k]))
  }

  /** The writes of the fan-out over the first `n` targets; `accepts(i)` is how many
      writes the i-th target takes before one throws. */
  function Writes(targets: seq<Conn>, chunks: seq<string>, accepts: nat -> nat, n: nat): (ws: seq<Write>)
    requires n <= |targets|
    ensures |ws| <= n * |chunks|
    ensures forall k :: 0 <= k < |ws| ==> ws[k].conn in targets[..n] && ws[k].chunk in chunks
  {
    if n == 0 then []
    else
      var before := Writes(targets, chunks, accepts, n - 1);
      var last := FrameWrites(targets[n - 1], chunks, accepts(n - 1));
      assert forall c :: c in targets[..n - 1] ==> c in targets[..n] by {
        assert targets[..n - 1] == targets[..n][..n - 1];
      }
      assert targets[n - 1] in targets[..n] by {
        assert targets[..n][n - 1] == targets[n - 1];
      }
      before + last
  }

  /** How many of the first `n` targets took every write of the frame (`sentCount`). */
  function SentCount(chunks: seq<string>, accepts: nat -> nat, n: nat): (count: nat)
    ensures count <= n
    ensures (forall i :: 0 <= i < n ==> accepts(i) >= |chunks|) ==> count == n
    ensures (forall i :: 0 <= i < n ==> accepts(i) < |chunks|) ==> count == 0
  {
    if n == 0 then 0 else SentCount(chunks, accepts, n - 1) + (if accepts(n - 1) >= |chunks| then 1 else 0)
  }

  lemma {:induction false} WritesPrefix(targets: seq<Conn>, chunks: seq<string>, accepts: nat -> nat, m: nat, n: nat)
    requires m <= n <= |targets|
    ensures Writes(targets, chunks, accepts, m) <= Writes(targets, chunks, accepts, n)
    decreases n
  {
    if m < n {
      WritesPrefix(targets, chunks, accepts, m, n - 1);
    }
  }

  /** Failure isolation: a target that takes every write receives the whole frame,
      contiguously and in order, whatever the targets before or after it do. */
  lemma FanOutIsolation(targets: seq<Conn>, chunks: seq<string>, accepts: nat -> nat, j: nat)
    requires j < |targets| && accepts(j) >= |chunks|
    ensures Writes(targets, chunks, accepts, j) + FrameWrites(targets[j], chunks, |chunks|)
         <= Writes(targets, chunks, accepts, |targets|)
  {
    WritesPrefix(targets, chunks, accepts, j + 1, |targets|);
    assert FrameWrites(targets[j], chunks, accepts(j)) == FrameWrites(targets[j], chunks, |chunks|);
  }

  /** The fan-out loop: each target gets the frame's chunks in order; a throwing write
      abandons that target only, and `sent` counts the targets that took every write. */
  method FanOut(targets: seq<Conn>, chunks: seq<string>, accepts: nat -> nat) returns (sent: nat, writes: seq<Write>)
    ensures sent == SentCount(chunks, accepts, |targets|)
    ensures writes == Writes(targets, chunks, accepts, |targets|)
  {
    sent, writes := 0, [];
    for i := 0 to |targets|
      invariant sent == SentCount(chunks, accepts, i)
      invariant writes == Writes(targets, chunks, accepts, i)
    {
      var k := 0;
      var threw := false;
      while k < |chunks| && !threw
        invariant 0 <= k <= |chunks|
        invariant threw ==> k == accepts(i) < |chunks|
        invariant !threw ==> k <= accepts(i)
        invariant writes == Writes(targets, chunks, accepts, i) + FrameWrites(targets[i], chunks, k)
        decreases |chunks| - k, if threw then 0 else 1
      {
        if k < accepts(i) {
          writes := writes + [Write(targets[i], chunks[k])];
          k := k + 1;
        } else {
          threw := true;
        }
      }
      assert FrameWrites(targets[i], chunks, k) == FrameWrites(targets[i], chunks, accepts(i));
      if !threw {
        sent := sent + 1;
      }
    }
  }
}
