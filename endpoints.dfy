/** The web app's endpoint configuration (web-app/src/utils/environments.js): URL
    builders for the producer API and the broadcaster, and the age limit of the
    client-side cleanup. The base URLs come from the build environment and are
    parameters here. Identifiers are spliced into the URLs verbatim. */
module Endpoints {
  import opened Wrappers

  /** `APP_CONFIG.NOTIFICATIONS.CLEANUP_DAYS`. */
  const CleanupDays: nat := 7

  /** The first position of `c` in `s`, or -1 when it does not occur. */
  function Find(s: string, c: char): (k: int)
    ensures -1 <= k < |s|
    ensures k == -1 <==> c !in s
    ensures k >= 0 ==> s[k] == c && c !in s[..k]
  {
    if s == [] then -1
    else if s[0] == c then 0
    else
      var k := Find(s[1..], c);
      assert s[1..][..if k < 0 then 0 else k] == s[1..if k < 0 then 1 else k + 1];
      if k == -1 then -1 else k + 1
  }

  /** The first `c` of `a + [c] + b` is the one after `a` when `a` holds none. */
  lemma {:induction false} FindAfter(a: string, c: char, b: string)
    requires c !in a
    ensures Find(a + [c] + b, c) == |a|
  {
    if a != [] {
      assert (a + [c] + b)[1..] == a[1..] + [c] + b;
      FindAfter(a[1..], c, b);
    }
  }

  // ---------------------------------------------------------------------------
  // ENDPOINTS.NOTIFICATIONS.GET_BY_USER
  // ---------------------------------------------------------------------------

  function GetByUserPrefix(apiBase: string): string {
    apiBase + "/notifications?userId="
  }

  /** `GET_BY_USER(userId, status = "")`: the `&status=` segment only for a non-empty status. */
  function GetByUser(apiBase: string, userId: string, status: string): string {
    GetByUserPrefix(apiBase) + userId + (if status != "" then "&status=" + status else "")
  }

  /** Reads the user id and status back from a `GET_BY_USER` URL: the user id runs up
      to the first `&`, which must open a `&status=` segment. */
  function ParseGetByUser(apiBase: string, url: string): Option<(string, string)> {
    var p := GetByUserPrefix(apiBase);
    if p <= url then ParseUserQuery(url[|p|..]) else None
  }

  /** The query after `?userId=`: the user id, then an optional `&status=` segment. */
  function ParseUserQuery(rest: string): Option<(string, string)> {
    var k := Find(rest, '&');
    if k == -1 then Some((rest, ""))
    else if "&status=" <= rest[k..] then Some((rest[..k], rest[k + 8..]))
    else None
  }

  lemma ParseUserQueryWithStatus(userId: string, status: string)
    requires '&' !in userId
    ensures ParseUserQuery(userId + "&status=" + status) == Some((userId, status))
  {
    var rest := userId + "&status=" + status;
    assert rest == userId + ['&'] + ("status=" + status);
    FindAfter(userId, '&', "status=" + status);
    assert rest[..|userId|] == userId;
    assert rest[|userId|..] == "&status=" + status;
    assert rest[|userId| + 8..] == status;
  }

  /** Round trip: a user id without `&` and any status are recovered from the URL. */
  lemma GetByUserRoundTrip(apiBase: string, userId: string, status: string)
    requires '&' !in userId
    ensures ParseGetByUser(apiBase, GetByUser(apiBase, userId, status)) == Some((userId, status))
  {
    var p := GetByUserPrefix(apiBase);
    var rest := if status != "" then userId + "&status=" + status else userId;
    assert GetByUser(apiBase, userId, status) == p + rest;
    assert (p + rest)[|p|..] == rest;
    if status != "" {
      ParseUserQueryWithStatus(userId, status);
    }
  }

  /** The default (empty) status puts no `&status=` segment in the URL. */
  lemma GetByUserDefaultHasNoStatus(apiBase: string, userId: string)
    requires '&' !in apiBase && '&' !in userId
    ensures GetByUser(apiBase, userId, "") == GetByUserPrefix(apiBase) + userId
    ensures '&' !in GetByUser(apiBase, userId, "")
    ensures ParseGetByUser(apiBase, GetByUser(apiBase, userId, "")) == Some((userId, ""))
  {
    GetByUserRoundTrip(apiBase, userId, "");
  }

  /** No escaping: a user id holding `&status=` yields the URL of a status query. */
  lemma GetByUserNotEscaped(apiBase: string)
    ensures GetByUser(apiBase, "u1&status=read", "") == GetByUser(apiBase, "u1", "read")
  {
  }

  // ---------------------------------------------------------------------------
  // ENDPOINTS.NOTIFICATIONS.MARK_AS_READ
  // ---------------------------------------------------------------------------

  function MarkAsReadPrefix(apiBase: string): string {
    apiBase + "/notifications/"
  }

  /** `MARK_AS_READ(notificationId, userId)`. */
  function MarkAsReadUrl(apiBase: string, notificationId: string, userId: string): string {
    MarkAsReadPrefix(apiBase) + notificationId + "/read?userId=" + userId
  }

  /** Reads the notification id and user id back: the id runs up to the first `/`,
      which must open the `/read?userId=` segment. */
  function ParseMarkAsRead(apiBase: string, url: string): Option<(string, string)> {
    var p := MarkAsReadPrefix(apiBase);
    if p <= url then ParseReadPath(url[|p|..]) else None
  }

  /** The path after `/notifications/`: the id, then `/read?userId=` and the user id. */
  function ParseReadPath(rest: string): Option<(string, string)> {
    var k := Find(rest, '/');
    if k >= 0 && "/read?userId=" <= rest[k..] then Some((rest[..k], rest[k + 13..]))
    else None
  }

  lemma ParseReadPathOf(notificationId: string, userId: string)
    requires '/' !in notificationId
    ensures ParseReadPath(notificationId + "/read?userId=" + userId) == Some((notificationId, userId))
  {
    var rest := notificationId + "/read?userId=" + userId;
    assert rest == notificationId + ['/'] + ("read?userId=" + userId);
    FindAfter(notificationId, '/', "read?userId=" + userId);
    assert rest[..|notificationId|] == notificationId;
    assert rest[|notificationId|..] == "/read?userId=" + userId;
    assert rest[|notificationId| + 13..] == userId;
  }

  /** Round trip: a notification id without `/` and any user id are recovered. */
  lemma MarkAsReadRoundTrip(apiBase: string, notificationId: string, userId: string)
    requires '/' !in notificationId
    ensures ParseMarkAsRead(apiBase, MarkAsReadUrl(apiBase, notificationId, userId)) == Some((notificationId, userId))
  {
    var p := MarkAsReadPrefix(apiBase);
    var rest := notificationId + "/read?userId=" + userId;
    assert MarkAsReadUrl(apiBase, notificationId, userId) == p + rest;
    assert (p + rest)[|p|..] == rest;
    ParseReadPathOf(notificationId, userId);
  }

  /** No escaping: two different (id, user) pairs give the same URL. */
  lemma MarkAsReadNotInjective(apiBase: string)
    ensures MarkAsReadUrl(apiBase, "n1/read?userId=u1", "u2") == MarkAsReadUrl(apiBase, "n1", "u1/read?userId=u2")
  {
  }

  // ---------------------------------------------------------------------------
  // ENDPOINTS.SSE.STREAM
  // ---------------------------------------------------------------------------

  function StreamPrefix(broadcasterBase: string): string {
    broadcasterBase + "/stream/"
  }

  /** `SSE.STREAM(userId)`. */
  function StreamUrl(broadcasterBase: string, userId: string): string {
    StreamPrefix(broadcasterBase) + userId
  }

  /** The position of the first character of `s` in `stops`, or `|s|` when none is. */
  function FirstOf(s: string, stops: set<char>): (k: nat)
    ensures k <= |s|
    ensures forall i :: 0 <= i < k ==> s[i] !in stops
    ensures k < |s| ==> s[k] in stops
  {
    if s == [] then 0
    else if s[0] in stops then 0
    else 1 + FirstOf(s[1..], stops)
  }

  /** The user id the broadcaster's `/stream/:userId` route reads from a URL taken as
      built (the browser's URL normalisation and Express's percent-decoding are not
      applied): the query and fragment are not part of the path, and `:userId`
      matches one non-empty path segment, optionally followed by a trailing `/`. Any
      other path under `/stream/` reaches the 404 handler. */
  function StreamUserOf(broadcasterBase: string, url: string): (r: Option<string>)
    ensures r.Some? ==> r.value != "" && '/' !in r.value && '?' !in r.value && '#' !in r.value
    ensures r.Some? ==> StreamUrl(broadcasterBase, r.value) <= url
  {
    var p := StreamPrefix(broadcasterBase);
    if !(p <= url) then None
    else
      var rest := url[|p|..];
      var path := rest[..FirstOf(rest, {'?', '#'})];
      var seg := path[..FirstOf(path, {'/'})];
      if seg != "" && (path == seg || path == seg + "/") then
        assert url == p + seg + url[|p| + |seg|..];
        Some(seg)
      else None
  }

  /** Every non-empty user id free of `/`, `?`, `#` and `%` is read back by
      `StreamUserOf` from its stream URL as built (without `%`, percent-decoding
      would leave the segment as is). `StreamUserOf`'s own contract gives the other
      direction: what it reads is such an id, and its stream URL begins the URL. */
  lemma StreamUrlRoundTrip(broadcasterBase: string, userId: string)
    requires userId != "" && '/' !in userId && '?' !in userId && '#' !in userId && '%' !in userId
    ensures StreamUserOf(broadcasterBase, StreamUrl(broadcasterBase, userId)) == Some(userId)
  {
    var p := StreamPrefix(broadcasterBase);
    var rest := (p + userId)[|p|..];
    assert rest == userId;
    assert FirstOf(userId, {'?', '#'}) == |userId|;
    assert userId[..|userId|] == userId;
    assert FirstOf(userId, {'/'}) == |userId|;
  }

  /** No escaping: a user id holding `/`, `?` or `#` is not the id the route reads
      back; `a/b`, for one, leads to the 404 handler. */
  lemma StreamUrlNotEscaped(broadcasterBase: string, userId: string)
    requires '/' in userId || '?' in userId || '#' in userId
    ensures StreamUserOf(broadcasterBase, StreamUrl(broadcasterBase, userId)) != Some(userId)
    ensures StreamUserOf(broadcasterBase, StreamUrl(broadcasterBase, "a/b")) == None
  {
    var p := StreamPrefix(broadcasterBase);
    var url := StreamUrl(broadcasterBase, "a/b");
    assert url[|p|..] == "a/b";
    assert FirstOf("a/b", {'?', '#'}) == 3;
    assert "a/b"[..3] == "a/b";
    assert FirstOf("a/b", {'/'}) == 1;
    assert "a/b"[..1] == "a";
  }

  // ---------------------------------------------------------------------------
  // getEndpoint
  // ---------------------------------------------------------------------------

  /** An endpoint entry: a fixed URL, or a builder from an argument to a URL. */
  datatype Endpoint = Url(url: string) | Builder(build: string -> string)

  /** `getEndpoint`: both branches (function or not) return the entry unchanged. */
  function GetEndpoint(endpoint: Endpoint): (r: Endpoint)
    ensures r == endpoint
  {
    match endpoint
    case Builder(_) => endpoint
    case Url(_) => endpoint
  }
}
