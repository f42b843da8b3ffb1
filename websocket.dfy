/**
 * The WebSocket transport of the SignalR Java client: its identity (`getName`,
 * `supportKeepAlive`) and what `start` does before the socket connects. It
 * builds the `connect`/`reconnect` URL from the connection's session state,
 * rewrites `http://`/`https://` into the `ws`/`wss` schemes of section 3 of
 * RFC 6455, fails the returned future if the result is not a URI, and
 * otherwise adds a `User-Agent` header and creates the socket client.
 */
module Websocket {
  import opened Nullable
  import opened Text
  import opened FormEncoding
  import opened QueryString

  datatype ConnectionType = InitialConnection | Reconnection

  const USER_AGENT_HEADER := "User-Agent"

  /** `getName()`: the transport identifier the server negotiates on. */
  function Name(): string {
    "webSockets"
  }

  /** `supportKeepAlive()`. */
  function SupportKeepAlive(): (supported: bool)
    ensures supported
  {
    true
  }

  /** The session state `start` reads from its connection; `None` is a null getter result. */
  datatype Session = Session(
    url: Option<string>,
    connectionToken: string,
    messageId: Option<string>,
    groupsToken: Option<string>,
    connectionData: Option<string>,
    queryString: Option<string>)

  /** The path segment chosen by the connection type. */
  function PathSegment(kind: ConnectionType): string {
    if kind == InitialConnection then "connect" else "reconnect"
  }

  /** A null value is sent as the empty string. */
  function OrEmpty(v: Option<string>): string {
    match v
    case None => ""
    case Some(s) => s
  }

  /** Java string concatenation writes a null base URL as `null`. */
  function UrlText(url: Option<string>): string {
    match url
    case None => "null"
    case Some(u) => u
  }

  /**
   * The query parameters, in the order they are sent, with their encoded
   * values; the transport name is sent as it is, since encoding leaves it
   * unchanged (`NameEncodesToItself`).
   */
  function StartParams(s: Session): seq<(string, string)> {
    [("connectionData", Encode(Encode(OrEmpty(s.connectionData)))),
     ("connectionToken", Encode(Encode(s.connectionToken))),
     ("groupsToken", Encode(OrEmpty(s.groupsToken))),
     ("messageId", Encode(OrEmpty(s.messageId))),
     ("transport", Name())]
  }

  /** The path segment, `?` and the five parameters: everything between base URL and raw query. */
  function PathAndQuery(s: Session, kind: ConnectionType): string {
    PathSegment(kind) + "?" + JoinParams(StartParams(s))
  }

  /** The caller's raw query string, appended after a `&` when present. */
  function QueryTail(queryString: Option<string>): string {
    match queryString
    case None => ""
    case Some(q) => "&" + q
  }

  /** The URL before its scheme is rewritten. */
  function RequestUrl(s: Session, kind: ConnectionType): string {
    UrlText(s.url) + PathAndQuery(s, kind) + QueryTail(s.queryString)
  }

  /** Which rewrite applies, decided by the start of the URL. */
  datatype Scheme = Secure | Plain | Unchanged

  function SchemeOf(url: string): Scheme {
    if StartsWith(url, "https://") then Secure
    else if StartsWith(url, "http://") then Plain
    else Unchanged
  }

  /** `String.replace` of the scheme marker, on every occurrence. */
  function Rewrite(s: string, scheme: Scheme): string {
    match scheme
    case Secure => ReplaceAll(s, "https://", "wss://")
    case Plain => ReplaceAll(s, "http://", "ws://")
    case Unchanged => s
  }

  function RewrittenTail(queryString: Option<string>, scheme: Scheme): string {
    match queryString
    case None => ""
    case Some(q) => "&" + Rewrite(q, scheme)
  }

  /**
   * The URL `start` connects to, part by part: the base URL rewritten by its
   * own scheme, the path segment, `?`, the five parameters, then the raw
   * query rewritten the same way.
   */
  function ConnectUrl(s: Session, kind: ConnectionType): string {
    var base := UrlText(s.url);
    var scheme := SchemeOf(base);
    Rewrite(base, scheme) + PathAndQuery(s, kind) + RewrittenTail(s.queryString, scheme)
  }

  /** `connect` exactly for the initial connection, `reconnect` for any other. */
  lemma SegmentChoice(kind: ConnectionType)
    ensures kind == InitialConnection <==> PathSegment(kind) == "connect"
    ensures kind != InitialConnection <==> PathSegment(kind) == "reconnect"
  {
    assert "connect" != "reconnect";
  }

  /**
   * The path segment comes directly after the base URL and is followed by
   * `?`, before and after the scheme rewrite.
   */
  lemma SegmentAfterBase(s: Session, kind: ConnectionType)
    ensures var base := UrlText(s.url);
      && StartsWith(RequestUrl(s, kind), base + PathSegment(kind) + "?")
      && StartsWith(ConnectUrl(s, kind), Rewrite(base, SchemeOf(base)) + PathSegment(kind) + "?")
  {
    var base := UrlText(s.url);
    var q := JoinParams(StartParams(s));
    SegmentPrefix(base, PathSegment(kind), q, QueryTail(s.queryString));
    SegmentPrefix(Rewrite(base, SchemeOf(base)), PathSegment(kind), q, RewrittenTail(s.queryString, SchemeOf(base)));
  }

  lemma SegmentPrefix(base: string, seg: string, query: string, tail: string)
    ensures StartsWith(base + (seg + "?" + query) + tail, base + seg + "?")
  {
    var front := base + seg + "?";
    assert base + (seg + "?" + query) + tail == front + (query + tail);
    assert (front + (query + tail))[..|front|] == front;
  }

  // ---------------------------------------------------------------------------
  // The query string

  /** The query written as the source writes it, one concatenation. */
  lemma QueryLayout(s: Session)
    ensures JoinParams(StartParams(s)) ==
      "connectionData=" + Encode(Encode(OrEmpty(s.connectionData))) +
      "&connectionToken=" + Encode(Encode(s.connectionToken)) +
      "&groupsToken=" + Encode(OrEmpty(s.groupsToken)) +
      "&messageId=" + Encode(OrEmpty(s.messageId)) +
      "&transport=" + Name()
  {
    var ps := StartParams(s);
    var v0, v1, v2, v3, v4 := ps[0].1, ps[1].1, ps[2].1, ps[3].1, ps[4].1;
    var parts := Params(ps);
    JoinFive(parts);
    KeyLiterals();
    var a0 := "connectionData=" + v0;
    assert parts[0] == a0;
    Extend(a0, "&connectionToken=", "connectionToken", v1);
    var a1 := a0 + "&connectionToken=" + v1;
    Extend(a1, "&groupsToken=", "groupsToken", v2);
    var a2 := a1 + "&groupsToken=" + v2;
    Extend(a2, "&messageId=", "messageId", v3);
    var a3 := a2 + "&messageId=" + v3;
    Extend(a3, "&transport=", "transport", v4);
  }

  lemma JoinFive(parts: seq<string>)
    requires |parts| == 5
    ensures Join(parts, '&') == parts[0] + "&" + parts[1] + "&" + parts[2] + "&" + parts[3] + "&" + parts[4]
  {
    var j4 := Join(parts[4..], '&');
    assert j4 == parts[4];
    assert parts[3..][1..] == parts[4..];
    var j3 := Join(parts[3..], '&');
    assert j3 == parts[3] + "&" + j4;
    assert parts[2..][1..] == parts[3..];
    var j2 := Join(parts[2..], '&');
    assert j2 == parts[2] + "&" + j3;
    assert parts[1..][1..] == parts[2..];
    var j1 := Join(parts[1..], '&');
    assert j1 == parts[1] + "&" + j2;
    assert Join(parts, '&') == parts[0] + "&" + j1;
  }

  lemma KeyLiterals()
    ensures "connectionData=" == "connectionData" + "="
    ensures "&connectionToken=" == "&" + "connectionToken" + "="
    ensures "&groupsToken=" == "&" + "groupsToken" + "="
    ensures "&messageId=" == "&" + "messageId" + "="
    ensures "&transport=" == "&" + "transport" + "="
  {
  }

  lemma Extend(x: string, lit: string, key: string, value: string)
    requires lit == "&" + key + "="
    ensures x + "&" + (key + "=" + value) == x + lit + value
  {
  }

  lemma NameIsKept()
    ensures forall c :: c in Name() ==> IsKept(c)
  {
  }

  /** `URLEncoder` leaves the transport name unchanged. */
  lemma NameEncodesToItself()
    ensures Encode(Name()) == Name()
  {
    NameIsKept();
    EncodeKept(Name());
  }

  lemma StartParamsWellFormed(s: Session)
    ensures WellFormed(StartParams(s))
  {
    var ps := StartParams(s);
    NameIsKept();
    SafeExcludes(ps[0].1);
    SafeExcludes(ps[1].1);
    SafeExcludes(ps[2].1);
    SafeExcludes(ps[3].1);
  }

  /** The encoded alphabet has no separator, no `?` and no `/`. */
  lemma SafeExcludes(v: string)
    requires forall c :: c in v ==> IsSafe(c)
    ensures '&' !in v && '=' !in v && '?' !in v && '/' !in v
  {
  }

  /**
   * A server that splits the query at `&` and `=` reads exactly the five
   * parameters, in order. `connectionData` and `connectionToken` come back
   * after two decodings, `groupsToken` and `messageId` after one, and
   * `transport` is the transport name.
   */
  lemma QueryParameters(s: Session)
    ensures var ps := ParseQuery(JoinParams(StartParams(s)));
      && ps == StartParams(s)
      && |ps| == 5
      && ps[0].0 == "connectionData" && Decode(ps[0].1).Some?
      && Decode(AsciiText(Decode(ps[0].1).value)) == Some(Utf8Of(OrEmpty(s.connectionData)))
      && ps[1].0 == "connectionToken" && Decode(ps[1].1).Some?
      && Decode(AsciiText(Decode(ps[1].1).value)) == Some(Utf8Of(s.connectionToken))
      && ps[2].0 == "groupsToken" && Decode(ps[2].1) == Some(Utf8Of(OrEmpty(s.groupsToken)))
      && ps[3].0 == "messageId" && Decode(ps[3].1) == Some(Utf8Of(OrEmpty(s.messageId)))
      && ps[4] == ("transport", "webSockets")
  {
    StartParamsWellFormed(s);
    ParseJoinParams(StartParams(s));
    DecodeTwice(OrEmpty(s.connectionData));
    DecodeTwice(s.connectionToken);
    DecodeEncode(OrEmpty(s.groupsToken));
    DecodeEncode(OrEmpty(s.messageId));
  }

  /** A null message id, groups token or connection data is still sent, with an empty value. */
  lemma NullFieldsSentEmpty(s: Session)
    ensures var ps := ParseQuery(JoinParams(StartParams(s)));
      && |ps| == 5
      && (s.connectionData == None ==> ps[0] == ("connectionData", ""))
      && (s.groupsToken == None ==> ps[2] == ("groupsToken", ""))
      && (s.messageId == None ==> ps[3] == ("messageId", ""))
  {
    QueryParameters(s);
  }

  /** No encoded value can carry a character that ends a value or starts a new one. */
  lemma ValuesCannotEscape(s: Session)
    ensures forall i, c :: 0 <= i < 5 && c in StartParams(s)[i].1 ==> IsSafe(c)
    ensures forall i :: 0 <= i < 5 ==> '&' !in StartParams(s)[i].1 && '=' !in StartParams(s)[i].1 && '?' !in StartParams(s)[i].1
  {
    var ps := StartParams(s);
    NameIsKept();
    SafeExcludes(ps[0].1);
    SafeExcludes(ps[1].1);
    SafeExcludes(ps[2].1);
    SafeExcludes(ps[3].1);
    SafeExcludes(ps[4].1);
  }

  /** Double encoding is visible on the wire: a space is sent as `%2B`, a `+` as `%252B`. */
  lemma DoubleEncodingExample()
    ensures Encode(" ") == "+" && Encode(Encode(" ")) == "%2B"
    ensures Encode(Encode("+")) == "%252B"
  {
    assert Encode(" ") == EncodeChar(' ') + Encode("");
    assert Encode("+") == EncodeChar('+') + Encode("");
    assert EncodeChar('+') == EscapeAll([0x2B]) == Escape(0x2B) + EscapeAll([]);
    assert Escape(0x2B) == "%2B";
    assert Encode("%2B") == EncodeChar('%') + Encode("2B");
    assert EncodeChar('%') == EscapeAll([0x25]) == Escape(0x25) + EscapeAll([]);
    assert Escape(0x25) == "%25";
    EncodeKept("2B");
  }

  // ---------------------------------------------------------------------------
  // The scheme rewrite

  /** No `/` in the path segment or the query, so no scheme marker can match there. */
  lemma NoSlashInQuery(s: Session, kind: ConnectionType)
    ensures '/' !in PathAndQuery(s, kind)
  {
    var ps := StartParams(s);
    NameIsKept();
    SafeExcludes(ps[0].1);
    SafeExcludes(ps[1].1);
    SafeExcludes(ps[2].1);
    SafeExcludes(ps[3].1);
    assert forall i :: 0 <= i < |ps| ==> '/' !in ps[i].0 && '/' !in ps[i].1;
    JoinParamsExcludes(ps, '/');
  }

  /** The part after the base URL starts with `c` or `r` and holds no `/`. */
  lemma PathAndQueryShape(s: Session, kind: ConnectionType)
    ensures var m := PathAndQuery(s, kind);
      |m| > 0 && m[0] !in "https://" && '/' !in m
  {
    var m := PathAndQuery(s, kind);
    assert m[0] == PathSegment(kind)[0];
    NoSlashInQuery(s, kind);
  }

  /** One scheme marker `p`, rewritten in a URL laid out as base and middle. */
  lemma RewriteBaseMiddle(base: string, mid: string, p: string, r: string)
    requires |p| > 0 && '/' in p
    requires |mid| > 0 && mid[0] !in p && '/' !in mid
    ensures ReplaceAll(base + mid, p, r) == ReplaceAll(base, p, r) + mid
  {
    MissingCharNotContained(mid, p, '/');
    ReplaceAllAbsent(mid, p, r);
    ReplaceAllSplit(base, mid, p, r);
  }

  /** The same with a raw query `q` after a `&`, which is rewritten on its own. */
  lemma RewriteBaseMiddleQuery(base: string, mid: string, q: string, p: string, r: string)
    requires |p| > 0 && '/' in p && '&' !in p
    requires |mid| > 0 && mid[0] !in p && '/' !in mid
    ensures ReplaceAll(base + mid + ("&" + q), p, r) == ReplaceAll(base, p, r) + mid + ("&" + ReplaceAll(q, p, r))
  {
    MissingCharNotContained(mid, p, '/');
    ReplaceAllAbsent(mid, p, r);
    var w := mid + ("&" + q);
    assert base + mid + ("&" + q) == base + w;
    assert w[0] == mid[0];
    ReplaceAllSplit(base, w, p, r);
    ReplaceAllSplit(mid, "&" + q, p, r);
    assert "&" + q == ['&'] + q;
    ReplaceAllCons('&', q, p, r);
  }

  /**
   * The whole-string rewrite of a URL laid out as base, middle, raw tail,
   * where the middle starts with a character of no scheme marker and holds
   * no `/`: the branch is decided by the base alone, and only the base and
   * the raw tail are rewritten.
   */
  lemma RewriteLayout(base: string, mid: string, tail: Option<string>)
    requires |mid| > 0 && mid[0] !in "https://" && '/' !in mid
    ensures SchemeOf(base + mid + QueryTail(tail)) == SchemeOf(base)
    ensures Rewrite(base + mid + QueryTail(tail), SchemeOf(base)) ==
      Rewrite(base, SchemeOf(base)) + mid + RewrittenTail(tail, SchemeOf(base))
  {
    var w := mid + QueryTail(tail);
    assert base + mid + QueryTail(tail) == base + w;
    assert w[0] == mid[0];
    SchemeKept(base, w);
    match tail
    case None =>
      assert base + mid + QueryTail(tail) == base + mid;
      RewriteLayoutNone(base, mid);
    case Some(q) =>
      RewriteLayoutSome(base, mid, q);
  }

  /** Text appended after the base, starting with no character of a marker, keeps the scheme. */
  lemma SchemeKept(base: string, w: string)
    requires |w| > 0 && w[0] !in "https://"
    ensures SchemeOf(base + w) == SchemeOf(base)
  {
    StartsWithAppend(base, w, "https://");
    StartsWithAppend(base, w, "http://");
  }

  lemma RewriteLayoutNone(base: string, mid: string)
    requires |mid| > 0 && mid[0] !in "https://" && '/' !in mid
    ensures Rewrite(base + mid, SchemeOf(base)) == Rewrite(base, SchemeOf(base)) + mid + ""
  {
    if SchemeOf(base) == Secure {
      RewriteBaseMiddle(base, mid, "https://", "wss://");
    } else if SchemeOf(base) == Plain {
      RewriteBaseMiddle(base, mid, "http://", "ws://");
    }
  }

  lemma RewriteLayoutSome(base: string, mid: string, q: string)
    requires |mid| > 0 && mid[0] !in "https://" && '/' !in mid
    ensures Rewrite(base + mid + ("&" + q), SchemeOf(base)) ==
      Rewrite(base, SchemeOf(base)) + mid + ("&" + Rewrite(q, SchemeOf(base)))
  {
    if SchemeOf(base) == Secure {
      RewriteBaseMiddleQuery(base, mid, q, "https://", "wss://");
    } else if SchemeOf(base) == Plain {
      RewriteBaseMiddleQuery(base, mid, q, "http://", "ws://");
    }
  }

  /**
   * Rewriting the whole URL, as the source does, equals rewriting only the
   * base URL and the raw query: the path segment and the parameters contain
   * no `/` and cannot hold or complete a scheme marker. The branch taken
   * depends only on the base URL.
   */
  lemma RewriteWholeUrl(s: Session, kind: ConnectionType)
    ensures SchemeOf(RequestUrl(s, kind)) == SchemeOf(UrlText(s.url))
    ensures Rewrite(RequestUrl(s, kind), SchemeOf(RequestUrl(s, kind))) == ConnectUrl(s, kind)
  {
    PathAndQueryShape(s, kind);
    RewriteLayout(UrlText(s.url), PathAndQuery(s, kind), s.queryString);
  }

  /**
   * The outcome of the rewrite: an `https://` base gives a `wss://` URL and
   * `isSsl`, an `http://` base a `ws://` URL, and any other base is sent as built.
   */
  lemma SchemeOutcome(s: Session, kind: ConnectionType)
    ensures var base := UrlText(s.url); var url := ConnectUrl(s, kind);
      && (StartsWith(base, "https://") ==> StartsWith(url, "wss://"))
      && (!StartsWith(base, "https://") && StartsWith(base, "http://") ==> StartsWith(url, "ws://"))
      && (!StartsWith(base, "https://") && !StartsWith(base, "http://") ==> url == RequestUrl(s, kind))
  {
    var base := UrlText(s.url);
    var rest := PathAndQuery(s, kind) + RewrittenTail(s.queryString, SchemeOf(base));
    var rewritten := Rewrite(base, SchemeOf(base));
    assert ConnectUrl(s, kind) == rewritten + rest;
    if StartsWith(base, "https://") {
      assert rewritten == "wss://" + ReplaceAll(base[8..], "https://", "wss://");
      StartsWithExtend("wss://", ReplaceAll(base[8..], "https://", "wss://"), "wss://");
      StartsWithExtend(rewritten, rest, "wss://");
    } else if StartsWith(base, "http://") {
      assert rewritten == "ws://" + ReplaceAll(base[7..], "http://", "ws://");
      StartsWithExtend("ws://", ReplaceAll(base[7..], "http://", "ws://"), "ws://");
      StartsWithExtend(rewritten, rest, "ws://");
    } else {
      match s.queryString
      case None =>
      case Some(q) =>
    }
  }

  /**
   * The rewrite loses nothing: unless the URL already held the new scheme
   * marker, replacing it back gives the URL as it was built.
   */
  lemma RewriteReversible(s: Session, kind: ConnectionType)
    ensures var raw := RequestUrl(s, kind); var url := ConnectUrl(s, kind);
      && (SchemeOf(raw) == Secure && !Contains(raw, "wss://") ==> ReplaceAll(url, "wss://", "https://") == raw)
      && (SchemeOf(raw) == Plain && !Contains(raw, "ws://") ==> ReplaceAll(url, "ws://", "http://") == raw)
  {
    var raw := RequestUrl(s, kind);
    RewriteWholeUrl(s, kind);
    if SchemeOf(raw) == Secure && !Contains(raw, "wss://") {
      ReplaceAllUndo(raw, "https://", "wss://");
    }
    if SchemeOf(raw) == Plain && !Contains(raw, "ws://") {
      ReplaceAllUndo(raw, "http://", "ws://");
    }
  }

  /**
   * Every occurrence of the marker is replaced, not only the prefix: after
   * the rewrite the URL holds no `https://` (secure branch) or no `http://`
   * (plain branch) anywhere.
   */
  lemma NoMarkerLeft(s: Session, kind: ConnectionType)
    ensures SchemeOf(RequestUrl(s, kind)) == Secure ==> !Contains(ConnectUrl(s, kind), "https://")
    ensures SchemeOf(RequestUrl(s, kind)) == Plain ==> !Contains(ConnectUrl(s, kind), "http://")
  {
    var raw := RequestUrl(s, kind);
    RewriteWholeUrl(s, kind);
    ReplaceAllRemoves(raw, "https://", "wss://");
    ReplaceAllRemoves(raw, "http://", "ws://");
  }

  // ---------------------------------------------------------------------------
  // The end of the URL

  /** The marker the branch replaces; the branch that rewrites nothing has none. */
  function Marker(scheme: Scheme): Option<string> {
    match scheme
    case Secure => Some("https://")
    case Plain => Some("http://")
    case Unchanged => None
  }

  /** The branch's rewrite leaves `q` alone: it holds no copy of the branch's marker. */
  predicate Untouched(q: string, scheme: Scheme) {
    Marker(scheme).None? || !Contains(q, Marker(scheme).value)
  }

  /**
   * The rewrite leaves a text unchanged exactly when it holds no copy of the
   * marker of the branch taken: a marker of the other branch is kept.
   */
  lemma RewriteKeeps(q: string, scheme: Scheme)
    ensures Rewrite(q, scheme) == q <==> Untouched(q, scheme)
  {
    match scheme
    case Secure =>
      ReplaceAllRemoves(q, "https://", "wss://");
      if !Contains(q, "https://") {
        ReplaceAllAbsent(q, "https://", "wss://");
      }
    case Plain =>
      ReplaceAllRemoves(q, "http://", "ws://");
      if !Contains(q, "http://") {
        ReplaceAllAbsent(q, "http://", "ws://");
      }
    case Unchanged =>
  }

  /**
   * With no raw query string the URL ends with the transport parameter. A raw
   * query string is sent unchanged after `&` exactly when it holds no copy of
   * the marker of the branch its base URL picks; otherwise what is sent
   * differs from it.
   */
  lemma UrlEnding(s: Session, kind: ConnectionType)
    ensures var url := ConnectUrl(s, kind); var scheme := SchemeOf(UrlText(s.url));
      && (s.queryString == None ==> EndsWith(url, "&transport=" + Name()))
      && (s.queryString.Some? && Untouched(s.queryString.value, scheme)
          ==> EndsWith(url, "&" + s.queryString.value))
      && (s.queryString.Some? ==>
          (RewrittenTail(s.queryString, scheme) == "&" + s.queryString.value
           <==> Untouched(s.queryString.value, scheme)))
  {
    var base := UrlText(s.url);
    var scheme := SchemeOf(base);
    var head := Rewrite(base, scheme) + PathAndQuery(s, kind);
    assert ConnectUrl(s, kind) == head + RewrittenTail(s.queryString, scheme);
    match s.queryString
    case None =>
      var q := JoinParams(StartParams(s));
      var last := "&transport=" + Name();
      QueryLayout(s);
      var front := q[..|q| - |last|];
      assert q == front + last;
      EndsWithAppend(front, last);
      EndsWithPrepend(PathSegment(kind) + "?", q, last);
      EndsWithPrepend(Rewrite(base, scheme), PathAndQuery(s, kind), last);
      assert head + "" == head;
    case Some(raw) =>
      RewriteKeeps(raw, scheme);
      var rewritten := Rewrite(raw, scheme);
      assert "&" + rewritten == "&" + raw <==> rewritten == raw by {
        if "&" + rewritten == "&" + raw {
          assert ("&" + rewritten)[1..] == rewritten;
          assert ("&" + raw)[1..] == raw;
        }
      }
      if Untouched(raw, scheme) {
        EndsWithAppend(head, "&" + raw);
      }
  }

  /** The source's left-to-right concatenation is the URL before the rewrite. */
  lemma SourceConcatenation(s: Session, kind: ConnectionType, query: string, url: string)
    requires query == "connectionData=" + Encode(Encode(OrEmpty(s.connectionData)))
      + "&connectionToken=" + Encode(Encode(s.connectionToken))
      + "&groupsToken=" + Encode(OrEmpty(s.groupsToken))
      + "&messageId=" + Encode(OrEmpty(s.messageId))
      + "&transport=" + Encode(Name())
    requires url == match s.queryString
      case None => UrlText(s.url) + PathSegment(kind) + "?" + query
      case Some(q) => UrlText(s.url) + PathSegment(kind) + "?" + query + "&" + q
    ensures url == RequestUrl(s, kind)
  {
    NameEncodesToItself();
    QueryLayout(s);
    UrlAssembly(UrlText(s.url), PathSegment(kind), query, s.queryString);
  }

  /** The source's left-to-right concatenation, grouped as base, middle and raw tail. */
  lemma UrlAssembly(base: string, segment: string, query: string, queryString: Option<string>)
    ensures (match queryString
             case None => base + segment + "?" + query
             case Some(q) => base + segment + "?" + query + "&" + q)
      == base + (segment + "?" + query) + QueryTail(queryString)
  {
    match queryString
    case None =>
    case Some(q) =>
      assert base + segment + "?" + query + "&" + q == base + (segment + "?" + query) + ("&" + q);
  }

  lemma NotSecure(u: string)
    requires |u| > 4 && u[4] == ':'
    ensures !StartsWith(u, "https://")
  {
    if |u| >= 8 {
      assert u[..8][4] == ':';
    }
  }

  /** `http://` followed by text without another `http://` is rewritten once, at the front. */
  lemma HttpPrefix(rest: string)
    requires !Contains(rest, "http://")
    ensures SchemeOf("http://" + rest) == Plain
    ensures Rewrite("http://" + rest, Plain) == "ws://" + rest
  {
    var u := "http://" + rest;
    NotSecure(u);
    assert u[..7] == "http://" && u[7..] == rest;
    ReplaceAllAbsent(rest, "http://", "ws://");
  }

  /**
   * `String.replace` also rewrites scheme markers inside the raw query string:
   * a redirect parameter `next=http://...` is sent as `next=ws://...`.
   */
  lemma RawQueryRewritten(path: string, dest: string, token: string, kind: ConnectionType)
    requires !Contains(path, "http://") && !Contains(dest, "http://")
    ensures var s := Session(Some("http://" + path), token, None, None, None, Some("next=http://" + dest));
      EndsWith(ConnectUrl(s, kind), "&next=ws://" + dest)
  {
    var s := Session(Some("http://" + path), token, None, None, None, Some("next=http://" + dest));
    HttpPrefix(path);
    NextRewritten(dest);
    var head := Rewrite("http://" + path, Plain) + PathAndQuery(s, kind);
    assert ConnectUrl(s, kind) == head + ("&" + Rewrite("next=http://" + dest, Plain));
    assert "&" + ("next=ws://" + dest) == "&next=ws://" + dest;
    EndsWithAppend(head, "&next=ws://" + dest);
  }

  lemma NextRewritten(dest: string)
    requires !Contains(dest, "http://")
    ensures Rewrite("next=http://" + dest, Plain) == "next=ws://" + dest
  {
    ShortNotContained("next", "http://");
    ParamRewritten("next", dest, "http://", "ws://");
    assert "next" + "=" + ("http://" + dest) == "next=http://" + dest;
    assert "next" + "=" + ("ws://" + dest) == "next=ws://" + dest;
  }

  /** A parameter `key=<p>dest` whose key and destination hold no marker `p` has only that one marker replaced. */
  lemma ParamRewritten(key: string, dest: string, p: string, r: string)
    requires |p| > 0 && '=' !in p && p[0] !in r && |r| > 0 && r[0] !in p
    requires !Contains(key, p) && !Contains(dest, p)
    ensures ReplaceAll(key + "=" + (p + dest), p, r) == key + "=" + (r + dest)
  {
    var pd := p + dest;
    var w := "=" + pd;
    Regroup(key, "=", pd);
    assert w[0] == '=' && '=' != p[0];
    ReplaceAllSplit(key, w, p, r);
    ReplaceAllAbsent(key, p, r);
    ReplaceAllCons('=', pd, p, r);
    assert pd[..|p|] == p && pd[|p|..] == dest;
    assert ReplaceAll(pd, p, r) == r + ReplaceAll(dest, p, r);
    ReplaceAllAbsent(dest, p, r);
    Regroup(key, "=", r + dest);
  }

  lemma Regroup(a: string, b: string, c: string)
    ensures a + (b + c) == a + b + c
  {
  }

  /**
   * The initial connection to `http://<path>` with nothing but a token and
   * empty connection data: every parameter is sent, the empty ones with
   * empty values, and only the base URL's scheme changes.
   */
  lemma InitialConnectionExample(path: string, token: string)
    requires !Contains(path, "http://")
    ensures ConnectUrl(Session(Some("http://" + path), token, None, None, Some(""), None), InitialConnection) ==
      "ws://" + path + "connect" + "?" + "connectionData=" + "&connectionToken=" + Encode(Encode(token)) +
      "&groupsToken=" + "&messageId=" + "&transport=" + "webSockets"
  {
    var s := Session(Some("http://" + path), token, None, None, Some(""), None);
    HttpPrefix(path);
    QueryLayout(s);
    assert Encode("") == "";
    assert ConnectUrl(s, InitialConnection) == "ws://" + path + ("connect" + "?" + JoinParams(StartParams(s))) + "";
    DropEmpties("ws://" + path, "connect", "?", "connectionData=", "&connectionToken=", Encode(Encode(token)),
      "&groupsToken=", "&messageId=", "&transport=", "webSockets");
  }

  lemma DropEmpties(f: string, c: string, qm: string, a: string, b: string, e: string,
                    g: string, m: string, t: string, w: string)
    ensures f + (c + qm + (a + "" + b + e + g + "" + m + "" + t + w)) + "" ==
      f + c + qm + a + b + e + g + m + t + w
  {
  }

  // ---------------------------------------------------------------------------
  // The objects

  /** The connection's state that `start` reads, and the header map it changes. */
  class Connection {
    var url: Option<string>
    var connectionToken: string
    var messageId: Option<string>
    var groupsToken: Option<string>
    var connectionData: Option<string>
    var queryString: Option<string>
    var headers: map<string, string>

    constructor (session: Session, headers: map<string, string>)
      ensures Snapshot() == session && this.headers == headers
    {
      url := session.url;
      connectionToken := session.connectionToken;
      messageId := session.messageId;
      groupsToken := session.groupsToken;
      connectionData := session.connectionData;
      queryString := session.queryString;
      this.headers := headers;
    }

    function Snapshot(): Session
      reads this
    {
      Session(url, connectionToken, messageId, groupsToken, connectionData, queryString)
    }
  }

  /** `new Draft_17()`: the WebSocket protocol version the client speaks. */
  datatype Draft = Draft17

  /** The arguments the socket client is created with (`new WebSocketClient(uri, draft, headers, 0)`). */
  datatype SocketClient = SocketClient(
    uri: string,
    draft: Draft,
    headers: map<string, string>,
    connectTimeout: int,
    tlsSocket: bool)

  datatype StartError = UriSyntax(input: string)

  /** The state of the future `start` returns, as far as `start` itself takes it. */
  datatype Future = Pending | Failed(error: StartError)

  class WebsocketTransport {
    var connectionFuture: Option<Future>
    var socketClient: Option<SocketClient>

    constructor ()
      ensures connectionFuture == None && socketClient == None
    {
      connectionFuture := None;
      socketClient := None;
    }

    /**
     * The URL before the rewrite, concatenated left to right as the source
     * does, with the raw query string appended after a `&` when there is one.
     */
    method ConcatenateUrl(connection: Connection, kind: ConnectionType) returns (url: string)
      ensures url == RequestUrl(connection.Snapshot(), kind)
    {
      var session := connection.Snapshot();
      var connectionString := PathSegment(kind);
      var transport := Name();
      var connectionToken := session.connectionToken;
      var messageId := OrEmpty(session.messageId);
      var groupsToken := OrEmpty(session.groupsToken);
      var connectionData := OrEmpty(session.connectionData);

      var query := "connectionData=" + Encode(Encode(connectionData))
        + "&connectionToken=" + Encode(Encode(connectionToken))
        + "&groupsToken=" + Encode(groupsToken)
        + "&messageId=" + Encode(messageId)
        + "&transport=" + Encode(transport);
      url := UrlText(session.url) + connectionString + "?" + query;
      if session.queryString.Some? {
        url := url + "&" + session.queryString.value;
      }
      SourceConcatenation(session, kind, query, url);
    }

    /**
     * The scheme rewrite: an `https://` URL has every `https://` replaced by
     * `wss://` and sets `isSsl`; otherwise an `http://` URL has every
     * `http://` replaced by `ws://`; any other URL is left alone.
     */
    method RewriteScheme(url: string) returns (wsUrl: string, isSsl: bool)
      ensures isSsl <==> SchemeOf(url) == Secure
      ensures wsUrl == Rewrite(url, SchemeOf(url))
    {
      isSsl := false;
      wsUrl := url;
      if StartsWith(url, "https://") {
        isSsl := true;
        wsUrl := ReplaceAll(url, "https://", "wss://");
      } else if StartsWith(url, "http://") {
        wsUrl := ReplaceAll(url, "http://", "ws://");
      }
    }

    /** Lines 64 to 90 of `start`: the URL connected to and whether it is secure. */
    method BuildUrl(connection: Connection, kind: ConnectionType) returns (url: string, isSsl: bool)
      ensures url == ConnectUrl(connection.Snapshot(), kind)
      ensures isSsl <==> StartsWith(UrlText(connection.url), "https://")
    {
      var raw := ConcatenateUrl(connection, kind);
      RewriteWholeUrl(connection.Snapshot(), kind);
      url, isSsl := RewriteScheme(raw);
    }

    /**
     * `start` up to the socket's `connect()`: the future it stores and returns; if the URL does
     * not parse, that future fails and nothing else happens; otherwise the
     * `User-Agent` header is set and the socket client is created with the
     * URL, the headers and, for `wss`, a TLS socket.
     */
    method Start(connection: Connection, kind: ConnectionType, userAgent: string, validUri: string -> bool)
      returns (future: Future)
      modifies this, connection`headers
      ensures var url := ConnectUrl(connection.Snapshot(), kind);
        && connectionFuture == Some(future)
        && (validUri(url) ==>
              && future == Pending
              && connection.headers == old(connection.headers)[USER_AGENT_HEADER := userAgent]
              && socketClient == Some(SocketClient(url, Draft17, connection.headers, 0,
                                                   StartsWith(UrlText(connection.url), "https://"))))
        && (!validUri(url) ==>
              && future == Failed(UriSyntax(url))
              && connection.headers == old(connection.headers)
              && socketClient == old(socketClient))
    {
      var url, isSsl := BuildUrl(connection, kind);
      connectionFuture := Some(Pending);
      if !validUri(url) {
        future := Failed(UriSyntax(url));
        connectionFuture := Some(future);
        return;
      }
      connection.headers := connection.headers[USER_AGENT_HEADER := userAgent];
      socketClient := Some(SocketClient(url, Draft17, connection.headers, 0, isSsl));
      future := Pending;
    }
  }
}
