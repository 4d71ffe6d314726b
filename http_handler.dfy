/** `PushPublishHTTPCupertinoHTTPHandler`: publishes the playlists and media
    segments of a stream to a web server with HTTP `PUT`, and removes
    segments with `DELETE`.  The layout below the configured base path is

      <base>/<dst>/playlist.m3u8       master playlist
      <base>/<dst>/chunklist.m3u8      media playlist
      <base>/<group>/playlist.m3u8     group master playlist
      <base>/<dst>/<session>/media_N.ts

    with `<dst>-b` for the backup server.  Each send is specified by a
    function giving its outcome and the requests the server receives; the
    class performs the same steps against a `RemoteEndpoint`. */
module HttpHandler {
  import opened JavaLang
  import opened JavaRegex
  import opened MediaModel
  import opened PlaybackUri
  import opened HttpSink

  const DEFAULT_HTTP_PORT: int := 80
  const DEFAULT_HTTPS_PORT: int := 443
  /** The RTMP port the base class starts from; `load` replaces it. */
  const RTMP_PORT: int := 1935

  const HOST_KEY: string := "http.host"
  const PATH_KEY: string := "http.path"
  const SSL_KEY: string := "sendSSL"

  // ---------------------------------------------------------------------------------------
  // Configuration

  /** The `http.path` step of `load`: a non-empty value replaces the base path,
      and a `/` is appended when it does not end with one. */
  function ConfiguredBasePath(current: string, value: Option<string>): (r: string)
    ensures r != [] && r[|r| - 1] == '/'
    ensures var chosen := if IsEmpty(value) then current else value.value;
      && (chosen != [] && chosen[|chosen| - 1] == '/' ==> r == chosen)
      && (chosen == [] || chosen[|chosen| - 1] != '/' ==> r == chosen + "/")
  {
    var chosen := if IsEmpty(value) then current else value.value;
    if chosen != [] && chosen[|chosen| - 1] == '/' then chosen else chosen + "/"
  }

  /** A base path that already ends with `/` survives `load` untouched when no
      `http.path` is given, and loading the same `http.path` twice changes
      nothing more. */
  lemma ConfiguredBasePathIdempotent(current: string, value: Option<string>)
    ensures ConfiguredBasePath(ConfiguredBasePath(current, value), None) == ConfiguredBasePath(current, value)
    ensures ConfiguredBasePath(ConfiguredBasePath(current, value), value) == ConfiguredBasePath(current, value)
  {
  }

  /** `Character.toLowerCase` under `Locale.ENGLISH` for the letters A to Z. */
  function ToLowerAscii(c: char): char
  {
    if 'A' <= c <= 'Z' then (c as int + 32) as char else c
  }

  /** `toLowerCase(Locale.ENGLISH)`, character by character. */
  function ToLowerEnglish(s: string): (l: string)
    ensures |l| == |s|
    ensures forall i :: 0 <= i < |s| ==> l[i] == ToLowerAscii(s[i])
  {
    seq(|s|, i requires 0 <= i < |s| => ToLowerAscii(s[i]))
  }

  /** The `sendSSL` value asks for TLS: lower-cased, it starts with `t` or `y`. */
  predicate SslRequested(value: string)
  {
    var lower := ToLowerEnglish(value);
    "t" <= lower || "y" <= lower
  }

  /** Independent reading of the test: the first character is one of `t T y Y`. */
  lemma SslRequestedMeaning(value: string)
    ensures SslRequested(value) <==> value != [] && value[0] in "tTyY"
  {
    var lower := ToLowerEnglish(value);
    if value != [] {
      assert "t" <= lower <==> lower[0] == 't';
      assert "y" <= lower <==> lower[0] == 'y';
    }
  }

  /** The `sendSSL` step of `load`: a present value decides, an absent one keeps the flag. */
  function ConfiguredSendSsl(current: bool, value: Option<string>): (ssl: bool)
    ensures value.None? ==> ssl == current
    ensures value.Some? ==> (ssl <==> value.value != [] && value.value[0] in "tTyY")
  {
    if value.Some? then (SslRequestedMeaning(value.value); SslRequested(value.value)) else current
  }

  /** The port step of `load`: the RTMP default becomes the HTTP or HTTPS
      default; any other port is kept. */
  function ConfiguredPort(port: int, ssl: bool): (r: int)
    ensures r != RTMP_PORT
    ensures port != RTMP_PORT ==> r == port
    ensures port == RTMP_PORT && ssl ==> r == DEFAULT_HTTPS_PORT
    ensures port == RTMP_PORT && !ssl ==> r == DEFAULT_HTTP_PORT
  {
    if port == RTMP_PORT then (if ssl then DEFAULT_HTTPS_PORT else DEFAULT_HTTP_PORT) else port
  }

  /** `getPortStr()`: nothing for the two default ports, else `:` and the
      number, which reads back as the port. */
  function PortSuffix(port: int): (s: string)
    ensures s == "" <==> port == DEFAULT_HTTP_PORT || port == DEFAULT_HTTPS_PORT
    ensures s != "" ==> s[0] == ':' && ParseDecimal(s[1..]) == Some(port)
  {
    if port != DEFAULT_HTTP_PORT && port != DEFAULT_HTTPS_PORT then
      DecimalRoundTrip(port);
      assert (":" + DecimalString(port))[1..] == DecimalString(port);
      ":" + DecimalString(port)
    else ""
  }

  /** The fields every URL is built from. */
  datatype Settings = Settings(ssl: bool, host: Option<string>, port: int, basePath: string, dstStreamName: string, backup: bool)

  function Scheme(ssl: bool): string
  {
    if ssl then "https://" else "http://"
  }

  /** `getDestinationPath()`: the base path followed by `<dst>`, or `<dst>-b` for the backup server. */
  function DestinationPath(basePath: string, dstStreamName: string, backup: bool): string
  {
    if !backup then basePath + dstStreamName else basePath + dstStreamName + "-b"
  }

  /** The destination path is the base path joined with the stream's directory name. */
  lemma DestinationPathIsStreamDir(basePath: string, dstStreamName: string, backup: bool)
    ensures DestinationPath(basePath, dstStreamName, backup) == basePath + StreamDir(dstStreamName, backup)
  {
    if backup {
      assert basePath + dstStreamName + "-b" == basePath + (dstStreamName + "-b");
    }
  }

  /** Switching to the backup server changes the destination path only by the `-b` suffix. */
  lemma DestinationPathToggle(basePath: string, dstStreamName: string)
    ensures DestinationPath(basePath, dstStreamName, true) == DestinationPath(basePath, dstStreamName, false) + "-b"
    ensures DestinationPath(basePath, dstStreamName, true) != DestinationPath(basePath, dstStreamName, false)
  {
    assert |DestinationPath(basePath, dstStreamName, true)| == |DestinationPath(basePath, dstStreamName, false)| + 2;
  }

  /** Scheme, host and port suffix. */
  function ServerUrl(cfg: Settings): string
  {
    Scheme(cfg.ssl) + Show(cfg.host) + PortSuffix(cfg.port)
  }

  /** The URL of the stream's directory on the server. */
  function DestinationUrl(cfg: Settings): string
  {
    ServerUrl(cfg) + "/" + DestinationPath(cfg.basePath, cfg.dstStreamName, cfg.backup)
  }

  /** `getDestionationLogData()`: the destination URL as a one-element JSON-like list. */
  function LogData(cfg: Settings): (s: string)
    ensures |s| == |DestinationUrl(cfg)| + 4
    ensures s[..2] == "{\"" && s[|s| - 2..] == "\"}" && s[2..|s| - 2] == DestinationUrl(cfg)
  {
    "{\"" + DestinationUrl(cfg) + "\"}"
  }

  /** The URL a segment with URI `uri` is sent to and deleted from. */
  function SegmentUrl(cfg: Settings, uri: string): string
  {
    DestinationUrl(cfg) + "/" + uri
  }

  /** The URL `writePlaylist` puts a playlist to. */
  function PlaylistUrl(cfg: Settings, playlistPath: string): string
  {
    ServerUrl(cfg) + "/" + playlistPath
  }

  /** `getUri().getPath().replaceFirst("../", basePath)`; None when it throws. */
  function PlaylistPath(basePath: string, uri: string): Option<string>
  {
    ReplaceFirstDotDotSlash(UriPath(uri), basePath)
  }

  // ---------------------------------------------------------------------------------------
  // Where things go

  /** A stream playlist rewritten by `update*PlaylistPlaybackURI` is put into
      the stream's directory below the base path. */
  lemma PlaylistPathOfStreamUri(basePath: string, dstStreamName: string, backup: bool, name: string)
    requires IsLiteralReplacement(basePath)
    requires '?' !in dstStreamName + name && '#' !in dstStreamName + name
    ensures PlaylistPath(basePath, StreamPlaylistUri(dstStreamName, backup, name))
         == Some(DestinationPath(basePath, dstStreamName, backup) + "/" + name)
  {
    StreamPlaylistUriIsDirectoryReference(dstStreamName, backup, name);
    var dir := StreamDir(dstStreamName, backup);
    assert '?' !in dir && '#' !in dir by {
      assert forall c :: c in dir ==> c in dstStreamName || c in "-b";
    }
    assert '?' !in dir + name && '#' !in dir + name;
    PlaylistPathOfGroupUri(basePath, dir, name);
    DestinationPathIsStreamDir(basePath, dstStreamName, backup);
  }

  /** A group master playlist is put into the group's directory below the base path. */
  lemma PlaylistPathOfGroupUri(basePath: string, groupName: string, path: string)
    requires IsLiteralReplacement(basePath)
    requires '?' !in groupName + path && '#' !in groupName + path
    ensures PlaylistPath(basePath, GroupPlaylistUri(groupName, path)) == Some(basePath + groupName + "/" + path)
  {
    var uri := GroupPlaylistUri(groupName, path);
    var rest := groupName + "/" + path;
    assert uri == "../" + rest;
    assert '?' !in rest && '#' !in rest by {
      assert forall c :: c in rest ==> c in groupName + path || c == '/';
    }
    UriPathOfPlainPath(uri);
    ReplaceLeadingDotDotSlash(uri, basePath);
    assert uri[3..] == rest;
    assert basePath + rest == basePath + groupName + "/" + path;
  }

  /** A rewritten stream playlist and the stream's segments share the
      destination URL that the log data reports. */
  lemma PlaylistAndSegmentsShareDestination(cfg: Settings, name: string, segmentUri: string)
    requires IsLiteralReplacement(cfg.basePath)
    requires '?' !in cfg.dstStreamName + name && '#' !in cfg.dstStreamName + name
    ensures var path := PlaylistPath(cfg.basePath, StreamPlaylistUri(cfg.dstStreamName, cfg.backup, name));
      && path.Some?
      && PlaylistUrl(cfg, path.value) == DestinationUrl(cfg) + "/" + name
      && SegmentUrl(cfg, segmentUri) == DestinationUrl(cfg) + "/" + segmentUri
      && LogData(cfg) == "{\"" + DestinationUrl(cfg) + "\"}"
  {
    PlaylistPathOfStreamUri(cfg.basePath, cfg.dstStreamName, cfg.backup, name);
  }

  /** A base path holding `$` and a digit other than 0 makes `replaceFirst`
      throw for every rewritten playlist, so no playlist can be sent. */
  lemma BasePathWithGroupReferenceThrows(before: string, d: char, after: string, uri: string)
    requires '1' <= d <= '9' && IsLiteralReplacement(before)
    requires MatchesAt(UriPath(uri), FirstMatchFrom(UriPath(uri), 0))
    ensures PlaylistPath(before + ['$', d] + after, uri).None?
  {
    BadGroupThrows(UriPath(uri), before, d, after);
  }

  /** With the built-in defaults (port 1935 left unchanged, no TLS) and base
      path `/pub/`, a segment of stream `foo` goes to a URL with a doubled slash. */
  lemma ExampleSegmentUrl()
    ensures ConfiguredPort(RTMP_PORT, false) == DEFAULT_HTTP_PORT
    ensures SegmentUrl(Settings(false, Some("h"), DEFAULT_HTTP_PORT, "/pub/", "foo", false), "S/media_1.ts")
         == "http://h//pub/foo/S/media_1.ts"
  {
    var cfg := Settings(false, Some("h"), DEFAULT_HTTP_PORT, "/pub/", "foo", false);
    assert PortSuffix(DEFAULT_HTTP_PORT) == "";
    assert ServerUrl(cfg) == "http://" + "h" + "";
    assert DestinationUrl(cfg) == "http://h" + "/" + "/pub/foo";
    assert SegmentUrl(cfg, "S/media_1.ts") == "http://h//pub/foo" + "/" + "S/media_1.ts";
  }

  // ---------------------------------------------------------------------------------------
  // The exchanges

  /** What a handler call returns and the requests the server receives from it. */
  datatype Transfer = Transfer(outcome: Outcome, sent: seq<Request>)

  /** The success test of `writePlaylist` and `sendMediaSegment`. */
  predicate IsSuccess(status: int)
  {
    !(status < 200 || status >= 300)
  }

  /** `writePlaylist`: one `PUT` of the serialised playlist (an empty body when
      the writer fails); its length on a 2xx status, else 0.  An unparsable URL
      leaves `url` null, and the catch block's `url.toString()` throws. */
  function PlaylistPut(url: string, urlValid: bool, rendered: Option<Bytes>, reply: Reply): Transfer
  {
    if !urlValid then Transfer(Threw, [])
    else
      var body := if rendered.Some? then rendered.value else [];
      var req := Request("PUT", url, body);
      match reply
      case TransportFailure => Transfer(Returned(0), [])
      case Status(code) => Transfer(Returned(if IsSuccess(code) && rendered.Some? then |body| else 0), [req])
  }

  /** The three playlist sends: the playlist path, then `writePlaylist`;
      a throwing `replaceFirst` escapes before any request. */
  function PlaylistSend(cfg: Settings, isValidUrl: string -> bool, uri: string, rendered: Option<Bytes>, reply: Reply): Transfer
  {
    match PlaylistPath(cfg.basePath, uri)
    case None => Transfer(Threw, [])
    case Some(path) => PlaylistPut(PlaylistUrl(cfg, path), isValidUrl(PlaylistUrl(cfg, path)), rendered, reply)
  }

  /** `sendMediaSegment`: a null or empty fragment list gives the sentinel 1
      without a request; otherwise one `PUT` of the payload, whose length as an
      `int` is returned on a 2xx status, else 0. */
  function SegmentPut(url: string, urlValid: bool, fragments: Option<seq<Fragment>>, reply: Reply): Transfer
  {
    if fragments.None? || fragments.value == [] then Transfer(Returned(1), [])
    else if !urlValid then Transfer(Threw, [])
    else
      var body := Payload(fragments.value);
      match reply
      case TransportFailure => Transfer(Returned(0), [])
      case Status(code) => Transfer(Returned(if IsSuccess(code) then Int32(|body|) else 0), [Request("PUT", url, body)])
  }

  /** The status test of `deleteMediaSegment` as written: `status >= 200 || status < 300`. */
  predicate DeleteStatusAsWritten(status: int)
  {
    status >= 200 || status < 300
  }

  /** The status test `deleteMediaSegment` evidently means: a 2xx status, as everywhere else. */
  predicate DeleteStatusAccepted(status: int)
  {
    200 <= status < 300
  }

  /** `deleteMediaSegment` with its status test as a parameter: one `DELETE`,
      1 when the test accepts the status, 0 otherwise or on a transport failure. */
  function SegmentDeleteWith(url: string, urlValid: bool, reply: Reply, accepted: int -> bool): Transfer
  {
    if !urlValid then Transfer(Threw, [])
    else
      match reply
      case TransportFailure => Transfer(Returned(0), [])
      case Status(code) => Transfer(Returned(if accepted(code) then 1 else 0), [Request("DELETE", url, [])])
  }

  /** `deleteMediaSegment` exactly as written. */
  function SegmentDeleteAsWritten(url: string, urlValid: bool, reply: Reply): Transfer
  {
    SegmentDeleteWith(url, urlValid, reply, DeleteStatusAsWritten)
  }

  /** `deleteMediaSegment` with the 2xx test. */
  function SegmentDelete(url: string, urlValid: bool, reply: Reply): Transfer
  {
    SegmentDeleteWith(url, urlValid, reply, DeleteStatusAccepted)
  }

  // ---------------------------------------------------------------------------------------
  // What the exchanges guarantee

  /** A non-zero playlist result means the server accepted exactly the
      serialised bytes of that playlist, once, at that URL. */
  lemma PlaylistPutResult(url: string, urlValid: bool, rendered: Option<Bytes>, reply: Reply)
    ensures var t := PlaylistPut(url, urlValid, rendered, reply);
      && |t.sent| <= 1
      && (t.outcome.Returned? && t.outcome.value != 0 ==>
            && rendered.Some? && reply.Status? && IsSuccess(reply.code)
            && t.sent == [Request("PUT", url, rendered.value)]
            && t.outcome.value == |rendered.value|)
      && (urlValid && rendered.Some? && reply.Status? && IsSuccess(reply.code) ==> t.outcome == Returned(|rendered.value|))
      && (urlValid && !(rendered.Some? && reply.Status? && IsSuccess(reply.code)) ==> t.outcome == Returned(0))
      && (urlValid ==> t.outcome.Returned?)
      && (!urlValid ==> t.outcome == Threw && t.sent == [])
      && (t.sent != [] <==> urlValid && reply.Status?)
      && (t.sent != [] ==> t.sent == [Request("PUT", url, if rendered.Some? then rendered.value else [])])
  {
  }

  /** A non-empty fragment list reaches the server as one `PUT` whose body is
      the payload, and a 2xx status returns the body's length as an `int`;
      the sentinel without a request happens exactly for a null or empty list. */
  lemma SegmentPutResult(url: string, urlValid: bool, fragments: Option<seq<Fragment>>, reply: Reply)
    ensures var t := SegmentPut(url, urlValid, fragments, reply);
      && ((t.outcome == Returned(1) && t.sent == []) <==> fragments.None? || fragments.value == [])
      && (t.sent != [] ==> t.sent == [Request("PUT", url, Payload(fragments.value))])
      && (t.sent != [] && IsSuccess(reply.code) ==> t.outcome == Returned(Int32(|t.sent[0].body|)))
      && (t.sent != [] <==> fragments.Some? && fragments.value != [] && urlValid && reply.Status?)
      && (fragments.Some? && fragments.value != [] ==>
            && (urlValid ==> t.outcome.Returned?)
            && (!urlValid ==> t.outcome == Threw && t.sent == [])
            && (urlValid && !(reply.Status? && IsSuccess(reply.code)) ==> t.outcome == Returned(0))
            && (urlValid && reply.Status? && IsSuccess(reply.code) ==> t.outcome == Returned(Int32(|Payload(fragments.value)|))))
  {
  }

  /** A request body keeps every fragment whose length is positive, whole and
      in its place. */
  lemma SegmentBodyKeepsFragment(url: string, fragments: seq<Fragment>, i: nat, code: int)
    requires i < |fragments| && fragments[i].len > 0
    ensures var t := SegmentPut(url, true, Some(fragments), Status(code));
      t.sent[0].body == Payload(fragments[..i]) + fragments[i].buffer + Payload(fragments[i + 1..])
  {
    PayloadSplitsAt(fragments, i);
  }

  /** The delete reports success exactly on a 2xx status. */
  lemma SegmentDeleteResult(url: string, urlValid: bool, reply: Reply)
    ensures var t := SegmentDelete(url, urlValid, reply);
      && (t.outcome == Returned(1) <==> urlValid && reply.Status? && 200 <= reply.code < 300)
      && (urlValid ==> t.outcome.Returned?)
      && (!urlValid ==> t.outcome == Threw && t.sent == [])
      && (urlValid && !(reply.Status? && IsSuccess(reply.code)) ==> t.outcome == Returned(0))
      && (t.sent != [] <==> urlValid && reply.Status?)
      && (t.sent != [] ==> t.sent == [Request("DELETE", url, [])])
  {
  }

  /** As written, the status test accepts every status, so a delete the server
      refuses (404) is reported as done. */
  lemma DeleteAsWrittenAcceptsRefusal(url: string)
    ensures forall status :: DeleteStatusAsWritten(status)
    ensures SegmentDeleteAsWritten(url, true, Status(404)).outcome == Returned(1)
    ensures SegmentDelete(url, true, Status(404)).outcome == Returned(0)
  {
  }

  /** As written, the delete returns 0 only for a transport failure and throws
      only for an unparsable URL. */
  lemma DeleteAsWrittenOutcome(url: string, urlValid: bool, reply: Reply)
    ensures var t := SegmentDeleteAsWritten(url, urlValid, reply);
      && (t.outcome == Threw <==> !urlValid)
      && (t.outcome == Returned(0) <==> urlValid && reply.TransportFailure?)
      && (t.outcome == Returned(1) <==> urlValid && reply.Status?)
  {
  }

  /** The correction changes no request, and no result except for a status
      outside 2xx. */
  lemma DeleteCorrectionOnlyAffectsRefusals(url: string, urlValid: bool, reply: Reply)
    ensures SegmentDelete(url, urlValid, reply).sent == SegmentDeleteAsWritten(url, urlValid, reply).sent
    ensures SegmentDelete(url, urlValid, reply).outcome != SegmentDeleteAsWritten(url, urlValid, reply).outcome
        <==> urlValid && reply.Status? && !IsSuccess(reply.code)
  {
  }

  /** The corrected test is the one the `PUT` requests use. */
  lemma DeleteStatusMatchesPutTest(status: int)
    ensures DeleteStatusAccepted(status) <==> IsSuccess(status)
  {
  }

  // ---------------------------------------------------------------------------------------
  // The handler object

  class CupertinoHttpHandler {
    /** `getDstStreamName()`, fixed by the host. */
    const dstStreamName: string
    /** Whether `new URI(text)` accepts `text`. */
    const isValidUri: string -> bool
    /** Whether `new URL(text)` accepts `text`. */
    const isValidUrl: string -> bool
    /** `PlaylistWriter.write` followed by `toString().getBytes()`; None when the
        writer reports failure. */
    const serialize: seq<string> -> Option<Bytes>
    /** The web server. */
    const endpoint: RemoteEndpoint

    /** The base class's host name and port, set before `load`. */
    var hostname: Option<string>
    var port: int

    var basePath: string
    var httpHost: Option<string>
    var isSendSsl: bool
    var backup: bool
    var groupName: Option<string>

    function Config(): Settings
      reads this
    {
      Settings(isSendSsl, httpHost, port, basePath, dstStreamName, backup)
    }

    constructor (dstStreamName: string, isValidUri: string -> bool, isValidUrl: string -> bool,
                 serialize: seq<string> -> Option<Bytes>, endpoint: RemoteEndpoint,
                 hostname: Option<string>, port: int)
      ensures this.dstStreamName == dstStreamName && this.isValidUri == isValidUri && this.isValidUrl == isValidUrl
      ensures this.serialize == serialize && this.endpoint == endpoint
      ensures this.hostname == hostname && this.port == port
      ensures basePath == "/" && httpHost == Some("example.com") && !isSendSsl && !backup && groupName == None
    {
      this.dstStreamName := dstStreamName;
      this.isValidUri := isValidUri;
      this.isValidUrl := isValidUrl;
      this.serialize := serialize;
      this.endpoint := endpoint;
      this.hostname := hostname;
      this.port := port;
      basePath := "/";
      httpHost := Some("example.com");
      isSendSsl := false;
      backup := false;
      groupName := None;
    }

    /** `load`: host, base path, TLS flag and port from the configuration map,
        whose three entries are removed. */
    method Load(dataMap: map<string, string>) returns (remaining: map<string, string>)
      modifies this`httpHost, this`basePath, this`isSendSsl, this`port
      ensures remaining == dataMap - {HOST_KEY, PATH_KEY, SSL_KEY}
      ensures httpHost == (if IsEmpty(Lookup(dataMap, HOST_KEY)) then hostname else Lookup(dataMap, HOST_KEY))
      ensures basePath == ConfiguredBasePath(old(basePath), Lookup(dataMap, PATH_KEY))
      ensures isSendSsl == ConfiguredSendSsl(old(isSendSsl), Lookup(dataMap, SSL_KEY))
      ensures port == ConfiguredPort(old(port), isSendSsl)
    {
      var httpHostStr := Lookup(dataMap, HOST_KEY);
      var basePathStr := Lookup(dataMap, PATH_KEY);
      var sendSslStr := Lookup(dataMap, SSL_KEY);
      remaining := dataMap - {HOST_KEY, PATH_KEY, SSL_KEY};

      httpHost := hostname;
      if !IsEmpty(httpHostStr) {
        httpHost := httpHostStr;
      }

      if !IsEmpty(basePathStr) {
        basePath := basePathStr.value;
      }
      if !(basePath != [] && basePath[|basePath| - 1] == '/') {
        basePath := basePath + "/";
      }
      assert basePath == ConfiguredBasePath(old(basePath), basePathStr);

      if sendSslStr.Some? {
        isSendSsl := SslRequested(sendSslStr.value);
      }

      if port == RTMP_PORT {
        port := if isSendSsl then DEFAULT_HTTPS_PORT else DEFAULT_HTTP_PORT;
      }
    }

    /** `updateGroupMasterPlaylistPlaybackURI`: `../<group>/<path>`, recording the
        group only when the new URI is accepted. */
    method UpdateGroupMasterPlaylistPlaybackUri(group: Option<string>, playlist: PlaylistModel) returns (ok: bool)
      modifies this`groupName, playlist
      ensures var path := GroupPlaylistUri(Show(group), UriPath(old(playlist.uri)));
        && ok == isValidUri(path)
        && playlist.uri == (if ok then path else old(playlist.uri))
        && groupName == (if ok then group else old(groupName))
    {
      var newPath := GroupPlaylistUri(Show(group), UriPath(playlist.uri));
      ok := isValidUri(newPath);
      if ok {
        playlist.uri := newPath;
        groupName := group;
      }
    }

    /** `updateMasterPlaylistPlaybackURI`: `../<dst>[-b]/<uri>`. */
    method UpdateMasterPlaylistPlaybackUri(playlist: PlaylistModel) returns (ok: bool)
      modifies playlist
      ensures var path := StreamPlaylistUri(dstStreamName, backup, old(playlist.uri));
        ok == isValidUri(path) && playlist.uri == (if ok then path else old(playlist.uri))
    {
      var path := StreamPlaylistUri(dstStreamName, backup, playlist.uri);
      ok := isValidUri(path);
      if ok {
        playlist.uri := path;
      }
    }

    /** `updateMediaPlaylistPlaybackURI`: the same rewrite as for the master playlist. */
    method UpdateMediaPlaylistPlaybackUri(playlist: PlaylistModel) returns (ok: bool)
      modifies playlist
      ensures var path := StreamPlaylistUri(dstStreamName, backup, old(playlist.uri));
        ok == isValidUri(path) && playlist.uri == (if ok then path else old(playlist.uri))
    {
      var path := StreamPlaylistUri(dstStreamName, backup, playlist.uri);
      ok := isValidUri(path);
      if ok {
        playlist.uri := path;
      }
    }

    /** `updateMediaSegmentPlaybackURI`: `<session>/<path>`, `session` being
        `getRandomSessionStr()`. */
    method UpdateMediaSegmentPlaybackUri(segment: MediaSegmentModel, session: string) returns (ok: bool)
      modifies segment
      ensures var path := SegmentUri(session, UriPath(old(segment.uri)));
        ok == isValidUri(path) && segment.uri == (if ok then path else old(segment.uri))
    {
      var temp := SegmentUri(session, UriPath(segment.uri));
      ok := isValidUri(temp);
      if ok {
        segment.uri := temp;
      }
    }

    /** `writePlaylist`. */
    method WritePlaylist(playlist: PlaylistModel, playlistPath: string, reply: Reply) returns (outcome: Outcome)
      modifies endpoint
      ensures var t := PlaylistPut(PlaylistUrl(Config(), playlistPath), isValidUrl(PlaylistUrl(Config(), playlistPath)), serialize(playlist.entries), reply);
        outcome == t.outcome && endpoint.requests == old(endpoint.requests) + t.sent
    {
      var url := PlaylistUrl(Config(), playlistPath);
      if !isValidUrl(url) {
        outcome := Threw;
        return;
      }
      var body: Bytes := [];
      var retVal := 0;
      var rendered := serialize(playlist.entries);
      if rendered.Some? {
        body := rendered.value;
        retVal := |body|;
      }
      var status := endpoint.Exchange(Request("PUT", url, body), reply);
      if status.None? {
        outcome := Returned(0);
      } else if status.value < 200 || status.value >= 300 {
        outcome := Returned(0);
      } else {
        outcome := Returned(retVal);
      }
    }

    /** The body the three playlist sends share. */
    method SendPlaylist(playlist: PlaylistModel, reply: Reply) returns (outcome: Outcome)
      modifies endpoint
      ensures var t := PlaylistSend(Config(), isValidUrl, playlist.uri, serialize(playlist.entries), reply);
        outcome == t.outcome && endpoint.requests == old(endpoint.requests) + t.sent
    {
      var playlistPath := PlaylistPath(basePath, playlist.uri);
      if playlistPath.None? {
        outcome := Threw;
        return;
      }
      outcome := WritePlaylist(playlist, playlistPath.value, reply);
    }

    /** `sendGroupMasterPlaylist` (the group argument is not used). */
    method SendGroupMasterPlaylist(group: Option<string>, playlist: PlaylistModel, reply: Reply) returns (outcome: Outcome)
      modifies endpoint
      ensures var t := PlaylistSend(Config(), isValidUrl, playlist.uri, serialize(playlist.entries), reply);
        outcome == t.outcome && endpoint.requests == old(endpoint.requests) + t.sent
    {
      outcome := SendPlaylist(playlist, reply);
    }

    /** `sendMasterPlaylist`. */
    method SendMasterPlaylist(playlist: PlaylistModel, reply: Reply) returns (outcome: Outcome)
      modifies endpoint
      ensures var t := PlaylistSend(Config(), isValidUrl, playlist.uri, serialize(playlist.entries), reply);
        outcome == t.outcome && endpoint.requests == old(endpoint.requests) + t.sent
    {
      outcome := SendPlaylist(playlist, reply);
    }

    /** `sendMediaPlaylist`. */
    method SendMediaPlaylist(playlist: PlaylistModel, reply: Reply) returns (outcome: Outcome)
      modifies endpoint
      ensures var t := PlaylistSend(Config(), isValidUrl, playlist.uri, serialize(playlist.entries), reply);
        outcome == t.outcome && endpoint.requests == old(endpoint.requests) + t.sent
    {
      outcome := SendPlaylist(playlist, reply);
    }

    /** `sendMediaSegment`: the fragment loop streams each buffer whose fragment
        has a positive length and adds its length to the `int` size. */
    method SendMediaSegment(segment: MediaSegmentModel, reply: Reply) returns (outcome: Outcome)
      modifies endpoint
      ensures var url := SegmentUrl(Config(), segment.uri);
        var t := SegmentPut(url, isValidUrl(url), segment.fragments, reply);
        outcome == t.outcome && endpoint.requests == old(endpoint.requests) + t.sent
    {
      var list := segment.fragments;
      if list.None? || |list.value| == 0 {
        outcome := Returned(1);
        return;
      }
      var url := SegmentUrl(Config(), segment.uri);
      if !isValidUrl(url) {
        outcome := Threw;
        return;
      }
      var body, size := CollectFragments(list.value);
      var status := endpoint.Exchange(Request("PUT", url, body), reply);
      if status.None? {
        outcome := Returned(0);
      } else if status.value < 200 || status.value >= 300 {
        outcome := Returned(0);
      } else {
        outcome := Returned(size);
      }
    }

    /** The fragment loop of `sendMediaSegment`: each buffer whose fragment has
        a positive length is streamed, and its length added to the `int` size. */
    method CollectFragments(fragments: seq<Fragment>) returns (body: Bytes, size: int)
      ensures body == Payload(fragments)
      ensures size == Int32(|body|)
    {
      body := [];
      size := 0;
      var i := 0;
      while i < |fragments|
        invariant 0 <= i <= |fragments|
        invariant body == Payload(fragments[..i])
        invariant size == Int32(|body|)
      {
        PayloadStep(fragments, i);
        var fragment := fragments[i];
        if fragment.len <= 0 {
          assert body + [] == body;
        } else {
          var data := fragment.buffer;
          Int32Accumulate(|body|, |data|);
          body := body + data;
          size := Int32(size + |data|);
        }
        i := i + 1;
      }
      assert fragments[..i] == fragments;
    }

    /** `deleteMediaSegment`, with the 2xx status test (see `SegmentDeleteAsWritten`). */
    method DeleteMediaSegment(segment: MediaSegmentModel, reply: Reply) returns (outcome: Outcome)
      modifies endpoint
      ensures var url := SegmentUrl(Config(), segment.uri);
        var t := SegmentDelete(url, isValidUrl(url), reply);
        outcome == t.outcome && endpoint.requests == old(endpoint.requests) + t.sent
    {
      var url := SegmentUrl(Config(), segment.uri);
      if !isValidUrl(url) {
        outcome := Threw;
        return;
      }
      var status := endpoint.Exchange(Request("DELETE", url, []), reply);
      if status.None? {
        outcome := Returned(0);
      } else if DeleteStatusAccepted(status.value) {
        outcome := Returned(1);
      } else {
        outcome := Returned(0);
      }
    }

    /** `setSendToBackupServer`. */
    method SetSendToBackupServer(backup: bool)
      modifies this`backup
      ensures this.backup == backup && IsSendToBackupServer() == backup
    {
      this.backup := backup;
    }

    /** `isSendToBackupServer`. */
    function IsSendToBackupServer(): bool
      reads this
    {
      backup
    }

    /** `getDestionationLogData()`. */
    function DestinationLogData(): (s: string)
      reads this
      ensures |s| >= 4 && s[2..|s| - 2] == DestinationUrl(Config())
    {
      LogData(Config())
    }
  }
}
