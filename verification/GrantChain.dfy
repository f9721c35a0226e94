/**
 Chains of playlists: what a request was granted is passed on to the URLs of the playlist
 it is served, those are requested in turn, and so on.
 */
module GrantChain {
  import opened Options
  import opened FormUrl
  import opened SignedPayload
  import opened LiveGrants
  import Master = MasterPlaylist
  import Media = MediaPlaylist

  const PLAYLIST_PATH: Bytes := "/api/live/hls.m3u8"
  const RESOURCE_PATH: Bytes := "/api/live/hls-resource"

  datatype Playlist =
    | MasterLines(master: seq<Master.Line>)
    | MediaLines(media: seq<Media.Line>)

  /** How the rewriter treats URIs, by tables that are not part of the model. */
  datatype Rules = Rules(
    resolve: string -> Option<Bytes>,     // against the playlist's own URL
    direct: Bytes -> Option<Bytes>,       // the URL itself, for hosts a browser may fetch from
    omitsReferer: Bytes -> bool,
    fullLadder: bool)                     // providers whose variants are not capped

  /** The expiry and the session of the request go into the URLs of its playlist. */
  function ContextOf(request: LiveHlsRequest, secret: Bytes, now: int): Option<Context> {
    if request.trusted then
      Some(Context(secret, if request.expiresAt.Some? then request.expiresAt.value else now + TTL_SECONDS,
                   request.binding))
    else None
  }

  function Route(w: World, request: LiveHlsRequest, context: Option<Context>, rules: Rules, path: Bytes,
                 isMedia: bool, vod: bool, legacy: bool, uri: string): string {
    var absolute := rules.resolve(uri);
    if absolute.None? then uri
    else if request.direct && rules.direct(absolute.value).Some? then rules.direct(absolute.value).value
    else
      var referer := if isMedia && rules.omitsReferer(absolute.value) then None else request.referer;
      ProxyUrl(w, path, absolute.value, referer, context, legacy, vod)
  }

  function Router(w: World, request: LiveHlsRequest, context: Option<Context>, rules: Rules, path: Bytes,
                  isMedia: bool, vod: bool, legacy: bool): string -> string {
    uri => Route(w, request, context, rules, path, isMedia, vod, legacy, uri)
  }

  function Rewrite(w: World, request: LiveHlsRequest, playlist: Playlist, rules: Rules, secret: Bytes, now: int,
                   legacy: bool): Playlist {
    var context := ContextOf(request, secret, now);
    match playlist
    case MasterLines(lines) =>
      MasterLines(Master.Rewritten(lines, context.Some? && !request.direct && !rules.fullLadder,
                                   Router(w, request, context, rules, PLAYLIST_PATH, false, false, legacy),
                                   Router(w, request, context, rules, RESOURCE_PATH, false, false, legacy)))
    case MediaLines(lines) =>
      MediaLines(Media.Rewritten(lines,
                                 Router(w, request, context, rules, RESOURCE_PATH, true, false, legacy),
                                 Router(w, request, context, rules, RESOURCE_PATH, true, true, legacy)))
  }

  ghost predicate Mentions(playlist: Playlist, uri: string) {
    match playlist
    case MasterLines(lines) => Master.Mentions(lines, uri)
    case MediaLines(lines) => Media.Mentions(lines, uri)
  }

  /** A proxy URL with the grant of the request whose playlist it is in. */
  ghost predicate IsChild(w: World, request: LiveHlsRequest, secret: Bytes, now: int, legacy: bool, url: string) {
    exists path, input, referer, vod ::
      Free(path, '?') && url == ProxyUrl(w, path, input, referer, ContextOf(request, secret, now), legacy, vod)
  }

  /** A URI left as it was, for want of a base or of any segment, or a direct one. */
  ghost predicate IsOffProxy(request: LiveHlsRequest, playlist: Playlist, rules: Rules, uri: string) {
    || (Mentions(playlist, uri) && rules.resolve(uri).None?)
    || (request.direct && exists x :: rules.direct(x) == Some(uri))
    || (playlist.MediaLines? && !Media.IsVod(playlist.media) && Media.Segments(playlist.media) == [])
  }

  /** What routing may make of one URI. */
  ghost predicate IsRouted(w: World, request: LiveHlsRequest, secret: Bytes, now: int, rules: Rules, legacy: bool,
                           uri: string, url: string) {
    || (url == uri && rules.resolve(uri).None?)
    || (request.direct && exists x :: rules.direct(x) == Some(url))
    || IsChild(w, request, secret, now, legacy, url)
  }

  ghost predicate RoutesAll(w: World, request: LiveHlsRequest, secret: Bytes, now: int, rules: Rules, legacy: bool,
                            p: string -> string) {
    forall uri :: IsRouted(w, request, secret, now, rules, legacy, uri, p(uri))
  }

  lemma RouterRoutes(w: World, request: LiveHlsRequest, secret: Bytes, now: int, rules: Rules, path: Bytes,
                     isMedia: bool, vod: bool, legacy: bool)
    requires Free(path, '?')
    ensures RoutesAll(w, request, secret, now, rules, legacy,
                      Router(w, request, ContextOf(request, secret, now), rules, path, isMedia, vod, legacy))
  {
  }

  lemma MasterIsRouted(w: World, request: LiveHlsRequest, lines: seq<Master.Line>, capped: bool, rules: Rules,
                       secret: Bytes, now: int, legacy: bool, p: string -> string, r: string -> string, url: string)
    returns (uri: string)
    requires Master.Mentions(Master.Rewritten(lines, capped, p, r), url)
    requires RoutesAll(w, request, secret, now, rules, legacy, p)
    requires RoutesAll(w, request, secret, now, rules, legacy, r)
    ensures Master.Mentions(lines, uri) && IsRouted(w, request, secret, now, rules, legacy, uri, url)
  {
    Master.EveryUriIsProxied(lines, capped, p, r, url);
    var i :| 0 <= i < |lines| && Master.UriOf(lines[i]).Some?
             && (url == p(Master.UriOf(lines[i]).value) || url == r(Master.UriOf(lines[i]).value));
    uri := Master.UriOf(lines[i]).value;
  }

  lemma MediaIsRouted(w: World, request: LiveHlsRequest, lines: seq<Media.Line>, rules: Rules, secret: Bytes,
                      now: int, legacy: bool, p: string -> string, v: string -> string, url: string)
    returns (uri: string)
    requires Media.Mentions(Media.Rewritten(lines, p, v), url) && (Media.IsVod(lines) || Media.Segments(lines) != [])
    requires RoutesAll(w, request, secret, now, rules, legacy, p)
    requires RoutesAll(w, request, secret, now, rules, legacy, v)
    ensures Media.Mentions(lines, uri) && IsRouted(w, request, secret, now, rules, legacy, uri, url)
  {
    var out := Media.Rewritten(lines, p, v);
    Media.EveryUriIsProxied(lines, p, v);
    var k :| 0 <= k < |out| && Media.UriOf(out[k]) == Some(url);
    if Media.IsVod(lines) {
      assert Media.IsProxied(url, lines, v);
      var i :| 0 <= i < |lines| && Media.UriOf(lines[i]).Some? && url == v(Media.UriOf(lines[i]).value);
      uri := Media.UriOf(lines[i]).value;
    } else {
      assert Media.IsProxied(url, lines, p);
      var i :| 0 <= i < |lines| && Media.UriOf(lines[i]).Some? && url == p(Media.UriOf(lines[i]).value);
      uri := Media.UriOf(lines[i]).value;
    }
  }

  lemma MasterUriIsChild(w: World, request: LiveHlsRequest, lines: seq<Master.Line>, rules: Rules, secret: Bytes,
                         now: int, legacy: bool, url: string)
    requires Mentions(Rewrite(w, request, MasterLines(lines), rules, secret, now, legacy), url)
    ensures IsOffProxy(request, MasterLines(lines), rules, url) || IsChild(w, request, secret, now, legacy, url)
  {
    var context := ContextOf(request, secret, now);
    var p := Router(w, request, context, rules, PLAYLIST_PATH, false, false, legacy);
    var r := Router(w, request, context, rules, RESOURCE_PATH, false, false, legacy);
    RouterRoutes(w, request, secret, now, rules, PLAYLIST_PATH, false, false, legacy);
    RouterRoutes(w, request, secret, now, rules, RESOURCE_PATH, false, false, legacy);
    var capped := context.Some? && !request.direct && !rules.fullLadder;
    var uri := MasterIsRouted(w, request, lines, capped, rules, secret, now, legacy, p, r, url);
  }

  lemma MediaUriIsChild(w: World, request: LiveHlsRequest, lines: seq<Media.Line>, rules: Rules, secret: Bytes,
                        now: int, legacy: bool, url: string)
    requires Mentions(Rewrite(w, request, MediaLines(lines), rules, secret, now, legacy), url)
    ensures IsOffProxy(request, MediaLines(lines), rules, url) || IsChild(w, request, secret, now, legacy, url)
  {
    if Media.IsVod(lines) || Media.Segments(lines) != [] {
      var context := ContextOf(request, secret, now);
      var p := Router(w, request, context, rules, RESOURCE_PATH, true, false, legacy);
      var v := Router(w, request, context, rules, RESOURCE_PATH, true, true, legacy);
      RouterRoutes(w, request, secret, now, rules, RESOURCE_PATH, true, false, legacy);
      RouterRoutes(w, request, secret, now, rules, RESOURCE_PATH, true, true, legacy);
      var uri := MediaIsRouted(w, request, lines, rules, secret, now, legacy, p, v, url);
    }
  }

  /**
   Whatever the upstream playlist contains, every URI it is served with carries the grant of the
   request or is off the proxy.
   */
  lemma EveryUriIsChild(w: World, request: LiveHlsRequest, playlist: Playlist, rules: Rules, secret: Bytes, now: int,
                        legacy: bool, url: string)
    requires Mentions(Rewrite(w, request, playlist, rules, secret, now, legacy), url)
    ensures IsOffProxy(request, playlist, rules, url) || IsChild(w, request, secret, now, legacy, url)
  {
    match playlist
    case MasterLines(lines) => MasterUriIsChild(w, request, lines, rules, secret, now, legacy, url);
    case MediaLines(lines) => MediaUriIsChild(w, request, lines, rules, secret, now, legacy, url);
  }

  // ----- One generation ------------------------------------------------------------------

  /** Without a grant the URL has no marker, no expiry, no signature and no session. */
  lemma UnsignedUrl(w: World, path: Bytes, input: Bytes, referer: Option<Bytes>, legacy: bool, vod: bool)
    requires Free(path, '?')
    ensures var params := ParamsOf(ProxyUrl(w, path, input, referer, None, legacy, vod));
            Get(params, PEmbed) == None && Get(params, PSession) == None
  {
    UnsignedParam(w, path, input, referer, legacy, vod, PEmbed);
    UnsignedParam(w, path, input, referer, legacy, vod, PSession);
  }

  lemma UnsignedParam(w: World, path: Bytes, input: Bytes, referer: Option<Bytes>, legacy: bool, vod: bool, p: Param)
    requires Free(path, '?') && p != PVod && p != PInput && p != PReferer
    ensures Get(ParamsOf(ProxyUrl(w, path, input, referer, None, legacy, vod)), p) == None
  {
    ParamsOfProxyUrl(w, path, input, referer, None, legacy, vod, p);
    LookupAdded(Unsigned(input, NormalizeOptional(w, referer)), PVod, if vod then Some("1") else None, p);
    UnsignedAt(input, NormalizeOptional(w, referer), p);
  }

  /** Signed fields are authorized for their own expiry in its window, or not at all. */
  lemma OnlyItsOwnExpiry(w: World, params: map<Bytes, Bytes>, input: Bytes, written: Option<Bytes>, context: Context,
                         legacy: bool, vod: bool, source: Bytes, seen: Option<Bytes>, now: int,
                         legacyUntil: Option<int>)
    requires SignedParams(params, w, input, written, context, legacy, vod)
    ensures var granted := Authorize(w, source, seen, params, context.secret, now, legacyUntil);
            granted.Some? ==> granted == Some(Some(context.expiresAt)) && Acceptable(context, now)
  {
    SignedParameters(params, w, input, written, context, legacy, vod);
    AuthorizeParameters(w, params, source, seen, context,
                        Sign(w, context.secret, GrantOf(input, written, context.expiresAt, context.binding)),
                        now, legacyUntil);
  }

  /** How a request may follow from the one whose playlist had its URL. */
  predicate Inherits(w: World, parent: LiveHlsRequest, expiresAt: int, child: LiveHlsRequest,
                     sessionMatches: Bytes -> bool, now: int) {
    && (child.trusted
        ==> parent.trusted && child.expiresAt == Some(expiresAt) && child.binding == parent.binding
            && InWindow(expiresAt, now))
    && (!child.trusted
        ==> parent.binding.None? && child.binding.None? && child.expiresAt.None? && w.isAllowed(child.source))
    && (parent.binding.Some? ==> sessionMatches(parent.binding.value))
  }

  lemma SignedChildInherits(w: World, params: map<Bytes, Bytes>, input: Bytes, written: Option<Bytes>,
                            context: Context, legacy: bool, vod: bool, parent: LiveHlsRequest,
                            sessionMatches: Bytes -> bool, now: int, legacyUntil: Option<int>)
    requires SignedParams(params, w, input, written, context, legacy, vod)
    requires parent.trusted && parent.binding == context.binding
    ensures var response := Handle(w, params, sessionMatches, context.secret, now, legacyUntil);
            response.Served? ==> Inherits(w, parent, context.expiresAt, response.request, sessionMatches, now)
  {
    var response := Handle(w, params, sessionMatches, context.secret, now, legacyUntil);
    if response.Served? {
      OnlyItsOwnExpiry(w, params, input, written, context, legacy, vod, response.request.source,
                       response.request.referer, now, legacyUntil);
      SignedParameters(params, w, input, written, context, legacy, vod);
    }
  }

  function ExpiryPassedOn(parent: LiveHlsRequest, rewrittenAt: int): int {
    if parent.expiresAt.Some? then parent.expiresAt.value else rewrittenAt + TTL_SECONDS
  }

  /** A request for a URL with the grant of another request is refused, or has that grant, or has none. */
  lemma ChildInherits(w: World, secret: Bytes, parent: LiveHlsRequest, rewrittenAt: int, legacy: bool, path: Bytes,
                      input: Bytes, referer: Option<Bytes>, vod: bool, sessionMatches: Bytes -> bool, now: int,
                      legacyUntil: Option<int>)
    requires HasSecret(w, secret) && Free(path, '?') && (!parent.trusted ==> parent.binding.None?)
    ensures var url := ProxyUrl(w, path, input, referer, ContextOf(parent, secret, rewrittenAt), legacy, vod);
            var response := Handle(w, ParamsOf(url), sessionMatches, secret, now, legacyUntil);
            response.Served?
            ==> Inherits(w, parent, ExpiryPassedOn(parent, rewrittenAt), response.request, sessionMatches, now)
  {
    if parent.trusted {
      var context := ContextOf(parent, secret, rewrittenAt).value;
      var params := ParamsOf(ProxyUrl(w, path, input, referer, Some(context), legacy, vod));
      FieldsRoundTrip(w, path, input, referer, context, legacy, vod);
      SignedChildInherits(w, params, NormalizeInput(w, input), NormalizeOptional(w, referer), context, legacy, vod,
                          parent, sessionMatches, now, legacyUntil);
    } else {
      UnsignedUrl(w, path, input, referer, legacy, vod);
    }
  }

  // ----- Any number of generations -----------------------------------------------------

  /** One step down: the playlist the request is served, a URL in it, and the request for that. */
  datatype Visit = Visit(playlist: Playlist, rules: Rules, rewrittenAt: int, legacy: bool,
                         url: Bytes, sessionMatches: Bytes -> bool, servedAt: int, legacyUntil: Option<int>)

  ghost predicate Follows(w: World, secret: Bytes, parent: LiveHlsRequest, visit: Visit) {
    && Mentions(Rewrite(w, parent, visit.playlist, visit.rules, secret, visit.rewrittenAt, visit.legacy), visit.url)
    && !IsOffProxy(parent, visit.playlist, visit.rules, visit.url)
  }

  /** The request that is served at the end of the chain, if every one on the way is. */
  ghost function Walk(w: World, secret: Bytes, root: LiveHlsRequest, visits: seq<Visit>): Option<LiveHlsRequest> {
    if visits == [] then Some(root)
    else
      var parent := Walk(w, secret, root, visits[..|visits| - 1]);
      var last := visits[|visits| - 1];
      if parent.None? || !Follows(w, secret, parent.value, last) then None
      else
        match Handle(w, ParamsOf(last.url), last.sessionMatches, secret, last.servedAt, last.legacyUntil)
        case Served(child) => Some(child)
        case Refused => None
  }

  /** The last step of a chain. */
  lemma LastInherits(w: World, secret: Bytes, root: LiveHlsRequest, visits: seq<Visit>)
    requires HasSecret(w, secret) && visits != []
    ensures var parent := Walk(w, secret, root, visits[..|visits| - 1]); var last := visits[|visits| - 1];
            var served := Walk(w, secret, root, visits);
            served.Some? ==>
              && parent.Some?
              && ((!parent.value.trusted ==> parent.value.binding.None?) ==>
                    Inherits(w, parent.value, ExpiryPassedOn(parent.value, last.rewrittenAt), served.value,
                             last.sessionMatches, last.servedAt))
  {
    var last := visits[|visits| - 1];
    if Walk(w, secret, root, visits).Some? {
      var parent := Walk(w, secret, root, visits[..|visits| - 1]).value;
      EveryUriIsChild(w, parent, last.playlist, last.rules, secret, last.rewrittenAt, last.legacy, last.url);
      var path, input, referer, vod :|
        Free(path, '?') && last.url
        == ProxyUrl(w, path, input, referer, ContextOf(parent, secret, last.rewrittenAt), last.legacy, vod);
      if !parent.trusted ==> parent.binding.None? {
        ChildInherits(w, secret, parent, last.rewrittenAt, last.legacy, path, input, referer, vod, last.sessionMatches,
                      last.servedAt, last.legacyUntil);
      }
    }
  }

  /** What a request below a root with an expiry and a session may be. */
  predicate Descends(w: World, root: LiveHlsRequest, expiresAt: int, served: LiveHlsRequest) {
    && (served.trusted ==> served.expiresAt == Some(expiresAt) && served.binding == root.binding)
    && (!served.trusted
        ==> root.binding.None? && served.binding.None? && served.expiresAt.None? && w.isAllowed(served.source))
  }

  /**
   Any number of generations below a signed request, whatever the playlists on the way
   contain: a request that is still trusted has the expiry and the session of the root and
   comes within that expiry; all the others are on the list that needs no signature, carry
   no grant, and there are none below a root bound to a session.
   */
  lemma {:induction false} GrantIsInherited(w: World, secret: Bytes, root: LiveHlsRequest, expiresAt: int,
                                            visits: seq<Visit>)
    requires HasSecret(w, secret) && root.trusted && root.expiresAt == Some(expiresAt)
    ensures var served := Walk(w, secret, root, visits);
            served.Some? ==>
              && Descends(w, root, expiresAt, served.value)
              && (visits != [] && served.value.trusted ==> InWindow(expiresAt, visits[|visits| - 1].servedAt))
              && (visits != [] && root.binding.Some? ==> visits[|visits| - 1].sessionMatches(root.binding.value))
    decreases |visits|
  {
    if visits != [] {
      GrantIsInherited(w, secret, root, expiresAt, visits[..|visits| - 1]);
      LastInherits(w, secret, root, visits);
    }
  }

  /** Once a request is served without a grant, nothing below it ever has one. */
  lemma {:induction false} NoGrantReappears(w: World, secret: Bytes, root: LiveHlsRequest, visits: seq<Visit>)
    requires HasSecret(w, secret) && !root.trusted && root.binding.None? && root.expiresAt.None?
    ensures var served := Walk(w, secret, root, visits);
            served.Some? ==> !served.value.trusted && served.value.binding.None? && served.value.expiresAt.None?
    decreases |visits|
  {
    if visits != [] {
      NoGrantReappears(w, secret, root, visits[..|visits| - 1]);
      LastInherits(w, secret, root, visits);
    }
  }

  // ----- Where a grant ends -----------------------------------------------------------------

  /**
   A child of a trusted request is trusted again exactly when its source is public, it
   comes within the expiry and to the session, and its code is the one that was signed.
   */
  lemma ChildIsTrustedIff(w: World, secret: Bytes, parent: LiveHlsRequest, rewrittenAt: int, legacy: bool,
                          path: Bytes, input: Bytes, referer: Option<Bytes>, vod: bool,
                          sessionMatches: Bytes -> bool, now: int, legacyUntil: Option<int>)
    requires Lawful(w) && HasSecret(w, secret) && Free(path, '?') && w.parseUrl(w.trim(input)).Some? && parent.trusted
    ensures var context := ContextOf(parent, secret, rewrittenAt);
            var url := ProxyUrl(w, path, input, referer, context, legacy, vod);
            var response := Handle(w, ParamsOf(url), sessionMatches, secret, now, legacyUntil);
            response.Served? && response.request.trusted
            <==> && w.isPublic(NormalizeInput(w, input)) && Acceptable(context.value, now)
                 && (parent.binding.Some? ==> sessionMatches(parent.binding.value))
                 && w.mac(secret, Payload(GrantSeen(w, input, referer, context.value)))
                    == w.mac(secret, Payload(GrantSigned(w, input, referer, context.value)))
  {
    TrustedIff(w, path, input, referer, ContextOf(parent, secret, rewrittenAt).value, legacy, vod, sessionMatches, now,
               legacyUntil);
  }

  /**
   A source that is on the list but not public (an http segment of a listed host): below a
   trusted request that is bound to no session it is served without the grant.
   */
  lemma ListedSourceLosesGrant(w: World, secret: Bytes, parent: LiveHlsRequest, rewrittenAt: int, legacy: bool,
                               path: Bytes, url: Bytes, vod: bool, sessionMatches: Bytes -> bool, now: int,
                               legacyUntil: Option<int>)
    requires Lawful(w) && HasSecret(w, secret) && Free(path, '?')
    requires w.parseUrl(url) == Some(url) && w.isAllowed(url) && !w.isPublic(url)
    requires parent.trusted && parent.binding.None?
    ensures Handle(w, ParamsOf(ProxyUrl(w, path, url, None, ContextOf(parent, secret, rewrittenAt), legacy, vod)),
                   sessionMatches, secret, now, legacyUntil)
         == Served(LiveHlsRequest(url, None, false, None, false, None))
  {
    var context := ContextOf(parent, secret, rewrittenAt).value;
    var params := ParamsOf(ProxyUrl(w, path, url, None, Some(context), legacy, vod));
    NormalFormStays(w, url);
    FieldsRoundTrip(w, path, url, None, context, legacy, vod);
    SignedParameters(params, w, url, None, context, legacy, vod);
    ListedIsServed(w, params, url, sessionMatches, secret, now, legacyUntil);
  }

  lemma ListedIsServed(w: World, params: map<Bytes, Bytes>, url: Bytes, sessionMatches: Bytes -> bool, secret: Bytes,
                       now: int, legacyUntil: Option<int>)
    requires Get(params, PInput) == Some(url) && Get(params, PReferer) == None && Get(params, PSession) == None
    requires w.trim(url) == url && url != [] && w.parseUrl(url) == Some(url) && w.isAllowed(url) && !w.isPublic(url)
    ensures Handle(w, params, sessionMatches, secret, now, legacyUntil)
              == Served(LiveHlsRequest(url, None, false, None, false, None))
  {
  }

  /** There are such sources. */
  lemma ListedSourceExample(plain: Bytes)
    requires plain != [] && Visible(plain)
    ensures var w := EscapingWorld(x => x != plain, x => x == plain);
            Lawful(w) && w.parseUrl(plain) == Some(plain) && w.isAllowed(plain) && !w.isPublic(plain)
  {
    EscapingWorldIsLawful(x => x != plain, x => x == plain);
    EscapeOfVisible(plain);
  }
}
