/**
 What every URI of an upstream playlist becomes: which handler it goes to, for which source,
 with which referer and grant, and what a request for it is then.
 */
module RoutedPlaylists {
  import opened Options
  import opened FormUrl
  import opened SignedPayload
  import opened LiveGrants
  import opened GrantChain
  import Requests = LiveRequests
  import Master = MasterPlaylist
  import Media = MediaPlaylist
  import Lines = MediaServed

  // ----- One URI ---------------------------------------------------------------------------

  /** The URL leads to the handler at `path`, and its parameters ask for `input` with this referer and grant. */
  ghost predicate LeadsTo(w: World, url: Bytes, path: Bytes, input: Bytes, referer: Option<Bytes>,
                          context: Option<Context>, vod: bool) {
    var params := ParamsOf(url);
    && url[..Find(url, '?')] == path
    && Get(params, PInput) == Some(if context.Some? then NormalizeInput(w, input) else input)
    && Get(params, PReferer) == NormalizeOptional(w, referer)
    && Get(params, PVod) == (if vod then Some("1") else None) && Get(params, PDirect) == None
    && if context.Some? && HasSecret(w, context.value.secret)
       then && Get(params, PEmbed) == Some("1") && Get(params, PExpires) == Some(RenderBytes(context.value.expiresAt))
            && Get(params, PSession) == context.value.binding
       else Get(params, PEmbed) == None && Get(params, PExpires) == None && Get(params, PSession) == None
  }

  lemma PathOf(path: Bytes, query: Bytes)
    requires Free(path, '?')
    ensures var url := path + ['?'] + query; url[..Find(url, '?')] == path
  {
    FindAfterFree(path, '?', query);
  }

  function UnsignedField(input: Bytes, referer: Option<Bytes>, vod: bool, p: Param): Option<Bytes> {
    match p
    case PInput => Some(input)
    case PReferer => referer
    case PVod => if vod then Some("1") else None
    case _ => None
  }

  lemma UnsignedFieldAt(w: World, path: Bytes, input: Bytes, referer: Option<Bytes>, context: Option<Context>,
                        legacy: bool, vod: bool, p: Param)
    requires Free(path, '?') && (context.Some? ==> !HasSecret(w, context.value.secret))
    ensures Get(ParamsOf(ProxyUrl(w, path, input, referer, context, legacy, vod)), p)
         == UnsignedField(if context.Some? then NormalizeInput(w, input) else input, NormalizeOptional(w, referer),
                          vod, p)
  {
    var source := if context.Some? then NormalizeInput(w, input) else input;
    ParamsOfProxyUrl(w, path, input, referer, context, legacy, vod, p);
    LookupAdded(Unsigned(source, NormalizeOptional(w, referer)), PVod, if vod then Some("1") else None, p);
    UnsignedAt(source, NormalizeOptional(w, referer), p);
  }

  lemma UnsignedLeads(w: World, path: Bytes, input: Bytes, referer: Option<Bytes>, context: Option<Context>,
                      legacy: bool, vod: bool)
    requires Free(path, '?') && (context.Some? ==> !HasSecret(w, context.value.secret))
    ensures LeadsTo(w, ProxyUrl(w, path, input, referer, context, legacy, vod), path, input, referer, context, vod)
  {
    PathOf(path, Query(ToPairs(UrlFields(w, input, referer, context, legacy, vod))));
    UnsignedFieldAt(w, path, input, referer, context, legacy, vod, PInput);
    UnsignedFieldAt(w, path, input, referer, context, legacy, vod, PReferer);
    UnsignedFieldAt(w, path, input, referer, context, legacy, vod, PVod);
    UnsignedFieldAt(w, path, input, referer, context, legacy, vod, PDirect);
    UnsignedFieldAt(w, path, input, referer, context, legacy, vod, PEmbed);
    UnsignedFieldAt(w, path, input, referer, context, legacy, vod, PExpires);
    UnsignedFieldAt(w, path, input, referer, context, legacy, vod, PSession);
  }

  lemma SignedVod(params: map<Bytes, Bytes>, w: World, input: Bytes, referer: Option<Bytes>, context: Context,
                  legacy: bool, vod: bool)
    requires SignedParams(params, w, input, referer, context, legacy, vod)
    ensures Get(params, PVod) == if vod then Some("1") else None
  {
  }

  lemma SignedLeads(w: World, path: Bytes, input: Bytes, referer: Option<Bytes>, context: Context, legacy: bool,
                    vod: bool)
    requires Free(path, '?') && HasSecret(w, context.secret)
    ensures LeadsTo(w, ProxyUrl(w, path, input, referer, Some(context), legacy, vod), path, input, referer,
                    Some(context), vod)
  {
    var params := ParamsOf(ProxyUrl(w, path, input, referer, Some(context), legacy, vod));
    PathOf(path, Query(ToPairs(UrlFields(w, input, referer, Some(context), legacy, vod))));
    FieldsRoundTrip(w, path, input, referer, context, legacy, vod);
    SignedParameters(params, w, NormalizeInput(w, input), NormalizeOptional(w, referer), context, legacy, vod);
    SignedVod(params, w, NormalizeInput(w, input), NormalizeOptional(w, referer), context, legacy, vod);
  }

  lemma ProxyUrlLeads(w: World, path: Bytes, input: Bytes, referer: Option<Bytes>, context: Option<Context>,
                      legacy: bool, vod: bool)
    requires Free(path, '?')
    ensures LeadsTo(w, ProxyUrl(w, path, input, referer, context, legacy, vod), path, input, referer, context, vod)
  {
    if context.Some? && HasSecret(w, context.value.secret) {
      SignedLeads(w, path, input, referer, context.value, legacy, vod);
    } else {
      UnsignedLeads(w, path, input, referer, context, legacy, vod);
    }
  }

  /** The grant of the request: its expiry, or four hours from now for one that has none, and its session. */
  ghost predicate GrantPassedOn(request: LiveHlsRequest, secret: Bytes, now: int, context: Option<Context>) {
    && (context.Some? <==> request.trusted)
    && (context.Some? ==>
          && context.value.secret == secret && context.value.binding == request.binding
          && context.value.expiresAt == if request.expiresAt.Some? then request.expiresAt.value else now + 14_400)
  }

  /**
   What a URI is served as: itself if it cannot be resolved; the URL it resolves to as a browser
   loads it, for direct requests and hosts; and else a URL of the proxy that asks for exactly
   what it resolves to, with the referer of the request and its grant.
   */
  ghost predicate RoutedTo(w: World, request: LiveHlsRequest, secret: Bytes, now: int, rules: Rules, path: Bytes,
                           isMedia: bool, vod: bool, uri: string, url: string) {
    var absolute := rules.resolve(uri);
    if absolute.None? then url == uri
    else if request.direct && rules.direct(absolute.value).Some? then url == rules.direct(absolute.value).value
    else
      var referer := if isMedia && rules.omitsReferer(absolute.value) then None else request.referer;
      IsBytes(url) && exists context ::
        GrantPassedOn(request, secret, now, context)
        && LeadsTo(w, AsBytes(url), path, absolute.value, referer, context, vod)
  }

  predicate IsBytes(s: string) {
    forall i :: 0 <= i < |s| ==> s[i] as int < 256
  }

  function AsBytes(s: string): Bytes
    requires IsBytes(s)
  {
    s
  }

  lemma RouteRoutes(w: World, request: LiveHlsRequest, rules: Rules, secret: Bytes, now: int, path: Bytes,
                    isMedia: bool, vod: bool, legacy: bool, uri: string)
    requires Free(path, '?')
    ensures RoutedTo(w, request, secret, now, rules, path, isMedia, vod, uri,
                     Route(w, request, ContextOf(request, secret, now), rules, path, isMedia, vod, legacy, uri))
  {
    var absolute := rules.resolve(uri);
    if absolute.Some? && !(request.direct && rules.direct(absolute.value).Some?) {
      var referer := if isMedia && rules.omitsReferer(absolute.value) then None else request.referer;
      GrantIsPassedOn(w, request, secret, now, path, absolute.value, referer, legacy, vod);
    }
  }

  /** What the proxy URL with the grant of the request is. */
  lemma GrantIsPassedOn(w: World, request: LiveHlsRequest, secret: Bytes, now: int, path: Bytes, input: Bytes,
                        referer: Option<Bytes>, legacy: bool, vod: bool)
    requires Free(path, '?')
    ensures exists context ::
              && GrantPassedOn(request, secret, now, context)
              && LeadsTo(w, ProxyUrl(w, path, input, referer, ContextOf(request, secret, now), legacy, vod), path,
                         input, referer, context, vod)
  {
    var context := ContextOf(request, secret, now);
    ProxyUrlLeads(w, path, input, referer, context, legacy, vod);
    assert GrantPassedOn(request, secret, now, context);
  }

  lemma RouterRoutesUri(w: World, request: LiveHlsRequest, rules: Rules, secret: Bytes, now: int, path: Bytes,
                        isMedia: bool, vod: bool, legacy: bool, uri: string)
    requires Free(path, '?')
    ensures RoutedTo(w, request, secret, now, rules, path, isMedia, vod, uri,
                     Router(w, request, ContextOf(request, secret, now), rules, path, isMedia, vod, legacy)(uri))
  {
    RouteRoutes(w, request, rules, secret, now, path, isMedia, vod, legacy, uri);
  }

  // ----- The request for it ------------------------------------------------------------------

  /** What the parameters of such a URL ask for. */
  lemma LeadsToSource(w: World, url: Bytes, path: Bytes, input: Bytes, referer: Option<Bytes>, context: Option<Context>,
                      vod: bool)
    requires Lawful(w) && LeadsTo(w, url, path, input, referer, context, vod) && w.parseUrl(w.trim(input)).Some?
    ensures Requests.AsksFor(w, ParamsOf(url), NormalizeInput(w, input))
  {
    NormalFormStays(w, w.trim(input));
    var raw := w.trim(Or(Get(ParamsOf(url), PInput)));
    assert w.parseUrl(raw) == Some(NormalizeInput(w, input));
  }

  /**
   The request for what a URI was routed to: its source is what the URI resolves to, its referer
   the one passed on, unless its normal form is too long, and it is not direct.
   */
  lemma RequestForUri(w: World, request: LiveHlsRequest, secret: Bytes, now: int, rules: Rules, path: Bytes,
                      isMedia: bool, vod: bool, uri: string, url: Bytes, sessionMatches: Bytes -> bool, servedAt: int,
                      legacyUntil: Option<int>)
    requires Lawful(w) && RoutedTo(w, request, secret, now, rules, path, isMedia, vod, uri, url)
    requires rules.resolve(uri).Some? && w.parseUrl(w.trim(rules.resolve(uri).value)).Some?
    requires !(request.direct && rules.direct(rules.resolve(uri).value).Some?)
    ensures var x := rules.resolve(uri).value;
            var referer := NormalizeOptional(w, if isMedia && rules.omitsReferer(x) then None else request.referer);
            var response := Handle(w, ParamsOf(url), sessionMatches, secret, servedAt, legacyUntil);
            response.Served? ==>
              && response.request.source == NormalizeInput(w, x) && !response.request.direct
              && (referer.None? || |referer.value| <= 2048 ==> response.request.referer == referer)
              && (response.request.trusted ==> request.trusted && response.request.binding == request.binding)
  {
    var x := rules.resolve(uri).value;
    var referer := if isMedia && rules.omitsReferer(x) then None else request.referer;
    var context :| GrantPassedOn(request, secret, now, context) && LeadsTo(w, url, path, x, referer, context, vod);
    LeadsToSource(w, url, path, x, referer, context, vod);
    RefererSeen(w, referer);
    if Handle(w, ParamsOf(url), sessionMatches, secret, servedAt, legacyUntil).Served? {
      Requests.ServedAs(w, ParamsOf(url), sessionMatches, secret, servedAt, legacyUntil, NormalizeInput(w, x));
    }
  }

  // ----- Masters -----------------------------------------------------------------------------

  /** The line, but for its URI, is the same, and its URI is routed. */
  ghost predicate MasterLineRouted(w: World, request: LiveHlsRequest, secret: Bytes, now: int, rules: Rules,
                                   line: Master.Line, out: Master.Line) {
    var path := if Master.LeadsToPlaylist(line) then PLAYLIST_PATH else RESOURCE_PATH;
    && Master.WithoutUri(out) == Master.WithoutUri(line) && (Master.UriOf(out).Some? <==> Master.UriOf(line).Some?)
    && (Master.UriOf(line).Some? ==>
          RoutedTo(w, request, secret, now, rules, path, false, false, Master.UriOf(line).value,
                   Master.UriOf(out).value))
  }

  /**
   A master is served line by line, capped for trusted, relayed requests unless the provider keeps
   its full ladder: variants, renditions and I-frame playlists go to the playlist handler, all else
   to the resource handler.
   */
  lemma MasterIsServed(w: World, request: LiveHlsRequest, lines: seq<Master.Line>, rules: Rules, secret: Bytes,
                       now: int, legacy: bool)
    ensures var kept := if request.trusted && !request.direct && !rules.fullLadder then Master.Cap(lines) else lines;
            var served := Rewrite(w, request, MasterLines(lines), rules, secret, now, legacy);
            && served.MasterLines? && |served.master| == |kept|
            && forall i :: 0 <= i < |kept| ==>
                 MasterLineRouted(w, request, secret, now, rules, kept[i], served.master[i])
  {
    var kept := if request.trusted && !request.direct && !rules.fullLadder then Master.Cap(lines) else lines;
    var served := Rewrite(w, request, MasterLines(lines), rules, secret, now, legacy);
    MasterRewriteIs(w, request, lines, rules, secret, now, legacy);
    forall i | 0 <= i < |kept| ensures MasterLineRouted(w, request, secret, now, rules, kept[i], served.master[i]) {
      MasterLineIsRouted(w, request, secret, now, rules, legacy, kept[i]);
    }
  }

  function MasterLine(w: World, request: LiveHlsRequest, secret: Bytes, now: int, rules: Rules, legacy: bool,
                      line: Master.Line): Master.Line {
    var context := ContextOf(request, secret, now);
    Master.RewriteLine(line, Router(w, request, context, rules, PLAYLIST_PATH, false, false, legacy),
                       Router(w, request, context, rules, RESOURCE_PATH, false, false, legacy))
  }

  lemma MasterRewriteIs(w: World, request: LiveHlsRequest, lines: seq<Master.Line>, rules: Rules, secret: Bytes,
                        now: int, legacy: bool)
    ensures var kept := if request.trusted && !request.direct && !rules.fullLadder then Master.Cap(lines) else lines;
            var served := Rewrite(w, request, MasterLines(lines), rules, secret, now, legacy);
            && served.MasterLines? && |served.master| == |kept|
            && forall i :: 0 <= i < |kept| ==>
                 served.master[i] == MasterLine(w, request, secret, now, rules, legacy, kept[i])
  {
  }

  lemma RoutedByEither(w: World, request: LiveHlsRequest, secret: Bytes, now: int, rules: Rules, line: Master.Line,
                       p: string -> string, r: string -> string)
    requires Master.UriOf(line).Some? ==>
               var uri := Master.UriOf(line).value;
               if Master.LeadsToPlaylist(line)
               then RoutedTo(w, request, secret, now, rules, PLAYLIST_PATH, false, false, uri, p(uri))
               else RoutedTo(w, request, secret, now, rules, RESOURCE_PATH, false, false, uri, r(uri))
    ensures MasterLineRouted(w, request, secret, now, rules, line, Master.RewriteLine(line, p, r))
  {
    Master.LineRewritten(line, p, r);
  }

  lemma MasterLineIsRouted(w: World, request: LiveHlsRequest, secret: Bytes, now: int, rules: Rules, legacy: bool,
                           line: Master.Line)
    ensures MasterLineRouted(w, request, secret, now, rules, line,
                             MasterLine(w, request, secret, now, rules, legacy, line))
  {
    var context := ContextOf(request, secret, now);
    if Master.UriOf(line).Some? {
      var path := if Master.LeadsToPlaylist(line) then PLAYLIST_PATH else RESOURCE_PATH;
      RouterRoutesUri(w, request, rules, secret, now, path, false, false, legacy, Master.UriOf(line).value);
    }
    RoutedByEither(w, request, secret, now, rules, line,
                   Router(w, request, context, rules, PLAYLIST_PATH, false, false, legacy),
                   Router(w, request, context, rules, RESOURCE_PATH, false, false, legacy));
  }

  // ----- Media playlists -----------------------------------------------------------------------

  ghost predicate MediaLineRouted(w: World, request: LiveHlsRequest, secret: Bytes, now: int, rules: Rules, vod: bool,
                                  line: Media.Line, out: Media.Line) {
    && Lines.WithoutUri(out) == Lines.WithoutUri(line) && (Media.UriOf(out).Some? <==> Media.UriOf(line).Some?)
    && (Media.UriOf(line).Some? ==>
          RoutedTo(w, request, secret, now, rules, RESOURCE_PATH, true, vod, Media.UriOf(line).value,
                   Media.UriOf(out).value))
  }

  ghost predicate AllRouted(w: World, request: LiveHlsRequest, secret: Bytes, now: int, rules: Rules, vod: bool,
                            lines: seq<Media.Line>, out: seq<Media.Line>) {
    |out| == |lines| && forall i :: 0 <= i < |lines| ==>
      MediaLineRouted(w, request, secret, now, rules, vod, lines[i], out[i])
  }

  lemma LinesAreRouted(w: World, request: LiveHlsRequest, secret: Bytes, now: int, rules: Rules, vod: bool,
                       legacy: bool, lines: seq<Media.Line>, out: seq<Media.Line>)
    requires Lines.LineByLine(out, lines, Router(w, request, ContextOf(request, secret, now), rules, RESOURCE_PATH,
                                                 true, vod, legacy))
    ensures AllRouted(w, request, secret, now, rules, vod, lines, out)
  {
    var p := Router(w, request, ContextOf(request, secret, now), rules, RESOURCE_PATH, true, vod, legacy);
    forall i | 0 <= i < |lines| ensures MediaLineRouted(w, request, secret, now, rules, vod, lines[i], out[i]) {
      assert Lines.OnlyUriProxied(out[i], lines[i], p);
      MediaLineIsRouted(w, request, secret, now, rules, vod, legacy, lines[i], out[i]);
    }
  }

  lemma MediaLineIsRouted(w: World, request: LiveHlsRequest, secret: Bytes, now: int, rules: Rules, vod: bool,
                          legacy: bool, line: Media.Line, out: Media.Line)
    requires Lines.OnlyUriProxied(out, line, Router(w, request, ContextOf(request, secret, now), rules, RESOURCE_PATH,
                                                    true, vod, legacy))
    ensures MediaLineRouted(w, request, secret, now, rules, vod, line, out)
  {
    if Media.UriOf(line).Some? {
      RouterRoutesUri(w, request, rules, secret, now, RESOURCE_PATH, true, vod, legacy, Media.UriOf(line).value);
    }
  }

  /** An ended playlist is served line by line, every URI routed with the mark of one that has ended. */
  lemma VodIsServed(w: World, request: LiveHlsRequest, lines: seq<Media.Line>, rules: Rules, secret: Bytes, now: int,
                    legacy: bool)
    requires Media.IsVod(lines)
    ensures var served := Rewrite(w, request, MediaLines(lines), rules, secret, now, legacy);
            served.MediaLines? && AllRouted(w, request, secret, now, rules, true, lines, served.media)
  {
    var context := ContextOf(request, secret, now);
    Lines.ServedVod(lines, Router(w, request, context, rules, RESOURCE_PATH, true, false, legacy),
                    Router(w, request, context, rules, RESOURCE_PATH, true, true, legacy));
    LinesAreRouted(w, request, secret, now, rules, true, legacy, lines,
                   Rewrite(w, request, MediaLines(lines), rules, secret, now, legacy).media);
  }

  /** A rolling one is the header tags, start tag, number and last segments, every URI routed without that mark. */
  lemma RollingIsServed(w: World, request: LiveHlsRequest, lines: seq<Media.Line>, rules: Rules, secret: Bytes,
                        now: int, legacy: bool, seconds: real, base: int, d: nat)
    returns (header: seq<Media.Line>, body: seq<Media.Line>)
    requires !Media.IsVod(lines) && Media.Segments(lines) != [] && d == Media.Dropped(|Media.Segments(lines)|)
    requires seconds == Media.SumDurations(Media.Segments(lines)[d..]) && base == Media.Base(lines)
    ensures AllRouted(w, request, secret, now, rules, false, Media.HeaderTags(lines), header)
    ensures AllRouted(w, request, secret, now, rules, false, Lines.ServedLines(lines, d, |Media.Segments(lines)|), body)
    ensures Rewrite(w, request, MediaLines(lines), rules, secret, now, legacy)
         == MediaLines(Lines.Served(header, seconds, base + d, body))
  {
    var p := Router(w, request, ContextOf(request, secret, now), rules, RESOURCE_PATH, true, false, legacy);
    var tags, kept := Media.HeaderTags(lines), Lines.ServedLines(lines, d, |Media.Segments(lines)|);
    header, body := Media.RewriteLines(tags, p), Media.RewriteLines(kept, p);
    Lines.RewrittenLineByLine(tags, p);
    LinesAreRouted(w, request, secret, now, rules, false, legacy, tags, header);
    Lines.RewrittenLineByLine(kept, p);
    LinesAreRouted(w, request, secret, now, rules, false, legacy, kept, body);
    Lines.ServedPlaylist(lines, p, d, header, body, seconds, base);
  }

  /** One without segments is passed on as it came. */
  lemma EmptyIsServed(w: World, request: LiveHlsRequest, lines: seq<Media.Line>, rules: Rules, secret: Bytes, now: int,
                      legacy: bool)
    requires !Media.IsVod(lines) && Media.Segments(lines) == []
    ensures Rewrite(w, request, MediaLines(lines), rules, secret, now, legacy) == MediaLines(lines)
  {
    Media.WithoutSegments(lines, Router(w, request, ContextOf(request, secret, now), rules, RESOURCE_PATH, true, false,
                                        legacy));
  }
}
