/**
 What the handler makes of arbitrary requests, also those that no URL of the server's own
 leads to: which sources are served, and with what grant.
 */
module LiveRequests {
  import opened Options
  import opened FormUrl
  import opened SignedPayload
  import opened LiveGrants
  import Decimal

  // ----- What authorizes a request ---------------------------------------------------------

  /** The current signature, or where there is none the one under the older name. */
  predicate SignedBy(params: map<Bytes, Bytes>, signature: Bytes) {
    Get(params, PSigV2) == Some(signature) || (Get(params, PSigV2) == None && Get(params, PSig) == Some(signature))
  }

  /** The code, decoded, is that of the message. */
  predicate IsCode(w: World, secret: Bytes, message: Bytes, signature: Bytes) {
    w.decode64(signature) == Some(w.mac(secret, message))
  }

  function Message(source: Bytes, referer: Option<Bytes>, expiresAt: int, binding: Option<Bytes>): Bytes {
    Payload(match binding
            case None => V2(source, Or(referer), expiresAt)
            case Some(b) => Private(source, Or(referer), expiresAt, b))
  }

  /** Authorized until `expiresAt`: that is written as it should be, in its window, and signed. */
  ghost predicate AuthorizedUntil(w: World, source: Bytes, referer: Option<Bytes>, params: map<Bytes, Bytes>,
                                  secret: Bytes, now: int, expiresAt: int) {
    && (Get(params, PSession).Some? ==> ValidBinding(Get(params, PSession).value))
    && Get(params, PExpires) == Some(RenderBytes(expiresAt)) && 0 <= expiresAt <= Decimal.I64_MAX
    && InWindow(expiresAt, now)
    && exists signature ::
         SignedBy(params, signature)
         && IsCode(w, secret, Message(source, referer, expiresAt, Get(params, PSession)), signature)
  }

  /** Authorized by a signature from before there were expiries, while those are still accepted. */
  predicate AuthorizedByLegacy(w: World, source: Bytes, referer: Option<Bytes>, params: map<Bytes, Bytes>,
                               secret: Bytes, now: int, legacyUntil: Option<int>) {
    && Get(params, PSession) == None && Get(params, PExpires) == None
    && legacyUntil.Some? && InWindow(legacyUntil.value, now)
    && Get(params, PSig).Some? && IsCode(w, secret, Payload(V1(source, Or(referer))), Get(params, PSig).value)
  }

  lemma AuthorizedUntilIff(w: World, source: Bytes, referer: Option<Bytes>, params: map<Bytes, Bytes>, secret: Bytes,
                           now: int, legacyUntil: Option<int>, expiresAt: int)
    ensures Authorize(w, source, referer, params, secret, now, legacyUntil) == Some(Some(expiresAt))
            <==> AuthorizedUntil(w, source, referer, params, secret, now, expiresAt)
  {
    if Get(params, PExpires).Some? {
      ExpiryIsCanonical(Get(params, PExpires).value, expiresAt, now);
    }
    var signature := if Get(params, PSigV2).Some? then Get(params, PSigV2) else Get(params, PSig);
    assert signature.Some? ==> SignedBy(params, signature.value);
  }

  lemma AuthorizedByLegacyIff(w: World, source: Bytes, referer: Option<Bytes>, params: map<Bytes, Bytes>, secret: Bytes,
                              now: int, legacyUntil: Option<int>)
    ensures Authorize(w, source, referer, params, secret, now, legacyUntil) == Some(None)
            <==> AuthorizedByLegacy(w, source, referer, params, secret, now, legacyUntil)
  {
  }

  /** The window, without its saturation: from a minute before to six hours and a minute after. */
  lemma WindowIs(expiresAt: int, now: int)
    requires Decimal.I64_MIN <= expiresAt <= Decimal.I64_MAX
    ensures InWindow(expiresAt, now) <==> now - 60 <= expiresAt <= now + 21_660
  {
  }

  /** A legacy signature is accepted at most a minute past its end, and never when none is set. */
  lemma LegacyEnds(w: World, source: Bytes, referer: Option<Bytes>, params: map<Bytes, Bytes>, secret: Bytes,
                   now: int, legacyUntil: Option<int>)
    requires Authorize(w, source, referer, params, secret, now, legacyUntil) == Some(None)
    ensures legacyUntil.Some? && now <= legacyUntil.value + 60
  {
  }

  /** A session binding has 43 characters, each of which a query carries as it is. */
  lemma BindingIsPlain(b: Bytes)
    ensures ValidBinding(b) <==> |b| == 43 && forall i :: 0 <= i < |b| ==> Plain(b[i]) && b[i] != '*' && b[i] != '.'
  {
  }

  /** The normal form of a referer. */
  lemma RefererIff(w: World, value: Bytes, referer: Bytes)
    ensures NormalizeReferer(w, value) == Some(referer)
            <==> && 1 <= |w.trim(value)| <= 2048
                 && (forall i :: 0 <= i < |w.trim(value)| ==> !IsControl(w.trim(value)[i]))
                 && w.parseUrl(w.trim(value)) == Some(referer) && w.isWeb(referer)
  {
  }

  /** The normal form of an input: that of the URL it is, or else the text without white space around it. */
  lemma InputIff(w: World, input: Bytes, normal: Bytes)
    ensures NormalizeInput(w, input) == normal
            <==> w.parseUrl(w.trim(input)) == Some(normal)
                 || (w.parseUrl(w.trim(input)) == None && normal == w.trim(input))
  {
  }

  // ----- The handler -------------------------------------------------------------------------

  /** The input is a URL, or resolves to one against the request's own, and `source` is that URL. */
  ghost predicate AsksFor(w: World, params: map<Bytes, Bytes>, source: Bytes) {
    var raw := w.trim(Or(Get(params, PInput)));
    raw != [] && exists x ::
      && (w.parseUrl(raw) == Some(x) || (w.parseUrl(raw) == None && w.join(raw) == Some(x)))
      && w.parseUrl(x) == Some(source)
  }

  /** Trusted: marked, for a public source, with a secret configured, and authorized. */
  ghost predicate Granted(w: World, source: Bytes, referer: Option<Bytes>, params: map<Bytes, Bytes>, secret: Bytes,
                          now: int, legacyUntil: Option<int>) {
    && Get(params, PEmbed) == Some("1") && w.trim(secret) != [] && w.isPublic(source)
    && (AuthorizedByLegacy(w, source, referer, params, secret, now, legacyUntil)
        || exists expiresAt :: AuthorizedUntil(w, source, referer, params, secret, now, expiresAt))
  }

  lemma GrantedIff(w: World, source: Bytes, referer: Option<Bytes>, params: map<Bytes, Bytes>, secret: Bytes,
                   now: int, legacyUntil: Option<int>)
    ensures Granted(w, source, referer, params, secret, now, legacyUntil)
            <==> Get(params, PEmbed) == Some("1") && HasSecret(w, secret) && w.isPublic(source)
                 && Authorize(w, source, referer, params, secret, now, legacyUntil).Some?
  {
    var granted := Authorize(w, source, referer, params, secret, now, legacyUntil);
    AuthorizedByLegacyIff(w, source, referer, params, secret, now, legacyUntil);
    if granted.Some? && granted.value.Some? {
      AuthorizedUntilIff(w, source, referer, params, secret, now, legacyUntil, granted.value.value);
    }
    forall e | AuthorizedUntil(w, source, referer, params, secret, now, e) ensures granted == Some(Some(e)) {
      AuthorizedUntilIff(w, source, referer, params, secret, now, legacyUntil, e);
    }
  }

  /** A request that asks for nothing, or for no URL, is refused. */
  lemma NoSource(w: World, params: map<Bytes, Bytes>, sessionMatches: Bytes -> bool, secret: Bytes, now: int,
                 legacyUntil: Option<int>)
    requires forall source :: !AsksFor(w, params, source)
    ensures Handle(w, params, sessionMatches, secret, now, legacyUntil) == Refused
  {
    var raw := w.trim(Or(Get(params, PInput)));
    var absolute := if raw == [] then None else if w.parseUrl(raw).Some? then w.parseUrl(raw) else w.join(raw);
    if absolute.Some? && w.parseUrl(absolute.value).Some? {
      assert AsksFor(w, params, w.parseUrl(absolute.value).value);
    }
  }

  /** How the handler ends, given what authorizes the request. */
  lemma HandleEnds(w: World, params: map<Bytes, Bytes>, sessionMatches: Bytes -> bool, secret: Bytes, now: int,
                   legacyUntil: Option<int>, source: Bytes)
    requires AsksFor(w, params, source)
    ensures var referer := NormalizeOptional(w, Get(params, PReferer));
            var authorized := if Get(params, PEmbed) == Some("1") && HasSecret(w, secret) && w.isPublic(source)
                              then Authorize(w, source, referer, params, secret, now, legacyUntil) else None;
            var binding := Get(params, PSession);
            Handle(w, params, sessionMatches, secret, now, legacyUntil)
            == if (if binding.Some? then authorized.Some? && sessionMatches(binding.value)
                   else authorized.Some? || w.isAllowed(source))
               then Served(LiveHlsRequest(source, referer, authorized.Some?,
                                          if authorized.Some? then authorized.value else None,
                                          authorized.Some? && binding.None?
                                              && Get(params, PDirect) == Some("1"), binding))
               else Refused
  {
  }

  /**
   Exactly which requests are served: without a session those for listed sources and the trusted
   ones, with one the trusted ones of that session.
   */
  lemma ServedIff(w: World, params: map<Bytes, Bytes>, sessionMatches: Bytes -> bool, secret: Bytes, now: int,
                  legacyUntil: Option<int>, source: Bytes)
    requires AsksFor(w, params, source)
    ensures var granted := Granted(w, source, NormalizeOptional(w, Get(params, PReferer)), params, secret, now,
                                   legacyUntil);
            Handle(w, params, sessionMatches, secret, now, legacyUntil).Served?
            <==> if Get(params, PSession) == None then w.isAllowed(source) || granted
                 else granted && sessionMatches(Get(params, PSession).value)
  {
    HandleEnds(w, params, sessionMatches, secret, now, legacyUntil, source);
    GrantedIff(w, source, NormalizeOptional(w, Get(params, PReferer)), params, secret, now, legacyUntil);
  }

  /** And as what: the source asked for, the normal referer, and the grant that authorized it and no other. */
  lemma ServedAs(w: World, params: map<Bytes, Bytes>, sessionMatches: Bytes -> bool, secret: Bytes, now: int,
                 legacyUntil: Option<int>, source: Bytes)
    requires AsksFor(w, params, source) && Handle(w, params, sessionMatches, secret, now, legacyUntil).Served?
    ensures var request := Handle(w, params, sessionMatches, secret, now, legacyUntil).request;
            var referer := NormalizeOptional(w, Get(params, PReferer));
            && request.source == source && request.referer == referer && request.binding == Get(params, PSession)
            && (request.trusted <==> Granted(w, source, referer, params, secret, now, legacyUntil))
            && (forall e :: request.expiresAt == Some(e)
                            <==> request.trusted && AuthorizedUntil(w, source, referer, params, secret, now, e))
            && (request.direct
                <==> request.trusted && Get(params, PSession) == None && Get(params, PDirect) == Some("1"))
  {
    var referer := NormalizeOptional(w, Get(params, PReferer));
    HandleEnds(w, params, sessionMatches, secret, now, legacyUntil, source);
    GrantedIff(w, source, referer, params, secret, now, legacyUntil);
    forall e {
      AuthorizedUntilIff(w, source, referer, params, secret, now, legacyUntil, e);
    }
  }

  /** The plain use of the list: without marker, signature and session a listed source is served as it is. */
  lemma ListedIsServedPlain(w: World, params: map<Bytes, Bytes>, sessionMatches: Bytes -> bool, secret: Bytes, now: int,
                            legacyUntil: Option<int>, source: Bytes)
    requires AsksFor(w, params, source) && w.isAllowed(source)
    requires Get(params, PEmbed) == None && Get(params, PSession) == None
    ensures Handle(w, params, sessionMatches, secret, now, legacyUntil)
         == Served(LiveHlsRequest(source, NormalizeOptional(w, Get(params, PReferer)), false, None, false, None))
  {
    HandleEnds(w, params, sessionMatches, secret, now, legacyUntil, source);
  }

  // ----- The text of the signed bytes and of the URLs --------------------------------------

  /** The bytes that are signed, field by field. */
  lemma PayloadText(input: Bytes, referer: Bytes, expiresAt: int, binding: Bytes)
    ensures Payload(V1(input, referer)) == "streamarena-live-hls-v1" + [NUL] + input + [NUL] + referer
    ensures Payload(V2(input, referer, expiresAt))
         == "streamarena-live-hls-v2" + [NUL] + input + [NUL] + referer + [NUL] + RenderBytes(expiresAt)
    ensures Payload(Private(input, referer, expiresAt, binding))
         == "streamarena-live-hls-private-v1" + [NUL] + input + [NUL] + referer + [NUL] + RenderBytes(expiresAt)
            + [NUL] + binding
  {
    var time := RenderBytes(expiresAt);
    JoinThree(CONTEXT_V1, input, referer);
    JoinFour(CONTEXT_V2, input, referer, time);
    JoinFive(CONTEXT_PRIVATE_V1, input, referer, time, binding);
  }

  lemma JoinThree(a: Bytes, b: Bytes, c: Bytes)
    ensures Join([a, b, c], NUL) == a + [NUL] + b + [NUL] + c
  {
    assert [a, b, c][1..] == [b, c] && [b, c][1..] == [c];
    assert Join([b, c], NUL) == b + [NUL] + c;
  }

  lemma JoinFour(a: Bytes, b: Bytes, c: Bytes, d: Bytes)
    ensures Join([a, b, c, d], NUL) == a + [NUL] + b + [NUL] + c + [NUL] + d
  {
    JoinThree(b, c, d);
    assert [a, b, c, d][1..] == [b, c, d];
  }

  lemma JoinFive(a: Bytes, b: Bytes, c: Bytes, d: Bytes, e: Bytes)
    ensures Join([a, b, c, d, e], NUL) == a + [NUL] + b + [NUL] + c + [NUL] + d + [NUL] + e
  {
    JoinFour(b, c, d, e);
    assert [a, b, c, d, e][1..] == [b, c, d, e];
  }
}
