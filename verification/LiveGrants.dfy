/**
 Signed proxy URLs: building them, and reading and authorizing them again. HMAC, base64 and
 URL parsing are arbitrary functions of a `World`; what is needed of them is stated by `Lawful`.
 */
module LiveGrants {
  import opened Options
  import opened FormUrl
  import opened SignedPayload
  import Decimal
  import Text

  const TTL_SECONDS := 14_400
  const MAX_TTL_SECONDS := 21_600
  const CLOCK_SKEW_SECONDS := 60
  const REFERER_MAX_BYTES := 2048

  datatype World = World(
    mac: (Bytes, Bytes) -> Bytes,          // of a secret and a message
    encode64: Bytes -> Bytes,
    decode64: Bytes -> Option<Bytes>,      // of a signature parameter, trimmed
    trim: Bytes -> Bytes,
    parseUrl: Bytes -> Option<Bytes>,      // `Url::parse`, rendered again
    join: Bytes -> Option<Bytes>,          // resolution against the request's own URL
    isWeb: Bytes -> bool,                  // http or https, with a host
    isPublic: Bytes -> bool,               // https with a public host name
    isAllowed: Bytes -> bool)              // on the list served without a signature

  predicate IsControl(b: Byte) {
    b as int < 32 || b as int == 127
  }

  predicate ControlFree(s: Bytes) {
    forall i :: 0 <= i < |s| ==> !IsControl(s[i])
  }

  ghost predicate Lawful(w: World) {
    && (forall b :: w.decode64(w.encode64(b)) == Some(b))
    && w.parseUrl([]) == None
    && (forall x :: w.parseUrl(x).Some? ==>
          var y := w.parseUrl(x).value;
          w.parseUrl(y) == Some(y) && w.trim(y) == y && y != [] && ControlFree(y))
  }

  // ----- Parameters --------------------------------------------------------------------

  datatype Param = PInput | PReferer | PEmbed | PExpires | PSig | PSigV2 | PSession | PVod | PDirect

  function Name(p: Param): Bytes {
    match p
    case PInput => "input"
    case PReferer => "referer"
    case PEmbed => "externalEmbed"
    case PExpires => "expires"
    case PSig => "sig"
    case PSigV2 => "sigV2"
    case PSession => "privateSession"
    case PVod => "vod"
    case PDirect => "directSeg"
  }

  lemma NamesDiffer(p: Param, q: Param)
    ensures Name(p) == Name(q) <==> p == q
  {
    assert "expires"[0] == 'e' && "referer"[0] == 'r';
    assert "sig"[0] == 's' && "vod"[0] == 'v';
    assert "input"[0] == 'i' && "sigV2"[0] == 's';
  }

  datatype Field = Field(param: Param, value: Bytes)

  function ToPairs(fields: seq<Field>): seq<Pair> {
    seq(|fields|, i requires 0 <= i < |fields| => Pair(Name(fields[i].param), fields[i].value))
  }

  function Lookup(fields: seq<Field>, p: Param): Option<Bytes> {
    if fields == [] then None
    else if fields[|fields| - 1].param == p then Some(fields[|fields| - 1].value)
    else Lookup(fields[..|fields| - 1], p)
  }

  function Get(params: map<Bytes, Bytes>, p: Param): Option<Bytes> {
    if Name(p) in params then Some(params[Name(p)]) else None
  }

  lemma {:induction false} GetCollected(fields: seq<Field>, p: Param)
    ensures Get(Collect(ToPairs(fields)), p) == Lookup(fields, p)
  {
    if fields != [] {
      var before, last := fields[..|fields| - 1], fields[|fields| - 1];
      assert ToPairs(fields)[..|fields| - 1] == ToPairs(before);
      NamesDiffer(last.param, p);
      GetCollected(before, p);
    }
  }

  lemma NameIsPlain(p: Param)
    ensures Name(p) != [] && forall i :: 0 <= i < |Name(p)| ==> Plain(Name(p)[i])
  {
  }

  /** Whatever bytes the values have, each parameter is read back as it was written. */
  lemma ParametersRoundTrip(fields: seq<Field>, p: Param)
    requires fields != []
    ensures Get(QueryPairs(Query(ToPairs(fields))), p) == Lookup(fields, p)
  {
    forall i | 0 <= i < |fields| ensures PlainKey(ToPairs(fields)[i]) {
      NameIsPlain(fields[i].param);
    }
    ParseOfQuery(ToPairs(fields));
    GetCollected(fields, p);
  }

  /** Appends a parameter that has a value. */
  function Add(fields: seq<Field>, p: Param, value: Option<Bytes>): seq<Field> {
    if value.Some? then fields + [Field(p, value.value)] else fields
  }

  lemma LookupAdded(fields: seq<Field>, p: Param, value: Option<Bytes>, q: Param)
    ensures Lookup(Add(fields, p, value), q) == if p == q && value.Some? then value else Lookup(fields, q)
  {
    if value.Some? {
      assert (fields + [Field(p, value.value)])[..|fields|] == fields;
    }
  }

  // ----- Building ------------------------------------------------------------------------

  datatype Context = Context(secret: Bytes, expiresAt: int, binding: Option<Bytes>)

  predicate HasSecret(w: World, secret: Bytes) {
    w.trim(secret) != []
  }

  function NormalizeInput(w: World, input: Bytes): Bytes {
    var parsed := w.parseUrl(w.trim(input));
    if parsed.Some? then parsed.value else w.trim(input)
  }

  function NormalizeReferer(w: World, value: Bytes): Option<Bytes> {
    var trimmed := w.trim(value);
    if trimmed == [] || |trimmed| > REFERER_MAX_BYTES || !ControlFree(trimmed) then None
    else
      var parsed := w.parseUrl(trimmed);
      if parsed.Some? && w.isWeb(parsed.value) then parsed else None
  }

  function NormalizeOptional(w: World, referer: Option<Bytes>): Option<Bytes> {
    if referer.Some? then NormalizeReferer(w, referer.value) else None
  }

  function Sign(w: World, secret: Bytes, g: Grant): Bytes {
    w.encode64(w.mac(secret, Payload(g)))
  }

  /** The grant a signature covers: private when there is a session binding. */
  function GrantOf(input: Bytes, referer: Option<Bytes>, expiresAt: int, binding: Option<Bytes>): Grant {
    if binding.Some? then Private(input, Or(referer), expiresAt, binding.value)
    else V2(input, Or(referer), expiresAt)
  }

  function Unsigned(input: Bytes, referer: Option<Bytes>): seq<Field> {
    Add(Add([], PInput, Some(input)), PReferer, referer)
  }

  /** With a session binding there is no legacy signature. */
  function Signed(w: World, input: Bytes, referer: Option<Bytes>, context: Context, legacy: bool): seq<Field> {
    var signature := Sign(w, context.secret, GrantOf(input, referer, context.expiresAt, context.binding));
    var both := legacy && context.binding.None?;
    var dated := Add(Add(Unsigned(input, referer), PEmbed, Some("1")), PExpires, Some(RenderBytes(context.expiresAt)));
    Add(Add(Add(dated, PSig, Some(if both then Sign(w, context.secret, V1(input, Or(referer))) else signature)),
            PSigV2, if both then Some(signature) else None),
        PSession, context.binding)
  }

  /**
   The parameters of a proxy URL, in order; `vod` is appended by the VOD rewriter. The
   flag and the expiry are written as they are, which is how they would be encoded.
   */
  function UrlFields(w: World, input: Bytes, referer: Option<Bytes>, context: Option<Context>, legacy: bool,
                     vod: bool): seq<Field> {
    var seen := NormalizeOptional(w, referer);
    var fields :=
      if context.None? then Unsigned(input, seen)
      else if HasSecret(w, context.value.secret) then Signed(w, NormalizeInput(w, input), seen, context.value, legacy)
      else Unsigned(NormalizeInput(w, input), seen);
    Add(fields, PVod, if vod then Some("1") else None)
  }

  function ProxyUrl(w: World, path: Bytes, input: Bytes, referer: Option<Bytes>, context: Option<Context>,
                    legacy: bool, vod: bool): Bytes {
    path + ['?'] + Query(ToPairs(UrlFields(w, input, referer, context, legacy, vod)))
  }

  /** The parameters the handlers read from a URL: those of what follows the first question mark. */
  function ParamsOf(url: Bytes): map<Bytes, Bytes> {
    var i := Find(url, '?');
    if i == |url| then map[] else QueryPairs(url[i + 1..])
  }

  lemma ParamsOfProxyUrl(w: World, path: Bytes, input: Bytes, referer: Option<Bytes>, context: Option<Context>,
                         legacy: bool, vod: bool, p: Param)
    requires Free(path, '?')
    ensures Get(ParamsOf(ProxyUrl(w, path, input, referer, context, legacy, vod)), p)
         == Lookup(UrlFields(w, input, referer, context, legacy, vod), p)
  {
    var fields := UrlFields(w, input, referer, context, legacy, vod);
    var query := Query(ToPairs(fields));
    FindAfterFree(path, '?', query);
    assert (path + ['?'] + query)[|path| + 1..] == query;
    ParametersRoundTrip(fields, p);
  }

  // ----- Authorizing ---------------------------------------------------------------------

  /** The window in which an expiry is accepted, in saturating arithmetic. */
  predicate InWindow(expiresAt: int, now: int) {
    var earliest := if now - CLOCK_SKEW_SECONDS < Decimal.I64_MIN then Decimal.I64_MIN else now - CLOCK_SKEW_SECONDS;
    var furthest := now + MAX_TTL_SECONDS + CLOCK_SKEW_SECONDS;
    earliest <= expiresAt <= if furthest > Decimal.I64_MAX then Decimal.I64_MAX else furthest
  }

  function ParseExpiry(value: Bytes, now: int): Option<int> {
    if value == [] || !Text.AllDigits(value) || (|value| > 1 && value[0] == '0') then None
    else
      var parsed := Decimal.ParseI64(value);
      if parsed.Some? && InWindow(parsed.value, now) then parsed else None
  }

  predicate ValidBinding(b: Bytes) {
    |b| == 43 && forall i :: 0 <= i < |b| ==>
      'a' <= b[i] <= 'z' || 'A' <= b[i] <= 'Z' || '0' <= b[i] <= '9' || b[i] == '-' || b[i] == '_'
  }

  predicate Verifies(w: World, secret: Bytes, g: Grant, signature: Bytes) {
    w.decode64(signature) == Some(w.mac(secret, Payload(g)))
  }

  /** The expiry of the grant; `Some(None)` for the legacy signature while that is still accepted. */
  function Authorize(w: World, input: Bytes, referer: Option<Bytes>, params: map<Bytes, Bytes>, secret: Bytes,
                     now: int, legacyUntil: Option<int>): Option<Option<int>> {
    var binding := Get(params, PSession);
    if binding.Some? && !ValidBinding(binding.value) then None
    else if Get(params, PExpires).Some? then
      var expiry := ParseExpiry(Get(params, PExpires).value, now);
      var signature := if Get(params, PSigV2).Some? then Get(params, PSigV2) else Get(params, PSig);
      if expiry.Some? && signature.Some? && Verifies(w, secret, GrantOf(input, referer, expiry.value, binding),
                                                     signature.value)
      then Some(expiry) else None
    else if binding.Some? || legacyUntil.None? || !InWindow(legacyUntil.value, now) then None
    else
      var signature := Get(params, PSig);
      if signature.Some? && Verifies(w, secret, V1(input, Or(referer)), signature.value) then Some(None) else None
  }

  datatype Response = Served(request: LiveHlsRequest) | Refused

  function Handle(w: World, params: map<Bytes, Bytes>, sessionMatches: Bytes -> bool, secret: Bytes,
                  now: int, legacyUntil: Option<int>): Response {
    var raw := w.trim(Or(Get(params, PInput)));
    var absolute := if raw == [] then None else if w.parseUrl(raw).Some? then w.parseUrl(raw) else w.join(raw);
    if absolute.None? || w.parseUrl(absolute.value).None? then Refused
    else
      var source := w.parseUrl(absolute.value).value;
      var referer := NormalizeOptional(w, Get(params, PReferer));
      var authorization :=
        if Get(params, PEmbed) != Some("1") || !HasSecret(w, secret) || !w.isPublic(source) then None
        else Authorize(w, source, referer, params, secret, now, legacyUntil);
      var trusted := authorization.Some?;
      var binding := Get(params, PSession);
      if binding.Some? && !(trusted && sessionMatches(binding.value)) then Refused
      else if !w.isAllowed(source) && !trusted then Refused
      else
        var direct := trusted && binding.None? && Get(params, PDirect) == Some("1");
        Served(LiveHlsRequest(source, referer, trusted, if trusted then authorization.value else None, direct, binding))
  }

  // ----- Round trip ------------------------------------------------------------------------

  /** Of all texts only the canonical rendering of an expiry is read as it, in its window; a negative one never. */
  lemma ExpiryIsCanonical(value: Bytes, expiresAt: int, now: int)
    ensures ParseExpiry(value, now) == Some(expiresAt)
            <==> value == RenderBytes(expiresAt) && 0 <= expiresAt <= Decimal.I64_MAX && InWindow(expiresAt, now)
  {
    if value != [] && Text.AllDigits(value) && (|value| == 1 || value[0] != '0') {
      Decimal.RenderOfValue(value);
      assert value[0] in value;
    }
    if value == RenderBytes(expiresAt) {
      Decimal.RenderSign(expiresAt);
      if 0 <= expiresAt <= Decimal.I64_MAX {
        Decimal.ParseOfRender(expiresAt);
      }
    }
  }

  /** A rendered expiry is read back in its window, or not at all. */
  lemma ExpiryRoundTrip(expiresAt: int, now: int)
    ensures ParseExpiry(RenderBytes(expiresAt), now)
         == if 0 <= expiresAt <= Decimal.I64_MAX && InWindow(expiresAt, now) then Some(expiresAt) else None
  {
    ExpiryIsCanonical(RenderBytes(expiresAt), expiresAt, now);
    var parsed := ParseExpiry(RenderBytes(expiresAt), now);
    if parsed.Some? {
      ExpiryIsCanonical(RenderBytes(expiresAt), parsed.value, now);
      Decimal.RenderInjective(expiresAt, parsed.value);
    }
  }

  lemma NormalFormStays(w: World, x: Bytes)
    requires Lawful(w) && w.parseUrl(x).Some?
    ensures var y := w.parseUrl(x).value;
            w.parseUrl(y) == Some(y) && w.trim(y) == y && y != [] && ControlFree(y)
  {
  }

  /** What the request sees of a referer the builder wrote: nothing once its normal form is too long. */
  lemma RefererSeen(w: World, referer: Option<Bytes>)
    requires Lawful(w)
    ensures var written := NormalizeOptional(w, referer);
            NormalizeOptional(w, written)
            == if written.Some? && |written.value| <= REFERER_MAX_BYTES then written else None
  {
    if NormalizeOptional(w, referer).Some? {
      NormalFormStays(w, w.trim(referer.value));
    }
  }

  lemma UnsignedAt(input: Bytes, referer: Option<Bytes>, p: Param)
    ensures Lookup(Unsigned(input, referer), p)
         == if p == PInput then Some(input) else if p == PReferer then referer else None
  {
    LookupAdded([], PInput, Some(input), p);
    LookupAdded(Add([], PInput, Some(input)), PReferer, referer, p);
  }

  /** What a signed URL has for each parameter. */
  function SignedField(w: World, input: Bytes, referer: Option<Bytes>, context: Context, legacy: bool, vod: bool,
                       p: Param): Option<Bytes> {
    var signature := Sign(w, context.secret, GrantOf(input, referer, context.expiresAt, context.binding));
    var both := legacy && context.binding.None?;
    match p
    case PInput => Some(input)
    case PReferer => referer
    case PEmbed => Some("1")
    case PExpires => Some(RenderBytes(context.expiresAt))
    case PSig => Some(if both then Sign(w, context.secret, V1(input, Or(referer))) else signature)
    case PSigV2 => if both then Some(signature) else None
    case PSession => context.binding
    case PVod => if vod then Some("1") else None
    case PDirect => None
  }

  lemma SignedAt(w: World, input: Bytes, referer: Option<Bytes>, context: Context, legacy: bool, p: Param)
    ensures Lookup(Signed(w, input, referer, context, legacy), p)
              == SignedField(w, input, referer, context, legacy, false, p)
  {
    var signature := Sign(w, context.secret, GrantOf(input, referer, context.expiresAt, context.binding));
    var both := legacy && context.binding.None?;
    var first := if both then Sign(w, context.secret, V1(input, Or(referer))) else signature;
    var f0 := Unsigned(input, referer);
    var f1 := Add(f0, PEmbed, Some("1"));
    var f2 := Add(f1, PExpires, Some(RenderBytes(context.expiresAt)));
    var f3 := Add(f2, PSig, Some(first));
    var f4 := Add(f3, PSigV2, if both then Some(signature) else None);
    UnsignedAt(input, referer, p);
    LookupAdded(f0, PEmbed, Some("1"), p);
    LookupAdded(f1, PExpires, Some(RenderBytes(context.expiresAt)), p);
    LookupAdded(f2, PSig, Some(first), p);
    LookupAdded(f3, PSigV2, if both then Some(signature) else None, p);
    LookupAdded(f4, PSession, context.binding, p);
  }

  /** The grant a request for the URL is checked against, given the referer the request sees. */
  function GrantSeen(w: World, input: Bytes, referer: Option<Bytes>, context: Context): Grant {
    GrantOf(NormalizeInput(w, input), NormalizeOptional(w, NormalizeOptional(w, referer)), context.expiresAt,
            context.binding)
  }

  function GrantSigned(w: World, input: Bytes, referer: Option<Bytes>, context: Context): Grant {
    GrantOf(NormalizeInput(w, input), NormalizeOptional(w, referer), context.expiresAt, context.binding)
  }

  predicate Acceptable(context: Context, now: int) {
    && (context.binding.Some? ==> ValidBinding(context.binding.value))
    && 0 <= context.expiresAt <= Decimal.I64_MAX && InWindow(context.expiresAt, now)
  }

  /** The parameters are exactly those of a signed URL with these fields. */
  ghost predicate SignedParams(params: map<Bytes, Bytes>, w: World, input: Bytes, referer: Option<Bytes>,
                               context: Context, legacy: bool, vod: bool) {
    forall p: Param :: Get(params, p) == SignedField(w, input, referer, context, legacy, vod, p)
  }

  lemma SignedUrlFieldsAt(w: World, input: Bytes, referer: Option<Bytes>, context: Context, legacy: bool, vod: bool,
                          p: Param)
    requires HasSecret(w, context.secret)
    ensures Lookup(UrlFields(w, input, referer, Some(context), legacy, vod), p)
         == SignedField(w, NormalizeInput(w, input), NormalizeOptional(w, referer), context, legacy, vod, p)
  {
    var url, seen := NormalizeInput(w, input), NormalizeOptional(w, referer);
    LookupAdded(Signed(w, url, seen, context, legacy), PVod, if vod then Some("1") else None, p);
    SignedAt(w, url, seen, context, legacy, p);
  }

  /** Reading a signed URL gives back exactly the fields it was built from. */
  lemma FieldsRoundTrip(w: World, path: Bytes, input: Bytes, referer: Option<Bytes>, context: Context, legacy: bool,
                        vod: bool)
    requires HasSecret(w, context.secret) && Free(path, '?')
    ensures SignedParams(ParamsOf(ProxyUrl(w, path, input, referer, Some(context), legacy, vod)), w,
                         NormalizeInput(w, input), NormalizeOptional(w, referer), context, legacy, vod)
  {
    var params := ParamsOf(ProxyUrl(w, path, input, referer, Some(context), legacy, vod));
    forall p: Param
      ensures Get(params, p)
                == SignedField(w, NormalizeInput(w, input), NormalizeOptional(w, referer), context, legacy, vod, p)
    {
      ParamsOfProxyUrl(w, path, input, referer, Some(context), legacy, vod, p);
      SignedUrlFieldsAt(w, input, referer, context, legacy, vod, p);
    }
  }

  /** The parameters that count for authorization. */
  lemma SignedParameters(params: map<Bytes, Bytes>, w: World, input: Bytes, referer: Option<Bytes>, context: Context,
                         legacy: bool, vod: bool)
    requires SignedParams(params, w, input, referer, context, legacy, vod)
    ensures Get(params, PInput) == Some(input) && Get(params, PReferer) == referer && Get(params, PEmbed) == Some("1")
    ensures Get(params, PSession) == context.binding && Get(params, PExpires) == Some(RenderBytes(context.expiresAt))
    ensures Get(params, PDirect) == None
    ensures (if Get(params, PSigV2).Some? then Get(params, PSigV2) else Get(params, PSig))
         == Some(Sign(w, context.secret, GrantOf(input, referer, context.expiresAt, context.binding)))
  {
  }

  /** Authorizing signed fields, with the referer as the request sees it. */
  lemma AuthorizeSigned(w: World, params: map<Bytes, Bytes>, input: Bytes, written: Option<Bytes>, seen: Option<Bytes>,
                        context: Context, legacy: bool, vod: bool, now: int, legacyUntil: Option<int>)
    requires Lawful(w) && SignedParams(params, w, input, written, context, legacy, vod)
    ensures Authorize(w, input, seen, params, context.secret, now, legacyUntil)
         == if Acceptable(context, now)
               && w.mac(context.secret, Payload(GrantOf(input, seen, context.expiresAt, context.binding)))
                  == w.mac(context.secret, Payload(GrantOf(input, written, context.expiresAt, context.binding)))
            then Some(Some(context.expiresAt)) else None
  {
    SignedParameters(params, w, input, written, context, legacy, vod);
    AuthorizeParameters(w, params, input, seen, context,
                        Sign(w, context.secret, GrantOf(input, written, context.expiresAt, context.binding)),
                        now, legacyUntil);
  }

  lemma AuthorizeParameters(w: World, params: map<Bytes, Bytes>, input: Bytes, seen: Option<Bytes>, context: Context,
                            signature: Bytes, now: int, legacyUntil: Option<int>)
    requires Get(params, PSession) == context.binding && Get(params, PExpires) == Some(RenderBytes(context.expiresAt))
    requires (if Get(params, PSigV2).Some? then Get(params, PSigV2) else Get(params, PSig)) == Some(signature)
    ensures Authorize(w, input, seen, params, context.secret, now, legacyUntil)
         == if Acceptable(context, now)
               && Verifies(w, context.secret, GrantOf(input, seen, context.expiresAt, context.binding), signature)
            then Some(Some(context.expiresAt)) else None
  {
    ExpiryRoundTrip(context.expiresAt, now);
  }

  /**
   A signed URL is authorized, for its own expiry, exactly in the window of that expiry,
   with the legacy signature and `vod` or without, if the request sees the grant that was
   signed (or one whose payload has the same code).
   */
  lemma AuthorizeRoundTrip(w: World, path: Bytes, input: Bytes, referer: Option<Bytes>, context: Context,
                           legacy: bool, vod: bool, now: int, legacyUntil: Option<int>)
    requires Lawful(w) && HasSecret(w, context.secret) && Free(path, '?')
    ensures var params := ParamsOf(ProxyUrl(w, path, input, referer, Some(context), legacy, vod));
            Authorize(w, NormalizeInput(w, input), NormalizeOptional(w, Get(params, PReferer)), params,
                      context.secret, now, legacyUntil)
            == if Acceptable(context, now)
                  && w.mac(context.secret, Payload(GrantSeen(w, input, referer, context)))
                     == w.mac(context.secret, Payload(GrantSigned(w, input, referer, context)))
               then Some(Some(context.expiresAt)) else None
  {
    var params := ParamsOf(ProxyUrl(w, path, input, referer, Some(context), legacy, vod));
    var url, written := NormalizeInput(w, input), NormalizeOptional(w, referer);
    FieldsRoundTrip(w, path, input, referer, context, legacy, vod);
    assert Get(params, PReferer) == written;
    AuthorizeSigned(w, params, url, written, NormalizeOptional(w, written), context, legacy, vod, now, legacyUntil);
  }

  /** The grants differ exactly when the referer has a normal form of more than 2048 bytes. */
  lemma SameGrant(w: World, input: Bytes, referer: Option<Bytes>, context: Context)
    requires Lawful(w)
    ensures var written := NormalizeOptional(w, referer);
            GrantSeen(w, input, referer, context) == GrantSigned(w, input, referer, context)
            <==> written.None? || |written.value| <= REFERER_MAX_BYTES
  {
    RefererSeen(w, referer);
    if NormalizeOptional(w, referer).Some? {
      NormalFormStays(w, w.trim(referer.value));
    }
  }

  lemma SignedIsNulFree(w: World, input: Bytes, referer: Option<Bytes>, context: Context)
    requires Lawful(w) && w.parseUrl(w.trim(input)).Some?
    requires context.binding.Some? ==> ValidBinding(context.binding.value)
    ensures NulFree(GrantSigned(w, input, referer, context)) && NulFree(GrantSeen(w, input, referer, context))
  {
    NormalFormStays(w, w.trim(input));
    RefererSeen(w, referer);
    if NormalizeOptional(w, referer).Some? {
      NormalFormStays(w, w.trim(referer.value));
    }
  }

  /**
   For URLs, the bytes that are signed and those that are checked agree exactly when the
   referer's normal form has at most 2048 bytes: a longer one is signed, but not read back.
   */
  lemma SamePayload(w: World, input: Bytes, referer: Option<Bytes>, context: Context)
    requires Lawful(w) && w.parseUrl(w.trim(input)).Some?
    requires context.binding.Some? ==> ValidBinding(context.binding.value)
    ensures var written := NormalizeOptional(w, referer);
            Payload(GrantSeen(w, input, referer, context)) == Payload(GrantSigned(w, input, referer, context))
            <==> written.None? || |written.value| <= REFERER_MAX_BYTES
  {
    SignedIsNulFree(w, input, referer, context);
    PayloadInjective(GrantSeen(w, input, referer, context), GrantSigned(w, input, referer, context));
    SameGrant(w, input, referer, context);
  }

  lemma HandleTrusted(w: World, params: map<Bytes, Bytes>, url: Bytes, referer: Option<Bytes>, context: Context,
                      sessionMatches: Bytes -> bool, now: int, legacyUntil: Option<int>)
    requires HasSecret(w, context.secret) && w.trim(url) == url && url != [] && w.parseUrl(url) == Some(url)
    requires w.isPublic(url)
    requires Get(params, PInput) == Some(url) && Get(params, PReferer) == referer
    requires NormalizeOptional(w, referer) == referer
    requires Get(params, PEmbed) == Some("1") && Get(params, PSession) == context.binding
    requires Get(params, PDirect) == None
    ensures Handle(w, params, sessionMatches, context.secret, now, legacyUntil)
            == Served(LiveHlsRequest(url, referer, true, Some(context.expiresAt), false, context.binding))
            <==> Authorize(w, url, referer, params, context.secret, now, legacyUntil) == Some(Some(context.expiresAt))
                 && (context.binding.Some? ==> sessionMatches(context.binding.value))
  {
  }

  lemma HandleSigned(w: World, params: map<Bytes, Bytes>, url: Bytes, referer: Option<Bytes>, context: Context,
                     legacy: bool, vod: bool, sessionMatches: Bytes -> bool, now: int, legacyUntil: Option<int>)
    requires Lawful(w) && HasSecret(w, context.secret) && SignedParams(params, w, url, referer, context, legacy, vod)
    requires w.trim(url) == url && url != [] && w.parseUrl(url) == Some(url) && w.isPublic(url)
    requires NormalizeOptional(w, referer) == referer
    ensures Handle(w, params, sessionMatches, context.secret, now, legacyUntil)
            == Served(LiveHlsRequest(url, referer, true, Some(context.expiresAt), false, context.binding))
            <==> Acceptable(context, now) && (context.binding.Some? ==> sessionMatches(context.binding.value))
  {
    AuthorizeSigned(w, params, url, referer, referer, context, legacy, vod, now, legacyUntil);
    SignedParameters(params, w, url, referer, context, legacy, vod);
    HandleTrusted(w, params, url, referer, context, sessionMatches, now, legacyUntil);
  }

  /** The handler serves a signed URL as it was signed, in its window and to its session. */
  lemma SignedUrlIsServed(w: World, path: Bytes, input: Bytes, referer: Option<Bytes>, context: Context, legacy: bool,
                          vod: bool, sessionMatches: Bytes -> bool, now: int, legacyUntil: Option<int>)
    requires Lawful(w) && HasSecret(w, context.secret) && Free(path, '?')
    requires w.parseUrl(w.trim(input)).Some? && w.isPublic(NormalizeInput(w, input))
    requires var written := NormalizeOptional(w, referer); written.None? || |written.value| <= REFERER_MAX_BYTES
    ensures var params := ParamsOf(ProxyUrl(w, path, input, referer, Some(context), legacy, vod));
            var served := LiveHlsRequest(NormalizeInput(w, input), NormalizeOptional(w, referer), true,
                                         Some(context.expiresAt), false, context.binding);
            Handle(w, params, sessionMatches, context.secret, now, legacyUntil) == Served(served)
            <==> Acceptable(context, now) && (context.binding.Some? ==> sessionMatches(context.binding.value))
  {
    var params := ParamsOf(ProxyUrl(w, path, input, referer, Some(context), legacy, vod));
    var url, written := NormalizeInput(w, input), NormalizeOptional(w, referer);
    FieldsRoundTrip(w, path, input, referer, context, legacy, vod);
    RefererSeen(w, referer);
    NormalFormStays(w, w.trim(input));
    HandleSigned(w, params, url, written, context, legacy, vod, sessionMatches, now, legacyUntil);
  }

  /** Still trusted, for its own expiry, exactly under these conditions. */
  lemma TrustedIff(w: World, path: Bytes, input: Bytes, referer: Option<Bytes>, context: Context, legacy: bool,
                   vod: bool, sessionMatches: Bytes -> bool, now: int, legacyUntil: Option<int>)
    requires Lawful(w) && HasSecret(w, context.secret) && Free(path, '?') && w.parseUrl(w.trim(input)).Some?
    ensures var params := ParamsOf(ProxyUrl(w, path, input, referer, Some(context), legacy, vod));
            var response := Handle(w, params, sessionMatches, context.secret, now, legacyUntil);
            response.Served? && response.request.trusted
            <==> && w.isPublic(NormalizeInput(w, input)) && Acceptable(context, now)
                 && (context.binding.Some? ==> sessionMatches(context.binding.value))
                 && w.mac(context.secret, Payload(GrantSeen(w, input, referer, context)))
                    == w.mac(context.secret, Payload(GrantSigned(w, input, referer, context)))
  {
    var params := ParamsOf(ProxyUrl(w, path, input, referer, Some(context), legacy, vod));
    FieldsRoundTrip(w, path, input, referer, context, legacy, vod);
    AuthorizeRoundTrip(w, path, input, referer, context, legacy, vod, now, legacyUntil);
    NormalFormStays(w, w.trim(input));
    HandledTrust(w, params, NormalizeInput(w, input), NormalizeOptional(w, referer), context, legacy, vod,
                 sessionMatches, now, legacyUntil);
  }

  lemma HandledTrust(w: World, params: map<Bytes, Bytes>, url: Bytes, referer: Option<Bytes>, context: Context,
                     legacy: bool, vod: bool, sessionMatches: Bytes -> bool, now: int, legacyUntil: Option<int>)
    requires HasSecret(w, context.secret) && SignedParams(params, w, url, referer, context, legacy, vod)
    requires w.trim(url) == url && url != [] && w.parseUrl(url) == Some(url)
    ensures var response := Handle(w, params, sessionMatches, context.secret, now, legacyUntil);
            response.Served? && response.request.trusted
            <==> && w.isPublic(url) && (context.binding.Some? ==> sessionMatches(context.binding.value))
                 && Authorize(w, url, NormalizeOptional(w, Get(params, PReferer)), params, context.secret, now,
                              legacyUntil).Some?
  {
    SignedParameters(params, w, url, referer, context, legacy, vod);
  }

  // ----- A referer that outgrows its limit ------------------------------------------------

  /** Percent-encodes everything but visible ASCII, as URL parsing does to a path. */
  function Escape(s: Bytes): Bytes {
    if s == [] then []
    else (if 33 <= s[0] as int <= 126 then [s[0]] else ['%', Hex(s[0] as int / 16), Hex(s[0] as int % 16)])
         + Escape(s[1..])
  }

  predicate Visible(s: Bytes) {
    forall i :: 0 <= i < |s| ==> 33 <= s[i] as int <= 126
  }

  lemma {:induction false} EscapeIsVisible(s: Bytes)
    ensures Visible(Escape(s)) && (s != [] ==> Escape(s) != [])
  {
    if s != [] {
      EscapeIsVisible(s[1..]);
    }
  }

  lemma {:induction false} EscapeOfVisible(s: Bytes)
    requires Visible(s)
    ensures Escape(s) == s
  {
    if s != [] {
      EscapeOfVisible(s[1..]);
    }
  }

  /** A small world in which every non-empty text parses as a URL; the code is the message itself. */
  function EscapingWorld(isPublic: Bytes -> bool, isAllowed: Bytes -> bool): World {
    World((secret, message) => message, b => b, b => Some(b), x => x,
          x => if x == [] then None else Some(Escape(x)), x => None, x => true, isPublic, isAllowed)
  }

  lemma EscapingWorldIsLawful(isPublic: Bytes -> bool, isAllowed: Bytes -> bool)
    ensures Lawful(EscapingWorld(isPublic, isAllowed))
  {
    var w := EscapingWorld(isPublic, isAllowed);
    forall x | w.parseUrl(x).Some?
      ensures var y := w.parseUrl(x).value;
              w.parseUrl(y) == Some(y) && w.trim(y) == y && y != [] && ControlFree(y)
    {
      EscapeIsVisible(x);
      EscapeOfVisible(Escape(x));
    }
  }

  function Accented(n: nat): (s: Bytes)
    ensures |s| == n
  {
    if n == 0 then [] else [0xE9 as char] + Accented(n - 1)
  }

  lemma {:induction false} EscapedAccents(n: nat)
    ensures |Escape(Accented(n))| == 3 * n && ControlFree(Accented(n))
  {
    if n > 0 {
      EscapedAccents(n - 1);
    }
  }

  /** Where different messages have different codes, a URL signed with a long referer is never authorized. */
  lemma LongRefererIsNotReadBack(w: World, path: Bytes, input: Bytes, referer: Option<Bytes>, context: Context,
                                 legacy: bool, vod: bool, now: int, legacyUntil: Option<int>)
    requires Lawful(w) && HasSecret(w, context.secret) && Free(path, '?') && w.parseUrl(w.trim(input)).Some?
    requires forall m, n :: w.mac(context.secret, m) == w.mac(context.secret, n) ==> m == n
    requires var written := NormalizeOptional(w, referer); written.Some? && |written.value| > REFERER_MAX_BYTES
    ensures var params := ParamsOf(ProxyUrl(w, path, input, referer, Some(context), legacy, vod));
            Authorize(w, NormalizeInput(w, input), NormalizeOptional(w, Get(params, PReferer)), params,
                      context.secret, now, legacyUntil) == None
  {
    AuthorizeRoundTrip(w, path, input, referer, context, legacy, vod, now, legacyUntil);
    if context.binding.Some? ==> ValidBinding(context.binding.value) {
      SamePayload(w, input, referer, context);
    }
  }

  /** Such a referer: 700 accented letters, which is within the limit. */
  lemma LongRefererExample(isPublic: Bytes -> bool, isAllowed: Bytes -> bool, n: nat)
    requires 683 <= n <= REFERER_MAX_BYTES
    ensures var w := EscapingWorld(isPublic, isAllowed);
            var written := NormalizeOptional(w, Some(Accented(n)));
            && Lawful(w) && written.Some? && |written.value| > REFERER_MAX_BYTES
            && forall secret, m, m' :: w.mac(secret, m) == w.mac(secret, m') ==> m == m'
  {
    EscapingWorldIsLawful(isPublic, isAllowed);
    EscapedAccents(n);
  }

  // ----- The expiry of new public grants ---------------------------------------------------

  const WINDOW_SECONDS := 900

  /** Rounded down to a quarter of an hour; `div_euclid` is the division here. */
  function PublicExpiry(now: int): int {
    now / WINDOW_SECONDS * WINDOW_SECONDS + TTL_SECONDS
  }

  /**
   All grants of one quarter of an hour share their expiry, which is never over four hours away nor
   under three and three quarters.
   */
  lemma PublicExpirySteps(now: int, later: int)
    requires now <= later
    ensures now + 13_500 < PublicExpiry(now) <= now + 14_400
    ensures PublicExpiry(now) <= PublicExpiry(later)
    ensures PublicExpiry(now) == PublicExpiry(later) <==> now / WINDOW_SECONDS == later / WINDOW_SECONDS
    ensures Decimal.I64_MIN + CLOCK_SKEW_SECONDS <= now <= Decimal.I64_MAX - MAX_TTL_SECONDS - CLOCK_SKEW_SECONDS
            ==> InWindow(PublicExpiry(now), now)
  {
  }
}
