/**
 The byte strings the server derives from a request's fields: the payload that is signed,
 fields separated by NUL, and the playlist cache key, fields separated by a bar.
 */
module SignedPayload {
  import opened Options
  import opened FormUrl
  import Decimal

  const NUL: Byte := 0 as char

  /** The fields of the three kinds of signature. */
  datatype Grant =
    | V1(input: Bytes, referer: Bytes)
    | V2(input: Bytes, referer: Bytes, expiresAt: int)
    | Private(input: Bytes, referer: Bytes, expiresAt: int, binding: Bytes)

  const CONTEXT_V1: Bytes := "streamarena-live-hls-v1"
  const CONTEXT_V2: Bytes := "streamarena-live-hls-v2"
  const CONTEXT_PRIVATE_V1: Bytes := "streamarena-live-hls-private-v1"

  /** The decimal rendering as bytes. */
  function RenderBytes(n: int): (s: Bytes)
    ensures s == Decimal.RenderInt(n)
  {
    var s := Decimal.RenderInt(n);
    assert forall i :: 0 <= i < |s| ==> s[i] as int < 256 by {
      Decimal.RenderSign(n);
      var digits := Decimal.Render(if n < 0 then -n else n);
      assert forall i :: 0 <= i < |digits| ==> digits[i] in digits;
      if n < 0 {
        assert s[1..] == digits;
      }
    }
    s
  }

  function Fields(g: Grant): seq<Bytes> {
    match g
    case V1(input, referer) => [CONTEXT_V1, input, referer]
    case V2(input, referer, expiresAt) => [CONTEXT_V2, input, referer, RenderBytes(expiresAt)]
    case Private(input, referer, expiresAt, binding) =>
      [CONTEXT_PRIVATE_V1, input, referer, RenderBytes(expiresAt), binding]
  }

  function Join(fields: seq<Bytes>, separator: Byte): Bytes {
    if fields == [] then []
    else if |fields| == 1 then fields[0]
    else fields[0] + [separator] + Join(fields[1..], separator)
  }

  function Payload(g: Grant): Bytes {
    Join(Fields(g), NUL)
  }

  lemma {:induction false} JoinInjective(a: seq<Bytes>, b: seq<Bytes>, separator: Byte)
    requires a != [] && b != [] && Join(a, separator) == Join(b, separator)
    requires forall i :: 0 <= i < |a| ==> Free(a[i], separator)
    requires forall i :: 0 <= i < |b| ==> Free(b[i], separator)
    ensures a == b
  {
    var joined := Join(a, separator);
    if |a| == 1 {
      FindAfterFree(a[0], separator, []);
    } else {
      FindAfterFree(a[0], separator, Join(a[1..], separator));
    }
    if |b| == 1 {
      FindAfterFree(b[0], separator, []);
    } else {
      FindAfterFree(b[0], separator, Join(b[1..], separator));
    }
    var i := Find(joined, separator);
    assert joined[..i] == a[0] == b[0];
    if i < |joined| {
      assert joined[i + 1..] == Join(a[1..], separator) == Join(b[1..], separator);
      JoinInjective(a[1..], b[1..], separator);
      assert a == [a[0]] + a[1..] && b == [b[0]] + b[1..];
    } else {
      assert a == [a[0]] && b == [b[0]];
    }
  }

  predicate NulFree(g: Grant) {
    Free(g.input, NUL) && Free(g.referer, NUL) && (g.Private? ==> Free(g.binding, NUL))
  }

  lemma RenderIsFree(n: int, b: Byte)
    requires b == NUL || b == '|'
    ensures Free(RenderBytes(n), b)
  {
    var s := RenderBytes(n);
    Decimal.RenderSign(n);
    var digits := Decimal.Render(if n < 0 then -n else n);
    assert forall i :: 0 <= i < |digits| ==> digits[i] in digits;
    if n < 0 {
      assert forall i :: 1 <= i < |s| ==> s[i] == digits[i - 1] by {
        assert s[1..] == digits;
      }
    }
  }

  lemma FieldsAreFree(g: Grant)
    requires NulFree(g)
    ensures forall i :: 0 <= i < |Fields(g)| ==> Free(Fields(g)[i], NUL)
  {
    if !g.V1? {
      RenderIsFree(g.expiresAt, NUL);
    }
  }

  /** Over NUL-free fields equal payloads mean equal kind, input, referer, expiry and binding. */
  lemma PayloadInjective(g: Grant, h: Grant)
    requires NulFree(g) && NulFree(h)
    ensures Payload(g) == Payload(h) <==> g == h
  {
    if Payload(g) == Payload(h) {
      FieldsAreFree(g);
      FieldsAreFree(h);
      JoinInjective(Fields(g), Fields(h), NUL);
      var f := Fields(g);
      assert f[1] == g.input == h.input && f[2] == g.referer == h.referer;
      assert |f| == |Fields(h)|;
      if !g.V1? {
        assert f[3] == RenderBytes(g.expiresAt) == RenderBytes(h.expiresAt);
        Decimal.RenderInjective(g.expiresAt, h.expiresAt);
      }
      if g.Private? {
        assert f[4] == g.binding == h.binding;
      }
    }
  }

  // ----- The playlist cache key --------------------------------------------------------

  /** A request for a playlist or resource, as the handlers see it: all that a rewritten playlist depends on. */
  datatype LiveHlsRequest = LiveHlsRequest(
    source: Bytes, referer: Option<Bytes>, trusted: bool, expiresAt: Option<int>, direct: bool, binding: Option<Bytes>)

  function Or(o: Option<Bytes>): Bytes {
    if o.Some? then o.value else []
  }

  function Flag(b: bool): Bytes {
    if b then ['1'] else ['0']
  }

  function Bar(a: Bytes, field: Bytes): Bytes {
    a + ['|'] + field
  }

  function ExpiryOr0(c: LiveHlsRequest): int {
    if c.expiresAt.Some? then c.expiresAt.value else 0
  }

  function CacheKey(c: LiveHlsRequest): Bytes {
    Bar(Bar(Bar(Bar(Bar(c.source, Or(c.referer)), Flag(c.trusted)), RenderBytes(ExpiryOr0(c))), Flag(c.direct)),
        Or(c.binding))
  }

  lemma LastField(a: Bytes, f: Bytes, b: Bytes, g: Bytes)
    requires Bar(a, f) == Bar(b, g) && Free(f, '|') && Free(g, '|')
    ensures a == b && f == g
  {
    var s := Bar(a, f);
    assert s[|a|] == '|' && Bar(b, g)[|b|] == '|';
    assert forall i :: |a| < i < |s| ==> s[i] == f[i - |a| - 1];
    assert forall i :: |b| < i < |s| ==> Bar(b, g)[i] == g[i - |b| - 1];
    assert |a| == |b|;
    assert s[..|a|] == a && Bar(b, g)[..|a|] == b;
    assert s[|a| + 1..] == f && Bar(b, g)[|a| + 1..] == g;
  }

  /**
   Whatever bars the source and the referer contain, requests that share a cached playlist
   agree on trust, expiry, directness and session binding (an absent expiry counting as 0,
   an absent binding as empty), and on source and referer when these have no bars.
   */
  lemma CacheKeySeparatesGrants(c: LiveHlsRequest, d: LiveHlsRequest)
    requires Free(Or(c.binding), '|') && Free(Or(d.binding), '|') && CacheKey(c) == CacheKey(d)
    ensures c.trusted == d.trusted && c.direct == d.direct && Or(c.binding) == Or(d.binding)
    ensures ExpiryOr0(c) == ExpiryOr0(d)
    ensures Free(Or(c.referer), '|') && Free(Or(d.referer), '|')
            ==> c.source == d.source && Or(c.referer) == Or(d.referer)
  {
    var ec, ed := RenderBytes(ExpiryOr0(c)), RenderBytes(ExpiryOr0(d));
    var c1, d1 := Bar(c.source, Or(c.referer)), Bar(d.source, Or(d.referer));
    var c2, d2 := Bar(c1, Flag(c.trusted)), Bar(d1, Flag(d.trusted));
    var c3, d3 := Bar(c2, ec), Bar(d2, ed);
    var c4, d4 := Bar(c3, Flag(c.direct)), Bar(d3, Flag(d.direct));
    RenderIsFree(ExpiryOr0(c), '|');
    RenderIsFree(ExpiryOr0(d), '|');
    LastField(c4, Or(c.binding), d4, Or(d.binding));
    LastField(c3, Flag(c.direct), d3, Flag(d.direct));
    LastField(c2, ec, d2, ed);
    LastField(c1, Flag(c.trusted), d1, Flag(d.trusted));
    Decimal.RenderInjective(ExpiryOr0(c), ExpiryOr0(d));
    if Free(Or(c.referer), '|') && Free(Or(d.referer), '|') {
      LastField(c.source, Or(c.referer), d.source, Or(d.referer));
    }
  }

  lemma SamePlaceSameKey(c: LiveHlsRequest, source: Bytes, referer: Bytes)
    requires Bar(source, referer) == Bar(c.source, Or(c.referer))
    ensures CacheKey(c.(source := source, referer := Some(referer))) == CacheKey(c)
  {
  }

  lemma BarIsAssociative(a: Bytes, b: Bytes, c: Bytes)
    ensures Bar(a, Bar(b, c)) == Bar(Bar(a, b), c)
  {
  }

  lemma SplitAtBar(s: Bytes, i: nat)
    requires i < |s| && s[i] == '|'
    ensures s == Bar(s[..i], s[i + 1..])
  {
  }

  lemma OnlyBarDecides(source: Bytes, referer: Bytes, source': Bytes, referer': Bytes)
    requires Free(source, '|') && Free(referer, '|') && Bar(source, referer) == Bar(source', referer')
    ensures source == source' && referer == referer'
  {
    var s := Bar(source, referer);
    assert s[|source'|] == '|' && s[|source|] == '|';
    assert forall i :: 0 <= i < |source| ==> s[i] == source[i];
    assert forall i :: |source| < i < |s| ==> s[i] == referer[i - |source| - 1];
    assert s[..|source|] == source && s[|source| + 1..] == referer;
    assert Bar(source', referer')[..|source'|] == source' && Bar(source', referer')[|source'| + 1..] == referer';
  }

  lemma SameKeySamePlace(c: LiveHlsRequest, d: LiveHlsRequest)
    requires Free(Or(c.binding), '|') && Free(Or(d.binding), '|') && CacheKey(c) == CacheKey(d)
    ensures Bar(c.source, Or(c.referer)) == Bar(d.source, Or(d.referer))
  {
    var ec, ed := RenderBytes(ExpiryOr0(c)), RenderBytes(ExpiryOr0(d));
    var c1, d1 := Bar(c.source, Or(c.referer)), Bar(d.source, Or(d.referer));
    var c2, d2 := Bar(c1, Flag(c.trusted)), Bar(d1, Flag(d.trusted));
    RenderIsFree(ExpiryOr0(c), '|');
    RenderIsFree(ExpiryOr0(d), '|');
    LastField(Bar(Bar(c2, ec), Flag(c.direct)), Or(c.binding), Bar(Bar(d2, ed), Flag(d.direct)), Or(d.binding));
    LastField(Bar(c2, ec), Flag(c.direct), Bar(d2, ed), Flag(d.direct));
    LastField(c2, ec, d2, ed);
    LastField(c1, Flag(c.trusted), d1, Flag(d.trusted));
  }

  /** Two requests for different sources, with different referers, that share a cached playlist. */
  lemma CacheKeyCollides(a: Bytes, b: Bytes, c: Bytes, request: LiveHlsRequest)
    ensures var first := request.(source := a, referer := Some(Bar(b, c)));
            var second := request.(source := Bar(a, b), referer := Some(c));
            CacheKey(first) == CacheKey(second) && first.source != second.source && first.referer != second.referer
  {
    BarIsAssociative(a, b, c);
    SamePlaceSameKey(request.(source := a, referer := Some(Bar(b, c))), Bar(a, b), c);
    assert |Bar(a, b)| > |a| && |Bar(b, c)| > |c|;
  }

  lemma BarOfLiterals()
    ensures Bar("https://a.b/?x", "https://c.d/?y") == "https://a.b/?x|https://c.d/?y"
    ensures Bar("https://c.d/?y", "https://e.f/") == "https://c.d/?y|https://e.f/"
  {
  }

  /** The collision on two URLs with queries. */
  lemma CacheKeyCollision(request: LiveHlsRequest)
    ensures var first := request.(source := "https://a.b/?x", referer := Some("https://c.d/?y|https://e.f/"));
            var second := request.(source := "https://a.b/?x|https://c.d/?y", referer := Some("https://e.f/"));
            CacheKey(first) == CacheKey(second) && first.source != second.source && first.referer != second.referer
  {
    var a: Bytes, b: Bytes, c: Bytes := "https://a.b/?x", "https://c.d/?y", "https://e.f/";
    BarOfLiterals();
    CacheKeyCollides(a, b, c, request);
  }

  lemma OtherRequest(c: LiveHlsRequest) returns (d: LiveHlsRequest)
    requires !(Free(c.source, '|') && Free(Or(c.referer), '|'))
    ensures CacheKey(d) == CacheKey(c) && d.source != c.source && d.binding == c.binding
  {
    var referer := Or(c.referer);
    if i :| 0 <= i < |c.source| && c.source[i] == '|' {
      SplitAtBar(c.source, i);
      BarIsAssociative(c.source[..i], c.source[i + 1..], referer);
      SamePlaceSameKey(c, c.source[..i], Bar(c.source[i + 1..], referer));
      d := c.(source := c.source[..i], referer := Some(Bar(c.source[i + 1..], referer)));
    } else {
      var i :| 0 <= i < |referer| && referer[i] == '|';
      SplitAtBar(referer, i);
      BarIsAssociative(c.source, referer[..i], referer[i + 1..]);
      SamePlaceSameKey(c, Bar(c.source, referer[..i]), referer[i + 1..]);
      d := c.(source := Bar(c.source, referer[..i]), referer := Some(referer[i + 1..]));
      assert |d.source| > |c.source|;
    }
  }

  /**
   Exactly when the key stands for source and referer: every request that shares it has
   those of `c` if and only if neither contains a bar (session bindings never do).
   */
  lemma CacheKeyIdentifiesIff(c: LiveHlsRequest)
    requires Free(Or(c.binding), '|')
    ensures (forall d: LiveHlsRequest :: Free(Or(d.binding), '|') && CacheKey(d) == CacheKey(c) ==>
               d.source == c.source && Or(d.referer) == Or(c.referer))
        <==> Free(c.source, '|') && Free(Or(c.referer), '|')
  {
    if Free(c.source, '|') && Free(Or(c.referer), '|') {
      forall d: LiveHlsRequest | Free(Or(d.binding), '|') && CacheKey(d) == CacheKey(c)
        ensures d.source == c.source && Or(d.referer) == Or(c.referer)
      {
        SameKeySamePlace(c, d);
        OnlyBarDecides(c.source, Or(c.referer), d.source, Or(d.referer));
      }
    } else {
      var d := OtherRequest(c);
    }
  }
}
