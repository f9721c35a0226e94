/**
 The edit of a tag's text that puts the proxied URI in the place of the one it has: what
 stands between the first `URI="` and the next quote, resolved and proxied.
 */
module UriAttribute {
  import opened Options

  const OPEN := "URI=\""

  predicate OpensAt(line: string, i: nat) {
    i + |OPEN| <= |line| && line[i..i + |OPEN|] == OPEN
  }

  /** The position of the first `URI="` from `i` on, or the length. */
  function FindOpen(line: string, i: nat): (k: nat)
    requires i <= |line|
    ensures i <= k <= |line| && (k < |line| ==> OpensAt(line, k)) && forall j :: i <= j < k ==> !OpensAt(line, j)
    decreases |line| - i
  {
    if i == |line| || OpensAt(line, i) then i else FindOpen(line, i + 1)
  }

  /** The position of the first quote from `i` on, or the length. */
  function FindQuote(line: string, i: nat): (k: nat)
    requires i <= |line|
    ensures i <= k <= |line| && (k < |line| ==> line[k] == '"') && forall j :: i <= j < k ==> line[j] != '"'
    decreases |line| - i
  {
    if i == |line| || line[i] == '"' then i else FindQuote(line, i + 1)
  }

  /** `proxy` gives nothing for what cannot be resolved. */
  function RewriteHlsUriAttribute(line: string, proxy: string -> Option<string>): string {
    var start := FindOpen(line, 0);
    if start == |line| then line
    else
      var valueStart := start + |OPEN|;
      var valueEnd := FindQuote(line, valueStart);
      if valueEnd == |line| || proxy(line[valueStart..valueEnd]).None? then line
      else line[..valueStart] + proxy(line[valueStart..valueEnd]).value + line[valueEnd..]
  }

  predicate QuoteFree(s: string) {
    forall i :: 0 <= i < |s| ==> s[i] != '"'
  }

  /** The first `URI="` is at `start`, and the quote that closes it at `end`. */
  ghost predicate Reads(line: string, start: nat, end: nat) {
    && OpensAt(line, start) && (forall i :: 0 <= i < start ==> !OpensAt(line, i))
    && start + |OPEN| <= end < |line| && line[end] == '"' && QuoteFree(line[start + |OPEN|..end])
  }

  lemma NoQuoteBefore(line: string, start: nat, end: nat, i: nat)
    requires Reads(line, start, end) && start + |OPEN| <= i < end
    ensures line[i] != '"'
  {
    assert line[i] == line[start + |OPEN|..end][i - (start + |OPEN|)];
  }

  lemma Finds(line: string, start: nat, end: nat)
    requires Reads(line, start, end)
    ensures FindOpen(line, 0) == start && FindQuote(line, start + |OPEN|) == end
  {
    var k := FindQuote(line, start + |OPEN|);
    if k < end {
      NoQuoteBefore(line, start, end, k);
    }
  }

  /** A line has at most one such reading. */
  lemma ReadingIsUnique(line: string, start: nat, end: nat, start': nat, end': nat)
    requires Reads(line, start, end) && Reads(line, start', end')
    ensures start == start' && end == end'
  {
    Finds(line, start, end);
    Finds(line, start', end');
  }

  /** Only the URI is replaced: everything before it and after it, the quotes included, stays. */
  lemma OnlyTheUriChanges(line: string, start: nat, end: nat, proxy: string -> Option<string>)
    requires Reads(line, start, end)
    ensures var uri := proxy(line[start + |OPEN|..end]);
            RewriteHlsUriAttribute(line, proxy)
            == if uri.Some? then line[..start + |OPEN|] + uri.value + line[end..] else line
  {
    Finds(line, start, end);
  }

  /** A line without a quoted URI stays as it is. */
  lemma OthersStay(line: string, proxy: string -> Option<string>)
    requires forall start, end :: !Reads(line, start, end)
    ensures RewriteHlsUriAttribute(line, proxy) == line
  {
    var start := FindOpen(line, 0);
    if start < |line| {
      var end := FindQuote(line, start + |OPEN|);
      if end < |line| {
        assert Reads(line, start, end);
      }
    }
  }

  lemma OpensAlike(a: string, b: string, n: nat, i: nat)
    requires i + |OPEN| <= n <= |a| && n <= |b| && a[..n] == b[..n]
    ensures OpensAt(a, i) == OpensAt(b, i)
  {
    assert a[i..i + |OPEN|] == a[..n][i..i + |OPEN|] && b[i..i + |OPEN|] == b[..n][i..i + |OPEN|];
  }

  /** What is read from the new line is the proxied URI, if that has no quote. */
  lemma ReadsProxied(line: string, start: nat, end: nat, proxy: string -> Option<string>)
    requires Reads(line, start, end) && proxy(line[start + |OPEN|..end]).Some?
    requires QuoteFree(proxy(line[start + |OPEN|..end]).value)
    ensures var uri := proxy(line[start + |OPEN|..end]).value; var out := RewriteHlsUriAttribute(line, proxy);
            var end' := start + |OPEN| + |uri|;
            Reads(out, start, end') && out[start + |OPEN|..end'] == uri
  {
    var uri := proxy(line[start + |OPEN|..end]).value;
    OnlyTheUriChanges(line, start, end, proxy);
    Replaced(line, start, end, uri);
  }

  lemma Replaced(line: string, start: nat, end: nat, uri: string)
    requires Reads(line, start, end) && QuoteFree(uri)
    ensures var out := line[..start + |OPEN|] + uri + line[end..]; var end' := start + |OPEN| + |uri|;
            Reads(out, start, end') && out[start + |OPEN|..end'] == uri
  {
    var from := start + |OPEN|;
    var out := line[..from] + uri + line[end..];
    assert out[..from] == line[..from] && out[from..from + |uri|] == uri && out[from + |uri|] == line[end];
    OpensAlike(line, out, from, start);
    forall i | 0 <= i < start ensures !OpensAt(out, i) {
      OpensAlike(line, out, from, i);
    }
  }
}
