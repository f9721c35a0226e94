/**
 What is served of a media playlist, line by line: which of the upstream's lines, in which
 order, and that nothing of them changes but their URIs.
 */
module MediaServed {
  import opened Options
  import opened MediaPlaylist

  // ----- Lines -----------------------------------------------------------------------------

  function WithoutUri(line: Line): Line {
    match line
    case Key(format, encrypts, _, text) => Key(format, encrypts, None, text)
    case MapTag(_, text) => MapTag(None, text)
    case Tag(text, _) => Tag(text, None)
    case Segment(_) => Segment("")
    case _ => line
  }

  /** The same line with the URI it has, if it has one, proxied. */
  predicate OnlyUriProxied(out: Line, line: Line, proxy: string -> string) {
    WithoutUri(out) == WithoutUri(line) && UriOf(out) == ProxiedUri(UriOf(line), proxy)
  }

  predicate LineByLine(out: seq<Line>, lines: seq<Line>, proxy: string -> string) {
    |out| == |lines| && forall i :: 0 <= i < |lines| ==> OnlyUriProxied(out[i], lines[i], proxy)
  }

  lemma RewrittenLine(line: Line, proxy: string -> string)
    ensures OnlyUriProxied(RewriteLine(line, proxy), line, proxy)
  {
  }

  lemma RewrittenLineByLine(lines: seq<Line>, proxy: string -> string)
    ensures LineByLine(RewriteLines(lines, proxy), lines, proxy)
  {
    RewriteLength(lines, proxy);
    forall i | 0 <= i < |lines| ensures OnlyUriProxied(RewriteLines(lines, proxy)[i], lines[i], proxy) {
      RewrittenLine(lines[i], proxy);
    }
  }

  // ----- Which lines are served --------------------------------------------------------------

  /** A tag that stays with its segment: it does not move into the header. */
  predicate Stays(line: Line, before: nat) {
    Loose(line) || (InHeader(line) && before > 0)
  }

  /** The lines of the segments from the `d`-th up to the `n`-th: each with its tags, in order. */
  function ServedLines(lines: seq<Line>, d: nat, n: nat): seq<Line> {
    if lines == [] then []
    else
      var before, last := lines[..|lines| - 1], lines[|lines| - 1];
      var p := SegmentsIn(before);
      if d <= p < n && (last.Segment? || Stays(last, p)) then ServedLines(before, d, n) + [last]
      else ServedLines(before, d, n)
  }

  /** The tags of the `p`-th segment among them. */
  function OwnTags(lines: seq<Line>, p: nat): seq<Line> {
    if lines == [] then []
    else
      var before, last := lines[..|lines| - 1], lines[|lines| - 1];
      if SegmentsIn(before) == p && Stays(last, p) then OwnTags(before, p) + [last] else OwnTags(before, p)
  }

  lemma AtEnd(lines: seq<Line>, line: Line, d: nat, n: nat)
    ensures ServedLines(lines + [line], d, n)
         == if d <= SegmentsIn(lines) < n && (line.Segment? || Stays(line, SegmentsIn(lines)))
            then ServedLines(lines, d, n) + [line] else ServedLines(lines, d, n)
    ensures SegmentsIn(lines + [line]) == SegmentsIn(lines) + if line.Segment? then 1 else 0
  {
    assert (lines + [line])[..|lines|] == lines;
  }

  lemma OwnAtEnd(lines: seq<Line>, line: Line, p: nat)
    ensures OwnTags(lines + [line], p)
         == if SegmentsIn(lines) == p && Stays(line, p) then OwnTags(lines, p) + [line] else OwnTags(lines, p)
  {
    assert (lines + [line])[..|lines|] == lines;
  }

  lemma {:induction false} NoneYet(lines: seq<Line>, p: nat)
    requires p > SegmentsIn(lines)
    ensures OwnTags(lines, p) == []
  {
    if lines != [] {
      NoneYet(lines[..|lines| - 1], p);
    }
  }

  lemma {:induction false} NothingBefore(lines: seq<Line>, d: nat, n: nat)
    requires d >= n || d > SegmentsIn(lines)
    ensures ServedLines(lines, d, n) == []
  {
    if lines != [] {
      NothingBefore(lines[..|lines| - 1], d, n);
    }
  }

  /** One segment more: its tags come after the lines of those before. */
  lemma {:induction false} OneSegmentMore(lines: seq<Line>, d: nat, n: nat)
    requires SegmentsIn(lines) <= n && d <= n
    ensures ServedLines(lines, d, n + 1) == ServedLines(lines, d, n) + OwnTags(lines, n)
  {
    if lines != [] {
      var before, last := lines[..|lines| - 1], lines[|lines| - 1];
      OneSegmentMore(before, d, n);
      if SegmentsIn(before) < n {
        NoneYet(before, n);
      }
      OneMoreStep(ServedLines(before, d, n), OwnTags(before, n), last);
    }
  }

  lemma OneMoreStep(served: seq<Line>, own: seq<Line>, last: Line)
    ensures (served + own) + [last] == served + (own + [last])
    ensures own == [] ==> (served + own) + [last] == (served + [last]) + own
  {
  }

  // ----- The scan ----------------------------------------------------------------------------

  function From(blocks: seq<Block>, d: nat): seq<Block> {
    if d <= |blocks| then blocks[d..] else []
  }

  predicate Holds(lines: seq<Line>, s: Scan, d: nat) {
    && |s.blocks| == SegmentsIn(lines) && s.pending == OwnTags(lines, |s.blocks|)
    && Flatten(From(s.blocks, d)) == ServedLines(lines, d, |s.blocks|)
  }

  lemma FromAtEnd(blocks: seq<Block>, b: Block, d: nat)
    ensures Flatten(From(blocks + [b], d)) == if d <= |blocks| then Flatten(From(blocks, d)) + b.lines else []
  {
    if d <= |blocks| {
      assert From(blocks + [b], d) == From(blocks, d) + [b];
      assert (From(blocks, d) + [b])[..|From(blocks, d)|] == From(blocks, d);
    } else {
      assert From(blocks + [b], d) == [];
    }
  }

  lemma CloseServes(lines: seq<Line>, blocks: seq<Block>, pending: seq<Line>, duration: real, line: Line, d: nat)
    requires |blocks| == SegmentsIn(lines) && pending == OwnTags(lines, |blocks|) && line.Segment?
    requires Flatten(From(blocks, d)) == ServedLines(lines, d, |blocks|)
    ensures Flatten(From(blocks + [Block(pending + [line], duration)], d))
              == ServedLines(lines + [line], d, |blocks| + 1)
  {
    var n := |blocks|;
    FromAtEnd(blocks, Block(pending + [line], duration), d);
    if d <= n {
      AtEnd(lines, line, d, n + 1);
      OneSegmentMore(lines, d, n);
      OneMoreStep(ServedLines(lines, d, n), pending, line);
    } else {
      AtEnd(lines, line, d, n + 1);
      NothingBefore(lines, d, n + 1);
    }
  }

  lemma NothingPending(lines: seq<Line>, line: Line, p: nat)
    requires line.Segment? && p == SegmentsIn(lines) + 1
    ensures OwnTags(lines + [line], p) == [] && SegmentsIn(lines + [line]) == p
  {
    OwnAtEnd(lines, line, p);
    NoneYet(lines, p);
    AtEnd(lines, line, 0, 0);
  }

  lemma CloseHolds(lines: seq<Line>, s: Scan, line: Line, d: nat)
    requires Holds(lines, s, d) && line.Segment?
    ensures Holds(lines + [line], Close(s, line), d)
  {
    NothingPending(lines, line, |s.blocks| + 1);
    CloseServes(lines, s.blocks, s.pending, s.duration, line, d);
  }

  lemma OtherHolds(lines: seq<Line>, s: Scan, line: Line, d: nat)
    requires Holds(lines, s, d) && !line.Segment?
    ensures Holds(lines + [line], Take(s, line), d)
  {
    AtEnd(lines, line, d, |s.blocks|);
    OwnAtEnd(lines, line, |s.blocks|);
  }

  lemma {:induction false} ScanHolds(lines: seq<Line>, d: nat)
    ensures Holds(lines, TakeAll(lines), d)
  {
    if lines != [] {
      var before, last := lines[..|lines| - 1], lines[|lines| - 1];
      ScanHolds(before, d);
      assert before + [last] == lines;
      if last.Segment? {
        CloseHolds(before, TakeAll(before), last, d);
      } else {
        OtherHolds(before, TakeAll(before), last, d);
      }
    }
  }

  lemma ServedStep(before: seq<Line>, line: Line, lines: seq<Line>, r: Line, d: nat, n: nat, proxy: string -> string)
    requires r == RewriteLine(line, proxy) && SegmentsIn(before) == SegmentsIn(lines)
    requires ServedLines(before, d, n) == RewriteLines(ServedLines(lines, d, n), proxy)
    ensures ServedLines(before + [r], d, n) == RewriteLines(ServedLines(lines + [line], d, n), proxy)
    ensures SegmentsIn(before + [r]) == SegmentsIn(lines + [line])
  {
    RewriteKeepsPlace(line, proxy);
    AtEnd(before, r, d, n);
    AtEnd(lines, line, d, n);
    RewriteAtEnd(ServedLines(lines, d, n), line, proxy);
  }

  lemma {:induction false} ServedOfRewritten(lines: seq<Line>, d: nat, n: nat, proxy: string -> string)
    ensures ServedLines(RewriteLines(lines, proxy), d, n) == RewriteLines(ServedLines(lines, d, n), proxy)
    ensures SegmentsIn(RewriteLines(lines, proxy)) == SegmentsIn(lines)
  {
    if lines != [] {
      var before, last := lines[..|lines| - 1], lines[|lines| - 1];
      ServedOfRewritten(before, d, n, proxy);
      ServedStep(RewriteLines(before, proxy), last, before, RewriteLine(last, proxy), d, n, proxy);
      RewriteAtEnd(before, last, proxy);
      assert before + [last] == lines;
    }
  }

  lemma RewriteKeepsPlace(line: Line, proxy: string -> string)
    ensures var r := RewriteLine(line, proxy);
            && r.Segment? == line.Segment? && Loose(r) == Loose(line) && InHeader(r) == InHeader(line)
  {
  }

  // ----- The playlist served -----------------------------------------------------------------

  function Titled(header: seq<Line>): seq<Line> {
    if M3U in header then header else [M3U] + header
  }

  /** The scan is cut before its `d`-th segment, and this is what it has. */
  predicate ScanIs(s: Scan, header: seq<Line>, seconds: real, base: int, d: nat, body: seq<Line>) {
    && s.blocks != [] && d == Dropped(|s.blocks|) && s.header == header && s.sequence == base
    && TotalDuration(s.blocks[d..]) == seconds && Flatten(s.blocks[d..]) == body
  }

  function Served(header: seq<Line>, seconds: real, number: int, body: seq<Line>): seq<Line> {
    Titled(header) + StartTag(seconds) + [MediaSequence(number)] + body
  }

  lemma WindowOf(s: Scan, header: seq<Line>, seconds: real, base: int, d: nat, body: seq<Line>)
    requires ScanIs(s, header, seconds, base, d, body)
    ensures Window(s) == Served(header, seconds, base + d, body)
  {
  }

  lemma ScannedParts(lines: seq<Line>, proxy: string -> string, n: nat, d: nat)
    requires n == |Segments(lines)| && d == Dropped(n)
    ensures var s := ProxiedScan(lines, proxy);
            && |s.blocks| == n && s.header == RewriteLines(HeaderTags(lines), proxy)
            && Flatten(s.blocks[d..]) == RewriteLines(ServedLines(lines, d, n), proxy)
  {
    SegmentsAreCounted(BARE, lines);
    TagsOfRewritten(lines, 0, proxy);
    ScanPlaces(RewriteLines(lines, proxy));
    ScanHolds(RewriteLines(lines, proxy), d);
    ServedOfRewritten(lines, d, n, proxy);
  }

  lemma ScannedNumbers(lines: seq<Line>, proxy: string -> string, d: nat)
    requires Segments(lines) != [] && d == Dropped(|Segments(lines)|)
    ensures var s := ProxiedScan(lines, proxy);
            && |s.blocks| == |Segments(lines)| && s.sequence == Base(lines)
            && TotalDuration(s.blocks[d..]) == SumDurations(Segments(lines)[d..])
  {
    var s := ProxiedScan(lines, proxy);
    ScannedParts(lines, proxy, |Segments(lines)|, d);
    ScanIsFaithful(RewriteLines(lines, proxy));
    ReadingProxied(lines, proxy);
    ServedDurations(lines, proxy);
    DurationOfWindow(s);
  }

  lemma ScanServes(lines: seq<Line>, proxy: string -> string, n: nat, d: nat)
    requires Segments(lines) != [] && n == |Segments(lines)| && d == Dropped(n)
    ensures ScanIs(ProxiedScan(lines, proxy), RewriteLines(HeaderTags(lines), proxy),
                   SumDurations(Segments(lines)[d..]), Base(lines), d, RewriteLines(ServedLines(lines, d, n), proxy))
  {
    ScannedParts(lines, proxy, n, d);
    ScannedNumbers(lines, proxy, d);
  }

  lemma RollingOf(lines: seq<Line>, proxy: string -> string, header: seq<Line>, seconds: real, base: int, d: nat,
                  body: seq<Line>)
    requires ScanIs(ProxiedScan(lines, proxy), header, seconds, base, d, body)
    ensures Rolling(lines, proxy) == Served(header, seconds, base + d, body)
  {
    WindowOf(ProxiedScan(lines, proxy), header, seconds, base, d, body);
    RollingIs(lines, proxy);
  }

  /**
   A rolling playlist with segments is served as: the header tags of the upstream, in order; the
   start tag for the segments served; the sequence number; and the lines of the last min(8, n)
   segments, in order. All of them are the upstream's lines with their URIs proxied.
   */
  lemma ServedPlaylist(lines: seq<Line>, proxy: string -> string, d: nat, header: seq<Line>, body: seq<Line>,
                       seconds: real, base: int)
    requires Segments(lines) != [] && d == Dropped(|Segments(lines)|)
    requires header == RewriteLines(HeaderTags(lines), proxy)
    requires body == RewriteLines(ServedLines(lines, d, |Segments(lines)|), proxy)
    requires seconds == SumDurations(Segments(lines)[d..]) && base == Base(lines)
    ensures Rolling(lines, proxy) == Served(header, seconds, base + d, body)
  {
    ScanServes(lines, proxy, |Segments(lines)|, d);
    RollingOf(lines, proxy, header, seconds, base, d, body);
  }

  /** An ended playlist is served line by line. */
  lemma ServedVod(lines: seq<Line>, proxy: string -> string, vodProxy: string -> string)
    requires IsVod(lines)
    ensures LineByLine(Rewritten(lines, proxy, vodProxy), lines, vodProxy)
  {
    RewrittenLineByLine(lines, vodProxy);
  }

  lemma {:induction false} HeaderTagAt(lines: seq<Line>, i: nat)
    requires i < |lines| && InHeader(lines[i]) && SegmentsIn(lines[..i]) == 0
    ensures lines[i] in HeaderTags(lines)
  {
    var before := lines[..|lines| - 1];
    if i == |before| {
      assert lines[..i] == before;
    } else {
      assert before[..i] == lines[..i];
      HeaderTagAt(before, i);
    }
  }

  lemma InServed(header: seq<Line>, seconds: real, number: int, body: seq<Line>, j: nat)
    requires j < |header|
    ensures header[j] in Served(header, seconds, number, body)
  {
    var rest := StartTag(seconds) + [MediaSequence(number)] + body;
    assert Served(header, seconds, number, body) == Titled(header) + rest;
    assert Titled(header)[if M3U in header then j else j + 1] == header[j];
  }

  /** What stands in the upstream's header, proxied, is served. */
  lemma HeaderIsServed(lines: seq<Line>, proxy: string -> string, d: nat, header: seq<Line>, body: seq<Line>,
                       seconds: real, base: int, j: nat)
    requires Segments(lines) != [] && d == Dropped(|Segments(lines)|) && j < |header|
    requires header == RewriteLines(HeaderTags(lines), proxy)
    requires body == RewriteLines(ServedLines(lines, d, |Segments(lines)|), proxy)
    requires seconds == SumDurations(Segments(lines)[d..]) && base == Base(lines)
    ensures header[j] in Rolling(lines, proxy)
  {
    ServedPlaylist(lines, proxy, d, header, body, seconds, base);
    InServed(header, seconds, base + d, body, j);
  }

  lemma InHeaderTags(lines: seq<Line>, proxy: string -> string, i: nat) returns (j: nat)
    requires i < |lines| && InHeader(lines[i]) && SegmentsIn(lines[..i]) == 0
    ensures j < |RewriteLines(HeaderTags(lines), proxy)|
    ensures OnlyUriProxied(RewriteLines(HeaderTags(lines), proxy)[j], lines[i], proxy)
  {
    HeaderTagAt(lines, i);
    j :| j < |HeaderTags(lines)| && HeaderTags(lines)[j] == lines[i];
    RewriteLength(HeaderTags(lines), proxy);
    RewrittenLine(lines[i], proxy);
  }

  /** Every header tag of the upstream (the target duration, the version) is still served, with its text. */
  lemma HeaderTagsAreServed(lines: seq<Line>, proxy: string -> string, i: nat) returns (served: Line)
    requires Segments(lines) != [] && i < |lines| && InHeader(lines[i]) && SegmentsIn(lines[..i]) == 0
    ensures served in Rolling(lines, proxy) && OnlyUriProxied(served, lines[i], proxy)
  {
    var j := InHeaderTags(lines, proxy, i);
    served := RewriteLines(HeaderTags(lines), proxy)[j];
    var d := Dropped(|Segments(lines)|);
    HeaderIsServed(lines, proxy, d, RewriteLines(HeaderTags(lines), proxy),
                   RewriteLines(ServedLines(lines, d, |Segments(lines)|), proxy),
                   SumDurations(Segments(lines)[d..]), Base(lines), j);
  }
}
