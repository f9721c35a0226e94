/**
 Rewriting media playlists. A rolling playlist is cut to its last eight segments and
 renumbered; one that has ended is passed on whole. In both every URI goes through
 `proxy`, the composition of URI resolution and proxying, which is arbitrary here; only a
 rolling playlist without segments is passed on as it came, its URIs included.
 Lines are taken as the rewriter classifies them; durations are reals.
 */
module MediaPlaylist {
  import opened Options

  const EDGE_SEGMENT_COUNT := 8
  const START_OFFSET_SECONDS := 18.0
  const START_OFFSET_MIN_SECONDS := 2.0

  datatype Line =
    | Blank
    | MediaSequence(n: int)                       // 0 when the value is not a number
    | VodMarker(text: string)                     // #EXT-X-ENDLIST or #EXT-X-PLAYLIST-TYPE:VOD
    | EndListPrefix(text: string)                 // begins with #EXT-X-ENDLIST, but is not it
    | ExtInf(duration: Option<real>, text: string)
    | Key(format: string, encrypts: bool, uri: Option<string>, text: string)   // METHOD=NONE does not encrypt
    | MapTag(uri: Option<string>, text: string)
    | ProgramDateTime(text: string)
    | Discontinuity
    | DiscontinuitySequence(n: int)
    | ByteRange(length: nat, offset: Option<nat>)
    | Tag(text: string, uri: Option<string>)      // every other line that begins with #
    | Start(behind: real)                         // #EXT-X-START, the upstream's or the one added
    | Segment(address: string)

  /** A segment's lines, its URI last, and its duration. */
  datatype Block = Block(lines: seq<Line>, duration: real)

  datatype Scan = Scan(header: seq<Line>, pending: seq<Line>, duration: real, blocks: seq<Block>, sequence: int)

  const NOTHING := Scan([], [], 0.0, [], 0)

  /** What begins with #EXT-X-PROGRAM-DATE-TIME or #EXT-X-DISCONTINUITY. */
  predicate IsBoundary(line: Line) {
    line.ProgramDateTime? || line.Discontinuity? || line.DiscontinuitySequence?
  }

  /** Tags of the next segment, which do not go into the header even before the first one. */
  predicate Loose(line: Line) {
    line.ExtInf? || line.Key? || line.MapTag? || IsBoundary(line)
  }

  predicate InHeader(line: Line) {
    line.ByteRange? || line.Tag? || line.Start?
  }

  predicate InBlock(line: Line) {
    Loose(line) || InHeader(line)
  }

  // ----- The code ------------------------------------------------------------------

  function RewriteLine(line: Line, proxy: string -> string): Line {
    match line
    case Key(format, encrypts, Some(u), text) => Key(format, encrypts, Some(proxy(u)), text)
    case MapTag(Some(u), text) => MapTag(Some(proxy(u)), text)
    case Tag(text, Some(u)) => Tag(text, Some(proxy(u)))
    case Segment(u) => Segment(proxy(u))
    case _ => line
  }

  function RewriteLines(lines: seq<Line>, proxy: string -> string): seq<Line> {
    if lines == [] then []
    else RewriteLines(lines[..|lines| - 1], proxy) + [RewriteLine(lines[|lines| - 1], proxy)]
  }

  function Pend(s: Scan, line: Line): Scan {
    s.(pending := s.pending + [line],
       duration := if line.ExtInf? && line.duration.Some? then line.duration.value else s.duration)
  }

  function Close(s: Scan, line: Line): Scan {
    s.(pending := [], duration := 0.0, blocks := s.blocks + [Block(s.pending + [line], s.duration)])
  }

  /** Takes up one line that has been rewritten; blank lines and end tags are dropped. */
  function Take(s: Scan, line: Line): Scan {
    if line.MediaSequence? then s.(sequence := line.n)
    else if line.Segment? then Close(s, line)
    else if s.blocks == [] && InHeader(line) then s.(header := s.header + [line])
    else if InBlock(line) then Pend(s, line)
    else s
  }

  function TakeAll(lines: seq<Line>): Scan {
    if lines == [] then NOTHING else Take(TakeAll(lines[..|lines| - 1]), lines[|lines| - 1])
  }

  const M3U := Tag("#EXTM3U", None)

  function Flatten(blocks: seq<Block>): seq<Line> {
    if blocks == [] then [] else Flatten(blocks[..|blocks| - 1]) + blocks[|blocks| - 1].lines
  }

  function TotalDuration(blocks: seq<Block>): real {
    if blocks == [] then 0.0 else TotalDuration(blocks[..|blocks| - 1]) + blocks[|blocks| - 1].duration
  }

  function Dropped(n: nat): nat {
    if n <= EDGE_SEGMENT_COUNT then 0 else n - EDGE_SEGMENT_COUNT
  }

  /** The start tag for a window of the given duration: at most half of it, and not below two seconds. */
  function StartTag(seconds: real): seq<Line> {
    var offset := if START_OFFSET_SECONDS < seconds / 2.0 then START_OFFSET_SECONDS else seconds / 2.0;
    if offset >= START_OFFSET_MIN_SECONDS then [Start(offset)] else []
  }

  function ServedHeader(s: Scan): seq<Line> {
    if M3U in s.header then s.header else [M3U] + s.header
  }

  function Preamble(s: Scan): seq<Line> {
    var dropped := Dropped(|s.blocks|);
    ServedHeader(s) + StartTag(TotalDuration(s.blocks[dropped..])) + [MediaSequence(s.sequence + dropped)]
  }

  function Window(s: Scan): seq<Line> {
    Preamble(s) + Flatten(s.blocks[Dropped(|s.blocks|)..])
  }

  predicate IsVod(lines: seq<Line>) {
    exists i :: 0 <= i < |lines| && lines[i].VodMarker?
  }

  /** The rewritten playlist; one without segments is passed on as it came. */
  function Rolling(lines: seq<Line>, proxy: string -> string): seq<Line> {
    var s := TakeAll(RewriteLines(lines, proxy));
    if s.blocks == [] then lines else Window(s)
  }

  function Rewritten(lines: seq<Line>, proxy: string -> string, vodProxy: string -> string): seq<Line> {
    if IsVod(lines) then RewriteLines(lines, vodProxy) else Rolling(lines, proxy)
  }

  lemma ScanStep(lines: seq<Line>, i: nat, proxy: string -> string)
    requires i < |lines|
    ensures TakeAll(RewriteLines(lines[..i + 1], proxy))
         == Take(TakeAll(RewriteLines(lines[..i], proxy)), RewriteLine(lines[i], proxy))
  {
    var before := RewriteLines(lines[..i], proxy);
    assert lines[..i + 1][..i] == lines[..i];
    assert (before + [RewriteLine(lines[i], proxy)])[..|before|] == before;
  }

  lemma WholeList(lines: seq<Line>)
    ensures lines[..|lines|] == lines
  {
  }

  /** Proxying a line does not change its kind. */
  lemma RewriteKeepsKind(line: Line, proxy: string -> string)
    ensures var r := RewriteLine(line, proxy);
            && (r.Segment? <==> line.Segment?) && (r.MediaSequence? <==> line.MediaSequence?)
            && (InHeader(r) <==> InHeader(line)) && (InBlock(r) <==> InBlock(line))
            && (line.MediaSequence? || line.ExtInf? ==> r == line) && (r.ExtInf? ==> line.ExtInf?)
  {
  }

  /** The scan of the first `n` lines. */
  function ScanOf(lines: seq<Line>, n: nat, proxy: string -> string): Scan
    requires n <= |lines|
  {
    TakeAll(RewriteLines(lines[..n], proxy))
  }

  /** The body of the loop: one line as it came, its URI not yet proxied. */
  method TakeLine(s: Scan, line: Line, proxy: string -> string) returns (taken: Scan)
    ensures taken == Take(s, RewriteLine(line, proxy))
  {
    RewriteKeepsKind(line, proxy);
    if line.Blank? || line.EndListPrefix? || line.VodMarker? {
      return s;
    }
    if line.MediaSequence? {
      return s.(sequence := line.n);
    }
    var rewritten := RewriteLine(line, proxy);
    if line.Segment? {
      return s.(pending := [], duration := 0.0, blocks := s.blocks + [Block(s.pending + [rewritten], s.duration)]);
    }
    var duration := if line.ExtInf? && line.duration.Some? then line.duration.value else s.duration;
    if s.blocks == [] && !line.ExtInf? && !line.Key? && !line.MapTag? && !IsBoundary(line) {
      return s.(header := s.header + [rewritten]);
    }
    return s.(pending := s.pending + [rewritten], duration := duration);
  }

  method ScanPlaylist(lines: seq<Line>, proxy: string -> string) returns (scan: Scan)
    ensures scan == TakeAll(RewriteLines(lines, proxy))
  {
    scan := NOTHING;
    for i := 0 to |lines|
      invariant scan == ScanOf(lines, i, proxy)
    {
      ScanStep(lines, i, proxy);
      scan := TakeLine(scan, lines[i], proxy);
    }
    WholeList(lines);
  }

  lemma TotalStep(blocks: seq<Block>, i: nat)
    requires i < |blocks|
    ensures TotalDuration(blocks[..i + 1]) == TotalDuration(blocks[..i]) + blocks[i].duration
  {
    assert blocks[..i + 1][..i] == blocks[..i];
  }

  method KeptWindowSeconds(kept: seq<Block>) returns (seconds: real)
    ensures seconds == TotalDuration(kept)
  {
    seconds := 0.0;
    for i := 0 to |kept|
      invariant seconds == TotalDuration(kept[..i])
    {
      TotalStep(kept, i);
      seconds := seconds + kept[i].duration;
    }
    assert kept[..|kept|] == kept;
  }

  method WriteWindow(scan: Scan) returns (rewritten: seq<Line>)
    ensures rewritten == Window(scan)
  {
    var header := scan.header;
    if M3U !in header {
      header := [M3U] + header;
    }
    var dropped := Dropped(|scan.blocks|);
    var seconds := KeptWindowSeconds(scan.blocks[dropped..]);
    rewritten := header + StartTag(seconds) + [MediaSequence(scan.sequence + dropped)]
        + Flatten(scan.blocks[dropped..]);
  }

  method RewriteRollingPlaylist(lines: seq<Line>, proxy: string -> string) returns (rewritten: seq<Line>)
    ensures rewritten == Rolling(lines, proxy)
  {
    var scan := ScanPlaylist(lines, proxy);
    if scan.blocks == [] {
      return lines;
    }
    rewritten := WriteWindow(scan);
  }

  // ----- What a player reads (RFC 8216, sections 4.3.2 and 4.3.3) -------------------------

  /** A byte range as its tag has it; without an offset it continues the segment before. */
  datatype Asked = Asked(length: nat, offset: Option<nat>)

  /** The part of the resource that a segment is; undefined if there is nothing to continue. */
  datatype Range = Whole | Sub(start: nat, length: nat) | Undefined

  /** The segment before, when it was a sub-range: of which resource, up to where. */
  datatype Previous = Previous(resource: string, end: nat)

  /** An initialization section and the keys that apply to it, which are those declared before it. */
  datatype Init = Init(tag: Line, keys: map<string, Line>)

  /**
   What is in effect for the next segment: keys by format, the map, its duration, its byte range, its
   discontinuity number.
   */
  datatype Env = Env(
    keys: map<string, Line>, initMap: Option<Init>, duration: real, asked: Option<Asked>,
    previous: Option<Previous>, discontinuity: int,
    names: string -> string)   // which resource a URI names

  datatype Media = Media(
    address: string, keys: map<string, Line>, initMap: Option<Init>, duration: real, range: Range, discontinuity: int)

  /** At the start of a playlist. */
  function Fresh(names: string -> string): Env {
    Env(map[], None, 0.0, None, None, 0, names)
  }

  const ITSELF: string -> string := u => u
  const BARE := Fresh(ITSELF)

  function RangeAt(e: Env, address: string): Range {
    if e.asked.None? then Whole
    else if e.asked.value.offset.Some? then Sub(e.asked.value.offset.value, e.asked.value.length)
    else if e.previous.Some? && e.previous.value.resource == e.names(address)
        then Sub(e.previous.value.end, e.asked.value.length)
    else Undefined
  }

  function MediaAt(e: Env, address: string): Media {
    Media(address, e.keys, e.initMap, e.duration, RangeAt(e, address), e.discontinuity)
  }

  function HearSegment(e: Env, address: string): Env {
    var range := RangeAt(e, address);
    e.(duration := 0.0, asked := None,
       previous := if range.Sub? then Some(Previous(e.names(address), range.start + range.length)) else None)
  }

  function Hear(e: Env, line: Line): Env {
    match line
    case Key(format, encrypts, _, _) => e.(keys := if encrypts then e.keys[format := line] else e.keys - {format})
    case MapTag(_, _) => e.(initMap := Some(Init(line, e.keys)))
    case ExtInf(d, _) => e.(duration := if d.Some? then d.value else e.duration)
    case ByteRange(length, offset) => e.(asked := Some(Asked(length, offset)))
    case Discontinuity => e.(discontinuity := e.discontinuity + 1)
    case DiscontinuitySequence(n) => e.(discontinuity := n)
    case Segment(address) => HearSegment(e, address)
    case _ => e
  }

  function EnvAfter(e: Env, lines: seq<Line>): Env {
    if lines == [] then e else Hear(EnvAfter(e, lines[..|lines| - 1]), lines[|lines| - 1])
  }

  /** The segments of a playlist in order, each with what is in effect for it. */
  function Play(e: Env, lines: seq<Line>): seq<Media> {
    if lines == [] then []
    else
      var before := lines[..|lines| - 1];
      var last := lines[|lines| - 1];
      Play(e, before) + if last.Segment? then [MediaAt(EnvAfter(e, before), last.address)] else []
  }

  /** The number of the first segment: the value of the last sequence tag, or 0. */
  function Base(lines: seq<Line>): int {
    if lines == [] then 0
    else
      var last := lines[|lines| - 1];
      if last.MediaSequence? then last.n else Base(lines[..|lines| - 1])
  }

  /** The segments of a playlist, where `names(u)` tells which resource the URI `u` names. */
  function Read(lines: seq<Line>, names: string -> string): seq<Media> {
    Play(Fresh(names), lines)
  }

  /** The segments of a playlist in which different URIs name different resources. */
  function Segments(lines: seq<Line>): seq<Media> {
    Play(BARE, lines)
  }

  lemma {:induction false} EnvAfterAppend(e: Env, a: seq<Line>, b: seq<Line>)
    ensures EnvAfter(e, a + b) == EnvAfter(EnvAfter(e, a), b)
    ensures Play(e, a + b) == Play(e, a) + Play(EnvAfter(e, a), b)
  {
    if b == [] {
      assert a + b == a;
    } else {
      var init, last := b[..|b| - 1], b[|b| - 1];
      assert (a + b)[..|a + b| - 1] == a + init && (a + b)[|a + b| - 1] == last;
      EnvAfterAppend(e, a, init);
    }
  }

  // ----- The scan loses nothing a player hears -----------------------------------------

  function Tags(b: Block): seq<Line> {
    if b.lines == [] then [] else b.lines[..|b.lines| - 1]
  }

  function Address(b: Block): string {
    if b.lines != [] && b.lines[|b.lines| - 1].Segment? then b.lines[|b.lines| - 1].address else ""
  }

  predicate EndsInSegment(b: Block) {
    b.lines != [] && b.lines[|b.lines| - 1].Segment?
  }

  predicate IsBlock(b: Block) {
    && EndsInSegment(b)
    && (forall i :: 0 <= i < |b.lines| - 1 ==> InBlock(b.lines[i]))
    && b.duration == EnvAfter(BARE, Tags(b)).duration
  }

  lemma HeaderTagCommutes(e: Env, line: Line, loose: Line)
    requires InHeader(line) && Loose(loose)
    ensures Hear(Hear(e, line), loose) == Hear(Hear(e, loose), line)
  {
  }

  /** Header tags and the tags of the first block do not depend on each other's order. */
  lemma {:induction false} HeaderTagMoves(e: Env, pending: seq<Line>, line: Line)
    requires InHeader(line) && forall i :: 0 <= i < |pending| ==> Loose(pending[i])
    ensures EnvAfter(Hear(e, line), pending) == Hear(EnvAfter(e, pending), line)
    ensures Play(e, pending) == [] && Play(Hear(e, line), pending) == []
  {
    if pending != [] {
      var before, last := pending[..|pending| - 1], pending[|pending| - 1];
      HeaderTagMoves(e, before, line);
      HeaderTagCommutes(EnvAfter(e, before), line, last);
    }
  }

  function Body(s: Scan): seq<Line> {
    s.header + Flatten(s.blocks) + s.pending
  }

  ghost predicate Shaped(s: Scan) {
    && (forall i :: 0 <= i < |s.header| ==> InHeader(s.header[i]))
    && (forall i :: 0 <= i < |s.pending| ==> InBlock(s.pending[i]))
    && (s.blocks == [] ==> forall i :: 0 <= i < |s.pending| ==> Loose(s.pending[i]))
    && (forall i :: 0 <= i < |s.blocks| ==> IsBlock(s.blocks[i]))
    && s.duration == EnvAfter(BARE, s.pending).duration
  }

  /** The scan holds everything heard so far, in an order that a player hears the same. */
  ghost predicate Faithful(lines: seq<Line>, s: Scan) {
    && EnvAfter(BARE, Body(s)) == EnvAfter(BARE, lines)
    && Play(BARE, Body(s)) == Segments(lines)
    && s.sequence == Base(lines)
  }

  lemma HearAtEnd(e: Env, body: seq<Line>, line: Line)
    ensures EnvAfter(e, body + [line]) == Hear(EnvAfter(e, body), line)
    ensures Play(e, body + [line])
              == Play(e, body) + if line.Segment? then [MediaAt(EnvAfter(e, body), line.address)] else []
  {
    assert (body + [line])[..|body|] == body;
  }

  lemma HearInHeader(header: seq<Line>, pending: seq<Line>, line: Line)
    requires InHeader(line) && forall i :: 0 <= i < |pending| ==> Loose(pending[i])
    ensures EnvAfter(BARE, header + [line] + pending) == Hear(EnvAfter(BARE, header + pending), line)
    ensures Play(BARE, header + [line] + pending) == Play(BARE, header + pending)
  {
    var e := EnvAfter(BARE, header);
    HearAtEnd(BARE, header, line);
    EnvAfterAppend(BARE, header, pending);
    EnvAfterAppend(BARE, header + [line], pending);
    HeaderTagMoves(e, pending, line);
  }

  lemma CloseKeepsShape(s: Scan, line: Line)
    requires Shaped(s) && line.Segment?
    ensures Shaped(Close(s, line))
  {
    var block := Block(s.pending + [line], s.duration);
    assert Tags(block) == s.pending;
    assert IsBlock(block);
  }

  lemma PendKeepsShape(s: Scan, line: Line)
    requires Shaped(s) && InBlock(line) && (Loose(line) || s.blocks != [])
    ensures Shaped(Pend(s, line))
  {
    HearAtEnd(BARE, s.pending, line);
  }

  lemma TakeKeepsShape(s: Scan, line: Line)
    requires Shaped(s)
    ensures Shaped(Take(s, line))
  {
    if line.Segment? {
      CloseKeepsShape(s, line);
    } else if InBlock(line) && !(s.blocks == [] && InHeader(line)) {
      PendKeepsShape(s, line);
    }
  }

  /** The body grows at its end, but for header tags before the first segment. */
  lemma BodyAfterTake(s: Scan, line: Line)
    ensures line.Segment? || (InBlock(line) && (Loose(line) || s.blocks != []))
            ==> Body(Take(s, line)) == Body(s) + [line]
    ensures InHeader(line) && s.blocks == [] ==>
              Body(s) == s.header + s.pending && Body(Take(s, line)) == s.header + [line] + s.pending
    ensures !line.Segment? && !InBlock(line) ==> Body(Take(s, line)) == Body(s)
  {
    if line.Segment? {
      BodyAfterClose(s, line);
    } else if s.blocks == [] {
      assert s.header + [] + s.pending == s.header + s.pending;
    }
  }

  lemma BodyAfterClose(s: Scan, line: Line)
    ensures Body(Close(s, line)) == Body(s) + [line]
  {
    var closed := Close(s, line);
    assert closed.blocks[..|s.blocks|] == s.blocks;
    assert Flatten(closed.blocks) == Flatten(s.blocks) + (s.pending + [line]);
  }

  lemma TakeIsFaithful(s: Scan, line: Line)
    requires Shaped(s)
    ensures EnvAfter(BARE, Body(Take(s, line))) == Hear(EnvAfter(BARE, Body(s)), line)
    ensures Play(BARE, Body(Take(s, line)))
         == Play(BARE, Body(s)) + if line.Segment? then [MediaAt(EnvAfter(BARE, Body(s)), line.address)] else []
  {
    BodyAfterTake(s, line);
    HearAtEnd(BARE, Body(s), line);
    if InHeader(line) && s.blocks == [] {
      HearInHeader(s.header, s.pending, line);
    }
  }

  lemma {:induction false} ScanIsFaithful(lines: seq<Line>)
    ensures Faithful(lines, TakeAll(lines)) && Shaped(TakeAll(lines))
  {
    if lines != [] {
      var before := lines[..|lines| - 1];
      ScanIsFaithful(before);
      TakeKeepsShape(TakeAll(before), lines[|lines| - 1]);
      TakeIsFaithful(TakeAll(before), lines[|lines| - 1]);
    }
  }

  /** A block gives one segment, with the block's duration when nothing is left over before it. */
  lemma {:induction false} PlayTags(e: Env, tags: seq<Line>)
    requires forall i :: 0 <= i < |tags| ==> InBlock(tags[i])
    ensures Play(e, tags) == []
  {
    if tags != [] {
      PlayTags(e, tags[..|tags| - 1]);
    }
  }

  lemma PlayBlock(e: Env, b: Block)
    requires IsBlock(b)
    ensures Play(e, b.lines) == [MediaAt(EnvAfter(e, Tags(b)), Address(b))]
    ensures EnvAfter(e, b.lines) == HearSegment(EnvAfter(e, Tags(b)), Address(b))
  {
    PlayTags(e, Tags(b));
  }

  lemma {:induction false} PlayBlocks(e: Env, blocks: seq<Block>)
    requires forall i :: 0 <= i < |blocks| ==> IsBlock(blocks[i])
    ensures |Play(e, Flatten(blocks))| == |blocks|
    ensures blocks != [] ==> EnvAfter(e, Flatten(blocks)).duration == 0.0 && EnvAfter(e, Flatten(blocks)).asked == None
  {
    if blocks != [] {
      var before := blocks[..|blocks| - 1];
      PlayBlocks(e, before);
      EnvAfterAppend(e, Flatten(before), blocks[|blocks| - 1].lines);
      PlayBlock(EnvAfter(e, Flatten(before)), blocks[|blocks| - 1]);
    }
  }

  lemma {:induction false} FlattenAppend(a: seq<Block>, b: seq<Block>)
    ensures Flatten(a + b) == Flatten(a) + Flatten(b)
  {
    if b == [] {
      assert a + b == a;
    } else {
      assert (a + b)[..|a + b| - 1] == a + b[..|b| - 1];
      FlattenAppend(a, b[..|b| - 1]);
    }
  }

  // ----- The window ------------------------------------------------------------------

  lemma {:induction false} PlayHeader(header: seq<Line>)
    requires forall i :: 0 <= i < |header| ==> InHeader(header[i])
    ensures Play(BARE, header) == [] && Base(header) == 0
    ensures EnvAfter(BARE, header) == BARE.(asked := EnvAfter(BARE, header).asked)
  {
    if header != [] {
      PlayHeader(header[..|header| - 1]);
    }
  }

  lemma QuietIsIgnored(e: Env, line: Line)
    requires line.Tag? || line.Start? || line.MediaSequence?
    ensures Hear(e, line) == e
  {
  }

  lemma QuietLine(e: Env, lines: seq<Line>, line: Line)
    requires line.Tag? || line.Start? || line.MediaSequence?
    ensures EnvAfter(e, lines + [line]) == EnvAfter(e, lines) && Play(e, lines + [line]) == Play(e, lines)
  {
    HearAtEnd(e, lines, line);
    QuietIsIgnored(EnvAfter(e, lines), line);
    assert Play(e, lines) + [] == Play(e, lines);
  }

  lemma PlayTitle(header: seq<Line>)
    ensures EnvAfter(BARE, [M3U] + header) == EnvAfter(BARE, header) && Play(BARE, [M3U] + header) == Play(BARE, header)
  {
    QuietLine(BARE, [], M3U);
    assert [] + [M3U] == [M3U];
    EnvAfterAppend(BARE, [M3U], header);
  }

  lemma PlayPreamble(s: Scan)
    requires Shaped(s)
    ensures Play(BARE, Preamble(s)) == [] && EnvAfter(BARE, Preamble(s)) == EnvAfter(BARE, s.header)
  {
    var start := StartTag(TotalDuration(s.blocks[Dropped(|s.blocks|)..]));
    var number := MediaSequence(s.sequence + Dropped(|s.blocks|));
    var header := ServedHeader(s);
    PlayHeader(s.header);
    PlayTitle(s.header);
    if start == [] {
      assert header + start == header;
    } else {
      QuietLine(BARE, header, start[0]);
      assert header + start == header + [start[0]];
    }
    QuietLine(BARE, header + start, number);
  }

  /** The input's segments are those of its blocks. */
  lemma PlayInput(lines: seq<Line>)
    ensures var s := TakeAll(lines);
            Segments(lines) == Play(EnvAfter(BARE, s.header), Flatten(s.blocks)) && |Segments(lines)| == |s.blocks|
  {
    var s := TakeAll(lines);
    ScanIsFaithful(lines);
    PlayBody(s);
  }

  lemma PlayBody(s: Scan)
    requires Shaped(s)
    ensures Play(BARE, Body(s)) == Play(EnvAfter(BARE, s.header), Flatten(s.blocks))
    ensures |Play(BARE, Body(s))| == |s.blocks|
  {
    var all := Flatten(s.blocks);
    assert Play(BARE, Body(s)) == Play(BARE, s.header + all) by {
      EnvAfterAppend(BARE, s.header + all, s.pending);
      PlayTags(EnvAfter(BARE, s.header + all), s.pending);
    }
    assert Play(BARE, s.header + all) == Play(EnvAfter(BARE, s.header), all) by {
      EnvAfterAppend(BARE, s.header, all);
      PlayHeader(s.header);
    }
    PlayBlocks(EnvAfter(BARE, s.header), s.blocks);
  }

  lemma PlayParts(e: Env, first: seq<Block>, rest: seq<Block>)
    requires (forall i :: 0 <= i < |first| ==> IsBlock(first[i])) && (forall i :: 0 <= i < |rest| ==> IsBlock(rest[i]))
    ensures var all := Play(e, Flatten(first + rest));
            |all| == |first| + |rest| && all[|first|..] == Play(EnvAfter(e, Flatten(first)), Flatten(rest))
  {
    FlattenAppend(first, rest);
    EnvAfterAppend(e, Flatten(first), Flatten(rest));
    PlayBlocks(e, first);
    PlayBlocks(EnvAfter(e, Flatten(first)), rest);
    DropFirst(Play(e, Flatten(first)), Play(EnvAfter(e, Flatten(first)), Flatten(rest)));
  }

  lemma PlayCut(e: Env, blocks: seq<Block>, d: nat)
    requires d <= |blocks| && forall i :: 0 <= i < |blocks| ==> IsBlock(blocks[i])
    ensures |Play(e, Flatten(blocks))| == |blocks|
    ensures Play(e, Flatten(blocks))[d..] == Play(EnvAfter(e, Flatten(blocks[..d])), Flatten(blocks[d..]))
  {
    assert blocks == blocks[..d] + blocks[d..];
    PlayParts(e, blocks[..d], blocks[d..]);
  }

  lemma DropFirst(a: seq<Media>, b: seq<Media>)
    ensures (a + b)[|a|..] == b
  {
  }

  lemma PlayWindow(s: Scan)
    requires Shaped(s)
    ensures Segments(Window(s)) == Play(EnvAfter(BARE, s.header), Flatten(s.blocks[Dropped(|s.blocks|)..]))
  {
    var kept := Flatten(s.blocks[Dropped(|s.blocks|)..]);
    PlayPreamble(s);
    EnvAfterAppend(BARE, Preamble(s), kept);
  }

  /** Addresses never depend on what is in effect; durations only on the duration left over. */
  lemma {:induction false} PlayAlike(e1: Env, e2: Env, lines: seq<Line>)
    requires e1.duration == e2.duration
    ensures EnvAfter(e1, lines).duration == EnvAfter(e2, lines).duration
    ensures |Play(e1, lines)| == |Play(e2, lines)|
    ensures forall i :: 0 <= i < |Play(e1, lines)| ==>
              && Play(e1, lines)[i].address == Play(e2, lines)[i].address
              && Play(e1, lines)[i].duration == Play(e2, lines)[i].duration
  {
    if lines != [] {
      PlayAlike(e1, e2, lines[..|lines| - 1]);
    }
  }

  // ----- What a block's tags declare ---------------------------------------------------

  /** The key formats for which some tag, encrypting or not, takes effect. */
  function Declared(tags: seq<Line>): set<string> {
    if tags == [] then {}
    else
      var last := tags[|tags| - 1];
      Declared(tags[..|tags| - 1]) + if last.Key? then {last.format} else {}
  }

  predicate HasMap(tags: seq<Line>) {
    tags != [] && (tags[|tags| - 1].MapTag? || HasMap(tags[..|tags| - 1]))
  }

  /** Those of them declared before the last map. */
  function DeclaredBeforeMap(tags: seq<Line>): set<string> {
    if tags == [] then {}
    else if tags[|tags| - 1].MapTag? then Declared(tags[..|tags| - 1])
    else DeclaredBeforeMap(tags[..|tags| - 1])
  }

  /** The discontinuity number is set, not only counted on. */
  predicate Resets(tags: seq<Line>) {
    tags != [] && (tags[|tags| - 1].DiscontinuitySequence? || Resets(tags[..|tags| - 1]))
  }

  function Merge(keys: map<string, Line>, declared: set<string>, own: map<string, Line>): map<string, Line> {
    (keys - declared) + own
  }

  /** What `e` leaves in effect under tags that declare these formats and on their own leave `own`. */
  function Laid(e: Env, declared: set<string>, beforeMap: set<string>, resets: bool, own: Env): Env {
    Env(Merge(e.keys, declared, own.keys),
        if own.initMap.None? then e.initMap
        else Some(Init(own.initMap.value.tag, Merge(e.keys, beforeMap, own.initMap.value.keys))),
        own.duration,
        if own.asked.Some? then own.asked else e.asked,
        e.previous,
        if resets then own.discontinuity else e.discontinuity + own.discontinuity,
        e.names)
  }

  function Overlay(e: Env, tags: seq<Line>, own: Env): Env {
    Laid(e, Declared(tags), DeclaredBeforeMap(tags), Resets(tags), own)
  }

  lemma MergeHears(keys: map<string, Line>, declared: set<string>, own: map<string, Line>, line: Line)
    requires line.Key?
    ensures Merge(keys, declared, own)[line.format := line]
              == Merge(keys, declared + {line.format}, own[line.format := line])
    ensures Merge(keys, declared, own) - {line.format} == Merge(keys, declared + {line.format}, own - {line.format})
  {
  }

  lemma DeclaredStep(tags: seq<Line>, line: Line)
    ensures Declared(tags + [line]) == Declared(tags) + (if line.Key? then {line.format} else {})
    ensures HasMap(tags + [line]) == (line.MapTag? || HasMap(tags))
    ensures DeclaredBeforeMap(tags + [line]) == (if line.MapTag? then Declared(tags) else DeclaredBeforeMap(tags))
    ensures Resets(tags + [line]) == (line.DiscontinuitySequence? || Resets(tags))
  {
    assert (tags + [line])[..|tags|] == tags;
  }

  lemma LaidHears(e: Env, declared: set<string>, beforeMap: set<string>, resets: bool, own: Env, line: Line)
    requires InBlock(line)
    ensures Hear(Laid(e, declared, beforeMap, resets, own), line)
         == Laid(e, declared + (if line.Key? then {line.format} else {}), if line.MapTag? then declared else beforeMap,
                 line.DiscontinuitySequence? || resets, Hear(own, line))
  {
    if line.Key? {
      MergeHears(e.keys, declared, own.keys, line);
    } else {
      assert declared + {} == declared;
    }
  }

  lemma OverlayHears(e: Env, tags: seq<Line>, own: Env, line: Line)
    requires InBlock(line)
    ensures Hear(Overlay(e, tags, own), line) == Overlay(e, tags + [line], Hear(own, line))
  {
    DeclaredStep(tags, line);
    LaidHears(e, Declared(tags), DeclaredBeforeMap(tags), Resets(tags), own, line);
  }

  lemma OverlayNothing(e: Env)
    requires e.duration == 0.0
    ensures Overlay(e, [], BARE) == e
  {
    assert Merge(e.keys, {}, map[]) == e.keys;
  }

  /** What a block's tags declare decides what is in effect after them. */
  lemma {:induction false} EnvFromTags(e: Env, tags: seq<Line>)
    requires e.duration == 0.0 && forall i :: 0 <= i < |tags| ==> InBlock(tags[i])
    ensures EnvAfter(e, tags) == Overlay(e, tags, EnvAfter(BARE, tags))
  {
    if tags == [] {
      OverlayNothing(e);
    } else {
      var before, last := tags[..|tags| - 1], tags[|tags| - 1];
      EnvFromTags(e, before);
      OverlayHears(e, before, EnvAfter(BARE, before), last);
      assert before + [last] == tags;
    }
  }

  /** What is in effect is only what is declared. */
  predicate OnlyDeclared(own: Env, declared: set<string>, hasMap: bool, beforeMap: set<string>) {
    && own.keys.Keys <= declared && (own.initMap.Some? <==> hasMap)
    && (own.initMap.Some? ==> own.initMap.value.keys.Keys <= beforeMap)
    && beforeMap <= declared && own.previous == None
  }

  lemma OwnStep(own: Env, declared: set<string>, hasMap: bool, beforeMap: set<string>, line: Line)
    requires OnlyDeclared(own, declared, hasMap, beforeMap) && InBlock(line)
    ensures OnlyDeclared(Hear(own, line), declared + (if line.Key? then {line.format} else {}), line.MapTag? || hasMap,
                         if line.MapTag? then declared else beforeMap)
  {
  }

  /** On their own the tags leave only what they declare. */
  lemma {:induction false} OwnFromTags(tags: seq<Line>)
    requires forall i :: 0 <= i < |tags| ==> InBlock(tags[i])
    ensures OnlyDeclared(EnvAfter(BARE, tags), Declared(tags), HasMap(tags), DeclaredBeforeMap(tags))
  {
    if tags != [] {
      var before, last := tags[..|tags| - 1], tags[|tags| - 1];
      OwnFromTags(before);
      OwnStep(EnvAfter(BARE, before), Declared(before), HasMap(before), DeclaredBeforeMap(before), last);
    }
  }

  // ----- The first block decides -------------------------------------------------------

  /** The same segments, but for their discontinuity numbers. */
  predicate SameTags(a: seq<Media>, b: seq<Media>) {
    |a| == |b| && forall i :: 0 <= i < |a| ==> a[i].(discontinuity := 0) == b[i].(discontinuity := 0)
  }

  predicate SameNumbers(a: seq<Media>, b: seq<Media>) {
    |a| == |b| && forall i :: 0 <= i < |a| ==> a[i].discontinuity == b[i].discontinuity
  }

  lemma {:induction false} PlaySameTags(e1: Env, e2: Env, lines: seq<Line>)
    requires e1.(discontinuity := 0) == e2.(discontinuity := 0)
    ensures SameTags(Play(e1, lines), Play(e2, lines))
    ensures EnvAfter(e1, lines).(discontinuity := 0) == EnvAfter(e2, lines).(discontinuity := 0)
  {
    if lines != [] {
      PlaySameTags(e1, e2, lines[..|lines| - 1]);
    }
  }

  lemma {:induction false} PlaySameNumbers(e1: Env, e2: Env, lines: seq<Line>)
    requires e1.discontinuity == e2.discontinuity
    ensures SameNumbers(Play(e1, lines), Play(e2, lines))
    ensures EnvAfter(e1, lines).discontinuity == EnvAfter(e2, lines).discontinuity
  {
    if lines != [] {
      PlaySameNumbers(e1, e2, lines[..|lines| - 1]);
    }
  }

  lemma PlayFirst(e: Env, blocks: seq<Block>)
    requires blocks != [] && forall i :: 0 <= i < |blocks| ==> IsBlock(blocks[i])
    ensures var first := EnvAfter(e, Tags(blocks[0]));
            Play(e, Flatten(blocks))
            == [MediaAt(first, Address(blocks[0]))] + Play(HearSegment(first, Address(blocks[0])), Flatten(blocks[1..]))
  {
    var first, rest := blocks[..1], blocks[1..];
    assert blocks == first + rest;
    FlattenAppend(first, rest);
    assert first[..0] == [] && Flatten(first) == [] + blocks[0].lines == blocks[0].lines;
    EnvAfterAppend(e, blocks[0].lines, Flatten(rest));
    PlayBlock(e, blocks[0]);
  }

  lemma FirstDecidesTags(m1: Media, m2: Media, rest1: seq<Media>, rest2: seq<Media>)
    requires m1.(discontinuity := 0) == m2.(discontinuity := 0) ==> SameTags(rest1, rest2)
    requires m1.discontinuity == m2.discontinuity ==> SameNumbers(rest1, rest2)
    ensures SameTags([m1] + rest1, [m2] + rest2) <==> m1.(discontinuity := 0) == m2.(discontinuity := 0)
    ensures SameNumbers([m1] + rest1, [m2] + rest2) <==> m1.discontinuity == m2.discontinuity
  {
    var a, b := [m1] + rest1, [m2] + rest2;
    assert a[0] == m1 && b[0] == m2;
  }

  /** Two starts give the same segments exactly when they give the same first one. */
  lemma FirstBlockDecides(e1: Env, e2: Env, blocks: seq<Block>)
    requires blocks != [] && (forall i :: 0 <= i < |blocks| ==> IsBlock(blocks[i])) && e1.names == e2.names
    ensures var m1 := MediaAt(EnvAfter(e1, Tags(blocks[0])), Address(blocks[0]));
            var m2 := MediaAt(EnvAfter(e2, Tags(blocks[0])), Address(blocks[0]));
            && (SameTags(Play(e1, Flatten(blocks)), Play(e2, Flatten(blocks)))
                <==> m1.(discontinuity := 0) == m2.(discontinuity := 0))
            && (SameNumbers(Play(e1, Flatten(blocks)), Play(e2, Flatten(blocks)))
                <==> m1.discontinuity == m2.discontinuity)
  {
    var address, rest := Address(blocks[0]), Flatten(blocks[1..]);
    var f1, f2 := EnvAfter(e1, Tags(blocks[0])), EnvAfter(e2, Tags(blocks[0]));
    PlayFirst(e1, blocks);
    PlayFirst(e2, blocks);
    assert f1.names == f2.names by {
      NamesStay(e1, Tags(blocks[0]));
      NamesStay(e2, Tags(blocks[0]));
    }
    RestFollows(f1, f2, address, rest);
    FirstDecidesTags(MediaAt(f1, address), MediaAt(f2, address),
                     Play(HearSegment(f1, address), rest), Play(HearSegment(f2, address), rest));
  }

  /** After a segment that is the same, all that follow are. */
  lemma RestFollows(f1: Env, f2: Env, address: string, rest: seq<Line>)
    requires f1.names == f2.names
    ensures MediaAt(f1, address).(discontinuity := 0) == MediaAt(f2, address).(discontinuity := 0)
            ==> SameTags(Play(HearSegment(f1, address), rest), Play(HearSegment(f2, address), rest))
    ensures f1.discontinuity == f2.discontinuity
            ==> SameNumbers(Play(HearSegment(f1, address), rest), Play(HearSegment(f2, address), rest))
  {
    if MediaAt(f1, address).(discontinuity := 0) == MediaAt(f2, address).(discontinuity := 0) {
      PlaySameTags(HearSegment(f1, address), HearSegment(f2, address), rest);
    }
    if f1.discontinuity == f2.discontinuity {
      PlaySameNumbers(HearSegment(f1, address), HearSegment(f2, address), rest);
    }
  }

  lemma {:induction false} NamesStay(e: Env, lines: seq<Line>)
    ensures EnvAfter(e, lines).names == e.names
  {
    if lines != [] {
      NamesStay(e, lines[..|lines| - 1]);
    }
  }

  /** What is in effect where the window begins, if nothing is cut off. */
  function AtCut(s: Scan): Env {
    EnvAfter(EnvAfter(BARE, s.header), Flatten(s.blocks[..Dropped(|s.blocks|)]))
  }

  /** The byte range of the first kept segment does not depend on what is cut off, or on the header. */
  predicate RangeStands(own: Option<Asked>, inHeader: Option<Asked>, previous: Option<Previous>, resource: string) {
    if own.None? then inHeader.None?
    else own.value.offset.Some? || previous.None? || previous.value.resource != resource
  }

  /** The byte range that the last of these tags asks for. */
  function Asks(tags: seq<Line>): Option<Asked> {
    EnvAfter(BARE, tags).asked
  }

  /**
   These tags make up for the cut. They declare every key format in effect there, before
   their map if they have one; they have one if one is in effect; and their byte range, if
   any, has an offset (or had nothing to continue), while the header has none to lend them.
   */
  predicate Redeclares(
    keys: set<string>, hasMap: bool, previous: Option<Previous>, inHeader: Option<Asked>, tags: seq<Line>,
    resource: string)
  {
    && keys <= Declared(tags)
    && (if HasMap(tags) then keys <= DeclaredBeforeMap(tags) else !hasMap)
    && RangeStands(Asks(tags), inHeader, previous, resource)
  }

  predicate BlockRedeclares(cut: Env, inHeader: Option<Asked>, b: Block) {
    Redeclares(cut.keys.Keys, cut.initMap.Some?, cut.previous, inHeader, Tags(b), Address(b))
  }

  predicate CutRedeclares(s: Scan) {
    var d := Dropped(|s.blocks|);
    d < |s.blocks| && BlockRedeclares(AtCut(s), Asks(s.header), s.blocks[d])
  }

  predicate CutRenumbers(s: Scan) {
    var d := Dropped(|s.blocks|);
    d < |s.blocks| && (AtCut(s).discontinuity == 0 || Resets(Tags(s.blocks[d])))
  }

  /** Starting from `start` instead of `cut` changes nothing exactly when the first block redeclares. */
  lemma StartAgainstCut(cut: Env, start: Env, blocks: seq<Block>)
    requires blocks != [] && forall i :: 0 <= i < |blocks| ==> IsBlock(blocks[i])
    requires cut.duration == 0.0 && cut.asked == None && cut.names == ITSELF && start == BARE.(asked := start.asked)
    ensures SameTags(Play(start, Flatten(blocks)), Play(cut, Flatten(blocks)))
            <==> BlockRedeclares(cut, start.asked, blocks[0])
    ensures SameNumbers(Play(start, Flatten(blocks)), Play(cut, Flatten(blocks)))
            <==> cut.discontinuity == 0 || Resets(Tags(blocks[0]))
  {
    FirstBlockDecides(start, cut, blocks);
    SameFirst(cut, start, blocks[0]);
  }

  lemma SameFirst(cut: Env, start: Env, b: Block)
    requires IsBlock(b)
    requires cut.duration == 0.0 && cut.asked == None && cut.names == ITSELF && start == BARE.(asked := start.asked)
    ensures var m1, m2 := MediaAt(EnvAfter(start, Tags(b)), Address(b)), MediaAt(EnvAfter(cut, Tags(b)), Address(b));
            && (m1.(discontinuity := 0) == m2.(discontinuity := 0) <==> BlockRedeclares(cut, start.asked, b))
            && (m1.discontinuity == m2.discontinuity <==> cut.discontinuity == 0 || Resets(Tags(b)))
  {
    var tags, own := Tags(b), EnvAfter(BARE, Tags(b));
    assert EnvAfter(cut, tags) == Overlay(cut, tags, own) && EnvAfter(start, tags) == Overlay(start, tags, own) by {
      EnvFromTags(cut, tags);
      EnvFromTags(start, tags);
    }
    OwnFromTags(tags);
    SameOverlay(cut, start, tags, own, Address(b));
  }

  lemma SameOverlay(cut: Env, start: Env, tags: seq<Line>, own: Env, address: string)
    requires cut.asked == None && cut.names == ITSELF && start == BARE.(asked := start.asked)
    requires OnlyDeclared(own, Declared(tags), HasMap(tags), DeclaredBeforeMap(tags))
    ensures MediaAt(Overlay(start, tags, own), address).(discontinuity := 0)
            == MediaAt(Overlay(cut, tags, own), address).(discontinuity := 0)
            <==> && cut.keys.Keys <= Declared(tags)
                 && (if HasMap(tags) then cut.keys.Keys <= DeclaredBeforeMap(tags) else cut.initMap.None?)
                 && RangeStands(own.asked, start.asked, cut.previous, address)
  {
    MergedAway(cut.keys, Declared(tags), own.keys);
    if own.initMap.Some? {
      MergedAway(cut.keys, DeclaredBeforeMap(tags), own.initMap.value.keys);
    }
    SameRange(cut, start, own.asked, address);
  }

  lemma SameRange(cut: Env, start: Env, own: Option<Asked>, address: string)
    requires cut.asked == None && cut.names == ITSELF && start.previous == None
    ensures RangeAt(start.(asked := if own.Some? then own else start.asked), address)
            == RangeAt(cut.(asked := if own.Some? then own else cut.asked), address)
            <==> RangeStands(own, start.asked, cut.previous, address)
  {
  }

  /** The declared formats hide exactly the keys of those formats. */
  lemma MergedAway(keys: map<string, Line>, declared: set<string>, own: map<string, Line>)
    requires own.Keys <= declared
    ensures Merge(map[], declared, own) == Merge(keys, declared, own) <==> keys.Keys <= declared
  {
    assert Merge(map[], declared, own) == own;
    if f :| f in keys && f !in declared {
      assert f in Merge(keys, declared, own) && f !in own;
    } else {
      assert Merge(keys, declared, own) == own;
    }
  }

  lemma InputAfterCut(lines: seq<Line>)
    ensures var s := TakeAll(lines); var d := Dropped(|s.blocks|);
            && |Segments(lines)| == |s.blocks| && Segments(lines)[d..] == Play(AtCut(s), Flatten(s.blocks[d..]))
            && AtCut(s).duration == 0.0 && AtCut(s).names == ITSELF && (d > 0 ==> AtCut(s).asked == None)
  {
    var s := TakeAll(lines);
    var d := Dropped(|s.blocks|);
    var start, first := EnvAfter(BARE, s.header), s.blocks[..d];
    PlayInput(lines);
    assert Shaped(s) by {
      ScanIsFaithful(lines);
    }
    assert start == BARE.(asked := start.asked) by {
      PlayHeader(s.header);
    }
    PlayCut(start, s.blocks, d);
    EnvAtCut(start, first);
  }

  lemma EnvAtCut(start: Env, first: seq<Block>)
    requires start.duration == 0.0 && forall i :: 0 <= i < |first| ==> IsBlock(first[i])
    ensures var cut := EnvAfter(start, Flatten(first));
            cut.duration == 0.0 && cut.names == start.names && (first != [] ==> cut.asked == None)
  {
    PlayBlocks(start, first);
    NamesStay(start, Flatten(first));
  }

  lemma WindowAgainstInput(lines: seq<Line>)
    requires TakeAll(lines).blocks != []
    ensures var s := TakeAll(lines); var d := Dropped(|s.blocks|); var out := Window(s);
            && |Segments(lines)| == |s.blocks| && |Segments(out)| == |s.blocks| - d
            && (forall i :: 0 <= i < |Segments(out)| ==>
                  && Segments(out)[i].address == Segments(lines)[d..][i].address
                  && Segments(out)[i].duration == Segments(lines)[d..][i].duration)
            && (SameTags(Segments(out), Segments(lines)[d..]) <==> d == 0 || CutRedeclares(s))
            && (SameNumbers(Segments(out), Segments(lines)[d..]) <==> d == 0 || CutRenumbers(s))
  {
    var s := TakeAll(lines);
    var d := Dropped(|s.blocks|);
    var kept := s.blocks[d..];
    var start := EnvAfter(BARE, s.header);
    InputAfterCut(lines);
    ScanIsFaithful(lines);
    assert Segments(Window(s)) == Play(start, Flatten(kept)) by {
      PlayWindow(s);
    }
    assert start == BARE.(asked := start.asked) by {
      PlayHeader(s.header);
    }
    PlayAlike(start, AtCut(s), Flatten(kept));
    if d == 0 {
      assert s.blocks[..d] == [] && AtCut(s) == start;
    } else {
      StartAgainstCut(AtCut(s), start, kept);
    }
  }

  lemma {:induction false} BaseAppend(a: seq<Line>, b: seq<Line>)
    requires forall i :: 0 <= i < |b| ==> !b[i].MediaSequence?
    ensures Base(a + b) == Base(a)
  {
    if b == [] {
      assert a + b == a;
    } else {
      assert (a + b)[..|a + b| - 1] == a + b[..|b| - 1];
      BaseAppend(a, b[..|b| - 1]);
    }
  }

  lemma {:induction false} BlocksAreUnnumbered(blocks: seq<Block>)
    requires forall i :: 0 <= i < |blocks| ==> IsBlock(blocks[i])
    ensures forall i :: 0 <= i < |Flatten(blocks)| ==> !Flatten(blocks)[i].MediaSequence?
  {
    if blocks != [] {
      BlocksAreUnnumbered(blocks[..|blocks| - 1]);
    }
  }

  lemma BaseOfWindow(lines: seq<Line>)
    ensures var s := TakeAll(lines); Base(Window(s)) == Base(lines) + Dropped(|s.blocks|)
  {
    var s := TakeAll(lines);
    var kept := s.blocks[Dropped(|s.blocks|)..];
    ScanIsFaithful(lines);
    BlocksAreUnnumbered(kept);
    BaseAppend(Preamble(s), Flatten(kept));
  }

  // ----- Proxying commutes with reading ----------------------------------------------

  function ProxiedUri(uri: Option<string>, proxy: string -> string): Option<string> {
    if uri.None? then None else Some(proxy(uri.value))
  }

  /** The same key or map, loaded through the proxy. */
  function ProxiedTag(tag: Line, proxy: string -> string): Line {
    match tag
    case Key(format, encrypts, uri, text) => Key(format, encrypts, ProxiedUri(uri, proxy), text)
    case MapTag(uri, text) => MapTag(ProxiedUri(uri, proxy), text)
    case _ => tag
  }

  function ProxiedKeys(keys: map<string, Line>, proxy: string -> string): map<string, Line> {
    map f | f in keys :: ProxiedTag(keys[f], proxy)
  }

  function ProxiedInit(i: Option<Init>, proxy: string -> string): Option<Init> {
    if i.None? then None else Some(Init(ProxiedTag(i.value.tag, proxy), ProxiedKeys(i.value.keys, proxy)))
  }

  /** Proxied URIs name what they are. */
  function ProxiedEnv(e: Env, proxy: string -> string): Env {
    e.(keys := ProxiedKeys(e.keys, proxy), initMap := ProxiedInit(e.initMap, proxy), names := ITSELF)
  }

  function Proxied(m: Media, proxy: string -> string): Media {
    m.(address := proxy(m.address), keys := ProxiedKeys(m.keys, proxy), initMap := ProxiedInit(m.initMap, proxy))
  }

  function ProxiedAll(medias: seq<Media>, proxy: string -> string): seq<Media> {
    seq(|medias|, i requires 0 <= i < |medias| => Proxied(medias[i], proxy))
  }

  lemma ProxiedKeysHear(keys: map<string, Line>, line: Line, proxy: string -> string)
    requires line.Key?
    ensures ProxiedKeys(keys[line.format := line], proxy)
              == ProxiedKeys(keys, proxy)[line.format := ProxiedTag(line, proxy)]
    ensures ProxiedKeys(keys - {line.format}, proxy) == ProxiedKeys(keys, proxy) - {line.format}
  {
  }

  lemma RewrittenTag(line: Line, proxy: string -> string)
    requires line.Key? || line.MapTag?
    ensures RewriteLine(line, proxy) == ProxiedTag(line, proxy)
  {
  }

  lemma HearProxied(e: Env, line: Line, proxy: string -> string)
    requires e.names == proxy
    ensures Hear(ProxiedEnv(e, proxy), RewriteLine(line, proxy)) == ProxiedEnv(Hear(e, line), proxy)
    ensures line.Segment?
            ==> MediaAt(ProxiedEnv(e, proxy), proxy(line.address)) == Proxied(MediaAt(e, line.address), proxy)
  {
    if line.Key? || line.MapTag? {
      RewrittenTag(line, proxy);
    }
    if line.Key? {
      ProxiedKeysHear(e.keys, line, proxy);
    }
  }

  /**
   Reading a rewritten playlist is rewriting what is read, tag by tag and segment by
   segment; two URIs name one resource if they are proxied alike.
   */
  lemma {:induction false} ReadingProxied(lines: seq<Line>, proxy: string -> string)
    ensures Segments(RewriteLines(lines, proxy)) == ProxiedAll(Read(lines, proxy), proxy)
    ensures EnvAfter(BARE, RewriteLines(lines, proxy)) == ProxiedEnv(EnvAfter(Fresh(proxy), lines), proxy)
    ensures Base(RewriteLines(lines, proxy)) == Base(lines)
  {
    if lines == [] {
      assert ProxiedEnv(Fresh(proxy), proxy) == BARE;
    } else {
      var before, line := lines[..|lines| - 1], lines[|lines| - 1];
      ReadingProxied(before, proxy);
      var rewritten := RewriteLines(before, proxy);
      HearAtEnd(BARE, rewritten, RewriteLine(line, proxy));
      assert (rewritten + [RewriteLine(line, proxy)])[..|rewritten|] == rewritten;
      NamesStay(Fresh(proxy), before);
      HearProxied(EnvAfter(Fresh(proxy), before), line, proxy);
    }
  }

  /** Addresses, durations and discontinuity numbers do not depend on what URIs name. */
  predicate SameSegments(a: seq<Media>, b: seq<Media>) {
    |a| == |b|
    && forall i :: 0 <= i < |a| ==>
         a[i].address == b[i].address && a[i].duration == b[i].duration && a[i].discontinuity == b[i].discontinuity
  }

  lemma NamesDoNotMatter(lines: seq<Line>, names: string -> string)
    ensures SameSegments(Read(lines, names), Segments(lines))
  {
    PlayAlike(Fresh(names), BARE, lines);
    PlaySameNumbers(Fresh(names), BARE, lines);
  }

  // ----- Where the URIs of a rewritten playlist come from --------------------------------

  function UriOf(line: Line): Option<string> {
    match line
    case Key(_, _, u, _) => u
    case MapTag(u, _) => u
    case Tag(_, u) => u
    case Segment(u) => Some(u)
    case _ => None
  }

  ghost predicate Mentions(lines: seq<Line>, uri: string) {
    exists i :: 0 <= i < |lines| && UriOf(lines[i]) == Some(uri)
  }

  /** `uri` is what the proxy makes of a URI of the playlist. */
  ghost predicate IsProxied(uri: string, lines: seq<Line>, proxy: string -> string) {
    exists i :: 0 <= i < |lines| && UriOf(lines[i]).Some? && uri == proxy(UriOf(lines[i]).value)
  }

  ghost predicate AllProxied(out: seq<Line>, lines: seq<Line>, proxy: string -> string) {
    forall i :: 0 <= i < |out| && UriOf(out[i]).Some? ==> IsProxied(UriOf(out[i]).value, lines, proxy)
  }

  ghost predicate BlocksProxied(blocks: seq<Block>, lines: seq<Line>, proxy: string -> string) {
    forall i :: 0 <= i < |blocks| ==> AllProxied(blocks[i].lines, lines, proxy)
  }

  ghost predicate ScanProxied(s: Scan, lines: seq<Line>, proxy: string -> string) {
    AllProxied(s.header, lines, proxy) && AllProxied(s.pending, lines, proxy) && BlocksProxied(s.blocks, lines, proxy)
  }

  lemma AppendProxied(out: seq<Line>, line: Line, lines: seq<Line>, proxy: string -> string)
    requires AllProxied(out, lines, proxy) && (UriOf(line).Some? ==> IsProxied(UriOf(line).value, lines, proxy))
    ensures AllProxied(out + [line], lines, proxy)
  {
  }

  lemma TakeProxied(s: Scan, line: Line, lines: seq<Line>, proxy: string -> string)
    requires ScanProxied(s, lines, proxy) && (UriOf(line).Some? ==> IsProxied(UriOf(line).value, lines, proxy))
    ensures ScanProxied(Take(s, line), lines, proxy)
  {
    AppendProxied(s.pending, line, lines, proxy);
    AppendProxied(s.header, line, lines, proxy);
  }

  lemma RewriteIsProxied(lines: seq<Line>, i: nat, proxy: string -> string)
    requires i < |lines|
    ensures var line := RewriteLine(lines[i], proxy); UriOf(line).Some? ==> IsProxied(UriOf(line).value, lines, proxy)
  {
    var line := RewriteLine(lines[i], proxy);
    if UriOf(line).Some? {
      assert UriOf(lines[i]).Some? && UriOf(line).value == proxy(UriOf(lines[i]).value);
    }
  }

  lemma {:induction false} ScanOfProxied(rewritten: seq<Line>, lines: seq<Line>, proxy: string -> string)
    requires AllProxied(rewritten, lines, proxy)
    ensures ScanProxied(TakeAll(rewritten), lines, proxy)
  {
    if rewritten != [] {
      var before, last := rewritten[..|rewritten| - 1], rewritten[|rewritten| - 1];
      ScanOfProxied(before, lines, proxy);
      TakeProxied(TakeAll(before), last, lines, proxy);
    }
  }

  lemma RewrittenAreProxied(lines: seq<Line>, proxy: string -> string)
    ensures AllProxied(RewriteLines(lines, proxy), lines, proxy)
  {
    RewriteLength(lines, proxy);
    forall i | 0 <= i < |lines| { RewriteIsProxied(lines, i, proxy); }
  }

  lemma {:induction false} FlattenProxied(blocks: seq<Block>, lines: seq<Line>, proxy: string -> string)
    requires BlocksProxied(blocks, lines, proxy)
    ensures AllProxied(Flatten(blocks), lines, proxy)
  {
    if blocks != [] {
      FlattenProxied(blocks[..|blocks| - 1], lines, proxy);
    }
  }

  lemma WindowProxied(s: Scan, lines: seq<Line>, proxy: string -> string)
    requires ScanProxied(s, lines, proxy)
    ensures AllProxied(Window(s), lines, proxy)
  {
    var kept := s.blocks[Dropped(|s.blocks|)..];
    FlattenProxied(kept, lines, proxy);
    var quiet := StartTag(TotalDuration(kept)) + [MediaSequence(s.sequence + Dropped(|s.blocks|))];
    assert AllProxied(quiet, lines, proxy);
    assert AllProxied([M3U] + s.header, lines, proxy);
    assert Preamble(s) == ServedHeader(s) + quiet;
  }

  /**
   Keys, maps, segments and all: a rewritten playlist has no URI that did not go through its
   proxy; only a rolling one without segments is passed on as it came.
   */
  lemma EveryUriIsProxied(lines: seq<Line>, proxy: string -> string, vodProxy: string -> string)
    ensures var out := Rewritten(lines, proxy, vodProxy);
            if IsVod(lines) then AllProxied(out, lines, vodProxy)
            else if Segments(lines) != [] then AllProxied(out, lines, proxy)
            else out == lines
  {
    if IsVod(lines) {
      RewrittenAreProxied(lines, vodProxy);
    } else {
      var rewritten := RewriteLines(lines, proxy);
      assert |TakeAll(rewritten).blocks| == |Segments(lines)| by {
        ReadingProxied(lines, proxy);
        NamesDoNotMatter(lines, proxy);
        PlayInput(rewritten);
      }
      if Segments(lines) != [] {
        RewrittenAreProxied(lines, proxy);
        ScanOfProxied(rewritten, lines, proxy);
        WindowProxied(TakeAll(rewritten), lines, proxy);
      }
    }
  }

  // ----- Results: one playlist ---------------------------------------------------------

  /** `out` is the segments from the `d`-th on, proxied. */
  predicate IsEdge(out: seq<Media>, segments: seq<Media>, d: nat, proxy: string -> string) {
    && d <= |segments| && |out| == |segments| - d
    && forall i :: 0 <= i < |out| ==>
         out[i].address == proxy(segments[d + i].address) && out[i].duration == segments[d + i].duration
  }

  /**
   The served playlist is the last min(8, n) segments in order, each under its own number
   and with its own duration, whatever the playlist contains.
   */
  lemma ServesTheEdge(lines: seq<Line>, proxy: string -> string)
    ensures var d := Dropped(|Segments(lines)|); var out := Rolling(lines, proxy);
            IsEdge(Segments(out), Segments(lines), d, proxy) && Base(out) == Base(lines) + d
  {
    var rewritten, read := RewriteLines(lines, proxy), Read(lines, proxy);
    NamesDoNotMatter(lines, proxy);
    assert Segments(rewritten) == ProxiedAll(read, proxy) && Base(rewritten) == Base(lines) by {
      ReadingProxied(lines, proxy);
    }
    EdgeOfWindow(rewritten, read, proxy);
    RollingIs(lines, proxy);
    if read != [] {
      EdgeThrough(Segments(lines), read, Segments(Window(TakeAll(rewritten))), Dropped(|read|), proxy);
    }
  }

  lemma RollingIs(lines: seq<Line>, proxy: string -> string)
    ensures var s := TakeAll(RewriteLines(lines, proxy));
            Rolling(lines, proxy) == if s.blocks == [] then lines else Window(s)
  {
  }

  lemma EdgeThrough(segments: seq<Media>, read: seq<Media>, out: seq<Media>, d: nat, proxy: string -> string)
    requires SameSegments(read, segments) && IsEdge(out, read, d, proxy)
    ensures IsEdge(out, segments, d, proxy)
  {
  }

  lemma EdgeOfWindow(rewritten: seq<Line>, read: seq<Media>, proxy: string -> string)
    requires Segments(rewritten) == ProxiedAll(read, proxy)
    ensures var s := TakeAll(rewritten); var d := Dropped(|read|); var out := Window(s);
            && |s.blocks| == |read|
            && (read != [] ==> IsEdge(Segments(out), read, d, proxy) && Base(out) == Base(rewritten) + d)
  {
    PlayInput(rewritten);
    if read != [] {
      BaseOfWindow(rewritten);
      EdgeOfProxied(read, Segments(Window(TakeAll(rewritten))), Dropped(|read|), proxy) by {
        WindowAgainstInput(rewritten);
      }
    }
  }

  lemma EdgeOfProxied(input: seq<Media>, out: seq<Media>, d: nat, proxy: string -> string)
    requires d <= |input| && |out| == |input| - d
    requires forall i :: 0 <= i < |out| ==>
               && out[i].address == ProxiedAll(input, proxy)[d..][i].address
               && out[i].duration == ProxiedAll(input, proxy)[d..][i].duration
    ensures IsEdge(out, input, d, proxy)
  {
  }

  /** The scan of the proxied lines, which is what the rewriter does. */
  function ProxiedScan(lines: seq<Line>, proxy: string -> string): Scan {
    TakeAll(RewriteLines(lines, proxy))
  }

  lemma WindowOfProxied(lines: seq<Line>, proxy: string -> string)
    requires Segments(lines) != []
    ensures var d := Dropped(|Segments(lines)|); var s := ProxiedScan(lines, proxy);
            var wanted := ProxiedAll(Read(lines, proxy), proxy);
            && |wanted| == |Segments(lines)| == |s.blocks|
            && (SameTags(Segments(Rolling(lines, proxy)), wanted[d..]) <==> d == 0 || CutRedeclares(s))
            && (SameNumbers(Segments(Rolling(lines, proxy)), wanted[d..]) <==> d == 0 || CutRenumbers(s))
  {
    var rewritten := RewriteLines(lines, proxy);
    ReadingProxied(lines, proxy);
    NamesDoNotMatter(lines, proxy);
    PlayInput(rewritten);
    WindowAgainstInput(rewritten);
  }

  // ----- The same conditions, read off the upstream's lines -----------------------------

  function SegmentsIn(lines: seq<Line>): nat {
    if lines == [] then 0 else SegmentsIn(lines[..|lines| - 1]) + if lines[|lines| - 1].Segment? then 1 else 0
  }

  lemma {:induction false} SegmentsAreCounted(e: Env, lines: seq<Line>)
    ensures |Play(e, lines)| == SegmentsIn(lines)
  {
    if lines != [] {
      SegmentsAreCounted(e, lines[..|lines| - 1]);
    }
  }

  /** The tags of the `p`-th segment: those between it and the one before. */
  function TagsOf(lines: seq<Line>, p: nat): seq<Line> {
    if lines == [] then []
    else
      var before, last := lines[..|lines| - 1], lines[|lines| - 1];
      if InBlock(last) && SegmentsIn(before) == p then TagsOf(before, p) + [last] else TagsOf(before, p)
  }

  /** Those before the first segment that the rewriter moves into the header. */
  function HeaderTags(lines: seq<Line>): seq<Line> {
    if lines == [] then []
    else
      var before, last := lines[..|lines| - 1], lines[|lines| - 1];
      if InHeader(last) && SegmentsIn(before) == 0 then HeaderTags(before) + [last] else HeaderTags(before)
  }

  /** What a segment leaves for the next one's byte range to continue. */
  function Leaves(m: Media, names: string -> string): Option<Previous> {
    if m.range.Sub? then Some(Previous(names(m.address), m.range.start + m.range.length)) else None
  }

  /** These tags make up for what `last` was read with, for a next segment at `address`. */
  predicate RedeclaredAfter(last: Media, address: string, header: seq<Line>, tags: seq<Line>, names: string -> string) {
    Redeclares(last.keys.Keys, last.initMap.Some?, Leaves(last, names), Asks(header), tags, names(address))
  }

  /** The tags of the first served segment make up for what the last dropped one was read with. */
  predicate Redeclared(lines: seq<Line>, names: string -> string) {
    var read := Read(lines, names);
    var d := Dropped(|read|);
    d > 0 && RedeclaredAfter(read[d - 1], read[d].address, HeaderTags(lines), TagsOf(lines, d), names)
  }

  /** The last dropped segment has the number 0, or the tags of the first served one set it. */
  predicate Renumbered(lines: seq<Line>) {
    var d := Dropped(|Segments(lines)|);
    d > 0 && (Segments(lines)[d - 1].discontinuity == 0 || Resets(TagsOf(lines, d)))
  }

  lemma TagsAtEnd(lines: seq<Line>, line: Line, p: nat)
    ensures TagsOf(lines + [line], p)
         == if InBlock(line) && SegmentsIn(lines) == p then TagsOf(lines, p) + [line] else TagsOf(lines, p)
    ensures HeaderTags(lines + [line])
         == if InHeader(line) && SegmentsIn(lines) == 0 then HeaderTags(lines) + [line] else HeaderTags(lines)
    ensures SegmentsIn(lines + [line]) == SegmentsIn(lines) + if line.Segment? then 1 else 0
  {
    assert (lines + [line])[..|lines|] == lines;
  }

  lemma TagsAtSegment(lines: seq<Line>, line: Line, p: nat)
    requires line.Segment?
    ensures TagsOf(lines + [line], p) == TagsOf(lines, p) && HeaderTags(lines + [line]) == HeaderTags(lines)
    ensures SegmentsIn(lines + [line]) == SegmentsIn(lines) + 1
  {
    assert (lines + [line])[..|lines|] == lines && (lines + [line])[|lines|] == line;
  }

  lemma {:induction false} NoTagsYet(lines: seq<Line>, p: nat)
    requires p > SegmentsIn(lines)
    ensures TagsOf(lines, p) == []
  {
    if lines != [] {
      NoTagsYet(lines[..|lines| - 1], p);
    }
  }

  predicate TagsOfBlocks(lines: seq<Line>, blocks: seq<Block>) {
    forall p :: 1 <= p < |blocks| ==> Tags(blocks[p]) == TagsOf(lines, p)
  }

  /** Where the scan has put the tags of each segment. */
  predicate Placed(lines: seq<Line>, s: Scan) {
    && |s.blocks| == SegmentsIn(lines) && s.header == HeaderTags(lines) && TagsOfBlocks(lines, s.blocks)
    && (s.blocks != [] ==> s.pending == TagsOf(lines, |s.blocks|) && StartTags(Tags(s.blocks[0])) == 0)
    && (s.blocks == [] ==> StartTags(s.pending) == 0)
  }

  /** Later lines do not change the tags of closed blocks. */
  lemma TagsOfBlocksStay(lines: seq<Line>, blocks: seq<Block>, line: Line)
    requires |blocks| == SegmentsIn(lines) && TagsOfBlocks(lines, blocks)
    ensures TagsOfBlocks(lines + [line], blocks)
  {
    forall p | 1 <= p < |blocks| ensures Tags(blocks[p]) == TagsOf(lines + [line], p) {
      TagsAtEnd(lines, line, p);
    }
  }

  lemma ClosedBlockHasTags(lines: seq<Line>, blocks: seq<Block>, b: Block, line: Line)
    requires |blocks| == SegmentsIn(lines) && TagsOfBlocks(lines, blocks) && line.Segment?
    requires blocks != [] ==> Tags(b) == TagsOf(lines, |blocks|)
    ensures TagsOfBlocks(lines + [line], blocks + [b])
  {
    forall p | 1 <= p < |blocks| + 1 ensures Tags((blocks + [b])[p]) == TagsOf(lines + [line], p) {
      TagsAtSegment(lines, line, p);
      if p == |blocks| {
        assert (blocks + [b])[p] == b;
      } else {
        assert (blocks + [b])[p] == blocks[p];
      }
    }
  }

  lemma TagsOfClosed(pending: seq<Line>, line: Line, duration: real)
    ensures Tags(Block(pending + [line], duration)) == pending
  {
  }

  lemma ClosePlaces(lines: seq<Line>, s: Scan, line: Line)
    requires Placed(lines, s) && line.Segment?
    ensures Placed(lines + [line], Close(s, line))
  {
    NoTagsYet(lines, |s.blocks| + 1);
    TagsAtSegment(lines, line, |s.blocks| + 1);
    TagsOfClosed(s.pending, line, s.duration);
    ClosedBlockHasTags(lines, s.blocks, Block(s.pending + [line], s.duration), line);
  }

  lemma PendingTags(lines: seq<Line>, pending: seq<Line>, line: Line, p: nat)
    requires InBlock(line) && SegmentsIn(lines) == p && (Loose(line) || p > 0)
    requires p > 0 ==> pending == TagsOf(lines, p)
    ensures SegmentsIn(lines + [line]) == p && HeaderTags(lines + [line]) == HeaderTags(lines)
    ensures p > 0 ==> pending + [line] == TagsOf(lines + [line], p)
  {
    TagsAtEnd(lines, line, p);
  }

  lemma LooseAreNoStart(pending: seq<Line>, line: Line)
    requires StartTags(pending) == 0 && Loose(line)
    ensures StartTags(pending + [line]) == 0
  {
    StartTagsAppend(pending, [line]);
    StartTagsOfOne(line);
  }

  lemma PendPlaces(lines: seq<Line>, s: Scan, line: Line)
    requires Placed(lines, s) && InBlock(line) && (Loose(line) || s.blocks != [])
    ensures Placed(lines + [line], Pend(s, line))
  {
    PendingTags(lines, s.pending, line, |s.blocks|);
    TagsOfBlocksStay(lines, s.blocks, line);
    if s.blocks == [] {
      LooseAreNoStart(s.pending, line);
    }
  }

  lemma OtherPlaces(lines: seq<Line>, s: Scan, line: Line)
    requires Placed(lines, s) && !line.Segment? && (!InBlock(line) || (InHeader(line) && s.blocks == []))
    ensures Placed(lines + [line], Take(s, line))
  {
    TagsAtEnd(lines, line, |s.blocks|);
    TagsOfBlocksStay(lines, s.blocks, line);
  }

  lemma {:induction false} ScanPlaces(lines: seq<Line>)
    ensures Placed(lines, TakeAll(lines))
  {
    if lines != [] {
      var before, last := lines[..|lines| - 1], lines[|lines| - 1];
      var s := TakeAll(before);
      ScanPlaces(before);
      assert before + [last] == lines;
      if last.Segment? {
        ClosePlaces(before, s, last);
      } else if InBlock(last) && (Loose(last) || s.blocks != []) {
        PendPlaces(before, s, last);
      } else {
        OtherPlaces(before, s, last);
      }
    }
  }

  lemma {:induction false} TagsOfRewritten(lines: seq<Line>, p: nat, proxy: string -> string)
    ensures TagsOf(RewriteLines(lines, proxy), p) == RewriteLines(TagsOf(lines, p), proxy)
    ensures HeaderTags(RewriteLines(lines, proxy)) == RewriteLines(HeaderTags(lines), proxy)
    ensures SegmentsIn(RewriteLines(lines, proxy)) == SegmentsIn(lines)
  {
    if lines != [] {
      var before, last := lines[..|lines| - 1], lines[|lines| - 1];
      TagsOfRewritten(before, p, proxy);
      RewriteKeepsKind(last, proxy);
      TagsAtEnd(RewriteLines(before, proxy), RewriteLine(last, proxy), p);
      RewriteAtEnd(TagsOf(before, p), last, proxy);
      RewriteAtEnd(HeaderTags(before), last, proxy);
    }
  }

  lemma RewriteAtEnd(lines: seq<Line>, line: Line, proxy: string -> string)
    ensures RewriteLines(lines + [line], proxy) == RewriteLines(lines, proxy) + [RewriteLine(line, proxy)]
    ensures RewriteLines(lines + [], proxy) == RewriteLines(lines, proxy)
  {
    assert (lines + [line])[..|lines|] == lines;
    assert lines + [] == lines;
  }

  predicate DeclareAlike(a: seq<Line>, b: seq<Line>) {
    Declared(a) == Declared(b) && HasMap(a) == HasMap(b) && DeclaredBeforeMap(a) == DeclaredBeforeMap(b)
        && Resets(a) == Resets(b)
  }

  lemma AlikeAtEnd(a: seq<Line>, b: seq<Line>, x: Line, y: Line)
    requires DeclareAlike(a, b) && x.Key? == y.Key? && x.MapTag? == y.MapTag? && (x.Key? ==> x.format == y.format)
    requires x.DiscontinuitySequence? == y.DiscontinuitySequence?
    ensures DeclareAlike(a + [x], b + [y])
  {
    DeclaredStep(a, x);
    DeclaredStep(b, y);
  }

  lemma RewriteDeclares(line: Line, proxy: string -> string)
    ensures var r := RewriteLine(line, proxy);
            && r.Key? == line.Key? && r.MapTag? == line.MapTag? && (r.Key? ==> r.format == line.format)
            && r.DiscontinuitySequence? == line.DiscontinuitySequence?
  {
  }

  /** Proxying changes nothing of what tags declare, but for the URIs. */
  lemma {:induction false} RewrittenDeclare(tags: seq<Line>, proxy: string -> string)
    ensures DeclareAlike(RewriteLines(tags, proxy), tags)
  {
    if tags != [] {
      var before, last := tags[..|tags| - 1], tags[|tags| - 1];
      RewrittenDeclare(before, proxy);
      RewriteDeclares(last, proxy);
      AlikeAtEnd(RewriteLines(before, proxy), before, RewriteLine(last, proxy), last);
      assert before + [last] == tags;
    }
  }

  lemma HearAsks(e1: Env, e2: Env, line: Line, proxy: string -> string)
    requires e1.asked == e2.asked
    ensures Hear(e1, RewriteLine(line, proxy)).asked == Hear(e2, line).asked
  {
  }

  lemma {:induction false} RewrittenAsk(tags: seq<Line>, proxy: string -> string)
    ensures Asks(RewriteLines(tags, proxy)) == Asks(tags)
  {
    if tags != [] {
      var before, last := tags[..|tags| - 1], tags[|tags| - 1];
      RewrittenAsk(before, proxy);
      HearAsks(EnvAfter(BARE, RewriteLines(before, proxy)), EnvAfter(BARE, before), last, proxy);
      HearAtEnd(BARE, RewriteLines(before, proxy), RewriteLine(last, proxy));
    }
  }

  lemma SegmentLeaves(e: Env, address: string)
    requires e.names == ITSELF
    ensures var after, m := HearSegment(e, address), MediaAt(e, address);
            && after.keys == m.keys && after.initMap == m.initMap && after.discontinuity == m.discontinuity
            && after.previous == Leaves(m, ITSELF) && m.address == address
  {
  }

  /** What is in effect after a block is what its segment was read with. */
  lemma AfterLastBlock(e: Env, blocks: seq<Block>)
    requires blocks != [] && e.names == ITSELF && forall i :: 0 <= i < |blocks| ==> IsBlock(blocks[i])
    ensures |Play(e, Flatten(blocks))| == |blocks|
    ensures var after, m := EnvAfter(e, Flatten(blocks)), Play(e, Flatten(blocks))[|blocks| - 1];
            && after.keys == m.keys && after.initMap == m.initMap && after.discontinuity == m.discontinuity
            && after.previous == Leaves(m, ITSELF) && m.address == Address(blocks[|blocks| - 1])
  {
    var last := blocks[|blocks| - 1];
    var at := LastSegment(e, blocks);
    SegmentLeaves(at, Address(last));
  }

  lemma LastSegment(e: Env, blocks: seq<Block>) returns (at: Env)
    requires blocks != [] && e.names == ITSELF && forall i :: 0 <= i < |blocks| ==> IsBlock(blocks[i])
    ensures at.names == ITSELF && |Play(e, Flatten(blocks))| == |blocks|
    ensures EnvAfter(e, Flatten(blocks)) == HearSegment(at, Address(blocks[|blocks| - 1]))
    ensures Play(e, Flatten(blocks))[|blocks| - 1] == MediaAt(at, Address(blocks[|blocks| - 1]))
  {
    var before, last := blocks[..|blocks| - 1], blocks[|blocks| - 1];
    var e' := EnvAfter(e, Flatten(before));
    at := EnvAfter(e', Tags(last));
    NamesStay(e, Flatten(before));
    NamesStay(e', Tags(last));
    PlayBlocks(e, before);
    EnvAfterAppend(e, Flatten(before), last.lines);
    PlayBlock(e', last);
  }

  lemma AddressOfBlock(e: Env, blocks: seq<Block>, p: nat)
    requires p < |blocks| && e.names == ITSELF && forall i :: 0 <= i < |blocks| ==> IsBlock(blocks[i])
    ensures |Play(e, Flatten(blocks))| == |blocks| && Play(e, Flatten(blocks))[p].address == Address(blocks[p])
  {
    AfterLastBlock(e, blocks[..p + 1]);
    PlayPrefix(e, blocks, p + 1);
  }

  lemma PlayPrefix(e: Env, blocks: seq<Block>, p: nat)
    requires 0 < p <= |blocks| && e.names == ITSELF && forall i :: 0 <= i < |blocks| ==> IsBlock(blocks[i])
    ensures |Play(e, Flatten(blocks))| == |blocks| && |Play(e, Flatten(blocks[..p]))| == p
    ensures Play(e, Flatten(blocks))[p - 1] == Play(e, Flatten(blocks[..p]))[p - 1]
  {
    PlaySplit(e, blocks, p);
    PlayBlocks(e, blocks);
    PlayBlocks(e, blocks[..p]);
  }

  lemma PlaySplit(e: Env, blocks: seq<Block>, p: nat)
    requires p <= |blocks|
    ensures Play(e, Flatten(blocks))
              == Play(e, Flatten(blocks[..p])) + Play(EnvAfter(e, Flatten(blocks[..p])), Flatten(blocks[p..]))
  {
    assert blocks == blocks[..p] + blocks[p..];
    FlattenAppend(blocks[..p], blocks[p..]);
    EnvAfterAppend(e, Flatten(blocks[..p]), Flatten(blocks[p..]));
  }

  lemma ScanShape(lines: seq<Line>)
    ensures var s := TakeAll(lines); var start := EnvAfter(BARE, s.header);
            && |s.blocks| == |Segments(lines)| && Segments(lines) == Play(start, Flatten(s.blocks))
            && start.names == ITSELF && forall i :: 0 <= i < |s.blocks| ==> IsBlock(s.blocks[i])
  {
    PlayInput(lines);
    ScanIsFaithful(lines);
    NamesStay(BARE, TakeAll(lines).header);
  }

  /** At the cut, what the last dropped segment was read with is in effect. */
  lemma CutIsLastDropped(lines: seq<Line>)
    requires Dropped(|Segments(lines)|) > 0
    ensures var d := Dropped(|Segments(lines)|); var s := TakeAll(lines);
            && |s.blocks| == |Segments(lines)| && AtCut(s).keys == Segments(lines)[d - 1].keys
            && AtCut(s).initMap == Segments(lines)[d - 1].initMap
            && AtCut(s).discontinuity == Segments(lines)[d - 1].discontinuity
            && AtCut(s).previous == Leaves(Segments(lines)[d - 1], ITSELF)
  {
    var s := TakeAll(lines);
    var d, start := Dropped(|Segments(lines)|), EnvAfter(BARE, s.header);
    ScanShape(lines);
    PlayPrefix(start, s.blocks, d);
    AfterLastBlock(start, s.blocks[..d]);
  }

  lemma FirstServedAddress(lines: seq<Line>, d: nat)
    requires d < |Segments(lines)|
    ensures |TakeAll(lines).blocks| == |Segments(lines)|
    ensures Address(TakeAll(lines).blocks[d]) == Segments(lines)[d].address
  {
    ScanShape(lines);
    AddressOfBlock(EnvAfter(BARE, TakeAll(lines).header), TakeAll(lines).blocks, d);
  }

  /** What is in effect at the cut of the proxied lines is what the upstream's last dropped segment is read with. */
  lemma ProxiedCut(lines: seq<Line>, proxy: string -> string, d: nat)
    requires d == Dropped(|Segments(lines)|) > 0
    ensures var s, read := ProxiedScan(lines, proxy), Read(lines, proxy);
            && |s.blocks| == |read| == |Segments(lines)| && AtCut(s).keys.Keys == read[d - 1].keys.Keys
            && AtCut(s).initMap.Some? == read[d - 1].initMap.Some?
            && AtCut(s).previous == Leaves(read[d - 1], proxy) && Address(s.blocks[d]) == proxy(read[d].address)
  {
    var read := Read(lines, proxy);
    NamesDoNotMatter(lines, proxy);
    assert Segments(RewriteLines(lines, proxy)) == ProxiedAll(read, proxy) by {
      ReadingProxied(lines, proxy);
    }
    CutIsLastDropped(RewriteLines(lines, proxy));
    FirstServedAddress(RewriteLines(lines, proxy), d);
    SameAfterProxying(read[d - 1], proxy);
  }

  lemma ProxiedTags(lines: seq<Line>, proxy: string -> string, d: nat)
    requires 1 <= d < |Segments(lines)|
    ensures var s := ProxiedScan(lines, proxy);
            && |s.blocks| == |Segments(lines)| && s.header == RewriteLines(HeaderTags(lines), proxy)
            && Tags(s.blocks[d]) == RewriteLines(TagsOf(lines, d), proxy)
  {
    SegmentsAreCounted(BARE, lines);
    ScanPlaces(RewriteLines(lines, proxy));
    TagsOfRewritten(lines, d, proxy);
  }

  /** The scan `s` is cut between a segment read as `last` and one with these tags. */
  predicate CutAt(
    s: Scan, d: nat, last: Media, address: string, header: seq<Line>, tags: seq<Line>, proxy: string -> string)
  {
    && d == Dropped(|s.blocks|) < |s.blocks| && Address(s.blocks[d]) == proxy(address)
    && AtCut(s).keys.Keys == last.keys.Keys && AtCut(s).initMap.Some? == last.initMap.Some?
    && AtCut(s).previous == Leaves(last, proxy)
    && s.header == RewriteLines(header, proxy) && Tags(s.blocks[d]) == RewriteLines(tags, proxy)
  }

  lemma ProxiedCutAt(lines: seq<Line>, proxy: string -> string, d: nat)
    requires d == Dropped(|Segments(lines)|) > 0
    ensures var read := Read(lines, proxy);
            && |read| == |Segments(lines)|
            && CutAt(ProxiedScan(lines, proxy), d, read[d - 1], read[d].address, HeaderTags(lines), TagsOf(lines, d),
                     proxy)
  {
    ProxiedCut(lines, proxy, d);
    ProxiedTags(lines, proxy, d);
  }

  lemma CutRedeclaresAs(
    s: Scan, d: nat, last: Media, address: string, header: seq<Line>, tags: seq<Line>, proxy: string -> string)
    requires CutAt(s, d, last, address, header, tags, proxy)
    ensures CutRedeclares(s) <==> RedeclaredAfter(last, address, header, tags, proxy)
  {
    RewrittenRedeclare(last.keys.Keys, last.initMap.Some?, Leaves(last, proxy), header, tags, proxy(address), proxy);
  }

  lemma RedeclaredIs(lines: seq<Line>, names: string -> string, d: nat)
    requires d == Dropped(|Read(lines, names)|) > 0
    ensures var read := Read(lines, names);
            Redeclared(lines, names)
            <==> RedeclaredAfter(read[d - 1], read[d].address, HeaderTags(lines), TagsOf(lines, d), names)
  {
  }

  /** The condition on the scan of the proxied lines is the condition on the upstream's. */
  lemma CutRedeclaresIff(lines: seq<Line>, proxy: string -> string, d: nat)
    requires d == Dropped(|Segments(lines)|) > 0
    ensures CutRedeclares(ProxiedScan(lines, proxy)) <==> Redeclared(lines, proxy)
  {
    var read := Read(lines, proxy);
    ProxiedCutAt(lines, proxy, d);
    RedeclaredIs(lines, proxy, d);
    CutRedeclaresAs(ProxiedScan(lines, proxy), d, read[d - 1], read[d].address, HeaderTags(lines), TagsOf(lines, d),
                    proxy);
  }

  lemma RewrittenRedeclare(keys: set<string>, hasMap: bool, previous: Option<Previous>, header: seq<Line>,
                           tags: seq<Line>, resource: string, proxy: string -> string)
    ensures Redeclares(keys, hasMap, previous, Asks(RewriteLines(header, proxy)), RewriteLines(tags, proxy), resource)
        <==> Redeclares(keys, hasMap, previous, Asks(header), tags, resource)
  {
    RewrittenDeclare(tags, proxy);
    RewrittenAsk(tags, proxy);
    RewrittenAsk(header, proxy);
  }

  lemma SameAfterProxying(m: Media, proxy: string -> string)
    ensures var p := Proxied(m, proxy);
            && p.keys.Keys == m.keys.Keys && p.initMap.Some? == m.initMap.Some? && Leaves(p, ITSELF) == Leaves(m, proxy)
  {
  }

  lemma NumberAtCut(lines: seq<Line>, proxy: string -> string, d: nat)
    requires d == Dropped(|Segments(lines)|) > 0
    ensures AtCut(ProxiedScan(lines, proxy)).discontinuity == Segments(lines)[d - 1].discontinuity
  {
    NumbersOfRewritten(lines, proxy);
    CutIsLastDropped(RewriteLines(lines, proxy));
  }

  lemma ProxiedResets(lines: seq<Line>, proxy: string -> string, d: nat)
    requires 1 <= d < |Segments(lines)|
    ensures |ProxiedScan(lines, proxy).blocks| == |Segments(lines)|
    ensures Resets(Tags(ProxiedScan(lines, proxy).blocks[d])) == Resets(TagsOf(lines, d))
  {
    ProxiedTags(lines, proxy, d);
    RewrittenDeclare(TagsOf(lines, d), proxy);
  }

  lemma CutRenumbersIff(lines: seq<Line>, proxy: string -> string)
    requires Dropped(|Segments(lines)|) > 0
    ensures CutRenumbers(ProxiedScan(lines, proxy)) <==> Renumbered(lines)
  {
    NumberAtCut(lines, proxy, Dropped(|Segments(lines)|));
    ProxiedResets(lines, proxy, Dropped(|Segments(lines)|));
  }

  lemma NumbersOfRewritten(lines: seq<Line>, proxy: string -> string)
    ensures SameNumbers(Segments(RewriteLines(lines, proxy)), Segments(lines))
  {
    NamesDoNotMatter(lines, proxy);
    ReadingProxied(lines, proxy);
  }

  /**
   Every served segment keeps its keys, its map with the keys that apply to it, and its
   part of the resource, up to proxying, if and only if nothing is cut off or the tags of
   the first served segment redeclare what the last dropped one was read with.
   */
  lemma KeepsEffectiveTags(lines: seq<Line>, proxy: string -> string)
    ensures var d := Dropped(|Segments(lines)|);
            |Read(lines, proxy)| == |Segments(lines)|
            && (SameTags(Segments(Rolling(lines, proxy)), ProxiedAll(Read(lines, proxy), proxy)[d..])
                <==> d == 0 || Redeclared(lines, proxy))
  {
    if Segments(lines) == [] {
      WithoutSegments(lines, proxy);
    } else {
      WindowOfProxied(lines, proxy);
      if Dropped(|Segments(lines)|) > 0 {
        CutRedeclaresIff(lines, proxy, Dropped(|Segments(lines)|));
      }
    }
  }

  /** A rolling playlist without segments is passed on as it came. */
  lemma WithoutSegments(lines: seq<Line>, proxy: string -> string)
    requires Segments(lines) == []
    ensures Rolling(lines, proxy) == lines && Read(lines, proxy) == []
  {
    ReadingProxied(lines, proxy);
    NamesDoNotMatter(lines, proxy);
    PlayInput(RewriteLines(lines, proxy));
  }

  /**
   Every served segment keeps its discontinuity number if and only if nothing is cut off,
   the number in effect at the cut is 0, or the tags of the first served segment set it: the
   header gets no tag for it.
   */
  lemma KeepsDiscontinuityNumbers(lines: seq<Line>, proxy: string -> string)
    ensures var d := Dropped(|Segments(lines)|);
            SameNumbers(Segments(Rolling(lines, proxy)), Segments(lines)[d..]) <==> d == 0 || Renumbered(lines)
  {
    if Segments(lines) == [] {
      WithoutSegments(lines, proxy);
    } else {
      KeepsNumbersOfSome(lines, proxy);
      if Dropped(|Segments(lines)|) > 0 {
        CutRenumbersIff(lines, proxy);
      }
    }
  }

  lemma KeepsNumbersOfSome(lines: seq<Line>, proxy: string -> string)
    requires Segments(lines) != []
    ensures var d := Dropped(|Segments(lines)|);
            SameNumbers(Segments(Rolling(lines, proxy)), Segments(lines)[d..])
            <==> d == 0 || CutRenumbers(ProxiedScan(lines, proxy))
  {
    var d := Dropped(|Segments(lines)|);
    NamesDoNotMatter(lines, proxy);
    var wanted := ProxiedAll(Read(lines, proxy), proxy)[d..];
    assert SameNumbers(wanted, Segments(lines)[d..]) by {
      ProxiedNumbers(Read(lines, proxy), Segments(lines), d, proxy);
    }
    WindowOfProxied(lines, proxy);
    SameNumbersThrough(Segments(Rolling(lines, proxy)), wanted, Segments(lines)[d..]);
  }

  lemma ProxiedNumbers(read: seq<Media>, segments: seq<Media>, d: nat, proxy: string -> string)
    requires d <= |read| && SameNumbers(read, segments)
    ensures SameNumbers(ProxiedAll(read, proxy)[d..], segments[d..])
  {
  }

  lemma SameNumbersThrough(a: seq<Media>, b: seq<Media>, c: seq<Media>)
    requires SameNumbers(b, c)
    ensures SameNumbers(a, b) <==> SameNumbers(a, c)
  {
  }

  /** An ended playlist is passed on whole. */
  lemma VodKeepsEverything(lines: seq<Line>, proxy: string -> string, vodProxy: string -> string)
    requires IsVod(lines)
    ensures var out := Rewritten(lines, proxy, vodProxy);
            && Segments(out) == ProxiedAll(Read(lines, vodProxy), vodProxy) && |Segments(out)| == |Segments(lines)|
            && Base(out) == Base(lines) && |out| == |lines|
  {
    ReadingProxied(lines, vodProxy);
    NamesDoNotMatter(lines, vodProxy);
    RewriteLength(lines, vodProxy);
  }

  lemma {:induction false} RewriteLength(lines: seq<Line>, proxy: string -> string)
    ensures |RewriteLines(lines, proxy)| == |lines|
    ensures forall i :: 0 <= i < |lines| ==> RewriteLines(lines, proxy)[i] == RewriteLine(lines[i], proxy)
  {
    if lines != [] {
      RewriteLength(lines[..|lines| - 1], proxy);
    }
  }

  function SumDurations(medias: seq<Media>): real {
    if medias == [] then 0.0 else SumDurations(medias[..|medias| - 1]) + medias[|medias| - 1].duration
  }

  lemma {:induction false} BlockDurations(e: Env, blocks: seq<Block>)
    requires e.duration == 0.0 && forall i :: 0 <= i < |blocks| ==> IsBlock(blocks[i])
    ensures SumDurations(Play(e, Flatten(blocks))) == TotalDuration(blocks)
  {
    if blocks != [] {
      var before, last := blocks[..|blocks| - 1], blocks[|blocks| - 1];
      BlockDurations(e, before);
      PlayOneMore(e, before, last);
      var medias := Play(e, Flatten(before));
      var m := Play(e, Flatten(blocks))[|medias|];
      assert (medias + [m])[..|medias|] == medias;
    }
  }

  lemma PlayOneMore(e: Env, before: seq<Block>, last: Block)
    requires e.duration == 0.0 && IsBlock(last) && forall i :: 0 <= i < |before| ==> IsBlock(before[i])
    ensures var medias, all := Play(e, Flatten(before)), Play(e, Flatten(before) + last.lines);
            |all| == |medias| + 1 && all == medias + [all[|medias|]] && all[|medias|].duration == last.duration
  {
    var e' := EnvAfter(e, Flatten(before));
    assert e'.duration == 0.0 by {
      PlayBlocks(e, before);
    }
    EnvAfterAppend(e, Flatten(before), last.lines);
    PlayBlock(e', last);
    EnvFromTags(e', Tags(last));
  }

  /** The start tag is computed from the durations of exactly the segments served. */
  lemma StartTagFromServedSegments(lines: seq<Line>, proxy: string -> string)
    requires TakeAll(RewriteLines(lines, proxy)).blocks != []
    ensures var out := Rolling(lines, proxy);
            var s := TakeAll(RewriteLines(lines, proxy));
            out == ServedHeader(s) + StartTag(SumDurations(Segments(out))) + [MediaSequence(Base(out))]
                   + Flatten(s.blocks[Dropped(|s.blocks|)..])
  {
    var s := TakeAll(RewriteLines(lines, proxy));
    var kept := s.blocks[Dropped(|s.blocks|)..];
    var out := Window(s);
    assert Rolling(lines, proxy) == out;
    assert Base(out) == s.sequence + Dropped(|s.blocks|) by {
      ScanIsFaithful(RewriteLines(lines, proxy));
      BaseOfWindow(RewriteLines(lines, proxy));
    }
    var total := SumDurations(Segments(out));
    assert total == TotalDuration(kept) by {
      ScanIsFaithful(RewriteLines(lines, proxy));
      DurationOfWindow(s);
    }
    WindowUnfolded(s, total, Base(out));
  }

  lemma DurationOfWindow(s: Scan)
    requires Shaped(s)
    ensures SumDurations(Segments(Window(s))) == TotalDuration(s.blocks[Dropped(|s.blocks|)..])
  {
    PlayWindow(s);
    PlayHeader(s.header);
    BlockDurations(EnvAfter(BARE, s.header), s.blocks[Dropped(|s.blocks|)..]);
  }

  lemma WindowUnfolded(s: Scan, total: real, base: int)
    requires total == TotalDuration(s.blocks[Dropped(|s.blocks|)..]) && base == s.sequence + Dropped(|s.blocks|)
    ensures Window(s)
              == ServedHeader(s) + StartTag(total) + [MediaSequence(base)] + Flatten(s.blocks[Dropped(|s.blocks|)..])
  {
  }

  /**
   There is a start tag iff the window lasts four seconds; its offset is the most that is at most 18
   and at most half the window.
   */
  lemma StartTagBounds(seconds: real)
    ensures StartTag(seconds) == [] <==> seconds < 4.0
    ensures seconds >= 4.0 ==>
              && |StartTag(seconds)| == 1 && StartTag(seconds)[0].Start?
              && 2.0 <= StartTag(seconds)[0].behind <= 18.0
              && StartTag(seconds)[0].behind <= seconds / 2.0
              && (StartTag(seconds)[0].behind == 18.0 || StartTag(seconds)[0].behind == seconds / 2.0)
  {
  }

  // ----- Results: start tags -------------------------------------------------------------

  function StartTags(lines: seq<Line>): nat {
    if lines == [] then 0 else StartTags(lines[..|lines| - 1]) + if lines[|lines| - 1].Start? then 1 else 0
  }

  lemma {:induction false} StartTagsAppend(a: seq<Line>, b: seq<Line>)
    ensures StartTags(a + b) == StartTags(a) + StartTags(b)
  {
    if b == [] {
      assert a + b == a;
    } else {
      assert (a + b)[..|a + b| - 1] == a + b[..|b| - 1];
      StartTagsAppend(a, b[..|b| - 1]);
    }
  }

  lemma StartTagsOfOne(line: Line)
    ensures StartTags([line]) == if line.Start? then 1 else 0
  {
    assert [line][..0] == [];
  }

  /** The scan neither adds nor loses start tags. */
  lemma {:induction false} StartTagsOfScan(lines: seq<Line>)
    ensures StartTags(Body(TakeAll(lines))) == StartTags(lines)
  {
    if lines != [] {
      var s, last := TakeAll(lines[..|lines| - 1]), lines[|lines| - 1];
      StartTagsOfScan(lines[..|lines| - 1]);
      BodyAfterTake(s, last);
      StartTagsAppend(Body(s), [last]);
      StartTagsOfOne(last);
      if InHeader(last) && s.blocks == [] {
        StartTagsAppend(s.header + [last], s.pending);
        StartTagsAppend(s.header, [last]);
        StartTagsAppend(s.header, s.pending);
      }
    }
  }

  lemma {:induction false} StartTagsOfRewritten(lines: seq<Line>, proxy: string -> string)
    ensures StartTags(RewriteLines(lines, proxy)) == StartTags(lines)
  {
    if lines != [] {
      StartTagsOfRewritten(lines[..|lines| - 1], proxy);
      StartTagsAppend(RewriteLines(lines[..|lines| - 1], proxy), [RewriteLine(lines[|lines| - 1], proxy)]);
      StartTagsOfOne(RewriteLine(lines[|lines| - 1], proxy));
    }
  }

  /** The upstream's start tags that are served: those of the header and of the blocks kept. */
  function StartTagsKept(s: Scan): nat {
    StartTags(s.header) + StartTags(Flatten(s.blocks[Dropped(|s.blocks|)..]))
  }

  lemma StartTagsOfPreamble(s: Scan)
    ensures StartTags(Preamble(s)) == StartTags(s.header) + |StartTag(TotalDuration(s.blocks[Dropped(|s.blocks|)..]))|
  {
    var start := StartTag(TotalDuration(s.blocks[Dropped(|s.blocks|)..]));
    var number: seq<Line> := [MediaSequence(s.sequence + Dropped(|s.blocks|))];
    StartTagsOfOne(number[0]);
    StartTagsAdded(start);
    StartTagsOfHeaderLine(s);
    StartTagsAppend(ServedHeader(s), start);
    StartTagsAppend(ServedHeader(s) + start, number);
  }

  lemma StartTagsAdded(start: seq<Line>)
    requires start == [] || exists behind :: start == [Start(behind)]
    ensures StartTags(start) == |start|
  {
    if start != [] {
      StartTagsOfOne(start[0]);
    }
  }

  lemma StartTagsOfHeaderLine(s: Scan)
    ensures StartTags(ServedHeader(s)) == StartTags(s.header)
  {
    StartTagsOfOne(M3U);
    StartTagsAppend([M3U], s.header);
  }

  lemma StartTagsOfWindow(s: Scan)
    ensures StartTags(Window(s)) == StartTagsKept(s) + |StartTag(TotalDuration(s.blocks[Dropped(|s.blocks|)..]))|
  {
    StartTagsOfPreamble(s);
    StartTagsAppend(Preamble(s), Flatten(s.blocks[Dropped(|s.blocks|)..]));
  }

  lemma StartTagsKeptBound(s: Scan)
    ensures StartTagsKept(s) <= StartTags(Body(s))
  {
    var d := Dropped(|s.blocks|);
    assert s.blocks == s.blocks[..d] + s.blocks[d..];
    FlattenAppend(s.blocks[..d], s.blocks[d..]);
    StartTagsAppend(Flatten(s.blocks[..d]), Flatten(s.blocks[d..]));
    StartTagsAppend(s.header, Flatten(s.blocks));
    StartTagsAppend(s.header + Flatten(s.blocks), s.pending);
  }

  lemma StartTagsOfTags(b: Block)
    requires EndsInSegment(b)
    ensures StartTags(b.lines) == StartTags(Tags(b))
  {
  }

  lemma StartTagsOfLast(before: seq<Block>, last: Block)
    requires EndsInSegment(last)
    ensures StartTags(Flatten(before + [last])) == StartTags(Flatten(before)) + StartTags(Tags(last))
  {
    assert (before + [last])[..|before|] == before;
    StartTagsAppend(Flatten(before), last.lines);
    StartTagsOfTags(last);
  }

  predicate NoStart(blocks: seq<Block>) {
    forall i :: 0 <= i < |blocks| ==> StartTags(Tags(blocks[i])) == 0
  }

  lemma NoStartAtEnd(before: seq<Block>, last: Block)
    ensures NoStart(before + [last]) <==> NoStart(before) && StartTags(Tags(last)) == 0
  {
    var blocks := before + [last];
    assert blocks[|before|] == last && forall i :: 0 <= i < |before| ==> blocks[i] == before[i];
  }

  lemma {:induction false} NoStartInBlocks(blocks: seq<Block>)
    requires forall i :: 0 <= i < |blocks| ==> EndsInSegment(blocks[i])
    ensures StartTags(Flatten(blocks)) == 0 <==> NoStart(blocks)
  {
    if blocks != [] {
      var before, last := blocks[..|blocks| - 1], blocks[|blocks| - 1];
      NoStartInBlocks(before);
      assert before + [last] == blocks;
      StartTagsOfLast(before, last);
      NoStartAtEnd(before, last);
    }
  }

  /** The start tag of the upstream at line `i` stands before the first segment or with a served one. */
  predicate StartStays(lines: seq<Line>, i: nat)
    requires i < |lines|
  {
    var n, before := SegmentsIn(lines), SegmentsIn(lines[..i]);
    lines[i].Start? && (before == 0 || Dropped(n) <= before < n)
  }

  predicate StartBefore(lines: seq<Line>, i: nat, p: nat)
    requires i < |lines|
  {
    lines[i].Start? && SegmentsIn(lines[..i]) == p
  }

  lemma StartTagsAtEnd(lines: seq<Line>, line: Line, p: nat)
    ensures StartTags(TagsOf(lines + [line], p))
         == StartTags(TagsOf(lines, p)) + if line.Start? && SegmentsIn(lines) == p then 1 else 0
    ensures StartTags(HeaderTags(lines + [line]))
         == StartTags(HeaderTags(lines)) + if line.Start? && SegmentsIn(lines) == 0 then 1 else 0
  {
    TagsAtEnd(lines, line, p);
    StartTagsAppend(TagsOf(lines, p), [line]);
    StartTagsAppend(HeaderTags(lines), [line]);
    StartTagsOfOne(line);
  }

  predicate NoStartBefore(lines: seq<Line>, p: nat) {
    forall i :: 0 <= i < |lines| ==> !StartBefore(lines, i, p)
  }

  lemma NoStartBeforeAtEnd(lines: seq<Line>, line: Line, p: nat)
    ensures NoStartBefore(lines + [line], p) <==> NoStartBefore(lines, p) && !(line.Start? && SegmentsIn(lines) == p)
  {
    var all := lines + [line];
    assert all[..|lines|] == lines;
    assert StartBefore(all, |lines|, p) == (line.Start? && SegmentsIn(lines) == p);
    forall i | 0 <= i < |lines| ensures StartBefore(all, i, p) == StartBefore(lines, i, p) {
      assert all[..i] == lines[..i];
    }
  }

  lemma {:induction false} StartTagsAt(lines: seq<Line>, p: nat)
    ensures StartTags(TagsOf(lines, p)) == 0 <==> NoStartBefore(lines, p)
  {
    if lines != [] {
      var before, last := lines[..|lines| - 1], lines[|lines| - 1];
      StartTagsAt(before, p);
      assert before + [last] == lines;
      StartTagsAtEnd(before, last, p);
      NoStartBeforeAtEnd(before, last, p);
    }
  }

  lemma {:induction false} StartTagsOfHeader(lines: seq<Line>)
    ensures StartTags(HeaderTags(lines)) == StartTags(TagsOf(lines, 0))
  {
    if lines != [] {
      StartTagsOfHeader(lines[..|lines| - 1]);
      assert lines[..|lines| - 1] + [lines[|lines| - 1]] == lines;
      StartTagsAtEnd(lines[..|lines| - 1], lines[|lines| - 1], 0);
    }
  }

  lemma StartTagsPlaced(lines: seq<Line>, proxy: string -> string, p: nat)
    ensures StartTags(TagsOf(RewriteLines(lines, proxy), p)) == StartTags(TagsOf(lines, p))
    ensures StartTags(HeaderTags(RewriteLines(lines, proxy))) == StartTags(HeaderTags(lines))
  {
    TagsOfRewritten(lines, p, proxy);
    StartTagsOfRewritten(TagsOf(lines, p), proxy);
    StartTagsOfRewritten(HeaderTags(lines), proxy);
  }

  predicate NoStartAt(lines: seq<Line>, p: nat) {
    StartTags(TagsOf(lines, p)) == 0
  }

  lemma StaysIff(lines: seq<Line>, d: nat, n: nat)
    requires n == SegmentsIn(lines) && d == Dropped(n)
    ensures (forall i :: 0 <= i < |lines| ==> !StartStays(lines, i))
            <==> NoStartAt(lines, 0) && forall p: nat :: d <= p < n ==> NoStartAt(lines, p)
  {
    if i :| 0 <= i < |lines| && StartStays(lines, i) {
      var p := SegmentsIn(lines[..i]);
      assert StartBefore(lines, i, p);
      StartTagsAt(lines, p);
      assert !NoStartAt(lines, p);
    } else {
      forall p: nat | p == 0 || d <= p < n ensures NoStartAt(lines, p) {
        NoStartThere(lines, d, n, p);
      }
    }
  }

  lemma NoStartThere(lines: seq<Line>, d: nat, n: nat, p: nat)
    requires n == SegmentsIn(lines) && d == Dropped(n) && (p == 0 || d <= p < n)
    requires forall i :: 0 <= i < |lines| ==> !StartStays(lines, i)
    ensures NoStartAt(lines, p)
  {
    StartTagsAt(lines, p);
    if i :| 0 <= i < |lines| && StartBefore(lines, i, p) {
      assert StartStays(lines, i);
    }
  }

  lemma StartTagsOfBlock(lines: seq<Line>, proxy: string -> string, p: nat)
    requires p < SegmentsIn(lines)
    ensures p < |ProxiedScan(lines, proxy).blocks|
    ensures StartTags(Tags(ProxiedScan(lines, proxy).blocks[p])) == if p == 0 then 0 else StartTags(TagsOf(lines, p))
  {
    ScanPlaces(RewriteLines(lines, proxy));
    TagsOfRewritten(lines, p, proxy);
    StartTagsPlaced(lines, proxy, p);
  }

  lemma StartTagsOfServed(lines: seq<Line>, proxy: string -> string, d: nat)
    requires d == Dropped(SegmentsIn(lines))
    ensures |ProxiedScan(lines, proxy).blocks| == SegmentsIn(lines)
    ensures StartTags(Flatten(ProxiedScan(lines, proxy).blocks[d..])) == 0
            <==> forall p: nat :: d <= p < SegmentsIn(lines) ==> p == 0 || NoStartAt(lines, p)
  {
    var blocks := ProxiedScan(lines, proxy).blocks;
    ScanPlaces(RewriteLines(lines, proxy));
    TagsOfRewritten(lines, 0, proxy);
    assert forall i :: 0 <= i < |blocks| ==> EndsInSegment(blocks[i]) by {
      ScanIsFaithful(RewriteLines(lines, proxy));
    }
    NoStartInBlocks(blocks[d..]);
    forall p: nat | d <= p < |blocks| ensures StartTags(Tags(blocks[p])) == 0 <==> p == 0 || NoStartAt(lines, p) {
      StartTagsOfBlock(lines, proxy, p);
    }
    ShiftedBlocks(lines, blocks, d);
  }

  /** Start tags are kept exactly where the upstream's lines say. */
  lemma StartTagsKeptIff(lines: seq<Line>, proxy: string -> string)
    ensures StartTagsKept(ProxiedScan(lines, proxy)) == 0 <==> forall i :: 0 <= i < |lines| ==> !StartStays(lines, i)
  {
    var n := SegmentsIn(lines);
    StartTagsOfServed(lines, proxy, Dropped(n));
    assert StartTags(ProxiedScan(lines, proxy).header) == StartTags(TagsOf(lines, 0)) by {
      ScanPlaces(RewriteLines(lines, proxy));
      StartTagsPlaced(lines, proxy, 0);
      StartTagsOfHeader(lines);
    }
    StaysIff(lines, Dropped(n), n);
  }

  lemma ShiftedBlocks(lines: seq<Line>, blocks: seq<Block>, d: nat)
    requires d <= |blocks|
    requires forall p: nat :: d <= p < |blocks| ==> (StartTags(Tags(blocks[p])) == 0 <==> p == 0 || NoStartAt(lines, p))
    ensures NoStart(blocks[d..]) <==> forall p: nat :: d <= p < |blocks| ==> p == 0 || NoStartAt(lines, p)
  {
    if p: nat :| d <= p < |blocks| && !(p == 0 || NoStartAt(lines, p)) {
      assert blocks[d..][p - d] == blocks[p];
    }
  }

  /**
   Of an upstream with at most one start tag, which section 4.3.5 of RFC 8216 demands, the
   served playlist has at most one exactly when the upstream's neither stands before the
   first segment nor among the lines of a served one, or the served segments last less than
   four seconds, too short to be given another.
   */
  lemma AtMostOneStartTag(lines: seq<Line>, proxy: string -> string)
    requires StartTags(lines) <= 1
    ensures StartTags(Rolling(lines, proxy)) <= 1
            <==> || (forall i :: 0 <= i < |lines| ==> !StartStays(lines, i))
                 || SumDurations(Segments(lines)[Dropped(|Segments(lines)|)..]) < 4.0
  {
    if Segments(lines) == [] {
      WithoutSegments(lines, proxy);
    } else {
      AtMostOneStartTagOfSome(lines, proxy);
      SegmentsAreCounted(BARE, lines);
      StartTagsKeptIff(lines, proxy);
      ServedDurations(lines, proxy);
    }
  }

  lemma {:induction false} SameSum(a: seq<Media>, b: seq<Media>)
    requires |a| == |b| && forall i :: 0 <= i < |a| ==> a[i].duration == b[i].duration
    ensures SumDurations(a) == SumDurations(b)
  {
    if a != [] {
      SameSum(a[..|a| - 1], b[..|b| - 1]);
    }
  }

  lemma ServedDurations(lines: seq<Line>, proxy: string -> string)
    ensures SumDurations(Segments(Rolling(lines, proxy))) == SumDurations(Segments(lines)[Dropped(|Segments(lines)|)..])
  {
    ServesTheEdge(lines, proxy);
    SameSum(Segments(Rolling(lines, proxy)), Segments(lines)[Dropped(|Segments(lines)|)..]);
  }

  lemma AtMostOneStartTagOfSome(lines: seq<Line>, proxy: string -> string)
    requires Segments(lines) != [] && StartTags(lines) <= 1
    ensures StartTags(Rolling(lines, proxy)) <= 1
            <==> StartTagsKept(ProxiedScan(lines, proxy)) == 0 || SumDurations(Segments(Rolling(lines, proxy))) < 4.0
  {
    var rewritten := RewriteLines(lines, proxy);
    var s := TakeAll(rewritten);
    assert s.blocks != [] by {
      ReadingProxied(lines, proxy);
      NamesDoNotMatter(lines, proxy);
      PlayInput(rewritten);
    }
    assert StartTagsKept(s) <= 1 by {
      StartTagsOfRewritten(lines, proxy);
      StartTagsOfScan(rewritten);
      StartTagsKeptBound(s);
    }
    StartTagsOfWindow(s);
    assert SumDurations(Segments(Window(s))) == TotalDuration(s.blocks[Dropped(|s.blocks|)..]) by {
      ScanIsFaithful(rewritten);
      DurationOfWindow(s);
    }
    StartTagBounds(TotalDuration(s.blocks[Dropped(|s.blocks|)..]));
  }

  // ----- Results: a run of polls ---------------------------------------------------------

  /** The playlist shows a window onto the stream, each segment under its number. */
  ghost predicate Shows(lines: seq<Line>, stream: int -> string) {
    forall k :: 0 <= k < |Segments(lines)| ==> Segments(lines)[k].address == stream(Base(lines) + k)
  }

  /** Neither end of the window has moved back. */
  predicate MovesOn(earlier: seq<Line>, later: seq<Line>) {
    Base(earlier) <= Base(later) && Base(earlier) + |Segments(earlier)| <= Base(later) + |Segments(later)|
  }

  /**
   An upstream as section 6.2.2 of RFC 8216 wants it: a window onto one numbered stream of
   segments whose two ends never move back.
   */
  ghost predicate Conforming(polls: seq<seq<Line>>, stream: int -> string) {
    && (forall i :: 0 <= i < |polls| ==> Shows(polls[i], stream))
    && (forall i, j :: 0 <= i < j < |polls| ==> MovesOn(polls[i], polls[j]))
  }

  /** Over any run of polls the served media sequence never decreases. */
  lemma ServedSequenceNeverDecreases(polls: seq<seq<Line>>, stream: int -> string, proxy: string -> string, i: nat,
                                     j: nat)
    requires Conforming(polls, stream) && i < j < |polls|
    ensures Base(Rolling(polls[i], proxy)) <= Base(Rolling(polls[j], proxy))
  {
    assert MovesOn(polls[i], polls[j]);
    ServesTheEdge(polls[i], proxy);
    ServesTheEdge(polls[j], proxy);
  }

  lemma ShowsAt(lines: seq<Line>, stream: int -> string, k: nat)
    requires Shows(lines, stream) && k < |Segments(lines)|
    ensures Segments(lines)[k].address == stream(Base(lines) + k)
  {
  }

  lemma EdgeShows(lines: seq<Line>, stream: int -> string, proxy: string -> string, out: seq<Line>, d: nat, k: nat)
    requires Shows(lines, stream) && k < |Segments(out)|
    requires IsEdge(Segments(out), Segments(lines), d, proxy) && Base(out) == Base(lines) + d
    ensures Segments(out)[k].address == proxy(stream(Base(out) + k))
  {
    ShowsAt(lines, stream, d + k);
  }

  lemma ServedShows(lines: seq<Line>, stream: int -> string, proxy: string -> string, k: nat)
    requires Shows(lines, stream) && k < |Segments(Rolling(lines, proxy))|
    ensures Segments(Rolling(lines, proxy))[k].address == proxy(stream(Base(Rolling(lines, proxy)) + k))
  {
    ServesTheEdge(lines, proxy);
    EdgeShows(lines, stream, proxy, Rolling(lines, proxy), Dropped(|Segments(lines)|), k);
  }

  lemma ConformingShows(polls: seq<seq<Line>>, stream: int -> string, i: nat)
    requires Conforming(polls, stream) && i < |polls|
    ensures Shows(polls[i], stream)
  {
  }

  /** Over any run of polls a served number always names the same segment, the upstream's. */
  lemma NumberNamesOneSegment(polls: seq<seq<Line>>, stream: int -> string, proxy: string -> string, i: nat, k: nat)
    requires Conforming(polls, stream) && i < |polls| && k < |Segments(Rolling(polls[i], proxy))|
    ensures var out := Rolling(polls[i], proxy);
            Segments(out)[k].address == proxy(stream(Base(out) + k))
  {
    ConformingShows(polls, stream, i);
    ServedShows(polls[i], stream, proxy, k);
  }

  /**
   The end of a stream: the last playlist, which carries the end tag, is passed on whole,
   and the served media sequence then steps back exactly when it reaches further back than
   the eight segments served before.
   */
  lemma EndOfStreamMayStepBack(polls: seq<seq<Line>>, stream: int -> string, proxy: string -> string,
                               vodProxy: string -> string, i: nat, last: nat)
    requires Conforming(polls, stream) && i < last < |polls| && !IsVod(polls[i]) && IsVod(polls[last])
    ensures Base(Rewritten(polls[last], proxy, vodProxy)) < Base(Rewritten(polls[i], proxy, vodProxy))
            <==> Base(polls[last]) < Base(polls[i]) + Dropped(|Segments(polls[i])|)
  {
    ServesTheEdge(polls[i], proxy);
    VodKeepsEverything(polls[last], proxy, vodProxy);
  }
}
