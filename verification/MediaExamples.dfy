/**
 Playlists on which the rolling rewrite loses something, for each of the ways in which it
 can: a key, a map, the key of a map, a byte range, a discontinuity number, the only start
 tag, and the step back at the end of a stream.
 */
module MediaExamples {
  import opened Options
  import opened MediaPlaylist

  const FILE := "s"

  /** Segments without tags. */
  function Bare(n: nat): seq<Line> {
    if n == 0 then [] else Bare(n - 1) + [Segment(FILE)]
  }

  /** As many as are served. */
  function Rest(): seq<Line> {
    Bare(EDGE_SEGMENT_COUNT)
  }

  /** The tags `first` and `k` segments, which are cut off; then the tags `tags` and eight segments. */
  function Cut(first: seq<Line>, k: nat, tags: seq<Line>): seq<Line> {
    first + Bare(k) + (tags + Rest())
  }

  predicate AllTags(tags: seq<Line>) {
    forall i :: 0 <= i < |tags| ==> InBlock(tags[i])
  }

  // ----- What such a playlist is read as ---------------------------------------------------

  lemma {:induction false} CountAppend(a: seq<Line>, b: seq<Line>)
    ensures SegmentsIn(a + b) == SegmentsIn(a) + SegmentsIn(b)
    ensures SegmentsIn(a) > 0 ==> HeaderTags(a + b) == HeaderTags(a)
  {
    if b == [] {
      assert a + b == a;
    } else {
      var before, last := b[..|b| - 1], b[|b| - 1];
      CountAppend(a, before);
      assert a + b == (a + before) + [last];
      TagsAtEnd(a + before, last, 0);
    }
  }

  lemma {:induction false} CountTags(tags: seq<Line>)
    requires AllTags(tags)
    ensures SegmentsIn(tags) == 0
  {
    if tags != [] {
      CountTags(tags[..|tags| - 1]);
    }
  }

  lemma {:induction false} CountBare(n: nat)
    ensures SegmentsIn(Bare(n)) == n
  {
    if n > 0 {
      CountBare(n - 1);
      TagsAtEnd(Bare(n - 1), Segment(FILE), 0);
    }
  }

  /** Segments without tags add none. */
  lemma {:induction false} TagsOfBare(a: seq<Line>, n: nat, p: nat)
    ensures TagsOf(a + Bare(n), p) == TagsOf(a, p) && HeaderTags(a + Bare(n)) == HeaderTags(a)
  {
    if n == 0 {
      assert a + Bare(n) == a;
    } else {
      TagsOfBare(a, n - 1, p);
      assert a + Bare(n) == (a + Bare(n - 1)) + [Segment(FILE)];
      TagsAtSegment(a + Bare(n - 1), Segment(FILE), p);
    }
  }

  lemma TagsAppendOne(a: seq<Line>, before: seq<Line>, last: Line, all: seq<Line>, p: nat)
    requires InBlock(last) && SegmentsIn(all) == p && TagsOf(all, p) == TagsOf(a, p) + before
    ensures TagsOf(all + [last], p) == TagsOf(a, p) + (before + [last]) && SegmentsIn(all + [last]) == p
  {
    TagsAtEnd(all, last, p);
    OneMore(TagsOf(a, p), before, last);
  }

  lemma NothingMore(a: seq<Line>)
    ensures a + [] == a
  {
  }

  lemma {:induction false} TagsAppend(a: seq<Line>, tags: seq<Line>, p: nat)
    requires AllTags(tags) && p == SegmentsIn(a)
    ensures TagsOf(a + tags, p) == TagsOf(a, p) + tags && SegmentsIn(a + tags) == p
  {
    if tags == [] {
      NothingMore(a);
      NothingMore(TagsOf(a, p));
    } else {
      var before, last := tags[..|tags| - 1], tags[|tags| - 1];
      TagsAppend(a, before, p);
      TagsAppendOne(a, before, last, a + before, p);
      TagsAre(a, before, last, tags);
    }
  }

  lemma TagsAre(a: seq<Line>, before: seq<Line>, last: Line, tags: seq<Line>)
    requires tags != [] && before == tags[..|tags| - 1] && last == tags[|tags| - 1]
    ensures before + [last] == tags && a + tags == (a + before) + [last]
  {
  }

  lemma OneMore(a: seq<Line>, before: seq<Line>, last: Line)
    ensures a + (before + [last]) == (a + before) + [last]
  {
  }

  lemma TagsOfDropped(first: seq<Line>, k: nat)
    requires AllTags(first) && k >= 1
    ensures var a := first + Bare(k); SegmentsIn(a) == k && TagsOf(a, k) == [] && HeaderTags(a) == HeaderTags(first)
  {
    CountTags(first);
    CountBare(k);
    CountAppend(first, Bare(k));
    TagsOfBare(first, k, k);
    NoTagsYet(first, k);
  }

  lemma TagsOfCut(first: seq<Line>, k: nat, tags: seq<Line>)
    requires AllTags(first) && AllTags(tags) && k >= 1
    ensures var lines := Cut(first, k, tags);
            SegmentsIn(lines) == k + 8 && TagsOf(lines, k) == tags && HeaderTags(lines) == HeaderTags(first)
  {
    var a := first + Bare(k);
    TagsOfDropped(first, k);
    TagsOfServed(a, k, tags);
    assert a + (tags + Rest()) == (a + tags) + Rest();
  }

  lemma TagsOfServed(a: seq<Line>, k: nat, tags: seq<Line>)
    requires AllTags(tags) && SegmentsIn(a) == k >= 1 && TagsOf(a, k) == []
    ensures var lines := (a + tags) + Rest();
            SegmentsIn(lines) == k + 8 && TagsOf(lines, k) == tags && HeaderTags(lines) == HeaderTags(a)
  {
    TagsAppend(a, tags, k);
    CountAppend(a, tags);
    TagsOfBare(a + tags, EDGE_SEGMENT_COUNT, k);
    CountBare(EDGE_SEGMENT_COUNT);
    CountAppend(a + tags, Rest());
    assert [] + tags == tags;
  }

  predicate SameInEffect(m: Media, e: Env) {
    m.keys == e.keys && m.initMap == e.initMap && m.discontinuity == e.discontinuity && m.address == FILE
  }

  lemma {:induction false} ReadBare(e: Env, n: nat)
    ensures |Play(e, Bare(n))| == n && (n > 0 ==> SameInEffect(Play(e, Bare(n))[n - 1], e))
    ensures var after := EnvAfter(e, Bare(n));
            after.keys == e.keys && after.initMap == e.initMap && after.discontinuity == e.discontinuity
  {
    if n > 0 {
      ReadBare(e, n - 1);
      HearAtEnd(e, Bare(n - 1), Segment(FILE));
    }
  }

  lemma ReadCut(first: seq<Line>, k: nat, tags: seq<Line>, names: string -> string)
    requires AllTags(first) && AllTags(tags) && k >= 1
    ensures var read := Read(Cut(first, k, tags), names);
            |read| == k + 8 && SameInEffect(read[k - 1], EnvAfter(Fresh(names), first))
  {
    var e := EnvAfter(Fresh(names), first);
    TagsOfCut(first, k, tags);
    SegmentsAreCounted(Fresh(names), Cut(first, k, tags));
    EnvAfterAppend(Fresh(names), first, Bare(k));
    EnvAfterAppend(Fresh(names), first + Bare(k), tags + Rest());
    PlayTags(Fresh(names), first);
    ReadBare(e, k);
  }

  /** Of such a playlist a player reads the same iff `tags` make up for what the last one cut off was read with. */
  lemma CutKeepsIff(first: seq<Line>, k: nat, tags: seq<Line>, proxy: string -> string)
    returns (last: Media, address: string)
    requires AllTags(first) && AllTags(tags) && k >= 1
    ensures SameInEffect(last, EnvAfter(Fresh(proxy), first))
    ensures KeptTags(Cut(first, k, tags), proxy) <==> RedeclaredAfter(last, address, HeaderTags(first), tags, proxy)
  {
    var lines := Cut(first, k, tags);
    var read := Read(lines, proxy);
    ReadCut(first, k, tags, proxy);
    TagsOfCut(first, k, tags);
    RedeclaredIs(lines, proxy, k);
    KeptTagsIff(lines, proxy);
    last, address := read[k - 1], read[k].address;
  }

  /** A player reads of the served segments what it reads of them upstream, up to proxying. */
  predicate KeptTags(lines: seq<Line>, proxy: string -> string) {
    var read := Read(lines, proxy);
    SameTags(Segments(Rolling(lines, proxy)), ProxiedAll(read, proxy)[Dropped(|read|)..])
  }

  lemma KeptTagsIff(lines: seq<Line>, proxy: string -> string)
    ensures KeptTags(lines, proxy) <==> Dropped(|Read(lines, proxy)|) == 0 || Redeclared(lines, proxy)
  {
    KeepsEffectiveTags(lines, proxy);
  }

  // ----- Keys and maps ---------------------------------------------------------------------

  lemma EnvOfOne(e: Env, line: Line)
    ensures EnvAfter(e, [line]) == Hear(e, line)
  {
    HearAtEnd(e, [], line);
    assert [] + [line] == [line];
  }

  lemma EnvOfTwo(e: Env, a: Line, b: Line)
    ensures EnvAfter(e, [a, b]) == Hear(Hear(e, a), b)
  {
    EnvOfOne(e, a);
    HearAtEnd(e, [a], b);
    assert [a] + [b] == [a, b];
  }

  lemma KeysAreLost(first: seq<Line>, k: nat, format: string, proxy: string -> string)
    requires AllTags(first) && k >= 1 && format in EnvAfter(Fresh(proxy), first).keys
    ensures !KeptTags(Cut(first, k, []), proxy)
  {
    var last, address := CutKeepsIff(first, k, [], proxy);
  }

  /** A key before the first segment only is lost to those served, however many are cut off. */
  lemma KeyAtTheTopIsLost(key: Line, k: nat, proxy: string -> string)
    requires key.Key? && key.encrypts && k >= 1
    ensures |Read(Cut([key], k, []), proxy)| == k + 8 && !KeptTags(Cut([key], k, []), proxy)
  {
    EnvOfOne(Fresh(proxy), key);
    KeysAreLost([key], k, key.format, proxy);
    ReadCut([key], k, [], proxy);
  }

  /** So is a map. */
  lemma MapAtTheTopIsLost(tag: Line, k: nat, proxy: string -> string)
    requires tag.MapTag? && k >= 1
    ensures |Read(Cut([tag], k, []), proxy)| == k + 8 && !KeptTags(Cut([tag], k, []), proxy)
  {
    ReadCut([tag], k, [], proxy);
    var last, address := CutKeepsIff([tag], k, [], proxy);
    EnvOfOne(Fresh(proxy), tag);
  }

  /** Keys and maps do not go into the header and ask for no range. */
  lemma {:induction false} LooseTags(tags: seq<Line>)
    requires forall i :: 0 <= i < |tags| ==> Loose(tags[i])
    ensures HeaderTags(tags) == [] && Asks(tags) == None
  {
    if tags != [] {
      LooseTags(tags[..|tags| - 1]);
    }
  }

  lemma TwoDeclare(a: Line, b: Line)
    requires (a.Key? && b.MapTag?) || (a.MapTag? && b.Key?)
    ensures Declared([a, b]) == {if a.Key? then a.format else b.format} && HasMap([a, b])
    ensures DeclaredBeforeMap([a, b]) == if a.Key? then {a.format} else {}
  {
    assert [a, b] == [a] + [b] && [a] == [] + [a];
    DeclaredStep([], a);
    DeclaredStep([a], b);
  }

  lemma TwoTags(a: Line, b: Line)
    requires (a.Key? && b.MapTag?) || (a.MapTag? && b.Key?)
    ensures Declared([a, b]) == {if a.Key? then a.format else b.format} && HasMap([a, b])
    ensures DeclaredBeforeMap([a, b]) == if a.Key? then {a.format} else {}
    ensures Asks([a, b]) == None && HeaderTags([a, b]) == []
  {
    TwoDeclare(a, b);
    LooseTags([a, b]);
  }

  /** Two such tags declare enough for what a key and a map left in effect exactly if the key comes first. */
  lemma KeyFirst(last: Media, address: string, header: seq<Line>, a: Line, b: Line, format: string,
                 names: string -> string)
    requires last.keys.Keys == {format} && Asks(header) == None
    requires (a.Key? && a.format == format && b.MapTag?) || (a.MapTag? && b.Key? && b.format == format)
    ensures RedeclaredAfter(last, address, header, [a, b], names) <==> a.Key?
  {
    TwoTags(a, b);
  }

  lemma KeyAndMap(key: Line, tag: Line, a: Line, b: Line, k: nat, proxy: string -> string)
    requires key.Key? && key.encrypts && tag.MapTag? && k >= 1
    requires (a.Key? && a.format == key.format && b.MapTag?) || (a.MapTag? && b.Key? && b.format == key.format)
    ensures KeptTags(Cut([key, tag], k, [a, b]), proxy) <==> a.Key?
  {
    var last, address := CutKeepsIff([key, tag], k, [a, b], proxy);
    assert EnvAfter(Fresh(proxy), [key, tag]).keys.Keys == {key.format} by {
      EnvOfTwo(Fresh(proxy), key, tag);
    }
    LooseTags([key, tag]);
    NoneAsked();
    KeyFirst(last, address, HeaderTags([key, tag]), a, b, key.format, proxy);
  }

  lemma NoneAsked()
    ensures Asks([]) == None
  {
  }

  /**
   A key and a map before the first segment, and both again before the first served one:
   nothing is lost if the key comes first again, and the key of the map if it comes second.
   */
  lemma MapBeforeKey(key: Line, tag: Line, key': Line, tag': Line, k: nat, proxy: string -> string)
    requires key.Key? && key.encrypts && key'.Key? && key'.format == key.format && tag.MapTag? && tag'.MapTag? && k >= 1
    ensures !KeptTags(Cut([key, tag], k, [tag', key']), proxy)
    ensures KeptTags(Cut([key, tag], k, [key', tag']), proxy)
  {
    KeyAndMap(key, tag, tag', key', k, proxy);
    KeyAndMap(key, tag, key', tag', k, proxy);
  }

  // ----- Byte ranges -----------------------------------------------------------------------

  /** Segments of one file, each but the first with a range that continues the one before. */
  function Ranges(n: nat): seq<Line> {
    if n <= 1 then [ByteRange(1, Some(0)), Segment(FILE)] else Ranges(n - 1) + [ByteRange(1, None)] + [Segment(FILE)]
  }

  lemma TagsOfOneMore(before: seq<Line>, offset: Option<nat>, p: nat)
    ensures var lines := before + [ByteRange(1, offset)] + [Segment(FILE)];
            && SegmentsIn(lines) == SegmentsIn(before) + 1
            && TagsOf(lines, p)
               == if SegmentsIn(before) == p then TagsOf(before, p) + [ByteRange(1, offset)] else TagsOf(before, p)
  {
    TagsAtEnd(before, ByteRange(1, offset), p);
    TagsAtSegment(before + [ByteRange(1, offset)], Segment(FILE), p);
  }

  /** Each segment but the first has one tag, and none is left over. */
  predicate OneTagEach(lines: seq<Line>, n: nat) {
    && SegmentsIn(lines) == n && TagsOf(lines, n) == []
    && forall p :: 1 <= p < n ==> TagsOf(lines, p) == [ByteRange(1, None)]
  }

  lemma OneMoreTag(before: seq<Line>, n: nat)
    requires n >= 1 && OneTagEach(before, n)
    ensures OneTagEach(before + [ByteRange(1, None)] + [Segment(FILE)], n + 1)
  {
    var lines := before + [ByteRange(1, None)] + [Segment(FILE)];
    TagsOfOneMore(before, None, n);
    TagsOfOneMore(before, None, n + 1);
    NoTagsYet(before, n + 1);
    forall p | 1 <= p < n ensures TagsOf(lines, p) == [ByteRange(1, None)] {
      TagsOfOneMore(before, None, p);
    }
  }

  lemma FirstTag()
    ensures OneTagEach([ByteRange(1, Some(0)), Segment(FILE)], 1)
  {
    TagsOfOneMore([], Some(0), 1);
    assert [] + [ByteRange(1, Some(0))] + [Segment(FILE)] == [ByteRange(1, Some(0)), Segment(FILE)];
  }

  lemma {:induction false} TagsOfRanges(n: nat)
    requires n >= 1
    ensures OneTagEach(Ranges(n), n)
  {
    if n == 1 {
      FirstTag();
    } else {
      TagsOfRanges(n - 1);
      OneMoreTag(Ranges(n - 1), n - 1);
    }
  }

  lemma AfterRange(e: Env, offset: Option<nat>, n: nat)
    requires n >= 1 && (offset == Some(n - 1) || (offset == None && e.previous == Some(Previous(e.names(FILE), n - 1))))
    ensures var heard := Hear(e, ByteRange(1, offset));
            && MediaAt(heard, FILE).range == Sub(n - 1, 1) && MediaAt(heard, FILE).address == FILE
            && Hear(heard, Segment(FILE)).previous == Some(Previous(e.names(FILE), n))
            && Hear(heard, Segment(FILE)).names == e.names
  {
  }

  lemma ReadOneMore(before: seq<Line>, offset: Option<nat>, names: string -> string)
    ensures var e := EnvAfter(Fresh(names), before); var heard := Hear(e, ByteRange(1, offset));
            var lines := before + [ByteRange(1, offset)] + [Segment(FILE)];
            && Read(lines, names) == Read(before, names) + [MediaAt(heard, FILE)]
            && EnvAfter(Fresh(names), lines) == Hear(heard, Segment(FILE))
  {
    var tag := ByteRange(1, offset);
    HearAtEnd(Fresh(names), before, tag);
    HearAtEnd(Fresh(names), before + [tag], Segment(FILE));
    assert Read(before, names) + [] == Read(before, names);
  }

  /** The playlist is read as `n` ranges that continue each other, with another to follow. */
  ghost predicate ReadsRanges(lines: seq<Line>, n: nat, names: string -> string) {
    var read, e := Read(lines, names), EnvAfter(Fresh(names), lines);
    && |read| == n && e.names == names
    && (n > 0 ==> read[n - 1].range == Sub(n - 1, 1) && read[n - 1].address == FILE)
    && (n > 0 ==> e.previous == Some(Previous(names(FILE), n)))
  }

  lemma OneMoreRange(before: seq<Line>, offset: Option<nat>, n: nat, names: string -> string)
    requires ReadsRanges(before, n, names) && offset == if n == 0 then Some(0) else None
    ensures ReadsRanges(before + [ByteRange(1, offset)] + [Segment(FILE)], n + 1, names)
  {
    ReadOneMore(before, offset, names);
    AfterRange(EnvAfter(Fresh(names), before), offset, n + 1);
  }

  lemma ReadsNothing(names: string -> string)
    ensures ReadsRanges([], 0, names)
  {
  }

  lemma FirstRange(names: string -> string)
    ensures ReadsRanges([ByteRange(1, Some(0)), Segment(FILE)], 1, names)
  {
    ReadsNothing(names);
    OneMoreRange([], Some(0), 0, names);
    assert [] + [ByteRange(1, Some(0))] + [Segment(FILE)] == [ByteRange(1, Some(0)), Segment(FILE)];
  }

  lemma {:induction false} ReadRanges(n: nat, names: string -> string)
    requires n >= 1
    ensures ReadsRanges(Ranges(n), n, names)
  {
    if n == 1 {
      FirstRange(names);
    } else {
      ReadRanges(n - 1, names);
      OneMoreRange(Ranges(n - 1), None, n - 1, names);
    }
  }

  lemma {:induction false} ReadPrefix(n: nat, d: nat, names: string -> string)
    requires 1 <= d <= n
    ensures |Read(Ranges(n), names)| == n && |Read(Ranges(d), names)| == d
    ensures Read(Ranges(n), names)[d - 1] == Read(Ranges(d), names)[d - 1]
  {
    if d == n {
      ReadRanges(n, names);
    } else {
      ReadPrefix(n - 1, d, names);
      var m := LastRange(n, names);
      assert (Read(Ranges(n - 1), names) + [m])[d - 1] == Read(Ranges(n - 1), names)[d - 1];
    }
  }

  lemma LastRange(n: nat, names: string -> string) returns (m: Media)
    requires n >= 2
    ensures Read(Ranges(n), names) == Read(Ranges(n - 1), names) + [m]
  {
    ReadOneMore(Ranges(n - 1), None, names);
    m := MediaAt(Hear(EnvAfter(Fresh(names), Ranges(n - 1)), ByteRange(1, None)), FILE);
  }

  lemma ReadAt(n: nat, p: nat, names: string -> string)
    requires p < n
    ensures var read := Read(Ranges(n), names);
            |read| == n && read[p].address == FILE && Leaves(read[p], names) == Some(Previous(names(FILE), p + 1))
  {
    ReadPrefix(n, p + 1, names);
    ReadRanges(p + 1, names);
  }

  lemma ContinuesNothing(last: Media, address: string, header: seq<Line>, names: string -> string, end: nat)
    requires Leaves(last, names) == Some(Previous(names(address), end))
    ensures !RedeclaredAfter(last, address, header, [ByteRange(1, None)], names)
  {
    EnvOfOne(BARE, ByteRange(1, None));
  }

  lemma LostIf(lines: seq<Line>, d: nat, header: seq<Line>, tags: seq<Line>, proxy: string -> string)
    requires d == Dropped(|Read(lines, proxy)|) > 0 && HeaderTags(lines) == header && TagsOf(lines, d) == tags
    requires !RedeclaredAfter(Read(lines, proxy)[d - 1], Read(lines, proxy)[d].address, header, tags, proxy)
    ensures !KeptTags(lines, proxy)
  {
    RedeclaredIs(lines, proxy, d);
    KeptTagsIff(lines, proxy);
  }

  /** Nine such segments or more: the first served one has nothing to continue. */
  lemma ContinuedRangeIsLost(n: nat, proxy: string -> string)
    requires n >= 9
    ensures |Read(Ranges(n), proxy)| == n && !KeptTags(Ranges(n), proxy)
  {
    RangeIsLostAt(Ranges(n), n, n - 8, proxy) by {
      ReadAt(n, n - 9, proxy);
      ReadAt(n, n - 8, proxy);
      TagsOfRanges(n);
    }
  }

  lemma RangeIsLostAt(lines: seq<Line>, n: nat, d: nat, proxy: string -> string)
    requires |Read(lines, proxy)| == n && d == Dropped(n) > 0 && TagsOf(lines, d) == [ByteRange(1, None)]
    requires Read(lines, proxy)[d].address == FILE
    requires Leaves(Read(lines, proxy)[d - 1], proxy) == Some(Previous(proxy(FILE), d))
    ensures |Read(lines, proxy)| == n && !KeptTags(lines, proxy)
  {
    ContinuesNothing(Read(lines, proxy)[d - 1], FILE, HeaderTags(lines), proxy, d);
    LostIf(lines, d, HeaderTags(lines), [ByteRange(1, None)], proxy);
  }

  // ----- Discontinuity numbers ---------------------------------------------------------------

  lemma NumberIsLost(lines: seq<Line>, d: nat, proxy: string -> string)
    requires d == Dropped(|Segments(lines)|) > 0 && Segments(lines)[d - 1].discontinuity != 0 && TagsOf(lines, d) == []
    ensures !SameNumbers(Segments(Rolling(lines, proxy)), Segments(lines)[d..])
  {
    KeepsDiscontinuityNumbers(lines, proxy);
  }

  /**
   A discontinuity before the first segment, or a number set there that is not 0: those
   served have the number 0 instead, whether or not a discontinuity is among what is cut off.
   */
  lemma SequenceNumberIsLost(tag: Line, k: nat, proxy: string -> string)
    requires (tag.DiscontinuitySequence? && tag.n != 0) || tag.Discontinuity?
    requires k >= 1
    ensures var lines := Cut([tag], k, []);
            |Segments(lines)| == k + 8 && !SameNumbers(Segments(Rolling(lines, proxy)), Segments(lines)[k..])
  {
    ReadCut([tag], k, [], ITSELF);
    EnvOfOne(BARE, tag);
    TagsOfCut([tag], k, []);
    NumberIsLost(Cut([tag], k, []), k, proxy);
  }

  // ----- Start tags --------------------------------------------------------------------------

  /**
   Whatever follows an upstream start tag: if the served segments last four seconds, there are two in
   what is served.
   */
  lemma TwoStartTags(behind: real, rest: seq<Line>, proxy: string -> string)
    requires StartTags(rest) == 0 && SumDurations(Segments(rest)[Dropped(|Segments(rest)|)..]) >= 4.0
    ensures StartTags([Start(behind)] + rest) == 1 && StartTags(Rolling([Start(behind)] + rest, proxy)) > 1
  {
    var lines := [Start(behind)] + rest;
    StartTagsAppend([Start(behind)], rest);
    StartTagsOfOne(Start(behind));
    QuietFirst(Start(behind), rest);
    assert lines[..0] == [] && StartStays(lines, 0);
    AtMostOneStartTag(lines, proxy);
  }

  lemma QuietFirst(line: Line, rest: seq<Line>)
    requires line.Start?
    ensures Segments([line] + rest) == Segments(rest)
  {
    QuietLine(BARE, [], line);
    assert [] + [line] == [line];
    EnvAfterAppend(BARE, [line], rest);
  }

  // ----- The end of a stream -------------------------------------------------------------

  lemma {:induction false} BareShape(n: nat)
    ensures |Segments(Bare(n))| == n && Base(Bare(n)) == 0 && !IsVod(Bare(n)) && Shows(Bare(n), number => FILE)
  {
    if n > 0 {
      BareShape(n - 1);
      BareNext(Bare(n - 1));
    }
  }

  lemma BareNext(lines: seq<Line>)
    requires Base(lines) == 0 && !IsVod(lines) && Shows(lines, number => FILE)
    ensures var next := lines + [Segment(FILE)];
            |Segments(next)| == |Segments(lines)| + 1 && Base(next) == 0 && !IsVod(next) && Shows(next, number => FILE)
  {
    HearAtEnd(BARE, lines, Segment(FILE));
    assert (lines + [Segment(FILE)])[..|lines|] == lines;
  }

  lemma EndTagIsSilent(lines: seq<Line>, end: Line)
    requires end.VodMarker?
    ensures Segments(lines + [end]) == Segments(lines) && Base(lines + [end]) == Base(lines) && IsVod(lines + [end])
  {
    HearAtEnd(BARE, lines, end);
    assert Segments(lines) + [] == Segments(lines);
    assert (lines + [end])[..|lines|] == lines && (lines + [end])[|lines|] == end;
  }

  lemma ConformingPair(a: seq<Line>, b: seq<Line>, stream: int -> string)
    requires Shows(a, stream) && Shows(b, stream) && MovesOn(a, b)
    ensures Conforming([a, b], stream)
  {
  }

  /** Nine segments or more polled, then the same ones with the end tag: the served sequence goes back to 0. */
  lemma EndTagStepsBack(n: nat, proxy: string -> string, vodProxy: string -> string)
    requires n >= 9
    ensures var polls := [Bare(n), Bare(n) + [VodMarker("#EXT-X-ENDLIST")]];
            && Conforming(polls, number => FILE)
            && Base(Rewritten(polls[0], proxy, vodProxy)) == n - 8 && Base(Rewritten(polls[1], proxy, vodProxy)) == 0
  {
    var ended := Bare(n) + [VodMarker("#EXT-X-ENDLIST")];
    BareShape(n);
    EndTagIsSilent(Bare(n), VodMarker("#EXT-X-ENDLIST"));
    ConformingPair(Bare(n), ended, number => FILE);
    assert Base(Rewritten(Bare(n), proxy, vodProxy)) == n - 8 by {
      ServesTheEdge(Bare(n), proxy);
    }
    assert Base(Rewritten(ended, proxy, vodProxy)) == 0 by {
      VodKeepsEverything(ended, proxy, vodProxy);
    }
  }
}
