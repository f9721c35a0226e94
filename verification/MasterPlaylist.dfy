/**
 The 1080p cap on master playlists. A line is taken as the cap classifies it, with the
 height it reads from the RESOLUTION attribute.
 */
module MasterPlaylist {
  import opened Options

  const MAX_HEIGHT := 1080

  datatype Line =
    | StreamInf(height: Option<nat>, text: string, uri: Option<string>)
    | IFrameStreamInf(height: Option<nat>, text: string, uri: Option<string>)
    | Uri(address: string)
    | Other(text: string, rendition: bool, uri: Option<string>)   // blank lines, comments, all other tags

  predicate TooHigh(height: Option<nat>) {
    height.Some? && height.value > MAX_HEIGHT
  }

  predicate KeptTag(line: Line) {
    line.StreamInf? && !TooHigh(line.height)
  }

  predicate HasKeepable(lines: seq<Line>) {
    lines != [] && (KeptTag(lines[0]) || HasKeepable(lines[1..]))
  }

  predicate Kept(line: Line, dropNextUri: bool) {
    match line
    case StreamInf(h, _, _) => !TooHigh(h)
    case IFrameStreamInf(h, _, _) => !TooHigh(h)
    case Uri(_) => !dropNextUri
    case Other(_, _, _) => true
  }

  /** Whether the URI on the next line goes with the tag just removed. */
  predicate DropNext(line: Line, dropNextUri: bool) {
    match line
    case StreamInf(h, _, _) => TooHigh(h)
    case IFrameStreamInf(_, _, _) => dropNextUri
    case _ => false
  }

  function CapFrom(lines: seq<Line>, dropNextUri: bool): seq<Line> {
    if lines == [] then []
    else
      var rest := CapFrom(lines[1..], DropNext(lines[0], dropNextUri));
      if Kept(lines[0], dropNextUri) then [lines[0]] + rest else rest
  }

  function Cap(lines: seq<Line>): seq<Line> {
    if HasKeepable(lines) then CapFrom(lines, false) else lines
  }

  method AnyKeepable(lines: seq<Line>) returns (found: bool)
    ensures found <==> HasKeepable(lines)
  {
    for i := 0 to |lines|
      invariant HasKeepable(lines) <==> HasKeepable(lines[i..])
    {
      assert lines[i..][0] == lines[i] && lines[i..][1..] == lines[i + 1..];
      if lines[i].StreamInf? && !TooHigh(lines[i].height) {
        return true;
      }
    }
    found := false;
  }

  method CapExternalEmbedMasterTo1080p(lines: seq<Line>) returns (out: seq<Line>)
    ensures out == Cap(lines)
  {
    var hasKeepable := AnyKeepable(lines);
    if !hasKeepable {
      return lines;
    }
    out := [];
    var dropNextUri := false;
    for i := 0 to |lines|
      invariant out + CapFrom(lines[i..], dropNextUri) == CapFrom(lines, false)
    {
      var line := lines[i];
      assert lines[i..][0] == line && lines[i..][1..] == lines[i + 1..];
      var keep := true;
      if line.StreamInf? {
        keep := !TooHigh(line.height);
        dropNextUri := !keep;
      } else if line.IFrameStreamInf? {
        keep := !TooHigh(line.height);
      } else if dropNextUri {
        dropNextUri := false;
        keep := !line.Uri?;
      }
      if keep {
        out := out + [line];
      }
    }
    assert lines[|lines|..] == [];
  }

  // ----- Idempotence and what is removed ---------------------------------------------

  predicate NothingTooHigh(lines: seq<Line>) {
    forall i :: 0 <= i < |lines| && (lines[i].StreamInf? || lines[i].IFrameStreamInf?) ==> !TooHigh(lines[i].height)
  }

  lemma {:induction false} CapLeavesNothingTooHigh(lines: seq<Line>, dropNextUri: bool)
    ensures NothingTooHigh(CapFrom(lines, dropNextUri))
    ensures HasKeepable(CapFrom(lines, dropNextUri)) <==> HasKeepable(lines)
  {
    if lines != [] {
      var next := DropNext(lines[0], dropNextUri);
      CapLeavesNothingTooHigh(lines[1..], next);
      var rest := CapFrom(lines[1..], next);
      assert ([lines[0]] + rest)[1..] == rest;
    }
  }

  lemma {:induction false} CapOfCapped(lines: seq<Line>)
    requires NothingTooHigh(lines)
    ensures CapFrom(lines, false) == lines
  {
    if lines != [] {
      assert forall i :: 0 <= i < |lines[1..]| ==> lines[1..][i] == lines[i + 1];
      CapOfCapped(lines[1..]);
    }
  }

  /** On every input, capping a second time changes nothing. */
  lemma CapIsIdempotent(lines: seq<Line>)
    ensures Cap(Cap(lines)) == Cap(lines)
  {
    if HasKeepable(lines) {
      CapLeavesNothingTooHigh(lines, false);
      CapOfCapped(CapFrom(lines, false));
    }
  }

  /** `a` is `b` with some lines left out. */
  predicate Subsequence(a: seq<Line>, b: seq<Line>)
    decreases |b|
  {
    if a == [] then true
    else if b == [] then false
    else (a[0] == b[0] && Subsequence(a[1..], b[1..])) || Subsequence(a, b[1..])
  }

  lemma {:induction false} CapFromIsSubsequence(lines: seq<Line>, dropNextUri: bool)
    ensures Subsequence(CapFrom(lines, dropNextUri), lines)
  {
    if lines != [] {
      var next := DropNext(lines[0], dropNextUri);
      CapFromIsSubsequence(lines[1..], next);
      var rest := CapFrom(lines[1..], next);
      assert ([lines[0]] + rest)[1..] == rest;
    }
  }

  lemma {:induction false} SubsequenceOfItself(lines: seq<Line>)
    ensures Subsequence(lines, lines)
  {
    if lines != [] {
      SubsequenceOfItself(lines[1..]);
    }
  }

  /** The cap only leaves lines out. */
  lemma CapIsSubsequence(lines: seq<Line>)
    ensures Subsequence(Cap(lines), lines)
  {
    CapFromIsSubsequence(lines, false);
    SubsequenceOfItself(lines);
  }

  // ----- What a player reads -----------------------------------------------------------

  datatype Variant = Variant(height: Option<nat>, uri: string)

  /** The variants of a playlist: each URI goes with the last variant tag before it, once. */
  function Variants(lines: seq<Line>, pending: Option<Option<nat>>): seq<Variant> {
    if lines == [] then []
    else
      match lines[0]
      case StreamInf(h, _, _) => Variants(lines[1..], Some(h))
      case Uri(u) =>
        (if pending.Some? then [Variant(pending.value, u)] else []) + Variants(lines[1..], None)
      case _ => Variants(lines[1..], pending)
  }

  function Capped(variants: seq<Variant>): seq<Variant> {
    if variants == [] then []
    else (if TooHigh(variants[0].height) then [] else [variants[0]]) + Capped(variants[1..])
  }

  lemma {:induction false} CappedAppend(a: seq<Variant>, b: seq<Variant>)
    ensures Capped(a + b) == Capped(a) + Capped(b)
  {
    if a == [] {
      assert a + b == b;
    } else {
      assert (a + b)[1..] == a[1..] + b;
      CappedAppend(a[1..], b);
    }
  }

  lemma VariantsCons(line: Line, rest: seq<Line>, pending: Option<Option<nat>>)
    ensures line.StreamInf? ==> Variants([line] + rest, pending) == Variants(rest, Some(line.height))
    ensures line.Uri? ==>
              Variants([line] + rest, pending)
              == (if pending.Some? then [Variant(pending.value, line.address)] else []) + Variants(rest, None)
    ensures line.IFrameStreamInf? || line.Other? ==> Variants([line] + rest, pending) == Variants(rest, pending)
  {
    assert ([line] + rest)[1..] == rest;
  }

  lemma CappedOne(v: Variant)
    ensures Capped([v]) == if TooHigh(v.height) then [] else [v]
  {
    assert [v][1..] == [];
  }

  /**
   How many URIs the cap leaves behind a tag they do not belong to: a kept tag without a
   URI yet is `held`; a removed tag supersedes it; the next URI that stays is misread.
   */
  function Misattached(lines: seq<Line>, held: bool, superseded: bool, dropNextUri: bool): nat {
    if lines == [] then 0
    else
      var rest := lines[1..];
      match lines[0]
      case StreamInf(h, _, _) =>
        if TooHigh(h) then Misattached(rest, held, held, true) else Misattached(rest, true, false, false)
      case IFrameStreamInf(_, _, _) => Misattached(rest, held, superseded, dropNextUri)
      case Other(_, _, _) => Misattached(rest, held, superseded, false)
      case Uri(_) =>
        if dropNextUri then Misattached(rest, held, superseded, false)
        else (if superseded then 1 else 0) + Misattached(rest, false, false, false)
  }

  /** How the tag pending in the input and the one pending in the output go together. */
  predicate InStep(before: Option<Option<nat>>, after: Option<Option<nat>>, held: bool, superseded: bool,
                   dropNextUri: bool) {
    && (after.Some? <==> held)
    && (after.Some? ==> !TooHigh(after.value))
    && (superseded ==> held && (before.Some? ==> TooHigh(before.value)))
    && (!superseded ==> after == if before.Some? && !TooHigh(before.value) then before else None)
    && (dropNextUri ==> before.Some? && TooHigh(before.value))
  }

  /** What is read is what is wanted, but for `bad` more. */
  predicate Filtered(read: seq<Variant>, wanted: seq<Variant>, bad: nat) {
    |read| == |wanted| + bad && (bad == 0 ==> read == wanted)
  }

  lemma FilteredUri(u: string, before: Option<Option<nat>>, after: Option<Option<nat>>, held: bool, superseded: bool,
                    read: seq<Variant>, variants: seq<Variant>, bad: nat)
    requires InStep(before, after, held, superseded, false) && Filtered(read, Capped(variants), bad)
    ensures var emitted := if before.Some? then [Variant(before.value, u)] else [];
            var out := if after.Some? then [Variant(after.value, u)] else [];
            Filtered(out + read, Capped(emitted + variants), (if superseded then 1 else 0) + bad)
  {
    CappedAppend(if before.Some? then [Variant(before.value, u)] else [], variants);
    if before.Some? {
      CappedOne(Variant(before.value, u));
    }
  }

  lemma DroppedUri(u: string, height: Option<nat>, variants: seq<Variant>)
    requires TooHigh(height)
    ensures Capped([Variant(height, u)] + variants) == Capped(variants)
  {
    CappedAppend([Variant(height, u)], variants);
    CappedOne(Variant(height, u));
  }

  lemma {:induction false} CapAgainstFilter(lines: seq<Line>, before: Option<Option<nat>>, after: Option<Option<nat>>,
                                           held: bool, superseded: bool, dropNextUri: bool)
    requires InStep(before, after, held, superseded, dropNextUri)
    ensures Filtered(Variants(CapFrom(lines, dropNextUri), after), Capped(Variants(lines, before)),
                     Misattached(lines, held, superseded, dropNextUri))
  {
    if lines != [] {
      var rest := lines[1..];
      var out := CapFrom(rest, DropNext(lines[0], dropNextUri));
      VariantsCons(lines[0], out, after);
      match lines[0]
      case StreamInf(h, _, _) =>
        if TooHigh(h) {
          CapAgainstFilter(rest, Some(h), after, held, held, true);
        } else {
          CapAgainstFilter(rest, Some(h), Some(h), true, false, false);
        }
      case IFrameStreamInf(h, _, _) =>
        CapAgainstFilter(rest, before, after, held, superseded, dropNextUri);
      case Other(_, _, _) =>
        CapAgainstFilter(rest, before, after, held, superseded, false);
      case Uri(u) =>
        if dropNextUri {
          CapAgainstFilter(rest, None, after, held, superseded, false);
          DroppedUri(u, before.value, Variants(rest, None));
        } else {
          CapAgainstFilter(rest, None, None, false, false, false);
          FilteredUri(u, before, after, held, superseded, Variants(out, None), Variants(rest, None),
                      Misattached(rest, false, false, false));
        }
    }
  }

  /**
   Reading the capped playlist gives exactly the variants that are not too high, if and
   only if no tag too high comes between a kept tag and the URI read with it.
   */
  lemma CapIsFilter(lines: seq<Line>)
    requires HasKeepable(lines)
    ensures Variants(Cap(lines), None) == Capped(Variants(lines, None))
            <==> Misattached(lines, false, false, false) == 0
  {
    CapAgainstFilter(lines, None, None, false, false, false);
  }

  // ----- The same condition, read off the master -------------------------------------------

  predicate HighTag(line: Line) {
    line.StreamInf? && TooHigh(line.height)
  }

  predicate OnlyIFrames(lines: seq<Line>, from: nat, to: nat)
    requires to <= |lines|
  {
    forall m :: from <= m < to ==> lines[m].IFrameStreamInf?
  }

  predicate NoKeptTag(lines: seq<Line>, from: nat, to: nat)
    requires to <= |lines|
  {
    forall m :: from <= m < to ==> !KeptTag(lines[m])
  }

  /** The URI at `k`, if there is one, goes with a removed tag: nothing but I-frame tags comes between. */
  predicate GoesWithTag(lines: seq<Line>, k: nat)
    requires k <= |lines|
  {
    exists h: nat :: h < k && HighTag(lines[h]) && OnlyIFrames(lines, h + 1, k)
  }

  predicate UriStays(lines: seq<Line>, k: nat)
    requires k < |lines|
  {
    lines[k].Uri? && !GoesWithTag(lines, k)
  }

  /** A kept tag at `i` that no URI before `k` has been read with. */
  predicate Waits(lines: seq<Line>, i: nat, k: nat)
    requires i < k <= |lines|
  {
    KeptTag(lines[i]) && forall m :: i < m < k ==> !UriStays(lines, m)
  }

  /** The tag at `i` waits, and the one at `j`, too high and followed by no kept one, has taken its place. */
  predicate TakesPlace(lines: seq<Line>, i: nat, j: nat, k: nat)
    requires i < j < k <= |lines|
  {
    Waits(lines, i, k) && HighTag(lines[j]) && NoKeptTag(lines, j + 1, k)
  }

  predicate IsSuperseded(lines: seq<Line>, k: nat)
    requires k <= |lines|
  {
    exists i: nat, j: nat :: i < j < k && TakesPlace(lines, i, j, k)
  }

  predicate Misread(lines: seq<Line>, k: nat)
    requires k < |lines|
  {
    UriStays(lines, k) && IsSuperseded(lines, k)
  }

  datatype Flags = Flags(held: bool, superseded: bool, dropNextUri: bool)

  function Step(f: Flags, line: Line): Flags {
    if HighTag(line) then Flags(f.held, f.held, true)
    else if KeptTag(line) then Flags(true, false, false)
    else if line.IFrameStreamInf? then f
    else if line.Uri? && !f.dropNextUri then Flags(false, false, false)
    else f.(dropNextUri := false)
  }

  /** The flags before line `k`. */
  function FlagsAt(lines: seq<Line>, k: nat): Flags
    requires k <= |lines|
  {
    if k == 0 then Flags(false, false, false) else Step(FlagsAt(lines, k - 1), lines[k - 1])
  }

  lemma MisattachedStep(lines: seq<Line>, f: Flags)
    requires lines != []
    ensures var next := Step(f, lines[0]);
            Misattached(lines, f.held, f.superseded, f.dropNextUri)
            == (if lines[0].Uri? && !f.dropNextUri && f.superseded then 1 else 0)
               + Misattached(lines[1..], next.held, next.superseded, next.dropNextUri)
  {
  }

  lemma {:induction false} DropFlag(lines: seq<Line>, k: nat)
    requires k <= |lines|
    ensures FlagsAt(lines, k).dropNextUri <==> GoesWithTag(lines, k)
  {
    if k > 0 {
      DropFlag(lines, k - 1);
      GoesWithTagStep(lines, k - 1);
    }
  }

  lemma GoesWithTagStep(lines: seq<Line>, k: nat)
    requires k < |lines|
    ensures GoesWithTag(lines, k + 1) <==> HighTag(lines[k]) || (lines[k].IFrameStreamInf? && GoesWithTag(lines, k))
  {
    if HighTag(lines[k]) {
      assert OnlyIFrames(lines, k + 1, k + 1);
    } else if lines[k].IFrameStreamInf? && GoesWithTag(lines, k) {
      var h: nat :| h < k && HighTag(lines[h]) && OnlyIFrames(lines, h + 1, k);
      assert OnlyIFrames(lines, h + 1, k + 1);
    }
  }

  /** What the cap keeps: no tag that is too high, no URI that goes with one, and everything else. */
  predicate StaysAt(lines: seq<Line>, k: nat)
    requires k < |lines|
  {
    match lines[k]
    case StreamInf(height, _, _) => Within1080(height)
    case IFrameStreamInf(height, _, _) => Within1080(height)
    case Uri(_) => !GoesWithTag(lines, k)
    case Other(_, _, _) => true
  }

  /** At most 1080 lines, or of unknown height. */
  predicate Within1080(height: Option<nat>) {
    height.Some? ==> height.value <= 1080
  }

  function StayingFrom(lines: seq<Line>, k: nat): seq<Line>
    requires k <= |lines|
    decreases |lines| - k
  {
    if k == |lines| then []
    else if StaysAt(lines, k) then [lines[k]] + StayingFrom(lines, k + 1)
    else StayingFrom(lines, k + 1)
  }

  lemma {:induction false} CapFromStaying(lines: seq<Line>, k: nat)
    requires k <= |lines|
    ensures CapFrom(lines[k..], GoesWithTag(lines, k)) == StayingFrom(lines, k)
    decreases |lines| - k
  {
    if k < |lines| {
      CapFromStaying(lines, k + 1);
      GoesWithTagStep(lines, k);
      assert lines[k..][0] == lines[k] && lines[k..][1..] == lines[k + 1..];
    }
  }

  /** Line by line, in order, the capped master is what stays. */
  lemma CapKeepsWhatStays(lines: seq<Line>)
    requires HasKeepable(lines)
    ensures Cap(lines) == StayingFrom(lines, 0)
  {
    CapFromStaying(lines, 0);
    assert lines[0..] == lines && !GoesWithTag(lines, 0);
  }

  /** With no variant within the cap, or of unknown height, nothing is removed. */
  lemma NothingKeepable(lines: seq<Line>)
    requires forall k :: 0 <= k < |lines| && lines[k].StreamInf? ==> !Within1080(lines[k].height)
    ensures Cap(lines) == lines
  {
    NoneKeepable(lines);
  }

  lemma {:induction false} NoneKeepable(lines: seq<Line>)
    ensures HasKeepable(lines) <==> exists k :: 0 <= k < |lines| && lines[k].StreamInf? && !TooHigh(lines[k].height)
  {
    if lines != [] {
      NoneKeepable(lines[1..]);
      if k :| 0 <= k < |lines[1..]| && lines[1..][k].StreamInf? && !TooHigh(lines[1..][k].height) {
        assert lines[k + 1] == lines[1..][k];
      }
      if k :| 0 <= k < |lines| && lines[k].StreamInf? && !TooHigh(lines[k].height) && k > 0 {
        assert lines[1..][k - 1] == lines[k];
      }
    }
  }

  lemma WaitsOn(lines: seq<Line>, i: nat, k: nat)
    requires i < k < |lines|
    ensures Waits(lines, i, k + 1) <==> Waits(lines, i, k) && !UriStays(lines, k)
  {
  }

  predicate SomeoneWaits(lines: seq<Line>, k: nat)
    requires k <= |lines|
  {
    exists i: nat :: i < k && Waits(lines, i, k)
  }

  lemma SomeoneWaitsStep(lines: seq<Line>, k: nat)
    requires k < |lines|
    ensures SomeoneWaits(lines, k + 1) <==> KeptTag(lines[k]) || (SomeoneWaits(lines, k) && !UriStays(lines, k))
  {
    if KeptTag(lines[k]) {
      assert Waits(lines, k, k + 1);
    } else if SomeoneWaits(lines, k + 1) {
      var i: nat :| i < k + 1 && Waits(lines, i, k + 1);
      WaitsOn(lines, i, k);
    } else if SomeoneWaits(lines, k) {
      var i: nat :| i < k && Waits(lines, i, k);
      WaitsOn(lines, i, k);
    }
  }

  lemma {:induction false} HeldFlag(lines: seq<Line>, k: nat)
    requires k <= |lines|
    ensures FlagsAt(lines, k).held <==> SomeoneWaits(lines, k)
  {
    if k > 0 {
      HeldFlag(lines, k - 1);
      DropFlag(lines, k - 1);
      SomeoneWaitsStep(lines, k - 1);
    }
  }

  lemma TakesPlaceOn(lines: seq<Line>, i: nat, j: nat, k: nat)
    requires i < j < k < |lines|
    ensures TakesPlace(lines, i, j, k + 1) <==> TakesPlace(lines, i, j, k) && !KeptTag(lines[k]) && !UriStays(lines, k)
  {
    WaitsOn(lines, i, k);
    if NoKeptTag(lines, j + 1, k) && !KeptTag(lines[k]) {
      assert NoKeptTag(lines, j + 1, k + 1);
    }
    assert NoKeptTag(lines, j + 1, k + 1) ==> NoKeptTag(lines, j + 1, k) && !KeptTag(lines[k]);
  }

  lemma SupersededStep(lines: seq<Line>, k: nat)
    requires k < |lines|
    ensures IsSuperseded(lines, k + 1)
            <==> if HighTag(lines[k]) then SomeoneWaits(lines, k)
                 else IsSuperseded(lines, k) && !KeptTag(lines[k]) && !UriStays(lines, k)
  {
    if IsSuperseded(lines, k + 1) {
      var i: nat, j: nat :| i < j < k + 1 && TakesPlace(lines, i, j, k + 1);
      WaitsOn(lines, i, k);
      if j < k {
        TakesPlaceOn(lines, i, j, k);
      }
    }
    if HighTag(lines[k]) && SomeoneWaits(lines, k) {
      var i: nat :| i < k && Waits(lines, i, k);
      WaitsOn(lines, i, k);
      assert TakesPlace(lines, i, k, k + 1);
    } else if IsSuperseded(lines, k) {
      var i: nat, j: nat :| i < j < k && TakesPlace(lines, i, j, k);
      TakesPlaceOn(lines, i, j, k);
    }
  }

  lemma {:induction false} SupersededFlag(lines: seq<Line>, k: nat)
    requires k <= |lines|
    ensures FlagsAt(lines, k).superseded <==> IsSuperseded(lines, k)
  {
    if k > 0 {
      SupersededFlag(lines, k - 1);
      HeldFlag(lines, k - 1);
      DropFlag(lines, k - 1);
      SupersededStep(lines, k - 1);
    }
  }

  predicate NothingMisread(lines: seq<Line>, from: nat) {
    forall k :: from <= k < |lines| ==> !Misread(lines, k)
  }

  lemma {:induction false} MisattachedFrom(lines: seq<Line>, k: nat)
    requires k <= |lines|
    ensures var f := FlagsAt(lines, k);
            Misattached(lines[k..], f.held, f.superseded, f.dropNextUri) == 0 <==> NothingMisread(lines, k)
    decreases |lines| - k
  {
    if k < |lines| {
      MisattachedFrom(lines, k + 1);
      MisattachedStep(lines[k..], FlagsAt(lines, k));
      assert lines[k..][0] == lines[k] && lines[k..][1..] == lines[k + 1..];
      assert FlagsAt(lines, k + 1) == Step(FlagsAt(lines, k), lines[k]);
      DropFlag(lines, k);
      SupersededFlag(lines, k);
      assert NothingMisread(lines, k) <==> !Misread(lines, k) && NothingMisread(lines, k + 1);
    }
  }

  /**
   Reading the capped playlist gives exactly the variants that are not too high if and only
   if there is no kept tag, later a tag too high, no further kept tag and no URI that stays
   between, and then a URI that stays.
   */
  lemma CapIsFilterIffNothingMisread(lines: seq<Line>)
    requires HasKeepable(lines)
    ensures Variants(Cap(lines), None) == Capped(Variants(lines, None))
            <==> NothingMisread(lines, 0)
  {
    CapIsFilter(lines);
    MisattachedFrom(lines, 0);
    assert lines[0..] == lines;
  }

  /** Section 4.3.4.2 of RFC 8216: the URI line directly follows its tag. */
  predicate UriFollows(lines: seq<Line>) {
    forall i :: 0 <= i < |lines| && lines[i].StreamInf? ==> i + 1 < |lines| && lines[i + 1].Uri?
  }

  lemma {:induction false} UriFollowsPairs(lines: seq<Line>)
    requires UriFollows(lines)
    ensures Misattached(lines, false, false, false) == 0
    ensures UriFollows(CapFrom(lines, false))
  {
    if lines != [] {
      var rest := lines[1..];
      if lines[0].StreamInf? {
        var rest' := rest[1..];
        assert rest[0] == lines[1] && forall i :: 0 <= i < |rest'| ==> rest'[i] == lines[i + 2];
        UriFollowsPairs(rest');
        var out := CapFrom(rest', false);
        if !TooHigh(lines[0].height) {
          assert CapFrom(lines, false) == [lines[0], lines[1]] + out;
        } else {
          assert CapFrom(lines, false) == out;
        }
      } else {
        assert forall i :: 0 <= i < |rest| ==> rest[i] == lines[i + 1];
        UriFollowsPairs(rest);
        var out := CapFrom(rest, false);
        assert CapFrom(lines, false) == out || CapFrom(lines, false) == [lines[0]] + out;
      }
    }
  }

  /** On conforming masters the cap filters the variants and the result conforms again. */
  lemma CapOfConformingMaster(lines: seq<Line>)
    requires UriFollows(lines)
    ensures Variants(Cap(lines), None)
         == if HasKeepable(lines) then Capped(Variants(lines, None)) else Variants(lines, None)
    ensures UriFollows(Cap(lines))
  {
    UriFollowsPairs(lines);
    if HasKeepable(lines) {
      CapIsFilter(lines);
    }
  }

  /** A master outside the RFC whose only kept tag ends up with the URI of a removed one. */
  lemma SupersededTag()
    ensures var lines := [StreamInf(Some(720), "", None), StreamInf(Some(2160), "", None), Other("", false, None),
                          Uri("big")];
            && Capped(Variants(lines, None)) == []
            && Variants(Cap(lines), None) == [Variant(Some(720), "big")]
  {
    var lines := [StreamInf(Some(720), "", None), StreamInf(Some(2160), "", None), Other("", false, None), Uri("big")];
    assert KeptTag(lines[0]);
    var l1, l2, l3 := lines[1..], lines[1..][1..], lines[1..][1..][1..];
    assert l3 == [Uri("big")] && l3[1..] == [] && l2[0] == Other("", false, None)
        && l1[0] == StreamInf(Some(2160), "", None);
    assert Variants(l3, Some(Some(2160))) == [Variant(Some(2160), "big")];
    assert Variants(lines, None) == [Variant(Some(2160), "big")];
    assert CapFrom(l3, false) == l3;
    assert CapFrom(l2, true) == [Other("", false, None)] + l3;
    var capped := [lines[0]] + ([Other("", false, None)] + l3);
    assert CapFrom(lines, false) == capped;
    assert capped[1..] == [Other("", false, None)] + l3 && capped[1..][1..] == l3;
    assert Variants(l3, Some(Some(720))) == [Variant(Some(720), "big")];
  }

  // ----- Rewriting ---------------------------------------------------------------------

  /** Variants, renditions and I-frame playlists go to the playlist handler, the rest to the resource handler. */
  function RewriteLine(line: Line, playlist: string -> string, resource: string -> string): Line {
    match line
    case StreamInf(h, text, Some(u)) => StreamInf(h, text, Some(resource(u)))
    case IFrameStreamInf(h, text, Some(u)) => IFrameStreamInf(h, text, Some(playlist(u)))
    case Uri(u) => Uri(playlist(u))
    case Other(text, rendition, Some(u)) => Other(text, rendition, Some(if rendition then playlist(u) else resource(u)))
    case _ => line
  }

  function RewriteLines(lines: seq<Line>, playlist: string -> string, resource: string -> string): seq<Line> {
    seq(|lines|, i requires 0 <= i < |lines| => RewriteLine(lines[i], playlist, resource))
  }

  function Rewritten(lines: seq<Line>, capped: bool, playlist: string -> string,
                     resource: string -> string): seq<Line> {
    RewriteLines(if capped then Cap(lines) else lines, playlist, resource)
  }

  function ProxiedVariants(variants: seq<Variant>, playlist: string -> string): seq<Variant> {
    if variants == [] then []
    else [Variant(variants[0].height, playlist(variants[0].uri))] + ProxiedVariants(variants[1..], playlist)
  }

  /** Rewriting proxies the variants one by one and leaves their heights and order alone. */
  lemma {:induction false} VariantsOfRewritten(lines: seq<Line>, pending: Option<Option<nat>>,
                                               playlist: string -> string, resource: string -> string)
    ensures Variants(RewriteLines(lines, playlist, resource), pending)
              == ProxiedVariants(Variants(lines, pending), playlist)
  {
    if lines != [] {
      assert RewriteLines(lines, playlist, resource)[1..] == RewriteLines(lines[1..], playlist, resource);
      var rest := lines[1..];
      match lines[0]
      case StreamInf(h, _, _) => VariantsOfRewritten(rest, Some(h), playlist, resource);
      case Uri(u) =>
        VariantsOfRewritten(rest, None, playlist, resource);
        if pending.Some? {
          assert ([Variant(pending.value, u)] + Variants(rest, None))[1..] == Variants(rest, None);
        } else {
          assert [] + Variants(rest, None) == Variants(rest, None);
        }
      case _ => VariantsOfRewritten(rest, pending, playlist, resource);
    }
  }

  function UriOf(line: Line): Option<string> {
    match line
    case StreamInf(_, _, u) => u
    case IFrameStreamInf(_, _, u) => u
    case Uri(u) => Some(u)
    case Other(_, _, u) => u
  }

  function WithoutUri(line: Line): Line {
    match line
    case StreamInf(height, text, _) => StreamInf(height, text, None)
    case IFrameStreamInf(height, text, _) => IFrameStreamInf(height, text, None)
    case Uri(_) => Uri("")
    case Other(text, rendition, _) => Other(text, rendition, None)
  }

  /** The URI is that of a playlist: a variant, a rendition or an I-frame playlist. */
  predicate LeadsToPlaylist(line: Line) {
    line.Uri? || line.IFrameStreamInf? || (line.Other? && line.rendition)
  }

  /** Of every line only the URI changes, by the proxy for what it leads to. */
  lemma LineRewritten(line: Line, playlist: string -> string, resource: string -> string)
    ensures var out := RewriteLine(line, playlist, resource);
            && WithoutUri(out) == WithoutUri(line) && (UriOf(out).Some? <==> UriOf(line).Some?)
            && (UriOf(line).Some? ==>
                  UriOf(out).value
                      == if LeadsToPlaylist(line) then playlist(UriOf(line).value) else resource(UriOf(line).value))
  {
    match line
    case StreamInf(_, _, _) =>
    case IFrameStreamInf(_, _, _) =>
    case Uri(_) =>
    case Other(_, _, _) =>
  }

  ghost predicate Mentions(lines: seq<Line>, uri: string) {
    exists i :: 0 <= i < |lines| && UriOf(lines[i]) == Some(uri)
  }

  lemma {:induction false} InSubsequence(a: seq<Line>, b: seq<Line>, i: nat)
    requires Subsequence(a, b) && i < |a|
    ensures exists j :: 0 <= j < |b| && b[j] == a[i]
    decreases |b|
  {
    if a[0] == b[0] && Subsequence(a[1..], b[1..]) {
      if i > 0 {
        InSubsequence(a[1..], b[1..], i - 1);
        var j :| 0 <= j < |b[1..]| && b[1..][j] == a[i];
        assert b[j + 1] == a[i];
      }
    } else {
      InSubsequence(a, b[1..], i);
      var j :| 0 <= j < |b[1..]| && b[1..][j] == a[i];
      assert b[j + 1] == a[i];
    }
  }

  lemma RewrittenUri(line: Line, playlist: string -> string, resource: string -> string)
    ensures var out := UriOf(RewriteLine(line, playlist, resource));
            out.Some? <==> UriOf(line).Some?
    ensures var out := UriOf(RewriteLine(line, playlist, resource));
            out.Some? ==> out == Some(playlist(UriOf(line).value)) || out == Some(resource(UriOf(line).value))
  {
    match line
    case StreamInf(_, _, u) =>
      if u.Some? { assert RewriteLine(line, playlist, resource).uri == Some(resource(u.value)); }
    case IFrameStreamInf(_, _, u) =>
      if u.Some? { assert RewriteLine(line, playlist, resource).uri == Some(playlist(u.value)); }
    case _ =>
  }

  /** Every URI of a rewritten master is what one of the two proxies makes of a URI of the master. */
  lemma EveryUriIsProxied(lines: seq<Line>, capped: bool, playlist: string -> string, resource: string -> string,
                          uri: string)
    requires Mentions(Rewritten(lines, capped, playlist, resource), uri)
    ensures exists i :: 0 <= i < |lines| && UriOf(lines[i]).Some?
                        && (uri == playlist(UriOf(lines[i]).value) || uri == resource(UriOf(lines[i]).value))
  {
    var kept := if capped then Cap(lines) else lines;
    var k :| 0 <= k < |kept| && UriOf(RewriteLine(kept[k], playlist, resource)) == Some(uri);
    if capped {
      CapIsSubsequence(lines);
      InSubsequence(kept, lines, k);
    }
    var i :| 0 <= i < |lines| && lines[i] == kept[k];
    RewrittenUri(lines[i], playlist, resource);
  }
}
