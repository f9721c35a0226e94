/**
 Dropping the CODECS attribute from an `#EXT-X-STREAM-INF` line: the attribute list
 (section 4.2 of RFC 8216) is split at the commas outside quotes, filtered and joined.
 */
module AttributeList {
  import opened Text

  // ----- The code ------------------------------------------------------------------

  predicate IsCodecs(attribute: string) {
    "CODECS=" <= AsciiUppercase(TrimStart(attribute))
  }

  /** The split: `current` is the attribute being read, `inQuotes` whether a quote is open. */
  function Scan(s: string, current: string, inQuotes: bool): seq<string> {
    if s == "" then (if current == "" then [] else [current])
    else if s[0] == '"' then Scan(s[1..], current + [s[0]], !inQuotes)
    else if s[0] == ',' && !inQuotes then [current] + Scan(s[1..], "", inQuotes)
    else Scan(s[1..], current + [s[0]], inQuotes)
  }

  function Split(attributes: string): seq<string> {
    Scan(attributes, "", false)
  }

  function Join(parts: seq<string>): string {
    if parts == [] then ""
    else if |parts| == 1 then parts[0]
    else parts[0] + "," + Join(parts[1..])
  }

  function WithoutCodecs(parts: seq<string>): seq<string> {
    if parts == [] then []
    else (if IsCodecs(parts[0]) then [] else [parts[0]]) + WithoutCodecs(parts[1..])
  }

  /** The position of the first colon, or the length. */
  function Colon(line: string): (i: nat)
    ensures i <= |line| && (i < |line| ==> line[i] == ':')
    ensures forall j :: 0 <= j < i ==> line[j] != ':'
  {
    if line == "" || line[0] == ':' then 0 else 1 + Colon(line[1..])
  }

  /** The attributes of a line; none when it has no colon. */
  function Attributes(line: string): seq<string> {
    if Colon(line) == |line| then [] else Split(line[Colon(line) + 1..])
  }

  function Edited(line: string): string {
    var i := Colon(line);
    if i == |line| then line else line[..i] + ":" + Join(WithoutCodecs(Attributes(line)))
  }

  method SplitAttributes(attributes: string) returns (parts: seq<string>)
    ensures parts == Split(attributes)
  {
    parts := [];
    var current, inQuotes := "", false;
    for i := 0 to |attributes|
      invariant Split(attributes) == parts + Scan(attributes[i..], current, inQuotes)
    {
      var ch := attributes[i];
      assert attributes[i..][0] == ch && attributes[i..][1..] == attributes[i + 1..];
      if ch == '"' {
        inQuotes := !inQuotes;
        current := current + [ch];
      } else if ch == ',' && !inQuotes {
        parts := parts + [current];
        current := "";
      } else {
        current := current + [ch];
      }
    }
    assert attributes[|attributes|..] == "";
    if current != "" {
      parts := parts + [current];
    }
  }

  method RemoveStreamInfCodecsAttribute(line: string) returns (edited: string)
    ensures edited == Edited(line)
  {
    var colon := Colon(line);
    if colon == |line| {
      return line;
    }
    var parts := SplitAttributes(line[colon + 1..]);
    edited := line[..colon] + ":" + Join(WithoutCodecs(parts));
  }

  // ----- Quotes ----------------------------------------------------------------------

  /** Whether a quote is open after `s`, read from the given state. */
  function Open(s: string, inQuotes: bool): bool {
    if s == "" then inQuotes else Open(s[1..], if s[0] == '"' then !inQuotes else inQuotes)
  }

  /** No comma of `s` lies outside quotes. */
  predicate Atomic(s: string, inQuotes: bool) {
    s == "" || ((s[0] != ',' || inQuotes) && Atomic(s[1..], if s[0] == '"' then !inQuotes else inQuotes))
  }

  /** Attributes as an attribute list can carry them: only the last may leave a quote open. */
  predicate AttributeParts(parts: seq<string>) {
    && (forall i :: 0 <= i < |parts| ==> Atomic(parts[i], false))
    && (forall i :: 0 <= i < |parts| - 1 ==> !Open(parts[i], false))
  }

  lemma {:induction false} ReadOne(s: string, c: char, q: bool)
    ensures Open(s + [c], q) == if c == '"' then !Open(s, q) else Open(s, q)
    ensures Atomic(s + [c], q) <==> Atomic(s, q) && (c != ',' || Open(s, q))
  {
    if s != "" {
      assert (s + [c])[1..] == s[1..] + [c];
      ReadOne(s[1..], c, if s[0] == '"' then !q else q);
    } else {
      assert s + [c] == [c];
      assert [c][1..] == "";
    }
  }

  /** What is split off has no bare comma, and commas inside quotes never split. */
  lemma {:induction false} ScanGivesAttributeParts(s: string, current: string, inQuotes: bool)
    requires Atomic(current, false) && Open(current, false) == inQuotes
    ensures AttributeParts(Scan(s, current, inQuotes))
    decreases |s|
  {
    if s != "" {
      ReadOne(current, s[0], false);
      if s[0] == ',' && !inQuotes {
        ScanGivesAttributeParts(s[1..], "", false);
        var rest := Scan(s[1..], "", false);
        var parts := [current] + rest;
        assert forall i :: 0 < i < |parts| ==> parts[i] == rest[i - 1];
      } else if s[0] == '"' {
        ScanGivesAttributeParts(s[1..], current + [s[0]], !inQuotes);
      } else {
        ScanGivesAttributeParts(s[1..], current + [s[0]], inQuotes);
      }
    }
  }

  lemma {:induction false} ScanAtomic(p: string, rest: string, current: string, inQuotes: bool)
    requires Atomic(p, inQuotes)
    ensures Scan(p + rest, current, inQuotes) == Scan(rest, current + p, Open(p, inQuotes))
    decreases |p|
  {
    if p == "" {
      assert p + rest == rest && current + p == current;
    } else {
      assert (p + rest)[1..] == p[1..] + rest;
      assert current + [p[0]] + p[1..] == current + p;
      ScanAtomic(p[1..], rest, current + [p[0]], if p[0] == '"' then !inQuotes else inQuotes);
    }
  }

  /** Splitting a join: the parts come back, except that an empty last part is lost. */
  lemma {:induction false} SplitOfJoin(parts: seq<string>)
    requires AttributeParts(parts)
    ensures Split(Join(parts)) == if parts != [] && parts[|parts| - 1] == "" then parts[..|parts| - 1] else parts
  {
    if |parts| == 1 {
      ScanAtomic(parts[0], "", "", false);
      assert parts[0] + "" == parts[0];
      assert parts == [parts[0]] && parts[..0] == [];
    } else if |parts| > 1 {
      var rest := "," + Join(parts[1..]);
      assert Join(parts) == parts[0] + rest;
      ScanAtomic(parts[0], rest, "", false);
      assert rest[1..] == Join(parts[1..]) && "" + parts[0] == parts[0];
      SplitOfJoin(parts[1..]);
      assert parts == [parts[0]] + parts[1..];
      assert parts[1..][|parts| - 2] == parts[|parts| - 1];
      assert parts[..|parts| - 1] == [parts[0]] + parts[1..][..|parts| - 2];
    }
  }

  lemma PrependPart(p: string, kept: seq<string>)
    requires Atomic(p, false) && AttributeParts(kept) && (kept != [] ==> !Open(p, false))
    ensures AttributeParts([p] + kept)
  {
    var all := [p] + kept;
    assert forall i :: 0 < i < |all| ==> all[i] == kept[i - 1];
  }

  lemma {:induction false} FilterKeepsAttributeParts(parts: seq<string>)
    requires AttributeParts(parts)
    ensures AttributeParts(WithoutCodecs(parts))
  {
    if parts != [] {
      var rest := parts[1..];
      assert forall i :: 0 <= i < |rest| ==> rest[i] == parts[i + 1];
      FilterKeepsAttributeParts(rest);
      if !IsCodecs(parts[0]) {
        if rest == [] {
          assert WithoutCodecs(parts) == [parts[0]];
        } else {
          PrependPart(parts[0], WithoutCodecs(rest));
        }
      }
    }
  }

  lemma {:induction false} KeptMembers(parts: seq<string>, i: nat)
    requires i < |WithoutCodecs(parts)|
    ensures !IsCodecs(WithoutCodecs(parts)[i]) && WithoutCodecs(parts)[i] in parts
  {
    if IsCodecs(parts[0]) {
      KeptMembers(parts[1..], i);
    } else if i > 0 {
      KeptMembers(parts[1..], i - 1);
    }
  }

  lemma {:induction false} FilterTwice(parts: seq<string>)
    requires forall i :: 0 <= i < |parts| ==> !IsCodecs(parts[i])
    ensures WithoutCodecs(parts) == parts
  {
    if parts != [] {
      FilterTwice(parts[1..]);
    }
  }

  /** An attribute is named CODECS in any case, white space before it aside. */
  lemma IsCodecsIff(attribute: string)
    ensures IsCodecs(attribute)
            <==> exists i :: 0 <= i <= |attribute| - 7 && CodecsAt(attribute, i)
  {
    var n := TrimStartIs(attribute);
    var rest := TrimStart(attribute);
    if IsCodecs(attribute) {
      var upper := AsciiUppercase(rest);
      assert forall k :: 0 <= k < 7 ==> upper[k] == "CODECS="[k];
      assert attribute[n..n + 7] == rest[..7];
      assert NamesCodecs(rest[..7]) && CodecsAt(attribute, n);
    }
    if i: nat :| i <= |attribute| - 7 && CodecsAt(attribute, i) {
      CodecsIsNoSpace(attribute, i);
      TrimStartStops(attribute);
      assert n == i;
      CodecsInUpperCase(rest);
    }
  }

  predicate NamesCodecs(s: string) {
    |s| == 7 && forall k :: 0 <= k < 7 ==> s[k] == "CODECS="[k] || s[k] == "codecs="[k]
  }

  /** It begins at `i`, after white space only. */
  predicate CodecsAt(attribute: string, i: nat)
    requires i + 7 <= |attribute|
  {
    NamesCodecs(attribute[i..i + 7]) && forall k :: 0 <= k < i ==> IsSpace(attribute[k])
  }

  lemma CodecsIsNoSpace(attribute: string, i: nat)
    requires i <= |attribute| - 7 && NamesCodecs(attribute[i..i + 7])
    ensures !IsSpace(attribute[i])
  {
    assert attribute[i] == attribute[i..i + 7][0];
  }

  lemma CodecsInUpperCase(rest: string)
    requires |rest| >= 7 && NamesCodecs(rest[..7])
    ensures "CODECS=" <= AsciiUppercase(rest)
  {
    forall k | 0 <= k < 7 ensures AsciiUppercase(rest)[k] == "CODECS="[k] {
      assert rest[..7][k] == rest[k];
    }
  }

  function Filtered(part: string): seq<string> {
    if IsCodecs(part) then [] else [part]
  }

  lemma Regroup(a: seq<string>, b: seq<string>, c: seq<string>)
    ensures (a + b) + c == a + (b + c)
  {
  }

  /** Exactly those are filtered out, and the others stay in order. */
  lemma {:induction false} FilterAppend(parts: seq<string>, part: string)
    ensures WithoutCodecs([]) == []
    ensures WithoutCodecs(parts + [part]) == WithoutCodecs(parts) + if IsCodecs(part) then [] else [part]
  {
    if parts == [] {
      assert parts + [part] == [part] && [part][1..] == [];
    } else {
      assert (parts + [part])[1..] == parts[1..] + [part];
      FilterAppend(parts[1..], part);
      Regroup(Filtered(parts[0]), WithoutCodecs(parts[1..]), Filtered(part));
    }
  }

  /** The tag in front of the attributes stays, and so does a line without a colon. */
  lemma TagStays(line: string)
    ensures Colon(line) == |line| ==> Edited(line) == line
    ensures Colon(line) < |line| ==>
              |Edited(line)| > Colon(line) && Edited(line)[..Colon(line) + 1] == line[..Colon(line) + 1]
  {
    if Colon(line) < |line| {
      AttributesOfEdited(line);
    }
  }

  // ----- Results -----------------------------------------------------------------------

  /** What the edit is meant to leave. */
  function Kept(line: string): seq<string> {
    WithoutCodecs(Attributes(line))
  }

  lemma KeptAreAttributeParts(line: string)
    ensures AttributeParts(Kept(line))
  {
    if Colon(line) < |line| {
      ScanGivesAttributeParts(line[Colon(line) + 1..], "", false);
      FilterKeepsAttributeParts(Attributes(line));
    }
  }

  lemma AttributesOfEdited(line: string)
    requires Colon(line) < |line|
    ensures Attributes(Edited(line)) == Split(Join(Kept(line)))
    ensures Colon(Edited(line)) == Colon(line) < |Edited(line)|
    ensures Edited(line)[..Colon(line)] == line[..Colon(line)]
  {
    var i := Colon(line);
    var edited := Edited(line);
    assert edited[i] == ':' && forall j :: 0 <= j < i ==> edited[j] == line[j];
    assert edited[i + 1..] == Join(Kept(line));
    assert Colon(edited) == i;
  }

  /**
   Reading the edited line again gives exactly the original attributes minus those named
   CODECS, in order, if and only if the last one kept is not empty.
   */
  lemma EditIsExact(line: string)
    requires Colon(line) < |line|
    ensures Attributes(Edited(line)) == Kept(line)
            <==> Kept(line) == [] || Kept(line)[|Kept(line)| - 1] != ""
  {
    KeptAreAttributeParts(line);
    AttributesOfEdited(line);
    SplitOfJoin(Kept(line));
  }

  lemma {:induction false} JoinDropLast(parts: seq<string>)
    requires |parts| > 1 && parts[|parts| - 1] == ""
    ensures Join(parts) == Join(parts[..|parts| - 1]) + ","
  {
    if |parts| == 2 {
      assert parts[1..] == [""] && parts[..1] == [parts[0]];
      assert Join(parts) == parts[0] + "," + Join(parts[1..]);
    } else {
      JoinDropLast(parts[1..]);
      assert parts[1..][..|parts| - 2] == parts[..|parts| - 1][1..];
    }
  }

  /** The second edit joins what splitting the first one's join gives. */
  lemma EditedTwice(line: string)
    requires Colon(line) < |line|
    ensures Edited(Edited(line)) == line[..Colon(line)] + ":" + Join(Split(Join(Kept(line))))
  {
    var kept := Kept(line);
    KeptAreAttributeParts(line);
    AttributesOfEdited(line);
    SplitOfJoin(kept);
    var again := Split(Join(kept));
    forall i | 0 <= i < |again| ensures !IsCodecs(again[i]) {
      KeptMembers(Attributes(line), i);
    }
    FilterTwice(again);
  }

  lemma JoinedAgain(kept: seq<string>)
    requires AttributeParts(kept)
    ensures Join(Split(Join(kept))) == Join(kept) <==> |kept| <= 1 || kept[|kept| - 1] != ""
  {
    SplitOfJoin(kept);
    if |kept| > 1 && kept[|kept| - 1] == "" {
      JoinDropLast(kept);
    } else if |kept| == 1 && kept[0] == "" {
      assert Split(Join(kept)) == [];
    }
  }

  lemma SameJoin(head: string, kept: seq<string>, once: string, twice: string)
    requires AttributeParts(kept) && once == head + Join(kept) && twice == head + Join(Split(Join(kept)))
    ensures twice == once <==> |kept| <= 1 || kept[|kept| - 1] != ""
  {
    JoinedAgain(kept);
    SamePrefix(head, Join(Split(Join(kept))), Join(kept));
  }

  lemma SameTwice(line: string, once: string, twice: string, kept: seq<string>, head: string)
    requires Colon(line) < |line| && once == Edited(line) && twice == Edited(once) && kept == Kept(line)
    requires head == line[..Colon(line)] + ":"
    ensures twice == once <==> |kept| <= 1 || kept[|kept| - 1] != ""
  {
    EditedTwice(line);
    KeptAreAttributeParts(line);
    SameJoin(head, kept, once, twice);
  }

  /** The edit is idempotent if and only if the last attribute kept is not an empty one after others. */
  lemma EditIsIdempotent(line: string)
    requires Colon(line) < |line|
    ensures Edited(Edited(line)) == Edited(line)
            <==> |Kept(line)| <= 1 || Kept(line)[|Kept(line)| - 1] != ""
  {
    SameTwice(line, Edited(line), Edited(Edited(line)), Kept(line), line[..Colon(line)] + ":");
  }

  lemma {:induction false} KeptNonEmpty(parts: seq<string>)
    requires forall i :: 0 <= i < |parts| ==> |parts[i]| > 0
    ensures forall i :: 0 <= i < |WithoutCodecs(parts)| ==> |WithoutCodecs(parts)[i]| > 0
  {
    if parts != [] {
      KeptNonEmpty(parts[1..]);
    }
  }

  /** In particular the edit is exact and idempotent on every list without empty attributes. */
  lemma EditWithoutEmptyAttributes(line: string)
    requires Colon(line) < |line| && forall i :: 0 <= i < |Attributes(line)| ==> |Attributes(line)[i]| > 0
    ensures Attributes(Edited(line)) == Kept(line) && Edited(Edited(line)) == Edited(line)
  {
    assert Kept(line) == [] || Kept(line)[|Kept(line)| - 1] != "" by {
      KeptNonEmpty(Attributes(line));
    }
    assert Attributes(Edited(line)) == Kept(line) by {
      EditIsExact(line);
    }
    EditIsIdempotent(line);
  }

  lemma SamePrefix(head: string, a: string, b: string)
    ensures head + a == head + b <==> a == b
  {
    assert (head + a)[|head|..] == a && (head + b)[|head|..] == b;
  }

  /** A line, of two attributes the second of which is empty, that the edit changes when applied again. */
  lemma EmptyLastAttribute()
    ensures Edited(Edited("T:A,,")) != Edited("T:A,,")
  {
    var line := "T:A,,";
    assert Colon(line) == 1 && line[2..] == "A" + ",,";
    assert Split("A" + ",,") == ["A", ""] by {
      ScanAtomic("A", ",,", "", false);
      assert "" + "A" == "A" && ",,"[1..] == "," && ","[1..] == "";
      assert Scan(",", "", false) == [""];
    }
    assert !IsCodecs("A") && !IsCodecs("");
    FilterTwice(["A", ""]);
    EditIsIdempotent(line);
  }
}
