/**
 Collapsing white space and making slugs. Both cut a text into its maximal pieces without
 separators and join these with one separator between them.
 */
module Slugs {
  import Text

  // ----- Pieces ----------------------------------------------------------------------------

  predicate Clean(piece: string, separates: char -> bool) {
    piece != "" && forall i :: 0 <= i < |piece| ==> !separates(piece[i])
  }

  /** The maximal non-empty runs of characters that do not separate. */
  function Pieces(s: string, separates: char -> bool): (pieces: seq<string>)
    ensures s != "" && !separates(s[|s| - 1]) ==> pieces != []
  {
    if s == "" then []
    else
      var init, last := s[..|s| - 1], s[|s| - 1];
      var before := Pieces(init, separates);
      if separates(last) then before
      else if init != "" && !separates(init[|init| - 1]) then
        before[..|before| - 1] + [before[|before| - 1] + [last]]
      else before + [[last]]
  }

  lemma {:induction false} PiecesAreClean(s: string, separates: char -> bool)
    ensures forall i :: 0 <= i < |Pieces(s, separates)| ==> Clean(Pieces(s, separates)[i], separates)
  {
    if s != "" {
      PiecesAreClean(s[..|s| - 1], separates);
    }
  }

  function Join(pieces: seq<string>, separator: char): string {
    if pieces == [] then ""
    else if |pieces| == 1 then pieces[0]
    else Join(pieces[..|pieces| - 1], separator) + [separator] + pieces[|pieces| - 1]
  }

  lemma PiecesStart(a: string, c: char, separates: char -> bool)
    requires !separates(c) && (a == "" || separates(a[|a| - 1]))
    ensures Pieces(a + [c], separates) == Pieces(a, separates) + [[c]]
  {
    assert (a + [c])[..|a|] == a;
  }

  lemma PiecesGrow(a: string, c: char, separates: char -> bool)
    requires !separates(c) && a != "" && !separates(a[|a| - 1])
    ensures var before := Pieces(a, separates);
            Pieces(a + [c], separates) == before[..|before| - 1] + [before[|before| - 1] + [c]]
  {
    assert (a + [c])[..|a|] == a;
  }

  lemma {:induction false} PiecesOfWord(a: string, word: string, separates: char -> bool)
    requires a == "" || separates(a[|a| - 1])
    requires Clean(word, separates)
    ensures Pieces(a + word, separates) == Pieces(a, separates) + [word]
  {
    var init, last := word[..|word| - 1], word[|word| - 1];
    if init == "" {
      assert word == [last];
      PiecesStart(a, last, separates);
    } else {
      PiecesOfWord(a, init, separates);
      PiecesGrow(a + init, last, separates);
      OneMore(a, word);
      GrowLast(Pieces(a, separates), init, word);
    }
  }

  lemma OneMore(a: string, word: string)
    requires word != ""
    ensures a + word == a + word[..|word| - 1] + [word[|word| - 1]]
  {
  }

  lemma GrowLast(before: seq<string>, init: string, word: string)
    requires word != "" && init == word[..|word| - 1]
    ensures var pieces := before + [init];
            pieces[..|pieces| - 1] + [pieces[|pieces| - 1] + [word[|word| - 1]]] == before + [word]
  {
    assert init + [word[|word| - 1]] == word;
  }

  lemma PiecesBeforeSeparator(a: string, separator: char, separates: char -> bool)
    requires separates(separator)
    ensures Pieces(a + [separator], separates) == Pieces(a, separates)
  {
    assert (a + [separator])[..|a|] == a;
  }

  /** The text ends inside a piece. */
  predicate EndsInside(s: string, separates: char -> bool) {
    s != "" && !separates(s[|s| - 1])
  }

  function Grown(pieces: seq<string>, inside: bool, last: char, separates: char -> bool): seq<string>
    requires inside ==> pieces != []
  {
    if separates(last) then pieces
    else if inside then pieces[..|pieces| - 1] + [pieces[|pieces| - 1] + [last]]
    else pieces + [[last]]
  }

  /** One character more. */
  lemma PiecesExtend(s: string, last: char, separates: char -> bool)
    ensures EndsInside(s, separates) ==> Pieces(s, separates) != []
    ensures Pieces(s + [last], separates) == Grown(Pieces(s, separates), EndsInside(s, separates), last, separates)
  {
    assert (s + [last])[..|s|] == s;
  }

  lemma GrownAfter(a: seq<string>, b: seq<string>, inside: bool, last: char, separates: char -> bool)
    requires inside ==> b != []
    ensures Grown(a + b, inside, last, separates) == a + Grown(b, inside, last, separates)
  {
    if inside {
      assert (a + b)[..|a + b| - 1] == a + b[..|b| - 1];
    }
  }

  /** A separator cuts: the pieces before it and those after it are the pieces of the whole. */
  lemma {:induction false} PiecesSplit(a: string, c: char, b: string, separates: char -> bool)
    requires separates(c)
    ensures Pieces(a + [c] + b, separates) == Pieces(a, separates) + Pieces(b, separates)
  {
    if b == "" {
      PiecesBeforeSeparator(a, c, separates);
      assert a + [c] + b == a + [c];
    } else {
      PiecesSplit(a, c, b[..|b| - 1], separates);
      OneMore(a + [c], b);
      assert b[..|b| - 1] + [b[|b| - 1]] == b;
      SplitStep(a, c, b[..|b| - 1], b[|b| - 1], separates);
    }
  }

  lemma SplitStep(a: string, c: char, b: string, last: char, separates: char -> bool)
    requires separates(c) && Pieces(a + [c] + b, separates) == Pieces(a, separates) + Pieces(b, separates)
    ensures Pieces(a + [c] + b + [last], separates) == Pieces(a, separates) + Pieces(b + [last], separates)
  {
    var all := a + [c] + b;
    assert all[|all| - 1] == if b == "" then c else b[|b| - 1];
    PiecesExtend(all, last, separates);
    PiecesExtend(b, last, separates);
    GrownAfter(Pieces(a, separates), Pieces(b, separates), EndsInside(b, separates), last, separates);
  }

  /** A text has a piece exactly when one of its characters does not separate. */
  lemma {:induction false} SomePiece(s: string, separates: char -> bool)
    ensures Pieces(s, separates) != [] <==> exists i :: 0 <= i < |s| && !separates(s[i])
  {
    if s != "" {
      var init := s[..|s| - 1];
      SomePiece(init, separates);
      assert forall i :: 0 <= i < |init| ==> init[i] == s[i];
      if Pieces(s, separates) != [] && separates(s[|s| - 1]) {
        var i :| 0 <= i < |init| && !separates(init[i]);
        assert !separates(s[i]);
      }
    }
  }

  lemma PiecesOfClean(word: string, separates: char -> bool)
    requires Clean(word, separates)
    ensures Pieces(word, separates) == [word]
  {
    PiecesOfWord("", word, separates);
    assert "" + word == word;
  }

  /** Cutting what was joined gives back the pieces. */
  lemma {:induction false} PiecesOfJoin(pieces: seq<string>, separator: char, separates: char -> bool)
    requires separates(separator) && forall i :: 0 <= i < |pieces| ==> Clean(pieces[i], separates)
    ensures Pieces(Join(pieces, separator), separates) == pieces
  {
    if |pieces| == 1 {
      PiecesOfClean(pieces[0], separates);
      assert pieces == [pieces[0]];
    } else if |pieces| > 1 {
      var before, last := pieces[..|pieces| - 1], pieces[|pieces| - 1];
      PiecesOfJoin(before, separator, separates);
      PiecesSplit(Join(before, separator), separator, last, separates);
      PiecesOfClean(last, separates);
      assert pieces == before + [last];
    }
  }

  /** A joined text neither begins nor ends with a separator. */
  lemma {:induction false} JoinEnds(pieces: seq<string>, separator: char, separates: char -> bool)
    requires forall i :: 0 <= i < |pieces| ==> Clean(pieces[i], separates)
    ensures Join(pieces, separator) == "" <==> pieces == []
    ensures var s := Join(pieces, separator); s != "" ==> !separates(s[0]) && !separates(s[|s| - 1])
  {
    if |pieces| > 1 {
      JoinEnds(pieces[..|pieces| - 1], separator, separates);
    }
  }

  // ----- White space -----------------------------------------------------------------------

  function NormalizeWhitespace(s: string): string {
    Text.Trim(Join(Pieces(s, Text.IsSpace), ' '))
  }

  lemma NormalizedIsJoined(s: string)
    ensures NormalizeWhitespace(s) == Join(Pieces(s, Text.IsSpace), ' ')
    ensures Text.Trimmed(NormalizeWhitespace(s))
  {
    PiecesAreClean(s, Text.IsSpace);
    JoinEnds(Pieces(s, Text.IsSpace), ' ', Text.IsSpace);
    Text.TrimOfTrimmed(Join(Pieces(s, Text.IsSpace), ' '));
  }

  /** Collapsing white space is idempotent. */
  lemma NormalizeTwice(s: string)
    ensures NormalizeWhitespace(NormalizeWhitespace(s)) == NormalizeWhitespace(s)
  {
    NormalizedIsJoined(s);
    NormalizedIsJoined(NormalizeWhitespace(s));
    PiecesAreClean(s, Text.IsSpace);
    PiecesOfJoin(Pieces(s, Text.IsSpace), ' ', Text.IsSpace);
  }

  lemma NormalizeJoined(pieces: seq<string>)
    requires forall i :: 0 <= i < |pieces| ==> Clean(pieces[i], Text.IsSpace)
    ensures NormalizeWhitespace(Join(pieces, ' ')) == Join(pieces, ' ')
  {
    NormalizedIsJoined(Join(pieces, ' '));
    PiecesOfJoin(pieces, ' ', Text.IsSpace);
  }

  // ----- Slugs -----------------------------------------------------------------------------

  predicate Alphanumeric(c: char) {
    'a' <= c <= 'z' || 'A' <= c <= 'Z' || '0' <= c <= '9'
  }

  predicate Separates(c: char) {
    !Alphanumeric(c)
  }

  function TrimDashesStart(s: string): string {
    if s != "" && s[0] == '-' then TrimDashesStart(s[1..]) else s
  }

  function TrimDashesEnd(s: string): string {
    if s != "" && s[|s| - 1] == '-' then TrimDashesEnd(s[..|s| - 1]) else s
  }

  /** The alphanumeric pieces in lower case with a dash between them, or the fallback if there are none. */
  function SlugOf(value: string, fallback: string, lower: string -> string): string {
    var slug := Join(Pieces(lower(NormalizeWhitespace(value)), Separates), '-');
    if slug == "" then fallback else slug
  }

  /** Pieces with dashes between them, before the first and after the last. */
  function Dashed(leading: bool, pieces: seq<string>, trailing: bool): string {
    (if leading then "-" else "") + Join(pieces, '-') + if trailing then "-" else ""
  }

  /** What the loop has written after the text `s`. */
  function Written(s: string): string {
    var pieces := Pieces(s, Separates);
    Dashed(s != "" && Separates(s[0]), pieces, pieces != [] && Separates(s[|s| - 1]))
  }

  lemma {:induction false} AllSeparate(s: string)
    requires Pieces(s, Separates) == []
    ensures forall i :: 0 <= i < |s| ==> Separates(s[i])
  {
    if s != "" {
      AllSeparate(s[..|s| - 1]);
    }
  }

  lemma JoinLast(before: seq<string>, last: string)
    requires before != []
    ensures Join(before + [last], '-') == Join(before, '-') + ['-'] + last
  {
    assert (before + [last])[..|before|] == before;
  }

  lemma ExtendLast(pieces: seq<string>, c: char)
    requires pieces != []
    ensures Join(pieces[..|pieces| - 1] + [pieces[|pieces| - 1] + [c]], '-') == Join(pieces, '-') + [c]
  {
    var before, last := pieces[..|pieces| - 1], pieces[|pieces| - 1];
    if before != [] {
      JoinLast(before, last + [c]);
    }
  }

  lemma DashedGrow(leading: bool, pieces: seq<string>, c: char)
    requires pieces != []
    ensures Dashed(leading, pieces[..|pieces| - 1] + [pieces[|pieces| - 1] + [c]], false)
              == Dashed(leading, pieces, false) + [c]
  {
    ExtendLast(pieces, c);
  }

  lemma DashedMore(leading: bool, pieces: seq<string>, c: char)
    requires pieces != []
    ensures Dashed(leading, pieces + [[c]], false) == Dashed(leading, pieces, true) + [c]
  {
    JoinLast(pieces, [c]);
  }

  lemma WriteInside(s: string, c: char)
    requires Alphanumeric(c) && s != "" && Alphanumeric(s[|s| - 1])
    ensures Written(s + [c]) == Written(s) + [c]
  {
    PiecesGrow(s, c, Separates);
    assert (s + [c])[0] == s[0] && (s + [c])[|s|] == c;
    DashedGrow(Separates(s[0]), Pieces(s, Separates), c);
  }

  lemma WriteFirst(s: string, c: char)
    requires Alphanumeric(c) && (s == "" || Separates(s[|s| - 1]))
    ensures Written(s + [c]) == Written(s) + [c]
  {
    var pieces := Pieces(s, Separates);
    PiecesStart(s, c, Separates);
    if pieces == [] {
      AllSeparate(s);
    } else {
      assert (s + [c])[0] == s[0] && (s + [c])[|s|] == c;
      DashedMore(Separates(s[0]), pieces, c);
    }
  }

  lemma WriteAlphanumeric(s: string, c: char)
    requires Alphanumeric(c)
    ensures Written(s + [c]) == Written(s) + [c]
  {
    if s != "" && Alphanumeric(s[|s| - 1]) {
      WriteInside(s, c);
    } else {
      WriteFirst(s, c);
    }
  }

  lemma WriteSeparator(s: string, c: char)
    requires !Alphanumeric(c)
    ensures Written(s + [c]) == if s != "" && Separates(s[|s| - 1]) then Written(s) else Written(s) + ['-']
  {
    assert (s + [c])[..|s|] == s;
    if Pieces(s, Separates) == [] {
      AllSeparate(s);
    }
  }

  lemma TrimDashed(lead: string, joined: string, tail: string)
    requires (lead == "" || lead == "-") && (tail == "" || tail == "-")
    requires joined != "" && joined[0] != '-' && joined[|joined| - 1] != '-'
    ensures TrimDashesEnd(TrimDashesStart(lead + joined + tail)) == joined
  {
    var rest := joined + tail;
    assert lead + joined + tail == lead + rest;
    assert lead == "-" ==> (lead + rest)[1..] == rest;
    assert TrimDashesStart(lead + rest) == rest;
    assert tail == "-" ==> rest[..|joined|] == joined;
  }

  lemma TrimWritten(s: string)
    ensures TrimDashesEnd(TrimDashesStart(Written(s))) == Join(Pieces(s, Separates), '-')
  {
    var pieces := Pieces(s, Separates);
    PiecesAreClean(s, Separates);
    JoinEnds(pieces, '-', Separates);
    if pieces == [] {
      assert Written(s) == "-" || Written(s) == "";
      assert "-"[1..] == "";
    } else {
      assert Separates('-');
      TrimDashed(if s != "" && Separates(s[0]) then "-" else "", Join(pieces, '-'),
                 if Separates(s[|s| - 1]) then "-" else "");
    }
  }

  lemma WriteNext(text: string, i: nat)
    requires i < |text|
    ensures Written(text[..i + 1])
         == if Alphanumeric(text[i]) then Written(text[..i]) + [text[i]]
            else if i > 0 && Separates(text[i - 1]) then Written(text[..i]) else Written(text[..i]) + ['-']
  {
    assert text[..i + 1] == text[..i] + [text[i]];
    if Alphanumeric(text[i]) {
      WriteAlphanumeric(text[..i], text[i]);
    } else {
      WriteSeparator(text[..i], text[i]);
    }
  }

  lemma FinishedSlug(value: string, fallback: string, lower: string -> string, output: string)
    requires output == Written(lower(NormalizeWhitespace(value)))
    ensures var trimmed := TrimDashesEnd(TrimDashesStart(output));
            SlugOf(value, fallback, lower) == if trimmed == "" then fallback else trimmed
  {
    TrimWritten(lower(NormalizeWhitespace(value)));
  }

  lemma WholeText(text: string)
    ensures text[..|text|] == text
  {
  }

  /** The loop of `slugify`, over the lower-case text. */
  method WriteSlug(text: string) returns (output: string)
    ensures output == Written(text)
  {
    output := "";
    var lastDash := false;
    for i := 0 to |text|
      invariant output == Written(text[..i])
      invariant lastDash <==> i > 0 && Separates(text[i - 1])
    {
      var ch := text[i];
      WriteNext(text, i);
      if Alphanumeric(ch) {
        output := output + [ch];
        lastDash := false;
      } else if !lastDash {
        output := output + ['-'];
        lastDash := true;
      }
    }
    WholeText(text);
  }

  method Slugify(value: string, fallback: string, lower: string -> string) returns (slug: string)
    ensures slug == SlugOf(value, fallback, lower)
  {
    var output := WriteSlug(lower(NormalizeWhitespace(value)));
    FinishedSlug(value, fallback, lower, output);
    var trimmed := TrimDashesEnd(TrimDashesStart(output));
    slug := if trimmed == "" then fallback else trimmed;
  }

  // ----- Slugs of slugs --------------------------------------------------------------------

  predicate LowerAscii(s: string) {
    forall i :: 0 <= i < |s| ==> 'a' <= s[i] <= 'z' || '0' <= s[i] <= '9' || s[i] == '-'
  }

  /** What is used of `to_lowercase`: no capital letter is left, and slugs are left alone. */
  ghost predicate Lowers(lower: string -> string) {
    && (forall s, i :: 0 <= i < |lower(s)| ==> !('A' <= lower(s)[i] <= 'Z'))
    && (forall s :: LowerAscii(s) ==> lower(s) == s)
  }

  /** Lower-casing ASCII letters alone is an instance. */
  lemma AsciiLowers()
    ensures Lowers(Text.AsciiLowercase)
  {
    forall s | LowerAscii(s) ensures Text.AsciiLowercase(s) == s {
      assert forall i :: 0 <= i < |s| ==> Text.AsciiLowercase(s)[i] == s[i];
    }
  }

  predicate NoCapital(s: string) {
    forall i :: 0 <= i < |s| ==> !('A' <= s[i] <= 'Z')
  }

  predicate SlugPiece(s: string) {
    Clean(s, Separates) && LowerAscii(s)
  }

  lemma {:induction false} PiecesAreLower(s: string)
    requires NoCapital(s)
    ensures forall i :: 0 <= i < |Pieces(s, Separates)| ==> SlugPiece(Pieces(s, Separates)[i])
  {
    if s != "" {
      PiecesAreLower(s[..|s| - 1]);
    }
  }

  lemma {:induction false} JoinIsLower(pieces: seq<string>)
    requires forall i :: 0 <= i < |pieces| ==> SlugPiece(pieces[i])
    ensures LowerAscii(Join(pieces, '-'))
  {
    if |pieces| > 1 {
      JoinIsLower(pieces[..|pieces| - 1]);
    }
  }

  predicate IsSlug(s: string) {
    s != "" && LowerAscii(s) && Join(Pieces(s, Separates), '-') == s
  }

  lemma NoSpaceInSlug(s: string)
    requires s != "" && LowerAscii(s)
    ensures NormalizeWhitespace(s) == s
  {
    assert Join([s], ' ') == s;
    NormalizeJoined([s]);
  }

  /** Every slug is one: lower-case letters and digits, single dashes between them. */
  lemma SlugIsSlug(value: string, fallback: string, lower: string -> string)
    requires Lowers(lower) && IsSlug(fallback)
    ensures IsSlug(SlugOf(value, fallback, lower))
  {
    var pieces := Pieces(lower(NormalizeWhitespace(value)), Separates);
    PiecesAreClean(lower(NormalizeWhitespace(value)), Separates);
    PiecesAreLower(lower(NormalizeWhitespace(value)));
    JoinIsLower(pieces);
    PiecesOfJoin(pieces, '-', Separates);
  }

  /** A slug is its own slug. */
  lemma SlugOfSlug(slug: string, fallback: string, lower: string -> string)
    requires Lowers(lower) && IsSlug(slug)
    ensures SlugOf(slug, fallback, lower) == slug && NormalizeWhitespace(slug) == slug
  {
    NoSpaceInSlug(slug);
  }

  lemma OnePieceIsSlug(s: string)
    requires SlugPiece(s)
    ensures IsSlug(s)
  {
    PiecesOfWord("", s, Separates);
    assert "" + s == s;
    assert Join([s], '-') == s;
  }
}
