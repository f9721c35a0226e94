/**
 What the normaliser keeps of arbitrary JSON, told from the JSON: which entries, in which
 order, and where each field of an entry comes from.
 */
module LibraryEntries {
  import opened Options
  import opened Slugs
  import opened Library
  import Decimal
  import Text

  // ----- The raw entry -----------------------------------------------------------------------

  predicate HasField(entry: Json, name: Name) {
    entry.Obj? && name in entry.fields
  }

  /** The text of a field: that of a string as it is, that of any other value as it is rendered. */
  function RawText(w: World, entry: Json, name: Name): string {
    if !HasField(entry, name) then ""
    else if entry.fields[name].Str? then entry.fields[name].text
    else w.render(entry.fields[name])
  }

  /** The number of a field, given as a number or as the text of one. */
  function RawNumber(entry: Json, name: Name): Option<int> {
    if !HasField(entry, name) then None
    else if entry.fields[name].Int? then Some(entry.fields[name].number)
    else if entry.fields[name].Str? then Decimal.ParseI64(entry.fields[name].text)
    else None
  }

  function RawItems(entry: Json, name: Name): seq<Json> {
    if HasField(entry, name) && entry.fields[name].Arr? then entry.fields[name].items else []
  }

  function Words(s: string): seq<string> {
    Pieces(s, Text.IsSpace)
  }

  /** Some character is not white space. */
  predicate HasWords(s: string) {
    exists i :: 0 <= i < |s| && !Text.IsSpace(s[i])
  }

  /** The same words with single blanks between them. */
  predicate SameWords(s: string, raw: string) {
    Words(s) == Words(raw) && s == Join(Words(raw), ' ')
  }

  /** The words of the raw text if it has any, and else the fallback. */
  predicate WordsOr(s: string, raw: string, fallback: string) {
    if HasWords(raw) then SameWords(s, raw) else s == fallback
  }

  lemma RawTextIs(w: World, entry: Json, name: Name)
    ensures ValueString(w, Field(entry, name)) == RawText(w, entry, name)
  {
  }

  lemma RawNumberIs(entry: Json, name: Name)
    ensures ValueI64(Field(entry, name)) == RawNumber(entry, name)
  {
  }

  lemma RawItemsAre(entry: Json, name: Name)
    ensures Items(entry, name) == RawItems(entry, name)
  {
  }

  lemma NormalizedHasWords(s: string)
    ensures SameWords(NormalizeWhitespace(s), s) && (NormalizeWhitespace(s) == "" <==> !HasWords(s))
  {
    NormalizedIsJoined(s);
    PiecesAreClean(s, Text.IsSpace);
    PiecesOfJoin(Words(s), ' ', Text.IsSpace);
    JoinEnds(Words(s), ' ', Text.IsSpace);
    SomePiece(s, Text.IsSpace);
  }

  lemma TidyHasWords(w: World, entry: Json, name: Name)
    ensures SameWords(Tidy(w, entry, name), RawText(w, entry, name))
    ensures Tidy(w, entry, name) == "" <==> !HasWords(RawText(w, entry, name))
  {
    RawTextIs(w, entry, name);
    NormalizedHasWords(RawText(w, entry, name));
  }

  lemma TrimmedAway(s: string)
    ensures Text.Trim(s) == "" <==> !HasWords(s)
  {
    var i, j := Text.TrimIs(s);
    Text.TrimIsTrimmed(s);
    if i < j {
      assert s[i..j][0] == s[i];
    }
  }

  lemma TidyOrHasWords(w: World, entry: Json, name: Name, fallback: string)
    ensures WordsOr(TidyOr(w, entry, name, fallback), RawText(w, entry, name), fallback)
  {
    TidyHasWords(w, entry, name);
    NormalizedIsJoined(ValueString(w, Field(entry, name)));
    Text.TrimOfTrimmed(Tidy(w, entry, name));
  }

  // ----- Numbers -----------------------------------------------------------------------------

  /** A positive number is limited to 999, and the fallback stands for one that is not positive. */
  predicate IsOrdinal(n: int, raw: int, fallback: int) {
    if raw <= 0 then n == fallback else n <= raw && n <= 999 && (n == raw || n == 999)
  }

  lemma OrdinalIs(raw: int, fallback: int)
    ensures IsOrdinal(NormalizeOrdinal(raw, fallback), raw, fallback)
  {
  }

  /** The digits as they are given, trimmed, if that is what is given. */
  predicate IsTmdbId(id: string, raw: string) {
    if Text.Trim(raw) != "" && Text.AllDigits(Text.Trim(raw)) then id == Text.Trim(raw) else id == ""
  }

  predicate IsYear(year: string, raw: string) {
    var given := Text.Trim(raw);
    if |given| == 4 && Text.AllDigits(given) && 1888 <= Decimal.Value(given) <= 2100 then year == given else year == ""
  }

  // ----- Movies ------------------------------------------------------------------------------

  /** Which movies are kept: objects whose title and source have words. */
  predicate KeepsMovie(w: World, entry: Json) {
    entry.Obj? && HasWords(RawText(w, entry, Title)) && HasWords(RawText(w, entry, Src))
  }

  lemma MovieIsKeptIff(w: World, entry: Json, now: int)
    ensures NormalizeMovie(w, entry, now).Some? <==> KeepsMovie(w, entry)
  {
    TidyHasWords(w, entry, Title);
    TidyHasWords(w, entry, Src);
  }

  /** Where each field of a movie comes from. */
  lemma MovieIs(w: World, entry: Json, now: int)
    requires KeepsMovie(w, entry)
    ensures NormalizeMovie(w, entry, now).Some?
    ensures var m := NormalizeMovie(w, entry, now).value;
            && SameWords(m.title, RawText(w, entry, Title)) && SameWords(m.src, RawText(w, entry, Src))
            && SameWords(m.description, RawText(w, entry, Description))
            && WordsOr(m.id, RawText(w, entry, Id), SlugOf(m.title, "title", w.lower))
            && WordsOr(m.thumb, RawText(w, entry, Thumb), "assets/images/thumbnail.jpg")
            && IsTmdbId(m.tmdbId, RawText(w, entry, TmdbId)) && IsYear(m.year, RawText(w, entry, Year))
            && m.uploadedAt == (if RawNumber(entry, UploadedAt).Some? then RawNumber(entry, UploadedAt).value else now)
  {
    MovieIsKeptIff(w, entry, now);
    TidyHasWords(w, entry, Title);
    TidyHasWords(w, entry, Src);
    TidyHasWords(w, entry, Description);
    TidyOrHasWords(w, entry, Id, SlugOf(Tidy(w, entry, Title), "title", w.lower));
    TidyOrHasWords(w, entry, Thumb, THUMBNAIL);
    RawTextIs(w, entry, TmdbId);
    RawTextIs(w, entry, Year);
    RawNumberIs(entry, UploadedAt);
  }

  // ----- Episodes ----------------------------------------------------------------------------

  predicate KeepsEpisode(w: World, entry: Json) {
    entry.Obj? && HasWords(RawText(w, entry, Src))
  }

  lemma EpisodeIsKeptIff(w: World, entry: Json, index: nat, seriesKind: string, now: int)
    ensures NormalizeEpisode(w, entry, index, seriesKind, now).Some? <==> KeepsEpisode(w, entry)
  {
    TidyHasWords(w, entry, Src);
  }

  /** The entry asks for a course, in any case and with white space around. */
  predicate AsksForCourse(w: World, entry: Json) {
    w.lower(Join(Words(RawText(w, entry, ContentKind)), ' ')) == "course"
  }

  lemma KindIs(w: World, entry: Json, otherwise: string)
    ensures KindOf(w, entry, otherwise) == if AsksForCourse(w, entry) then "course" else otherwise
  {
    TidyHasWords(w, entry, ContentKind);
  }

  /** Where each field of an episode comes from; `index` is its place in the list. */
  lemma EpisodeIs(w: World, entry: Json, index: nat, seriesKind: string, now: int)
    requires KeepsEpisode(w, entry)
    ensures NormalizeEpisode(w, entry, index, seriesKind, now).Some?
    ensures var e := NormalizeEpisode(w, entry, index, seriesKind, now).value;
            var season, number := RawNumber(entry, SeasonNumber), RawNumber(entry, EpisodeNumber);
            && SameWords(e.src, RawText(w, entry, Src)) && SameWords(e.description, RawText(w, entry, Description))
            && e.contentKind == (if AsksForCourse(w, entry) then "course" else seriesKind)
            && IsOrdinal(e.seasonNumber, if season.Some? then season.value else 1, 1)
            && IsOrdinal(e.episodeNumber, if number.Some? then number.value else index + 1, index + 1)
            && e.uploadedAt == (if RawNumber(entry, UploadedAt).Some? then RawNumber(entry, UploadedAt).value else now)
    ensures var e := NormalizeEpisode(w, entry, index, seriesKind, now).value;
            && WordsOr(e.thumb, RawText(w, entry, Thumb), "assets/images/thumbnail.jpg")
            && WordsOr(e.title, RawText(w, entry, Title),
                       (if e.contentKind == "course" then "Lesson " else "Episode ")
                           + Decimal.RenderInt(e.episodeNumber))
  {
    var kind, number := KindOf(w, entry, seriesKind), EpisodeNumberOf(entry, index);
    EpisodeIsKeptIff(w, entry, index, seriesKind, now);
    TidyHasWords(w, entry, Src);
    TidyHasWords(w, entry, Description);
    KindIs(w, entry, seriesKind);
    RawNumberIs(entry, SeasonNumber);
    RawNumberIs(entry, EpisodeNumber);
    RawNumberIs(entry, UploadedAt);
    OrdinalIs(Or(RawNumber(entry, SeasonNumber), 1), 1);
    OrdinalIs(Or(RawNumber(entry, EpisodeNumber), index + 1), index + 1);
    TidyOrHasWords(w, entry, Thumb, THUMBNAIL);
    TidyOrHasWords(w, entry, Title, DefaultTitle(kind, number));
    DefaultTitleIs(kind, number);
  }

  lemma DefaultTitleIs(kind: string, number: int)
    ensures DefaultTitle(kind, number)
         == (if kind == "course" then "Lesson " else "Episode ") + Decimal.RenderInt(number)
  {
    assert "Lesson" + " " == "Lesson " && "Episode" + " " == "Episode ";
  }

  // ----- Order ---------------------------------------------------------------------------------

  /** The values that are there, in order. */
  function Somes<T>(s: seq<Option<T>>): seq<T> {
    if s == [] then []
    else if s[|s| - 1].Some? then Somes(s[..|s| - 1]) + [s[|s| - 1].value]
    else Somes(s[..|s| - 1])
  }

  ghost predicate Increasing(at: seq<nat>) {
    forall i, j :: 0 <= i < j < |at| ==> at[i] < at[j]
  }

  /** `at[i]` is the place of the `i`-th of them, and there are no others. */
  ghost predicate Places<T>(s: seq<Option<T>>, out: seq<T>, at: seq<nat>) {
    && |at| == |out| && Increasing(at)
    && (forall i :: 0 <= i < |at| ==> at[i] < |s| && s[at[i]] == Some(out[i]))
    && (forall p: nat :: p < |s| && s[p].Some? ==> p in at)
  }

  lemma OnePlaceMore<T>(s: seq<Option<T>>, out: seq<T>, at: seq<nat>, last: Option<T>)
    requires Places(s, out, at)
    ensures if last.Some? then Places(s + [last], out + [last.value], at + [|s|]) else Places(s + [last], out, at)
  {
    var all := s + [last];
    assert forall p: nat :: p < |s| ==> all[p] == s[p];
    assert all[|s|] == last;
    if last.Some? {
      assert forall p :: p in at ==> p in at + [|s|];
      assert (at + [|s|])[|at|] == |s|;
    }
  }

  lemma {:induction false} SomesInOrder<T>(s: seq<Option<T>>) returns (at: seq<nat>)
    ensures Places(s, Somes(s), at)
  {
    if s == [] {
      at := [];
    } else {
      var before, last := s[..|s| - 1], s[|s| - 1];
      at := SomesInOrder(before);
      OnePlaceMore(before, Somes(before), at, last);
      assert before + [last] == s;
      if last.Some? {
        at := at + [|before|];
      }
    }
  }

  function MovieResults(w: World, items: seq<Json>, now: int): seq<Option<MovieEntry>> {
    seq(|items|, i requires 0 <= i < |items| => NormalizeMovie(w, items[i], now))
  }

  function EpisodeResults(w: World, items: seq<Json>, kind: string, now: int): seq<Option<EpisodeEntry>> {
    seq(|items|, i requires 0 <= i < |items| => NormalizeEpisode(w, items[i], i, kind, now))
  }

  function SeriesResults(w: World, items: seq<Json>, now: int): seq<Option<SeriesEntry>> {
    seq(|items|, i requires 0 <= i < |items| => NormalizeSeries(w, items[i], now))
  }

  lemma {:induction false} MoviesAreSomes(w: World, items: seq<Json>, now: int)
    ensures NormalizeMovies(w, items, now) == Somes(MovieResults(w, items, now))
  {
    if items != [] {
      MoviesAreSomes(w, items[..|items| - 1], now);
      assert MovieResults(w, items, now)[..|items| - 1] == MovieResults(w, items[..|items| - 1], now);
    }
  }

  lemma {:induction false} EpisodesAreSomes(w: World, items: seq<Json>, kind: string, now: int)
    ensures NormalizeEpisodes(w, items, kind, now) == Somes(EpisodeResults(w, items, kind, now))
  {
    if items != [] {
      EpisodesAreSomes(w, items[..|items| - 1], kind, now);
      assert EpisodeResults(w, items, kind, now)[..|items| - 1] == EpisodeResults(w, items[..|items| - 1], kind, now);
    }
  }

  lemma {:induction false} AllSeriesAreSomes(w: World, items: seq<Json>, now: int)
    ensures NormalizeAllSeries(w, items, now) == Somes(SeriesResults(w, items, now))
  {
    if items != [] {
      AllSeriesAreSomes(w, items[..|items| - 1], now);
      assert SeriesResults(w, items, now)[..|items| - 1] == SeriesResults(w, items[..|items| - 1], now);
    }
  }

  // ----- Series --------------------------------------------------------------------------------

  /** Which series are kept: objects whose title has words and of whose episodes one is kept. */
  predicate KeepsSeries(w: World, entry: Json) {
    && entry.Obj? && HasWords(RawText(w, entry, Title))
    && exists i :: 0 <= i < |RawItems(entry, Episodes)| && KeepsEpisode(w, RawItems(entry, Episodes)[i])
  }

  lemma SomeEpisode(w: World, items: seq<Json>, kind: string, now: int)
    ensures NormalizeEpisodes(w, items, kind, now) != [] <==> exists i :: 0 <= i < |items| && KeepsEpisode(w, items[i])
  {
    EpisodesAreSomes(w, items, kind, now);
    var at := SomesInOrder(EpisodeResults(w, items, kind, now));
    if at != [] {
      EpisodeIsKeptIff(w, items[at[0]], at[0], kind, now);
    }
    if i: nat :| i < |items| && KeepsEpisode(w, items[i]) {
      EpisodeIsKeptIff(w, items[i], i, kind, now);
      assert EpisodeResults(w, items, kind, now)[i].Some?;
    }
  }

  /** The slug of the id that is given, or else of the title. */
  function SeriesIdText(w: World, entry: Json): string {
    if HasWords(RawText(w, entry, Id)) then RawText(w, entry, Id) else RawText(w, entry, Title)
  }

  lemma SlugOfWords(s: string, t: string, fallback: string, lower: string -> string)
    requires Words(s) == Words(t)
    ensures SlugOf(s, fallback, lower) == SlugOf(t, fallback, lower)
  {
  }

  lemma SeriesIdIs(w: World, entry: Json)
    ensures SeriesId(w, entry) == SlugOf(SeriesIdText(w, entry), "series", w.lower)
  {
    var raw := if HasWords(RawText(w, entry, Id)) then RawText(w, entry, Id) else Tidy(w, entry, Title);
    RawTextIs(w, entry, Id);
    TrimmedAway(RawText(w, entry, Id));
    TidyHasWords(w, entry, Title);
    NormalizedHasWords(raw);
    SlugOfWords(NormalizeWhitespace(raw), SeriesIdText(w, entry), SERIES, w.lower);
  }

  lemma SlugIsNotEmpty(value: string, fallback: string, lower: string -> string)
    requires fallback != ""
    ensures SlugOf(value, fallback, lower) != ""
  {
  }

  lemma SeriesIsKeptIff(w: World, entry: Json, now: int)
    ensures NormalizeSeries(w, entry, now).Some? <==> KeepsSeries(w, entry)
  {
    TidyHasWords(w, entry, Title);
    SeriesIdIs(w, entry);
    SlugIsNotEmpty(SeriesIdText(w, entry), SERIES, w.lower);
    RawItemsAre(entry, Episodes);
    SomeEpisode(w, RawItems(entry, Episodes), SeriesKind(w, entry), now);
  }

  /** A course: asked for, or inferred from id and title. */
  predicate IsCourse(w: World, entry: Json, id: string, title: string) {
    AsksForCourse(w, entry) || exists i, j :: 0 <= i <= j <= |w.lower(id + " " + title)|
                                              && w.lower(id + " " + title)[i..j] == "course"
  }

  /**
   Where each field of a series comes from. Its episodes are those kept of its list, sorted by
   season and number, and for each of these in the order of the list.
   */
  lemma SeriesIs(w: World, entry: Json, now: int) returns (listed: seq<EpisodeEntry>, at: seq<nat>)
    requires KeepsSeries(w, entry)
    ensures NormalizeSeries(w, entry, now).Some?
    ensures var s := NormalizeSeries(w, entry, now).value;
            && SameWords(s.title, RawText(w, entry, Title)) && s.id == SlugOf(SeriesIdText(w, entry), "series", w.lower)
            && s.contentKind == (if IsCourse(w, entry, s.id, s.title) then "course" else "series")
            && IsTmdbId(s.tmdbId, RawText(w, entry, TmdbId)) && IsYear(s.year, RawText(w, entry, Year))
            && s.preferredContainer == "mp4" && s.requiresLocalEpisodeSources
    ensures var s := NormalizeSeries(w, entry, now).value;
            && Places(EpisodeResults(w, RawItems(entry, Episodes), s.contentKind, now), listed, at)
            && |s.episodes| == |listed| && Sorted(s.episodes)
            && forall season, number :: Under(s.episodes, season, number) == Under(listed, season, number)
  {
    SeriesIsKeptIff(w, entry, now);
    TidyHasWords(w, entry, Title);
    SeriesIdIs(w, entry);
    RawTextIs(w, entry, TmdbId);
    RawTextIs(w, entry, Year);
    RawItemsAre(entry, Episodes);
    SeriesKindIs(w, entry);
    var kind := SeriesKind(w, entry);
    listed := NormalizeEpisodes(w, RawItems(entry, Episodes), kind, now);
    EpisodesAreSomes(w, RawItems(entry, Episodes), kind, now);
    at := SomesInOrder(EpisodeResults(w, RawItems(entry, Episodes), kind, now));
    SortSorts(listed);
    forall season, number {
      SortIsStable(listed, season, number);
    }
  }

  lemma SeriesKindIs(w: World, entry: Json)
    ensures SeriesKind(w, entry)
              == if IsCourse(w, entry, SeriesId(w, entry), Tidy(w, entry, Title)) then "course" else "series"
  {
    KindIs(w, entry, if InfersCourse(w, SeriesId(w, entry), Tidy(w, entry, Title)) then COURSE else SERIES);
  }

  // ----- The library ---------------------------------------------------------------------------

  /** The movies and the series of the library are those kept of the two lists, in their order. */
  lemma LibraryIs(w: World, raw: Json, now: int) returns (movies: seq<nat>, series: seq<nat>)
    ensures var l := NormalizeLibrary(w, raw, now);
            && Places(MovieResults(w, RawItems(raw, Movies), now), l.movies, movies)
            && Places(SeriesResults(w, RawItems(raw, Series), now), l.series, series)
  {
    RawItemsAre(raw, Movies);
    RawItemsAre(raw, Series);
    MoviesAreSomes(w, RawItems(raw, Movies), now);
    AllSeriesAreSomes(w, RawItems(raw, Series), now);
    movies := SomesInOrder(MovieResults(w, RawItems(raw, Movies), now));
    series := SomesInOrder(SeriesResults(w, RawItems(raw, Series), now));
  }
}
