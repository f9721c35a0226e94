/**
 The local media library: what the normaliser makes of arbitrary JSON, and whether what is
 written is what is read again. Numbers are unbounded; an `Int` is one that fits an i64.
 */
module Library {
  import opened Options
  import opened Slugs
  import Decimal
  import Text

  // ----- JSON --------------------------------------------------------------------------------

  /** The fields the normaliser looks at; it ignores all others. */
  datatype Name =
    | Movies | Series | Id | Title | TmdbId | Year | Src | Thumb | Description | UploadedAt | ContentKind
    | PreferredContainer | RequiresLocalEpisodeSources | Episodes | SeasonNumber | EpisodeNumber

  datatype Json =
    | Null
    | Bool(value: bool)
    | Int(number: int)
    | OtherNumber(literal: string)
    | Str(text: string)
    | Arr(items: seq<Json>)
    | Obj(fields: map<Name, Json>)

  /** Lower case, and the text of a value that is not a string (without quotes at its ends). */
  datatype World = World(lower: string -> string, render: Json -> string)

  function Field(entry: Json, name: Name): Option<Json> {
    if entry.Obj? && name in entry.fields then Some(entry.fields[name]) else None
  }

  function ValueString(w: World, value: Option<Json>): string {
    match value
    case None => ""
    case Some(Str(text)) => text
    case Some(other) => w.render(other)
  }

  function ValueI64(value: Option<Json>): Option<int> {
    match value
    case Some(Int(n)) => Some(n)
    case Some(Str(text)) => Decimal.ParseI64(text)
    case _ => None
  }

  function Items(entry: Json, name: Name): seq<Json> {
    match Field(entry, name)
    case Some(Arr(items)) => items
    case _ => []
  }

  // ----- Entries -----------------------------------------------------------------------------

  datatype MovieEntry = MovieEntry(id: string, title: string, tmdbId: string, year: string, src: string, thumb: string,
                                   description: string, uploadedAt: int)

  datatype EpisodeEntry = EpisodeEntry(title: string, description: string, thumb: string, src: string,
                                       contentKind: string, seasonNumber: int, episodeNumber: int, uploadedAt: int)

  datatype SeriesEntry = SeriesEntry(id: string, title: string, contentKind: string, tmdbId: string, year: string,
                                     preferredContainer: string, requiresLocalEpisodeSources: bool,
                                     episodes: seq<EpisodeEntry>)

  datatype Library = Library(movies: seq<MovieEntry>, series: seq<SeriesEntry>)

  const THUMBNAIL := "assets/images/thumbnail.jpg"
  const COURSE := "course"
  const SERIES := "series"

  function Tidy(w: World, entry: Json, name: Name): string {
    NormalizeWhitespace(ValueString(w, Field(entry, name)))
  }

  function IfEmpty(s: string, fallback: string): string {
    if Text.Trim(s) == "" then fallback else s
  }

  function TidyOr(w: World, entry: Json, name: Name, fallback: string): string {
    IfEmpty(Tidy(w, entry, name), fallback)
  }

  function NormalizeTmdbId(value: string): string {
    var trimmed := Text.Trim(value);
    if trimmed != "" && Text.AllDigits(trimmed) then trimmed else ""
  }

  function NormalizeYear(value: string): string {
    var text := Text.Trim(value);
    if |text| == 4 && Text.AllDigits(text) && 1888 <= Decimal.Value(text) <= 2100 then text else ""
  }

  /** A positive number is limited to 999; the fallback for the others is not. */
  function NormalizeOrdinal(value: int, fallback: int): int {
    if value <= 0 then fallback else if value > 999 then 999 else value
  }

  function Or(value: Option<int>, fallback: int): int {
    if value.Some? then value.value else fallback
  }

  function NormalizeMovie(w: World, entry: Json, now: int): Option<MovieEntry> {
    var title, src := Tidy(w, entry, Title), Tidy(w, entry, Src);
    if !entry.Obj? || title == "" || src == "" then None
    else Some(MovieEntry(
      TidyOr(w, entry, Id, SlugOf(title, "title", w.lower)), title,
      NormalizeTmdbId(ValueString(w, Field(entry, TmdbId))), NormalizeYear(ValueString(w, Field(entry, Year))), src,
      TidyOr(w, entry, Thumb, THUMBNAIL), Tidy(w, entry, Description), Or(ValueI64(Field(entry, UploadedAt)), now)))
  }

  function EpisodeNumberOf(entry: Json, index: nat): int {
    NormalizeOrdinal(Or(ValueI64(Field(entry, EpisodeNumber)), index + 1), index + 1)
  }

  function KindOf(w: World, entry: Json, otherwise: string): string {
    if w.lower(Tidy(w, entry, ContentKind)) == COURSE then COURSE else otherwise
  }

  function DefaultTitle(kind: string, number: int): string {
    (if kind == COURSE then "Lesson" else "Episode") + " " + Decimal.RenderInt(number)
  }

  function NormalizeEpisode(w: World, entry: Json, index: nat, seriesKind: string, now: int): Option<EpisodeEntry> {
    var src := Tidy(w, entry, Src);
    if !entry.Obj? || src == "" then None
    else
      var kind, number := KindOf(w, entry, seriesKind), EpisodeNumberOf(entry, index);
      Some(EpisodeEntry(
        TidyOr(w, entry, Title, DefaultTitle(kind, number)), Tidy(w, entry, Description),
        TidyOr(w, entry, Thumb, THUMBNAIL), src, kind,
        NormalizeOrdinal(Or(ValueI64(Field(entry, SeasonNumber)), 1), 1), number,
        Or(ValueI64(Field(entry, UploadedAt)), now)))
  }

  function NormalizeEpisodes(w: World, items: seq<Json>, seriesKind: string, now: int): seq<EpisodeEntry> {
    if items == [] then []
    else
      var last := NormalizeEpisode(w, items[|items| - 1], |items| - 1, seriesKind, now);
      var before := NormalizeEpisodes(w, items[..|items| - 1], seriesKind, now);
      if last.Some? then before + [last.value] else before
  }

  // ----- The stable sort of the episodes -----------------------------------------------------

  predicate Before(a: EpisodeEntry, b: EpisodeEntry) {
    a.seasonNumber < b.seasonNumber || (a.seasonNumber == b.seasonNumber && a.episodeNumber <= b.episodeNumber)
  }

  function Insert(e: EpisodeEntry, sorted: seq<EpisodeEntry>): seq<EpisodeEntry> {
    if sorted == [] || Before(sorted[|sorted| - 1], e) then sorted + [e]
    else Insert(e, sorted[..|sorted| - 1]) + [sorted[|sorted| - 1]]
  }

  function Sort(episodes: seq<EpisodeEntry>): seq<EpisodeEntry> {
    if episodes == [] then [] else Insert(episodes[|episodes| - 1], Sort(episodes[..|episodes| - 1]))
  }

  predicate Sorted(episodes: seq<EpisodeEntry>) {
    forall i :: 0 < i < |episodes| ==> Before(episodes[i - 1], episodes[i])
  }

  lemma {:induction false} InsertSorts(e: EpisodeEntry, sorted: seq<EpisodeEntry>)
    requires Sorted(sorted)
    ensures Sorted(Insert(e, sorted)) && |Insert(e, sorted)| == |sorted| + 1
    ensures Insert(e, sorted)[|sorted|]
              == if sorted == [] || Before(sorted[|sorted| - 1], e) then e else sorted[|sorted| - 1]
  {
    if sorted != [] && !Before(sorted[|sorted| - 1], e) {
      InsertSorts(e, sorted[..|sorted| - 1]);
    }
  }

  lemma {:induction false} SortSorts(episodes: seq<EpisodeEntry>)
    ensures Sorted(Sort(episodes)) && |Sort(episodes)| == |episodes|
  {
    if episodes != [] {
      SortSorts(episodes[..|episodes| - 1]);
      InsertSorts(episodes[|episodes| - 1], Sort(episodes[..|episodes| - 1]));
    }
  }

  lemma {:induction false} SortOfSorted(episodes: seq<EpisodeEntry>)
    requires Sorted(episodes)
    ensures Sort(episodes) == episodes
  {
    if episodes != [] {
      var before := episodes[..|episodes| - 1];
      SortOfSorted(before);
      assert before != [] ==> before[|before| - 1] == episodes[|episodes| - 2];
      assert episodes == before + [episodes[|episodes| - 1]];
    }
  }

  /** The episodes with one key, in order. */
  function Under(episodes: seq<EpisodeEntry>, season: int, number: int): seq<EpisodeEntry> {
    if episodes == [] then []
    else
      var last := episodes[|episodes| - 1];
      Under(episodes[..|episodes| - 1], season, number)
      + if last.seasonNumber == season && last.episodeNumber == number then [last] else []
  }

  lemma UnderAppend(episodes: seq<EpisodeEntry>, e: EpisodeEntry, season: int, number: int)
    ensures Under(episodes + [e], season, number)
         == Under(episodes, season, number) + if e.seasonNumber == season && e.episodeNumber == number then [e] else []
  {
    assert (episodes + [e])[..|episodes|] == episodes;
  }

  lemma UnderSwap(before: seq<EpisodeEntry>, last: EpisodeEntry, e: EpisodeEntry, season: int, number: int)
    requires !Before(last, e)
    ensures Under(before + [last] + [e], season, number) == Under(before + [e] + [last], season, number)
  {
    UnderAppend(before, last, season, number);
    UnderAppend(before + [last], e, season, number);
    UnderAppend(before, e, season, number);
    UnderAppend(before + [e], last, season, number);
  }

  lemma {:induction false} InsertIsStable(e: EpisodeEntry, sorted: seq<EpisodeEntry>, season: int, number: int)
    ensures Under(Insert(e, sorted), season, number) == Under(sorted + [e], season, number)
  {
    if sorted != [] && !Before(sorted[|sorted| - 1], e) {
      var before, last := sorted[..|sorted| - 1], sorted[|sorted| - 1];
      assert sorted == before + [last];
      InsertIsStable(e, before, season, number);
      UnderAppend(Insert(e, before), last, season, number);
      UnderAppend(before + [e], last, season, number);
      UnderSwap(before, last, e, season, number);
    }
  }

  /** Sorting is stable: for every key the episodes stay, in their order. */
  lemma {:induction false} SortIsStable(episodes: seq<EpisodeEntry>, season: int, number: int)
    ensures Under(Sort(episodes), season, number) == Under(episodes, season, number)
  {
    if episodes != [] {
      var before, last := episodes[..|episodes| - 1], episodes[|episodes| - 1];
      SortIsStable(before, season, number);
      InsertIsStable(last, Sort(before), season, number);
      UnderAppend(Sort(before), last, season, number);
    }
  }

  // ----- Series and the library ----------------------------------------------------------------

  predicate Contains(s: string, part: string) {
    exists i, j :: 0 <= i <= j <= |s| && s[i..j] == part
  }

  predicate InfersCourse(w: World, id: string, title: string) {
    Contains(w.lower(id + " " + title), COURSE)
  }

  function SeriesId(w: World, entry: Json): string {
    SlugOf(NormalizeWhitespace(IfEmpty(ValueString(w, Field(entry, Id)), Tidy(w, entry, Title))), SERIES, w.lower)
  }

  function SeriesKind(w: World, entry: Json): string {
    KindOf(w, entry, if InfersCourse(w, SeriesId(w, entry), Tidy(w, entry, Title)) then COURSE else SERIES)
  }

  function NormalizeSeries(w: World, entry: Json, now: int): Option<SeriesEntry> {
    var title, id, kind := Tidy(w, entry, Title), SeriesId(w, entry), SeriesKind(w, entry);
    var episodes := NormalizeEpisodes(w, Items(entry, Episodes), kind, now);
    if !entry.Obj? || id == "" || title == "" || episodes == [] then None
    else Some(SeriesEntry(
      id, title, kind, NormalizeTmdbId(ValueString(w, Field(entry, TmdbId))),
      NormalizeYear(ValueString(w, Field(entry, Year))),
      "mp4", true, Sort(episodes)))
  }

  function NormalizeMovies(w: World, items: seq<Json>, now: int): seq<MovieEntry> {
    if items == [] then []
    else
      var last := NormalizeMovie(w, items[|items| - 1], now);
      var before := NormalizeMovies(w, items[..|items| - 1], now);
      if last.Some? then before + [last.value] else before
  }

  function NormalizeAllSeries(w: World, items: seq<Json>, now: int): seq<SeriesEntry> {
    if items == [] then []
    else
      var last := NormalizeSeries(w, items[|items| - 1], now);
      var before := NormalizeAllSeries(w, items[..|items| - 1], now);
      if last.Some? then before + [last.value] else before
  }

  function NormalizeLibrary(w: World, raw: Json, now: int): Library {
    Library(NormalizeMovies(w, Items(raw, Movies), now), NormalizeAllSeries(w, Items(raw, Series), now))
  }

  // ----- Writing -------------------------------------------------------------------------------

  function MovieJson(m: MovieEntry): Json {
    Obj(map[Id := Str(m.id), Title := Str(m.title), TmdbId := Str(m.tmdbId), Year := Str(m.year), Src := Str(m.src),
            Thumb := Str(m.thumb), Description := Str(m.description), UploadedAt := Int(m.uploadedAt)])
  }

  function EpisodeJson(e: EpisodeEntry): Json {
    Obj(map[Title := Str(e.title), Description := Str(e.description), Thumb := Str(e.thumb), Src := Str(e.src),
            ContentKind := Str(e.contentKind), SeasonNumber := Int(e.seasonNumber),
            EpisodeNumber := Int(e.episodeNumber), UploadedAt := Int(e.uploadedAt)])
  }

  function EpisodesJson(episodes: seq<EpisodeEntry>): seq<Json> {
    if episodes == [] then [] else EpisodesJson(episodes[..|episodes| - 1]) + [EpisodeJson(episodes[|episodes| - 1])]
  }

  function SeriesJson(s: SeriesEntry): Json {
    Obj(map[Id := Str(s.id), Title := Str(s.title), ContentKind := Str(s.contentKind), TmdbId := Str(s.tmdbId),
            Year := Str(s.year), PreferredContainer := Str(s.preferredContainer),
            RequiresLocalEpisodeSources := Bool(s.requiresLocalEpisodeSources),
            Episodes := Arr(EpisodesJson(s.episodes))])
  }

  function MoviesJson(movies: seq<MovieEntry>): seq<Json> {
    if movies == [] then [] else MoviesJson(movies[..|movies| - 1]) + [MovieJson(movies[|movies| - 1])]
  }

  function AllSeriesJson(series: seq<SeriesEntry>): seq<Json> {
    if series == [] then [] else AllSeriesJson(series[..|series| - 1]) + [SeriesJson(series[|series| - 1])]
  }

  function LibraryJson(l: Library): Json {
    Obj(map[Movies := Arr(MoviesJson(l.movies)), Series := Arr(AllSeriesJson(l.series))])
  }

  // ----- What normalised entries are ---------------------------------------------------------

  predicate IsTidy(s: string) {
    NormalizeWhitespace(s) == s
  }

  predicate TidyName(s: string) {
    s != "" && IsTidy(s)
  }

  predicate MovieIsTidy(m: MovieEntry) {
    && TidyName(m.id) && TidyName(m.title) && TidyName(m.src) && TidyName(m.thumb) && IsTidy(m.description)
    && NormalizeTmdbId(m.tmdbId) == m.tmdbId && NormalizeYear(m.year) == m.year
  }

  predicate EpisodeIsTidy(e: EpisodeEntry, seriesKind: string) {
    && TidyName(e.title) && TidyName(e.src) && TidyName(e.thumb) && IsTidy(e.description)
    && (e.contentKind == COURSE || e.contentKind == seriesKind)
    && 1 <= e.seasonNumber <= 999 && 1 <= e.episodeNumber
  }

  predicate EpisodesAreTidy(episodes: seq<EpisodeEntry>, seriesKind: string) {
    forall i :: 0 <= i < |episodes| ==> EpisodeIsTidy(episodes[i], seriesKind)
  }

  predicate SeriesIsTidy(w: World, s: SeriesEntry) {
    && IsSlug(s.id) && TidyName(s.title)
    && s.contentKind == (if InfersCourse(w, s.id, s.title) then COURSE else s.contentKind)
    && (s.contentKind == COURSE || s.contentKind == SERIES)
    && NormalizeTmdbId(s.tmdbId) == s.tmdbId && NormalizeYear(s.year) == s.year
    && s.preferredContainer == "mp4" && s.requiresLocalEpisodeSources
    && s.episodes != [] && EpisodesAreTidy(s.episodes, s.contentKind) && Sorted(s.episodes)
  }

  lemma IfEmptyTidy(s: string, fallback: string)
    requires IsTidy(s)
    ensures IfEmpty(s, fallback) == if s == "" then fallback else s
  {
    NormalizedIsJoined(s);
    Text.TrimOfTrimmed(s);
  }

  lemma TidyIsTidy(w: World, entry: Json, name: Name)
    ensures IsTidy(Tidy(w, entry, name))
  {
    NormalizeTwice(ValueString(w, Field(entry, name)));
  }

  lemma OneWordIsTidy(s: string)
    requires Clean(s, Text.IsSpace)
    ensures TidyName(s)
  {
    assert Join([s], ' ') == s;
    NormalizeJoined([s]);
  }

  lemma ThumbnailIsPrintable()
    ensures forall i :: 0 <= i < |THUMBNAIL| ==> '.' <= THUMBNAIL[i] <= 'z'
  {
  }

  lemma ThumbnailIsOneWord()
    ensures Clean(THUMBNAIL, Text.IsSpace)
  {
    ThumbnailIsPrintable();
  }

  lemma ThumbnailIsTidy()
    ensures TidyName(THUMBNAIL)
  {
    ThumbnailIsOneWord();
    OneWordIsTidy(THUMBNAIL);
  }

  lemma DefaultTitleIsTidy(kind: string, number: int)
    requires number >= 0
    ensures TidyName(DefaultTitle(kind, number))
  {
    var prefix := if kind == COURSE then "Lesson" else "Episode";
    var digits := Decimal.RenderInt(number);
    assert forall i :: 0 <= i < |digits| ==> digits[i] in digits;
    assert Join([prefix, digits], ' ') == prefix + " " + digits by {
      assert [prefix, digits][..1] == [prefix];
    }
    NormalizeJoined([prefix, digits]);
  }

  lemma TmdbIdTwice(value: string)
    ensures NormalizeTmdbId(NormalizeTmdbId(value)) == NormalizeTmdbId(value)
  {
    Text.TrimIsTrimmed(value);
    Text.TrimOfTrimmed(Text.Trim(value));
  }

  lemma YearTwice(value: string)
    ensures NormalizeYear(NormalizeYear(value)) == NormalizeYear(value)
  {
    Text.TrimIsTrimmed(value);
    Text.TrimOfTrimmed(Text.Trim(value));
  }

  lemma SlugIsTidy(value: string, fallback: string, lower: string -> string)
    requires Lowers(lower) && IsSlug(fallback)
    ensures IsSlug(SlugOf(value, fallback, lower)) && TidyName(SlugOf(value, fallback, lower))
  {
    SlugIsSlug(value, fallback, lower);
    NoSpaceInSlug(SlugOf(value, fallback, lower));
  }

  lemma TidyOf(w: World, entry: Json, name: Name, s: string)
    requires Field(entry, name) == Some(Str(s)) && IsTidy(s)
    ensures Tidy(w, entry, name) == s
  {
  }

  lemma TidyOrIsTidy(w: World, entry: Json, name: Name, fallback: string)
    requires TidyName(fallback)
    ensures TidyName(TidyOr(w, entry, name, fallback))
  {
    TidyIsTidy(w, entry, name);
    IfEmptyTidy(Tidy(w, entry, name), fallback);
  }

  lemma TidyOrOf(w: World, entry: Json, name: Name, s: string, fallback: string)
    requires Field(entry, name) == Some(Str(s)) && TidyName(s)
    ensures TidyOr(w, entry, name, fallback) == s
  {
    IfEmptyTidy(s, fallback);
  }

  lemma MovieIdIsTidy(w: World, entry: Json, title: string)
    requires Lowers(w.lower)
    ensures TidyName(TidyOr(w, entry, Id, SlugOf(title, "title", w.lower)))
  {
    OnePieceIsSlug("title");
    SlugIsTidy(title, "title", w.lower);
    TidyOrIsTidy(w, entry, Id, SlugOf(title, "title", w.lower));
  }

  lemma ThumbIsTidy(w: World, entry: Json)
    ensures TidyName(TidyOr(w, entry, Thumb, THUMBNAIL))
  {
    ThumbnailIsTidy();
    TidyOrIsTidy(w, entry, Thumb, THUMBNAIL);
  }

  lemma IdAndYearTwice(w: World, entry: Json)
    ensures var id := NormalizeTmdbId(ValueString(w, Field(entry, TmdbId))); NormalizeTmdbId(id) == id
    ensures var year := NormalizeYear(ValueString(w, Field(entry, Year))); NormalizeYear(year) == year
  {
    TmdbIdTwice(ValueString(w, Field(entry, TmdbId)));
    YearTwice(ValueString(w, Field(entry, Year)));
  }

  lemma NormalizedMovieIsTidy(w: World, entry: Json, now: int)
    requires Lowers(w.lower)
    ensures NormalizeMovie(w, entry, now).Some? ==> MovieIsTidy(NormalizeMovie(w, entry, now).value)
  {
    TidyIsTidy(w, entry, Title);
    TidyIsTidy(w, entry, Src);
    TidyIsTidy(w, entry, Description);
    MovieIdIsTidy(w, entry, Tidy(w, entry, Title));
    ThumbIsTidy(w, entry);
    IdAndYearTwice(w, entry);
  }

  lemma MovieFields(m: MovieEntry)
    ensures var j := MovieJson(m);
            && Field(j, Id) == Some(Str(m.id)) && Field(j, Title) == Some(Str(m.title))
            && Field(j, Src) == Some(Str(m.src))
            && Field(j, TmdbId) == Some(Str(m.tmdbId)) && Field(j, Year) == Some(Str(m.year))
            && Field(j, Thumb) == Some(Str(m.thumb)) && Field(j, Description) == Some(Str(m.description))
            && Field(j, UploadedAt) == Some(Int(m.uploadedAt))
  {
  }

  lemma TidyFieldsStay(w: World, m: MovieEntry, entry: Json, now: int)
    requires MovieIsTidy(m) && entry.Obj?
    requires Field(entry, Id) == Some(Str(m.id)) && Field(entry, Title) == Some(Str(m.title))
    requires Field(entry, Src) == Some(Str(m.src))
    requires Field(entry, TmdbId) == Some(Str(m.tmdbId)) && Field(entry, Year) == Some(Str(m.year))
    requires Field(entry, Thumb) == Some(Str(m.thumb)) && Field(entry, Description) == Some(Str(m.description))
    requires Field(entry, UploadedAt) == Some(Int(m.uploadedAt))
    ensures NormalizeMovie(w, entry, now) == Some(m)
  {
    TidyOf(w, entry, Title, m.title);
    TidyOf(w, entry, Src, m.src);
    TidyOf(w, entry, Description, m.description);
    TidyOrOf(w, entry, Id, m.id, SlugOf(m.title, "title", w.lower));
    TidyOrOf(w, entry, Thumb, m.thumb, THUMBNAIL);
  }

  /** A tidy movie is what it is normalised to. */
  lemma TidyMovieStays(w: World, m: MovieEntry, now: int)
    requires MovieIsTidy(m)
    ensures NormalizeMovie(w, MovieJson(m), now) == Some(m)
  {
    MovieFields(m);
    TidyFieldsStay(w, m, MovieJson(m), now);
  }

  lemma EpisodeTitleIsTidy(w: World, entry: Json, kind: string, number: int)
    requires number >= 0
    ensures TidyName(TidyOr(w, entry, Title, DefaultTitle(kind, number)))
  {
    DefaultTitleIsTidy(kind, number);
    TidyOrIsTidy(w, entry, Title, DefaultTitle(kind, number));
  }

  lemma EpisodeNumbersAreTidy(w: World, entry: Json, index: nat, seriesKind: string, now: int)
    ensures var e := NormalizeEpisode(w, entry, index, seriesKind, now);
            e.Some? ==> 1 <= e.value.seasonNumber <= 999 && 1 <= e.value.episodeNumber
                        && (e.value.contentKind == COURSE || e.value.contentKind == seriesKind)
  {
    KindIsOneOfTwo(w, entry, seriesKind);
    EpisodeNumberIsPositive(entry, index);
    OrdinalBounds(Or(ValueI64(Field(entry, SeasonNumber)), 1));
  }

  lemma KindIsOneOfTwo(w: World, entry: Json, otherwise: string)
    ensures KindOf(w, entry, otherwise) == COURSE || KindOf(w, entry, otherwise) == otherwise
  {
  }

  lemma EpisodeNumberIsPositive(entry: Json, index: nat)
    ensures EpisodeNumberOf(entry, index) >= 1
  {
  }

  lemma OrdinalBounds(value: int)
    ensures 1 <= NormalizeOrdinal(value, 1) <= 999
  {
  }

  lemma NormalizedEpisodeIsTidy(w: World, entry: Json, index: nat, seriesKind: string, now: int)
    ensures var e := NormalizeEpisode(w, entry, index, seriesKind, now); e.Some? ==> EpisodeIsTidy(e.value, seriesKind)
  {
    TidyIsTidy(w, entry, Src);
    TidyIsTidy(w, entry, Description);
    ThumbIsTidy(w, entry);
    EpisodeTitleIsTidy(w, entry, KindOf(w, entry, seriesKind), EpisodeNumberOf(entry, index));
    EpisodeNumbersAreTidy(w, entry, index, seriesKind, now);
  }

  /** What a second pass changes: a number over 999. */
  function Limited(e: EpisodeEntry): EpisodeEntry {
    if e.episodeNumber > 999 then e.(episodeNumber := 999) else e
  }

  function AllLimited(episodes: seq<EpisodeEntry>): seq<EpisodeEntry> {
    if episodes == [] then [] else AllLimited(episodes[..|episodes| - 1]) + [Limited(episodes[|episodes| - 1])]
  }

  lemma KindStays(w: World, entry: Json, kind: string, otherwise: string)
    requires Lowers(w.lower) && Field(entry, ContentKind) == Some(Str(kind))
    requires kind == COURSE || kind == SERIES
    ensures KindOf(w, entry, otherwise) == if kind == COURSE then COURSE else otherwise
  {
    assert LowerAscii(COURSE) && LowerAscii(SERIES);
    NoSpaceInSlug(kind);
    assert COURSE[0] != SERIES[0];
  }

  lemma EpisodeFields(e: EpisodeEntry)
    ensures var j := EpisodeJson(e);
            && Field(j, Title) == Some(Str(e.title)) && Field(j, Description) == Some(Str(e.description))
            && Field(j, Thumb) == Some(Str(e.thumb)) && Field(j, Src) == Some(Str(e.src))
            && Field(j, ContentKind) == Some(Str(e.contentKind)) && Field(j, SeasonNumber) == Some(Int(e.seasonNumber))
            && Field(j, EpisodeNumber) == Some(Int(e.episodeNumber)) && Field(j, UploadedAt) == Some(Int(e.uploadedAt))
  {
  }

  lemma TidyEpisodeFieldsStay(w: World, e: EpisodeEntry, entry: Json, index: nat, seriesKind: string, now: int)
    requires EpisodeIsTidy(e, seriesKind) && entry.Obj? && KindOf(w, entry, seriesKind) == e.contentKind
    requires Field(entry, Title) == Some(Str(e.title)) && Field(entry, Description) == Some(Str(e.description))
    requires Field(entry, Thumb) == Some(Str(e.thumb)) && Field(entry, Src) == Some(Str(e.src))
    requires Field(entry, SeasonNumber) == Some(Int(e.seasonNumber))
    requires Field(entry, EpisodeNumber) == Some(Int(e.episodeNumber))
    requires Field(entry, UploadedAt) == Some(Int(e.uploadedAt))
    ensures NormalizeEpisode(w, entry, index, seriesKind, now) == Some(Limited(e))
  {
    TidyOf(w, entry, Src, e.src);
    TidyOf(w, entry, Description, e.description);
    TidyOrOf(w, entry, Title, e.title, DefaultTitle(e.contentKind, EpisodeNumberOf(entry, index)));
    TidyOrOf(w, entry, Thumb, e.thumb, THUMBNAIL);
  }

  /** A tidy episode stays as it is, wherever it is listed, but for a number over 999. */
  lemma TidyEpisodeStays(w: World, e: EpisodeEntry, index: nat, seriesKind: string, now: int)
    requires Lowers(w.lower) && EpisodeIsTidy(e, seriesKind) && (seriesKind == COURSE || seriesKind == SERIES)
    ensures NormalizeEpisode(w, EpisodeJson(e), index, seriesKind, now) == Some(Limited(e))
  {
    EpisodeFields(e);
    KindStays(w, EpisodeJson(e), e.contentKind, seriesKind);
    TidyEpisodeFieldsStay(w, e, EpisodeJson(e), index, seriesKind, now);
  }

  // ----- A second pass over series -----------------------------------------------------------

  lemma {:induction false} NormalizedEpisodesAreTidy(w: World, items: seq<Json>, seriesKind: string, now: int)
    ensures EpisodesAreTidy(NormalizeEpisodes(w, items, seriesKind, now), seriesKind)
  {
    if items != [] {
      NormalizedEpisodesAreTidy(w, items[..|items| - 1], seriesKind, now);
      NormalizedEpisodeIsTidy(w, items[|items| - 1], |items| - 1, seriesKind, now);
    }
  }

  lemma {:induction false} InsertMembers(e: EpisodeEntry, sorted: seq<EpisodeEntry>, i: nat)
    requires i < |Insert(e, sorted)|
    ensures Insert(e, sorted)[i] == e || Insert(e, sorted)[i] in sorted
  {
    if sorted != [] && !Before(sorted[|sorted| - 1], e) && i < |Insert(e, sorted)| - 1 {
      InsertMembers(e, sorted[..|sorted| - 1], i);
    }
  }

  lemma {:induction false} SortMembers(episodes: seq<EpisodeEntry>, i: nat)
    requires i < |Sort(episodes)|
    ensures Sort(episodes)[i] in episodes
  {
    if episodes != [] {
      var sorted := Sort(episodes[..|episodes| - 1]);
      InsertMembers(episodes[|episodes| - 1], sorted, i);
      if Sort(episodes)[i] in sorted {
        var j :| 0 <= j < |sorted| && sorted[j] == Sort(episodes)[i];
        SortMembers(episodes[..|episodes| - 1], j);
      }
    }
  }

  lemma SortKeepsTidy(episodes: seq<EpisodeEntry>, seriesKind: string)
    requires EpisodesAreTidy(episodes, seriesKind)
    ensures EpisodesAreTidy(Sort(episodes), seriesKind)
  {
    forall i: nat | i < |Sort(episodes)| ensures EpisodeIsTidy(Sort(episodes)[i], seriesKind) {
      SortMembers(episodes, i);
      var j :| 0 <= j < |episodes| && episodes[j] == Sort(episodes)[i];
    }
  }

  lemma EpisodesStep(w: World, items: seq<Json>, item: Json, seriesKind: string, now: int)
    ensures var last := NormalizeEpisode(w, item, |items|, seriesKind, now);
            var before := NormalizeEpisodes(w, items, seriesKind, now);
            NormalizeEpisodes(w, items + [item], seriesKind, now)
                == if last.Some? then before + [last.value] else before
  {
    assert (items + [item])[..|items|] == items;
  }

  lemma {:induction false} TidyEpisodesStay(w: World, episodes: seq<EpisodeEntry>, seriesKind: string, now: int)
    requires Lowers(w.lower) && EpisodesAreTidy(episodes, seriesKind) && (seriesKind == COURSE || seriesKind == SERIES)
    ensures NormalizeEpisodes(w, EpisodesJson(episodes), seriesKind, now) == AllLimited(episodes)
    ensures |EpisodesJson(episodes)| == |episodes|
  {
    if episodes != [] {
      var before, last := episodes[..|episodes| - 1], episodes[|episodes| - 1];
      TidyEpisodesStay(w, before, seriesKind, now);
      TidyEpisodeStays(w, last, |before|, seriesKind, now);
      EpisodesStep(w, EpisodesJson(before), EpisodeJson(last), seriesKind, now);
    }
  }

  lemma {:induction false} LimitingAt(episodes: seq<EpisodeEntry>, i: nat)
    requires i < |episodes|
    ensures |AllLimited(episodes)| == |episodes| && AllLimited(episodes)[i] == Limited(episodes[i])
  {
    if i < |episodes| - 1 {
      LimitingAt(episodes[..|episodes| - 1], i);
    } else if i > 0 {
      LimitingAt(episodes[..|episodes| - 1], i - 1);
    }
  }

  /** Limiting the numbers keeps the order, so there is nothing left to sort. */
  lemma LimitingKeepsSorted(episodes: seq<EpisodeEntry>)
    requires Sorted(episodes)
    ensures Sorted(AllLimited(episodes)) && Sort(AllLimited(episodes)) == AllLimited(episodes)
  {
    forall i | 0 < i < |AllLimited(episodes)| ensures Before(AllLimited(episodes)[i - 1], AllLimited(episodes)[i]) {
      if episodes != [] { LimitingAt(episodes, 0); }
      LimitingAt(episodes, i - 1);
      LimitingAt(episodes, i);
    }
    SortOfSorted(AllLimited(episodes));
  }

  predicate NoneOver(episodes: seq<EpisodeEntry>) {
    episodes == [] || (episodes[|episodes| - 1].episodeNumber <= 999 && NoneOver(episodes[..|episodes| - 1]))
  }

  lemma {:induction false} LimitedIffOver(episodes: seq<EpisodeEntry>)
    ensures AllLimited(episodes) == episodes <==> NoneOver(episodes)
    ensures |AllLimited(episodes)| == |episodes| && NoneOver(AllLimited(episodes))
  {
    if episodes != [] {
      var before, last := episodes[..|episodes| - 1], episodes[|episodes| - 1];
      LimitedIffOver(before);
      InitAndLast(episodes);
      SameAppend(AllLimited(before), Limited(last), before, last);
      NoneOverAppend(before, last);
      NoneOverAppend(AllLimited(before), Limited(last));
    }
  }

  lemma SeriesIdIsSlug(w: World, entry: Json)
    requires Lowers(w.lower)
    ensures IsSlug(SeriesId(w, entry))
  {
    OnePieceIsSlug(SERIES);
    SlugIsSlug(NormalizeWhitespace(IfEmpty(ValueString(w, Field(entry, Id)), Tidy(w, entry, Title))), SERIES, w.lower);
  }

  lemma NormalizedSeriesIsTidy(w: World, entry: Json, now: int)
    requires Lowers(w.lower)
    ensures NormalizeSeries(w, entry, now).Some? ==> SeriesIsTidy(w, NormalizeSeries(w, entry, now).value)
  {
    var kind := SeriesKind(w, entry);
    var episodes := NormalizeEpisodes(w, Items(entry, Episodes), kind, now);
    SeriesIdIsSlug(w, entry);
    TidyIsTidy(w, entry, Title);
    IdAndYearTwice(w, entry);
    NormalizedEpisodesAreTidy(w, Items(entry, Episodes), kind, now);
    SortKeepsTidy(episodes, kind);
    SortSorts(episodes);
  }

  function LimitedSeries(s: SeriesEntry): SeriesEntry {
    s.(episodes := AllLimited(s.episodes))
  }

  lemma SeriesFields(s: SeriesEntry)
    ensures var j := SeriesJson(s);
            && Field(j, Id) == Some(Str(s.id)) && Field(j, Title) == Some(Str(s.title))
            && Field(j, ContentKind) == Some(Str(s.contentKind)) && Field(j, TmdbId) == Some(Str(s.tmdbId))
            && Field(j, Year) == Some(Str(s.year)) && Items(j, Episodes) == EpisodesJson(s.episodes)
  {
  }

  lemma SlugStaysId(w: World, entry: Json, slug: string)
    requires Lowers(w.lower) && IsSlug(slug) && Field(entry, Id) == Some(Str(slug))
    ensures SeriesId(w, entry) == slug
  {
    SlugOfSlug(slug, SERIES, w.lower);
    IfEmptyTidy(slug, Tidy(w, entry, Title));
  }

  lemma TidySeriesFieldsStay(w: World, s: SeriesEntry, entry: Json, now: int)
    requires s.id != "" && s.title != "" && NormalizeTmdbId(s.tmdbId) == s.tmdbId && NormalizeYear(s.year) == s.year
    requires s.preferredContainer == "mp4" && s.requiresLocalEpisodeSources && s.episodes != [] && Sorted(s.episodes)
    requires entry.Obj?
    requires SeriesId(w, entry) == s.id && Tidy(w, entry, Title) == s.title && SeriesKind(w, entry) == s.contentKind
    requires Field(entry, TmdbId) == Some(Str(s.tmdbId)) && Field(entry, Year) == Some(Str(s.year))
    requires NormalizeEpisodes(w, Items(entry, Episodes), s.contentKind, now) == AllLimited(s.episodes)
    ensures NormalizeSeries(w, entry, now) == Some(LimitedSeries(s))
  {
    LimitingKeepsSorted(s.episodes);
    LimitedIffOver(s.episodes);
  }

  /** A tidy series stays as it is but for episode numbers over 999, which become 999 in place. */
  lemma TidySeriesStays(w: World, s: SeriesEntry, now: int)
    requires Lowers(w.lower) && SeriesIsTidy(w, s)
    ensures NormalizeSeries(w, SeriesJson(s), now) == Some(LimitedSeries(s))
  {
    var entry := SeriesJson(s);
    SeriesFields(s);
    SlugStaysId(w, entry, s.id);
    TidyOf(w, entry, Title, s.title);
    KindStays(w, entry, s.contentKind, if InfersCourse(w, s.id, s.title) then COURSE else SERIES);
    TidyEpisodesStay(w, s.episodes, s.contentKind, now);
    TidySeriesFieldsStay(w, s, entry, now);
  }

  // ----- A second pass over the library --------------------------------------------------------

  lemma {:induction false} NormalizedMoviesAreTidy(w: World, items: seq<Json>, now: int)
    requires Lowers(w.lower)
    ensures forall i :: 0 <= i < |NormalizeMovies(w, items, now)| ==> MovieIsTidy(NormalizeMovies(w, items, now)[i])
  {
    if items != [] {
      NormalizedMoviesAreTidy(w, items[..|items| - 1], now);
      NormalizedMovieIsTidy(w, items[|items| - 1], now);
    }
  }

  lemma {:induction false} NormalizedSeriesAreTidy(w: World, items: seq<Json>, now: int)
    requires Lowers(w.lower)
    ensures forall i :: 0 <= i < |NormalizeAllSeries(w, items, now)|
              ==> SeriesIsTidy(w, NormalizeAllSeries(w, items, now)[i])
  {
    if items != [] {
      NormalizedSeriesAreTidy(w, items[..|items| - 1], now);
      NormalizedSeriesIsTidy(w, items[|items| - 1], now);
    }
  }

  lemma InitAndLast<T>(s: seq<T>)
    requires s != []
    ensures s == s[..|s| - 1] + [s[|s| - 1]]
  {
  }

  lemma MoviesStep(w: World, items: seq<Json>, item: Json, now: int)
    ensures var last := NormalizeMovie(w, item, now); var before := NormalizeMovies(w, items, now);
            NormalizeMovies(w, items + [item], now) == if last.Some? then before + [last.value] else before
  {
    assert (items + [item])[..|items|] == items;
  }

  lemma SeriesStep(w: World, items: seq<Json>, item: Json, now: int)
    ensures var last := NormalizeSeries(w, item, now); var before := NormalizeAllSeries(w, items, now);
            NormalizeAllSeries(w, items + [item], now) == if last.Some? then before + [last.value] else before
  {
    assert (items + [item])[..|items|] == items;
  }

  lemma {:induction false} TidyMoviesStay(w: World, movies: seq<MovieEntry>, now: int)
    requires forall i :: 0 <= i < |movies| ==> MovieIsTidy(movies[i])
    ensures NormalizeMovies(w, MoviesJson(movies), now) == movies && |MoviesJson(movies)| == |movies|
  {
    if movies != [] {
      var before, last := movies[..|movies| - 1], movies[|movies| - 1];
      TidyMoviesStay(w, before, now);
      TidyMovieStays(w, last, now);
      MoviesStep(w, MoviesJson(before), MovieJson(last), now);
      InitAndLast(movies);
    }
  }

  function AllSeriesLimited(series: seq<SeriesEntry>): seq<SeriesEntry> {
    if series == [] then [] else AllSeriesLimited(series[..|series| - 1]) + [LimitedSeries(series[|series| - 1])]
  }

  lemma {:induction false} TidySeriesStay(w: World, series: seq<SeriesEntry>, now: int)
    requires Lowers(w.lower) && forall i :: 0 <= i < |series| ==> SeriesIsTidy(w, series[i])
    ensures NormalizeAllSeries(w, AllSeriesJson(series), now) == AllSeriesLimited(series)
    ensures |AllSeriesJson(series)| == |series|
  {
    if series != [] {
      var before, last := series[..|series| - 1], series[|series| - 1];
      TidySeriesStay(w, before, now);
      TidySeriesStays(w, last, now);
      SeriesStep(w, AllSeriesJson(before), SeriesJson(last), now);
    }
  }

  function LimitedLibrary(l: Library): Library {
    l.(series := AllSeriesLimited(l.series))
  }

  lemma LibraryItems(l: Library)
    ensures Items(LibraryJson(l), Movies) == MoviesJson(l.movies)
    ensures Items(LibraryJson(l), Series) == AllSeriesJson(l.series)
  {
  }

  /**
   Normalising what a normalisation wrote, at any later time, changes nothing but episode
   numbers over 999, which become 999 where they stand.
   */
  lemma SecondPass(w: World, raw: Json, now: int, later: int)
    requires Lowers(w.lower)
    ensures var l := NormalizeLibrary(w, raw, now);
            NormalizeLibrary(w, LibraryJson(l), later) == LimitedLibrary(l)
  {
    var l := NormalizeLibrary(w, raw, now);
    NormalizedMoviesAreTidy(w, Items(raw, Movies), now);
    NormalizedSeriesAreTidy(w, Items(raw, Series), now);
    LibraryItems(l);
    TidyMoviesStay(w, l.movies, later);
    TidySeriesStay(w, l.series, later);
  }

  predicate NoSeriesOver(series: seq<SeriesEntry>) {
    series == [] || (NoneOver(series[|series| - 1].episodes) && NoSeriesOver(series[..|series| - 1]))
  }

  lemma NoSeriesOverAppend(series: seq<SeriesEntry>, s: SeriesEntry)
    ensures NoSeriesOver(series + [s]) <==> NoSeriesOver(series) && NoneOver(s.episodes)
  {
    assert (series + [s])[..|series|] == series;
  }

  lemma SameAppend<T>(a: seq<T>, x: T, b: seq<T>, y: T)
    requires |a| == |b|
    ensures a + [x] == b + [y] <==> a == b && x == y
  {
    if a + [x] == b + [y] {
      assert (a + [x])[..|a|] == (b + [y])[..|b|] && (a + [x])[|a|] == (b + [y])[|b|];
      assert (a + [x])[..|a|] == a && (b + [y])[..|b|] == b;
    }
  }

  lemma {:induction false} SeriesLimitedIffOver(series: seq<SeriesEntry>)
    ensures AllSeriesLimited(series) == series <==> NoSeriesOver(series)
    ensures |AllSeriesLimited(series)| == |series| && NoSeriesOver(AllSeriesLimited(series))
  {
    if series != [] {
      var before, last := series[..|series| - 1], series[|series| - 1];
      SeriesLimitedIffOver(before);
      LimitedIffOver(last.episodes);
      InitAndLast(series);
      SameAppend(AllSeriesLimited(before), LimitedSeries(last), before, last);
      NoSeriesOverAppend(before, last);
      NoSeriesOverAppend(AllSeriesLimited(before), LimitedSeries(last));
    }
  }

  // ----- When that happens -----------------------------------------------------------------------

  /** An episode with a number that is given but not positive, in the list from the thousandth place on. */
  predicate Late(w: World, item: Json, index: nat) {
    var number := ValueI64(Field(item, EpisodeNumber));
    index >= 999 && item.Obj? && Tidy(w, item, Src) != "" && number.Some? && number.value <= 0
  }

  predicate AnyLate(w: World, items: seq<Json>) {
    items != [] && (Late(w, items[|items| - 1], |items| - 1) || AnyLate(w, items[..|items| - 1]))
  }

  predicate AnySeriesLate(w: World, items: seq<Json>, now: int) {
    items != []
    && (|| (NormalizeSeries(w, items[|items| - 1], now).Some? && AnyLate(w, Items(items[|items| - 1], Episodes)))
        || AnySeriesLate(w, items[..|items| - 1], now))
  }

  lemma {:induction false} NoneOverAppend(episodes: seq<EpisodeEntry>, e: EpisodeEntry)
    ensures NoneOver(episodes + [e]) <==> NoneOver(episodes) && e.episodeNumber <= 999
  {
    assert (episodes + [e])[..|episodes|] == episodes;
  }

  lemma {:induction false} NoneOverInsert(e: EpisodeEntry, sorted: seq<EpisodeEntry>)
    ensures NoneOver(Insert(e, sorted)) <==> NoneOver(sorted) && e.episodeNumber <= 999
  {
    if sorted == [] || Before(sorted[|sorted| - 1], e) {
      NoneOverAppend(sorted, e);
    } else {
      NoneOverInsert(e, sorted[..|sorted| - 1]);
      NoneOverAppend(Insert(e, sorted[..|sorted| - 1]), sorted[|sorted| - 1]);
    }
  }

  lemma {:induction false} NoneOverSort(episodes: seq<EpisodeEntry>)
    ensures NoneOver(Sort(episodes)) <==> NoneOver(episodes)
  {
    if episodes != [] {
      NoneOverSort(episodes[..|episodes| - 1]);
      NoneOverInsert(episodes[|episodes| - 1], Sort(episodes[..|episodes| - 1]));
    }
  }

  lemma OverIffLate(w: World, item: Json, index: nat, seriesKind: string, now: int)
    ensures Late(w, item, index)
            <==> NormalizeEpisode(w, item, index, seriesKind, now).Some?
                 && NormalizeEpisode(w, item, index, seriesKind, now).value.episodeNumber > 999
  {
  }

  lemma {:induction false} NoneOverIffNoneLate(w: World, items: seq<Json>, seriesKind: string, now: int)
    ensures NoneOver(NormalizeEpisodes(w, items, seriesKind, now)) <==> !AnyLate(w, items)
  {
    if items != [] {
      var before, last := items[..|items| - 1], items[|items| - 1];
      NoneOverIffNoneLate(w, before, seriesKind, now);
      OverIffLate(w, last, |before|, seriesKind, now);
      var e := NormalizeEpisode(w, last, |before|, seriesKind, now);
      if e.Some? {
        NoneOverAppend(NormalizeEpisodes(w, before, seriesKind, now), e.value);
      }
    }
  }

  lemma SeriesOverIffLate(w: World, item: Json, now: int)
    requires NormalizeSeries(w, item, now).Some?
    ensures NoneOver(NormalizeSeries(w, item, now).value.episodes) <==> !AnyLate(w, Items(item, Episodes))
  {
    var kind := SeriesKind(w, item);
    NoneOverIffNoneLate(w, Items(item, Episodes), kind, now);
    NoneOverSort(NormalizeEpisodes(w, Items(item, Episodes), kind, now));
  }

  lemma {:induction false} NoSeriesOverIffNoneLate(w: World, items: seq<Json>, now: int)
    ensures NoSeriesOver(NormalizeAllSeries(w, items, now)) <==> !AnySeriesLate(w, items, now)
  {
    if items != [] {
      var before, last := items[..|items| - 1], items[|items| - 1];
      NoSeriesOverIffNoneLate(w, before, now);
      var s := NormalizeSeries(w, last, now);
      if s.Some? {
        NoSeriesOverAppend(NormalizeAllSeries(w, before, now), s.value);
        SeriesOverIffLate(w, last, now);
      }
    }
  }

  /**
   Normalisation is a projection exactly when no series that is kept lists, from its
   thousandth place on, an episode whose number is given and is not positive.
   */
  lemma ProjectionIff(w: World, raw: Json, now: int, later: int)
    requires Lowers(w.lower)
    ensures var l := NormalizeLibrary(w, raw, now);
            NormalizeLibrary(w, LibraryJson(l), later) == l <==> !AnySeriesLate(w, Items(raw, Series), now)
  {
    SecondPass(w, raw, now, later);
    SeriesLimitedIffOver(NormalizeLibrary(w, raw, now).series);
    NoSeriesOverIffNoneLate(w, Items(raw, Series), now);
  }

  lemma {:induction false} ShortListsAreNotLate(w: World, items: seq<Json>)
    requires |items| <= 999
    ensures !AnyLate(w, items)
  {
    if items != [] {
      ShortListsAreNotLate(w, items[..|items| - 1]);
    }
  }

  lemma {:induction false} ShortSeriesAreNotLate(w: World, items: seq<Json>, now: int)
    requires forall i :: 0 <= i < |items| ==> |Items(items[i], Episodes)| <= 999
    ensures !AnySeriesLate(w, items, now)
  {
    if items != [] {
      ShortSeriesAreNotLate(w, items[..|items| - 1], now);
      ShortListsAreNotLate(w, Items(items[|items| - 1], Episodes));
    }
  }

  // ----- A library that is not stable ------------------------------------------------------------

  function Unnumbered(): Json {
    Obj(map[Src := Str("s")])
  }

  function NumberedZero(): Json {
    Obj(map[Src := Str("s"), EpisodeNumber := Int(0)])
  }

  /** A series whose episodes have no numbers, but for the last, which has the number 0. */
  function LastIsZero(n: nat): Json {
    Obj(map[Title := Str("t"), Episodes := Arr(seq(n, i => Unnumbered()) + [NumberedZero()])])
  }

  lemma ZeroIsLate(w: World, index: nat, kind: string, now: int)
    requires index >= 999
    ensures Late(w, NumberedZero(), index) && NormalizeEpisode(w, NumberedZero(), index, kind, now).Some?
  {
    OneWordIsTidy("s");
    TidyOf(w, NumberedZero(), Src, "s");
  }

  lemma LateAtEnd(w: World, items: seq<Json>, last: Json, kind: string, now: int)
    requires Late(w, last, |items|) && NormalizeEpisode(w, last, |items|, kind, now).Some?
    ensures AnyLate(w, items + [last]) && NormalizeEpisodes(w, items + [last], kind, now) != []
  {
    EpisodesStep(w, items, last, kind, now);
  }

  lemma KeptSeries(w: World, entry: Json, now: int)
    requires entry.Obj? && Tidy(w, entry, Title) != ""
    requires NormalizeEpisodes(w, Items(entry, Episodes), SeriesKind(w, entry), now) != []
    ensures NormalizeSeries(w, entry, now).Some?
  {
    SlugIsNotEmpty(w, entry);
  }

  lemma SlugIsNotEmpty(w: World, entry: Json)
    ensures SeriesId(w, entry) != ""
  {
  }

  lemma LastIsZeroFields(n: nat)
    ensures Items(LastIsZero(n), Episodes) == seq(n, i => Unnumbered()) + [NumberedZero()]
    ensures Field(LastIsZero(n), Title) == Some(Str("t"))
  {
  }

  lemma LateSeriesIsKept(w: World, series: Json, first: seq<Json>, now: int)
    requires series.Obj? && Field(series, Title) == Some(Str("t"))
    requires Items(series, Episodes) == first + [NumberedZero()] && |first| >= 999
    ensures NormalizeSeries(w, series, now).Some? && AnyLate(w, Items(series, Episodes))
  {
    var kind := SeriesKind(w, series);
    ZeroIsLate(w, |first|, kind, now);
    LateAtEnd(w, first, NumberedZero(), kind, now);
    TitleIsThere(w, series);
    KeptSeries(w, series, now);
  }

  lemma TitleIsThere(w: World, series: Json)
    requires Field(series, Title) == Some(Str("t"))
    ensures Tidy(w, series, Title) != ""
  {
    OneWordIsTidy("t");
    TidyOf(w, series, Title, "t");
  }

  lemma OneLateSeries(w: World, series: Json, now: int)
    requires NormalizeSeries(w, series, now).Some? && AnyLate(w, Items(series, Episodes))
    ensures AnySeriesLate(w, [series], now)
  {
    assert [series][|[series]| - 1] == series;
  }

  lemma OnlySeries(series: Json)
    ensures Items(Obj(map[Series := Arr([series])]), Series) == [series]
  {
  }

  lemma LateLibraryIsNotStable(w: World, raw: Json, series: Json, now: int, later: int)
    requires Lowers(w.lower) && Items(raw, Series) == [series]
    requires NormalizeSeries(w, series, now).Some? && AnyLate(w, Items(series, Episodes))
    ensures var l := NormalizeLibrary(w, raw, now); NormalizeLibrary(w, LibraryJson(l), later) != l
  {
    OneLateSeries(w, series, now);
    ProjectionIff(w, raw, now, later);
  }

  /** A thousand episodes, or more, the last of which has the number 0: what is read is not what was written. */
  lemma NumberZeroIsNotStable(w: World, n: nat, now: int, later: int)
    requires Lowers(w.lower) && n >= 999
    ensures var raw := Obj(map[Series := Arr([LastIsZero(n)])]);
            var l := NormalizeLibrary(w, raw, now);
            NormalizeLibrary(w, LibraryJson(l), later) != l
  {
    LastIsZeroFields(n);
    LateSeriesIsKept(w, LastIsZero(n), seq(n, i => Unnumbered()), now);
    OnlySeries(LastIsZero(n));
    LateLibraryIsNotStable(w, Obj(map[Series := Arr([LastIsZero(n)])]), LastIsZero(n), now, later);
  }

  /**
   With at most 999 listed episodes a series, what is written is what is read; and in any case from
   the second write on.
   */
  lemma ReadsWhatWasWritten(w: World, raw: Json, now: int, later: int, latest: int)
    requires Lowers(w.lower)
    ensures var l := NormalizeLibrary(w, raw, now);
            var again := NormalizeLibrary(w, LibraryJson(l), later);
            && ((forall i :: 0 <= i < |Items(raw, Series)| ==> |Items(Items(raw, Series)[i], Episodes)| <= 999)
                ==> again == l)
            && NormalizeLibrary(w, LibraryJson(again), latest) == again
  {
    var l := NormalizeLibrary(w, raw, now);
    var again := NormalizeLibrary(w, LibraryJson(l), later);
    ProjectionIff(w, raw, now, later);
    if forall i :: 0 <= i < |Items(raw, Series)| ==> |Items(Items(raw, Series)[i], Episodes)| <= 999 {
      ShortSeriesAreNotLate(w, Items(raw, Series), now);
    }
    SecondPass(w, raw, now, later);
    SecondPass(w, LibraryJson(l), later, latest);
    SeriesLimitedIffOver(l.series);
    SeriesLimitedIffOver(again.series);
  }

  // ----- The store -----------------------------------------------------------------------------

  datatype File = Missing | Unreadable | Contents(json: Json)

  datatype Result<T> = Ok(value: T) | Err

  function ReadResult(w: World, file: File, now: int): Result<Library> {
    match file
    case Missing => Ok(Library([], []))
    case Unreadable => Err
    case Contents(json) => Ok(NormalizeLibrary(w, json, now))
  }

  lemma WrittenIsRead(w: World, payload: Json, now: int)
    ensures var l := NormalizeLibrary(w, payload, now);
            Lowers(w.lower) ==>
              (ReadResult(w, Contents(LibraryJson(l)), now) == Ok(l)
               <==> !AnySeriesLate(w, Items(payload, Series), now))
  {
    if Lowers(w.lower) {
      ProjectionIff(w, payload, now, now);
    }
  }

  /**
   The file of the library; every operation holds the lock from beginning to end. `replaced`
   is whether the new file, written beside the old one, could be moved into its place.
   */
  class LibraryStore {
    const world: World
    var file: File

    constructor (world: World)
      ensures this.world == world && file == Missing
    {
      this.world := world;
      file := Missing;
    }

    /**
     A missing file is an empty library, any other that cannot be read an error, and what a write
     left is read within the limit.
     */
    method Read(now: int) returns (result: Result<Library>)
      ensures file.Missing? ==> result == Ok(Library([], []))
      ensures file.Unreadable? ==> result == Err
      ensures file.Contents? ==> result == Ok(NormalizeLibrary(world, file.json, now))
      ensures result == ReadResult(world, file, now)
    {
      match file
      case Missing => result := Ok(Library([], []));
      case Unreadable => result := Err;
      case Contents(json) => result := Ok(NormalizeLibrary(world, json, now));
    }

    method Write(payload: Json, now: int, replaced: bool) returns (result: Result<Library>)
      modifies this`file
      ensures if replaced
              then result == Ok(NormalizeLibrary(world, payload, now)) && file == Contents(LibraryJson(result.value))
              else result == Err && file == old(file)
      ensures replaced && Lowers(world.lower) ==>
                (ReadResult(world, file, now) == result <==> !AnySeriesLate(world, Items(payload, Series), now))
    {
      var library := NormalizeLibrary(world, payload, now);
      if !replaced {
        return Err;
      }
      file := Contents(LibraryJson(library));
      WrittenIsRead(world, payload, now);
      result := Ok(library);
    }

    /** On an error, of reading, of the change or of writing, the file stays as it is. */
    method Mutate<T>(change: Library -> Result<(Library, T)>, now: int, replaced: bool) returns (result: Result<T>)
      modifies this`file
      ensures var read := ReadResult(world, old(file), now);
              if read.Err? || change(read.value).Err? || !replaced then result.Err? && file == old(file)
              else
                var (changed, output) := change(read.value).value;
                result == Ok(output)
                    && file == Contents(LibraryJson(NormalizeLibrary(world, LibraryJson(changed), now)))
    {
      var read := Read(now);
      if read.Err? || change(read.value).Err? {
        return Err;
      }
      var (changed, output) := change(read.value).value;
      var written := Write(LibraryJson(changed), now, replaced);
      result := if written.Ok? then Ok(output) else Err;
    }
  }
}
