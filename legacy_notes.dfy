/** The older note builder, NotesCreator/log_to_note.py. Its file names,
    note rewrite, tag chunks and bookkeeping are those of `Notes` and
    `Processing`; what differs is the movie link (the feed's link without the
    user name), the Russian title picked from the alternative titles, the
    record built from the feed and the movie's page, and the poster embed of
    a new note. */
module LegacyNotes {
  import opened Wrappers
  import opened Text
  import opened Processing
  import opened Notes

  // ---------------------------------------------------------- Python slices

  /** The position Python's slicing takes for index `k` of `s`. */
  function SliceIndex(s: string, k: int): (i: nat)
    ensures i <= |s|
  {
    if k < 0 then (if |s| + k < 0 then 0 else |s| + k)
    else if k > |s| then |s| else k
  }

  /** `s[:k]` */
  function SliceTo(s: string, k: int): string { s[..SliceIndex(s, k)] }

  /** `s[k:]` */
  function SliceFrom(s: string, k: int): string { s[SliceIndex(s, k)..] }

  // ------------------------------------------------------------ movie link

  /** The link with the first occurrence of the user name and the character
      after it cut out. */
  function StripUser(url: string, user: string): string {
    var i := Find(url, user);
    SliceTo(url, i) + SliceFrom(url, i + |user| + 1)
  }

  /** A final `/<digit>/`, matched by `/\d{1}/$` at the very end. */
  predicate EndsWithDigitSegment(url: string) {
    |url| >= 3 && url[|url| - 3] == '/' && IsDigit(url[|url| - 2]) && url[|url| - 1] == '/'
  }

  /** The same before a final newline, where `$` matches too. */
  predicate EndsWithDigitSegmentNewline(url: string) {
    |url| >= 4 && url[|url| - 1] == '\n' && EndsWithDigitSegment(url[..|url| - 1])
  }

  /** `re.sub(r'/\d{1}/$', '/', url)`: at most one match is possible. */
  function DropDigitSegment(url: string): string {
    if EndsWithDigitSegment(url) then url[..|url| - 3] + "/"
    else if EndsWithDigitSegmentNewline(url) then url[..|url| - 4] + "/\n"
    else url
  }

  /** `transform_url` */
  function TransformUrl(url: string, user: string): string {
    DropDigitSegment(StripUser(url, user))
  }

  /** When the user name occurs, its first occurrence and the character
      after it are what goes; the rest is kept in order. */
  lemma StripUserCutsFirstOccurrence(url: string, user: string)
    requires Contains(url, user)
    ensures var i := Find(url, user);
      && OccursAt(url, user, i)
      && (forall j :: 0 <= j < i ==> !OccursAt(url, user, j))
      && (i + |user| < |url| ==> StripUser(url, user) == url[..i] + url[i + |user| + 1..])
      && (i + |user| == |url| ==> StripUser(url, user) == url[..i])
  {
  }

  /** Without the user name the link is mangled: all but its last character,
      then its tail from the length of the user name on. */
  lemma StripUserAbsent(url: string, user: string)
    requires !Contains(url, user)
    ensures StripUser(url, user) == DropLast(url) + url[SliceIndex(url, |user|)..]
  {
  }

  /** The substitution changes a link exactly when it ends in a single-digit
      segment, and then leaves the slash before the digit. */
  lemma DropDigitSegmentSpec(url: string)
    ensures DropDigitSegment(url) != url <==> EndsWithDigitSegment(url) || EndsWithDigitSegmentNewline(url)
    ensures EndsWithDigitSegment(url) ==> DropDigitSegment(url) + [url[|url| - 2], '/'] == url
  {
    if EndsWithDigitSegment(url) {
      assert |DropDigitSegment(url)| < |url|;
      assert url == url[..|url| - 3] + "/" + [url[|url| - 2], '/'];
    } else if EndsWithDigitSegmentNewline(url) {
      assert |DropDigitSegment(url)| < |url|;
    }
  }

  /** A diary link `<site>/<user>/film/<slug>/<n>/` of a rewatch becomes the
      film's page `<site>/film/<slug>/`. */
  lemma FilmLinkOfRewatch(site: string, user: string, film: string, n: char)
    requires IsDigit(n)
    requires Find(site + user + "/" + film + "/" + [n] + "/", user) == |site|
    ensures TransformUrl(site + user + "/" + film + "/" + [n] + "/", user) == site + film + "/"
  {
    var url := site + user + "/" + film + "/" + [n] + "/";
    var i := |site|;
    assert url[..i] == site;
    assert url[i + |user| + 1..] == film + "/" + [n] + "/";
    var stripped := StripUser(url, user);
    assert stripped == site + film + "/" + [n] + "/";
    assert EndsWithDigitSegment(stripped);
    assert stripped[..|stripped| - 3] == site + film;
  }

  // ---------------------------------------------------------- Russian title

  const TitleBlanks: set<char> := {'\n', '\t'}

  /** The alternative titles: the text split at `, `, each stripped of
      newlines and tabs. */
  function Titles(text: string): (ts: seq<string>)
    ensures |ts| == |SplitOn(text, ", ")|
  {
    var parts := SplitOn(text, ", ");
    seq(|parts|, i requires 0 <= i < |parts| => Strip(parts[i], TitleBlanks))
  }

  /** A character a Russian title may hold: anything but a letter whose
      single-character lower case lies outside `а`..`я`. A letter whose lower
      case is longer makes `ord` raise, and the error is ignored. */
  predicate RussianChar(c: char, isAlpha: char -> bool, lower: char -> string) {
    !isAlpha(c) || |lower(c)| != 1 || 1072 <= lower(c)[0] as int <= 1103
  }

  predicate Russian(title: string, isAlpha: char -> bool, lower: char -> string) {
    forall i :: 0 <= i < |title| ==> RussianChar(title[i], isAlpha, lower)
  }

  /** `get_russian_title`: the first alternative title all of whose letters
      are Russian, or `None`. */
  method RussianTitle(text: string, isAlpha: char -> bool, lower: char -> string) returns (r: Option<string>)
    ensures r.None? <==> forall k :: 0 <= k < |Titles(text)| ==> !Russian(Titles(text)[k], isAlpha, lower)
    ensures r.Some? ==>
              exists k :: 0 <= k < |Titles(text)| && Titles(text)[k] == r.value
                          && Russian(r.value, isAlpha, lower)
                          && forall j :: 0 <= j < k ==> !Russian(Titles(text)[j], isAlpha, lower)
  {
    var titles := SplitOn(text, ", ");
    ghost var ts := Titles(text);
    for t := 0 to |titles|
      invariant forall j :: 0 <= j < t ==> !Russian(ts[j], isAlpha, lower)
    {
      var title := Strip(titles[t], TitleBlanks);
      assert title == ts[t];
      var russian := true;
      for i := 0 to |title|
        invariant russian
        invariant forall k :: 0 <= k < i ==> RussianChar(title[k], isAlpha, lower)
      {
        var c := title[i];
        if isAlpha(c) {
          var lc := lower(c);
          if |lc| == 1 && !(1072 <= lc[0] as int <= 1103) {
            russian := false;
            assert !RussianChar(title[i], isAlpha, lower);
            break;
          }
        }
      }
      if russian {
        return Some(title);
      }
    }
    return None;
  }

  /** `ё` (U+0451) lies outside the range, so a title holding it is never
      picked when the letter tests and lowers as usual. */
  lemma YoExcluded(title: string, isAlpha: char -> bool, lower: char -> string)
    requires '\U{0451}' in title && isAlpha('\U{0451}') && lower('\U{0451}') == "\U{0451}"
    ensures !Russian(title, isAlpha, lower)
  {
    var i :| 0 <= i < |title| && title[i] == '\U{0451}';
    assert !RussianChar(title[i], isAlpha, lower);
  }

  /** A title without letters, digits or punctuation only, qualifies. */
  lemma NoLettersQualifies(title: string, isAlpha: char -> bool, lower: char -> string)
    requires forall i :: 0 <= i < |title| ==> !isAlpha(title[i])
    ensures Russian(title, isAlpha, lower)
  {
  }

  // -------------------------------------------------------- feed and page

  /** The fields of a diary entry of the feed; a missing field is `None`. A
      missing year (the default `0`) and an empty one are both falsy and are
      used only as such, so both are the empty year here. */
  datatype LegacyEntry = LegacyEntry(
    guid: string,
    filmYear: Option<string>,
    filmTitle: Option<string>,
    published: Date,
    memberRating: Option<nat>,
    link: string,
    rewatch: Option<string>)

  /** What the movie's page and the poster download give. */
  datatype PageData = PageData(
    directors: seq<string>,
    genres: seq<string>,
    countries: seq<string>,
    otherTitles: seq<string>,
    posterPath: Option<string>)

  datatype LegacyMovie = LegacyMovie(
    title: string,
    year: string,
    watchedDate: string,
    halves: nat,
    starRating: string,
    movieUrl: string,
    id: string,
    rewatch: string,
    page: PageData)

  /** `fetch_data_from_feed`, with `page` the movie page lookup by link. */
  function LegacyMovieOf(entry: LegacyEntry, user: string, page: string -> PageData): LegacyMovie {
    var title := entry.filmTitle.GetOr("No title");
    var year := entry.filmYear.GetOr("");
    var halves := entry.memberRating.GetOr(0);
    var url := TransformUrl(entry.link, user);
    LegacyMovie(title, year, FormatDate(entry.published), halves, StarRating(halves), url,
                MovieId(title, year), entry.rewatch.GetOr("No"), page(url))
  }

  /** Without a year the id is the title alone; the link used for the page is
      the transformed feed link. */
  lemma LegacyMovieIdOfEntry(entry: LegacyEntry, user: string, page: string -> PageData)
    ensures entry.filmYear.None? ==> LegacyMovieOf(entry, user, page).id == entry.filmTitle.GetOr("No title")
    ensures entry.filmYear.Some? && entry.filmYear.value != "" ==>
              LegacyMovieOf(entry, user, page).id == entry.filmTitle.GetOr("No title") + " - " + entry.filmYear.value
    ensures LegacyMovieOf(entry, user, page).page == page(TransformUrl(entry.link, user))
  {
  }

  // ----------------------------------------------------------- new note

  /** The Obsidian embed of a poster: its vault-relative path after the
      first backslash, or all of it. */
  function PosterEmbed(relative: string): string {
    "![[" + relative[Find(relative, "\\") + 1..] + "]]\n"
  }

  lemma PosterEmbedAfterBackslash(dir: string, rest: string)
    requires '\\' !in dir
    ensures PosterEmbed(dir + "\\" + rest) == "![[" + rest + "]]\n"
    ensures PosterEmbed(dir) == "![[" + dir + "]]\n"
  {
    var s := dir + "\\" + rest;
    assert OccursAt(s, "\\", |dir|);
    forall j | 0 <= j < |dir| ensures !OccursAt(s, "\\", j) {
      assert s[j] == dir[j];
    }
    assert Find(s, "\\") == |dir|;
    assert s[|dir| + 1..] == rest;
  }

  function LegacyFactsOf(m: LegacyMovie): NoteFacts {
    NoteFacts(m.page.directors, m.starRating, m.halves, m.year, m.watchedDate, m.page.genres, m.page.countries)
  }

  /** The poster embed of a saved poster, when there is one. */
  function PosterLines(posterPath: Option<string>, relpath: string -> string): seq<string> {
    if posterPath.Some? && posterPath.value != "" then [PosterEmbed(relpath(posterPath.value))] else []
  }

  /** `create_obsidian_note`: the poster embed when a poster was saved (its
      path made relative to the vault by `relpath`), the link to the movie's
      page, then the part shared with the newer builder. */
  method CreateLegacyNote(m: LegacyMovie, relpath: string -> string, slugify: string -> string)
    returns (chunks: seq<string>)
    ensures chunks == PosterLines(m.page.posterPath, relpath)
                      + ["[URL](" + m.movieUrl + ")\n"]
                      + NoteBody(LegacyFactsOf(m), slugify)
  {
    chunks := [];
    if m.page.posterPath.Some? && m.page.posterPath.value != "" {
      var relative := relpath(m.page.posterPath.value);
      chunks := chunks + [PosterEmbed(relative)];
    }
    chunks := chunks + ["[URL](" + m.movieUrl + ")\n"];
    var body := WriteNoteBody(LegacyFactsOf(m), slugify);
    chunks := chunks + body;
  }

  // ------------------------------------------------------------------ main

  function LegacyViewingOf(entry: LegacyEntry, user: string, page: string -> PageData): Viewing<LegacyMovie> {
    var m := LegacyMovieOf(entry, user, page);
    Viewing(entry.guid, m.id, m.watchedDate, m.halves != 0 && m.year != "", m)
  }

  function LegacyViewings(entries: seq<LegacyEntry>, user: string, page: string -> PageData): (vs: seq<Viewing<LegacyMovie>>)
    ensures |vs| == |entries|
  {
    seq(|entries|, i requires 0 <= i < |entries| => LegacyViewingOf(entries[i], user, page))
  }

  /** `main`: the newest five entries, oldest first, through the
      bookkeeping shared with the newer builder. */
  method LegacyProcessFeed(entries: seq<LegacyEntry>, user: string, page: string -> PageData, processed: Processed)
    returns (result: Processed, actions: seq<Action<LegacyMovie>>)
    ensures (result, actions) == Process(processed, LegacyViewings(Window(entries), user, page))
  {
    var window := Window(entries);
    result, actions := ProcessViewings(processed, LegacyViewings(window, user, page));
  }
}
