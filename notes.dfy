/** The note builder of notes_creator/log_to_note.py: note file names, the
    movie id, the star string, the record built from TMDB details, the
    rewrite of an existing note's lines and the chunks of a new note. The
    pieces the older twin shares are written once here and used by
    `LegacyNotes` too.

    A note is the list of its lines (as `readlines` gives them); a new note
    is the list of the chunks written to it, in order. `slugify` is a
    parameter, ratings are counted in half-points. */
module Notes {
  import opened Wrappers
  import opened Text
  import opened Processing

  // ------------------------------------------------------------ file names

  /** Characters a note's file name may not contain. */
  const IllegalCharacters: string := "><:\"\\/|?*"

  function CharsOf(s: string): set<char> { set c | c in s }

  predicate Legal(title: string) {
    forall i :: 0 <= i < |title| ==> title[i] !in IllegalCharacters
  }

  /** The title with every illegal character removed. */
  function Sanitize(title: string): (r: string)
    ensures Legal(r)
  {
    RemoveChars(title, CharsOf(IllegalCharacters))
  }

  /** Sanitising changes exactly the titles holding an illegal character, so
      doing it twice is doing it once. */
  lemma SanitizeFixesLegal(title: string)
    ensures Sanitize(title) == title <==> Legal(title)
    ensures Sanitize(Sanitize(title)) == Sanitize(title)
  {
    if Legal(title) {
      RemoveCharsNone(title, CharsOf(IllegalCharacters));
    }
    RemoveCharsNone(Sanitize(title), CharsOf(IllegalCharacters));
  }

  /** `os.path.join(path, name)` on POSIX. */
  function PathJoin(path: string, name: string): string {
    if StartsWith(name, "/") then name
    else if path == "" || EndsWith(path, "/") then path + name
    else path + "/" + name
  }

  /** The movie id: `title - year`, or the title alone without a year. */
  function MovieId(title: string, year: string): string {
    if year != "" then title + " - " + year else title
  }

  /** The note's file name: the sanitised title, the year when there is
      one, then `.md`. */
  function FileName(title: string, year: string): string {
    if year != "" then Sanitize(title) + " - " + year + ".md" else Sanitize(title) + ".md"
  }

  /** `get_movie_file_path`: one `replace` per illegal character, then the
      file name joined to the vault path. */
  method MovieFilePath(title: string, year: string, path: string) returns (filePath: string)
    ensures filePath == PathJoin(path, FileName(title, year))
  {
    var t := title;
    assert CharsOf(IllegalCharacters[..0]) == {};
    RemoveCharsNone(title, {});
    for k := 0 to |IllegalCharacters|
      invariant t == RemoveChars(title, CharsOf(IllegalCharacters[..k]))
    {
      var c := IllegalCharacters[k];
      RemoveCharsTwice(title, CharsOf(IllegalCharacters[..k]), c);
      assert CharsOf(IllegalCharacters[..k + 1]) == CharsOf(IllegalCharacters[..k]) + {c};
      t := RemoveChars(t, {c});
    }
    assert IllegalCharacters[..|IllegalCharacters|] == IllegalCharacters;
    var fileName := if year != "" then t + " - " + year + ".md" else t + ".md";
    filePath := PathJoin(path, fileName);
  }

  /** The file name is the id of the sanitised title with `.md`; for a legal
      title it is the movie id itself with `.md`. */
  lemma FileNameIsIdStem(title: string, year: string)
    ensures FileName(title, year) == MovieId(Sanitize(title), year) + ".md"
    ensures Legal(title) ==> FileName(title, year) == MovieId(title, year) + ".md"
  {
    SanitizeFixesLegal(title);
  }

  /** Under a vault directory, the note's path ends in its file name, which
      holds no slash of the title. */
  lemma NotePathEndsInFileName(title: string, year: string, path: string)
    requires path != "" && !EndsWith(path, "/") && '/' !in year
    ensures LastSegment(PathJoin(path, FileName(title, year))) == FileName(title, year)
  {
    var t := Sanitize(title);
    var name := FileName(title, year);
    assert '/' !in t;
    assert '/' !in name by {
      if year != "" {
        assert name == t + (" - " + year + ".md");
      } else {
        assert name == t + ".md";
      }
    }
    assert !StartsWith(name, "/") by {
      if |name| > 0 {
        assert name[0] in name;
      }
    }
    LastSegmentAfterSlash(path, name);
  }

  // ----------------------------------------------------------- star rating

  const FullStar := ":luc_star:"
  const HalfStar := ":luc_star_half:"

  /** The star string of a rating of `halves` half-points (`rating * 2`):
      a full star per whole point, then a half star for a remaining half. */
  function StarRating(halves: nat): string {
    Repeat(FullStar, halves / 2) + Repeat(HalfStar, halves % 2)
  }

  /** Full stars `floor(rating)`, half stars `int(rating * 10 % 10) // 5`,
      with `rating * 10 == 5 * halves`. */
  lemma StarCounts(halves: nat)
    ensures (5 * halves) % 10 / 5 == halves % 2
    ensures |StarRating(halves)| == |FullStar| * (halves / 2) + |HalfStar| * (halves % 2)
  {
  }

  /** Different ratings give different star strings, and only the rating 0
      gives the empty one. */
  lemma StarRatingInjective(a: nat, b: nat)
    requires StarRating(a) == StarRating(b)
    ensures a == b
  {
    StarCounts(a);
    StarCounts(b);
    var la := 10 * (a / 2) + 15 * (a % 2);
    var lb := 10 * (b / 2) + 15 * (b % 2);
    assert la == lb;
    assert la % 10 == 5 * (a % 2) && lb % 10 == 5 * (b % 2);
  }

  lemma StarRatingEmpty(halves: nat)
    ensures StarRating(halves) == "" <==> halves == 0
  {
    StarCounts(halves);
  }

  /** The text shown for a star string: `none` for no stars. */
  function StarText(star: string): string {
    if star != "" then star else "none"
  }

  /** A note's rating line after a rewrite. */
  function RatingLine(star: string): string {
    "**Rating:** " + StarText(star) + "\n"
  }

  /** The watch callout for a date, followed by two empty lines. */
  function WatchLine(date: string): string {
    "> [!NOTE] " + date + "\n\n\n"
  }

  /** `#<rating * 2>-rating` */
  function RatingTag(halves: nat): string {
    "#" + NatToString(halves) + "-rating"
  }

  /** `#<last four characters of the date>-watched` */
  function WatchedTag(date: string): string {
    "#" + LastN(date, 4) + "-watched"
  }

  /** `#<year without its last character>0s` */
  function DecadeTag(year: string): string {
    "#" + DropLast(year) + "0s"
  }

  /** The decade tag of a year of digits names the year rounded down to its
      decade. */
  lemma DecadeOfYear(year: string)
    requires |year| > 0 && AllDigits(year)
    ensures AllDigits(DropLast(year) + "0")
    ensures DigitsValue(DropLast(year) + "0") == DigitsValue(year) / 10 * 10
  {
    var init := DropLast(year);
    var s := init + "0";
    assert AllDigits(init);
    assert AllDigits(s);
    assert s[..|s| - 1] == init;
    assert year[..|year| - 1] == init;
    var v := DigitsValue(init);
    var d := year[|year| - 1] as int - '0' as int;
    assert DigitsValue(s) == v * 10;
    assert DigitsValue(year) == v * 10 + d && 0 <= d < 10;
    DropUnits(DigitsValue(year), v, d);
  }

  lemma DropUnits(x: nat, v: nat, d: int)
    requires x == v * 10 + d && 0 <= d < 10
    ensures x / 10 * 10 == v * 10
  {
  }

  // ------------------------------------------------------------------ dates

  /** The parts of the feed's publication time the note uses. */
  datatype Date = Date(day: nat, month: nat, year: nat)

  function Pad2(n: nat): string {
    if n < 10 then "0" + NatToString(n) else NatToString(n)
  }

  /** `strftime('%d.%m.%Y')` */
  function FormatDate(d: Date): string {
    Pad2(d.day) + "." + Pad2(d.month) + "." + NatToString(d.year)
  }

  lemma FourDigits(y: nat)
    requires 1000 <= y <= 9999
    ensures |NatToString(y)| == 4
  {
    assert |NatToString(y / 10)| == 3 by {
      assert |NatToString(y / 100)| == 2 by {
        assert |NatToString(y / 1000)| == 1;
      }
    }
  }

  /** For a four-digit year the watched tag of a formatted date names the
      year. */
  lemma WatchedTagOfDate(d: Date)
    requires 1000 <= d.year <= 9999
    ensures WatchedTag(FormatDate(d)) == "#" + NatToString(d.year) + "-watched"
  {
    FourDigits(d.year);
    var head := Pad2(d.day) + "." + Pad2(d.month) + ".";
    assert FormatDate(d) == head + NatToString(d.year);
  }

  // -------------------------------------------------------------- directors

  datatype CrewMember = CrewMember(job: string, name: Option<string>)

  predicate IsDirector(m: CrewMember) { m.job == "Director" }

  /** `crew_member.get('name', '')` */
  function NameOf(m: CrewMember): string { m.name.GetOr("") }

  /** The names of the directors among the crew, in crew order. */
  function DirectorNames(crew: seq<CrewMember>): seq<string>
    decreases |crew|
  {
    if crew == [] then []
    else
      var last := crew[|crew| - 1];
      DirectorNames(crew[..|crew| - 1]) + (if IsDirector(last) then [NameOf(last)] else [])
  }

  lemma {:induction false} DirectorNamesAppend(a: seq<CrewMember>, b: seq<CrewMember>)
    ensures DirectorNames(a + b) == DirectorNames(a) + DirectorNames(b)
    decreases |b|
  {
    if b != [] {
      assert (a + b)[..|a + b| - 1] == a + b[..|b| - 1];
      DirectorNamesAppend(a, b[..|b| - 1]);
    } else {
      assert a + b == a;
    }
  }

  /** A name is a director's name exactly when some crew member with the
      job `Director` carries it. */
  lemma {:induction false} DirectorNamesMembers(crew: seq<CrewMember>, d: string)
    ensures d in DirectorNames(crew) <==> exists i :: 0 <= i < |crew| && IsDirector(crew[i]) && NameOf(crew[i]) == d
    decreases |crew|
  {
    if crew != [] {
      var init := crew[..|crew| - 1];
      DirectorNamesMembers(init, d);
      if exists i :: 0 <= i < |crew| && IsDirector(crew[i]) && NameOf(crew[i]) == d {
        var i :| 0 <= i < |crew| && IsDirector(crew[i]) && NameOf(crew[i]) == d;
        if i < |crew| - 1 {
          assert init[i] == crew[i];
        }
      }
      if exists i :: 0 <= i < |init| && IsDirector(init[i]) && NameOf(init[i]) == d {
        var i :| 0 <= i < |init| && IsDirector(init[i]) && NameOf(init[i]) == d;
        assert crew[i] == init[i];
      }
    }
  }

  // ---------------------------------------------------- TMDB movie details

  /** The fields of a TMDB movie (with `credits` appended) the note uses;
      absent lists are empty. */
  datatype TmdbMovie = TmdbMovie(
    crew: seq<CrewMember>,
    genres: seq<string>,
    originCountry: seq<string>,
    originalTitle: Option<string>,
    posterPath: Option<string>)

  datatype Extras = Extras(
    directors: seq<string>,
    genres: seq<string>,
    countries: seq<string>,
    originalTitle: string,
    posterPath: string)

  /** `fetch_data_from_tmdb` after the lookup: directors collected in a loop,
      absent or empty titles and posters become `''`. */
  method FetchDataFromTmdb(t: TmdbMovie) returns (e: Extras)
    ensures e.directors == DirectorNames(t.crew)
    ensures e.genres == t.genres && e.countries == t.originCountry
    ensures e.originalTitle == (if t.originalTitle.Some? then t.originalTitle.value else "")
    ensures e.posterPath == (if t.posterPath.Some? then t.posterPath.value else "")
  {
    var directors: seq<string> := [];
    for i := 0 to |t.crew|
      invariant directors == DirectorNames(t.crew[..i])
    {
      assert t.crew[..i + 1][..i] == t.crew[..i];
      if t.crew[i].job == "Director" {
        directors := directors + [NameOf(t.crew[i])];
      }
    }
    assert t.crew[..|t.crew|] == t.crew;
    var originalTitle := if t.originalTitle.Some? && t.originalTitle.value != "" then t.originalTitle.value else "";
    var posterPath := if t.posterPath.Some? && t.posterPath.value != "" then t.posterPath.value else "";
    e := Extras(directors, t.genres, t.originCountry, originalTitle, posterPath);
  }

  /** The record `fetch_data_from_tmdb` returns. */
  function TmdbExtras(t: TmdbMovie): Extras {
    Extras(DirectorNames(t.crew), t.genres, t.originCountry, t.originalTitle.GetOr(""), t.posterPath.GetOr(""))
  }

  // ------------------------------------------------------------- feed entry

  /** The fields of a diary entry of the feed; a missing field is `None`. */
  datatype FeedEntry = FeedEntry(
    guid: string,
    filmYear: Option<string>,
    filmTitle: Option<string>,
    published: Date,
    memberRating: Option<nat>,
    rewatch: Option<string>,
    tmdbMovieId: Option<int>)

  datatype Movie = Movie(
    title: string,
    year: string,
    watchedDate: string,
    halves: nat,
    starRating: string,
    id: string,
    rewatch: string,
    tmdbId: int,
    extras: Extras)

  /** `fetch_data_from_feed`, with `details` the TMDB lookup by id. */
  function MovieOf(entry: FeedEntry, details: int -> TmdbMovie): Movie {
    var title := entry.filmTitle.GetOr("No title");
    var year := entry.filmYear.GetOr("");
    var halves := entry.memberRating.GetOr(0);
    var tmdbId := entry.tmdbMovieId.GetOr(0);
    Movie(title, year, FormatDate(entry.published), halves, StarRating(halves),
          MovieId(title, year), entry.rewatch.GetOr("No"), tmdbId, TmdbExtras(details(tmdbId)))
  }

  /** An entry without a year is known by its title alone, and the note of a
      movie with a legal title is stored under its id. */
  lemma MovieIdOfEntry(entry: FeedEntry, details: int -> TmdbMovie)
    ensures entry.filmYear.None? ==> MovieOf(entry, details).id == entry.filmTitle.GetOr("No title")
    ensures Legal(MovieOf(entry, details).title) ==>
              FileName(MovieOf(entry, details).title, MovieOf(entry, details).year) == MovieOf(entry, details).id + ".md"
  {
    var m := MovieOf(entry, details);
    FileNameIsIdStem(m.title, m.year);
  }

  // ------------------------------------------------------ updating a note

  /** A line after the rating rewrite. */
  function RateLine(line: string, star: string): string {
    if StartsWith(line, "**Rating:**") then RatingLine(star) else line
  }

  /** Index of the first tag ending in `rating`, or the number of tags. */
  function FirstRatingTag(tags: seq<string>): (j: nat)
    ensures j <= |tags|
    ensures forall k :: 0 <= k < j ==> !EndsWith(tags[k], "rating")
    ensures j < |tags| ==> EndsWith(tags[j], "rating")
    decreases |tags|
  {
    if tags == [] || EndsWith(tags[0], "rating") then 0 else 1 + FirstRatingTag(tags[1..])
  }

  /** The tags after a rated viewing: the first rating tag replaced (or one
      appended), then the watched tag appended unless present. */
  function RetagWords(tags: seq<string>, halves: nat, date: string): seq<string> {
    var j := FirstRatingTag(tags);
    var rated := if j < |tags| then tags[j := RatingTag(halves)] else tags + [RatingTag(halves)];
    if WatchedTag(date) in rated then rated else rated + [WatchedTag(date)]
  }

  /** The tag line after a rated viewing. */
  function Retag(line: string, halves: nat, date: string): string {
    Join(" ", RetagWords(Words(line), halves, date))
  }

  /** The lines of a non-empty note after a viewing. */
  function UpdatedNote(note: seq<string>, star: string, halves: nat, date: string): seq<string>
    requires |note| > 0
  {
    var lines := seq(|note|, i requires 0 <= i < |note| => RateLine(note[i], star));
    var last := lines[|note| - 1];
    lines[..|note| - 1] + [WatchLine(date), if halves != 0 then Retag(last, halves, date) else last]
  }

  /** `update_obsidian_note`: `None` when there is nothing to update, else
      the lines written back. */
  method UpdateNote(note: Option<seq<string>>, star: string, halves: nat, date: string)
    returns (written: Option<seq<string>>)
    ensures note.None? || note.value == [] ==> written.None?
    ensures note.Some? && note.value != [] ==> written == Some(UpdatedNote(note.value, star, halves, date))
  {
    if note.None? || note.value == [] {
      return None;
    }
    var lines := note.value;
    var text := if star != "" then star else "none";
    for i := 0 to |lines|
      invariant |lines| == |note.value|
      invariant forall k :: 0 <= k < i ==> lines[k] == RateLine(note.value[k], star)
      invariant forall k :: i <= k < |lines| ==> lines[k] == note.value[k]
    {
      if StartsWith(lines[i], "**Rating:**") {
        lines := lines[i := "**Rating:** " + text + "\n"];
      }
    }
    var n := |lines|;
    ghost var rated := lines;
    assert rated == seq(n, i requires 0 <= i < n => RateLine(note.value[i], star));
    lines := lines[..n - 1] + [WatchLine(date)] + [lines[n - 1]];
    assert lines == rated[..n - 1] + [WatchLine(date), rated[n - 1]];
    if halves != 0 {
      var tags := Words(lines[n]);
      ghost var original := tags;
      var replaced := false;
      for i := 0 to |tags|
        invariant !replaced && tags == original
        invariant forall k :: 0 <= k < i ==> !EndsWith(original[k], "rating")
      {
        if EndsWith(tags[i], "rating") {
          assert FirstRatingTag(original) == i;
          tags := tags[i := RatingTag(halves)];
          replaced := true;
          break;
        }
      }
      if !replaced {
        tags := tags + [RatingTag(halves)];
      }
      if WatchedTag(date) !in tags {
        tags := tags + [WatchedTag(date)];
      }
      assert tags == RetagWords(original, halves, date);
      lines := lines[n := Join(" ", tags)];
      assert lines == rated[..n - 1] + [WatchLine(date), Retag(rated[n - 1], halves, date)];
    }
    return Some(lines);
  }

  /** After a viewing the note has one line more: every rating line shows the
      new stars, the watch line sits just before the last line, and the last
      line is the tag line, retagged only for a non-zero rating. */
  lemma UpdatedNoteShape(note: seq<string>, star: string, halves: nat, date: string)
    requires |note| > 0
    ensures |UpdatedNote(note, star, halves, date)| == |note| + 1
    ensures forall i :: 0 <= i < |note| - 1 ==>
              UpdatedNote(note, star, halves, date)[i] == (if StartsWith(note[i], "**Rating:**") then RatingLine(star) else note[i])
    ensures UpdatedNote(note, star, halves, date)[|note| - 1] == WatchLine(date)
    ensures halves == 0 ==> UpdatedNote(note, star, halves, date)[|note|] == RateLine(note[|note| - 1], star)
    ensures halves != 0 ==> UpdatedNote(note, star, halves, date)[|note|] == Retag(RateLine(note[|note| - 1], star), halves, date)
  {
  }

  /** The retagged words hold the rating tag as their first tag ending in
      `rating` and the watched tag; every other old tag is kept in place. */
  lemma RetagWordsSpec(tags: seq<string>, halves: nat, date: string)
    ensures var r := RetagWords(tags, halves, date);
      && FirstRatingTag(r) < |r| && r[FirstRatingTag(r)] == RatingTag(halves)
      && WatchedTag(date) in r
      && |tags| <= |r| <= |tags| + 2
      && forall k :: 0 <= k < |tags| && k != FirstRatingTag(tags) ==> r[k] == tags[k]
  {
    var j := FirstRatingTag(tags);
    var r := RetagWords(tags, halves, date);
    var rated := if j < |tags| then tags[j := RatingTag(halves)] else tags + [RatingTag(halves)];
    assert EndsWith(RatingTag(halves), "rating");
    assert r[..|rated|] == rated;
    assert FirstRatingTag(r) == j by {
      assert r[j] == RatingTag(halves);
      forall k | 0 <= k < j ensures !EndsWith(r[k], "rating") {
        assert r[k] == tags[k];
      }
      FirstRatingTagIs(r, j);
    }
  }

  lemma FirstRatingTagIs(tags: seq<string>, j: nat)
    requires j < |tags| && EndsWith(tags[j], "rating")
    requires forall k :: 0 <= k < j ==> !EndsWith(tags[k], "rating")
    ensures FirstRatingTag(tags) == j
  {
  }

  /** Retagging twice with the same rating and date is retagging once: a
      re-run adds no second rating or watched tag. */
  lemma RetagWordsIdempotent(tags: seq<string>, halves: nat, date: string)
    ensures RetagWords(RetagWords(tags, halves, date), halves, date) == RetagWords(tags, halves, date)
  {
    var r := RetagWords(tags, halves, date);
    RetagWordsSpec(tags, halves, date);
    var j := FirstRatingTag(r);
    assert r[j := RatingTag(halves)] == r;
  }

  /** The tag line is stable under a repeated viewing on the same date, when
      the year part of the date holds no blank. */
  lemma RetagIdempotent(line: string, halves: nat, date: string)
    requires NoSpace(LastN(date, 4))
    ensures Retag(Retag(line, halves, date), halves, date) == Retag(line, halves, date)
  {
    var ws := RetagWords(Words(line), halves, date);
    TagsAreWords(Words(line), halves, date);
    WordsOfJoin(ws);
    RetagWordsIdempotent(Words(line), halves, date);
  }

  lemma TagsAreWords(tags: seq<string>, halves: nat, date: string)
    requires forall k :: 0 <= k < |tags| ==> |tags[k]| > 0 && NoSpace(tags[k])
    requires NoSpace(LastN(date, 4))
    ensures var r := RetagWords(tags, halves, date);
      forall k :: 0 <= k < |r| ==> |r[k]| > 0 && NoSpace(r[k])
  {
    NatToStringDigits(halves);
    var d := NatToString(halves);
    assert NoSpace(d) by {
      forall i | 0 <= i < |d| ensures !IsSpace(d[i]) {
        assert IsDigit(d[i]);
      }
    }
    assert RatingTag(halves) == "#" + d + "-rating";
    assert NoSpace(RatingTag(halves));
    assert NoSpace(WatchedTag(date));
  }

  /** A rating of 0 leaves the tag line as it was. */
  lemma UnratedKeepsTags(note: seq<string>, star: string, date: string)
    requires |note| > 0
    ensures UpdatedNote(note, star, 0, date)[|note|] == RateLine(note[|note| - 1], star)
  {
  }

  // ------------------------------------------------------- creating a note

  /** The facts a new note shows besides its poster and link lines. */
  datatype NoteFacts = NoteFacts(
    directors: seq<string>,
    starRating: string,
    halves: nat,
    year: string,
    watchedDate: string,
    genres: seq<string>,
    countries: seq<string>)

  /** The director line: plural for several, singular for one, `not found`
      for none. */
  function DirectorHeader(directors: seq<string>): string {
    if |directors| == 0 then "**Director:** not found\n"
    else if |directors| == 1 then "**Director:** " + directors[0] + "\n"
    else "**Directors:** " + Join(", ", directors) + "\n"
  }

  function Slugs(slugify: string -> string, xs: seq<string>): (r: seq<string>)
    ensures |r| == |xs|
  {
    seq(|xs|, i requires 0 <= i < |xs| => slugify(xs[i]))
  }

  function Hashtags(xs: seq<string>): (r: seq<string>)
    ensures |r| == |xs|
  {
    seq(|xs|, i requires 0 <= i < |xs| => "#" + xs[i])
  }

  /** The tags of a new note, group by group: directors, rating, decade,
      watched year, genres, countries. */
  function TagGroups(f: NoteFacts, slugify: string -> string): seq<seq<string>> {
    [Hashtags(Slugs(slugify, f.directors)),
     if f.halves != 0 then [RatingTag(f.halves)] else [],
     if f.year != "" then [DecadeTag(f.year)] else [],
     [WatchedTag(f.watchedDate)],
     Hashtags(Slugs(slugify, f.genres)),
     Hashtags(Slugs(slugify, f.countries))]
  }

  /** One chunk per non-empty group: its tags, each followed by a blank. */
  function ChunksOf(groups: seq<seq<string>>): seq<string>
    decreases |groups|
  {
    if groups == [] then []
    else Chunk(groups[0]) + ChunksOf(groups[1..])
  }

  /** What a new note holds after its poster and link lines. */
  function NoteBody(f: NoteFacts, slugify: string -> string): seq<string> {
    [DirectorHeader(f.directors), "**Rating:** " + StarText(f.starRating) + "\n\n", "---\n\n", WatchLine(f.watchedDate)]
    + ChunksOf(TagGroups(f, slugify))
  }

  /** `'#' + ' #'.join(xs)` is the hashtags of `xs` joined by blanks. */
  lemma {:induction false} HashJoin(xs: seq<string>)
    requires |xs| > 0
    ensures "#" + Join(" #", xs) == Join(" ", Hashtags(xs))
    decreases |xs|
  {
    if |xs| > 1 {
      HashJoin(xs[1..]);
      assert Hashtags(xs)[1..] == Hashtags(xs[1..]);
    }
  }

  /** The chunks of the shared part of a new note, written in order. */
  method WriteNoteBody(f: NoteFacts, slugify: string -> string) returns (chunks: seq<string>)
    ensures chunks == NoteBody(f, slugify)
  {
    var header := WriteDirectorHeader(f.directors);
    var star := if f.starRating != "" then f.starRating else "none";
    var tags := WriteTags(f, slugify);
    chunks := [header, "**Rating:** " + star + "\n\n", "---\n\n", "> [!NOTE] " + f.watchedDate + "\n\n\n"];
    assert chunks == NoteBody(f, slugify)[..4];
    chunks := chunks + tags;
  }

  /** The director line of a new note, by the number of directors. */
  method WriteDirectorHeader(directors: seq<string>) returns (line: string)
    ensures line == DirectorHeader(directors)
  {
    if directors != [] {
      if |directors| > 1 {
        line := "**Directors:** " + Join(", ", directors) + "\n";
      } else {
        line := "**Director:** " + Join(", ", directors) + "\n";
      }
    } else {
      line := "**Director:** not found\n";
    }
  }

  /** The chunk of a list of names written as hashtags: nothing for no names. */
  method WriteHashtags(names: seq<string>, slugify: string -> string) returns (chunks: seq<string>)
    ensures chunks == Chunk(Hashtags(Slugs(slugify, names)))
  {
    chunks := [];
    if names != [] {
      HashJoin(Slugs(slugify, names));
      chunks := ["#" + Join(" #", Slugs(slugify, names)) + " "];
    }
  }

  /** The tag chunks of a new note, one per non-empty group. */
  method WriteTags(f: NoteFacts, slugify: string -> string) returns (chunks: seq<string>)
    ensures chunks == ChunksOf(TagGroups(f, slugify))
  {
    var g := TagGroups(f, slugify);
    var directors := WriteHashtags(f.directors, slugify);
    var rating: seq<string> := [];
    if f.halves != 0 {
      rating := [RatingTag(f.halves) + " "];
    }
    assert rating == Chunk(g[1]);
    var decade: seq<string> := [];
    if f.year != "" {
      decade := [DecadeTag(f.year) + " "];
    }
    assert decade == Chunk(g[2]);
    var watched := [WatchedTag(f.watchedDate) + " "];
    assert watched == Chunk(g[3]);
    var genres := WriteHashtags(f.genres, slugify);
    var countries := WriteHashtags(f.countries, slugify);
    chunks := directors + (rating + (decade + (watched + (genres + countries))));
    ChunksOfSix(g);
  }

  /** The chunks of six groups are their chunks one after another. */
  lemma ChunksOfSix(g: seq<seq<string>>)
    requires |g| == 6
    ensures ChunksOf(g) == Chunk(g[0]) + (Chunk(g[1]) + (Chunk(g[2]) + (Chunk(g[3]) + (Chunk(g[4]) + Chunk(g[5])))))
  {
    var t1, t2, t3, t4, t5 := g[1..], g[2..], g[3..], g[4..], g[5..];
    assert t1[1..] == t2 && t2[1..] == t3 && t3[1..] == t4 && t4[1..] == t5 && t5[1..] == [];
    assert ChunksOf(t5) == Chunk(g[5]);
    assert ChunksOf(t4) == Chunk(g[4]) + ChunksOf(t5);
    assert ChunksOf(t3) == Chunk(g[3]) + ChunksOf(t4);
    assert ChunksOf(t2) == Chunk(g[2]) + ChunksOf(t3);
    assert ChunksOf(t1) == Chunk(g[1]) + ChunksOf(t2);
    assert ChunksOf(g) == Chunk(g[0]) + ChunksOf(t1);
  }

  function Chunk(group: seq<string>): seq<string> {
    if group == [] then [] else [Join(" ", group) + " "]
  }

  lemma ChunksOfCons(g: seq<seq<string>>)
    requires |g| > 0
    ensures ChunksOf(g) == Chunk(g[0]) + ChunksOf(g[1..])
  {
  }

  // ------------------------------------------------- the tag line of a note

  predicate Wordy(ws: seq<string>) {
    forall k :: 0 <= k < |ws| ==> |ws[k]| > 0 && NoSpace(ws[k])
  }

  /** The tags of a new note, in the order they are written. */
  function TagWords(f: NoteFacts, slugify: string -> string): seq<string> {
    Concat(TagGroups(f, slugify))
  }

  /** The text of the tag chunks is the tags joined by blanks, with a blank
      after the last one. */
  lemma {:induction false} ChunksJoin(groups: seq<seq<string>>)
    ensures Concat(ChunksOf(groups)) == if Concat(groups) == [] then "" else Join(" ", Concat(groups)) + " "
    decreases |groups|
  {
    if groups != [] {
      var g := groups[0];
      var rest := groups[1..];
      ChunksJoin(rest);
      ChunksOfCons(groups);
      ConcatAppend(Chunk(g), ChunksOf(rest));
      if g != [] {
        assert Concat(Chunk(g)) == Join(" ", g) + " " by {
          assert Chunk(g)[1..] == [];
        }
        if Concat(rest) != [] {
          JoinAppend(" ", g, Concat(rest));
        } else {
          assert Concat(groups) == g + [] == g;
          assert Concat(ChunksOf(groups)) == Join(" ", g) + " " + [];
          assert Join(" ", g) + " " + [] == Join(" ", g) + " ";
        }
      } else {
        assert Concat(groups) == Concat(rest);
      }
    }
  }

  lemma {:induction false} ConcatAppend<T>(a: seq<seq<T>>, b: seq<seq<T>>)
    ensures Concat(a + b) == Concat(a) + Concat(b)
    decreases |a|
  {
    if a == [] {
      assert a + b == b;
    } else {
      assert (a + b)[1..] == a[1..] + b;
      ConcatAppend(a[1..], b);
    }
  }

  lemma {:induction false} JoinAppend(sep: string, a: seq<string>, b: seq<string>)
    requires a != [] && b != []
    ensures Join(sep, a + b) == Join(sep, a) + sep + Join(sep, b)
    decreases |a|
  {
    if |a| == 1 {
      assert (a + b)[1..] == b;
    } else {
      assert (a + b)[1..] == a[1..] + b;
      JoinAppend(sep, a[1..], b);
    }
  }

  /** A trailing blank adds no word. */
  lemma {:induction false} WordsTrailingBlank(s: string)
    ensures Words(s + " ") == Words(s)
    decreases |s|
  {
    var t := s + " ";
    if s == [] {
      assert Words(t) == Words(t[1..]);
      assert t[1..] == [];
    } else if IsSpace(s[0]) {
      assert t[1..] == s[1..] + " ";
      WordsTrailingBlank(s[1..]);
    } else {
      var n := WordLength(s);
      WordLengthTrailingBlank(s);
      assert t[..n] == s[..n];
      assert t[n..] == s[n..] + " ";
      WordsTrailingBlank(s[n..]);
    }
  }

  lemma {:induction false} WordLengthTrailingBlank(s: string)
    ensures WordLength(s + " ") == WordLength(s)
    decreases |s|
  {
    if s != [] && !IsSpace(s[0]) {
      assert (s + " ")[1..] == s[1..] + " ";
      WordLengthTrailingBlank(s[1..]);
    }
  }

  lemma ConcatSix<T>(a: seq<T>, b: seq<T>, c: seq<T>, d: seq<T>, e: seq<T>, f: seq<T>)
    ensures Concat([a, b, c, d, e, f]) == a + b + c + d + e + f
  {
    assert [a, b, c, d, e, f][1..] == [b, c, d, e, f];
    assert [b, c, d, e, f][1..] == [c, d, e, f];
    assert [c, d, e, f][1..] == [d, e, f];
    assert [d, e, f][1..] == [e, f];
    assert [e, f][1..] == [f];
    assert [f][1..] == [];
    assert Concat([f]) == f + [] == f;
    assert Concat([e, f]) == e + f;
    assert Concat([d, e, f]) == d + (e + f);
    assert Concat([c, d, e, f]) == c + (d + (e + f));
    assert Concat([b, c, d, e, f]) == b + (c + (d + (e + f)));
  }

  /** Slugs that are non-empty and hold no blank. */
  predicate SlugsAreWords(slugify: string -> string, xs: seq<string>) {
    forall i :: 0 <= i < |xs| ==> |slugify(xs[i])| > 0 && NoSpace(slugify(xs[i]))
  }

  lemma HashtagsAreWords(slugify: string -> string, xs: seq<string>)
    requires SlugsAreWords(slugify, xs)
    ensures Wordy(Hashtags(Slugs(slugify, xs)))
  {
    forall k | 0 <= k < |xs| ensures NoSpace(Hashtags(Slugs(slugify, xs))[k]) {
      assert Hashtags(Slugs(slugify, xs))[k] == "#" + slugify(xs[k]);
    }
  }

  lemma RatingTagIsWord(halves: nat)
    ensures NoSpace(RatingTag(halves)) && EndsWith(RatingTag(halves), "rating")
  {
    NatToStringDigits(halves);
    var d := NatToString(halves);
    assert NoSpace(d) by {
      forall i | 0 <= i < |d| ensures !IsSpace(d[i]) {
        assert IsDigit(d[i]);
      }
    }
  }

  /** The tags of a new note, group after group. */
  lemma TagWordsLayout(f: NoteFacts, slugify: string -> string)
    ensures var g := TagGroups(f, slugify);
      TagWords(f, slugify) == g[0] + g[1] + g[2] + g[3] + g[4] + g[5]
  {
    var g := TagGroups(f, slugify);
    ConcatSix(g[0], g[1], g[2], g[3], g[4], g[5]);
    assert g == [g[0], g[1], g[2], g[3], g[4], g[5]];
  }

  /** Well-formed slugs, year and date make every tag a word. */
  lemma TagWordsAreWords(f: NoteFacts, slugify: string -> string)
    requires SlugsAreWords(slugify, f.directors) && SlugsAreWords(slugify, f.genres) && SlugsAreWords(slugify, f.countries)
    requires NoSpace(f.year) && NoSpace(LastN(f.watchedDate, 4))
    ensures Wordy(TagWords(f, slugify))
  {
    var g := TagGroups(f, slugify);
    TagWordsLayout(f, slugify);
    HashtagsAreWords(slugify, f.directors);
    HashtagsAreWords(slugify, f.genres);
    HashtagsAreWords(slugify, f.countries);
    RatingTagIsWord(f.halves);
    assert Wordy(g[1]) && Wordy(g[3]);
    assert Wordy(g[2]) by {
      if f.year != "" {
        assert NoSpace(DropLast(f.year));
      }
    }
    WordyAppend(g[0], g[1]);
    WordyAppend(g[0] + g[1], g[2]);
    WordyAppend(g[0] + g[1] + g[2], g[3]);
    WordyAppend(g[0] + g[1] + g[2] + g[3], g[4]);
    WordyAppend(g[0] + g[1] + g[2] + g[3] + g[4], g[5]);
  }

  lemma WordyAppend(a: seq<string>, b: seq<string>)
    requires Wordy(a) && Wordy(b)
    ensures Wordy(a + b)
  {
    forall k | 0 <= k < |a + b| ensures |(a + b)[k]| > 0 && NoSpace((a + b)[k]) {
      if k < |a| { assert (a + b)[k] == a[k]; } else { assert (a + b)[k] == b[k - |a|]; }
    }
  }

  /** Reading the tag line of a new note back gives its tags. */
  lemma TagLineWords(f: NoteFacts, slugify: string -> string)
    requires Wordy(TagWords(f, slugify))
    ensures Words(Concat(ChunksOf(TagGroups(f, slugify)))) == TagWords(f, slugify)
  {
    var tw := TagWords(f, slugify);
    TagWordsLayout(f, slugify);
    assert tw != [];
    ChunksJoin(TagGroups(f, slugify));
    WordsTrailingBlank(Join(" ", tw));
    WordsOfJoin(tw);
  }

  /** The tag line of a new note, read back and retagged for a viewing with
      the same rating and date, keeps its tags: only the final blank goes. */
  lemma NewTagLineStable(f: NoteFacts, slugify: string -> string)
    requires f.halves != 0
    requires SlugsAreWords(slugify, f.directors) && SlugsAreWords(slugify, f.genres) && SlugsAreWords(slugify, f.countries)
    requires forall i :: 0 <= i < |f.directors| ==> !EndsWith("#" + slugify(f.directors[i]), "rating")
    requires NoSpace(f.year) && NoSpace(LastN(f.watchedDate, 4))
    ensures Retag(Concat(ChunksOf(TagGroups(f, slugify))), f.halves, f.watchedDate) == Join(" ", TagWords(f, slugify))
  {
    var g := TagGroups(f, slugify);
    var tw := TagWords(f, slugify);
    TagWordsAreWords(f, slugify);
    TagLineWords(f, slugify);
    TagWordsLayout(f, slugify);
    RatingTagIsWord(f.halves);
    var j := |g[0]|;
    assert tw[j] == RatingTag(f.halves);
    forall k | 0 <= k < j ensures !EndsWith(tw[k], "rating") {
      assert tw[k] == g[0][k] == "#" + slugify(f.directors[k]);
    }
    FirstRatingTagIs(tw, j);
    assert tw[j := RatingTag(f.halves)] == tw;
    assert tw[j + |g[1]| + |g[2]|] == WatchedTag(f.watchedDate);
    assert RetagWords(tw, f.halves, f.watchedDate) == tw;
  }

  // ------------------------------------------------------ new note, main

  function FactsOf(m: Movie): NoteFacts {
    NoteFacts(m.extras.directors, m.starRating, m.halves, m.year, m.watchedDate, m.extras.genres, m.extras.countries)
  }

  /** The poster embed of a TMDB poster path, when there is one. */
  function TmdbPosterLines(posterPath: string): seq<string> {
    if posterPath != "" then ["![](https://image.tmdb.org/t/p/w185/" + posterPath + ")\n"] else []
  }

  /** `create_obsidian_note`: the poster embed, the link to the movie's page
      by its TMDB id, then the shared part. */
  method CreateNote(m: Movie, slugify: string -> string) returns (chunks: seq<string>)
    ensures chunks == TmdbPosterLines(m.extras.posterPath)
                      + ["[URL](https://letterboxd.com/tmdb/" + IntToString(m.tmdbId) + ")\n"]
                      + NoteBody(FactsOf(m), slugify)
  {
    chunks := [];
    if m.extras.posterPath != "" {
      chunks := chunks + ["![](https://image.tmdb.org/t/p/w185/" + m.extras.posterPath + ")\n"];
    }
    chunks := chunks + ["[URL](https://letterboxd.com/tmdb/" + IntToString(m.tmdbId) + ")\n"];
    var body := WriteNoteBody(FactsOf(m), slugify);
    chunks := chunks + body;
  }

  /** An entry as the bookkeeping sees it; only a movie with a rating and a
      year is rated. */
  function ViewingOf(entry: FeedEntry, details: int -> TmdbMovie): Viewing<Movie> {
    var m := MovieOf(entry, details);
    Viewing(entry.guid, m.id, m.watchedDate, m.halves != 0 && m.year != "", m)
  }

  function Viewings(entries: seq<FeedEntry>, details: int -> TmdbMovie): (vs: seq<Viewing<Movie>>)
    ensures |vs| == |entries|
  {
    seq(|entries|, i requires 0 <= i < |entries| => ViewingOf(entries[i], details))
  }

  /** `main`: the newest five entries, oldest first, through the
      bookkeeping; the actions say which notes to write and what to rate. */
  method ProcessFeed(entries: seq<FeedEntry>, details: int -> TmdbMovie, processed: Processed)
    returns (result: Processed, actions: seq<Action<Movie>>)
    ensures (result, actions) == Process(processed, Viewings(Window(entries), details))
  {
    var window := Window(entries);
    result, actions := ProcessViewings(processed, Viewings(window, details));
  }

  /** Entries past the fifth are never looked at. */
  lemma OnlyNewestFive(entries: seq<FeedEntry>, older: seq<FeedEntry>, details: int -> TmdbMovie, processed: Processed)
    requires |entries| >= WindowSize
    ensures Process(processed, Viewings(Window(entries + older), details))
         == Process(processed, Viewings(Window(entries), details))
  {
    assert (entries + older)[..WindowSize] == entries[..WindowSize];
  }
}
