# export-lb-logs, modelled in Dafny

The repository exports a Letterboxd diary into an Obsidian vault. It has
three pieces of logic, and this project models each one and proves what
they promise.

- **The TMDB movie-database client (`tmdb/api.py`).** It handles the
  results of its requests:
  - how one attempt of a request is classified;
  - how the five-attempt retry budget settles;
  - how by-id requests are batched, split into records and not-fetched
    markers, and deduplicated by `id`;
  - how a page range expands into page requests, for both clients;
  - how the ids of top-rated movies are read off their pages;
  - how `fetch_changed_ids` walks back day by day, collecting changed ids.
  The network is an oracle: `net(request, k)` is what the k-th attempt of a
  request gets back.
- **The note builder (`notes_creator/log_to_note.py`).** It covers:
  - note file names;
  - the movie id and the star string;
  - the record taken from TMDB details;
  - the rewrite of an existing note's lines;
  - the chunks a new note is written as;
  - the bookkeeping of `main` over the newest five feed entries.
- **The older builder (`NotesCreator/log_to_note.py`).** It shares the
  note logic. It adds the movie-link rewrite (`transform_url`), the choice of
  a Russian title, and a poster embed taken from a vault-relative path.

A note is the list of its lines. A new note is the list of chunks written to
it. The processed log maps a movie id to the dates it was watched on. A
rating is counted in half-points. `slugify`, `os.path.relpath`,
`str.isalpha`, `str.lower` and the TMDB and movie-page lookups are
parameters.

Modules, one file each:
- `Wrappers`: Option and Result.
- `Values`: JSON values.
- `Text`: the Python string operations used.
- `Transport`: one request.
- `Batching`: batches, waves, dedup and the by-id pipeline.
- `Pager`: both pagers and the top-rated ids.
- `Changes`: changed ids.
- `Processing`: the `main` bookkeeping shared by both builders.
- `Notes`: the newer builder.
- `LegacyNotes`: the older builder.

Where a method loops in the source, it is a Dafny method with a loop. It is
proved equal to a specification function, and the properties are lemmas
about that function.

## Model

| member | source | states |
|---|---|---|
| Transport.ClassifyAttempt | tmdb/api.py:355-377 | A body is returned as is. 401/403 is raised, and no other response raises an authorisation failure. A response is retryable exactly when it is 429/500/502/503/504 or a timeout, and 404 is never retried. For a by-id request, 404 gives the id parsed from the path and every other plain failure gives 0. For any other request, a plain failure gives None. |
| Transport.IdFromBuiltPath | tmdb/api.py:453 | Parsing the last segment of a path built as `kind/id` gives back the original integer id, negative ids included. |
| Transport.TraceShape | tmdb/api.py:338-343 | A request makes one to five attempts. Every attempt but the last raised a RetryableError. Fewer than five attempts means the last was not retryable. The outcome is settled by the last attempt alone. |
| Transport.ExhaustedMarker | tmdb/api.py:21-38 | After five retryable attempts, a by-id request with a path yields the marker 0 and any other request yields None. |
| Transport.RetriedThenReceived | tmdb/api.py:338-353 | A request that gets j retryable answers and then a body returns that body after exactly j + 1 attempts. |
| Transport.UnauthorizedNotRetried | tmdb/api.py:355-358 | An authorisation failure on the first attempt is raised after that one attempt; nothing is retried. |
| Transport.ByIdParams | tmdb/api.py:412-416 | `language` is present exactly when given. `append_to_response` is present exactly when given, as the comma-joined list. No other key is present. |
| Transport.SyncFetchData | tmdb/api.py:79-92 | The synchronous client fails exactly on 401/403, with that status. A body is returned as is. Every other failure gives None. |
| Transport.SyncFetchById | tmdb/api.py:143-150 | The synchronous by-id fetch sends one request with the by-id parameters. It fails exactly on an authorisation failure. It returns the body when one is received and None on every other failure. |
| Batching.BatchesCover | tmdb/api.py:422-423 | The batches joined back together are the path list, in order. Every batch is non-empty and holds at most `batch_size` paths. |
| Batching.BatchCount | tmdb/api.py:422-423 | The number of batches is the ceiling of n / batch_size, and 0 for no paths. |
| Batching.BatchSlice | tmdb/api.py:422-423 | The k-th batch is the slice of paths from k·size to min(k·size + size, n). |
| Batching.FetchAllSpec | tmdb/api.py:395 | A gathered wave either yields every request's own value in task order, or fails with the error of the first failing request, all earlier requests having succeeded. |
| Batching.FetchAllAppend | tmdb/api.py:425-426 | A wave over two task lists is the wave over the first followed by the wave over the second. |
| Batching.DictsMembers | tmdb/api.py:397-401 | Every dict response is among the results, and every result is a dict response. |
| Batching.NotDictsMembers | tmdb/api.py:397-401 | Every non-dict response is among the not-fetched markers, and every marker is a non-dict response. |
| Batching.PartitionSizes | tmdb/api.py:395-403 | The results and the not-fetched markers together number exactly the responses. |
| Batching.PartitionAppend | tmdb/api.py:425-426 | Splitting two waves in turn gives the same results and markers, in the same order, as splitting them together. |
| Batching.BatchFetch | tmdb/api.py:379-403 | `_batch_fetch` fails exactly when the gathered wave fails, with its error. Otherwise it returns the dict responses in order and the other responses in order, and their counts add up to the number of tasks. |
| Batching.DedupKeys | tmdb/api.py:429 | The keys of a dict built pair by pair are pairwise distinct, and they are exactly the keys of the input. |
| Batching.DedupLastWins | tmdb/api.py:429 | Each entry of the dict is the last input pair with its key. |
| Batching.DedupFirstOrder | tmdb/api.py:429 | The dict's entries follow the order in which their keys first appear in the input. |
| Batching.DedupById | tmdb/api.py:429 | Deduplication fails, with the missing-id error, exactly when some record has no `id`. |
| Batching.DedupByIdKept | tmdb/api.py:429 | Every kept record carries the id it was kept under, and is the last input record with that id. |
| Batching.DedupByIdDistinct | tmdb/api.py:429 | No two kept records share an id. |
| Batching.DedupByIdCovers | tmdb/api.py:429 | Every id of the input appears among the kept records. |
| Batching.DedupByIdLastWins | tmdb/api.py:429 | Every kept record is an input record with no later input record of the same id. |
| Batching.DedupByIdOrder | tmdb/api.py:429 | Kept records are ordered by the first appearance of their ids in the input. |
| Batching.ByIdRequests | tmdb/api.py:393 | One request per path, in path order, each with the shared parameters. |
| Batching.FetchById | tmdb/api.py:405-431 | `_fetch_by_id` fetching batch after batch gives exactly what one wave over all paths would give: the deduplicated records and the not-fetched markers in order. A batch size of 0 fails. A negative batch size fetches nothing. |
| Batching.ByIdWave | tmdb/api.py:421-426 | The batch loop of `_fetch_by_id` fails exactly when one wave over all paths fails, with the same failure. Otherwise it collects that wave's dict records and not-fetched markers, in order. |
| Pager.PageParamsKeys | tmdb/api.py:546-550 | A page task holds `page`, `language` and `region` (None when not given), plus the change-date keys. A change-date key overrides any of the three. |
| Pager.PageRequestsShape | tmdb/api.py:547-550 | There is one request per page from `first_page` to `last_page`, none when last < first. The i-th request is for page first + i. |
| Pager.OmittedLastPage | tmdb/api.py:540-541 | Without a last page, exactly one request is made, for the first page. |
| Pager.PagesOutcomeDropsFailures | tmdb/api.py:552-558 | There are no more pages than requests. Every page yielded is the dict answer of some request. Every dict answer is yielded. Failed pages are dropped. |
| Pager.FetchPages | tmdb/api.py:540-560 | The asynchronous `_fetch_pages` builds the page tasks in a loop and fetches them in batches. Its result is the dict answers of one wave over all page requests, in page order. |
| Pager.PageTasks | tmdb/api.py:546-550 | The task loop builds exactly one request per page from the first page to the last, in page order. |
| Pager.FetchPageWave | tmdb/api.py:552-560 | The batch loop keeps the dict answers of one wave over all the tasks, in task order. A batch size of 0 fails. A negative batch size fetches nothing. |
| Pager.SyncPageParams | tmdb/api.py:222-224 | A synchronous page request has `page` and `language`, and has `region` only when one is given. |
| Pager.SyncFetchAllSpec | tmdb/api.py:219-228 | The synchronous pager fails exactly when some page gets an authorisation failure. Otherwise it yields one answer per page, in order, failed pages kept as None. |
| Pager.SyncFetchPages | tmdb/api.py:213-228 | The synchronous `_fetch_pages` loop returns each page's answer in page order, or the first authorisation failure. |
| Pager.EntryId | tmdb/api.py:664 | An entry is skipped exactly when it is a dict whose `adult` is truthy and filtering is on. It yields an id exactly when it is kept, and the id is its `id` field. |
| Pager.EntryIdsMembers | tmdb/api.py:664 | The ids taken from one page's entries are exactly the ids of its kept entries. |
| Pager.PageIdsMembers | tmdb/api.py:664 | The ids taken from the pages are exactly the ids of kept entries, across all pages. |
| Pager.PageIdsAppend | tmdb/api.py:664 | The ids keep page order: those of two page lists are those of the first followed by those of the second. |
| Pager.FetchTopRatedMovieIds | tmdb/api.py:651-664 | `fetch_top_rated_movie_ids` runs the pager over `movie/top_rated` and returns the ids of the non-adult entries in page order. |
| Changes.ChangesParams | tmdb/api.py:757 | The parameters are `start_date` and `end_date`, both the day's date. |
| Changes.TotalPages | tmdb/api.py:761 | The day is skipped exactly when `total_pages` is missing or null. Otherwise the page count is the integer value of `total_pages`. |
| Changes.SetOf | tmdb/api.py:776 | The set added to the id set holds exactly the ids of the list. |
| Changes.FetchDay | tmdb/api.py:756-780 | One pass fetches page 1. An empty page list raises. A missing page count skips the day. Otherwise the page wave runs and the ids are collected. |
| Changes.FetchChangedIds | tmdb/api.py:732-784 | The loop of `fetch_changed_ids` computes the ids and the earliest date that the fold over the days defines. |
| Changes.RunNext | tmdb/api.py:761-780 | A failed pass ends the walk with its error. A skipped day leaves the state as it was. A found day adds its ids and steps the cursor back one day. |
| Changes.FailureSticks | tmdb/api.py:759 | A failure in any pass is the outcome of every later pass count. |
| Changes.IdsNeverShrink | tmdb/api.py:775-778 | Across passes, the id set never shrinks. |
| Changes.CursorCountsSuccesses | tmdb/api.py:780 | The cursor stands one day back per pass that found its day. |
| Changes.EarliestDate | tmdb/api.py:782 | The earliest date is today minus the number of successful passes, plus one day. |
| Changes.NoDays | tmdb/api.py:755 | With `days <= 0`, the result is the empty set and tomorrow. |
| Changes.InvalidKindBeforeAnyRequest | tmdb/api.py:747-748 | A kind other than movie or person is rejected, whatever the network would answer. |
| Changes.PageCap | tmdb/api.py:769 | A day's wave asks for min(total, 500) pages, never more than 500, the i-th for page i + 1. |
| Changes.SkippedDayRetried | tmdb/api.py:761-763 | A skipped day leaves the ids and the cursor unchanged, so the next pass asks for the same date. |
| Changes.DayPassIds | tmdb/api.py:775-778 | A found day yields exactly the ids of its kept entries: non-adult entries for movies, every entry for people. |
| Processing.Window | notes_creator/log_to_note.py:182 | At most five entries are taken, the first five of the feed, in reverse order. |
| Processing.ProcessViewings | notes_creator/log_to_note.py:182-197 | The loop of `main` equals the bookkeeping fold. It stops at the first entry that is neither a watch nor a review and skips an already recorded date. Any other entry gets its date appended, with an update for a known id, or a new note plus a rating for a new id that has a rating and a year. The older builder's twin, at NotesCreator/log_to_note.py lines 263-277, is the same code. |
| Processing.OtherIdsUntouched | notes_creator/log_to_note.py:197 | An id that no entry carries keeps its dates, and no new id appears. |
| Processing.RecordedSkipped | notes_creator/log_to_note.py:188-189 | An entry whose date is already recorded under its id changes neither the map nor the actions. The older builder's twin, at NotesCreator/log_to_note.py lines 268-269, is the same code. |
| Processing.StopsAtFirstNonViewing | notes_creator/log_to_note.py:183-184 | Nothing after the first entry that is neither a watch nor a review is looked at. The older builder's twin, at NotesCreator/log_to_note.py lines 264-265, is the same code. |
| Processing.DatesOnlyGrow | notes_creator/log_to_note.py:197 | Every id keeps its recorded dates as a prefix of its new dates. |
| Processing.NoDateTwice | notes_creator/log_to_note.py:188-197 | A log with no repeated dates per id keeps that property. |
| Processing.ViewingsRecorded | notes_creator/log_to_note.py:188-197 | Every entry before the first stop ends up recorded under its id. |
| Notes.Sanitize | notes_creator/log_to_note.py:23-24 | A sanitised title holds none of the nine illegal file-name characters. |
| Notes.SanitizeFixesLegal | notes_creator/log_to_note.py:17-24 | Sanitising leaves a title unchanged exactly when it has no illegal character. Sanitising twice is sanitising once. |
| Notes.MovieFilePath | notes_creator/log_to_note.py:20-27 | The replace loop gives the vault path joined with `title - year.md`, or `title.md` without a year, for the sanitised title. The older builder's twin, at NotesCreator/log_to_note.py lines 30-35, is the same code. |
| Notes.FileNameIsIdStem | notes_creator/log_to_note.py:72 | The note's file name is the movie id of the sanitised title plus `.md`, and the movie id itself plus `.md` for a legal title. |
| Notes.NotePathEndsInFileName | notes_creator/log_to_note.py:25-26 | Under a vault directory, the note path's last segment is the file name; no slash of the title survives. |
| Notes.StarCounts | notes_creator/log_to_note.py:75 | `int(rating * 10 % 10) // 5` is the half-star count h mod 2. The star string has h div 2 full stars and h mod 2 half stars. |
| Notes.StarRatingInjective | notes_creator/log_to_note.py:75 | Different ratings give different star strings. |
| Notes.StarRatingEmpty | notes_creator/log_to_note.py:75 | The star string is empty exactly for rating 0, which the note shows as `none`. |
| Notes.DecadeOfYear | notes_creator/log_to_note.py:159 | For a year of digits, the decade tag names the year rounded down to its decade. |
| Notes.WatchedTagOfDate | notes_creator/log_to_note.py:161 | For a four-digit year, the watched tag of a `dd.mm.yyyy` date names that year. |
| Notes.DirectorNamesAppend | notes_creator/log_to_note.py:53-56 | The directors of two crew lists one after the other are the first list's directors followed by the second's. Crew order is kept. |
| Notes.DirectorNamesMembers | notes_creator/log_to_note.py:53-56 | A name is a director name exactly when some crew member with job `Director` carries it. |
| Notes.FetchDataFromTmdb | notes_creator/log_to_note.py:48-66 | The loop collects the directors' names in crew order; genres and countries pass through. A missing or empty original title or poster path becomes `''`. |
| Notes.MovieIdOfEntry | notes_creator/log_to_note.py:72 | An entry without a year is known by its title alone. A legal title's note file is its id plus `.md`. |
| Notes.FirstRatingTag | notes_creator/log_to_note.py:112-115 | The index found is that of the first tag ending in `rating`, or the tag count when there is none. |
| Notes.UpdateNote | notes_creator/log_to_note.py:95-126 | A missing or empty note is left alone. Otherwise the in-place rewrite of ratings, watch line and tags gives exactly the updated note. The older builder's twin, at NotesCreator/log_to_note.py lines 183-212, is the same code. |
| Notes.UpdatedNoteShape | notes_creator/log_to_note.py:103-108 | The note gains exactly one line. Every `**Rating:**` line shows the new stars, and every other line is kept. The watch line sits just before the last line. The last line is the tag line, retagged only for a non-zero rating. The older builder's twin, at NotesCreator/log_to_note.py lines 189-194, is the same code. |
| Notes.RetagWordsSpec | notes_creator/log_to_note.py:110-122 | After retagging, the first tag ending in `rating` is the new rating tag and the watched tag is present. The tag list grows by at most two. Every other old tag keeps its place. The older builder's twin, at NotesCreator/log_to_note.py lines 196-208, is the same code. |
| Notes.RetagWordsIdempotent | notes_creator/log_to_note.py:119-120 | Retagging again with the same rating and date adds no second rating or watched tag. |
| Notes.RetagIdempotent | notes_creator/log_to_note.py:110-122 | The tag line itself is stable under a repeated viewing with the same rating and date. |
| Notes.UnratedKeepsTags | notes_creator/log_to_note.py:110 | With rating 0, the tag line is untouched by the retagging. |
| Notes.HashJoin | notes_creator/log_to_note.py:153 | `'#' + ' #'.join(xs)` is the hashtags of `xs` joined by blanks. |
| Notes.WriteDirectorHeader | notes_creator/log_to_note.py:140-146 | The header is `Directors:` for several directors, `Director:` for one, and `Director: not found` for none. |
| Notes.WriteHashtags | notes_creator/log_to_note.py:163-167 | A list of names is written as one chunk of hashtags of their slugs, and as nothing when there are no names. |
| Notes.WriteTags | notes_creator/log_to_note.py:152-167 | The tags are written group by group, one chunk per non-empty group: directors, rating, decade, watched year, genres, countries. |
| Notes.WriteNoteBody | notes_creator/log_to_note.py:140-167 | After the link, a new note holds the director header, the rating line, the rule, the watch line and the tag chunks, in that order. The older builder's twin, at NotesCreator/log_to_note.py lines 226-253, is the same code. |
| Notes.ChunksJoin | notes_creator/log_to_note.py:152-167 | The tag chunks spell out all tags joined by blanks, with a blank after the last. |
| Notes.TagLineWords | notes_creator/log_to_note.py:152-167 | Splitting a new note's tag line gives back its tags. |
| Notes.NewTagLineStable | notes_creator/log_to_note.py:110-122 | Retagging a new note's tag line for the same rating and date keeps every tag; only the final blank goes. |
| Notes.CreateNote | notes_creator/log_to_note.py:129-167 | A new note is the TMDB poster line (when there is a poster), the link by TMDB id, then the shared body. |
| Notes.ProcessFeed | notes_creator/log_to_note.py:170-199 | `main` runs the newest five entries, oldest first, through the bookkeeping. The actions say which notes to update, which to create and which movies to rate. |
| Notes.OnlyNewestFive | notes_creator/log_to_note.py:182 | Entries past the fifth change nothing. |
| LegacyNotes.StripUserCutsFirstOccurrence | NotesCreator/log_to_note.py:41 | When the user name occurs, its first occurrence and the character after it are removed, and the rest is kept in order. |
| LegacyNotes.StripUserAbsent | NotesCreator/log_to_note.py:41 | Without the user name, the link becomes all but its last character followed by its tail from the user name's length on. |
| LegacyNotes.DropDigitSegmentSpec | NotesCreator/log_to_note.py:40-42 | The substitution changes a link exactly when it ends in a one-digit segment (before an optional final newline). It then keeps the slash before the digit. |
| LegacyNotes.FilmLinkOfRewatch | NotesCreator/log_to_note.py:39-43 | A diary link `<site><user>/film/<slug>/<n>/` becomes the film page `<site>film/<slug>/`. |
| LegacyNotes.Titles | NotesCreator/log_to_note.py:94-96 | There is one stripped title per piece of the text split at `, `. |
| LegacyNotes.RussianTitle | NotesCreator/log_to_note.py:93-105 | The result is None exactly when no title has all of its letters lowering into U+0430..U+044F. Otherwise it is the first title that does. A letter whose lower case is longer than one character is ignored, as the swallowed exception does. |
| LegacyNotes.YoExcluded | NotesCreator/log_to_note.py:100 | A title holding `ё` is never picked. |
| LegacyNotes.NoLettersQualifies | NotesCreator/log_to_note.py:97-105 | A title with no letters qualifies. |
| LegacyNotes.LegacyMovieIdOfEntry | NotesCreator/log_to_note.py:153-159 | Without a year the id is the title alone, with a year it is `title - year`, and the page is looked up by the transformed link. |
| LegacyNotes.PosterEmbedAfterBackslash | NotesCreator/log_to_note.py:223 | The poster embed keeps the relative path after its first backslash, or all of it when there is none. |
| LegacyNotes.CreateLegacyNote | NotesCreator/log_to_note.py:216-253 | A new note is the poster embed (when a poster was saved), the link to the movie page, then the body shared with the newer builder. |
| LegacyNotes.LegacyProcessFeed | NotesCreator/log_to_note.py:257-279 | `main` runs the newest five entries, oldest first, through the shared bookkeeping. |

## Left out

- HTTP transport is left out: sessions, URL building, the transport adapter's own retries, request timeouts and event-loop handling. The network is an oracle, `net(request, attempt)`. The synchronous client sees one answer per request.
- Rate limiting and the back-off waits between attempts are left out. Only the count of five attempts is modelled.
- Batching.FetchAll: models `asyncio.gather` as a sequential map in task order. The first failing task's exception is the one raised, and the concurrency itself is not modelled.
- Transport.FetchData: the oracle answers a repeated request the same way within one pass. `fetch_changed_ids` gets a fresh oracle per pass.
- Python's `int()` also accepts surrounding whitespace and digit underscores. Only optionally signed runs of ASCII digits are parsed here.
- Shape errors on pages (a missing `results`, a non-dict entry, a missing `id` or `adult`) are all one `Malformed` failure. The exception types are not distinguished.
- Ids compare as JSON values. Python's cross-type equality (`1 == 1.0 == True`) is not modelled.
- Floats are left out. A rating is a count of half-points, so `float(...)` on the feed's rating, and the float arithmetic of the star string, are assumed exact.
- Notes.ProcessFeed: the exceptions that abort `main` before the processed log is saved are not modelled. In the source, one raise inside the loop loses that run's log additions while the notes written and ratings sent stay; the model always returns the new map. The exceptions are:
  - the 401/403 that the synchronous client re-raises through `fetch_movie_by_id`;
  - a crew entry without `job`, a `KeyError`;
  - a crew entry whose `name` is JSON null: the model reads it as `''`, where Python appends None and the `', '.join` of the director header raises.
- LegacyNotes.LegacyProcessFeed: the same holds for the older builder, whose movie-page lookup is total here.
- Batching.DedupById: an id that is a JSON list or object is unhashable in Python, so the dedup raises a `TypeError`; the model's map accepts it.
- Changes.FetchChangedIds: an unhashable id (a JSON list or object) added to the id set raises a `TypeError` in Python; the model's set accepts it.
- `int(entry.get('tmdb_movieid', 0))` is assumed to succeed. The TMDB id is an integer input.
- `datetime.now()` and `timedelta` are left out: days are integers and today is a parameter. `str(date)` is the parameter `isoDate`.
- `strftime('%d.%m.%Y')` is modelled for the day, month and year numbers. Years below 1000, which `%Y` pads differently by platform, are not distinguished.
- File I/O is left out: `read_note`, note writing, `load_movies`/`save_movies` and `add_to_not_rated`. A note is the list of lines read, or None when the file is missing. A new note is the list of chunks written. The processed log is a map from id to dates.
- The Kinopoisk call in `send_to_kp` is left out, as is its fall-back to the not-rated file. Both are browser automation. Only the decision to rate (a new movie with a rating and a year) is a `Rate` action.
- `feedparser` and the feed are left out. An entry is a typed record whose missing fields are None.
- `fetch_movie_by_id` in the note builder is the lookup parameter `details`, returning typed TMDB details. A None response, which would make `fetch_data_from_tmdb` raise, is not modelled.
- The older builder's `open_movie_page`, `fetch_data_from_movie_page` (BeautifulSoup and JSON-LD scraping) and `download_poster` are left out. The page data and the saved poster path are a lookup parameter, `page`.
- The older builder's year defaults to the integer 0 when missing. Like an empty year, it is only ever used as a truth value, so both are the empty year here.
- `slugify`, `os.path.relpath`, `str.isalpha` and `str.lower` are parameters.
- `os.path.join` is modelled for POSIX paths.
- The `\d` of `transform_url` matches only ASCII digits here, where Python's also matches other Unicode decimal digits.
- Configuration, logging, `ensure_directories` and the environment variables are left out.
- The older builder's `main` reads `LB_USERNAME`, which is the parameter `user`.
- `fetch_genres`, the configuration fetchers and the other endpoint wrappers of `tmdb/api.py` are not part of this model. They only pass a path to the paths above.
- The changed-ids guard at `tmdb/api.py:761` tests for a missing first page. The `[0]` at line 759 raises first on an empty page list, since failed pages are dropped. The model follows the code: the guard only sees a page without `total_pages`.
