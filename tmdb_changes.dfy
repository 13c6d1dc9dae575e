/** `fetch_changed_ids` of the movie-database client (tmdb/api.py): a walk
    back over the last `days` days collecting the ids of changed movies or
    people. A day whose first page carries no total page count is retried
    on the next pass with the cursor left where it was.

    Days are integers (today is a parameter), `isoDate` renders a day the way
    `str(date)` does, and the network of pass `n` is `discover(n)` for the
    first-page request and `pages(n)` for the page wave. */
module Changes {
  import opened Wrappers
  import opened Values
  import opened Transport
  import opened Batching
  import opened Pager

  const MaxPage := 500
  const DiscoveryBatchSize := 100
  const DefaultLanguage := "en-US"

  datatype Cursor = Cursor(ids: set<Json>, day: int)

  function ChangesPath(kind: string): string { kind + "/changes" }

  /** Only movie pages are filtered for adult entries. */
  predicate FiltersAdult(kind: string) { kind == "movie" }

  function ChangesParams(date: string): (p: Params)
    ensures p.Keys == {"start_date", "end_date"}
    ensures p["start_date"] == p["end_date"] == JStr(date)
  {
    map["start_date" := JStr(date), "end_date" := JStr(date)]
  }

  /** The page count read from the first page: `None` when the key is missing
      or null (the day is skipped); `min` only accepts numbers. */
  function TotalPages(page: Record): (r: Result<Option<int>, Failure>)
    ensures r == Ok(None) <==> "total_pages" !in page || page["total_pages"] == JNull
    ensures r.Ok? && r.value.Some? ==> "total_pages" in page && AsInt(page["total_pages"]) == Some(r.value.value)
  {
    if "total_pages" !in page || page["total_pages"] == JNull then Ok(None)
    else
      match AsInt(page["total_pages"])
      case Some(n) => Ok(Some(n))
      case None => Err(Malformed)
  }

  /** The page tasks of one day's discovery request (page 1 only). */
  function DiscoveryRequests(kind: string, date: string): seq<Request> {
    PageRequests(ChangesPath(kind), 1, 1, DefaultLanguage, None, ChangesParams(date))
  }

  /** The page tasks of one day's page wave: pages 1 to `min(total, 500)`. */
  function DayRequests(kind: string, date: string, total: int): seq<Request> {
    PageRequests(ChangesPath(kind), 1, Min(total, MaxPage), DefaultLanguage, None, ChangesParams(date))
  }

  /** One pass of the loop: `None` when the day is skipped, else the ids it found. */
  function DayPass(discover: Net, pages: Net, kind: string, date: string, batchSize: int): Result<Option<seq<Json>>, Failure> {
    match PagesOutcome(discover, DiscoveryRequests(kind, date), DiscoveryBatchSize)
    case Err(e) => Err(e)
    case Ok(firstPages) =>
      if firstPages == [] then Err(EmptyPageList)
      else
        match TotalPages(firstPages[0])
        case Err(e) => Err(e)
        case Ok(None) => Ok(None)
        case Ok(Some(total)) =>
          match PagesOutcome(pages, DayRequests(kind, date, total), batchSize)
          case Err(e) => Err(e)
          case Ok(dayPages) =>
            match PageIds(dayPages, FiltersAdult(kind))
            case Err(e) => Err(e)
            case Ok(ids) => Ok(Some(ids))
  }

  /** The ids of a list, as `set.update` adds them. */
  function SetOf(xs: seq<Json>): (s: set<Json>)
    ensures forall x :: x in s <==> x in xs
  {
    set x | x in xs
  }

  /** What pass `n` finds when the cursor stands at `day`. */
  type Outcomes = (nat, int) -> Result<Option<seq<Json>>, Failure>

  function DayOutcomes(discover: nat -> Net, pages: nat -> Net, kind: string, isoDate: int -> string, batchSize: int): Outcomes {
    (n: nat, day: int) => DayPass(discover(n), pages(n), kind, isoDate(day), batchSize)
  }

  /** The state after `n` passes: a found day adds its ids and steps the
      cursor back; a skipped day changes nothing. */
  function Run(outcome: Outcomes, today: int, n: nat): Result<Cursor, Failure> {
    if n == 0 then Ok(Cursor({}, today))
    else
      match Run(outcome, today, n - 1)
      case Err(e) => Err(e)
      case Ok(c) =>
        match outcome(n - 1, c.day)
        case Err(e) => Err(e)
        case Ok(None) => Ok(c)
        case Ok(Some(found)) => Ok(Cursor(c.ids + SetOf(found), c.day - 1))
  }

  /** How many of the first `n` passes found their day (were not skipped). */
  function Successes(outcome: Outcomes, today: int, n: nat): nat {
    if n == 0 then 0
    else
      var before := Successes(outcome, today, n - 1);
      match Run(outcome, today, n - 1)
      case Err(_) => before
      case Ok(c) => if outcome(n - 1, c.day).Ok? && outcome(n - 1, c.day).value.Some? then before + 1 else before
  }

  function Passes(days: int): nat { if days > 0 then days else 0 }

  /** `fetch_changed_ids` as a function: the ids and the earliest date. */
  function ChangedIds(discover: nat -> Net, pages: nat -> Net, kind: string, isoDate: int -> string,
                      days: int, batchSize: int, today: int): Result<(set<Json>, int), Failure>
  {
    if kind != "movie" && kind != "person" then Err(InvalidIdsType)
    else
      match Run(DayOutcomes(discover, pages, kind, isoDate, batchSize), today, Passes(days))
      case Err(e) => Err(e)
      case Ok(c) => Ok((c.ids, c.day + 1))
  }

  /** The body of one pass of `fetch_changed_ids`: the discovery request
      for page 1 (whose `[0]` fails on an empty list), then, unless the page
      count is missing, the page wave and its ids. */
  method FetchDay(discover: Net, pages: Net, kind: string, date: string, batchSize: int)
    returns (d: Result<Option<seq<Json>>, Failure>)
    ensures d == DayPass(discover, pages, kind, date, batchSize)
  {
    var path := ChangesPath(kind);
    var params := ChangesParams(date);
    var firstPages := FetchPages(discover, path, 1, Some(1), Some(params), DefaultLanguage, None, DiscoveryBatchSize);
    assert firstPages == PagesOutcome(discover, DiscoveryRequests(kind, date), DiscoveryBatchSize);
    if firstPages.Err? {
      return Err(firstPages.error);
    }
    if firstPages.value == [] {
      return Err(EmptyPageList);
    }
    var total := TotalPages(firstPages.value[0]);
    if total.Err? {
      return Err(total.error);
    }
    if total.value.None? {
      return Ok(None);
    }
    var data := FetchPages(pages, path, 1, Some(Min(total.value.value, MaxPage)), Some(params), DefaultLanguage, None, batchSize);
    assert data == PagesOutcome(pages, DayRequests(kind, date, total.value.value), batchSize);
    if data.Err? {
      return Err(data.error);
    }
    var found := PageIds(data.value, FiltersAdult(kind));
    if found.Err? {
      return Err(found.error);
    }
    return Ok(Some(found.value));
  }

  /** `fetch_changed_ids`: one pass per day, `continue` on a day without a
      page count, otherwise collect its ids and step the cursor back. */
  method FetchChangedIds(discover: nat -> Net, pages: nat -> Net, kind: string, isoDate: int -> string,
                         days: int, batchSize: int, today: int)
    returns (r: Result<(set<Json>, int), Failure>)
    ensures r == ChangedIds(discover, pages, kind, isoDate, days, batchSize, today)
  {
    if kind != "movie" && kind != "person" {
      return Err(InvalidIdsType);
    }
    var curDate := today;
    var ids: set<Json> := {};
    ghost var outcome := DayOutcomes(discover, pages, kind, isoDate, batchSize);
    for n := 0 to Passes(days)
      invariant Run(outcome, today, n) == Ok(Cursor(ids, curDate))
    {
      var day := FetchDay(discover(n), pages(n), kind, isoDate(curDate), batchSize);
      assert outcome(n, curDate) == day;
      RunNext(outcome, today, n, Cursor(ids, curDate), day);
      if day.Err? {
        FailureSticks(outcome, today, n + 1, Passes(days));
        return Err(day.error);
      }
      if day.value.None? {
        continue;
      }
      ids := ids + SetOf(day.value.value);
      curDate := curDate - 1;
    }
    return Ok((ids, curDate + 1));
  }

  lemma RunNext(outcome: Outcomes, today: int, n: nat, c: Cursor, day: Result<Option<seq<Json>>, Failure>)
    requires Run(outcome, today, n) == Ok(c) && outcome(n, c.day) == day
    ensures day.Err? ==> Run(outcome, today, n + 1) == Err(day.error)
    ensures day == Ok(None) ==> Run(outcome, today, n + 1) == Ok(c)
    ensures day.Ok? && day.value.Some? ==> Run(outcome, today, n + 1) == Ok(Cursor(c.ids + SetOf(day.value.value), c.day - 1))
  {
  }

  /** A failing pass ends the walk: the failure is the outcome of every later pass count. */
  lemma {:induction false} FailureSticks(outcome: Outcomes, today: int, m: nat, n: nat)
    requires m <= n && Run(outcome, today, m).Err?
    ensures Run(outcome, today, n) == Run(outcome, today, m)
    decreases n - m
  {
    if m < n {
      FailureSticks(outcome, today, m, n - 1);
    }
  }

  /** The id set only grows from pass to pass. */
  lemma {:induction false} IdsNeverShrink(outcome: Outcomes, today: int, m: nat, n: nat)
    requires m <= n
    requires Run(outcome, today, n).Ok?
    ensures Run(outcome, today, m).Ok?
    ensures Run(outcome, today, m).value.ids <= Run(outcome, today, n).value.ids
    decreases n - m
  {
    if m < n {
      IdsNeverShrink(outcome, today, m, n - 1);
    }
  }

  /** The cursor stands one day back per successful pass. */
  lemma {:induction false} CursorCountsSuccesses(outcome: Outcomes, today: int, n: nat)
    requires Run(outcome, today, n).Ok?
    ensures Run(outcome, today, n).value.day == today - Successes(outcome, today, n)
  {
    if n > 0 {
      CursorCountsSuccesses(outcome, today, n - 1);
    }
  }

  /** The earliest date is today minus the number of successful passes plus one day. */
  lemma EarliestDate(discover: nat -> Net, pages: nat -> Net, kind: string, isoDate: int -> string,
                     days: int, batchSize: int, today: int)
    requires ChangedIds(discover, pages, kind, isoDate, days, batchSize, today).Ok?
    ensures ChangedIds(discover, pages, kind, isoDate, days, batchSize, today).value.1
         == today - Successes(DayOutcomes(discover, pages, kind, isoDate, batchSize), today, Passes(days)) + 1
  {
    CursorCountsSuccesses(DayOutcomes(discover, pages, kind, isoDate, batchSize), today, Passes(days));
  }

  /** With no days to look at, nothing is requested: the empty set and tomorrow. */
  lemma NoDays(discover: nat -> Net, pages: nat -> Net, kind: string, isoDate: int -> string,
               days: int, batchSize: int, today: int)
    requires kind == "movie" || kind == "person"
    requires days <= 0
    ensures ChangedIds(discover, pages, kind, isoDate, days, batchSize, today) == Ok(({}, today + 1))
  {
  }

  /** An unknown kind is rejected before any request: whatever the network
      would answer, the outcome is the same error. */
  lemma InvalidKindBeforeAnyRequest(discover: nat -> Net, pages: nat -> Net, discover': nat -> Net, pages': nat -> Net,
                                    kind: string, isoDate: int -> string, days: int, batchSize: int, today: int)
    requires kind != "movie" && kind != "person"
    ensures ChangedIds(discover, pages, kind, isoDate, days, batchSize, today) == Err(InvalidIdsType)
    ensures ChangedIds(discover', pages', kind, isoDate, days, batchSize, today) == Err(InvalidIdsType)
  {
  }

  lemma PageOf(page: int, date: string)
    ensures var p := PageParams(page, DefaultLanguage, None, ChangesParams(date));
      "page" in p && p["page"] == JInt(page)
  {
    assert "page" !in ChangesParams(date);
    PageParamsKeys(page, DefaultLanguage, None, ChangesParams(date));
  }

  /** A day's page wave asks for `min(total, 500)` pages, never more than 500,
      the i-th for page `i + 1`. */
  lemma PageCap(kind: string, date: string, total: int)
    ensures var rs := DayRequests(kind, date, total);
      && |rs| == (if total < 1 then 0 else Min(total, MaxPage))
      && |rs| <= MaxPage
      && forall i :: 0 <= i < |rs| ==> "page" in rs[i].params && rs[i].params["page"] == JInt(i + 1)
  {
    var rs := DayRequests(kind, date, total);
    PageRequestsShape(ChangesPath(kind), 1, Min(total, MaxPage), DefaultLanguage, None, ChangesParams(date));
    forall i | 0 <= i < |rs| ensures "page" in rs[i].params && rs[i].params["page"] == JInt(i + 1) {
      assert rs[i].params == PageParams(1 + i, DefaultLanguage, None, ChangesParams(date));
      PageOf(1 + i, date);
    }
  }

  /** A skipped day leaves the ids and the cursor as they were, so the next
      pass asks for the same date again. */
  lemma SkippedDayRetried(outcome: Outcomes, today: int, n: nat)
    requires Run(outcome, today, n).Ok?
    requires outcome(n, Run(outcome, today, n).value.day) == Ok(None)
    ensures Run(outcome, today, n + 1) == Run(outcome, today, n)
  {
  }

  /** A found day yields the ids of its kept entries: for movies the entries
      whose `adult` flag is not truthy, for people every entry with an id. */
  lemma DayPassIds(discover: Net, pages: Net, kind: string, date: string, batchSize: int, total: int, dayPages: seq<Record>)
    requires PagesOutcome(discover, DiscoveryRequests(kind, date), DiscoveryBatchSize).Ok?
    requires var first := PagesOutcome(discover, DiscoveryRequests(kind, date), DiscoveryBatchSize).value;
      first != [] && TotalPages(first[0]) == Ok(Some(total))
    requires PagesOutcome(pages, DayRequests(kind, date, total), batchSize) == Ok(dayPages)
    requires PageIds(dayPages, FiltersAdult(kind)).Ok?
    ensures DayPass(discover, pages, kind, date, batchSize) == Ok(Some(PageIds(dayPages, FiltersAdult(kind)).value))
    ensures forall x :: x in PageIds(dayPages, FiltersAdult(kind)).value <==> KeptIdOnPages(dayPages, x, FiltersAdult(kind))
  {
    PageIdsMembers(dayPages, FiltersAdult(kind));
  }
}
