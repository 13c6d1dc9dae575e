/** The pagers of both movie-database clients (tmdb/api.py): the page range
    expands into one request per page, the asynchronous pager fetches them
    in batches and keeps only the pages that came back as dicts, the
    synchronous one fetches them one by one and keeps every answer; and the
    id list taken from the pages' `results`. */
module Pager {
  import opened Wrappers
  import opened Values
  import opened Text
  import opened Transport
  import opened Batching

  /** An omitted last page means the first page only. */
  function LastPage(first: int, last: Option<int>): int {
    match last
    case None => first
    case Some(l) => l
  }

  function RegionValue(region: Option<string>): Json {
    match region
    case None => JNull
    case Some(r) => JStr(r)
  }

  /** The parameters of one page task of the asynchronous pager: `page`,
      `language` and `region` (always present, `None` when not given), then
      updated with the change-date keys, which win. */
  function PageParams(page: int, language: string, region: Option<string>, changeDates: Params): Params {
    map["page" := JInt(page), "language" := JStr(language), "region" := RegionValue(region)] + changeDates
  }

  lemma PageParamsKeys(page: int, language: string, region: Option<string>, changeDates: Params)
    ensures var p := PageParams(page, language, region, changeDates);
      && p.Keys == {"page", "language", "region"} + changeDates.Keys
      && (forall k :: k in changeDates ==> p[k] == changeDates[k])
      && ("page" !in changeDates ==> p["page"] == JInt(page))
      && ("language" !in changeDates ==> p["language"] == JStr(language))
      && ("region" !in changeDates ==> p["region"] == RegionValue(region))
  {
  }

  /** The page tasks from `first` to `last`, in increasing page order. */
  function PageRequests(path: string, first: int, last: int, language: string, region: Option<string>, changeDates: Params)
    : seq<Request>
    decreases last - first
  {
    if last < first then []
    else
      [Request(path, PageParams(first, language, region, changeDates))]
      + PageRequests(path, first + 1, last, language, region, changeDates)
  }

  /** One request per page of the range, the i-th for page `first + i`. */
  lemma {:induction false} PageRequestsShape(path: string, first: int, last: int, language: string, region: Option<string>, changeDates: Params)
    ensures var rs := PageRequests(path, first, last, language, region, changeDates);
      && |rs| == (if last < first then 0 else last - first + 1)
      && forall i :: 0 <= i < |rs| ==> rs[i] == Request(path, PageParams(first + i, language, region, changeDates))
    decreases last - first
  {
    if first <= last {
      PageRequestsShape(path, first + 1, last, language, region, changeDates);
      var rs := PageRequests(path, first, last, language, region, changeDates);
      assert forall i :: 1 <= i < |rs| ==> rs[i] == PageRequests(path, first + 1, last, language, region, changeDates)[i - 1];
    }
  }

  /** Without a last page, exactly one request is made, for the first page. */
  lemma OmittedLastPage(path: string, first: int, language: string, region: Option<string>, changeDates: Params)
    ensures PageRequests(path, first, LastPage(first, None), language, region, changeDates)
         == [Request(path, PageParams(first, language, region, changeDates))]
  {
    assert PageRequests(path, first + 1, first, language, region, changeDates) == [];
  }

  /** The pages the asynchronous pager yields, stated as one wave over every
      page: each page that came back as a dict, in page order. */
  function PagesOutcome(net: Net, requests: seq<Request>, batchSize: int): Result<seq<Record>, Failure> {
    if batchSize == 0 then Err(InvalidBatchSize)
    else if batchSize < 0 then Ok([])
    else
      match FetchAll(net, requests, false)
      case Err(e) => Err(e)
      case Ok(vs) => Ok(Dicts(vs))
  }

  /** Failed pages are dropped: every page yielded is the dict answer of one
      request, every dict answer is yielded, and there are no more pages than
      requests. */
  lemma PagesOutcomeDropsFailures(net: Net, requests: seq<Request>, batchSize: int)
    requires batchSize > 0 && PagesOutcome(net, requests, batchSize).Ok?
    ensures var pages := PagesOutcome(net, requests, batchSize).value;
      && |pages| <= |requests|
      && (forall p :: p in pages ==> exists i :: 0 <= i < |requests| && FetchData(net, requests[i], false) == Ok(JObject(p)))
      && (forall i, p :: 0 <= i < |requests| && FetchData(net, requests[i], false) == Ok(JObject(p)) ==> p in pages)
  {
    var vs := FetchAll(net, requests, false).value;
    FetchAllSpec(net, requests, false);
    PartitionSizes(vs);
    DictsMembers(vs);
    forall p | p in Dicts(vs)
      ensures exists i :: 0 <= i < |requests| && FetchData(net, requests[i], false) == Ok(JObject(p))
    {
      var i :| 0 <= i < |vs| && vs[i] == JObject(p);
    }
    forall i, p | 0 <= i < |requests| && FetchData(net, requests[i], false) == Ok(JObject(p))
      ensures p in Dicts(vs)
    {
      assert vs[i] == JObject(p);
    }
  }

  /** Extending a wave by one more batch. */
  lemma WaveOfBatches(net: Net, batches: seq<seq<Request>>, k: nat)
    requires k < |batches|
    ensures FetchAll(net, Concat(batches[..k + 1]), false)
         == Combine(FetchAll(net, Concat(batches[..k]), false), FetchAll(net, batches[k], false))
  {
    ConcatSnoc(batches, k);
    FetchAllAppend(net, Concat(batches[..k]), batches[k], false);
  }

  /** A failing prefix of the batches fails the whole wave the same way. */
  lemma WaveOfBatchesFails(net: Net, batches: seq<seq<Request>>, k: nat)
    requires k <= |batches|
    requires FetchAll(net, Concat(batches[..k]), false).Err?
    ensures FetchAll(net, Concat(batches), false) == FetchAll(net, Concat(batches[..k]), false)
  {
    ConcatSplit(batches, k);
    FetchAllAppend(net, Concat(batches[..k]), Concat(batches[k..]), false);
  }

  /** The asynchronous `_fetch_pages`: build the page tasks, then fetch them
      batch by batch and keep each batch's dict results. */
  method FetchPages(net: Net, path: string, first: int, last: Option<int>, changeDates: Option<Params>,
                    language: string, region: Option<string>, batchSize: int)
    returns (r: Result<seq<Record>, Failure>)
    ensures r == PagesOutcome(net, PageRequests(path, first, LastPage(first, last), language, region, changeDates.GetOr(map[])),
                              batchSize)
  {
    var taskDetails := PageTasks(path, first, LastPage(first, last), language, region, changeDates.GetOr(map[]));
    r := FetchPageWave(net, taskDetails, batchSize);
  }

  /** The task list of `_fetch_pages`: one request per page from `first` to `lastPage`. */
  method PageTasks(path: string, first: int, lastPage: int, language: string, region: Option<string>, dates: Params)
    returns (tasks: seq<Request>)
    ensures tasks == PageRequests(path, first, lastPage, language, region, dates)
  {
    ghost var all := PageRequests(path, first, lastPage, language, region, dates);
    tasks := [];
    var page := first;
    while page <= lastPage
      invariant tasks + PageRequests(path, page, lastPage, language, region, dates) == all
      decreases lastPage - page
    {
      var detail := Request(path, PageParams(page, language, region, dates));
      assert PageRequests(path, page, lastPage, language, region, dates)
          == [detail] + PageRequests(path, page + 1, lastPage, language, region, dates);
      tasks := tasks + [detail];
      page := page + 1;
    }
    assert tasks + [] == tasks;
  }

  /** The batch loop of `_fetch_pages`: every batch's dict results, in order. */
  method FetchPageWave(net: Net, tasks: seq<Request>, batchSize: int) returns (r: Result<seq<Record>, Failure>)
    ensures r == PagesOutcome(net, tasks, batchSize)
  {
    if batchSize == 0 {
      return Err(InvalidBatchSize);
    }
    var allPages: seq<Record> := [];
    if batchSize > 0 {
      var batches := Batches(tasks, batchSize);
      ghost var done: seq<Json> := [];
      for k := 0 to |batches|
        invariant FetchAll(net, Concat(batches[..k]), false) == Ok(done)
        invariant allPages == Dicts(done)
      {
        WaveOfBatches(net, batches, k);
        var result := BatchFetch(net, batches[k], false);
        if result.Err? {
          WaveOfBatchesFails(net, batches, k + 1);
          BatchesCover(tasks, batchSize);
          return Err(result.error);
        }
        ghost var vs := FetchAll(net, batches[k], false).value;
        DictsAppend(done, vs);
        done := done + vs;
        allPages := allPages + result.value.0;
      }
      assert batches[..|batches|] == batches;
      BatchesCover(tasks, batchSize);
    }
    return Ok(allPages);
  }

  // ------------------------------------------------------ synchronous pager

  /** The parameters of one page of the synchronous pager: `region` only when given. */
  function SyncPageParams(page: int, language: string, region: Option<string>): (p: Params)
    ensures "page" in p && p["page"] == JInt(page)
    ensures "language" in p && p["language"] == JStr(language)
    ensures "region" in p <==> region.Some?
    ensures region.Some? ==> p["region"] == JStr(region.value)
    ensures p.Keys <= {"page", "language", "region"}
  {
    map["page" := JInt(page), "language" := JStr(language)]
    + (if region.Some? then map["region" := JStr(region.value)] else map[])
  }

  function SyncPageRequests(path: string, first: int, last: int, language: string, region: Option<string>): seq<Request>
    decreases last - first
  {
    if last < first then []
    else [Request(path, SyncPageParams(first, language, region))] + SyncPageRequests(path, first + 1, last, language, region)
  }

  /** Every page's answer in page order, or the first authorisation failure. */
  function SyncFetchAll(net: SyncNet, requests: seq<Request>): Result<seq<Json>, Failure>
    decreases |requests|
  {
    if requests == [] then Ok([])
    else
      match SyncFetchData(net, requests[0])
      case Err(e) => Err(e)
      case Ok(v) =>
        match SyncFetchAll(net, requests[1..])
        case Err(e) => Err(e)
        case Ok(vs) => Ok([v] + vs)
  }

  /** The synchronous pager keeps failed pages as `None` in their place: it
      fails only on an authorisation failure and otherwise yields exactly one
      answer per request. */
  lemma {:induction false} SyncFetchAllSpec(net: SyncNet, requests: seq<Request>)
    ensures var r := SyncFetchAll(net, requests);
      && (r.Err? <==> exists i :: 0 <= i < |requests| && SyncFetchData(net, requests[i]).Err?)
      && (r.Ok? ==> |r.value| == |requests|
                    && forall i :: 0 <= i < |requests| ==> SyncFetchData(net, requests[i]) == Ok(r.value[i]))
    decreases |requests|
  {
    if requests != [] {
      var tail := requests[1..];
      SyncFetchAllSpec(net, tail);
      assert forall i :: 1 <= i < |requests| ==> requests[i] == tail[i - 1];
      if SyncFetchData(net, requests[0]).Ok? && SyncFetchAll(net, tail).Err? {
        var i :| 0 <= i < |tail| && SyncFetchData(net, tail[i]).Err?;
        assert SyncFetchData(net, requests[i + 1]).Err?;
      }
    }
  }

  /** `done` followed by the answers of a remaining run of requests. */
  function After(done: seq<Json>, rest: Result<seq<Json>, Failure>): Result<seq<Json>, Failure> {
    match rest
    case Err(e) => Err(e)
    case Ok(vs) => Ok(done + vs)
  }

  /** One page of the synchronous pager: a failure ends the run, an answer
      joins the pages fetched so far. */
  lemma SyncPageStep(net: SyncNet, path: string, page: int, lastPage: int, language: string, region: Option<string>,
                     pages: seq<Json>)
    requires page <= lastPage
    ensures var rest := SyncFetchAll(net, SyncPageRequests(path, page + 1, lastPage, language, region));
      After(pages, SyncFetchAll(net, SyncPageRequests(path, page, lastPage, language, region)))
      == match SyncFetchData(net, Request(path, SyncPageParams(page, language, region)))
         case Err(e) => Err(e)
         case Ok(v) => After(pages + [v], rest)
  {
    var request := Request(path, SyncPageParams(page, language, region));
    var rest := SyncPageRequests(path, page + 1, lastPage, language, region);
    assert SyncPageRequests(path, page, lastPage, language, region) == [request] + rest;
    assert ([request] + rest)[1..] == rest;
    if SyncFetchData(net, request).Ok? && SyncFetchAll(net, rest).Ok? {
      var v, vs := SyncFetchData(net, request).value, SyncFetchAll(net, rest).value;
      assert (pages + [v]) + vs == pages + ([v] + vs);
    }
  }

  /** The synchronous `_fetch_pages`. */
  method SyncFetchPages(net: SyncNet, path: string, first: int, last: Option<int>, language: string, region: Option<string>)
    returns (r: Result<seq<Json>, Failure>)
    ensures r == SyncFetchAll(net, SyncPageRequests(path, first, LastPage(first, last), language, region))
  {
    var lastPage := LastPage(first, last);
    ghost var all := SyncFetchAll(net, SyncPageRequests(path, first, lastPage, language, region));
    var pages: seq<Json> := [];
    var page := first;
    if all.Ok? {
      assert [] + all.value == all.value;
    }
    while page <= lastPage
      invariant all == After(pages, SyncFetchAll(net, SyncPageRequests(path, page, lastPage, language, region)))
      decreases lastPage - page
    {
      var request := Request(path, SyncPageParams(page, language, region));
      SyncPageStep(net, path, page, lastPage, language, region, pages);
      var answer := SyncFetchData(net, request);
      if answer.Err? {
        return Err(answer.error);
      }
      pages := pages + [answer.value];
      page := page + 1;
    }
    assert pages + [] == pages;
    return Ok(pages);
  }

  // ----------------------------------------------------------- ids of pages

  /** What iterating over `page['results']` visits: a list's items; an empty
      dict or string visits nothing; anything else fails (a missing key, a
      type that cannot be iterated, or entries that cannot be indexed by a
      key). */
  function Entries(page: Record): Result<seq<Json>, Failure> {
    if "results" !in page then Err(Malformed)
    else
      match page["results"]
      case JList(items) => Ok(items)
      case JObject(fields) => if fields == map[] then Ok([]) else Err(Malformed)
      case JStr(s) => if s == "" then Ok([]) else Err(Malformed)
      case _ => Err(Malformed)
  }

  /** An entry that is kept: a dict with an `id`, and, when filtering, an
      `adult` flag that is not truthy. */
  predicate Kept(entry: Json, filterAdult: bool) {
    entry.JObject? && "id" in entry.fields
    && (filterAdult ==> "adult" in entry.fields && !Truthy(entry.fields["adult"]))
  }

  /** One entry of `results`: `None` when it is skipped as adult (movies only),
      its `id` otherwise. */
  function EntryId(entry: Json, filterAdult: bool): (r: Result<Option<Json>, Failure>)
    ensures r == Ok(None) <==> filterAdult && entry.JObject? && "adult" in entry.fields && Truthy(entry.fields["adult"])
    ensures (r.Ok? && r.value.Some?) <==> Kept(entry, filterAdult)
    ensures r.Ok? && r.value.Some? ==> r.value.value == entry.fields["id"]
  {
    if !entry.JObject? then Err(Malformed)
    else if filterAdult && "adult" !in entry.fields then Err(Malformed)
    else if filterAdult && Truthy(entry.fields["adult"]) then Ok(None)
    else if "id" in entry.fields then Ok(Some(entry.fields["id"]))
    else Err(Malformed)
  }

  function EntryIds(entries: seq<Json>, filterAdult: bool): Result<seq<Json>, Failure>
    decreases |entries|
  {
    if entries == [] then Ok([])
    else
      match EntryId(entries[0], filterAdult)
      case Err(e) => Err(e)
      case Ok(id) =>
        match EntryIds(entries[1..], filterAdult)
        case Err(e) => Err(e)
        case Ok(ids) => Ok((if id.Some? then [id.value] else []) + ids)
  }

  /** `[movie['id'] for page in pages for movie in page['results'] if not movie['adult']]`
      (the filter only when `filterAdult`). */
  function PageIds(pages: seq<Record>, filterAdult: bool): Result<seq<Json>, Failure>
    decreases |pages|
  {
    if pages == [] then Ok([])
    else
      match Entries(pages[0])
      case Err(e) => Err(e)
      case Ok(entries) =>
        match EntryIds(entries, filterAdult)
        case Err(e) => Err(e)
        case Ok(first) =>
          match PageIds(pages[1..], filterAdult)
          case Err(e) => Err(e)
          case Ok(rest) => Ok(first + rest)
  }

  /** The ids of one page's entries are exactly the ids of its kept entries. */
  lemma {:induction false} EntryIdsMembers(entries: seq<Json>, filterAdult: bool)
    requires EntryIds(entries, filterAdult).Ok?
    ensures var ids := EntryIds(entries, filterAdult).value;
      && (forall x :: x in ids ==> exists i :: 0 <= i < |entries| && Kept(entries[i], filterAdult) && entries[i].fields["id"] == x)
      && (forall i :: 0 <= i < |entries| && Kept(entries[i], filterAdult) ==> entries[i].fields["id"] in ids)
    decreases |entries|
  {
    if entries != [] {
      var tail := entries[1..];
      EntryIdsMembers(tail, filterAdult);
      assert forall i :: 1 <= i < |entries| ==> entries[i] == tail[i - 1];
      var ids := EntryIds(entries, filterAdult).value;
      forall x | x in ids ensures exists i :: 0 <= i < |entries| && Kept(entries[i], filterAdult) && entries[i].fields["id"] == x {
        if x !in EntryIds(tail, filterAdult).value {
          assert Kept(entries[0], filterAdult);
        } else {
          var j :| 0 <= j < |tail| && Kept(tail[j], filterAdult) && tail[j].fields["id"] == x;
          assert entries[j + 1] == tail[j];
        }
      }
    }
  }

  /** `x` is the id of a kept entry on one of the pages. */
  predicate KeptIdOnPages(pages: seq<Record>, x: Json, filterAdult: bool) {
    exists p, i :: 0 <= p < |pages| && Entries(pages[p]).Ok? && 0 <= i < |Entries(pages[p]).value|
                   && Kept(Entries(pages[p]).value[i], filterAdult) && Entries(pages[p]).value[i].fields["id"] == x
  }

  /** The ids taken from the pages are exactly the ids of kept entries, over all pages. */
  lemma {:induction false} PageIdsMembers(pages: seq<Record>, filterAdult: bool)
    requires PageIds(pages, filterAdult).Ok?
    ensures var ids := PageIds(pages, filterAdult).value;
      && (forall x :: x in ids <==> KeptIdOnPages(pages, x, filterAdult))
      && (forall p, i :: 0 <= p < |pages| && Entries(pages[p]).Ok? && 0 <= i < |Entries(pages[p]).value|
                         && Kept(Entries(pages[p]).value[i], filterAdult)
                         ==> Entries(pages[p]).value[i].fields["id"] in ids)
    decreases |pages|
  {
    if pages != [] {
      var tail := pages[1..];
      PageIdsMembers(tail, filterAdult);
      EntryIdsMembers(Entries(pages[0]).value, filterAdult);
      assert forall p :: 1 <= p < |pages| ==> pages[p] == tail[p - 1];
      var ids := PageIds(pages, filterAdult).value;
      forall x | x in ids
        ensures KeptIdOnPages(pages, x, filterAdult)
      {
        if x !in PageIds(tail, filterAdult).value {
          var i :| 0 <= i < |Entries(pages[0]).value| && Kept(Entries(pages[0]).value[i], filterAdult)
                   && Entries(pages[0]).value[i].fields["id"] == x;
        } else {
          var p, i :| 0 <= p < |tail| && Entries(tail[p]).Ok? && 0 <= i < |Entries(tail[p]).value|
                      && Kept(Entries(tail[p]).value[i], filterAdult) && Entries(tail[p]).value[i].fields["id"] == x;
          assert pages[p + 1] == tail[p];
        }
      }
      forall p, i | 0 <= p < |pages| && Entries(pages[p]).Ok? && 0 <= i < |Entries(pages[p]).value|
                    && Kept(Entries(pages[p]).value[i], filterAdult)
        ensures Entries(pages[p]).value[i].fields["id"] in ids
      {
        if p > 0 {
          assert pages[p] == tail[p - 1];
        }
      }
      forall x | KeptIdOnPages(pages, x, filterAdult) ensures x in ids {
        var p, i :| 0 <= p < |pages| && Entries(pages[p]).Ok? && 0 <= i < |Entries(pages[p]).value|
                    && Kept(Entries(pages[p]).value[i], filterAdult) && Entries(pages[p]).value[i].fields["id"] == x;
      }
    }
  }

  /** The ids keep page order: the ids of two page lists one after the other
      are the ids of the first list followed by those of the second. */
  lemma {:induction false} PageIdsAppend(a: seq<Record>, b: seq<Record>, filterAdult: bool)
    requires PageIds(a, filterAdult).Ok?
    ensures PageIds(a + b, filterAdult)
         == match PageIds(b, filterAdult)
            case Err(e) => Err(e)
            case Ok(v) => Ok(PageIds(a, filterAdult).value + v)
    decreases |a|
  {
    if a == [] {
      assert a + b == b;
      match PageIds(b, filterAdult)
      case Err(e) =>
      case Ok(v) => assert [] + v == v;
    } else {
      assert (a + b)[0] == a[0] && (a + b)[1..] == a[1..] + b;
      PageIdsAppend(a[1..], b, filterAdult);
      match PageIds(b, filterAdult)
      case Err(e) =>
      case Ok(v) =>
        var f := EntryIds(Entries(a[0]).value, filterAdult).value;
        var u := PageIds(a[1..], filterAdult).value;
        assert f + (u + v) == (f + u) + v;
    }
  }

  /** `fetch_top_rated_movie_ids`: the pager over `movie/top_rated`, then the
      ids of the non-adult entries in page order. */
  method FetchTopRatedMovieIds(net: Net, first: int, last: Option<int>, language: string, region: Option<string>, batchSize: int)
    returns (r: Result<seq<Json>, Failure>)
    ensures var pages := PagesOutcome(net, PageRequests("movie/top_rated", first, LastPage(first, last), language, region, map[]),
                                      batchSize);
      r == match pages
           case Err(e) => Err(e)
           case Ok(ps) => PageIds(ps, true)
  {
    var pages := FetchPages(net, "movie/top_rated", first, last, None, language, region, batchSize);
    if pages.Err? {
      return Err(pages.error);
    }
    r := PageIds(pages.value, true);
  }
}
