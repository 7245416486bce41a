/**
  The session list screen of one conference day: the response callback that rebuilds the
  time-grouped sections, the paging rule that works around the API's cumulative pages, and
  the choice of the `clearCache` flag by the initial load and by a user refresh.
 */
module SessionList {
  import opened Wrappers
  import opened JsonValue
  import opened SessionModel
  import opened Grouping

  /** The grouping key of a session: its start time. */
  function StartTime(x: Session): Timestamp {
    x.schedule.startDateTime
  }

  /** One call of `cachedGetSessions` issued by the screen. */
  datatype PageRequest = PageRequest(dayId: int, pageNumber: int, clearCache: bool)

  /**
    The request the callback issues after `response`, if any. Pages are cumulative (page N
    holds everything of pages 1..N), so as soon as the page count is known the callback asks
    for the last page directly, with the day and flag the load was started with.
   */
  function NextPage(dayId: int, clearCache: bool, response: GetSessionsResponse): (r: Option<PageRequest>)
    ensures r.Some? <==> response.pageNumber < response.pagesCount
    ensures r.Some? ==> r.value == PageRequest(dayId, response.pagesCount, clearCache)
  {
    if response.pageNumber < response.pagesCount then
      Some(PageRequest(dayId, response.pagesCount, clearCache))
    else
      None
  }

  /** `indexOf` on the sections: the first position whose start time is `t`. */
  function IndexOfStart(secs: seq<Section<Session>>, t: Timestamp): (r: Option<nat>)
    ensures r.None? <==> forall i :: 0 <= i < |secs| ==> secs[i].0 != t
    ensures r.Some? ==> r.value < |secs| && secs[r.value].0 == t
    ensures r.Some? ==> forall i :: 0 <= i < r.value ==> secs[i].0 != t
  {
    if secs == [] then None
    else if secs[0].0 == t then Some(0)
    else
      match IndexOfStart(secs[1..], t)
      case None => None
      case Some(i) => Some(i + 1)
  }

  lemma SectionsOverSnoc<T>(s: seq<T>, key: T -> int, ks: seq<int>, k: int)
    ensures SectionsOver(s, key, ks + [k]) == SectionsOver(s, key, ks) + [(k, Bucket(s, key, k))]
  {
  }

  /** No section laid out so far starts at the next, larger key. */
  lemma NoEarlierSection(s: seq<Session>, key: Session -> int, sorted: seq<int>, j: nat)
    requires StrictlyIncreasing(sorted) && j < |sorted|
    ensures IndexOfStart(SectionsOver(s, key, sorted[..j]), sorted[j]) == None
  {
    var done := SectionsOver(s, key, sorted[..j]);
    assert forall i :: 0 <= i < |done| ==> done[i].0 == sorted[i] && sorted[i] < sorted[j];
  }

  /** The dictionary `groupBy` gives holds, for each sorted key, that key's bucket. */
  lemma GroupedBuckets(s: seq<Session>, grouped: map<Timestamp, seq<Session>>, sorted: seq<int>)
    requires grouped == GroupSpec(s, StartTime)
    requires forall x :: x in sorted <==> x in KeySet(s, StartTime)
    ensures forall j :: 0 <= j < |sorted| ==> sorted[j] in grouped && grouped[sorted[j]] == Bucket(s, StartTime, sorted[j])
  {
    forall j | 0 <= j < |sorted| ensures sorted[j] in grouped && grouped[sorted[j]] == Bucket(s, StartTime, sorted[j]) {
      var k := sorted[j];
      assert k in sorted;
      assert k in KeySet(s, StartTime);
      assert k in GroupSpec(s, StartTime);
    }
  }

  /** Filling the freshly opened last section with a bucket. */
  lemma FillOpenSection(done: seq<Section<Session>>, dt: int, items: seq<Session>)
    ensures var cur := done + [(dt, [])];
            cur[|done| := (cur[|done|].0, cur[|done|].1 + items)] == done + [(dt, items)]
  {
    var cur := done + [(dt, [])];
    assert cur[|done|].1 + items == items;
  }

  /** Laying out the section of key `sorted[j]` extends the prefix by one. */
  lemma SectionsStep(s: seq<Session>, sorted: seq<int>, j: nat)
    requires j < |sorted|
    ensures SectionsOver(s, StartTime, sorted[..j]) + [(sorted[j], Bucket(s, StartTime, sorted[j]))] ==
            SectionsOver(s, StartTime, sorted[..j + 1])
  {
    assert sorted[..j + 1] == sorted[..j] + [sorted[j]];
    SectionsOverSnoc(s, StartTime, sorted[..j], sorted[j]);
  }

  class SessionListController {
    /** The day whose sessions this screen shows. */
    var dayId: int
    /** The sections on screen: a start time and the sessions starting then. */
    var sessions: seq<Section<Session>>

    constructor()
      ensures dayId == 0 && sessions == []
    {
      dayId := 0;
      sessions := [];
    }

    /** `setLabel`: of the tab-bar item only the day id is kept here. */
    method SetLabel(newDayId: int)
      modifies this`dayId
      ensures dayId == newDayId
    {
      dayId := newDayId;
    }

    /** `loadDataAndClearCache`: the first request of a load is page 1 of the current day. */
    method LoadDataAndClearCache(clearCache: bool) returns (first: PageRequest)
      ensures first.dayId == dayId && first.pageNumber == 1 && first.clearCache == clearCache
    {
      first := PageRequest(dayId, 1, clearCache);
    }

    /** `viewDidLoad`: the initial load may be answered from the cache. */
    method ViewDidLoad() returns (first: PageRequest)
      ensures first == PageRequest(dayId, 1, false)
    {
      first := LoadDataAndClearCache(false);
    }

    /** `refresh`: a user refresh empties the screen and reloads bypassing the cache. */
    method Refresh() returns (first: PageRequest)
      modifies this`sessions
      ensures sessions == []
      ensures first == PageRequest(dayId, 1, true)
    {
      sessions := [];
      first := LoadDataAndClearCache(true);
    }

    /**
      The callback of a load started for `loadDayId` with `clearCache`: it empties the
      sections, groups the response's sessions by start time, appends one section per start
      time in ascending order (each holding its sessions in response order) and then decides
      on the next request. The new sections depend on this response alone.
     */
    method OnResponse(loadDayId: int, clearCache: bool, response: GetSessionsResponse)
      returns (next: Option<PageRequest>)
      modifies this`sessions
      ensures sessions == Sections(response.sessions, StartTime)
      ensures next == NextPage(loadDayId, clearCache, response)
    {
      var s := response.sessions;
      sessions := [];
      var grouped := GroupBy(s, StartTime);
      var sorted := SortedKeys(grouped.Keys);
      assert sorted == SortedKeys(KeySet(s, StartTime)) by {
        assert grouped.Keys == KeySet(s, StartTime);
      }
      GroupedBuckets(s, grouped, sorted);
      for j := 0 to |sorted|
        invariant sessions == SectionsOver(s, StartTime, sorted[..j])
      {
        var dt := sorted[j];
        var items := grouped[dt];
        NoEarlierSection(s, StartTime, sorted, j);
        ghost var done := sessions;
        var sectionIndex := IndexOfStart(sessions, dt);
        if sectionIndex.None? {
          sectionIndex := Some(|sessions|);
          sessions := sessions + [(dt, [])];
        }
        FillOpenSection(done, dt, items);
        AppendItems(sectionIndex.value, items);
        SectionsStep(s, sorted, j);
      }
      assert sorted[..|sorted|] == sorted;
      next := NextPage(loadDayId, clearCache, response);
    }

    /**
      The callback's inner loop: each item is appended to a copy of the section's list,
      which is then stored back (Swift arrays are values), so the section grows by `items`.
     */
    method AppendItems(at: nat, items: seq<Session>)
      requires at < |sessions|
      modifies this`sessions
      ensures sessions == old(sessions)[at := (old(sessions)[at].0, old(sessions)[at].1 + items)]
    {
      ghost var before := sessions;
      assert before[at].1 + items[..0] == before[at].1;
      assert before[at := (before[at].0, before[at].1)] == before;
      for m := 0 to |items|
        invariant sessions == before[at := (before[at].0, before[at].1 + items[..m])]
      {
        var coll := sessions[at].1;
        coll := coll + [items[m]];
        assert coll == before[at].1 + items[..m + 1] by {
          assert items[..m + 1] == items[..m] + [items[m]];
        }
        sessions := sessions[at := (sessions[at].0, coll)];
      }
      assert items[..|items|] == items;
    }
  }

  // ---------------------------------------------------------------------------
  // A whole load, as the sequence of requests it issues
  // ---------------------------------------------------------------------------

  /**
    The requests a load issues when `serve` answers each of them (`None`: the fetch failed
    and no callback fires), starting with `req` and following the callback's paging rule
    with the day and flag of `first`, for at most `fuel` requests.
   */
  function Chain(serve: PageRequest -> Option<GetSessionsResponse>, first: PageRequest,
                 req: PageRequest, fuel: nat): (r: seq<PageRequest>)
    ensures |r| <= fuel
    ensures fuel > 0 ==> r != [] && r[0] == req
    decreases fuel
  {
    if fuel == 0 then []
    else
      [req] +
      match serve(req)
      case None => []
      case Some(response) =>
        match NextPage(first.dayId, first.clearCache, response)
        case None => []
        case Some(next) => Chain(serve, first, next, fuel - 1)
  }

  /** The requests of the load the screen's `loadDataAndClearCache` starts. */
  function Load(serve: PageRequest -> Option<GetSessionsResponse>, dayId: int, clearCache: bool,
                fuel: nat): (r: seq<PageRequest>)
    ensures fuel > 0 ==> r != [] && r[0] == PageRequest(dayId, 1, clearCache)
  {
    var first := PageRequest(dayId, 1, clearCache);
    Chain(serve, first, first, fuel)
  }

  /** Every request after the first is for the day and flag of the load, and none exceeds the fuel. */
  lemma {:induction false} ChainKeepsDayAndFlag(serve: PageRequest -> Option<GetSessionsResponse>,
                                                first: PageRequest, req: PageRequest, fuel: nat)
    ensures |Chain(serve, first, req, fuel)| <= fuel
    ensures forall i :: 1 <= i < |Chain(serve, first, req, fuel)| ==>
              Chain(serve, first, req, fuel)[i].dayId == first.dayId &&
              Chain(serve, first, req, fuel)[i].clearCache == first.clearCache
    decreases fuel
  {
    if fuel > 0 {
      match serve(req)
      case None =>
      case Some(response) =>
        match NextPage(first.dayId, first.clearCache, response)
        case None =>
        case Some(next) =>
          ChainKeepsDayAndFlag(serve, first, next, fuel - 1);
          var tail := Chain(serve, first, next, fuel - 1);
          assert Chain(serve, first, req, fuel) == [req] + tail;
          if fuel > 1 {
            assert tail[0] == next;
          }
    }
  }

  /** A server whose answer to page `p` of the day says it is page `p` (or gives no answer). */
  ghost predicate EchoesPage(serve: PageRequest -> Option<GetSessionsResponse>, dayId: int, clearCache: bool) {
    forall p: int :: serve(PageRequest(dayId, p, clearCache)).Some? ==>
      serve(PageRequest(dayId, p, clearCache)).value.pageNumber == p
  }

  /**
    Against a server that echoes the page it is asked for, the pages requested strictly
    increase: no page is asked for twice.
   */
  lemma {:induction false} EchoedPagesIncrease(serve: PageRequest -> Option<GetSessionsResponse>,
                                               first: PageRequest, req: PageRequest, fuel: nat)
    requires EchoesPage(serve, first.dayId, first.clearCache)
    requires req.dayId == first.dayId && req.clearCache == first.clearCache
    ensures forall i, j :: 0 <= i < j < |Chain(serve, first, req, fuel)| ==>
              Chain(serve, first, req, fuel)[i].pageNumber < Chain(serve, first, req, fuel)[j].pageNumber
    ensures forall i :: 0 <= i < |Chain(serve, first, req, fuel)| ==>
              req.pageNumber <= Chain(serve, first, req, fuel)[i].pageNumber
    decreases fuel
  {
    if fuel > 0 {
      match serve(req)
      case None =>
      case Some(response) =>
        match NextPage(first.dayId, first.clearCache, response)
        case None =>
        case Some(next) =>
          assert response.pageNumber == req.pageNumber;
          EchoedPagesIncrease(serve, first, next, fuel - 1);
          var tail := Chain(serve, first, next, fuel - 1);
          var c := Chain(serve, first, req, fuel);
          assert c == [req] + tail;
          forall i, j | 0 <= i < j < |c| ensures c[i].pageNumber < c[j].pageNumber {
            assert c[j] == tail[j - 1];
            if i > 0 {
              assert c[i] == tail[i - 1];
            }
          }
    }
  }

  /** A server that answers every page of the day, always with the true total `total`. */
  ghost predicate Honest(serve: PageRequest -> Option<GetSessionsResponse>, dayId: int, clearCache: bool, total: int) {
    forall p: int :: serve(PageRequest(dayId, p, clearCache)).Some? &&
      serve(PageRequest(dayId, p, clearCache)).value.pageNumber == p &&
      serve(PageRequest(dayId, p, clearCache)).value.pagesCount == total
  }

  /**
    Against an honest server a load makes one request when there is at most one page and
    otherwise exactly two, page 1 and then the last page, never the pages in between.
   */
  lemma HonestLoadRequests(serve: PageRequest -> Option<GetSessionsResponse>, dayId: int,
                           clearCache: bool, total: int, fuel: nat)
    requires Honest(serve, dayId, clearCache, total)
    requires fuel >= 2
    ensures Load(serve, dayId, clearCache, fuel) ==
              if total <= 1 then [PageRequest(dayId, 1, clearCache)]
              else [PageRequest(dayId, 1, clearCache), PageRequest(dayId, total, clearCache)]
  {
    var first := PageRequest(dayId, 1, clearCache);
    var r1 := serve(first);
    assert r1.Some? && r1.value.pageNumber == 1 && r1.value.pagesCount == total;
    if total > 1 {
      var last := PageRequest(dayId, total, clearCache);
      var r2 := serve(last);
      assert r2.Some? && r2.value.pageNumber == total && r2.value.pagesCount == total;
      assert Chain(serve, first, last, fuel - 1) == [last];
    }
  }

  /** A page 1 that announces six pages, a page 6 that then claims a seventh, and a page 7. */
  function ClaimsSeventhPage(req: PageRequest): Option<GetSessionsResponse> {
    var count := if req.pageNumber == 1 then 6 else 7;
    Some(GetSessionsResponse(req.pageNumber, count, 0, []))
  }

  /**
    The callback follows every response's own page count: when the last page claims a
    larger count, a third request goes out, for that page.
   */
  lemma FinalPageClaimingMorePagesIsFollowed(dayId: int, clearCache: bool)
    ensures Load(ClaimsSeventhPage, dayId, clearCache, 5) ==
              [PageRequest(dayId, 1, clearCache), PageRequest(dayId, 6, clearCache), PageRequest(dayId, 7, clearCache)]
  {
    var first := PageRequest(dayId, 1, clearCache);
    var p6, p7 := PageRequest(dayId, 6, clearCache), PageRequest(dayId, 7, clearCache);
    assert Chain(ClaimsSeventhPage, first, p7, 3) == [p7];
    assert Chain(ClaimsSeventhPage, first, p6, 4) == [p6, p7];
  }

  /**
    A load never stops on its own while every answer puts its page number below its page
    count: each answer sends the callback to the page count again, so the requests use up
    all the fuel.
   */
  lemma {:induction false} ChainWithTrailingPageNumberUsesAllFuel(
    serve: PageRequest -> Option<GetSessionsResponse>, first: PageRequest, req: PageRequest, fuel: nat)
    requires forall q :: serve(q).Some? && serve(q).value.pageNumber < serve(q).value.pagesCount
    ensures |Chain(serve, first, req, fuel)| == fuel
    decreases fuel
  {
    if fuel > 0 {
      var response := serve(req).value;
      var next := PageRequest(first.dayId, response.pagesCount, first.clearCache);
      assert NextPage(first.dayId, first.clearCache, response) == Some(next);
      ChainWithTrailingPageNumberUsesAllFuel(serve, first, next, fuel - 1);
      assert Chain(serve, first, req, fuel) == [req] + Chain(serve, first, next, fuel - 1);
    }
  }

  /** Every page answered by a response without `PageNumber` that announces six pages. */
  function MissingPageNumber(req: PageRequest): Option<GetSessionsResponse> {
    Some(GetSessionsResponse(0, 6, 0, []))
  }

  /**
    A response dictionary without `PageNumber` decodes to page 0, so a final page that
    lacks the key still lies below its page count, and the load asks for that page again
    and again: it makes as many requests as the fuel allows, whatever the fuel.
   */
  lemma MissingPageNumberNeverStops(parse: DateParser, dayId: int, clearCache: bool, fuel: nat)
    ensures Some(DecodeResponse(map["PagesCount" := JInt(6)], parse)) == MissingPageNumber(PageRequest(dayId, 6, clearCache))
    ensures |Load(MissingPageNumber, dayId, clearCache, fuel)| == fuel
  {
    var first := PageRequest(dayId, 1, clearCache);
    ChainWithTrailingPageNumberUsesAllFuel(MissingPageNumber, first, first, fuel);
  }
}
