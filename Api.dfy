/**
  `ApiInterface`: the request for one page of sessions, the rule that decides whether
  a completed request hands its data on, the per-(day, page) response cache, and the
  cache-aware fetch that composes them with the decoders.

  All cache access runs on one serial queue in the source, so the cache is modelled as a
  map from file path to file contents that the methods read and replace one at a time.
  The network is an input: a function from the request to how the request completed.
 */
module Api {
  import opened Wrappers
  import opened JsonValue
  import opened SessionModel
  import opened FileNames

  newtype byte = x: int | 0 <= x < 256

  type Bytes = seq<byte>

  /**
    `NSJSONSerialization.JSONObjectWithData`: `None` when it throws. It belongs to
    Foundation, so the model takes it as a parameter.
   */
  type Deserializer = Bytes -> Option<Json>

  const SessionsUrl := "https://msignite.nz/webapi/searchApi/GetAllConfirmedFilteredSessions"
  const JsonContentType := "application/json; charset=utf-8"

  // ---------------------------------------------------------------------------
  // The request and how it completes
  // ---------------------------------------------------------------------------

  /** The request `internalGetSessions` builds; the body is shown before serialization. */
  datatype HttpRequest = HttpRequest(url: string, httpMethod: string, contentType: string, body: Object)

  /** The keys of the request body whose value is an empty filter list. */
  const EmptyFilterKeys := {"Topics", "Themes", "Audiences", "Products", "Levels", "Speakers"}

  /** The POST request for one page of one day's sessions. */
  function SessionsRequest(dayId: int, pageNumber: int): (r: HttpRequest)
    ensures r.url == SessionsUrl && r.httpMethod == "POST" && r.contentType == JsonContentType
    ensures r.body.Keys == EmptyFilterKeys +
              {"Dates", "SearchTerm", "PageNumber", "EncyrptedMemberId", "RegistrationId"}
    ensures forall k :: k in EmptyFilterKeys ==> r.body[k] == JArr([])
    ensures r.body["SearchTerm"] == JStr("") && r.body["EncyrptedMemberId"] == JStr("")
    ensures r.body["RegistrationId"] == JStr("0")
  {
    var empty := JArr([]);
    HttpRequest(SessionsUrl, "POST", JsonContentType, map[
      "Topics" := empty, "Themes" := empty, "Audiences" := empty, "Products" := empty,
      "Levels" := empty, "Speakers" := empty,
      "Dates" := JArr([JInt(dayId)]),
      "SearchTerm" := JStr(""),
      "PageNumber" := JInt(pageNumber),
      "EncyrptedMemberId" := JStr(""),
      "RegistrationId" := JStr("0")])
  }

  /** What the server reads from a request body: the single day and the page number. */
  function RequestedDayAndPage(body: Object): Option<(int, int)> {
    if "Dates" in body && body["Dates"].JArr? && |body["Dates"].items| == 1
       && body["Dates"].items[0].JInt? && HasInt(body, "PageNumber")
    then Some((body["Dates"].items[0].n, body["PageNumber"].n))
    else None
  }

  /** The request names exactly the day and page asked for. */
  lemma RequestNamesDayAndPage(dayId: int, pageNumber: int)
    ensures RequestedDayAndPage(SessionsRequest(dayId, pageNumber).body) == Some((dayId, pageNumber))
  {
  }

  /** Distinct (day, page) pairs give distinct requests. */
  lemma RequestInjective(d1: int, p1: int, d2: int, p2: int)
    requires SessionsRequest(d1, p1) == SessionsRequest(d2, p2)
    ensures d1 == d2 && p1 == p2
  {
    RequestNamesDayAndPage(d1, p1);
    RequestNamesDayAndPage(d2, p2);
  }

  /**
    How a data task completed: the status code when the response is an HTTP response,
    whether the task reported an error, and the body data if any.
   */
  datatype TaskCompletion = TaskCompletion(httpStatus: Option<int>, failed: bool, data: Option<Bytes>)

  type Network = HttpRequest -> TaskCompletion

  /**
    The completion handler of `internalGetSessions`: a status other than 200 drops the
    call, then an error drops it, and otherwise the data (if any) is handed on.
   */
  function ReceivedData(c: TaskCompletion): (r: Option<Bytes>)
    ensures r.Some? <==> (c.httpStatus.None? || c.httpStatus.value == 200) && !c.failed && c.data.Some?
    ensures r.Some? ==> r == c.data
  {
    if c.httpStatus.Some? && c.httpStatus.value != 200 then None
    else if c.failed then None
    else c.data
  }

  /** `internalGetSessions(dayId, pageNumber, callback)`: the data its callback receives, if it is called. */
  function InternalGetSessions(network: Network, dayId: int, pageNumber: int): (r: Option<Bytes>)
    ensures var c := network(SessionsRequest(dayId, pageNumber));
      && (r.Some? <==> (c.httpStatus.None? || c.httpStatus.value == 200) && !c.failed && c.data.Some?)
      && (r.Some? ==> r == c.data)
  {
    ReceivedData(network(SessionsRequest(dayId, pageNumber)))
  }

  // ---------------------------------------------------------------------------
  // The file store behind the cache
  // ---------------------------------------------------------------------------

  /** The documents directory: file path to file contents. */
  type FileStore = map<string, Bytes>

  /**
    `filePathForDay`: the documents directory with the component `"\(dayId)_\(pageNumber)"`
    appended, so the path lies directly inside the documents directory.
   */
  function FilePathForDay(documents: string, dayId: int, pageNumber: int): (r: string)
    ensures |r| > |documents| && r[..|documents| + 1] == documents + "/"
    ensures r[|documents| + 1..] == CacheFileName(dayId, pageNumber)
    ensures forall i :: |documents| < i < |r| ==> r[i] != '/'
  {
    var name := CacheFileName(dayId, pageNumber);
    var r := documents + "/" + name;
    assert forall i :: |documents| < i < |r| ==> r[i] == name[i - |documents| - 1];
    r
  }

  lemma FilePathInjective(documents: string, d1: int, p1: int, d2: int, p2: int)
    requires FilePathForDay(documents, d1, p1) == FilePathForDay(documents, d2, p2)
    ensures d1 == d2 && p1 == p2
  {
    var n := |documents| + 1;
    assert CacheFileName(d1, p1) == FilePathForDay(documents, d1, p1)[n..];
    assert CacheFileName(d2, p2) == FilePathForDay(documents, d2, p2)[n..];
    CacheFileNameInjective(d1, p1, d2, p2);
  }

  /** What `loadCacheForDay` finds for a key. */
  function Lookup(files: FileStore, documents: string, dayId: int, pageNumber: int): Option<Bytes> {
    var path := FilePathForDay(documents, dayId, pageNumber);
    if path in files then Some(files[path]) else None
  }

  /** The store after `saveCacheForDay` replaced the file of a key. */
  function Store(files: FileStore, documents: string, dayId: int, pageNumber: int, data: Bytes): FileStore {
    files[FilePathForDay(documents, dayId, pageNumber) := data]
  }

  /** After a save, a load of the same key returns exactly the saved data. */
  lemma LoadAfterSave(files: FileStore, documents: string, dayId: int, pageNumber: int, data: Bytes)
    ensures Lookup(Store(files, documents, dayId, pageNumber, data), documents, dayId, pageNumber) == Some(data)
  {
  }

  /** A save leaves every other key as it was. */
  lemma SaveKeepsOtherKeys(files: FileStore, documents: string, d: int, p: int, data: Bytes, d': int, p': int)
    requires (d', p') != (d, p)
    ensures Lookup(Store(files, documents, d, p, data), documents, d', p') == Lookup(files, documents, d', p')
  {
    if FilePathForDay(documents, d', p') == FilePathForDay(documents, d, p) {
      FilePathInjective(documents, d', p', d, p);
    }
  }

  /** A second save to a key replaces the first, leaving no trace of it. */
  lemma SecondSaveReplacesFirst(files: FileStore, documents: string, d: int, p: int, a: Bytes, b: Bytes)
    ensures Store(Store(files, documents, d, p, a), documents, d, p, b) == Store(files, documents, d, p, b)
  {
  }

  datatype CacheWrite = CacheWrite(dayId: int, pageNumber: int, data: Bytes)

  /** The store after a sequence of saves, in order. */
  function Replay(files: FileStore, documents: string, writes: seq<CacheWrite>): FileStore {
    if writes == [] then files
    else
      var w := writes[|writes| - 1];
      Store(Replay(files, documents, writes[..|writes| - 1]), documents, w.dayId, w.pageNumber, w.data)
  }

  /** The data of the last save to a key, if there was one. */
  function LastWrite(writes: seq<CacheWrite>, dayId: int, pageNumber: int): Option<Bytes> {
    if writes == [] then None
    else
      var w := writes[|writes| - 1];
      if w.dayId == dayId && w.pageNumber == pageNumber then Some(w.data)
      else LastWrite(writes[..|writes| - 1], dayId, pageNumber)
  }

  /**
    Starting from an empty documents directory, a load after any sequence of saves
    returns the data of the last save to that key, and nothing for a key never written.
   */
  lemma {:induction false} LoadAfterSaves(documents: string, writes: seq<CacheWrite>, dayId: int, pageNumber: int)
    ensures Lookup(Replay(map[], documents, writes), documents, dayId, pageNumber) ==
            LastWrite(writes, dayId, pageNumber)
  {
    if writes != [] {
      var w := writes[|writes| - 1];
      var before := Replay(map[], documents, writes[..|writes| - 1]);
      LoadAfterSaves(documents, writes[..|writes| - 1], dayId, pageNumber);
      if (w.dayId, w.pageNumber) != (dayId, pageNumber) {
        SaveKeepsOtherKeys(before, documents, w.dayId, w.pageNumber, w.data, dayId, pageNumber);
      }
    }
  }

  // ---------------------------------------------------------------------------
  // The API object
  // ---------------------------------------------------------------------------

  class ApiInterface {
    /** The application's documents directory. */
    const documents: string
    const deserialize: Deserializer
    const parseDate: DateParser
    /** The cache files on disk, which outlive the object. */
    var files: FileStore

    constructor (documents: string, deserialize: Deserializer, parseDate: DateParser, disk: FileStore)
      ensures this.documents == documents && this.deserialize == deserialize
      ensures this.parseDate == parseDate && files == disk
    {
      this.documents := documents;
      this.deserialize := deserialize;
      this.parseDate := parseDate;
      files := disk;
    }

    /** `saveCacheForDay`: the key's file is replaced by `data`; no other file changes. */
    method SaveCacheForDay(dayId: int, pageNumber: int, data: Bytes)
      modifies this`files
      ensures files == Store(old(files), documents, dayId, pageNumber, data)
    {
      var path := FilePathForDay(documents, dayId, pageNumber);
      if path in files {
        files := map p | p in files && p != path :: files[p];
      }
      files := files[path := data];
    }

    /** `loadCacheForDay`: the key's file contents, or nothing when it has no file. */
    method LoadCacheForDay(dayId: int, pageNumber: int) returns (data: Option<Bytes>)
      ensures data.Some? <==> FilePathForDay(documents, dayId, pageNumber) in files
      ensures data.Some? ==> data.value == files[FilePathForDay(documents, dayId, pageNumber)]
      ensures data == Lookup(files, documents, dayId, pageNumber)
    {
      data := None;
      var path := FilePathForDay(documents, dayId, pageNumber);
      if path !in files {
        return;
      }
      data := Some(files[path]);
    }

    /**
      `innerCallback`: the response the callback receives for some data, or nothing when
      the data does not deserialize to a JSON object.
     */
    function Deliver(data: Bytes): (r: Option<GetSessionsResponse>)
      ensures r.Some? <==> deserialize(data).Some? && deserialize(data).value.JObj?
      ensures r.Some? ==> r.value == DecodeResponse(deserialize(data).value.fields, parseDate)
    {
      match deserialize(data)
      case Some(JObj(x)) => Some(DecodeResponse(x, parseDate))
      case _ => None
    }

    /**
      `cachedGetSessions`: unless `clearCache` is set, a cached entry is decoded and
      delivered without a request; otherwise the page is fetched, saved, then decoded.
      `fetched` tells whether a request was issued; `delivered` is what the callback
      receives, `None` when it is never called.
     */
    method CachedGetSessions(dayId: int, pageNumber: int, clearCache: bool, network: Network)
      returns (delivered: Option<GetSessionsResponse>, fetched: bool)
      modifies this`files
      ensures fetched <==> clearCache || Lookup(old(files), documents, dayId, pageNumber).None?
      ensures !fetched ==> files == old(files) &&
                           delivered == Deliver(Lookup(old(files), documents, dayId, pageNumber).value)
      ensures fetched ==>
                match InternalGetSessions(network, dayId, pageNumber)
                case Some(data) =>
                  files == Store(old(files), documents, dayId, pageNumber, data) && delivered == Deliver(data)
                case None =>
                  files == old(files) && delivered == None
    {
      var cached: Option<Bytes> := None;
      if !clearCache {
        cached := LoadCacheForDay(dayId, pageNumber);
      }
      if cached.Some? {
        fetched := false;
        delivered := Deliver(cached.value);
      } else {
        fetched := true;
        var received := InternalGetSessions(network, dayId, pageNumber);
        match received {
          case Some(data) =>
            SaveCacheForDay(dayId, pageNumber, data);
            delivered := Deliver(data);
          case None =>
            delivered := None;
        }
      }
    }

    /** `getSessions`: always fetches and never touches the cache. */
    method GetSessions(dayId: int, pageNumber: int, network: Network)
      returns (delivered: Option<GetSessionsResponse>)
      ensures delivered.Some? ==>
                InternalGetSessions(network, dayId, pageNumber).Some? &&
                delivered == Deliver(InternalGetSessions(network, dayId, pageNumber).value)
      ensures InternalGetSessions(network, dayId, pageNumber).Some? ==>
                delivered == Deliver(InternalGetSessions(network, dayId, pageNumber).value)
    {
      delivered := None;
      var received := InternalGetSessions(network, dayId, pageNumber);
      if received.Some? {
        delivered := Deliver(received.value);
      }
    }
  }

  // ---------------------------------------------------------------------------
  // Clients of the API object: the cache behaviour seen from outside
  // ---------------------------------------------------------------------------

  /**
    Saving `a` then `b` under day 1, page 1 of an empty cache: each load returns the data
    saved last, and another key stays empty.
   */
  method CacheOverwriteScenario(documents: string, deserialize: Deserializer, parseDate: DateParser, a: Bytes, b: Bytes)
    returns (first: Option<Bytes>, second: Option<Bytes>, other: Option<Bytes>)
    ensures first == Some(a) && second == Some(b) && other == None
  {
    var api := new ApiInterface(documents, deserialize, parseDate, map[]);
    api.SaveCacheForDay(1, 1, a);
    first := api.LoadCacheForDay(1, 1);
    api.SaveCacheForDay(1, 1, b);
    second := api.LoadCacheForDay(1, 1);
    SaveKeepsOtherKeys(map[], documents, 1, 1, a, 2, 1);
    SaveKeepsOtherKeys(Store(map[], documents, 1, 1, a), documents, 1, 1, b, 2, 1);
    other := api.LoadCacheForDay(2, 1);
  }

  /**
    A request that fails (a status other than 200, or a transport error) calls nothing
    back and writes nothing to the cache.
   */
  method FailedFetchScenario(api: ApiInterface, dayId: int, pageNumber: int, clearCache: bool, network: Network)
    returns (delivered: Option<GetSessionsResponse>, stored: Option<Bytes>)
    requires var c := network(SessionsRequest(dayId, pageNumber));
             (c.httpStatus.Some? && c.httpStatus.value != 200) || c.failed
    requires Lookup(api.files, api.documents, dayId, pageNumber).None?
    modifies api
    ensures delivered == None && stored == None
  {
    var fetched;
    delivered, fetched := api.CachedGetSessions(dayId, pageNumber, clearCache, network);
    stored := api.LoadCacheForDay(dayId, pageNumber);
  }

  /**
    Data that does not deserialize to a JSON object is still cached when it is fetched;
    the next call without `clearCache` finds it, issues no request and again calls
    nothing back, so the page stays silent until a refresh.
   */
  method UndecodableEntryScenario(documents: string, deserialize: Deserializer, parseDate: DateParser,
                                  network: Network, dayId: int, pageNumber: int)
    returns (first: Option<GetSessionsResponse>, second: Option<GetSessionsResponse>, fetchedAgain: bool)
    requires var got := InternalGetSessions(network, dayId, pageNumber);
             got.Some? && !(deserialize(got.value).Some? && deserialize(got.value).value.JObj?)
    ensures first == None && second == None && !fetchedAgain
  {
    var api := new ApiInterface(documents, deserialize, parseDate, map[]);
    var fetched;
    first, fetched := api.CachedGetSessions(dayId, pageNumber, false, network);
    second, fetchedAgain := api.CachedGetSessions(dayId, pageNumber, false, network);
  }

  /**
    With `clearCache` set, a cached entry is ignored: the page is fetched, its fresh data is
    delivered and replaces the old entry.
   */
  method RefreshScenario(api: ApiInterface, dayId: int, pageNumber: int, network: Network)
    returns (delivered: Option<GetSessionsResponse>, fetched: bool, stored: Option<Bytes>)
    requires InternalGetSessions(network, dayId, pageNumber).Some?
    modifies api
    ensures fetched && stored == InternalGetSessions(network, dayId, pageNumber)
    ensures delivered == api.Deliver(InternalGetSessions(network, dayId, pageNumber).value)
  {
    delivered, fetched := api.CachedGetSessions(dayId, pageNumber, true, network);
    stored := api.LoadCacheForDay(dayId, pageNumber);
  }
}
