# MSIgnite2015 session pipeline, modelled in Dafny

This project models the core of the MSIgnite2015 iOS conference client. That core has two parts.

- **`ApiInterface`** builds the POST request for one page of one day's sessions. It hands a data task's data on only when there is no error, there is data, and, when the response is an HTTP response, its status is 200. It keeps the raw response of every (day, page) in a file named `"<day>_<page>"` under the documents directory. `cachedGetSessions` either answers from that file or fetches and saves. Every answer is decoded into `GetSessionsResponse` / `Session` / `Speaker` / `Schedule` / `SessionDetails` records, which never fail: a missing or mistyped field takes a fixed default.
- **`SessionListViewController`** groups a response's sessions by start time with `groupBy`. It lays the groups out as sections in ascending time and follows the API's cumulative paging: page N holds everything of pages 1..N, so after page 1 only the last page is asked for.

Modules, in dependency order:

| file | module | contents |
|---|---|---|
| `Wrappers.dfy` | `Wrappers` | `Option` |
| `JsonValue.dfy` | `JsonValue` | untyped JSON values and the Swift casts `as? String`, `as? Int`, `as? [String:AnyObject]`, `as? [[String:AnyObject]]` |
| `SessionModel.dfy` | `SessionModel` | the records, their decoders and default initialisers, and an encoder for each record with the decode-after-encode round trips |
| `FileNames.dfy` | `FileNames` | decimal rendering of `Int` and injectivity of the cache file name |
| `Api.dfy` | `Api` | the request, the completion rule, the file store, and the class `ApiInterface` with its cache and the cache-aware fetch |
| `Grouping.dfy` | `Grouping` | `groupBy` as a method specified by a function, sorted keys, sections, permutation proofs |
| `SessionList.dfy` | `SessionList` | the screen, as a class whose `sessions` field the response callback rebuilds; the paging rule; and whole loads as request chains |

The model works on these stand-ins:

- **Time.** Timestamps are integers, and `NSDate(timeIntervalSince1970: 0)` is `Epoch = 0`.
- **Date formatter.** `Schedule.parseDate` (an `NSDateFormatter`) is a function parameter `string -> Option<Timestamp>`.
- **JSON parser.** `NSJSONSerialization.JSONObjectWithData` is a function parameter `Bytes -> Option<Json>`, where `None` stands for a throw.
- **Network.** The network is a parameter. It maps the request to how the task completed: the status code when the response is an HTTP response, whether an error was reported, and the data.
- **Server, at load level.** Whole loads are modelled against a parameter `serve` that answers each page request or gives no answer.

## Model

| member | source | states |
|---|---|---|
| JsonValue.CastObjects | MSIgnite2015/ApiInterface.swift:283-287 | the cast to an array of objects succeeds exactly when every element is an object, and then keeps the length and each element's fields in order |
| JsonValue.ObjectArrayAt | MSIgnite2015/ApiInterface.swift:314-318 | `d[key] as? [[String:AnyObject]]` gives a list exactly when the key holds an array of objects, with the same length and the elements' fields in order |
| SessionModel.DecodeSpeaker | MSIgnite2015/ApiInterface.swift:171-182 | `id`, `name`, `photoPath`, `bio` are the key's string when it holds one and `""` otherwise; `twitterUsername` is `""` whatever the input |
| SessionModel.DecodeSchedule | MSIgnite2015/ApiInterface.swift:212-223 | the start time is the parsed date when `StartDatetime` is a string the parser accepts, the epoch otherwise; the registration id is the int or 0; the strings are the value or `""`; `isToday` is false |
| SessionModel.NewSchedule | MSIgnite2015/ApiInterface.swift:208-210 | `Schedule()` is the all-defaults schedule |
| SessionModel.DecodeDetails | MSIgnite2015/ApiInterface.swift:239-245 | each of the five fields is the key's string or `""` |
| SessionModel.NewDetails | MSIgnite2015/ApiInterface.swift:235-237 | `SessionDetails()` is the all-`""` record |
| SessionModel.DecodeSession | MSIgnite2015/ApiInterface.swift:278-299 | int fields are the value or 0, string fields the value or `""`; `speakers` has the length and order of `Speakers` with element i decoded from element i when `Speakers` is an array of objects, and is empty otherwise; `schedule`/`details` are the decoded nested object or the default record; `isCommonSession` is false |
| SessionModel.NewSession | MSIgnite2015/ApiInterface.swift:274-276 | `Session()` is the all-defaults session |
| SessionModel.DecodeResponse | MSIgnite2015/ApiInterface.swift:309-319 | page number, page count and registration id are the int or 0; `sessions` has the length and order of `Sessions`, element-wise decoded, when it is an array of objects, and is empty otherwise |
| SessionModel.EmptyObjectDecodesToDefaults | MSIgnite2015/ApiInterface.swift:208-210 | decoding the empty dictionary gives the all-defaults record, for all five record types |
| SessionModel.SampleSessionDecodes | MSIgnite2015/ApiInterface.swift:249-262 | a sample session in the wire format: its id 92 and name "Internet Explorer and Edge in the Enterprise [M336]" come from the sample in the comment beside `Session`; its one speaker, its venue "New Zealand 1 (SKYCITY)" and its level "Level 300" come from the samples beside `Speaker`, `Schedule` and `SessionDetails`. It decodes to exactly those values, with the parser's result (or the epoch) as start time |
| SessionModel.SpeakerRoundTrip | MSIgnite2015/ApiInterface.swift:177-182 | any speaker with an empty Twitter name is recovered by decoding its wire encoding |
| SessionModel.ScheduleRoundTrip | MSIgnite2015/ApiInterface.swift:212-223 | a schedule is recovered from its encoding whenever `isToday` is false and the parser inverts the formatter on its start time |
| SessionModel.DetailsRoundTrip | MSIgnite2015/ApiInterface.swift:239-245 | every details record is recovered from its encoding |
| SessionModel.SessionRoundTrip | MSIgnite2015/ApiInterface.swift:278-299 | a session is recovered from its encoding, speakers and nested records included, when its constant fields hold their constants |
| SessionModel.ResponseRoundTrip | MSIgnite2015/ApiInterface.swift:309-319 | a response is recovered from its encoding when each of its sessions is |
| FileNames.NatToString | MSIgnite2015/ApiInterface.swift:55 | the decimal form of a natural number is nonempty, all digits, and a single digit exactly below 10 |
| FileNames.IntToString | MSIgnite2015/ApiInterface.swift:55 | the decimal form of an `Int` is digits with a leading `-` exactly when it is negative |
| FileNames.IntToStringInjective | MSIgnite2015/ApiInterface.swift:55 | different integers interpolate to different strings |
| FileNames.CacheFileName | MSIgnite2015/ApiInterface.swift:55 | the name holds exactly one `_`, with the day's decimal form before it and the page's after it, and no `/`, so it is a single path component |
| FileNames.CacheFileNameInjective | MSIgnite2015/ApiInterface.swift:55 | `"\(dayId)_\(pageNumber)"` determines both the day and the page |
| Api.SessionsRequest | MSIgnite2015/ApiInterface.swift:120-136 | a POST with the JSON content type to the sessions URL; the body has exactly the eleven keys, empty filter arrays, empty search term and member id, and registration id `"0"` |
| Api.RequestNamesDayAndPage | MSIgnite2015/ApiInterface.swift:132-134 | the body names exactly the one day and the page asked for |
| Api.RequestInjective | MSIgnite2015/ApiInterface.swift:124-136 | different (day, page) pairs give different requests |
| Api.ReceivedData | MSIgnite2015/ApiInterface.swift:144-161 | the callback receives data exactly when there is no HTTP status or it is 200, no error is reported and there is data, and then it receives that data |
| Api.InternalGetSessions | MSIgnite2015/ApiInterface.swift:116-163 | for the sessions request of the day and page, the callback receives data exactly when the completion carries data, no error, and no HTTP status other than 200, and then it receives that data |
| Api.FilePathForDay | MSIgnite2015/ApiInterface.swift:52-58 | the path is the documents directory, a `/`, and the cache file name of the key, with no further `/` after the documents directory |
| Api.FilePathInjective | MSIgnite2015/ApiInterface.swift:52-58 | distinct keys have distinct cache paths |
| Api.LoadAfterSave | MSIgnite2015/ApiInterface.swift:36-73 | a load after a save of the same key returns exactly the saved data |
| Api.SaveKeepsOtherKeys | MSIgnite2015/ApiInterface.swift:36-50 | a save leaves what every other key loads unchanged |
| Api.SecondSaveReplacesFirst | MSIgnite2015/ApiInterface.swift:40-48 | a second save to a key leaves the store as if only it had happened |
| Api.LoadAfterSaves | MSIgnite2015/ApiInterface.swift:36-73 | from an empty directory, a load after any sequence of saves returns the last data saved for that key, and nothing for a key never saved |
| Api.ApiInterface.SaveCacheForDay | MSIgnite2015/ApiInterface.swift:36-50 | only the key's file changes, and it now holds the data |
| Api.ApiInterface.LoadCacheForDay | MSIgnite2015/ApiInterface.swift:60-73 | returns the key's file contents when the file exists, nothing otherwise |
| Api.ApiInterface.Deliver | MSIgnite2015/ApiInterface.swift:76-87 | a response is delivered exactly when the data deserializes to a JSON object, and it is that object decoded |
| Api.ApiInterface.CachedGetSessions | MSIgnite2015/ApiInterface.swift:75-98 | a request is issued exactly when `clearCache` is set or the key has no file; without one the cache is unchanged and the cached data is decoded; with one, received data is saved under the key and decoded, and a failed request delivers nothing and writes nothing |
| Api.ApiInterface.GetSessions | MSIgnite2015/ApiInterface.swift:100-113 | delivers exactly the decoded fetched data, and only when the fetch handed data on |
| Api.CacheOverwriteScenario | MSIgnite2015/ApiInterface.swift:36-73 | on an empty cache, saving `a` then `b` under one key loads `a` then `b`, and another key loads nothing |
| Api.FailedFetchScenario | MSIgnite2015/ApiInterface.swift:146-155 | a non-200 status or a transport error gives no callback and no cache entry |
| Api.UndecodableEntryScenario | MSIgnite2015/ApiInterface.swift:76-97 | fetched data that is not a JSON object is cached but never delivered, and the next cached call neither fetches nor delivers |
| Api.RefreshScenario | MSIgnite2015/ApiInterface.swift:89-97 | with `clearCache` set a request is always issued, and its data is delivered and becomes the key's entry |
| Grouping.BucketEmptyIff | MSIgnite2015/SessionListViewController.swift:26-33 | a key's bucket is empty exactly when no element has that key |
| Grouping.GroupSpecSnoc | MSIgnite2015/SessionListViewController.swift:28-31 | one more element either appends to its key's bucket or opens a bucket holding just it |
| Grouping.GroupBy | MSIgnite2015/SessionListViewController.swift:26-33 | the dictionary has one entry per key that occurs, holding exactly the elements with that key in input order |
| Grouping.BucketKeepsInputOrder | MSIgnite2015/SessionListViewController.swift:28-31 | a bucket is the elements at the positions with its key, all of them and no others, at increasing positions |
| Grouping.GroupSpecPlacesEveryElement | MSIgnite2015/SessionListViewController.swift:26-33 | every element is in its key's bucket, no bucket is empty, and no bucket holds an element of another key |
| Grouping.SortedKeys | MSIgnite2015/SessionListViewController.swift:75 | the keys laid out by strictly ascending value, each key once and no other |
| Grouping.Sections | MSIgnite2015/SessionListViewController.swift:74-92 | one section per distinct start time, start times strictly ascending, each section the nonempty bucket of its time |
| Grouping.FlattenIsPermutation | MSIgnite2015/SessionListViewController.swift:77-92 | sections over a duplicate-free list covering every key hold each element exactly as often as the input does |
| Grouping.SectionsArePermutation | MSIgnite2015/SessionListViewController.swift:72-92 | the sections concatenated are a permutation of the input, so their sizes add up to its length |
| SessionList.NextPage | MSIgnite2015/SessionListViewController.swift:97-103 | a further request is made exactly when the page number is below the page count, and it is for the page count, with the load's day and flag |
| SessionList.IndexOfStart | MSIgnite2015/SessionListViewController.swift:81 | finds nothing exactly when no section has the start time, otherwise the first section that has it |
| SessionList.SessionListController.SetLabel | MSIgnite2015/SessionListViewController.swift:40-45 | the screen's day becomes the given day |
| SessionList.SessionListController.LoadDataAndClearCache | MSIgnite2015/SessionListViewController.swift:106-107 | the first request is page 1 of the screen's day with the given flag |
| SessionList.SessionListController.ViewDidLoad | MSIgnite2015/SessionListViewController.swift:55-57 | the initial load asks for page 1 without clearing the cache |
| SessionList.SessionListController.Refresh | MSIgnite2015/SessionListViewController.swift:47-53 | a refresh empties the sections and asks for page 1 with `clearCache` set |
| SessionList.SessionListController.OnResponse | MSIgnite2015/SessionListViewController.swift:66-104 | after a response the sections are exactly `Sections` of its sessions by start time, whatever was on screen before, and the next request is `NextPage` of the response |
| SessionList.SessionListController.AppendItems | MSIgnite2015/SessionListViewController.swift:87-91 | copying a section's list, appending and storing it back for each item grows that section by the items and changes no other |
| SessionList.Chain | MSIgnite2015/SessionListViewController.swift:97-107 | a chain of requests starts with the request it is given and is never longer than its fuel |
| SessionList.Load | MSIgnite2015/SessionListViewController.swift:107 | a load's first request is page 1 of its day with its flag |
| SessionList.ChainKeepsDayAndFlag | MSIgnite2015/SessionListViewController.swift:97-99 | every later request of a load has the load's day and `clearCache` flag, and the chain never exceeds its bound |
| SessionList.EchoedPagesIncrease | MSIgnite2015/SessionListViewController.swift:97-99 | against a server that echoes the page asked for, the pages requested strictly increase, so none is asked for twice |
| SessionList.HonestLoadRequests | MSIgnite2015/SessionListViewController.swift:69-107 | against an honest server a load requests page 1 only when there is at most one page, and otherwise exactly page 1 and then the last page, never the pages between |
| SessionList.FinalPageClaimingMorePagesIsFollowed | MSIgnite2015/SessionListViewController.swift:97-99 | a last page that claims a larger count is followed: page 1 claiming 6 and page 6 claiming 7 give requests for pages 1, 6 and 7 |
| SessionList.ChainWithTrailingPageNumberUsesAllFuel | MSIgnite2015/SessionListViewController.swift:97-99 | when every answer's page number is below its page count, a chain makes as many requests as its fuel allows: the load never stops on its own |
| SessionList.MissingPageNumberNeverStops | MSIgnite2015/ApiInterface.swift:310 | a response without `PageNumber` decodes to page 0, so a load answered by such a response with a page count of 6 requests page 6 again and again, as often as the fuel allows |

## Left out

- Networking with `NSURLSession` is not modelled: the data task, `task.resume()`, the `NSURL` guard and the serialization of the request body. The request is the body as a JSON value, and how the task completed is an input.
- `saveCacheForDay` runs asynchronously on the serial cache queue. It is modelled as taking effect before anything later reads the cache. Delivery of callbacks on the callback queue, and `dispatch_once`, are concurrency and are not modelled.
- `NSFileManager` and the documents-directory lookup are modelled as an in-memory map from path to contents. Two things are dropped:
  - the `""` path `filePathForDay` returns when the lookup does not give exactly one directory. No file exists at that path and none can be created there, so every load would miss and every save would be lost;
  - a failure to delete the old file, which is only logged.
- `stringByAppendingPathComponent` is modelled as joining with `/`.
- `NSJSONSerialization` and `NSDateFormatter` are not modelled. They are function parameters, so nothing is said about their behaviour. NSNumber bridging behind `as? Int` (booleans and floats reading as ints) is not modelled either.
- `Schedule.endDateTime` is not modelled: it reads the current clock and is never used.
- `NSLog` is not modelled; it has no effect on state.
- UIKit is not modelled. This covers:
  - the table-view data source methods, cells, spinner, tab-bar item and `reloadData`;
  - `SessionDetailsViewController.swift` and `MainTabBarController.swift`.
- Of `setLabel`, only the day id is modelled.
- Two overlapping refreshes racing each other, and the `[weak self]` capture, concern concurrency and object lifetime. They are not modelled.
- SessionList.Chain: a load is modelled as at most `fuel` requests. The real load goes on without end whenever each answer keeps its page number below its page count. That happens when the server keeps raising the count. It also happens when the last page reports a page number below its count, for instance when the response has no `PageNumber` and the number decodes to 0. Without `clearCache`, each repeat is answered from the cache, so the loop uses no network. The bound leaves these unending loads out; `ChainWithTrailingPageNumberUsesAllFuel` and `MissingPageNumberNeverStops` show that such a load uses up any fuel it is given.
- SessionList.Chain: `serve` stands for a whole `cachedGetSessions` call. Cache behaviour within a load is stated separately on `ApiInterface`.
- Grouping.SortedKeys: the source sorts the (start time, bucket) pairs with the comparison "not descending". The model orders the keys instead; the start times are distinct, so the order is the same.

## Notes

- A load follows the page count of every response, the last page's included. When the last page claims a larger count, another request goes out; `SessionList.FinalPageClaimingMorePagesIsFollowed` shows the third request this causes.
- Each response's callback replaces the sections. So page 1's sessions stay on screen until the last page arrives, and then the last page's sessions replace them. `OnResponse` models that replacement.
- The app has no encoders. The `Encode*` functions exist only to state that each decoder inverts the wire format it reads.
