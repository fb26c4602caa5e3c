# Berry statistics service: a Dafny model of its fetch and extraction core

The service lists every berry of the PokeAPI by walking the paginated
`{poke_api_url}/berry` listing, fetches each berry's detail record through a
thread-pool manager that drops failed fetches, and extracts from the records
their names, their growth times and the berries with the smallest and
largest growth time.

The model has five modules:

- `Values` (`values.dfy`): decoded JSON with Python truthiness, the
  exceptions that can escape, and `Outcome` (a return value or a raised
  exception).
- `Network` (`network.dfy`): the upstream API as a fixed map from URL to
  response (status and decoded body), and `Get`, which is `get` followed by
  `raise_for_status` and `json()`.
- `ThreadPool` (`thread_pool.dfy`): `fetch_data`, the executor and the
  `ThreadPoolManager` class with its submission loop, its collection loop
  over completed jobs and its shutdown on every exit path.
- `ApiClient` (`api_client.dfy`): the walk along the listing's `next`
  cursors, the extraction of the detail URLs, and
  `fetch_all_berries_concurrently`.
- `DataProcessor` (`data_processor.dfy`): the extraction loop of
  `process_berry_data` and the error cases of its statistics.

Environment choices the model makes explicit:

- The network is the parameter `web`. A URL missing from it is a connection
  error. `raise_for_status` raises for statuses 400 to 599, as the
  `requests` library does, so a final 3xx status passes.
- Thread scheduling is the parameter `picks`. Each time `as_completed`
  yields, the pending future at index `picks[j] % |pending|` is the one
  that completed (the first pending one once the picks run out).
  `AllOrdersReachable` proves that every rearrangement of the futures is
  produced by some picks, and `CompletionOrderIsPermutation` that each
  future is yielded exactly once.
- Whether the executor's own `shutdown` raises is the parameter
  `shutdownFault`.
- The listing loop has no page limit and stops only when a page's `next`
  is falsy. `ListPages` (the listing loop of
  `fetch_all_berries_concurrently`, kept as its own method) takes a ghost
  `pageBound` on the chain length, which exists exactly when the chain is
  finite. The fuelled walk `Follow`
  reports `OutOfFuel` past it; this is a proof device, not a limit of the
  service.
- `fetch_all_berries_concurrently` builds its `ThreadPoolManager` before the
  first listing request. When listing fails, or a descriptor has no `url`,
  the exception propagates and that manager is never shut down. The
  returned `Trace` records this.
- In `Values`, `JNull` is Python's `None`. `fetch_data` returns `None` on
  failure, so a detail body that decodes to `null` cannot be told apart
  from a failed fetch. Both are dropped, as in the source.

Facts about the code that the model keeps:

- Detail records are always fetched through the thread pool, and that path
  never raises for failed detail fetches, even when all of them fail.
- The executor is shut down only on the paths that reach the pool. A
  listing failure, or a descriptor without `url`, leaves the manager
  created at api_client.py:11 running.
- The collection loop drops every falsy job output, so a detail body that
  decodes to `{}`, `[]`, `0`, `""` or `false` is dropped like a failed
  fetch.

## Model

| member | source | states |
|---|---|---|
| `Values.Truthy` | thread_pool.py:38 | a value is falsy exactly when it is `None`, `False`, `0`, `""`, `[]` or `{}` |
| `Network.Get` | thread_pool.py:17-19 | the decoded body exactly when the URL answers, its status is outside 400 to 599 and its body is JSON; every failure raises a `RequestException`, and a status from 400 to 599 raises an `HTTPError` with that status |
| `ThreadPool.FetchData` | thread_pool.py:14-22 | the decoded body when the GET, `raise_for_status` and `json()` all succeed; `None` for every failure, including a URL that is not a string, so it never raises |
| `ThreadPool.FetchDataFalsy` | thread_pool.py:16-22 | a job output is falsy exactly when its fetch failed or its decoded body is itself falsy |
| `ThreadPool.CompletionOrderIsPermutation` | thread_pool.py:36 | `as_completed` yields every submitted future exactly once: the completion order is a permutation of the futures |
| `ThreadPool.CompletionOrder` | thread_pool.py:36 | `as_completed` yields one future per submitted future |
| `ThreadPool.AllOrdersReachable` | thread_pool.py:36 | every rearrangement of the submitted futures is the completion order of some schedule |
| `ThreadPool.SubmissionOrderIsASchedule` | thread_pool.py:36 | completion in submission order is one of the possible schedules |
| `ThreadPool.AnyJobMayFinishFirst` | thread_pool.py:36 | any submitted future can be the first to complete |
| `ThreadPool.Collect` | thread_pool.py:36-41 | keeping truthy outputs yields at most one result per job, and every result is truthy |
| `ThreadPool.PoolResult` | thread_pool.py:35-43 | whatever the schedule, at most one result per submitted job, and every result is truthy |
| `ThreadPool.CollectAsCompleted` | thread_pool.py:35-43 | the collection loop returns the truthy results in completion order, which is `PoolResult` |
| `ThreadPool.CollectPermutation` | thread_pool.py:36-39 | collecting a rearrangement of the futures gives a rearrangement of the results |
| `ThreadPool.CollectKeepsAllIffAllTruthy` | thread_pool.py:38-41 | as many results as jobs if and only if every job's output is truthy |
| `ThreadPool.CollectMembership` | thread_pool.py:38-41 | a value is collected if and only if it is truthy and is some job's output |
| `ThreadPool.PoolResultProperties` | thread_pool.py:32-43 | whatever the completion order: every result is truthy; as a multiset the results equal the truthy outputs in submission order; at most one result per URL; one per URL exactly when none was falsy |
| `ThreadPool.OneFailedFetchOfThreeIsDropped` | thread_pool.py:36-41 | for three detail URLs where one answers HTTP 500, any completion order returns exactly the other two bodies and raises nothing |
| `ThreadPool.Executor.Submit` | thread_pool.py:33 | a running executor accepts the job and returns a future for it; a shut-down executor raises a RuntimeError and accepts nothing |
| `ThreadPool.Executor.Shutdown` | thread_pool.py:56 | the executor is shut down afterwards; exactly one more shutdown has happened |
| `ThreadPool.ThreadPoolManager.constructor` | thread_pool.py:10-12 | a fresh executor with the worker count, running and with no jobs |
| `ThreadPool.ThreadPoolManager.FetchAllConcurrently` | thread_pool.py:24-51 | one job is submitted per URL, in order, and the truthy results are returned in completion order; a shut-down executor makes the first submission raise and nothing is submitted; on both paths the executor is shut down exactly once |
| `ThreadPool.ThreadPoolManager.Shutdown` | thread_pool.py:53-59 | the executor ends shut down, one shutdown more, and no exception escapes even when the executor raises |
| `ApiClient.DecodePage` | api_client.py:16-17 | a page decodes exactly when its body is an object with a list `results` and a `next` field; otherwise a KeyError/TypeError |
| `ApiClient.FetchPage` | api_client.py:14-17 | a listing request raises what `get`, `raise_for_status` or `json()` raise; otherwise the decoded body is read as a page |
| `ApiClient.Follow` | api_client.py:20-24 | from a falsy cursor the walk ends at once with no request and no descriptor; a finished walk made at most as many requests as its fuel; a failed walk raised a `RequestException` or a lookup error |
| `ApiClient.ListBerries` | api_client.py:14-24 | unless the walk ran out of fuel, its first request is `{poke_api_url}/berry` |
| `ApiClient.ListPages` | api_client.py:14-24 | the listing loop requests exactly the URLs of the walk `ListBerries`; it raises exactly when the walk fails, with the walk's error, and otherwise returns the walk's descriptors |
| `ApiClient.CursorAfterLinks` | api_client.py:20-21 | along a walk the first request is the starting cursor, every page is read without error, and each later request is exactly the previous page's `next` |
| `ApiClient.DoneWalkIsChain` | api_client.py:17-24 | a listing that ends normally stopped at the first falsy `next`, and its descriptors are the concatenation of the visited pages' `results` in visit order, duplicates kept |
| `ApiClient.ChainIsWalked` | api_client.py:14-24 | conversely, a chain of k pages ending on a falsy `next` is walked with exactly those k listing requests and yields the concatenation of their results |
| `ApiClient.FailedWalkStopsAtFault` | api_client.py:14-24 | a failed listing stopped at its last request, whose page raised the reported error, or at a truthy `next` that is not a URL string |
| `ApiClient.FaultIsReached` | api_client.py:15-22 | conversely, a walk that reaches a page that raises fails with that error after exactly the requests up to that page |
| `ApiClient.TwoPageListing` | api_client.py:14-24 | two linked pages give two requests and the items of page one followed by those of page two |
| `ApiClient.DetailUrls` | api_client.py:27 | the `url` field of every descriptor, same length and order, or a KeyError/TypeError when some descriptor has none |
| `ApiClient.FetchAllBerriesConcurrently` | api_client.py:5-39 | the listing requests follow the cursor chain from `{poke_api_url}/berry`; a listing or URL error is re-raised unchanged, with no detail URL submitted and the pool not shut down; otherwise exactly the extracted URLs are submitted, the pool is shut down, and the result is the pool's result |
| `DataProcessor.ExtractGrowthData` | data_processor.py:9-28 | names and growth times list every record in input order; the minimum and the maximum are attained by the first record having them and bound every growth time; with no records the sentinels and empty berry names remain |
| `DataProcessor.ProcessBerryData` | data_processor.py:7-34 | fewer than two records raise a StatisticsError; otherwise the names, both extrema with their first berries, and a frequency equal to the number of records |
| `DataProcessor.ProcessTestBerries` | test_app.py:39-51 | for berry1/10, berry2/5, berry3/7: the names in order, minimum 5 of berry2, maximum 10 of berry1 |

## Left out

- Real HTTP, the logging calls, and the thread scheduling and worker-count bound of `ThreadPoolExecutor` are not modelled. The network is the map `web`, and the completion order is the parameter `picks`.
- The median, variance and mean (data_processor.py:31-33) use floating point and are not modelled. Only their errors on too few data points are. The histogram, the `./tmp` directory and the JSON string rendering (data_processor.py:37-61) are I/O and formatting, and are not modelled either.
- `DataProcessor.ExtractGrowthData` reads typed records with integer growth times. A record without `name` or `growth_time`, or with a non-numeric growth time, would raise in the source and is not modelled.
- `ApiClient.DecodePage`: a `results` field that is not a list makes the model raise a lookup error at that page, right after its request. Python reads the field without checking it, and the behaviour differs as follows, in the requests made (`trace.listingRequests`) and in the exception raised:
  - On the first page with a falsy `next`: an empty string or empty object gives no descriptors and no error. A non-empty string or object, or a value that is not iterable, raises a TypeError at api_client.py:27, which agrees with the model.
  - On the first page with a truthy `next` that is a string: page two is requested first (api_client.py:21). Then page two's own exception is raised (any RequestException: a connection error, an HTTPError or a JSON decoding error, api_client.py:21-23), or `url_results.extend` raises an AttributeError at api_client.py:24. A truthy `next` that is not a string is rejected by `requests` before any request is sent (a RequestException), so the call raises that instead, after the same single request as in the model.
  - On a later page: `extend` accepts a string or an object (adding its characters or its keys) and the walk goes on. A non-empty one then raises a TypeError only at api_client.py:27, after more listing requests, unless the walk stops earlier with another exception (any RequestException, a KeyError for a missing `results` or `next`, or a cursor that is not a string). An empty one is accepted silently. A value that is not iterable raises a TypeError at `extend`, which agrees with the model.
- `ThreadPool.FetchData` and `ApiClient.Follow`: a URL that is not a string is modelled as the single error `InvalidUrl`. `str()` of such a JSON value is never an http(s) URL, so `requests` raises MissingSchema, InvalidSchema or InvalidURL before anything is sent. The model agrees that this is a RequestException: `fetch_data` returns `None` (`JNull`), and the listing loop re-raises it. Only which subclass is raised is not modelled.
- JSON numbers are integers: no detail or listing field the code reads is fractional.
- The constructors require a positive worker count. `ThreadPoolExecutor` raises `ValueError` otherwise, and the only caller passes 10.
- `app.py` (the Flask route, the environment lookup and response shaping) is not part of this model. It imports `fetch_all_berries`, which api_client.py does not define.
