# vchtools fetch engine and driver filters, modelled in Dafny

This project models the data-fetching core of `vchtools`, a toolkit that
collects Vancouver food-service facilities and their inspection reports from
the VCH API. The core is:

- the request handlers of `vchtools.fetcher`. A handler owns a `requests`
  session with a retry policy. It builds one GET or POST request per id and
  turns each outcome into zero or one JSON payload. It also iterates over id
  lists, optionally through a threaded dispatcher.
- the facility filter script. It keeps the Food Service Establishment 1
  facilities of the Vancouver communities, each reduced to seven keys.
- the inspection-report driver. It merges the per-file facility maps with a
  `ChainMap`, keeps the facilities with at least five Routine inspections,
  fetches one index range of them and pairs entry ids with reports.

The network and the scheduler become parameters:

- The transport is a function `net: (Session, Request) -> Response`. It says
  what the session's `request` call finally did, after urllib3's own retries.
  Either it returned a status and a body (which may not decode as JSON), or it
  raised one of the modelled exceptions. Being a function, it is
  deterministic: the same session and request always give the same outcome.
  So an id's fetch gives the same result whenever it runs, which the
  schedule-independence results of `Threaded` rely on.
- The order in which `as_completed` hands out futures is a permutation of the
  task indices (`Threaded.IsCompletionOrder`).
- Generators are modelled by what they produce when drained: `Generated(items,
  raised)` holds the items yielded, then the exception that ended the
  generator, if any.
- JSON documents are the `PyValues.Json` datatype, and objects keep their key
  order. Python's subscripting and iteration errors are modelled exactly:
  `KeyError` on a dict without the key, `TypeError` on a non-dict or a
  non-iterable value. The datatype does not forbid an object that repeats a
  key. For such an object `PyValues.Lookup` takes the first occurrence, while
  `json.load` keeps the last one. The documents the scripts load are taken to
  have distinct keys, which is what `PyValues.DistinctKeys` states.
- The exception hierarchy is that of `requests` 2.27 and later.
  `response.json()` raises `requests.exceptions.JSONDecodeError`, which is a
  `RequestException`, so `fetch` logs an undecodable body. Before 2.27 it
  raised a plain `ValueError`, which would escape `fetch`.

Module layout:

- `pyvalues.dfy` (module `PyValues`): results, exceptions and their class
  hierarchy, first-match except clauses, and JSON values with `d[key]` and
  `for x in d`.
- `sequences.dfy` (module `Sequences`): Python slicing and `zip`. It also holds
  the generic error-propagating filter loop `FilterMap`, which all three
  filtering loops of the scripts follow.
- `urlformat.dfy` (module `UrlFormat`): the `%` operator as GET's `_build_url`
  uses it.
- `jsontext.dfy` (module `JsonText`): the default POST body
  `json.dumps({"id": id})`, with a decoder. The two are proved to round-trip.
- `synchronous.dfy` (module `Synchronous`): the `Handler` class, which covers
  both `APIHandler` subclasses through its `strategy` field.
- `threaded.dfy` (module `Threaded`): `execute_requests_threaded` and the
  `fetch_*_threaded` methods.
- `filter_facilities.dfy` (module `FilterFacilities`) and
  `inspection_reports.dfy` (module `InspectionReports`): the two scripts.
- `report_pairing.dfy` (module `ReportPairing`): the driver's
  `zip(entry_ids, reports)` applied to the threaded dispatcher's output.

Behaviour of the code that the model reproduces and proves:

- **HTTP errors escape `fetch`.** When `raise_for_status` raises, the
  assignment `status_code, data = ...` never completes. The `except HTTPError`
  clause then reads `status_code`, so `UnboundLocalError` leaves `fetch`. This
  happens for every error status that the session hands back because its
  retries do not cover it. That includes 429 without a Retry-After header, so
  the rate-limit branch never logs (`Synchronous.FetchErrorStatusEscapes`).
  A status the retries do cover (500, 502, 503, 504, and 413, 429 or 503 with
  Retry-After) ends in `RetryError` once the retries are used up, and `fetch`
  logs that (`Synchronous.FetchRetriesExhausted`). Under `fetch_all` an
  escaping error ends the whole iteration. Under the threaded dispatcher the
  task is logged and skipped.
- **The `ChunkedEncodingError` clause is unreachable.** The
  `RequestException` clause before it catches that exception first
  (`Synchronous.ChunkedClauseUnreachable`).
- **Reports can be paired with the wrong entry ids.** The threaded dispatcher
  yields payloads in completion order, without their ids. Failed fetches
  yield nothing. `zip` in the inspection-report driver therefore pairs entry
  ids with reports by position. Only the multiset of reports is fixed
  (`Threaded.ScheduleIndependence`). There is one pair per id whose fetch
  yields, not one per id (`ReportPairing.PairsPerYieldingId`). When the first
  of two ids yields nothing (its error is absorbed, or it raises and the
  dispatcher logs it) and the second yields report X, the driver records X under
  the first id in either completion order (`ReportPairing.MispairedReport`).
  When both yield, completing in reverse order swaps their reports
  (`ReportPairing.PairingFollowsCompletion`).
- **The threaded path never throttles.** It yields bare payloads straight
  from `fetch`. Only `fetch_all` pauses and wraps results as `{id: [...]}`.

## Model

| member | source | states |
|---|---|---|
| PyValues.FirstHandler | vchtools/vchtools/fetcher/synchronous.py:116-128 | the clause chosen is the first one, in source order, whose class the exception is an instance of; None exactly when no clause matches |
| PyValues.Index | scripts/preprocessors/filter/filter_facilities.py:26 | `d[key]` succeeds exactly on a dict holding the key, with the stored value; otherwise KeyError(key) on a dict and TypeError on anything else |
| PyValues.Iterate | scripts/preprocessors/filter/filter_facilities.py:49 | iterating a list gives its elements, a dict its keys in order, a string its characters; any other value raises |
| PyValues.IsInstance | vchtools/vchtools/fetcher/synchronous.py:116-128 | the `isinstance` test of the except clauses over the `requests` hierarchy; no contract of its own: FirstHandler and ChunkedClauseUnreachable state it |
| PyValues.LookupDistinct | scripts/preprocessors/filter/filter_facilities.py:26 | in a dict without repeated keys, looking up the key at any position finds the value at that position |
| Sequences.Clamp | vchtools/vchtools/fetcher/synchronous.py:94 | a slice bound is normalised as Python does: a negative bound counts from the end, and the result is clamped to [0, len] |
| Sequences.PySlice | vchtools/vchtools/fetcher/synchronous.py:94 | `ids[start:finish]` is the contiguous run starting at the normalised start; index j is in it exactly when the raw bounds select j (negative bounds counting from the end) |
| Sequences.SliceInBounds | scripts/fetchers/inspection_reports.py:72 | with non-negative bounds the slice is the plain subsequence when in range, empty when start >= finish, and its length is clipped at the end of the list |
| Sequences.Zip | scripts/fetchers/inspection_reports.py:74 | `zip` has the length of the shorter input and pairs the elements position by position |
| Sequences.FilterMap | scripts/preprocessors/filter/filter_facilities.py:48-54 | the reference definition of the append-if loop; a successful loop is never longer than its input |
| Sequences.FilterMapOkIff | scripts/preprocessors/filter/filter_facilities.py:48-54 | the loop raises exactly when the body raises for some element |
| Sequences.FilterMapFirstError | scripts/preprocessors/filter/filter_facilities.py:48-54 | the exception the loop raises is the one of the first element whose body raises; every earlier element passes |
| Sequences.FilterMapSelects | scripts/preprocessors/filter/filter_facilities.py:48-54 | a successful loop keeps exactly the elements whose body produces a value, at increasing positions, with those values in input order |
| UrlFormat.FormatFrom | vchtools/vchtools/fetcher/synchronous.py:171 | the `%` operator as a scan of the template; no contract of its own: the UrlFormat lemmas below state its outcome |
| UrlFormat.Format | vchtools/vchtools/fetcher/synchronous.py:171 | `template % arg` with one argument; no contract of its own: SubstitutesArgument, NoPlaceholderRaises and TwoPlaceholdersRaise state it |
| UrlFormat.SubstitutesArgument | vchtools/vchtools/fetcher/synchronous.py:171 | `url % id` with a single `%s` and no other `%` is the template with the id spliced in its place |
| UrlFormat.NoPlaceholderRaises | vchtools/vchtools/fetcher/synchronous.py:171 | a template without `%` raises TypeError ("not all arguments converted"), whatever the id |
| UrlFormat.TwoPlaceholdersRaise | vchtools/vchtools/fetcher/synchronous.py:171 | a template with two `%s` raises TypeError ("not enough arguments") |
| UrlFormat.OutcomeIndependentOfArgument | vchtools/vchtools/fetcher/synchronous.py:171 | for templates whose only conversions are `%s` and `%%`, whether formatting succeeds depends on the template only, never on the id |
| UrlFormat.LiteralText | vchtools/vchtools/fetcher/synchronous.py:171 | text without `%` is copied through unchanged ahead of whatever the rest of the template formats to |
| JsonText.EscapedIsPrintableAscii | vchtools/vchtools/fetcher/synchronous.py:234 | with ensure_ascii every character of the encoded id is printable ASCII |
| JsonText.UnescapeEscaped | vchtools/vchtools/fetcher/synchronous.py:234 | decoding a JSON string body undoes the encoder's escaping, surrogate pairs included |
| JsonText.DefaultBody | vchtools/vchtools/fetcher/synchronous.py:234 | `json.dumps({"id": id})`; no contract of its own: DefaultBodyRoundTrip, DefaultBodyInjective and EscapedIsPrintableAscii state it |
| JsonText.DefaultBodyRoundTrip | vchtools/vchtools/fetcher/synchronous.py:234 | the body `json.dumps({"id": id})` parses back to exactly the id |
| JsonText.DefaultBodyInjective | vchtools/vchtools/fetcher/synchronous.py:234 | different ids give different default POST bodies |
| Synchronous.Handler.constructor | vchtools/vchtools/fetcher/synchronous.py:36-43 | stores the configuration; the session and the custom payload start as None |
| Synchronous.RetriesOnStatus | vchtools/vchtools/fetcher/synchronous.py:49-57 | urllib3's `Retry.is_retry` for the `Retry` built here; no contract of its own: RetryScope states it |
| Synchronous.IsErrorStatus | vchtools/vchtools/fetcher/synchronous.py:188 | the statuses `raise_for_status` rejects, 400 to 599; no contract of its own: SubmitRequest, FetchYieldsBody and FetchErrorStatusEscapes state it |
| Synchronous.Handler.Retries | vchtools/vchtools/fetcher/synchronous.py:49-54 | the `Retry` arguments; no contract of its own: RetryScope states its total, backoff, methods and statuses |
| Synchronous.Handler.NewSession | vchtools/vchtools/fetcher/synchronous.py:46-57 | the session `__enter__` opens; no contract of its own: Enter and RetryScope state its headers and adapters |
| Synchronous.Handler.Enter | vchtools/vchtools/fetcher/synchronous.py:45-59 | the session becomes a fresh open session with the handler's headers and a retrying adapter per scheme |
| Synchronous.Handler.Exit | vchtools/vchtools/fetcher/synchronous.py:61-63 | an existing session is closed and keeps its configuration; a missing one stays None |
| Synchronous.Handler.SetCustomPayload | vchtools/vchtools/fetcher/synchronous.py:214-220 | the custom payload function becomes the one given |
| Synchronous.Handler.BuildUrl | vchtools/vchtools/fetcher/synchronous.py:171 | `self.url % id`; no contract of its own: GetRequest and GetRequestWithoutPlaceholder state it |
| Synchronous.Handler.BuildPayload | vchtools/vchtools/fetcher/synchronous.py:231-234 | the custom payload's text or exception when one is set, the default body otherwise; no contract of its own: PostRequest and FetchCustomPayloadRaises state it |
| Synchronous.Handler.BuildRequest | vchtools/vchtools/fetcher/synchronous.py:185-187 | the request GET sends here, and POST at lines 248-252: the handler's own method and timeout, a body exactly for POST; GET goes to the formatted URL and POST to the fixed URL with the built payload; building succeeds exactly when the URL (GET) or the payload (POST) can be built, and otherwise fails with that error |
| Synchronous.Handler.SubmitRequest | vchtools/vchtools/fetcher/synchronous.py:185-189 | without a session it raises AttributeError; a success carries the status and the decoded body of a response the transport returned, and that status is not an error status |
| Synchronous.Handler.Fetch | vchtools/vchtools/fetcher/synchronous.py:112-128 | at most one item: the decoded body when the request returns; on an error, nothing is yielded, and the error is absorbed exactly when it is a RequestException other than HTTPError; HTTPError becomes UnboundLocalError; non-request errors escape unchanged |
| Synchronous.Handler.FetchAll | vchtools/vchtools/fetcher/synchronous.py:76-78 | entry k is `{ids[k]: list(fetch(ids[k]))}` in input order with one pause per entry; the iteration completes exactly when no fetch raises, and otherwise stops with the first fetch's exception |
| Synchronous.Handler.FetchRanged | vchtools/vchtools/fetcher/synchronous.py:94 | fetch_all runs over exactly `ids[start:finish]`: entry k belongs to the id at normalised start + k |
| Synchronous.ChunkedClauseUnreachable | vchtools/vchtools/fetcher/synchronous.py:125-128 | no exception reaches the ChunkedEncodingError clause; ChunkedEncodingError is caught by the RequestException clause |
| Synchronous.RetryScope | vchtools/vchtools/fetcher/synchronous.py:49-57 | both schemes get equal adapters (two `HTTPAdapter` instances sharing one `Retry`); a response is retried exactly for the handler's own method, with status 500, 502, 503 or 504, or, while n_attempts is not zero, with status 413, 429 or 503 and a Retry-After header; no other 4xx is retried; total is n_attempts and the backoff is the throttle |
| Synchronous.GetRequest | vchtools/vchtools/fetcher/synchronous.py:185-187 | a GET request uses method "GET", the URL `url % id` and no body |
| Synchronous.GetRequestWithoutPlaceholder | vchtools/vchtools/fetcher/synchronous.py:171 | a GET template without any `%` makes building every request raise TypeError |
| Synchronous.PostRequest | vchtools/vchtools/fetcher/synchronous.py:248-251 | a POST request is built exactly when there is no custom payload or it returns; it uses method "POST" and the fixed URL; its body is the custom payload's text when set, and otherwise one that decodes back to the id; a raising custom payload fails the build with its exception |
| Synchronous.FetchYieldsBody | vchtools/vchtools/fetcher/synchronous.py:112-114 | a decodable response with a non-error status yields exactly its body |
| Synchronous.FetchErrorStatusEscapes | vchtools/vchtools/fetcher/synchronous.py:116-120 | every error status the retries do not cover, 429 without Retry-After included, makes fetch raise UnboundLocalError and yield nothing |
| Synchronous.FetchRetriesExhausted | vchtools/vchtools/fetcher/synchronous.py:125-126 | exhausted retries (RetryError) are caught by the RequestException clause: fetch yields nothing and raises nothing |
| Synchronous.FetchAbsorbsTransportFailures | vchtools/vchtools/fetcher/synchronous.py:121-126 | connection errors, timeouts, other request errors and undecodable bodies yield nothing and raise nothing |
| Synchronous.FetchCustomPayloadRaises | vchtools/vchtools/fetcher/synchronous.py:231-232 | an exception from the custom payload is met inside fetch's `try`: nothing is yielded; a request exception other than HTTPError is absorbed, HTTPError becomes UnboundLocalError, and any other exception escapes |
| Synchronous.FetchWithoutSession | vchtools/vchtools/fetcher/synchronous.py:185 | before `__enter__` the session is None and fetch raises AttributeError |
| Threaded.Outputs | vchtools/vchtools/fetcher/threaded.py:39 | one task per element of ids, duplicates included: task i's output is what fetch(ids[i]) yields |
| Threaded.Raised | vchtools/vchtools/fetcher/threaded.py:39 | task i raises exactly when fetch(ids[i]) raises |
| Threaded.ExecuteRequestsThreaded | vchtools/vchtools/fetcher/threaded.py:38-45 | a worker count below one raises ValueError; otherwise the output is the tasks' payloads in completion order, a permutation of the sequential output, as long as the number of ids that yield; the ids logged as failed are exactly the ids whose fetch raises, recorded in completion order (`Picked` over `Raised`) |
| Threaded.FetchAllThreaded | vchtools/vchtools/fetcher/threaded.py:74 | the dispatcher with fetch as the worker, with the same guarantees, including an empty failure record below one worker and the failed ids in completion order |
| Threaded.FetchRangedThreaded | vchtools/vchtools/fetcher/threaded.py:91-92 | the dispatcher runs over exactly `ids[start:finish]`, with the dispatcher's guarantees for that slice |
| Threaded.CompletionOrderCovers | vchtools/vchtools/fetcher/threaded.py:40 | as_completed hands out every submitted task: the order has one entry per id and covers every index |
| Threaded.FailuresLogged | vchtools/vchtools/fetcher/threaded.py:42-45 | over a whole completion order the logged ids are exactly those whose fetch raises |
| Threaded.PickedCovers | vchtools/vchtools/fetcher/threaded.py:42-45 | over a whole completion order exactly the flagged tasks are recorded |
| Threaded.PickedMembers | vchtools/vchtools/fetcher/threaded.py:42-45 | the record of a partial order holds exactly the flagged tasks it has run |
| Threaded.GatherIsPermutationInvariant | vchtools/vchtools/fetcher/threaded.py:40-43 | two orders running the same tasks gather the same multiset of payloads |
| Threaded.GatherInInputOrder | vchtools/vchtools/fetcher/threaded.py:40-43 | completing in submission order gives the sequential concatenation |
| Threaded.FlattenCountsNonEmpty | vchtools/vchtools/fetcher/threaded.py:43 | when each task yields at most one payload, the output length is the number of tasks that yield, at most the number of tasks |
| Threaded.DispatchOutcome | vchtools/vchtools/fetcher/threaded.py:38-43 | for any completion order the gathered output is a permutation of the sequential one, with one payload per yielding task |
| Threaded.GatherFromTasks | vchtools/vchtools/fetcher/threaded.py:43 | each gathered payload is the whole output of some task |
| Threaded.ScheduleIndependence | vchtools/vchtools/fetcher/threaded.py:38-45 | any two completion orders yield the same multiset, as many payloads as there are ids that yield, each the payload of some id |
| FilterFacilities.DictSet | scripts/preprocessors/filter/filter_facilities.py:26 | `d[key] = v` on an ordered dict; no contract of its own: DictSetKeys, DictSetLookup and DictSetDistinct state it |
| FilterFacilities.SubsetFields | scripts/preprocessors/filter/filter_facilities.py:26 | the comprehension's fields, key by key; no contract of its own: SubsetFieldsOkIff, SubsetFieldsContents and SubsetFieldsOrder state it |
| FilterFacilities.SubsetKeys | scripts/preprocessors/filter/filter_facilities.py:26 | the comprehension builds a dict; its keys and values are stated by SubsetKeysSpec |
| FilterFacilities.DictSetKeys | scripts/preprocessors/filter/filter_facilities.py:26 | storing a new key appends it; storing a present key keeps the key order |
| FilterFacilities.DictSetLookup | scripts/preprocessors/filter/filter_facilities.py:26 | after `d[key] = v` the key holds v and every other key keeps its value |
| FilterFacilities.DictSetDistinct | scripts/preprocessors/filter/filter_facilities.py:26 | storing never duplicates a key |
| FilterFacilities.SubsetFieldsOkIff | scripts/preprocessors/filter/filter_facilities.py:26 | the comprehension raises exactly when some key cannot be looked up |
| FilterFacilities.SubsetFieldsContents | scripts/preprocessors/filter/filter_facilities.py:26 | the subset has exactly the given keys, no key twice, each with the collection's value |
| FilterFacilities.SubsetFieldsOrder | scripts/preprocessors/filter/filter_facilities.py:26 | with distinct keys the subset lists them in the order given |
| FilterFacilities.SubsetKeysSpec | scripts/preprocessors/filter/filter_facilities.py:26 | subset_keys succeeds exactly when every key is present, and then its key list is exactly `keys` with each value the original one |
| FilterFacilities.SubsetKeysFirstFailure | scripts/preprocessors/filter/filter_facilities.py:26 | the first missing key raises KeyError for that key on a dict, and TypeError on a non-dict; it is never skipped |
| FilterFacilities.KeysDistinct | scripts/preprocessors/filter/filter_facilities.py:37-45 | the seven KEYS are distinct |
| FilterFacilities.StartsWithIff | scripts/preprocessors/filter/filter_facilities.py:51 | an anchored match of "Vancouver" means the community is "Vancouver" followed by anything |
| FilterFacilities.IsVancouverFSE1 | scripts/preprocessors/filter/filter_facilities.py:50-53 | the type-and-community test; no contract of its own: VancouverFSE1Iff states it |
| FilterFacilities.FacilityStep | scripts/preprocessors/filter/filter_facilities.py:50-54 | one iteration of the filter loop: the test, then the subset of a kept facility; no contract of its own: FilterKeepsVancouverFSE1 and FilterRaisesIff state it |
| FilterFacilities.VancouverFSE1Iff | scripts/preprocessors/filter/filter_facilities.py:50-53 | the check succeeds exactly when both keys are present and the community is a string; it keeps a facility exactly when the type is "Food Service Establishment 1" and the community starts with "Vancouver" |
| FilterFacilities.FilterVancouverFSE1 | scripts/preprocessors/filter/filter_facilities.py:48-54 | a missing or non-dict `facilities["result"]` raises its error, a non-iterable one raises TypeError, otherwise the result is the filter loop over its elements |
| FilterFacilities.FilterList | scripts/preprocessors/filter/filter_facilities.py:49-54 | the imperative loop computes the filter loop's value, including its first exception |
| FilterFacilities.FilterKeepsVancouverFSE1 | scripts/preprocessors/filter/filter_facilities.py:48-54 | the output is no longer than the input; it keeps exactly the Vancouver FSE1 facilities, in input order, each reduced to the seven KEYS in order |
| FilterFacilities.FilterRaisesIff | scripts/preprocessors/filter/filter_facilities.py:49-54 | the loop raises exactly when the type-and-community check raises for some facility, or a kept facility lacks one of the KEYS |
| InspectionReports.ChainKeys | scripts/fetchers/inspection_reports.py:38 | the keys of `ChainMap(*maps)`; no contract of its own: ChainKeysSpec states it |
| InspectionReports.ChainGet | scripts/fetchers/inspection_reports.py:38 | `ChainMap` lookup; no contract of its own: ChainGetFirstMap and ChainGetDefined state it |
| InspectionReports.RoutineStep | scripts/fetchers/inspection_reports.py:40 | one element of the comprehension: the condition is evaluated first, then the id is read; no contract of its own: RoutineIdsSpec states it |
| InspectionReports.RoutineIds | scripts/fetchers/inspection_reports.py:39-41 | the `entry_ids` comprehension; no contract of its own: RoutineIdsSpec states it |
| InspectionReports.SelectStep | scripts/fetchers/inspection_reports.py:42-44 | one facility of the selection loop; no contract of its own: SelectionIff and SelectionListed state it |
| InspectionReports.ReportsFileName | scripts/fetchers/inspection_reports.py:79 | the output file name; no contract of its own: RangeLabelRoundTrip states it |
| InspectionReports.AddUnseenSpec | scripts/fetchers/inspection_reports.py:38 | adding a map's keys to the seen list keeps the list free of repeats, extends it, and adds exactly that map's keys |
| InspectionReports.ChainKeysOrder | scripts/fetchers/inspection_reports.py:38 | the iteration order: the keys of the maps after position i come first, unchanged, with earlier maps only adding keys after them; the last map's keys, when distinct, lead in that map's order |
| InspectionReports.ChainKeysSpec | scripts/fetchers/inspection_reports.py:38 | the merged map lists each facility id once, and exactly the ids present in some map |
| InspectionReports.ChainGetFirstMap | scripts/fetchers/inspection_reports.py:38 | a facility's entries come from the first map in the list that has it |
| InspectionReports.ChainGetDefined | scripts/fetchers/inspection_reports.py:38 | every id of the merged map can be looked up in it |
| InspectionReports.RoutineIdsSpec | scripts/fetchers/inspection_reports.py:39-41 | entry_ids holds exactly the ids of the entries whose inspectionType is "Routine", in entry order |
| InspectionReports.SelectFacilities | scripts/fetchers/inspection_reports.py:37-44 | the imperative selection loop computes the filter loop over the merged map's ids, including its first exception |
| InspectionReports.SelectionListed | scripts/fetchers/inspection_reports.py:37-44 | each selected facility appears once, with the Routine ids of its entries from the merged map, at least N_ENTRIES of them |
| InspectionReports.SelectionIff | scripts/fetchers/inspection_reports.py:42-44 | a facility of any map is selected exactly when it has at least N_ENTRIES = 5 Routine entries |
| InspectionReports.FetchAndPair | scripts/fetchers/inspection_reports.py:72-74 | one record per facility of `inspection_report_ids[start:finish]`, holding its id and the positional zip of its entry ids with the dispatched reports |
| ReportPairing.PairsPerYieldingId | scripts/fetchers/inspection_reports.py:73-74 | zipping the ids with the dispatcher's output gives one pair per id whose fetch yields, never more than there are ids, for every completion order |
| ReportPairing.MispairedReport | scripts/fetchers/inspection_reports.py:73-74 | with ids [a, b], a's fetch yielding nothing (absorbed or raising) and b's yielding x, the zip is [(a, x)] in both completion orders: b's report is recorded under a |
| ReportPairing.PairingFollowsCompletion | scripts/fetchers/inspection_reports.py:73-74 | with ids [a, b] yielding x and y, completing in order [0, 1] pairs (a, x), (b, y) and completing in order [1, 0] pairs (a, y), (b, x) |
| InspectionReports.FetchedRange | scripts/fetchers/inspection_reports.py:59-60 | only `inspection_report_ids[2000:4000]` is fetched: 2000 facilities when at least 4000 are selected, none when at most 2000 are |
| InspectionReports.RangeLabelRoundTrip | scripts/fetchers/inspection_reports.py:79 | the file name records start and finish - 1, and both can be read back from it |
| InspectionReports.RangeLabelInclusive | scripts/fetchers/inspection_reports.py:72 | for an in-range slice, start and finish - 1 are the first and last index processed |

## Left out

- HTTP transport, `requests.Session`, `HTTPAdapter` and `response.json()`: replaced by the transport parameter. A session closed by `__exit__` is modelled as still usable, since `requests` re-creates its connection pools on demand.
- urllib3's retry loop and backoff timing: only the configured `Retry` arguments and `Retry.is_retry` are modelled. The transport reports the outcome after retries.
- Synchronous.FetchErrorStatusEscapes: the transport parameter is not constrained by the session's retry configuration, so the lemma takes as a hypothesis that the returned status is one the retries do not cover. `raise_on_status=False`, which would hand back a retried status instead of raising `RetryError`, is not used by the source and is not modelled.
- Synchronous.Handler.SetCustomPayload: only the POST handler defines `set_custom_payload`. Calling it on a GET handler raises AttributeError in Python; the model requires a POST handler instead.
- Thread scheduling: `ThreadPoolExecutor` and `as_completed` are replaced by the completion-order permutation. Each task's generator runs in the consuming thread, so fetching is sequential.
- `sleep(self.throttle)`: wall-clock time is not modelled. `Synchronous.Handler.FetchAll` counts one pause per id as `pauses`.
- Logging, and the logging setup of the driver script: no observable behaviour beyond the failed-task record of the threaded dispatcher.
- UrlFormat.FormatFrom: only `%s` and `%%` are modelled. Any other conversion, flag or width yields ValueError, whereas Python accepts `%r`, `%a`, `%c` and width or flag specifiers, and raises TypeError for the numeric conversions of a string argument.
- `custom_payload` functions: a custom payload is a function parameter returning either its text or the exception it raises. Being a Dafny function it is pure and deterministic; side effects, and a payload that is not a string, are not modelled.
- Threaded.ExecuteRequestsThreaded: `n_workers=None` (the executor's default worker count) is not modelled; the worker count is an integer.
- JSON numbers: modelled as `real`. Integer and float distinctions, and their text form, are not modelled.
- File and environment I/O in both scripts: loading `facilities` and `inspection_report_entries`, writing the results, and reading environment variables; `DATE`, `TIMESTAMP` and the directories are not part of this model. The file name is modelled from a timestamp parameter.
- InspectionReports.SelectFacilities: `inspection_report_entries` is taken as a list of dicts. A list element that is not a dict (which `ChainMap` mapping access would reject) is not modelled.
- InspectionReports.FetchAndPair: the reports of each facility are a parameter rather than the dispatcher's output, because the entry ids are JSON values while the fetcher takes string ids. The ReportPairing lemmas state the same zip over string ids with the dispatcher's actual output.
- The consolidator module, the other fetcher scripts and the consolidation scripts: directory globbing, file I/O and single-request glue are not part of this model.
