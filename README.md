# pagerton in Dafny

pagerton fetches every page of a paginated resource. `paginate(paginator, options)` first asks the paginator for page 0. The answer has the form `{ results, perPage, total }`. If `results` already holds at least `total` values, they are returned as they are. Otherwise `pages = ceil(total / perPage)` copies of one deferred fetch are built, with `perPage` defaulting to 1. The copy at position `i` asks the paginator for page `i + 1`. The copies go to a throttling scheduler, configured with `jitter`, `interval = 100` and `concurrency = 2` unless the caller supplies them. The result is `flatten(results.concat(allResults))`.

The model has two modules.

- `Pagerton` (`pagerton.dfy`) models `src/index.js`.
  - JavaScript values are the datatype `Value`: an item, an array, or the object a paginator resolves to. `concat` and `flatten` spread arrays one level and append anything else whole, and `Value` keeps the model faithful to that.
  - `flatten` is `Flatten`, a left fold (`Reduce`) proved equal to the reference concatenation `Concat`.
  - `generateFunctions` is the method `GenerateFunctions`, with the push loop.
  - `Math.ceil(total / perPage)` is `CeilDiv`.
  - The option defaults are `ResolveOptions`.
  - The scheduler is `Throttle`, which returns one output per deferred call, in submission order.
  - `paginate` is the method `Paginate`. It returns an `Outcome`, which holds three things: the output, every page index the paginator was asked for, and the scheduler call (`None` when the scheduler is not called).
  - Each deferred call records the index it asks for (`Fetch`), so `requests` can be stated exactly.
- `Resources` (`resources.dfy`) serves an in-memory list of items `perPage` at a time (`ServePage`, `Server`).
  - On that resource the model proves two facts about how page numbers relate to the items. Page `k` holds an item exactly when `k < ceil(n / perPage)`. Pages `0 .. ceil(n / perPage) - 1` together hold every item, in order.
  - It shows what `Paginate` does there, and it gives the corrected `PaginateIntended` (see Findings).

`Paginate` follows the code as written, including three behaviours that look unintended (see Findings):
- The loop at src/index.js:6-8 builds `pages` deferred calls, and src/index.js:58 maps position `i` to page `i + 1`. So pages `1 .. pages` are requested, one more than the `pages - 1` pages left after page 0.
- src/index.js:66 appends each later page's whole response object, not its `results`.
- With `perPage` 0, src/index.js:57 gives `Infinity`, and the loop at src/index.js:6-8 pushes until the process runs out of memory. With a negative `perPage` the page count is 0 or less, no deferred call is built, and only page 0's results come back, flattened.

## Model

| member | source | states |
|---|---|---|
| Pagerton.Spread | src/index.js:14-15 | what `prev.concat(v)` appends: the elements of `v` when it is an array, otherwise `v` itself, so `Width(v)` values |
| Pagerton.Reduce | src/index.js:13-15 | folding `prev.concat(current)` over `rest`, starting from `prev`, gives `prev` followed by the reference concatenation of `rest` |
| Pagerton.Flatten | src/index.js:13-15 | `flatten(arr)` is the parts of `arr` spread and concatenated left to right (arrays give their elements, anything else itself) |
| Pagerton.FlattenSmall | src/index.js:13-15 | `flatten([])` is `[]`; `flatten([v])` is what `[].concat(v)` gives |
| Pagerton.FlattenLength | src/index.js:13-15 | the length of `flatten(arr)` is the sum of the lengths the parts contribute |
| Pagerton.FlattenAppend | src/index.js:13-15 | `flatten(a ++ b) == flatten(a) ++ flatten(b)` |
| Pagerton.FlattenWithoutArrays | src/index.js:13-15 | a sequence with no array in it is unchanged by `flatten` |
| Pagerton.FlattenMembers | src/index.js:13-15 | a value is in `flatten(arr)` exactly when it is a non-array element of `arr` or an element of an array element of `arr`; so `flatten` goes one level deep, and an array nested in an array element comes through whole |
| Pagerton.GenerateFunctions | src/index.js:4-10 | the array has `max(pages, 0)` elements and every one of them is `fn` |
| Pagerton.CeilDiv | src/index.js:57 | for `perPage > 0`, `(pages - 1) * perPage < total <= pages * perPage`, and `pages >= 1` exactly when `total > 0`; the mirrored bounds hold for a negative `perPage` |
| Pagerton.PageCountJs | src/index.js:57 | `Math.ceil(total / perPage)` as a JavaScript number: the integer ceiling for a non-zero `perPage`, and `Infinity` for `perPage` 0 with a positive `total` |
| Pagerton.ZeroPerPageNeverStops | src/index.js:6-8 | with `perPage` 0 and a positive `total`, the loop test `i < pages` holds for every integer `i`, and the page count is no finite number |
| Pagerton.PerPageOf | src/index.js:46 | a missing `perPage` is 1; a present one is used as given |
| Pagerton.Done | src/index.js:48-50 | the stopping test `results.length >= total`: a `total` of 0 or less always stops, and going on means a positive `total` above page 0's result count |
| Pagerton.NoOptions | src/index.js:45 | the default `options = {}` resolves to random jitter, `interval` 100 and `concurrency` 2 |
| Pagerton.ResolveOptions | src/index.js:52-56 | an absent `interval` is 100, an absent `concurrency` is 2, an absent `jitter` is the random default; a supplied value overrides its default |
| Pagerton.Throttle | src/index.js:60-64 | the scheduler as modelled: one output per deferred call, output `i` being deferred call `i` applied to `i`, in submission order |
| Pagerton.AppendResponses | src/index.js:66 | concatenating non-array responses after `results` and flattening gives `flatten(results)` followed by the responses, whole and in order |
| Pagerton.Paginate | src/index.js:45-67 | done probe: output is page 0's `results` unchanged, only page 0 requested, no scheduler call; otherwise pages `0 .. n` requested in ascending order with `n = max(ceil(total / perPage), 0)`, output is `flatten(results)` then the response of page `k + 1` at position `k`, scheduler called with `n` fetches and the resolved options; with `perPage > 0`, `n >= 1` and the ceiling bounds hold |
| Resources.BelowPageCount | src/index.js:57 | `k * perPage < n` exactly when `k < ceil(n / perPage)` |
| Resources.ServedPageNonEmpty | src/index.js:57 | on a resource served `perPage` at a time, page `k` is non-empty exactly when `k < ceil(n / perPage)` |
| Resources.ServedPrefix | src/index.js:57-58 | the first `m` served pages together are the first `m * perPage` items |
| Resources.ServedPagesCover | src/index.js:57-58 | pages `0 .. ceil(n / perPage) - 1` together are all the items, in order |
| Resources.PaginateServedAsWritten | src/index.js:45-67 | on a served resource of more than one page, `Paginate` requests pages `0 .. c`, with `c = ceil(n / perPage)`; page `c` is empty; the output is the first page's items followed by `c` response objects |
| Resources.FlattenPages | src/index.js:13-15 | flattening one array of `results` per page gives those `results` concatenated in page order |
| Resources.PaginateIntended | src/index.js:45-67 | corrected `paginate`, for any paginator: the done case as written; a page size below 1 is rejected with `BadPageSize`; otherwise pages `0 .. pages - 1` are requested, with `pages = ceil(total / perPage) >= 1`, and the output is the `results` of those pages concatenated in page order |
| Resources.PaginateZeroPerPage | src/index.js:57 | with a page size of 0 on a non-empty served resource, the corrected `paginate` answers `BadPageSize(0)` instead of building deferred calls |
| Resources.PaginateServedIntended | src/index.js:45-67 | on a served resource, the corrected `paginate` returns exactly the items and requests pages `0, 1, ...` in order; every requested page holds an item unless the resource is empty, in which case only page 0 is requested |

## Left out

- The scheduler `f-throttler` (src/index.js:1, 60-64) is not part of this model. Its concurrency limit, interval pacing and jitter waits are timing behaviour. `Throttle` stands in for it with one assumed contract: output `i` is what deferred call `i` returns when called with the position `i`, whatever order the calls finish in. `Paginate` records the options it hands over (`Schedule`). Nothing about their effect is modelled.
- `async`/`await`, promise rejection and failure propagation are left out. A failing page fetch would reject the promise. The model has only successful calls.
- `defaultJitter` (src/index.js:18) is left out. It is a random floating-point number, so it appears only as the constructor `RandomJitter`. A caller's jitter function is carried along and never called.
- The paginator is caller-supplied I/O. It is modelled as a total function from page index to response.
- JavaScript number edge cases are left out. `total`, `perPage` and `results.length` are unbounded integers. Behaviour for a missing or non-numeric `total`, a fractional `perPage` and float rounding of `total / perPage` is not modelled.
- Paginate: requires `perPage != 0` whenever the probe is not done. With `perPage` 0 the source computes an infinite page count at src/index.js:57, and the loop at src/index.js:6-8 pushes until the process runs out of memory. `PageCountJs` and `ZeroPerPageNeverStops` state this outside `Paginate`. A negative `perPage` is modelled: it gives a page count of 0 or less, so no deferred call is built.

## Findings

| source | as written | input that shows it | evidently intended | confidence | as-written member | corrected member |
|---|---|---|---|---|---|---|
| src/index.js:57-58 | `pages` deferred calls are built, asking for pages `1 .. pages`, so page `ceil(total / perPage)` is requested besides pages `0 .. pages - 1` | 10 items served 5 per page: pages 0, 1 and 2 are requested, and page 2 is empty | request pages `1 .. pages - 1`, the ones that hold items after page 0 | medium, not executed (holds unless the paginator's page 0 repeats page 1) | Resources.PaginateServedAsWritten | Resources.PaginateIntended |
| src/index.js:66 | `flatten(results.concat(allResults))` appends every later response object whole, not its `results` | 10 items served 5 per page: the output is the 5 items of page 0 followed by 2 response objects, 7 values instead of the 10 items | page 0's `results` followed by every later page's `results`, in page order | high, not executed | Resources.PaginateServedAsWritten | Resources.PaginateIntended |
| src/index.js:57 | nothing checks `perPage`; with `perPage` 0 the page count is `Infinity`, and the loop at src/index.js:6-8 never stops while it pushes | a page 0 of `{ results: [1], perPage: 0, total: 2 }`: `Math.ceil(2 / 0)` is `Infinity`, and `i < Infinity` holds for every `i` | fail with an error for a page size that cannot cover `total` (the corrected member rejects any `perPage` below 1) | high, not executed | Pagerton.ZeroPerPageNeverStops | Resources.PaginateIntended |

`Pagerton.Paginate` stays as written. `Resources.PaginateServedIntended` proves the intended property of the corrected definition: on a served resource it returns exactly the items, and every page it requests holds an item unless the resource is empty, in which case only page 0 is requested. `Resources.PaginateZeroPerPage` shows the corrected definition rejecting a page size of 0.
