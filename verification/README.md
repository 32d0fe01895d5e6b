# Brevo REST client: request helper, pagination and contact-list body

This project models the decision logic of a thin TypeScript client for the
Brevo (formerly Sendinblue) REST API v3 and proves properties of it in Dafny.
Three pieces of `src/brevo-client.ts` decide anything:

- **The request helper** (`brevoFetch`, and its copy inside `createBrevoFetcher`).
  It prefixes the base URL and merges the default headers (`Content-Type:
  application/json` and `api-key`) with the caller's headers, where the caller's
  win. It then turns the HTTP response into the envelope `{status, data}` or
  `{status, error: {status, message, code, details}}`. A body that does not parse
  as JSON becomes `null`. Module `Fetch` (`fetch.dfy`) models it. `Config` holds
  the base URL and API key, so one `PrepareRequest` covers both copies: the
  module-level helper uses the base URL `https://api.brevo.com/v3` (line 35) and
  the environment's key, and
  `createBrevoFetcher` (lines 47-82) uses the values it was given.
- **The pagination aggregator** (`fetchAllPaginated`). Module `Pagination`
  (`pagination.dfy`) models it as a method with the source's do-while loop.
  The server is a finite sequence of HTTP responses, and `server[k]` answers the
  k-th request. The method returns the envelope and the list of requests it
  sent. It is proved equal to the specification function `Aggregate`, which is
  defined through `StopIndex` (the first page that is not a full 200 page) and
  `Gathered` (the concatenation of the first n pages' arrays).
- **Adding contacts to a list** (`addContactsToList`). Module `Lists`
  (`lists.dfy`) models it. The if/else chain that builds the body is a method.
  It is proved equal to `FirstPresent`, the first present field of the ordered
  list emails, ids, extIds. The selection tests whether the key is in the
  request object (`in`), and serialising the body drops a key whose value is
  `undefined`. So a key that is there but `undefined` still wins the selection,
  and the body is then `{}`.

Module `Json` (`json.dfy`) holds the parsed-JSON value and the JavaScript
semantics the client relies on: truthiness for `||`, `?.` member access, and
the decimal text of numbers in template literals.

Three behaviours of the code are easy to misread; the model follows the code:
- The loop ends at the first page whose length is not equal to `limit`
  (`items.length === limit`). So a page longer than `limit` also ends it, and not
  only a shorter one.
- The error message falls back to the response's own `statusText`, not to a
  standard reason phrase.
- Any status other than 200 aborts the aggregation and is passed through
  unchanged. This includes the other 2xx statuses.

## Model

| member | source | states |
|---|---|---|
| `Json.DecimalRoundTrip` | src/brevo-client.ts:134 | the numeral written for `limit` or `offset` in a page URL reads back as that same number |
| `Json.DecimalInjective` | src/brevo-client.ts:134 | different numbers give different numerals |
| `Pagination.PageEndpointInjective` | src/brevo-client.ts:134 | two page endpoints with the same endpoint, limit and extra query are equal only when their offsets are equal |
| `Pagination.PageRequestUrl` | src/brevo-client.ts:133-134 | the k-th page request goes to the base URL followed by the page endpoint with `offset = k * limit` |
| `Pagination.PageRequestsDistinct` | src/brevo-client.ts:133-144 | with a positive limit, no two page requests of one aggregation go to the same URL |
| `Fetch.MergeHeaders` | src/brevo-client.ts:93-97 | the merged headers have exactly the names of both maps; a caller header keeps its value; a default survives only where the caller did not name it |
| `Fetch.PrepareRequest` | src/brevo-client.ts:87-98 | the URL is the base URL followed by the endpoint; verb and body pass through; `Content-Type` is `application/json` and `api-key` is the configured key unless the caller supplies them; every caller header is sent as given |
| `Fetch.ErrorMessage` | src/brevo-client.ts:112 | the message is the body's `message` when present and truthy, otherwise the status text |
| `Fetch.Normalise` | src/brevo-client.ts:100-119 | the envelope carries the HTTP status; it is an error exactly when `ok` is false; the error carries the status, the fallback message, the body's `code` and the whole parsed body (null if unparsable); a success carries the parsed body or null |
| `Fetch.ErrorIffOutsideSuccessRange` | src/brevo-client.ts:109-117 | for a response whose `ok` flag matches its status, the envelope is an error exactly when the status is outside 200..299, and `error.status` is the HTTP status |
| `Fetch.UnparsableSuccessIsNullData` | src/brevo-client.ts:101-107 | an ok response with an empty or non-JSON body yields `data: null` and no error |
| `Fetch.SuccessRoundTrip` | src/brevo-client.ts:119 | an ok response returns its status and parsed body unchanged |
| `Pagination.StopIndex` | src/brevo-client.ts:133-145 | the loop ends at the first page that has a status other than 200 or a length other than `limit`; every page before it was a full 200 page |
| `Pagination.FetchAllPaginated` | src/brevo-client.ts:122-154 | the requests sent are exactly the first StopIndex + 1 page requests, so at least one page is always fetched; the result is `Aggregate`: the stopping page unchanged if its status is not 200, otherwise status 200 with `{count, [key]: concatenation of every fetched page}` |
| `Pagination.PageRequestsAt` | src/brevo-client.ts:133-144 | the k-th page request (from 0) is a GET of the same endpoint with the same `limit` and extra query and `offset = k * limit`, under the default headers |
| `Pagination.GatheredFullPages` | src/brevo-client.ts:141-145 | after n full pages exactly n * limit items have been gathered, which matches the next offset |
| `Pagination.AbortsOnFirstNon200` | src/brevo-client.ts:137-139 | the first page with a status other than 200, even another 2xx, is returned unchanged, with no partial result |
| `Pagination.SuccessCollectsEveryPage` | src/brevo-client.ts:141-153 | a 200 result comes from a 200 stopping page and is the synthetic body over the in-order concatenation of every fetched page's items, whose number is full pages times `limit` plus the last page's items |
| `Pagination.SyntheticBodyHoldsItems` | src/brevo-client.ts:147-153 | the synthetic body has exactly the keys `count` and the response key; the items sit under the key, and `count` is their number unless the key is itself `count` |
| `Pagination.ShortOrLongFirstPageStops` | src/brevo-client.ts:133-145 | the first page is always fetched, and a first page that is not full, whether empty, short or over-full, is the only page fetched |
| `Pagination.ThreePagesOf130` | src/brevo-client.ts:133-153 | pages of 50, 50 and 30 items with limit 50 take three requests and give 130 items |
| `Lists.FirstIndex` | src/brevo-client.ts:271-277 | the position found holds a present candidate and every candidate before it is missing |
| `Lists.FirstPresent` | src/brevo-client.ts:269-277 | the selected body has at most one key; it is empty exactly when no candidate is present; its key and value are those of the first present candidate, every earlier one being missing |
| `Lists.Serialised` | src/brevo-client.ts:279-285 | the JSON body keeps exactly the keys whose value is defined, each with its value |
| `Lists.AddContactsToList` | src/brevo-client.ts:268-286 | the request is a POST to `/contacts/lists/<id>/contacts/add` with the default headers, and its body is the first present field in the order emails, ids, extIds |
| `Lists.PrecedenceEmailsIdsExtIds` | src/brevo-client.ts:271-277 | emails win over ids and ids over extIds; the value is copied unchanged; the body is `{}` when none is present |
| `Lists.OnlyFieldIsSent` | src/brevo-client.ts:269-277 | a request with exactly one identifier key, holding a value, sends exactly that field with its value and nothing else |
| `Lists.UndefinedFieldShadowsLaterFields` | src/brevo-client.ts:271-277 | a key that is there with the value `undefined` still wins the selection, so the body sent is `{}` even when a later field holds identifiers |

## Left out

- The network call, `res.json()`, `JSON.stringify` and the async plumbing are not modelled. A request is a value. A response is a record of status, `ok` flag, status text and the parsed body, where None means that parsing failed.
- Transport failures (a rejected `fetch`) are exceptions outside the envelope and are not modelled.
- Environment configuration and its warning (lines 35-40 and 175-178) are not modelled. The `BrevoClient` constructor is not modelled either: its methods call the module-level helper, so the fetcher it builds is never used.
- The other endpoint bindings (contacts, list and folder CRUD, e-mail, SMS, ping) are not modelled. Each one is a fixed path and verb with no logic. The paginated bindings pass `limit = 50` and `&sort=asc`, and here those are ordinary arguments.
- Pagination.FetchAllPaginated: requires that some page of the supplied server sequence would end the loop. The source relies on the server for termination: with `limit = 0` and empty pages it never ends.
- Pagination.PageItems: a value under the key that is not an array is treated as empty. The source would spread it (a string splits into characters, other values throw).
- Json.Member: `?.` on something other than an object, and properties inherited from prototypes (an array's `length`, say), are treated as absent.
- Fetch.MergeHeaders: headers are a map with case-sensitive names. Header names given in another case, which `fetch` would combine, and a `Headers` instance or an array passed as headers are not modelled.
- Limits are non-negative integers. Ids and offsets are integers, and JavaScript's text form of very large or fractional numbers is not modelled. The order of keys in JSON objects is not modelled.
