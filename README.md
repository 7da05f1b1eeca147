# Agent gateway core, modelled in Dafny

This project models the core of a serverless "tools for agents" gateway. Each
endpoint accepts one request or a batch of requests and answers in a
`{status, message, data}` envelope. Five pieces are modelled:

- `TokenLifecycle` (utils/getToken.ts): the upload-token cache.
  - A token record lives in one of three stores: a process-wide memory slot,
    a JSON file or a singleton database document.
  - A record is stale when it is missing, empty or within five minutes of
    expiry. A stale record is refreshed from the remote issuer and written
    back to the same store.
  - The database connection is memoized. It is made by a bounded loop of
    attempts with linear backoff.
  - `TokenManager` is a class whose fields are the module-level state.
- `IpLookup` (api/ip.ts): a read-through cache of geolocation records.
  - A miss fetches the record once, adds two description strings and upserts
    it.
  - Nothing returned carries `_id` or `timezone`.
  - The batch handler caps a call at 50 requests and answers in request
    order.
  - `IpLookupCache` is a class over the collection.
- `ImageSearch` (functions/searchGoogle/googleImageSearch.ts): the image
  search.
  - Each request's size is rewritten into a query-string suffix, in place on
    the request object (`ImageSearchOptions` is a class).
  - Every request must carry a search term.
  - The answer is one result list per request.
- `SerpSearch` (api/search-google.ts): the web search.
  - Defaults fill in the missing search parameters.
  - Five position fields are dropped from every organic result.
  - The call is capped at 50 requests.
  - Errors become a 500 reply with `Error: <message>`.
- `WhatsAppImage` (functions/communication/viewAndDescribeWhatsAppImage.ts):
  describes a WhatsApp image.
  - The hosted image URL is rewritten to a scaled-down rendition, using
    JavaScript `split` semantics.
  - The quality default decides the vision model's detail level.
  - An empty analysis falls back to a fixed text.
  - The flow is written out step by step, down to `{success: false, error}`.

Two shared modules support them. `Common` holds Option/Result, JSON values,
template literals and the ordered reading of `Promise.all`. `Gateway` holds
the HTTP methods, how a body becomes a list of requests, the 50-request cap
and the envelope.

These are passed in as parameters rather than modelled:

- the clock: milliseconds since the epoch;
- the token issuer, the database driver's connection attempts and the IP
  provider;
- the image-search library and the SERP provider;
- the API-key pool;
- the WhatsApp media lookup, the download, the image host and the vision
  model.

`Promise.all` is read as an ordered map whose first failing element, in
request order, decides the outcome.

One might expect `getToken` never to return a token inside the 300-second
buffer. The code does not check a freshly fetched token's expiry, and the model
follows the code: `TokenLifecycle.RefreshedTokenIsNotRechecked` shows an
already-expired issuer token being stored and returned.

## Model

| member | source | states |
|---|---|---|
| TokenLifecycle.IsTokenExpired | utils/getToken.ts:96-101 | expired iff `expiresAt` is absent or 0, or the floored current second is at least `expiresAt - 300`; a record that is not expired has more than 300 s left |
| TokenLifecycle.ExpiryIsMonotone | utils/getToken.ts:96-101 | once expired, a record stays expired at every later time |
| TokenLifecycle.NeedsRefresh | utils/getToken.ts:145 | the refresh condition: a missing or empty token, or an expired record; `TokenLifecycle.Decide` states what follows from it |
| TokenLifecycle.EmptyForcesRefresh | utils/getToken.ts:145 | an empty record (`{}`, a missing file or document) always needs a refresh |
| TokenLifecycle.FetchToken | utils/getToken.ts:69-94 | success iff the issuer answered; then the record is the issuer's token, issuedAt and expiresAt; any failure is `Unable to fetch token` |
| TokenLifecycle.Decide | utils/getToken.ts:145-157 | the stored token is kept iff it is present, non-empty and not expired, with more than 300 s left; otherwise the issuer's record replaces it, or the call fails when the issuer fails |
| TokenLifecycle.RefreshedRecordIsKept | utils/getToken.ts:145-157 | a refreshed record is returned unchanged by every later read whose clock is still outside the buffer, whatever the issuer would answer then |
| TokenLifecycle.RefreshedTokenIsNotRechecked | utils/getToken.ts:146-155 | an issuer record that is already expired is still stored and its token returned |
| TokenLifecycle.SetFields | utils/getToken.ts:129-132 | the `$set` upsert replaces the fields present in the update and keeps the others |
| TokenLifecycle.SetFetchedReplaces | utils/getToken.ts:129-132 | saving a fetched record replaces the whole document |
| TokenLifecycle.RetryFrom | utils/getToken.ts:43-53 | the attempts from a given attempt number on; its facts, per attempt, are stated by `TokenLifecycle.RetryFromFacts` |
| TokenLifecycle.RetryFromFacts | utils/getToken.ts:43-53 | from attempt `a` on: no attempt iff `a > attempts`; the outcome is the last attempt's own; every earlier one failed; the i-th wait is 1000·(a+i) ms |
| TokenLifecycle.Retry | utils/getToken.ts:42-54 | connectWithRetry from attempt 1; its contract is stated by `TokenLifecycle.RetryFacts` |
| TokenLifecycle.RetryFacts | utils/getToken.ts:42-54 | at most `attempts` attempts; every attempt before the last fails; the outcome is the last attempt's own; an error means all attempts failed; the k-th wait is 1000·k ms; no attempts gives `Connection attempts exceeded.` |
| TokenLifecycle.FifthAttemptSucceeds | utils/getToken.ts:42-54 | four failures then a success give the fifth connection after waits of 1, 2, 3 and 4 s |
| TokenLifecycle.AllAttemptsFail | utils/getToken.ts:42-54 | five failures surface the fifth attempt's error after five tries |
| TokenLifecycle.ConnectWithRetry | utils/getToken.ts:42-54 | the loop's outcome, attempt count and waits are exactly those of `Retry` |
| TokenLifecycle.TokenManager.constructor | utils/getToken.ts:21-27 | a fresh process: empty memory slot and no connection |
| TokenLifecycle.TokenManager.ConnectToMongo | utils/getToken.ts:56-62 | the retry loop runs only with no client; then the client and db are memoized and later calls attempt nothing; no token store changes |
| TokenLifecycle.TokenManager.GetTokenFromMemory | utils/getToken.ts:115-117 | the memory slot as it is; `TokenLifecycle.TokenManager.GetToken` states its use |
| TokenLifecycle.TokenManager.GetTokenFromDisk | utils/getToken.ts:103-109 | the file's record, or `{}` when there is no file |
| TokenLifecycle.TokenManager.SaveTokenToMemory | utils/getToken.ts:119-121 | the memory slot becomes the record; nothing else changes |
| TokenLifecycle.TokenManager.SaveTokenToDisk | utils/getToken.ts:111-113 | the file becomes the record; nothing else changes |
| TokenLifecycle.TokenManager.GetTokenFromDatabase | utils/getToken.ts:123-127 | connect, then the document or `{}`; a failed connection surfaces its error |
| TokenLifecycle.TokenManager.SaveTokenToDatabase | utils/getToken.ts:129-132 | the document becomes the `$set` upsert of the record; nothing else changes |
| TokenLifecycle.TokenManager.GetToken | utils/getToken.ts:134-158 | an unreachable database fails with the connection error before any issuer call; otherwise the result follows `Decide`: one issuer call only when a refresh is needed, the new record written to the chosen store only, no write on keep or on issuer failure |
| TokenLifecycle.MemoryRefreshThenReuse | utils/getToken.ts:134-158 | on the memory store, a refresh followed by a read within validity returns the same token with one issuer call and one write |
| Common.Omit | api/ip.ts:84-85 | the record without the given keys, every other field kept |
| Common.CollectFacts | api/ip.ts:178-192 | the ordered `Promise.all`: success iff every element succeeds, the values one per element in order; otherwise the error of the first failing element |
| Gateway.Requests | api/ip.ts:160-168 | GET carries its query as one request, POST its array body or its object body wrapped in a list, any other method none |
| Gateway.Failure | api/ip.ts:199-203 | 500, `status: false`, `Error: <message>`, no data |
| IpLookup.CreateDescription | api/ip.ts:41-43 | the short template filled from the record; `IpLookup.Describe` states where it is stored |
| IpLookup.CreateDetailedDescription | api/ip.ts:45-47 | the long template filled from the record; `IpLookup.DetailedIgnoresDescription` shows it does not read `description` |
| IpLookup.Describe | api/ip.ts:77-78 | the raw record plus `description` and `detailedDescription` rendered from the raw fields, every other field kept |
| IpLookup.DetailedIgnoresDescription | api/ip.ts:45-47 | the detailed description does not depend on the `description` field just set |
| IpLookup.Strip | api/ip.ts:84-85 | the record without `_id` and `timezone`, the other fields kept |
| IpLookup.FindInDB | api/ip.ts:49-58 | found iff a document's `ip` is the requested string; its fields without `_id` |
| IpLookup.Upsert | api/ip.ts:60-64 | the `$set` upsert keyed by the record's `ip`; its contract is stated by `IpLookup.UpsertFacts` |
| IpLookup.UpsertFacts | api/ip.ts:60-64 | the upsert keyed by the record's `ip`: a match keeps its `_id` and its other fields, otherwise a new document; every field of the record is set; no other document changes; documents stay indexed by `ip` |
| IpLookup.Process | api/ip.ts:66-88 | processIp on a collection; its contract is stated by `IpLookup.HitIsReadOnly`, `IpLookup.MissFetchesOnce` and `IpLookup.ResolveTwice` |
| IpLookup.LookUp | api/ip.ts:90-96 | an empty ip fails with `IP address is required` before the cache or provider is touched |
| IpLookup.HitIsReadOnly | api/ip.ts:66-70 | a hit fetches nothing, writes nothing and returns the stored record stripped |
| IpLookup.MissFetchesOnce | api/ip.ts:71-82 | a miss calls the provider once; on success the described record, with `timezone`, is stored under its own `ip` and returned stripped; on failure nothing is stored |
| IpLookup.NeverReturnsInternalFields | api/ip.ts:84-87 | no returned record carries `_id` or `timezone` |
| IpLookup.ResolveTwice | api/ip.ts:66-88 | resolving an ip twice fetches at most once and returns the same record, when the provider echoes the ip |
| IpLookup.UnechoedIpIsFetchedAgain | api/ip.ts:60-64 | a provider record whose `ip` differs from the request is stored under another key, so the next lookup fetches again |
| IpLookup.RunBatch | api/ip.ts:178-192 | the per-request map in request order; its contract is stated by `IpLookup.BatchShape`, `IpLookup.BatchElements` and `IpLookup.AllCachedBatch` |
| IpLookup.BatchShape | api/ip.ts:178-192 | a successful batch has one element per request in order; requests without ip are `IP address is required`, the others found records without internal fields; a failed batch carries a provider error for one requested ip |
| IpLookup.BatchElements | api/ip.ts:178-192 | in a successful batch, element i is request i's own found record, looked up against the collection as the earlier requests left it |
| IpLookup.AllCachedBatch | api/ip.ts:178-192 | when every ip is cached: no fetch, no write, and element i is request i's stored record stripped, or `IP address is required` |
| IpLookup.IpLookupCache.constructor | api/ip.ts:49-52 | the collection as given, with no fetches |
| IpLookup.IpLookupCache.StoreInDB | api/ip.ts:60-64 | the collection becomes the upsert of the record |
| IpLookup.IpLookupCache.ProcessIp | api/ip.ts:66-88 | result, collection and provider calls are those of `Process` |
| IpLookup.IpLookupCache.IpAddressLookUp | api/ip.ts:90-96 | result, collection and provider calls are those of `LookUp` |
| IpLookup.IpLookupCache.LookUpAll | api/ip.ts:178-192 | the loop over the batch gives `RunBatch`'s elements, collection and provider calls |
| IpLookup.IpLookupCache.Handle | api/ip.ts:99-205 | OPTIONS is 200 with the description; another method is 500 `Error: Invalid request method`; more than 50 requests is 400 with `data: []` and nothing changes; otherwise 200 with the batch, or 500 `Error: <message>` |
| ImageSearch.SizeCode | functions/searchGoogle/googleImageSearch.ts:9-14 | a code exists iff the size is small, medium, large or icon |
| ImageSearch.WithSize | functions/searchGoogle/googleImageSearch.ts:8-18 | a mapped size appends `&<code>` to the old addition or `''`; otherwise the addition is untouched |
| ImageSearch.Sized | functions/searchGoogle/googleImageSearch.ts:7-18 | only the query-string addition changes |
| ImageSearch.SizedTwiceAppendsTwice | functions/searchGoogle/googleImageSearch.ts:15-17 | options searched twice carry the size code twice; the rewrite is not idempotent |
| ImageSearch.Outcome | functions/searchGoogle/googleImageSearch.ts:55-61 | a missing term throws `Search term is required`; otherwise the library's reply to the sized options |
| ImageSearch.BatchBody | functions/searchGoogle/googleImageSearch.ts:54-75 | the answer to an accepted batch; its contract is stated by `ImageSearch.BatchBodyFacts` |
| ImageSearch.BatchBodyFacts | functions/searchGoogle/googleImageSearch.ts:54-75 | success iff every request has a term and every search succeeds; the data is each sized request's result in order; a failure is `Error: ` with the missing-term message or a search's error; a missing term decides the call |
| ImageSearch.Searches | functions/searchGoogle/googleImageSearch.ts:54-63 | the options the library receives; its contract is stated by `ImageSearch.SearchesFacts` |
| ImageSearch.SearchesFacts | functions/searchGoogle/googleImageSearch.ts:54-63 | every request with a term is searched, sized, even when another lacks one; nothing else is searched |
| ImageSearch.RunImageSearch | functions/searchGoogle/googleImageSearch.ts:7-29 | the options object is left sized in place and the library receives it |
| ImageSearch.Settle | functions/searchGoogle/googleImageSearch.ts:55-61 | one request's outcome, what the library received, and the object's new state |
| ImageSearch.SearchAll | functions/searchGoogle/googleImageSearch.ts:54-69 | the loop gives the answer `BatchBody` and the searches `Searches` of the requests as they were, and leaves each object in its after-state |
| ImageSearch.GoogleImageSearch | functions/searchGoogle/googleImageSearch.ts:31-76 | another method is `Invalid request method` and more than 50 requests are refused with `data: []` (exactly 50 are accepted), both before anything is searched or changed; otherwise the batch answer |
| SerpSearch.IntToStringRoundTrip | api/search-google.ts:42 | the decimal rendering of the result count reads back as that count |
| SerpSearch.BuildParams | api/search-google.ts:35-48 | a request's query parameters; its contract is stated by `SerpSearch.BuildParamsFacts` |
| SerpSearch.BuildParamsFacts | api/search-google.ts:35-48 | each parameter is the request's truthy value or its fixed default; `num` reads back as the requested count or 1 |
| SerpSearch.DefaultsOfBareRequest | api/search-google.ts:35-48 | a request with only a term is sent with every default |
| SerpSearch.FilterOrganic | api/search-google.ts:56-59 | one result per organic result, in order, without the five position fields, other fields kept |
| SerpSearch.SearchOne | api/search-google.ts:34-70 | one request: its parameters, the provider's reply filtered, or `Failed to retrieve results for query "<term>": <message>`; stated by `SerpSearch.SearchAllFacts` |
| SerpSearch.SearchAll | api/search-google.ts:33-71 | the ordered `Promise.all` over the requests; its contract is stated by `SerpSearch.SearchAllFacts` |
| SerpSearch.SearchAllFacts | api/search-google.ts:33-71 | success iff the provider answered every request; then per request its term, filtered results and page URLs; a failure names a failed request's term and error |
| SerpSearch.Handle | api/search-google.ts:8-84 | the handler; its contract is stated by `SerpSearch.OptionsNeedsNoKey` and `SerpSearch.HandleFacts` |
| SerpSearch.OptionsNeedsNoKey | api/search-google.ts:9-11 | OPTIONS answers the description whatever the key pool and provider do |
| SerpSearch.HandleFacts | api/search-google.ts:13-83 | a key failure or another method is 500 `Error: …`; more than 50 requests is 400 without data (exactly 50 are accepted); otherwise 200 with the batch or 500 with its error |
| WhatsAppImage.FirstIndex | functions/communication/viewAndDescribeWhatsAppImage.ts:61 | the first occurrence of the separator, or none anywhere |
| WhatsAppImage.Split | functions/communication/viewAndDescribeWhatsAppImage.ts:61 | `split` on a non-empty separator, at least one piece; its contracts are stated by `WhatsAppImage.SplitJoin` and `WhatsAppImage.SplitPiecesAreFree` |
| WhatsAppImage.SplitJoin | functions/communication/viewAndDescribeWhatsAppImage.ts:61 | joining the split pieces with the separator gives the string back |
| WhatsAppImage.SplitPiecesAreFree | functions/communication/viewAndDescribeWhatsAppImage.ts:61 | no split piece contains the separator |
| WhatsAppImage.ScaleDownUrlTransform | functions/communication/viewAndDescribeWhatsAppImage.ts:60-63 | the scaled-down URL; its contract is stated by `WhatsAppImage.ScaleDownFacts` and `WhatsAppImage.ScaleDownSingleMarker` |
| WhatsAppImage.ScaleDownFacts | functions/communication/viewAndDescribeWhatsAppImage.ts:60-63 | the scaling step goes right after the first `/upload/`, followed by the text up to any second `/upload/`; a URL without `/upload/` gets the step and `undefined` appended |
| WhatsAppImage.ScaleDownSingleMarker | functions/communication/viewAndDescribeWhatsAppImage.ts:60-63 | with one `/upload/`, the step is inserted after it and nothing else changes |
| WhatsAppImage.Quality | functions/communication/viewAndDescribeWhatsAppImage.ts:18 | an absent quality defaults to `low` |
| WhatsAppImage.Detail | functions/communication/viewAndDescribeWhatsAppImage.ts:76 | detail is `high` iff the quality is `high`, otherwise `low` |
| WhatsAppImage.Analysis | functions/communication/viewAndDescribeWhatsAppImage.ts:83 | the answer's content when non-empty, otherwise `No analysis available`; never empty |
| WhatsAppImage.ViewAndDescribe | functions/communication/viewAndDescribeWhatsAppImage.ts:17-104 | the whole flow; its contract is stated by `WhatsAppImage.ViewAndDescribeFacts` |
| WhatsAppImage.ViewAndDescribeFacts | functions/communication/viewAndDescribeWhatsAppImage.ts:17-103 | a description needs a successful upload with a URL; the vision model saw the scaled URL and the detail; the metadata is the upload's; a host error is `Cloudinary upload failed`; a missing result or URL is `Upload result is invalid` |

## Left out

- I/O of every kind is a parameter: HTTP calls, the database driver, the file system, the image host, the vision model, the WhatsApp API, the key pool and the clock. Their transport errors collapse into one error message.
- utils/mongo.ts is not part of this model. The IP cache's collection is always reachable, and its connection handling is not modelled.
- Gateway.Requests: request items are taken to be objects. A missing body or a `null` array element, whose field read throws in all three handlers and fails the whole call (500 `Error: Cannot …` for ip and web search, `status: false` with that message for image search), is not modelled.
- Request-body JSON parsing, and `parseQueryParams`: the query string is taken as already parsed into one request.
- The OPTIONS interface descriptions are static content. They are one `InterfaceDescription` value.
- `Promise.all` timing: the first failing request in request order is the reported one. For image search, a missing term takes precedence over any library error. Side effects and oracle calls of requests after the failing one are not modelled for the IP and SERP batches.
- JSON write errors of the token file and of the driver's `updateOne` are not modelled. A write always succeeds.
- TokenLifecycle.TokenManager.GetTokenFromDisk: a token file that exists but does not parse makes `getToken` throw in the source (utils/getToken.ts:106); the model's file either holds a record or is absent, so that error is not expressed.
- IpLookup.RunBatch: the batch is read sequentially, so a batch that repeats an uncached ip fetches it once (the second lookup is a hit). In the source the concurrent `map` lets both lookups reach `findOne` before either upsert, so both miss and both fetch; that interleaving is not modelled.
- IpLookup.IpLookupCache.Handle: a request whose `ip` is not a string is not modelled; ips are optional strings.
- ImageSearch.SizeCode: sizes that name inherited object properties (such as `constructor`) are treated as unmapped.
- ImageSearch.GoogleImageSearch: requires the request objects to be distinct. Aliasing between them is not modelled, and a parsed JSON body has none.
- SerpSearch.BuildParams: `numberOfResults` and `max_page` are integers; strings or fractions sent there are not modelled.
- WhatsAppImage.ViewAndDescribe: the random choice between the two credential sets, `cloudinary.config`, the stream piping and the fire-and-forget `destroy` of the upload are not modelled.
- api/toolsHandler.ts, functions/handleToolOptions.ts, functions/resolvers/locationTypes.ts, functions/screenshot/getWebsiteScreenshot.ts, functions/weather/handleWeatherOptions.ts and utils/updateCloudinaryMetadata.ts are outside the modelled core.
- uploadGDriveHelper in utils/getToken.ts is not modelled: it only forwards a form to the uploader with the token.
- Logging (`console.log`) is left out.
