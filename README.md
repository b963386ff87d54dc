# Dynamic content storing, modelled in Dafny

A model of two small Cloudflare Worker programs.

The first is `dynamic-content-storing`, a caching worker between clients and an origin server. It uses a key-value store as the cache:

- `GET /posts/` looks up the key `https://<ORIGIN_HOST>/posts/`. It serves the stored value with the stored headers when both a value and metadata are present. Otherwise it fetches that URL from the origin and returns the origin's response. When that response has a body, it also stores the body with the response headers as metadata, for one hour (TTL 3600 s).
- `DELETE /posts/` deletes that key and redirects to `/posts/`.
- `GET /posts/<sub-path>` is forwarded to the origin uncached. The store is neither read nor written.
- `headersToRecord` turns a header entry sequence into a name-to-value record.

The second is `origin-mock`, the test origin. It keeps an in-memory list of posts. `POST /posts` appends to the list. `GET /posts` and `GET /posts/delay` return the list. `/posts/delay` first waits for the `delay` query parameter in milliseconds, defaulting to 1000 and capped at 10000.

Files:

- `wrappers.dfy`: the `Option` type, standing in for `null`.
- `dynamic_content.dfy`: module `DynamicContent`. It holds:
  - the headers record;
  - the store, replies and responses;
  - the three handlers as functions of the store: `ServePosts`, `InvalidatePosts` and `PassThrough`;
  - the router;
  - class `Worker`, whose methods run the handlers imperatively on a `store` field and log origin requests in a `fetched` field. Each method is proved equal to its handler function.
- `cache_traces.dfy`: module `CacheTraces`. It runs arbitrary sequences of requests and entry expiries, and proves the whole-run properties.
- `origin_mock.dfy`: module `OriginMock`, with class `PostList` for the module-level `posts` array.

Modelling choices:

- The origin is an abstract function from URL to reply (status, header entries, optional body). It is fixed for a whole worker and a whole trace, so a URL always gets the same reply.
- Bodies are strings. The byte stream and `response.clone()` become a value, read once.
- The store write the worker defers with `waitUntil` is applied to the store before the handler returns. The response is fixed before the write.
- An entry's TTL is recorded but time is not modelled. In traces, the store may drop any entry at any point (`Expire`).
- Request routing is reduced to the one rule that matters. The exact `/posts/` handler is registered before the `/posts/` wildcard, so the wildcard never receives `/posts/` itself. A wildcard match is taken to be any path name starting with `/posts/`.

Behaviour of the code that the model keeps as written:

- The worker is a single-tier cache: one key, which is the origin URL itself, and one TTL of 3600 s.
- Any reply with a body is stored, whatever its status. A hit answers with `new Response(value, { headers })`, whose status is 200, so a cached 404 or 500 body is replayed with status 200 (`RoundTrip`).
- An empty stored value is falsy in `value && metadata`. So an origin reply with an empty body is stored but never served, and every GET goes to the origin again (`UncacheableStaysMiss`).
- `headersToRecord` assigns into a plain object literal. A header named `__proto__` reaches the prototype setter, which ignores a string, so the record never holds that name (`SetProperty`, `RecordKeys`).

## Model

| member | source | states |
|---|---|---|
| `DynamicContent.RecordKeys` | dynamic-content-storing/src/index.ts:13-19 | The record built from the header entries has exactly the header names as keys, except `__proto__`, which an object literal does not store (so empty input gives an empty record). |
| `DynamicContent.RecordLastWins` | dynamic-content-storing/src/index.ts:13-19 | Each name kept in the record maps to the value of the last entry with that name. |
| `DynamicContent.HeadersToRecord` | dynamic-content-storing/src/index.ts:13-19 | The loop that assigns `kv[key] = value` per entry yields the record `Record(entries)`: keys are the header names other than `__proto__`, and each holds the last value given for it. |
| `DynamicContent.OriginUrlInjective` | dynamic-content-storing/src/index.ts:58 | `https://` + host + path names the same URL for two paths exactly when the paths are equal. So a pass-through of any path other than `/posts/` never fetches the cached key. |
| `DynamicContent.ServePosts` | dynamic-content-storing/src/index.ts:23-48 | GET `/posts/` fetches the origin exactly when the store has no truthy value with metadata for the key, and then exactly once, for that key. A hit writes nothing. No other key is ever added, removed or changed. |
| `DynamicContent.InvalidatePosts` | dynamic-content-storing/src/index.ts:50-54 | DELETE `/posts/` answers with a redirect to `/posts/`, fetches nothing and removes the same key GET uses. Every other key keeps its entry. |
| `DynamicContent.RoundTrip` | dynamic-content-storing/src/index.ts:29-43 | After a miss whose reply has a non-empty body, the next GET is a hit. It fetches nothing and writes nothing. It serves the same body, with the same header names and values, and status 200. |
| `DynamicContent.UncacheableStaysMiss` | dynamic-content-storing/src/index.ts:29-36 | A reply with no body, or an empty one, leaves the key a miss, so the next GET fetches the origin again. |
| `DynamicContent.InvalidateThenMiss` | dynamic-content-storing/src/index.ts:50-54 | After DELETE, the key is absent and the next GET fetches the origin once and returns its reply. |
| `DynamicContent.PassThroughIgnoresQuery` | dynamic-content-storing/src/index.ts:57-58 | The pass-through target is built from the path name alone, so the query string is not forwarded. |
| `DynamicContent.Route` | dynamic-content-storing/src/index.ts:23-56 | GET `/posts/` reaches the cache handler, never the wildcard. Every routed request is under `/posts/`. |
| `DynamicContent.Worker.constructor` | dynamic-content-storing/src/index.ts:3-6 | A worker is bound to its origin host, its origin and its store, and has made no origin request yet. |
| `DynamicContent.Worker.GetPosts` | dynamic-content-storing/src/index.ts:23-48 | The behaviour for each case. Hit: the stored value and `metadata.headers`, with no fetch and no write. Miss: one fetch of the key, whose reply is returned. Miss with a body: exactly one put, under the same key, of that body with `Record(headers)` as metadata and TTL 3600. Miss without a body: no write. The result equals `ServePosts`. |
| `DynamicContent.Worker.DeletePosts` | dynamic-content-storing/src/index.ts:50-54 | The key is removed, all other keys are unchanged, and the response is a redirect to `/posts/`. |
| `DynamicContent.Worker.GetSubPath` | dynamic-content-storing/src/index.ts:56-62 | One fetch of `https://` + host + path name, whose status, headers and body are returned. The store is unchanged. |
| `CacheTraces.StepLoad` | dynamic-content-storing/src/index.ts:23-62 | For one request or expiry: origin requests for `/posts/`, plus whether a miss is pending afterwards, never exceed whether a miss was pending before, plus whether the event removed the key. |
| `CacheTraces.OriginLoadBound` | dynamic-content-storing/src/index.ts:23-62 | Over any sequence of routed requests and expiries, while the origin's `/posts/` reply has a non-empty body, the origin is asked for `/posts/` at most once more than the number of DELETEs and expiries of the key. |
| `CacheTraces.PassThroughIsolation` | dynamic-content-storing/src/index.ts:56-62 | Removing every pass-through request from a trace leaves the final store unchanged. |
| `CacheTraces.OtherKeysUntouched` | dynamic-content-storing/src/index.ts:23-62 | Over any trace, a key other than the `/posts/` key keeps its entry unless it expires. It is never written. |
| `OriginMock.Sleep` | origin-mock/src/index.ts:15-19 | The delay waited is at most 10000. A request of at most 10000 is used unchanged, and a larger one becomes 10000. |
| `OriginMock.DelayParam` | origin-mock/src/index.ts:33 | The `delay` parameter is never empty. A missing parameter becomes `"1000"`, an empty one falls back to it too, and any other value is kept. |
| `OriginMock.PostList.constructor` | origin-mock/src/index.ts:9 | The post list starts empty. |
| `OriginMock.PostList.ListPosts` | origin-mock/src/index.ts:25-30 | GET `/posts` returns exactly the current list and changes nothing. |
| `OriginMock.PostList.ListPostsDelayed` | origin-mock/src/index.ts:32-40 | GET `/posts/delay` returns the same list as GET `/posts` and changes nothing. It waits for the clamped parsed `delay` parameter. |
| `OriginMock.PostList.AddPost` | origin-mock/src/index.ts:42-46 | POST `/posts` appends the post at the end. The length grows by one, earlier posts are unchanged and in order, and the response redirects to `/`. |

## Left out

- Hono wiring: route registration and path matching beyond "`/posts/` before the `/posts/` wildcard, wildcard = path name starting with `/posts/`". In particular, GET `/posts` (no trailing slash), which Hono's trailing `/*` may also hand to the wildcard handler, has no route in the model. The same goes for HEAD handling and the status code `c.redirect` chooses; a redirect is modelled by its location only.
- Failures of the store read (`getWithMetadata`) and of the origin `fetch`: the handlers catch nothing, so such a failure ends the handler with the framework's error response and nothing is written. `Lookup` and the origin are total in the model, so this path is not modelled. The code does not turn a store failure into a miss.
- Changes of the origin's answers over time, such as the mock's post list after a POST or its `time` field. The modelled origin always gives the same reply for a URL.
- Real `fetch`, `Response` construction and stream semantics. Bodies are strings read once, and a string body and the bytes the store holds are identified.
- The normalisation a `Headers` object applies (lower-casing names, sorting, joining repeated names). `headersToRecord` is modelled over the entry sequence as given.
- `executionCtx.waitUntil` scheduling. The deferred put and delete are applied before the handler returns. Concurrent requests, failures of the deferred write and the store's eventual consistency across locations are not modelled.
- Real-time TTL expiry. The TTL is recorded in the entry, and expiry is an event that may occur at any point of a trace.
- The `contentType` field of the metadata type, which the worker never writes.
- `console.log` calls.
- `getTime` in the mock origin, which depends on the clock, time zone and locale, and so the `time` field of its JSON answers.
- The timer in `sleep`. Only the delay it is given is modelled.
- `Number()` parsing of `delay`, including NaN and fractions. It is an abstract function from string to integer.
- `parseBody` form decoding. The post arrives already parsed.
- The mock's `GET /` handler, which answers the text `root`, and the unused `html` import.
