/**
 * The caching worker of dynamic-content-storing: a key-value store put in
 * front of an origin server.
 *
 *  - GET /posts/ serves the cached copy of the origin's /posts/ resource when
 *    the store holds one, and otherwise fetches the origin, answers with its
 *    response and stores the body (TTL one hour) for the next request;
 *  - DELETE /posts/ removes the cached copy and redirects to /posts/;
 *  - GET /posts/<anything else> is forwarded to the origin, uncached.
 *
 * The key-value store is a map from keys to entries. The origin is an
 * abstract function from URL to reply. Writes that the worker defers until
 * after the response (`waitUntil`) are applied to the store by the time the
 * handler returns.
 */
module DynamicContent {
  import opened Wrappers

  // ---------------------------------------------------------------------
  // Headers
  // ---------------------------------------------------------------------

  /** One entry of a `Headers` object, in iteration order. */
  datatype Header = Header(name: string, value: string)

  /** The names that occur in a header entry sequence. */
  function Names(hs: seq<Header>): set<string>
  {
    set i | 0 <= i < |hs| :: hs[i].name
  }

  /** Entry `i` is the last one in `hs` with its name. */
  predicate IsLastWithName(hs: seq<Header>, i: int)
  {
    0 <= i < |hs| && forall j :: i < j < |hs| ==> hs[j].name != hs[i].name
  }

  /**
   * The one property name an assignment to a plain object literal does not
   * store: it reaches the prototype setter, which ignores a string value.
   */
  const ProtoName: string := "__proto__"

  /** `kv[name] = value` on a plain object literal. */
  function SetProperty(kv: map<string, string>, name: string, value: string): map<string, string>
  {
    if name == ProtoName then kv else kv[name := value]
  }

  /** The record that assigning the entries one after another builds. */
  function Record(hs: seq<Header>): map<string, string>
  {
    if hs == [] then map[]
    else SetProperty(Record(hs[..|hs| - 1]), hs[|hs| - 1].name, hs[|hs| - 1].value)
  }

  /** The record has exactly one key per header name, except `__proto__`, which it never holds. */
  lemma {:induction false} RecordKeys(hs: seq<Header>)
    ensures Record(hs).Keys == Names(hs) - {ProtoName}
  {
    if hs != [] {
      var n := |hs| - 1;
      var init := hs[..n];
      RecordKeys(init);
      forall x | x in Names(hs) ensures x in Names(init) + {hs[n].name} {
        var i :| 0 <= i < |hs| && hs[i].name == x;
        if i < n { assert init[i] == hs[i]; }
      }
      forall x | x in Names(init) ensures x in Names(hs) {
        var i :| 0 <= i < |init| && init[i].name == x;
        assert hs[i] == init[i];
      }
    }
  }

  /** Each header name kept in the record maps to the value of the last entry with that name. */
  lemma {:induction false} RecordLastWins(hs: seq<Header>)
    ensures forall i :: IsLastWithName(hs, i) && hs[i].name != ProtoName ==>
                        hs[i].name in Record(hs) && Record(hs)[hs[i].name] == hs[i].value
  {
    if hs != [] {
      var n := |hs| - 1;
      var init := hs[..n];
      RecordLastWins(init);
      forall i | IsLastWithName(hs, i) && hs[i].name != ProtoName
        ensures hs[i].name in Record(hs) && Record(hs)[hs[i].name] == hs[i].value
      {
        if i < n {
          assert init[i] == hs[i];
          assert IsLastWithName(init, i);
        }
      }
    }
  }

  /** `headersToRecord`: copies the header entries, in order, into a fresh record. */
  method HeadersToRecord(entries: seq<Header>) returns (kv: map<string, string>)
    ensures kv == Record(entries)
    ensures kv.Keys == Names(entries) - {ProtoName}
    ensures forall i :: IsLastWithName(entries, i) && entries[i].name != ProtoName ==> kv[entries[i].name] == entries[i].value
  {
    kv := map[];
    for i := 0 to |entries|
      invariant kv == Record(entries[..i])
    {
      assert entries[..i + 1][..i] == entries[..i];
      kv := SetProperty(kv, entries[i].name, entries[i].value);
    }
    assert entries[..|entries|] == entries;
    RecordKeys(entries);
    RecordLastWins(entries);
  }

  // ---------------------------------------------------------------------
  // Store, origin and responses
  // ---------------------------------------------------------------------

  const PostsPath: string := "/posts/"

  /** `expirationTtl` of every entry the worker writes, in seconds. */
  const CacheTtl: nat := 60 * 60

  /** What the worker stores beside a body: the response headers as a record. */
  datatype Metadata = Metadata(headers: map<string, string>)

  datatype Entry = Entry(value: string, metadata: Option<Metadata>, ttl: nat)

  type Store = map<string, Entry>

  /** The result of `getWithMetadata`: both parts are null for a missing key. */
  datatype Found = Found(value: Option<string>, metadata: Option<Metadata>)

  /** A reply of the origin server: a null body is `None`. */
  datatype Reply = Reply(status: nat, headers: seq<Header>, body: Option<string>)

  /** The origin server, seen as a function from URL to reply. */
  type Origin = string -> Reply

  /** Response headers: either a fetched entry sequence or a record given to `new Response`. */
  datatype HeaderView = Entries(list: seq<Header>) | FromRecord(record: map<string, string>)

  datatype Response =
    | Served(status: nat, headers: HeaderView, body: Option<string>)
    | Redirect(location: string)

  /** A request URL: only its path name and query string matter here. */
  datatype Url = Url(pathname: string, search: string)

  /** The name-to-value view of response headers. */
  function HeaderRecord(h: HeaderView): map<string, string>
  {
    match h
    case Entries(list) => Record(list)
    case FromRecord(record) => record
  }

  /** The origin URL for a path name: `https://` + host + path. */
  function OriginUrl(host: string, pathname: string): string
  {
    "https://" + host + pathname
  }

  /** The one key under which /posts/ is cached, used by both GET and DELETE. */
  function PostsKey(host: string): string
  {
    OriginUrl(host, PostsPath)
  }

  /** Two origin URLs on the same host are equal exactly when their path names are. */
  lemma OriginUrlInjective(host: string, p: string, q: string)
    ensures OriginUrl(host, p) == OriginUrl(host, q) <==> p == q
  {
    var prefix := "https://" + host;
    if OriginUrl(host, p) == OriginUrl(host, q) {
      assert OriginUrl(host, p)[|prefix|..] == p;
      assert OriginUrl(host, q)[|prefix|..] == q;
    }
  }

  /** `getWithMetadata(key)`. */
  function Lookup(store: Store, key: string): Found
  {
    if key in store then Found(Some(store[key].value), store[key].metadata)
    else Found(None, None)
  }

  /** JavaScript truthiness of a string that may be null: the empty string is false. */
  predicate Truthy(s: Option<string>)
  {
    s.Some? && s.value != ""
  }

  /** `value && metadata`: the store holds something the worker will serve for `key`. */
  predicate IsHit(store: Store, key: string)
  {
    var found := Lookup(store, key);
    Truthy(found.value) && found.metadata.Some?
  }

  /** The origin's reply, returned as it is. */
  function Forward(reply: Reply): Response
  {
    Served(reply.status, Entries(reply.headers), reply.body)
  }

  /** The entry a miss writes for a reply that has a body. */
  function CachedEntry(reply: Reply): Entry
    requires reply.body.Some?
  {
    Entry(reply.body.value, Some(Metadata(Record(reply.headers))), CacheTtl)
  }

  /** What one request does: the response, the store afterwards, the origin URLs fetched. */
  datatype Outcome = Outcome(response: Response, store: Store, fetched: seq<string>)

  // ---------------------------------------------------------------------
  // The handlers as functions of the store
  // ---------------------------------------------------------------------

  /** GET /posts/. */
  function ServePosts(host: string, origin: Origin, store: Store): (o: Outcome)
    // the origin is asked exactly when the store has nothing to serve, and then once, for the key
    ensures o.fetched == [] <==> IsHit(store, PostsKey(host))
    ensures o.fetched == [] || o.fetched == [PostsKey(host)]
    // a hit writes nothing; no request writes any other key
    ensures o.fetched == [] ==> o.store == store
    ensures forall k :: k != PostsKey(host) ==> (k in o.store <==> k in store)
    ensures forall k :: k != PostsKey(host) && k in o.store ==> o.store[k] == store[k]
  {
    var key := PostsKey(host);
    var found := Lookup(store, key);
    if Truthy(found.value) && found.metadata.Some? then
      Outcome(Served(200, FromRecord(found.metadata.value.headers), found.value), store, [])
    else
      var reply := origin(key);
      var store' := if reply.body.Some? then store[key := CachedEntry(reply)] else store;
      Outcome(Forward(reply), store', [key])
  }

  /** DELETE /posts/. */
  function InvalidatePosts(host: string, store: Store): (o: Outcome)
    ensures o.response == Redirect(PostsPath) && o.fetched == []
    ensures PostsKey(host) !in o.store
    ensures forall k :: k != PostsKey(host) ==> (k in o.store <==> k in store)
    ensures forall k :: k in o.store ==> o.store[k] == store[k]
  {
    Outcome(Redirect(PostsPath), store - {PostsKey(host)}, [])
  }

  /** GET /posts/<sub-path>: the request's path name (not its query) on the origin host. */
  function PassThrough(host: string, origin: Origin, store: Store, url: Url): Outcome
  {
    var target := OriginUrl(host, url.pathname);
    Outcome(Forward(origin(target)), store, [target])
  }

  // ---------------------------------------------------------------------
  // Properties of the handlers
  // ---------------------------------------------------------------------

  /** The origin reply will be served from the store once cached: it has a non-empty body. */
  predicate Cacheable(reply: Reply)
  {
    Truthy(reply.body)
  }

  /**
   * A miss followed by a second GET: the second GET is a hit that fetches
   * nothing, writes nothing and serves the body the first one returned, with
   * the same header names and values, but always with status 200.
   */
  lemma RoundTrip(host: string, origin: Origin, store: Store)
    requires !IsHit(store, PostsKey(host))
    requires Cacheable(origin(PostsKey(host)))
    ensures var first := ServePosts(host, origin, store);
            var second := ServePosts(host, origin, first.store);
            && first.fetched == [PostsKey(host)]
            && IsHit(first.store, PostsKey(host))
            && second.fetched == []
            && second.store == first.store
            && second.response.Served? && second.response.status == 200
            && second.response.body == first.response.body
            && HeaderRecord(second.response.headers) == HeaderRecord(first.response.headers)
  {
  }

  /**
   * A reply without a body, or with an empty one, never makes the key a hit:
   * every later GET goes to the origin again.
   */
  lemma UncacheableStaysMiss(host: string, origin: Origin, store: Store)
    requires !IsHit(store, PostsKey(host))
    requires !Cacheable(origin(PostsKey(host)))
    ensures var o := ServePosts(host, origin, store);
            && o.fetched == [PostsKey(host)]
            && !IsHit(o.store, PostsKey(host))
  {
  }

  /** After DELETE /posts/ the next GET /posts/ is a miss that fetches the origin. */
  lemma InvalidateThenMiss(host: string, origin: Origin, store: Store)
    ensures var o := InvalidatePosts(host, store);
            && PostsKey(host) !in o.store
            && ServePosts(host, origin, o.store).fetched == [PostsKey(host)]
            && ServePosts(host, origin, o.store).response == Forward(origin(PostsKey(host)))
  {
  }

  /** The pass-through target depends on the path name only, never on the query string. */
  lemma PassThroughIgnoresQuery(host: string, origin: Origin, store: Store, pathname: string, q1: string, q2: string)
    ensures PassThrough(host, origin, store, Url(pathname, q1)) == PassThrough(host, origin, store, Url(pathname, q2))
  {
  }

  // ---------------------------------------------------------------------
  // Routing
  // ---------------------------------------------------------------------

  datatype Request = GetPosts | DeletePosts | GetSubPath(url: Url)

  /** The wildcard handler never receives /posts/ itself. */
  predicate Dispatchable(r: Request)
  {
    r.GetSubPath? ==> r.url.pathname != PostsPath
  }

  /**
   * Route registration order: GET /posts/ before the GET /posts/ wildcard, DELETE /posts/.
   * Anything else has no handler.
   */
  function Route(verb: string, url: Url): (r: Option<Request>)
    ensures r.Some? ==> Dispatchable(r.value)
    ensures r.Some? ==> PostsPath <= url.pathname
    ensures verb == "GET" && url.pathname == PostsPath ==> r == Some(GetPosts)
  {
    if url.pathname == PostsPath then
      if verb == "GET" then Some(GetPosts)
      else if verb == "DELETE" then Some(DeletePosts)
      else None
    else if verb == "GET" && PostsPath <= url.pathname then Some(GetSubPath(url))
    else None
  }

  /** The handler a request reaches. */
  function Handle(host: string, origin: Origin, store: Store, r: Request): Outcome
  {
    match r
    case GetPosts => ServePosts(host, origin, store)
    case DeletePosts => InvalidatePosts(host, store)
    case GetSubPath(url) => PassThrough(host, origin, store, url)
  }

  // ---------------------------------------------------------------------
  // The worker
  // ---------------------------------------------------------------------

  /** One deployed worker: its bindings, the store it fronts, and the origin requests it made. */
  class Worker {
    const originHost: string
    const origin: Origin
    var store: Store
    var fetched: seq<string>

    constructor (originHost: string, origin: Origin, store: Store)
      ensures this.originHost == originHost && this.origin == origin
      ensures this.store == store && fetched == []
    {
      this.originHost := originHost;
      this.origin := origin;
      this.store := store;
      fetched := [];
    }

    /** GET /posts/. */
    method GetPosts() returns (response: Response)
      modifies this
      ensures var o := ServePosts(originHost, origin, old(store));
              response == o.response && store == o.store && fetched == old(fetched) + o.fetched
      // hit: the stored value and headers, no origin request, no write
      ensures var key := PostsKey(originHost);
              IsHit(old(store), key) ==>
                && response == Served(200, FromRecord(old(store)[key].metadata.value.headers), Some(old(store)[key].value))
                && store == old(store) && fetched == old(fetched)
      // miss: exactly one origin request, whose reply is returned
      ensures var key := PostsKey(originHost);
              !IsHit(old(store), key) ==>
                && fetched == old(fetched) + [key]
                && response == Forward(origin(key))
      // miss with a body: that body and its header record are put under the key, nothing else changes
      ensures var key := PostsKey(originHost);
              !IsHit(old(store), key) && origin(key).body.Some? ==>
                store == old(store)[key := Entry(origin(key).body.value, Some(Metadata(Record(origin(key).headers))), CacheTtl)]
      // miss without a body: no write
      ensures var key := PostsKey(originHost);
              !IsHit(old(store), key) && origin(key).body.None? ==> store == old(store)
    {
      var key := PostsKey(originHost);
      var found := Lookup(store, key);
      if Truthy(found.value) && found.metadata.Some? {
        response := Served(200, FromRecord(found.metadata.value.headers), found.value);
      } else {
        var reply := origin(key);
        fetched := fetched + [key];
        response := Forward(reply);
        if reply.body.Some? {
          var headers := HeadersToRecord(reply.headers);
          store := store[key := Entry(reply.body.value, Some(Metadata(headers)), CacheTtl)];
        }
      }
    }

    /** DELETE /posts/. */
    method DeletePosts() returns (response: Response)
      modifies this`store
      ensures response == InvalidatePosts(originHost, old(store)).response
      ensures store == InvalidatePosts(originHost, old(store)).store
      ensures response == Redirect(PostsPath)
      ensures PostsKey(originHost) !in store
      ensures forall k :: k != PostsKey(originHost) ==> (k in store <==> k in old(store))
      ensures forall k :: k in store ==> store[k] == old(store)[k]
    {
      var key := PostsKey(originHost);
      store := store - {key};
      response := Redirect(PostsPath);
    }

    /** GET /posts/<sub-path>: forwarded to the origin, the store untouched. */
    method GetSubPath(url: Url) returns (response: Response)
      modifies this`fetched
      ensures var o := PassThrough(originHost, origin, old(store), url);
              response == o.response && fetched == old(fetched) + o.fetched
      ensures response == Forward(origin(OriginUrl(originHost, url.pathname)))
      ensures fetched == old(fetched) + [OriginUrl(originHost, url.pathname)]
      ensures store == old(store)
    {
      var target := OriginUrl(originHost, url.pathname);
      var reply := origin(target);
      fetched := fetched + [target];
      response := Forward(reply);
    }
  }
}
