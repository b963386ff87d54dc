/**
 * Sequences of requests to the caching worker, interleaved with the store
 * dropping entries whose TTL has elapsed. Time is not modelled, so an entry
 * may expire at any point of a trace.
 */
module CacheTraces {
  import opened DynamicContent

  datatype Event = Request(request: Request) | Expire(key: string)

  /** The store and the origin URLs fetched after running a trace. */
  datatype RunResult = RunResult(store: Store, fetched: seq<string>)

  /** One event: a request goes to its handler; an expiry removes the key. */
  function Apply(host: string, origin: Origin, store: Store, e: Event): RunResult
  {
    match e
    case Request(r) =>
      var o := Handle(host, origin, store, r);
      RunResult(o.store, o.fetched)
    case Expire(k) => RunResult(store - {k}, [])
  }

  function Run(host: string, origin: Origin, store: Store, trace: seq<Event>): RunResult
    decreases |trace|
  {
    if trace == [] then RunResult(store, [])
    else
      var first := Apply(host, origin, store, trace[0]);
      var rest := Run(host, origin, first.store, trace[1..]);
      RunResult(rest.store, first.fetched + rest.fetched)
  }

  /** Every request of the trace is one the router can hand to its handler. */
  predicate Routed(trace: seq<Event>)
  {
    forall i :: 0 <= i < |trace| && trace[i].Request? ==> Dispatchable(trace[i].request)
  }

  /** How many events of the trace remove `key` from the store. */
  function Drops(host: string, trace: seq<Event>, key: string): nat
    decreases |trace|
  {
    if trace == [] then 0
    else (if Removes(host, trace[0], key) then 1 else 0) + Drops(host, trace[1..], key)
  }

  /** The event deletes `key` (DELETE /posts/ for the posts key) or expires it. */
  predicate Removes(host: string, e: Event, key: string)
  {
    match e
    case Request(r) => r.DeletePosts? && key == PostsKey(host)
    case Expire(k) => k == key
  }

  /** The number of times `url` occurs in `urls`. */
  function Count(urls: seq<string>, url: string): nat
  {
    multiset(urls)[url]
  }

  /**
   * The cache's purpose: while the origin's /posts/ reply has a non-empty
   * body, the origin is asked for /posts/ at most once more than the number of
   * times the cached copy is deleted or expires, however many GETs arrive.
   */
  lemma {:induction false} OriginLoadBound(host: string, origin: Origin, store: Store, trace: seq<Event>)
    requires Cacheable(origin(PostsKey(host)))
    requires Routed(trace)
    ensures Count(Run(host, origin, store, trace).fetched, PostsKey(host))
            <= (if IsHit(store, PostsKey(host)) then 0 else 1) + Drops(host, trace, PostsKey(host))
    decreases |trace|
  {
    if trace != [] {
      var key := PostsKey(host);
      var rest := trace[1..];
      assert Routed(rest) by {
        forall i | 0 <= i < |rest| && rest[i].Request? ensures Dispatchable(rest[i].request) {
          assert rest[i] == trace[i + 1];
        }
      }
      var first := Apply(host, origin, store, trace[0]);
      StepLoad(host, origin, store, trace[0]);
      OriginLoadBound(host, origin, first.store, rest);
      assert Run(host, origin, store, trace).fetched == first.fetched + Run(host, origin, first.store, rest).fetched;
    }
  }

  /**
   * One event: origin requests for /posts/ plus whether a miss is still
   * pending afterwards never exceed whether one was pending before plus
   * whether the event removed the key.
   */
  lemma StepLoad(host: string, origin: Origin, store: Store, e: Event)
    requires Cacheable(origin(PostsKey(host)))
    requires e.Request? ==> Dispatchable(e.request)
    ensures var key := PostsKey(host);
            var next := Apply(host, origin, store, e);
            Count(next.fetched, key) + (if IsHit(next.store, key) then 0 else 1)
            <= (if IsHit(store, key) then 0 else 1) + (if Removes(host, e, key) then 1 else 0)
  {
    if e.Request? && e.request.GetSubPath? {
      OriginUrlInjective(host, e.request.url.pathname, PostsPath);
    }
  }

  /** The trace without its pass-through requests. */
  function WithoutPassThrough(trace: seq<Event>): (r: seq<Event>)
    ensures forall i :: 0 <= i < |r| ==> !(r[i].Request? && r[i].request.GetSubPath?)
    decreases |trace|
  {
    if trace == [] then []
    else if trace[0].Request? && trace[0].request.GetSubPath? then WithoutPassThrough(trace[1..])
    else [trace[0]] + WithoutPassThrough(trace[1..])
  }

  /** Pass-through requests never read or write the store: removing them changes nothing it holds. */
  lemma {:induction false} PassThroughIsolation(host: string, origin: Origin, store: Store, trace: seq<Event>)
    ensures Run(host, origin, store, trace).store == Run(host, origin, store, WithoutPassThrough(trace)).store
    decreases |trace|
  {
    if trace != [] {
      var rest := trace[1..];
      var filtered := WithoutPassThrough(trace);
      if trace[0].Request? && trace[0].request.GetSubPath? {
        PassThroughIsolation(host, origin, store, rest);
      } else {
        assert filtered[0] == trace[0] && filtered[1..] == WithoutPassThrough(rest);
        match trace[0]
        case Request(r) =>
          PassThroughIsolation(host, origin, Handle(host, origin, store, r).store, rest);
        case Expire(k) =>
          PassThroughIsolation(host, origin, store - {k}, rest);
      }
    }
  }

  /**
   * The worker writes and deletes only the /posts/ key: every other key keeps
   * its entry, unless the store lets it expire.
   */
  lemma {:induction false} OtherKeysUntouched(host: string, origin: Origin, store: Store, trace: seq<Event>, key: string)
    requires key != PostsKey(host)
    ensures key in Run(host, origin, store, trace).store ==> key in store && Run(host, origin, store, trace).store[key] == store[key]
    ensures key in store && Drops(host, trace, key) == 0 ==> key in Run(host, origin, store, trace).store
    decreases |trace|
  {
    if trace != [] {
      var rest := trace[1..];
      match trace[0]
      case Request(r) =>
        OtherKeysUntouched(host, origin, Handle(host, origin, store, r).store, rest, key);
      case Expire(k) =>
        OtherKeysUntouched(host, origin, store - {k}, rest, key);
    }
  }
}
