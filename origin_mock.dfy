/**
 * The mock origin server: an in-memory list of posts that POST /posts
 * appends to and that GET /posts and GET /posts/delay list, the latter after
 * a delay taken from the `delay` query parameter and capped at ten seconds.
 */
module OriginMock {
  import opened Wrappers

  datatype Post = Post(title: string, body: string)

  /** The longest delay `sleep` waits, in milliseconds. */
  const MaxDelay: int := 10000

  /** The `delay` used when the query does not give one. */
  const DefaultDelay: string := "1000"

  /** `sleep`: the delay the timer is set to, the request capped at `MaxDelay`. */
  method Sleep(ms: int) returns (waited: int)
    ensures waited <= MaxDelay
    ensures ms <= MaxDelay ==> waited == ms
    ensures ms > MaxDelay ==> waited == MaxDelay
  {
    waited := ms;
    if waited > MaxDelay {
      waited := MaxDelay;
    }
  }

  /** `c.req.query('delay') || '1000'`: a missing or empty parameter falls back to the default. */
  function DelayParam(query: Option<string>): (delay: string)
    ensures delay != ""
    ensures query.Some? && query.value != "" ==> delay == query.value
    ensures query.None? || query.value == "" ==> delay == DefaultDelay
  {
    if query.Some? && query.value != "" then query.value else DefaultDelay
  }

  /** The server's state: the posts received so far, oldest first. */
  class PostList {
    var posts: seq<Post>

    constructor ()
      ensures posts == []
    {
      posts := [];
    }

    /** GET /posts: the current list, unchanged. */
    method ListPosts() returns (listing: seq<Post>)
      ensures listing == posts
    {
      listing := posts;
    }

    /**
     * GET /posts/delay: waits, then answers like GET /posts. `toNumber`
     * stands for JavaScript's `Number` on the parameter.
     */
    method ListPostsDelayed(query: Option<string>, toNumber: string -> int) returns (listing: seq<Post>, waited: int)
      ensures listing == posts
      ensures waited <= MaxDelay
      ensures toNumber(DelayParam(query)) <= MaxDelay ==> waited == toNumber(DelayParam(query))
      ensures toNumber(DelayParam(query)) > MaxDelay ==> waited == MaxDelay
    {
      var delay := DelayParam(query);
      waited := Sleep(toNumber(delay));
      listing := posts;
    }

    /** POST /posts: appends the post and redirects to `/`. */
    method AddPost(post: Post) returns (location: string)
      modifies this
      ensures posts == old(posts) + [post]
      ensures |posts| == |old(posts)| + 1 && posts[..|old(posts)|] == old(posts)
      ensures location == "/"
    {
      posts := posts + [post];
      location := "/";
    }
  }
}
