/** The `reddit-stories` edge function: one request in, at most one upstream
    fetch, one response out. The fetch's outcome is an input, so the handler
    is a total function from request and outcome to response. */
module RedditProxy {
  import opened Base
  import opened Text
  import opened Records

  const CorsHeaders: map<string, string> := map[
    "Access-Control-Allow-Origin" := "*",
    "Access-Control-Allow-Methods" := "GET, POST, OPTIONS",
    "Access-Control-Allow-Headers" := "Content-Type, Authorization, X-Client-Info, Apikey"]

  /** The headers of every response except the preflight one. */
  const JsonHeaders: map<string, string> := CorsHeaders["Content-Type" := "application/json"]

  const DefaultSubreddit := "nosleep"
  const DefaultSort := "hot"
  const DefaultLimit := "25"
  const PostNotFound := "Post not found"

  /** A listed post's self-text must be longer than this many characters. */
  const MinListedLength := 100

  /** The incoming request: its method and the decoded query of its URL. */
  datatype Request = Request(verb: string, query: Query)

  /** The `data` of one upstream post (`RedditPost` in the source). */
  datatype RedditPost = RedditPost(
    id: string,
    title: string,
    selftext: string,
    author: string,
    subreddit: string,
    ups: int,
    numComments: int,
    createdUtc: int,
    permalink: string,
    url: string)

  /** The upstream JSON, with every level that the handler reads through
      optionally present. A listing is an object; the comments endpoint
      answers with an array of listings, the post first. */
  datatype Child = Child(data: Option<RedditPost>)
  datatype ListingData = ListingData(children: Option<seq<Child>>, after: Option<string>)
  datatype Listing = Listing(data: Option<ListingData>)
  datatype Json = JsonObject(listing: Listing) | JsonArray(items: seq<Listing>)

  /** A thrown value: an `Error` with its message, or anything else. */
  datatype Exception = ErrorObject(message: string) | OtherValue

  /** `response.json()`: the parsed body, or the exception it rejects with. */
  datatype Parse = Parsed(json: Json) | ParseFailed(exception: Exception)

  /** What the upstream `fetch` did: answered with a status and a body, or threw. */
  datatype Upstream = Answered(status: int, body: Parse) | FetchFailed(exception: Exception)

  /** The JSON bodies the handler sends. */
  datatype Body = StoryBody(story: Story) | StoriesBody(stories: seq<Story>) | ErrorBody(error: string)

  /** `body` is `None` for the preflight response, which has a null body. */
  datatype Response = Response(status: int, headers: map<string, string>, body: Option<Body>)

  /** `response.ok`. */
  predicate IsOk(status: int)
  {
    200 <= status <= 299
  }

  /** Single-post mode: the `id` parameter is present and non-empty. */
  predicate SingleMode(q: Query)
  {
    Truthy(Lookup(q, "id"))
  }

  const CommentsPrefix := "https://www.reddit.com/comments/"
  const ListingPrefix := "https://www.reddit.com/r/"
  const RedditOrigin := "https://reddit.com"

  /** The upstream URL for a query, with the parameter defaults applied.
      The two modes are told apart by the URL itself. */
  function RedditUrl(q: Query): (url: string)
    ensures |url| > |CommentsPrefix|
    ensures SingleMode(q) <==> url[..|CommentsPrefix|] == CommentsPrefix
    ensures !SingleMode(q) ==> url[..|ListingPrefix|] == ListingPrefix
  {
    var subreddit := OrElse(Lookup(q, "subreddit"), DefaultSubreddit);
    var sort := OrElse(Lookup(q, "sort"), DefaultSort);
    var limit := OrElse(Lookup(q, "limit"), DefaultLimit);
    if SingleMode(q) then
      var url := CommentsPrefix + Lookup(q, "id").value + ".json?raw_json=1";
      assert url[..|CommentsPrefix|] == CommentsPrefix;
      url
    else
      var url := ListingPrefix + subreddit + "/" + sort + ".json?limit=" + limit + "&raw_json=1";
      assert url[..|ListingPrefix|] == ListingPrefix;
      assert url[|ListingPrefix| - 2] != CommentsPrefix[|ListingPrefix| - 2];
      url
  }

  /** The one URL the handler fetches, or `None` when it fetches nothing. */
  function Plan(req: Request): (url: Option<string>)
    ensures url.None? <==> req.verb == "OPTIONS"
    ensures url.Some? ==> url.value == RedditUrl(req.query)
  {
    if req.verb == "OPTIONS" then None else Some(RedditUrl(req.query))
  }

  /** The message the handler reports for a caught exception. */
  function ExceptionMessage(e: Exception): (m: string)
    ensures e.ErrorObject? ==> m == e.message
    ensures e.OtherValue? ==> m == "Unknown error"
  {
    match e
    case ErrorObject(message) => message
    case OtherValue => "Unknown error"
  }

  function Failure(message: string): Response
  {
    Response(500, JsonHeaders, Some(ErrorBody(message)))
  }

  function Success(body: Body): Response
  {
    Response(200, JsonHeaders, Some(body))
  }

  /** `data[0]?.data?.children?.[0]?.data`: the post of a comments answer. */
  function SinglePost(json: Json): (r: Option<RedditPost>)
    ensures r.Some? <==> (json.JsonArray? && json.items != [] && json.items[0].data.Some?
                          && json.items[0].data.value.children.Some?
                          && json.items[0].data.value.children.value != []
                          && json.items[0].data.value.children.value[0].data.Some?)
    ensures r.Some? ==> r == json.items[0].data.value.children.value[0].data
  {
    match json
    case JsonObject(_) => None
    case JsonArray(items) =>
      if items == [] then None
      else
        match items[0].data
        case None => None
        case Some(d) =>
          match d.children
          case None => None
          case Some(children) => if children == [] then None else children[0].data
  }

  /** The posts of every child, or `None` if some child has no `data`. */
  function AllPosts(children: seq<Child>): (r: Option<seq<RedditPost>>)
    ensures r.Some? <==> forall i :: 0 <= i < |children| ==> children[i].data.Some?
    ensures r.Some? ==> |r.value| == |children|
                        && forall i :: 0 <= i < |children| ==> r.value[i] == children[i].data.value
  {
    if children == [] then Some([])
    else
      match children[0].data
      case None => None
      case Some(p) =>
        match AllPosts(children[1..])
        case None => None
        case Some(rest) => Some([p] + rest)
  }

  /** `listing.data.children` with each child's `data`, or `None` where reading
      them throws a `TypeError` (a level is missing). */
  function ListingPosts(json: Json): (r: Option<seq<RedditPost>>)
    ensures r.Some? <==> (json.JsonObject? && json.listing.data.Some?
                          && json.listing.data.value.children.Some?
                          && forall i :: 0 <= i < |json.listing.data.value.children.value| ==>
                               json.listing.data.value.children.value[i].data.Some?)
    ensures r.Some? ==> |r.value| == |json.listing.data.value.children.value|
    ensures r.Some? ==> forall i :: 0 <= i < |r.value| ==>
                          r.value[i] == json.listing.data.value.children.value[i].data.value
  {
    match json
    case JsonArray(_) => None
    case JsonObject(listing) =>
      match listing.data
      case None => None
      case Some(d) =>
        match d.children
        case None => None
        case Some(children) => AllPosts(children)
  }

  /** The listing filter: the self-text is truthy and longer than the minimum. */
  predicate Listed(p: RedditPost)
    ensures Listed(p) <==> |p.selftext| > MinListedLength
  {
    p.selftext != "" && |p.selftext| > MinListedLength
  }

  /** The posts that pass the listing filter, in their upstream order. */
  function LongPosts(posts: seq<RedditPost>): (r: seq<RedditPost>)
    ensures |r| <= |posts|
    ensures forall i :: 0 <= i < |r| ==> Listed(r[i])
    ensures forall p :: p in r <==> p in posts && Listed(p)
  {
    if posts == [] then []
    else if Listed(posts[0]) then [posts[0]] + LongPosts(posts[1..])
    else LongPosts(posts[1..])
  }

  /** The `Story` written for one post, in both modes: never narrated and
      without audio. */
  function ToStory(p: RedditPost): (s: Story)
    ensures s.content == p.selftext && !s.isNarrated && s.audioUrl.None?
  {
    Story(
      id := p.id,
      title := p.title,
      content := p.selftext,
      author := p.author,
      subreddit := p.subreddit,
      upvotes := p.ups,
      comments := p.numComments,
      createdAt := Instant(p.createdUtc * 1000),
      isNarrated := false,
      audioUrl := None,
      redditId := Some(p.id),
      redditUrl := Some(RedditOrigin + p.permalink))
  }

  /** The post's id, its time in whole seconds and its permalink can be
      read back from its story. */
  lemma StoryReadBack(p: RedditPost)
    ensures var s := ToStory(p);
      && s.id == p.id && s.redditId == Some(p.id)
      && s.createdAt.millis / 1000 == p.createdUtc && s.createdAt.millis % 1000 == 0
      && s.redditUrl.Some? && |s.redditUrl.value| >= |RedditOrigin|
      && s.redditUrl.value[..|RedditOrigin|] == RedditOrigin
      && s.redditUrl.value[|RedditOrigin|..] == p.permalink
  {
    var u := RedditOrigin + p.permalink;
    assert u[..|RedditOrigin|] == RedditOrigin;
    assert u[|RedditOrigin|..] == p.permalink;
  }

  function ToStories(posts: seq<RedditPost>): (r: seq<Story>)
    ensures |r| == |posts|
    ensures forall i :: 0 <= i < |posts| ==> r[i] == ToStory(posts[i])
  {
    seq(|posts|, i requires 0 <= i < |posts| => ToStory(posts[i]))
  }

  /** The handler. `shapeError` is the message of the `TypeError` the runtime
      throws when the listing has the wrong shape. */
  function Handle(req: Request, upstream: Upstream, shapeError: string): (resp: Response)
    ensures resp.headers == if req.verb == "OPTIONS" then CorsHeaders else JsonHeaders
    ensures resp.status == 200 || resp.status == 404 || resp.status == 500
    ensures resp.body.None? <==> req.verb == "OPTIONS"
    ensures resp.status == 404 ==> SingleMode(req.query) && resp.body == Some(ErrorBody(PostNotFound))
    ensures resp.body.Some? ==> (resp.body.value.ErrorBody? <==> resp.status != 200)
  {
    if req.verb == "OPTIONS" then Response(200, CorsHeaders, None)
    else
      match upstream
      case FetchFailed(e) => Failure(ExceptionMessage(e))
      case Answered(status, body) =>
        if !IsOk(status) then Failure("Reddit API error: " + IntToDecimal(status))
        else
          match body
          case ParseFailed(e) => Failure(ExceptionMessage(e))
          case Parsed(json) =>
            if SingleMode(req.query) then
              match SinglePost(json)
              case None => Response(404, JsonHeaders, Some(ErrorBody(PostNotFound)))
              case Some(p) => Success(StoryBody(ToStory(p)))
            else
              match ListingPosts(json)
              case None => Failure(shapeError)
              case Some(posts) => Success(StoriesBody(ToStories(LongPosts(posts))))
  }

  // ---------------------------------------------------------------------
  // Properties of the handler

  /** A preflight request is answered with 200, a null body and exactly the
      cross-origin headers, whatever the upstream would have done: nothing is fetched. */
  lemma PreflightAnswer(req: Request, u1: Upstream, u2: Upstream, e1: string, e2: string)
    requires req.verb == "OPTIONS"
    ensures Plan(req) == None
    ensures Handle(req, u1, e1) == Response(200, CorsHeaders, None)
    ensures Handle(req, u1, e1) == Handle(req, u2, e2)
  {
  }

  /** Two queries agree on a parameter when both give it the same value or
      neither gives it a non-empty one. */
  predicate SameParam(q1: Query, q2: Query, key: string)
  {
    Lookup(q1, key) == Lookup(q2, key) || (!Truthy(Lookup(q1, key)) && !Truthy(Lookup(q2, key)))
  }

  /** In listing mode the URL depends on the subreddit, sort and limit
      parameters only, and an empty parameter counts as a missing one. */
  lemma ListingUrlDependsOnParams(q1: Query, q2: Query)
    requires !SingleMode(q1) && !SingleMode(q2)
    requires SameParam(q1, q2, "subreddit") && SameParam(q1, q2, "sort") && SameParam(q1, q2, "limit")
    ensures RedditUrl(q1) == RedditUrl(q2)
  {
  }

  /** In listing mode each of subreddit, sort and limit is taken from the
      query when it is non-empty, and defaults to nosleep, hot and 25. */
  lemma ListingUrl(q: Query)
    requires !SingleMode(q)
    ensures var s := if Truthy(Lookup(q, "subreddit")) then Lookup(q, "subreddit").value else "nosleep";
      var t := if Truthy(Lookup(q, "sort")) then Lookup(q, "sort").value else "hot";
      var l := if Truthy(Lookup(q, "limit")) then Lookup(q, "limit").value else "25";
      RedditUrl(q) == "https://www.reddit.com/r/" + s + "/" + t + ".json?limit=" + l + "&raw_json=1"
  {
  }

  /** With no parameters at all the proxy lists r/nosleep, hot, 25 posts. */
  lemma EmptyQueryUrl(req: Request)
    requires req.verb != "OPTIONS" && req.query == []
    ensures Plan(req) == Some("https://www.reddit.com/r/nosleep/hot.json?limit=25&raw_json=1")
  {
    var q := req.query;
    assert Lookup(q, "id") == Lookup(q, "subreddit") == Lookup(q, "sort") == Lookup(q, "limit") == None;
    ListingUrl(q);
    assert RedditUrl(q)
        == "https://www.reddit.com/r/" + "nosleep" + "/" + "hot" + ".json?limit=" + "25" + "&raw_json=1";
    DefaultListingText();
  }

  /** The default listing URL, written out. */
  lemma DefaultListingText()
    ensures "https://www.reddit.com/r/" + "nosleep" + "/" + "hot" + ".json?limit=" + "25" + "&raw_json=1"
         == "https://www.reddit.com/r/nosleep/hot.json?limit=25&raw_json=1"
  {
  }

  /** In single-post mode the URL is the comments endpoint of the id, and the
      listing parameters are ignored. */
  lemma SinglePostUrl(q1: Query, q2: Query)
    requires SingleMode(q1) && Lookup(q1, "id") == Lookup(q2, "id")
    ensures RedditUrl(q1) == "https://www.reddit.com/comments/" + Lookup(q1, "id").value + ".json?raw_json=1"
    ensures RedditUrl(q1) == RedditUrl(q2)
  {
  }

  /** A non-ok upstream status gives 500 with a message that ends in the
      status written in decimal, and that decimal reads back as the status. */
  lemma UpstreamStatusFailure(req: Request, status: int, body: Parse, shapeError: string)
    requires req.verb != "OPTIONS" && !IsOk(status)
    ensures var resp := Handle(req, Answered(status, body), shapeError);
      && resp.status == 500
      && resp.body == Some(ErrorBody("Reddit API error: " + IntToDecimal(status)))
      && (status >= 0 ==> DecimalValue(resp.body.value.error[|"Reddit API error: "|..]) == status)
  {
    var m := "Reddit API error: " + IntToDecimal(status);
    assert m[|"Reddit API error: "|..] == IntToDecimal(status);
    if status >= 0 {
      DecimalRoundTrip(status);
    }
  }

  /** An upstream 503 is reported as "Reddit API error: 503". */
  lemma Upstream503(req: Request, body: Parse, shapeError: string)
    requires req.verb != "OPTIONS"
    ensures Handle(req, Answered(503, body), shapeError)
         == Response(500, JsonHeaders, Some(ErrorBody("Reddit API error: 503")))
  {
    assert IntToDecimal(503) == "503";
    assert Handle(req, Answered(503, body), shapeError) == Failure("Reddit API error: " + IntToDecimal(503));
    assert "Reddit API error: " + IntToDecimal(503) == "Reddit API error: 503";
  }

  /** A thrown fetch or a body that fails to parse gives 500 with the
      exception's message, or "Unknown error" when it is not an `Error`. */
  lemma ThrownFailure(req: Request, e: Exception, status: int, shapeError: string)
    requires req.verb != "OPTIONS"
    ensures var expected := Response(500, JsonHeaders, Some(ErrorBody(
              if e.ErrorObject? then e.message else "Unknown error")));
      && Handle(req, FetchFailed(e), shapeError) == expected
      && (IsOk(status) ==> Handle(req, Answered(status, ParseFailed(e)), shapeError) == expected)
  {
  }

  /** In single-post mode, a comments answer without a post gives 404 and
      the body `{error: "Post not found"}`. */
  lemma MissingPost(req: Request, status: int, json: Json, shapeError: string)
    requires req.verb != "OPTIONS" && SingleMode(req.query) && IsOk(status)
    requires json.JsonObject? || json.items == [] || json.items[0].data.None?
          || json.items[0].data.value.children.None? || json.items[0].data.value.children.value == []
          || json.items[0].data.value.children.value[0].data.None?
    ensures Handle(req, Answered(status, Parsed(json)), shapeError)
         == Response(404, JsonHeaders, Some(ErrorBody("Post not found")))
  {
  }

  /** In single-post mode, a found post is returned as one story whose fields
      are taken from the post. */
  lemma FoundPost(req: Request, status: int, json: Json, shapeError: string, p: RedditPost)
    requires req.verb != "OPTIONS" && SingleMode(req.query) && IsOk(status)
    requires SinglePost(json) == Some(p)
    ensures var resp := Handle(req, Answered(status, Parsed(json)), shapeError);
      && resp.status == 200 && resp.body.Some? && resp.body.value.StoryBody?
      && var s := resp.body.value.story;
      && s.id == p.id && s.title == p.title && s.content == p.selftext
      && s.author == p.author && s.subreddit == p.subreddit
      && s.upvotes == p.ups && s.comments == p.numComments
      && s.createdAt.millis == p.createdUtc * 1000
      && !s.isNarrated && s.audioUrl == None
      && s.redditId == Some(p.id) && s.redditUrl == Some("https://reddit.com" + p.permalink)
  {
  }

  /** Filtering distributes over concatenation: each post is kept or dropped
      on its own, independently of its neighbours. */
  lemma {:induction false} LongPostsAppend(a: seq<RedditPost>, b: seq<RedditPost>)
    ensures LongPosts(a + b) == LongPosts(a) + LongPosts(b)
  {
    if a != [] {
      assert (a + b)[0] == a[0] && (a + b)[1..] == a[1..] + b;
      LongPostsAppend(a[1..], b);
      if Listed(a[0]) {
        assert LongPosts(a + b) == [a[0]] + (LongPosts(a[1..]) + LongPosts(b));
      } else {
        assert LongPosts(a + b) == LongPosts(a[1..]) + LongPosts(b);
      }
    } else {
      assert a + b == b;
    }
  }

  lemma ToStoriesCons(p: RedditPost, rest: seq<RedditPost>)
    ensures ToStories([p] + rest) == [ToStory(p)] + ToStories(rest)
  {
    var l, r := ToStories([p] + rest), [ToStory(p)] + ToStories(rest);
    assert |l| == |r|;
    forall i | 0 <= i < |l| ensures l[i] == r[i] {
      if i > 0 {
        assert ([p] + rest)[i] == rest[i - 1];
      }
    }
  }

  /** The listed stories are a subsequence of the stories of all posts:
      the proxy drops posts but never reorders them. */
  lemma {:induction false} ListedStoriesInOrder(posts: seq<RedditPost>)
    ensures IsSubsequence(ToStories(LongPosts(posts)), ToStories(posts))
  {
    if posts != [] {
      var p, rest := posts[0], posts[1..];
      assert posts == [p] + rest;
      ListedStoriesInOrder(rest);
      var all := ToStories(posts);
      var kept := ToStories(LongPosts(posts));
      ToStoriesCons(p, rest);
      assert all[0] == ToStory(p) && all[1..] == ToStories(rest);
      if Listed(p) {
        assert LongPosts(posts) == [p] + LongPosts(rest);
        ToStoriesCons(p, LongPosts(rest));
        assert kept[0] == all[0] && kept[1..] == ToStories(LongPosts(rest));
      } else {
        assert LongPosts(posts) == LongPosts(rest);
        if kept != [] {
          // kept[0] comes from a listed post, so its content is long and it
          // cannot be the story of the unlisted head.
          var q := LongPosts(rest)[0];
          assert Listed(q) && kept[0] == ToStory(q);
          assert kept[0].content == q.selftext && all[0].content == p.selftext;
        }
      }
    }
  }

  /** Every listed story has content longer than 100 characters. */
  lemma ListedStoriesLong(posts: seq<RedditPost>)
    ensures var stories := ToStories(LongPosts(posts));
      forall i :: 0 <= i < |stories| ==> stories[i].content != "" && |stories[i].content| > 100
  {
    var kept := LongPosts(posts);
    forall i | 0 <= i < |kept|
      ensures ToStories(kept)[i].content != "" && |ToStories(kept)[i].content| > 100
    {
      assert Listed(kept[i]);
    }
  }

  /** The listed stories are exactly the stories of the listed posts. */
  lemma ListedStoriesMembers(posts: seq<RedditPost>, s: Story)
    ensures s in ToStories(LongPosts(posts)) <==> exists p :: p in posts && Listed(p) && s == ToStory(p)
  {
    var kept := LongPosts(posts);
    var stories := ToStories(kept);
    if s in stories {
      var i :| 0 <= i < |stories| && stories[i] == s;
      assert kept[i] in kept;
    }
    if exists p :: p in posts && Listed(p) && s == ToStory(p) {
      var p :| p in posts && Listed(p) && s == ToStory(p);
      var i :| 0 <= i < |kept| && kept[i] == p;
      assert stories[i] == s;
    }
  }

  /** A listing answer: status 200 and the stories of exactly the posts
      that pass the filter, every one with content longer than 100
      characters, in upstream order, and no more stories than posts. */
  lemma ListingAnswer(req: Request, status: int, json: Json, shapeError: string, posts: seq<RedditPost>)
    requires req.verb != "OPTIONS" && !SingleMode(req.query) && IsOk(status)
    requires ListingPosts(json) == Some(posts)
    ensures var resp := Handle(req, Answered(status, Parsed(json)), shapeError);
      && resp.status == 200 && resp.body.Some? && resp.body.value.StoriesBody?
      && var stories := resp.body.value.stories;
      && stories == ToStories(LongPosts(posts))
      && |stories| <= |posts|
      && (forall i :: 0 <= i < |stories| ==> stories[i].content != "" && |stories[i].content| > 100)
      && (forall s :: s in stories <==> exists p :: p in posts && Listed(p) && s == ToStory(p))
      && IsSubsequence(stories, ToStories(posts))
  {
    var stories := ToStories(LongPosts(posts));
    assert Handle(req, Answered(status, Parsed(json)), shapeError) == Success(StoriesBody(stories));
    ListedStoriesLong(posts);
    forall s ensures s in stories <==> exists p :: p in posts && Listed(p) && s == ToStory(p) {
      ListedStoriesMembers(posts, s);
    }
    ListedStoriesInOrder(posts);
  }

  /** A listing whose shape cannot be read (no `data`, no `children`, or a
      child without `data`) fails with the runtime's `TypeError` message. */
  lemma MalformedListing(req: Request, status: int, json: Json, shapeError: string)
    requires req.verb != "OPTIONS" && !SingleMode(req.query) && IsOk(status)
    requires ListingPosts(json).None?
    ensures Handle(req, Answered(status, Parsed(json)), shapeError) == Failure(shapeError)
  {
  }

  /** Both modes write a post the same way: the story a single-post request
      returns is among the stories a listing containing that post returns. */
  lemma ModesAgree(single: Request, listing: Request, status: int, json1: Json, json2: Json,
                   shapeError: string, p: RedditPost, posts: seq<RedditPost>)
    requires single.verb != "OPTIONS" && SingleMode(single.query)
    requires listing.verb != "OPTIONS" && !SingleMode(listing.query)
    requires IsOk(status) && SinglePost(json1) == Some(p)
    requires ListingPosts(json2) == Some(posts) && p in posts && Listed(p)
    ensures Handle(single, Answered(status, Parsed(json1)), shapeError).body.value.story
         in Handle(listing, Answered(status, Parsed(json2)), shapeError).body.value.stories
  {
    ListingAnswer(listing, status, json2, shapeError, posts);
  }
}
