/** The browser-side data layer (`ApiClient` in src/lib/api.ts): calls to the
    `reddit-stories` function, and a fixed table of communities. */
module ApiClient {
  import opened Base
  import opened Text
  import RedditProxy

  const StoriesEndpoint := "reddit-stories"
  const NetworkError := "Network error"
  const RequestFailed := "Request failed"

  /** `{data?, error?}`, with both fields optional as in the source. */
  datatype ApiResponse<T> = ApiResponse(data: Option<T>, error: Option<string>)

  /** The contract every operation keeps: exactly one of the two is set. */
  predicate ExactlyOne<T>(r: ApiResponse<T>)
  {
    r.data.Some? != r.error.Some?
  }

  function Data<T>(value: T): ApiResponse<T>
  {
    ApiResponse(Some(value), None)
  }

  function Failed<T>(message: string): ApiResponse<T>
  {
    ApiResponse(None, Some(message))
  }

  /** The call `request` makes: the function it names and the query of its URL. */
  datatype Call = Call(endpoint: string, query: Query)

  /** What the `fetch` to the function did: delivered one of the function's
      responses, or threw before one arrived. */
  datatype Transport = Delivered(response: RedditProxy.Response) | TransportFailed

  // ---------------------------------------------------------------------
  // Building the query

  /** Every pair named `name` removed. */
  function Without(q: Query, name: string): (r: Query)
    ensures name !in Names(r)
    ensures forall k :: k != name ==> Lookup(r, k) == Lookup(q, k)
  {
    if q == [] then []
    else if q[0].0 == name then Without(q[1..], name)
    else [q[0]] + Without(q[1..], name)
  }

  /** The first pair named `name` given `value`, the later ones removed. */
  function ReplaceFirst(q: Query, name: string, value: string): (r: Query)
    requires name in Names(q)
    ensures Lookup(r, name) == Some(value)
    ensures forall k :: k != name ==> Lookup(r, k) == Lookup(q, k)
  {
    if q[0].0 == name then [(name, value)] + Without(q[1..], name)
    else
      assert name in Names(q[1..]) by {
        var i :| 0 <= i < |q| && q[i].0 == name;
        assert q[1..][i - 1].0 == name;
      }
      [q[0]] + ReplaceFirst(q[1..], name, value)
  }

  /** `URLSearchParams.set`: a new name is appended; a present one is
      overwritten in place. */
  function SetParam(q: Query, name: string, value: string): (r: Query)
    ensures Lookup(r, name) == Some(value)
    ensures forall k :: k != name ==> Lookup(r, k) == Lookup(q, k)
    ensures name !in Names(q) ==> r == q + [(name, value)]
  {
    if name in Names(q) then ReplaceFirst(q, name, value)
    else
      assert Lookup(q + [(name, value)], name) == Some(value) by {
        assert (q + [(name, value)])[|q|] == (name, value);
      }
      assert forall k :: k != name ==> Lookup(q + [(name, value)], k) == Lookup(q, k) by {
        forall k | k != name ensures Lookup(q + [(name, value)], k) == Lookup(q, k) {
          LookupAppend(q, name, value, k);
        }
      }
      q + [(name, value)]
  }

  lemma {:induction false} LookupAppend(q: Query, name: string, value: string, k: string)
    requires k != name
    ensures Lookup(q + [(name, value)], k) == Lookup(q, k)
  {
    if q != [] {
      assert (q + [(name, value)])[1..] == q[1..] + [(name, value)];
      LookupAppend(q[1..], name, value, k);
    }
  }

  /** The parameters `request` puts in the URL: those with a non-empty
      value, in the order given. */
  function NonEmptyParams(params: Query): (r: Query)
    ensures forall i :: 0 <= i < |r| ==> r[i].1 != ""
    ensures |r| <= |params|
  {
    if params == [] then []
    else
      NonEmptyParams(params[..|params| - 1]) + Kept(params[|params| - 1])
  }

  /** One parameter as `request` treats it: kept if its value is non-empty. */
  function Kept(e: (string, string)): Query
  {
    if e.1 != "" then [e] else []
  }

  /** A pair is sent exactly when it was given with a non-empty value. */
  lemma {:induction false} NonEmptyParamsMembers(params: Query, e: (string, string))
    ensures e in NonEmptyParams(params) <==> e in params && e.1 != ""
  {
    if params != [] {
      var init := params[..|params| - 1];
      NonEmptyParamsMembers(init, e);
      assert params == init + [params[|params| - 1]];
    }
  }

  // ---------------------------------------------------------------------
  // `request`

  /** `data.error` of a delivered body, when the body has one. */
  function ErrorField(b: RedditProxy.Body): (r: Option<string>)
    ensures r.Some? <==> b.ErrorBody?
    ensures r.Some? ==> r.value == b.error
  {
    if b.ErrorBody? then Some(b.error) else None
  }

  /** The outcome `request` reports for what the fetch did. */
  function Collapse(t: Transport): (r: ApiResponse<RedditProxy.Body>)
    ensures ExactlyOne(r)
    ensures r.error.Some? ==> r.error.value != ""
  {
    match t
    case TransportFailed => Failed(NetworkError)
    case Delivered(resp) =>
      match resp.body
      // `response.json()` rejects on a null body, inside the same `try`.
      case None => Failed(NetworkError)
      case Some(b) =>
        if !RedditProxy.IsOk(resp.status) then Failed(OrElse(ErrorField(b), RequestFailed))
        else Data(b)
  }

  /** `ApiClient.request`: sets each non-empty parameter on the URL, then
      collapses the fetch's outcome. The keys of a JavaScript object are
      distinct, hence the precondition. */
  method Request(endpoint: string, params: Query, transport: Transport)
    returns (call: Call, r: ApiResponse<RedditProxy.Body>)
    requires DistinctNames(params)
    ensures call == Call(endpoint, NonEmptyParams(params))
    ensures r == Collapse(transport)
    ensures ExactlyOne(r)
  {
    var query: Query := [];
    var i := 0;
    while i < |params|
      invariant 0 <= i <= |params|
      invariant query == NonEmptyParams(params[..i])
    {
      var (name, value) := params[i];
      if value != "" {
        assert params[..i + 1][..i] == params[..i];
        assert name !in Names(query) by {
          if name in Names(query) {
            var j :| 0 <= j < |query| && query[j].0 == name;
            NonEmptyParamsMembers(params[..i], query[j]);
          }
        }
        query := SetParam(query, name, value);
      } else {
        assert params[..i + 1][..i] == params[..i];
      }
      i := i + 1;
    }
    assert params[..i] == params;
    call := Call(endpoint, query);
    r := Collapse(transport);
  }

  /** A failure with no usable transport: a thrown fetch or a body that is
      not JSON. */
  lemma NetworkFailures(resp: RedditProxy.Response)
    requires resp.body.None?
    ensures Collapse(TransportFailed) == Failed(NetworkError)
    ensures Collapse(Delivered(resp)) == Failed(NetworkError)
  {
  }

  /** A non-ok response is reported by its `error` field if that is
      non-empty, else as "Request failed"; an ok one as data. */
  lemma DeliveredOutcome(resp: RedditProxy.Response)
    requires resp.body.Some?
    ensures var r := Collapse(Delivered(resp));
      && ((!RedditProxy.IsOk(resp.status) && resp.body.value.ErrorBody? && resp.body.value.error != "")
          ==> r == Failed(resp.body.value.error))
      && ((!RedditProxy.IsOk(resp.status) && (!resp.body.value.ErrorBody? || resp.body.value.error == ""))
          ==> r == Failed(RequestFailed))
      && (RedditProxy.IsOk(resp.status) ==> r == Data(resp.body.value))
  {
  }

  // ---------------------------------------------------------------------
  // Story queries

  /** The optional argument of `getStories`. */
  datatype StoriesQuery = StoriesQuery(subreddit: Option<string>, sort: Option<string>, limit: Option<int>)

  /** The optional argument of `getSubredditStories`. */
  datatype ListingOptions = ListingOptions(sort: Option<string>, limit: Option<int>)

  /** `params?.limit?.toString()`: a given limit always has a non-empty
      text, so even 0 is sent rather than replaced by "25". */
  function LimitText(limit: Option<int>): (r: Option<string>)
    ensures r.Some? <==> limit.Some?
    ensures r.Some? ==> r.value != ""
  {
    if limit.Some? then Some(IntToDecimal(limit.value)) else None
  }

  /** A non-negative limit's text reads back as the limit. */
  lemma LimitTextReadBack(n: nat)
    ensures var t := LimitText(Some(n)).value;
      (forall i :: 0 <= i < |t| ==> IsDigit(t[i])) && DecimalValue(t) == n
  {
    DecimalRoundTrip(n);
  }

  /** The record `getStories` passes to `request`, defaults applied. */
  function StoriesParams(p: Option<StoriesQuery>): (q: Query)
    ensures DistinctNames(q)
  {
    var subreddit := if p.Some? then p.value.subreddit else None;
    var sort := if p.Some? then p.value.sort else None;
    var limit := if p.Some? then p.value.limit else None;
    [("subreddit", OrElse(subreddit, "")), ("sort", OrElse(sort, "hot")), ("limit", OrElse(LimitText(limit), "25"))]
  }

  method GetStories(p: Option<StoriesQuery>, transport: Transport)
    returns (call: Call, r: ApiResponse<RedditProxy.Body>)
    ensures call == Call(StoriesEndpoint, NonEmptyParams(StoriesParams(p)))
    ensures r == Collapse(transport) && ExactlyOne(r)
  {
    call, r := Request(StoriesEndpoint, StoriesParams(p), transport);
  }

  method GetStory(id: string, transport: Transport)
    returns (call: Call, r: ApiResponse<RedditProxy.Body>)
    ensures call == Call(StoriesEndpoint, if id == "" then [] else [("id", id)])
    ensures r == Collapse(transport) && ExactlyOne(r)
  {
    call, r := Request(StoriesEndpoint, [("id", id)], transport);
  }

  /** `getStories({...params, subreddit: name})`. */
  method GetSubredditStories(name: string, p: Option<ListingOptions>, transport: Transport)
    returns (call: Call, r: ApiResponse<RedditProxy.Body>)
    ensures var sort := if p.Some? then p.value.sort else None;
            var limit := if p.Some? then p.value.limit else None;
            call == Call(StoriesEndpoint, NonEmptyParams(StoriesParams(Some(StoriesQuery(Some(name), sort, limit)))))
    ensures r == Collapse(transport) && ExactlyOne(r)
  {
    var sort := if p.Some? then p.value.sort else None;
    var limit := if p.Some? then p.value.limit else None;
    call, r := GetStories(Some(StoriesQuery(Some(name), sort, limit)), transport);
  }

  /** What the function reads back from the query `getStories` sends: the
      subreddit only when one was given, the sort and limit always. */
  lemma StoriesQueryReadBack(p: Option<StoriesQuery>)
    ensures var q := NonEmptyParams(StoriesParams(p));
      var subreddit := if p.Some? then p.value.subreddit else None;
      var sort := if p.Some? then p.value.sort else None;
      var limit := if p.Some? then p.value.limit else None;
      && Lookup(q, "subreddit") == (if Truthy(subreddit) then subreddit else None)
      && Lookup(q, "sort") == Some(OrElse(sort, "hot"))
      && Lookup(q, "limit") == Some(if limit.Some? then IntToDecimal(limit.value) else "25")
      && Lookup(q, "id") == None
  {
    var params := StoriesParams(p);
    NonEmptyOfThree(params[0], params[1], params[2]);
    assert params == [params[0], params[1], params[2]];
    var tail := [params[1], params[2]];
    assert NonEmptyParams(params) == Kept(params[0]) + tail;
    assert Lookup(tail, "limit") == Some(params[2].1) && Lookup(tail, "sort") == Some(params[1].1);
    assert Lookup(tail, "subreddit") == None && Lookup(tail, "id") == None;
  }

  /** `NonEmptyParams` on a record literal of three entries. */
  lemma NonEmptyOfThree(x: (string, string), y: (string, string), z: (string, string))
    ensures NonEmptyParams([x, y, z]) == Kept(x) + Kept(y) + Kept(z)
  {
    assert [x, y, z][..2] == [x, y];
    assert [x, y][..1] == [x];
    assert [x][..0] == [];
    assert NonEmptyParams([x]) == Kept(x);
    assert NonEmptyParams([x, y]) == Kept(x) + Kept(y);
  }

  /** End to end: a `getStories` call reaches the Reddit listing the proxy
      picks, with the proxy's own default "nosleep" when no subreddit is given. */
  lemma StoriesReachListing(p: Option<StoriesQuery>, verb: string)
    requires verb != "OPTIONS"
    ensures var subreddit := if p.Some? then p.value.subreddit else None;
      var sort := if p.Some? then p.value.sort else None;
      var limit := if p.Some? then p.value.limit else None;
      RedditProxy.Plan(RedditProxy.Request(verb, NonEmptyParams(StoriesParams(p))))
        == Some("https://www.reddit.com/r/" + OrElse(subreddit, "nosleep") + "/" + OrElse(sort, "hot")
                + ".json?limit=" + (if limit.Some? then IntToDecimal(limit.value) else "25") + "&raw_json=1")
  {
    StoriesQueryReadBack(p);
  }

  /** With no argument, `getStories` lists r/nosleep, hot, 25 posts. */
  lemma DefaultStories(verb: string)
    requires verb != "OPTIONS"
    ensures RedditProxy.Plan(RedditProxy.Request(verb, NonEmptyParams(StoriesParams(None))))
         == Some("https://www.reddit.com/r/nosleep/hot.json?limit=25&raw_json=1")
  {
    var q := NonEmptyParams(StoriesParams(None));
    StoriesReachListing(None, verb);
    assert RedditProxy.Plan(RedditProxy.Request(verb, q))
        == Some("https://www.reddit.com/r/" + "nosleep" + "/" + "hot" + ".json?limit=" + "25" + "&raw_json=1");
    RedditProxy.DefaultListingText();
  }

  /** `getStory("")` drops the empty id, so the proxy answers with a listing. */
  lemma EmptyIdIsListing()
    ensures !RedditProxy.SingleMode(NonEmptyParams([("id", "")]))
  {
    assert [("id", "")][..0] == [];
  }

  /** End to end: a missing post reaches the caller as the error "Post not found". */
  lemma MissingPostReachesCaller(id: string, verb: string, status: int, json: RedditProxy.Json, shapeError: string)
    requires id != "" && verb != "OPTIONS" && RedditProxy.IsOk(status)
    requires RedditProxy.SinglePost(json).None?
    ensures var req := RedditProxy.Request(verb, NonEmptyParams([("id", id)]));
      Collapse(Delivered(RedditProxy.Handle(req, RedditProxy.Answered(status, RedditProxy.Parsed(json)), shapeError)))
        == Failed("Post not found")
  {
    assert [("id", id)][..0] == [];
  }

  /** End to end: an upstream status failure reaches the caller with the
      proxy's message, which names the status. */
  lemma UpstreamFailureReachesCaller(q: Query, verb: string, status: int, body: RedditProxy.Parse, shapeError: string)
    requires verb != "OPTIONS" && !RedditProxy.IsOk(status)
    ensures var req := RedditProxy.Request(verb, q);
      Collapse(Delivered(RedditProxy.Handle(req, RedditProxy.Answered(status, body), shapeError)))
        == Failed("Reddit API error: " + IntToDecimal(status))
  {
    RedditProxy.UpstreamStatusFailure(RedditProxy.Request(verb, q), status, body, shapeError);
  }

  // ---------------------------------------------------------------------
  // Communities

  datatype Subreddit = Subreddit(
    id: string,
    name: string,
    description: string,
    members: nat,
    online: nat,
    createdAt: string,
    icon: Option<string>)

  /** The fixed table `getSubreddits` returns; `now` is the clock's reading
      as an ISO string. */
  function Communities(now: string): (t: seq<Subreddit>)
    ensures |t| == 6
  {
    [ Subreddit("1", "nosleep", "A place for authors to share original horror stories", 17400000, 5200, now, None),
      Subreddit("2", "LetsNotMeet", "True scary stories about real people", 1800000, 1200, now, None),
      Subreddit("3", "creepyencounters", "Unsettling encounters that left you feeling uneasy", 450000, 800, now, None),
      Subreddit("4", "Glitch_in_the_Matrix", "Eye-witness accounts of inexplicable events", 680000, 950, now, None),
      Subreddit("5", "TrueScaryStories", "True accounts of frightening experiences", 320000, 600, now, None),
      Subreddit("6", "shortscarystories", "Short scary stories under 500 words", 1100000, 2100, now, None) ]
  }

  /** `getSubreddits` never fails and always gives the whole table. */
  function GetSubreddits(now: string): (r: ApiResponse<seq<Subreddit>>)
    ensures ExactlyOne(r) && r.error.None?
    ensures r.data.value == Communities(now)
  {
    Data(Communities(now))
  }

  /** Case-insensitive name equality, as `find` tests it. */
  predicate SameName(a: string, b: string)
    ensures SameName(a, b) ==> |a| == |b|
    ensures SameName(a, b) ==> forall i :: 0 <= i < |a| ==> LowerChar(a[i]) == LowerChar(b[i])
  {
    ToLower(a) == ToLower(b)
  }

  /** The index of the first community named `name`, ignoring case. */
  function FindByName(t: seq<Subreddit>, name: string): (r: Option<nat>)
    ensures r.Some? ==> r.value < |t| && SameName(t[r.value].name, name)
                        && forall j :: 0 <= j < r.value ==> !SameName(t[j].name, name)
    ensures r.None? ==> forall j :: 0 <= j < |t| ==> !SameName(t[j].name, name)
  {
    if t == [] then None
    else if SameName(t[0].name, name) then Some(0)
    else
      match FindByName(t[1..], name)
      case None => None
      case Some(i) => Some(i + 1)
  }

  /** The record `getSubreddit` makes up for a name not in the table. */
  function Placeholder(name: string, now: string): (r: Subreddit)
    ensures r.id == name && r.name == name && r.createdAt == now
    ensures r.members == 0 && r.online == 0 && r.icon.None?
    ensures r.description == "Stories from r/" + name
    ensures |r.description| >= |"Stories from r/"| && r.description[|"Stories from r/"|..] == name
  {
    assert ("Stories from r/" + name)[|"Stories from r/"|..] == name;
    Subreddit(name, name, "Stories from r/" + name, 0, 0, now, None)
  }

  function GetSubreddit(name: string, now: string): (r: ApiResponse<Subreddit>)
    ensures ExactlyOne(r) && r.error.None?
    ensures (exists i :: 0 <= i < 6 && SameName(Communities(now)[i].name, name))
            ==> r.data.value in Communities(now) && SameName(r.data.value.name, name)
    ensures (forall i :: 0 <= i < 6 ==> !SameName(Communities(now)[i].name, name))
            ==> r.data.value == Placeholder(name, now)
  {
    var t := GetSubreddits(now).data.value;
    match FindByName(t, name)
    case Some(i) => Data(t[i])
    case None => Data(Placeholder(name, now))
  }

  /** The lookup sees only the lower-cased name: names that differ only in
      case find the same community. */
  lemma LookupIgnoresCase(a: string, b: string, now: string)
    requires SameName(a, b)
    requires exists i :: 0 <= i < 6 && SameName(Communities(now)[i].name, a)
    ensures GetSubreddit(a, now) == GetSubreddit(b, now)
  {
    FindSameName(Communities(now), a, b);
  }

  lemma {:induction false} FindSameName(t: seq<Subreddit>, a: string, b: string)
    requires SameName(a, b)
    ensures FindByName(t, a) == FindByName(t, b)
  {
    if t != [] {
      FindSameName(t[1..], a, b);
    }
  }

  /** "NoSleep" and "nosleep" both find the first community. */
  lemma NoSleepAnyCase(now: string)
    ensures GetSubreddit("NoSleep", now) == GetSubreddit("nosleep", now) == Data(Communities(now)[0])
  {
    assert SameName(Communities(now)[0].name, "nosleep");
    assert ToLower("NoSleep") == "nosleep";
    LookupIgnoresCase("NoSleep", "nosleep", now);
  }

  /** A name of a length no community name has is never found. */
  lemma UnknownLength(name: string, now: string)
    requires forall i :: 0 <= i < 6 ==> |Communities(now)[i].name| != |name|
    ensures GetSubreddit(name, now) == Data(Placeholder(name, now))
  {
  }

  /** An unknown name gives a made-up record with no members, never an error. */
  lemma UnknownCommunity(now: string)
    ensures var r := GetSubreddit("doesnotexist", now);
      && r.error == None && r.data.Some?
      && r.data.value.id == "doesnotexist" && r.data.value.name == "doesnotexist"
      && r.data.value.description == "Stories from r/doesnotexist"
      && r.data.value.members == 0 && r.data.value.online == 0
  {
    var t := Communities(now);
    assert |t[0].name| == 7 && |t[1].name| == 11 && |t[2].name| == 16;
    assert |t[3].name| == 20 && |t[4].name| == 16 && |t[5].name| == 17;
    UnknownLength("doesnotexist", now);
    PlaceholderText();
  }

  lemma PlaceholderText()
    ensures Placeholder("doesnotexist", "").description == "Stories from r/doesnotexist"
  {
  }
}
