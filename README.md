# Threadist core, modelled in Dafny

Threadist serves horror stories from Reddit to a React web app. This project
models five pieces of it:

- The `reddit-stories` edge function (module `RedditProxy`). It answers a
  CORS preflight. Otherwise it fetches one Reddit URL: a single post's
  comments endpoint when the `id` parameter is set, or a subreddit listing
  with defaults nosleep/hot/25. It turns the answer into `Story` records,
  keeping only listed posts with more than 100 characters of self-text, and
  reports every failure as `{error}` with status 500, or 404 for a missing
  post. The result of the upstream fetch is an input (`Upstream`), so the
  handler is a total function from request and fetch result to response.
- The browser API client (module `ApiClient`):
  - `request` is a method whose loop sets each non-empty parameter on the
    URL, proved against `NonEmptyParams`.
  - Its outcome collapses to an `ApiResponse` that has exactly one of
    `data` and `error`.
  - The story queries are built on top of `request`.
  - The community table is fixed, and lookup by name ignores case.
  - End-to-end lemmas connect the client's query to the URL the proxy
    fetches, and the proxy's errors to what a caller sees.
- The story card (module `Cards`, class `StoryCard`). It holds the vote,
  expansion and playback state, the controls that state drives, and the
  vote counter. The vote rule is shared with the story page (module
  `Votes`).
- The story page (module `StoryView`). It renders a loading, message or
  article view, and keeps a vote of its own.
- The sign-in page (module `SignInPage`, class `SignInForm`). Its two
  submit handlers validate the fields and then await the auth provider. The
  model splits each handler at the await: `HandleSignIn` or `HandleSignUp`
  runs up to the call, and `AuthReturned` runs when the provider answers.
  Every step keeps the invariant `Valid()`:
  - the spinner shows exactly while a call is awaited;
  - at most one alert shows;
  - no alert shows during a call.

Shared pieces are modelled once:
- JavaScript's `a || b` on strings (`Base.OrElse`).
- `URLSearchParams` as a list of pairs (`Base.Lookup`, `ApiClient.SetParam`).
- Decimal rendering of numbers, with a parse-back round trip (`Text`).
- The `Story` record (`Records`).

The client's default story query lists r/nosleep. `getStories` sends an
empty subreddit, `request` drops empty values, and the edge function then
falls back to r/nosleep (`ApiClient.StoriesReachListing`,
`ApiClient.DefaultStories`).

## Model

| member | source | states |
|---|---|---|
| Base.OrElse | supabase/functions/reddit-stories/index.ts:41-43 | `x \|\| fallback` on an optional string: the value when it is present and non-empty, and the fallback when it is absent or empty |
| Base.Lookup | supabase/functions/reddit-stories/index.ts:41-44 | `searchParams.get`: `None` exactly when no pair has the name, otherwise the value of the first pair that does |
| Text.NatToDecimal | supabase/functions/reddit-stories/index.ts:61 | the status is rendered as a non-empty string of digits with no leading zero |
| Text.IntToDecimal | supabase/functions/reddit-stories/index.ts:61 | a non-negative number is its digits; a negative one is a minus sign followed by the digits of its magnitude |
| Text.DecimalRoundTrip | supabase/functions/reddit-stories/index.ts:61 | reading the rendered digits back gives the number again |
| Text.DecimalInjective | supabase/functions/reddit-stories/index.ts:61 | distinct numbers give distinct texts |
| Text.LowerChar | src/lib/api.ts:94 | A-Z move to a-z (code point plus 32), and every other character is kept |
| Text.ToLower | src/lib/api.ts:94 | the same length, and each character is lowered |
| RedditProxy.Plan | supabase/functions/reddit-stories/index.ts:31-58 | nothing is fetched exactly for an OPTIONS request; any other request fetches the URL chosen from its query |
| RedditProxy.RedditUrl | supabase/functions/reddit-stories/index.ts:41-52 | the URL is longer than the comments prefix, starts with `https://www.reddit.com/comments/` exactly in single-post mode, and otherwise with `https://www.reddit.com/r/` |
| RedditProxy.ListingUrl | supabase/functions/reddit-stories/index.ts:41-51 | in listing mode, subreddit, sort and limit each come from the query when non-empty and otherwise default to nosleep, hot and 25, in `r/<subreddit>/<sort>.json?limit=<limit>&raw_json=1` |
| RedditProxy.ExceptionMessage | supabase/functions/reddit-stories/index.ts:124 | an `Error`'s own message, and "Unknown error" for any other thrown value |
| RedditProxy.SinglePost | supabase/functions/reddit-stories/index.ts:67 | `data[0]?.data?.children?.[0]?.data`: present exactly when the answer is an array whose first listing has data with a non-empty `children` whose first child has `data`, and then it is that `data` |
| RedditProxy.ListingPosts | supabase/functions/reddit-stories/index.ts:100-101 | present exactly when the answer is an object with `data.children` and every child has `data`, and then there is one post per child, the i-th post being the i-th child's `data`, in order |
| RedditProxy.Listed | supabase/functions/reddit-stories/index.ts:102 | a post is listed exactly when its self-text is longer than 100 characters, so the truthiness test adds nothing |
| RedditProxy.ToStory | supabase/functions/reddit-stories/index.ts:78-90 | the story's content is the self-text, it is not narrated and has no audio |
| RedditProxy.StoryReadBack | supabase/functions/reddit-stories/index.ts:103-115 | the post's id, its time in whole seconds and its permalink can be read back from its story, whose URL starts with `https://reddit.com` |
| RedditProxy.ToStories | supabase/functions/reddit-stories/index.ts:103-115 | one story per post, the i-th being the story of the i-th post |
| RedditProxy.AllPosts | supabase/functions/reddit-stories/index.ts:101 | the posts are present exactly when every child has `data`, and then they are those `data`s, in order |
| RedditProxy.LongPosts | supabase/functions/reddit-stories/index.ts:102 | the filter keeps exactly the posts whose self-text is non-empty and longer than 100, and never adds any |
| RedditProxy.Handle | supabase/functions/reddit-stories/index.ts:31-133 | CORS headers on every answer, with `Content-Type: application/json` on all but the preflight; the status is 200, 404 or 500; the body is null only for the preflight; 404 only in single-post mode with "Post not found"; an error body exactly when the status is not 200 |
| RedditProxy.PreflightAnswer | supabase/functions/reddit-stories/index.ts:32-37 | OPTIONS gets 200, a null body and just the CORS headers, whatever the upstream would have done |
| RedditProxy.ListingUrlDependsOnParams | supabase/functions/reddit-stories/index.ts:41-51 | in listing mode the URL depends only on subreddit, sort and limit, and an empty parameter counts as a missing one |
| RedditProxy.EmptyQueryUrl | supabase/functions/reddit-stories/index.ts:41-51 | an empty query fetches r/nosleep, hot, limit 25 |
| RedditProxy.SinglePostUrl | supabase/functions/reddit-stories/index.ts:44-49 | in single-post mode the URL is the id's comments endpoint, whatever the other parameters are |
| RedditProxy.UpstreamStatusFailure | supabase/functions/reddit-stories/index.ts:60-62 | a non-ok status gives 500 with "Reddit API error: " followed by the status, and that decimal reads back as the status |
| RedditProxy.Upstream503 | supabase/functions/reddit-stories/index.ts:60-62 | an upstream 503 is reported as exactly "Reddit API error: 503" |
| RedditProxy.ThrownFailure | supabase/functions/reddit-stories/index.ts:123-131 | a thrown fetch or a failed parse gives 500 with the error's message, or "Unknown error" for a non-Error value |
| RedditProxy.MissingPost | supabase/functions/reddit-stories/index.ts:66-76 | each missing level of `data[0].data.children[0].data` gives 404 with "Post not found" |
| RedditProxy.FoundPost | supabase/functions/reddit-stories/index.ts:78-97 | a found post is returned as a story that copies each of its fields, with `created_at` at `created_utc * 1000` ms, not narrated, and the reddit.com permalink |
| RedditProxy.LongPostsAppend | supabase/functions/reddit-stories/index.ts:101-102 | the filter treats each post on its own: the filter of a concatenation is the concatenation of the filters |
| RedditProxy.ListedStoriesInOrder | supabase/functions/reddit-stories/index.ts:100-115 | the listed stories are a subsequence of the stories of all posts, so upstream order is kept |
| RedditProxy.ListedStoriesLong | supabase/functions/reddit-stories/index.ts:102-106 | every listed story has non-empty content longer than 100 characters |
| RedditProxy.ListedStoriesMembers | supabase/functions/reddit-stories/index.ts:101-115 | a story is listed exactly when it is the story of some listed post |
| RedditProxy.ListingAnswer | supabase/functions/reddit-stories/index.ts:100-122 | a listing gives 200 with exactly the stories of the filtered posts in upstream order (`ToStories(LongPosts(posts))`): at most as many as the posts, each with content longer than 100, each the story of a listed post |
| RedditProxy.MalformedListing | supabase/functions/reddit-stories/index.ts:100-102 | a listing missing `data`, `children` or a child's `data` gives 500 with the runtime's TypeError message |
| RedditProxy.ModesAgree | supabase/functions/reddit-stories/index.ts:78-115 | both modes write a post the same way: the single-post answer is among the stories of a listing that holds the post |
| ApiClient.Without | src/lib/api.ts:39 | the name is gone and every other name looks up as before |
| ApiClient.ReplaceFirst | src/lib/api.ts:39 | a present name then looks up the new value, and every other name as before |
| ApiClient.SetParam | src/lib/api.ts:39 | `searchParams.set`: the name looks up the value, other names are unchanged, and a new name is appended at the end |
| ApiClient.NonEmptyParams | src/lib/api.ts:38-40 | every parameter sent has a non-empty value, and none are added |
| ApiClient.NonEmptyParamsMembers | src/lib/api.ts:38-40 | a pair is sent exactly when it was given with a non-empty value |
| ApiClient.ErrorField | src/lib/api.ts:52 | `data.error`: present exactly for an error body, and then its text |
| ApiClient.Collapse | src/lib/api.ts:49-59 | exactly one of `data` and `error` is set, and an error is never empty |
| ApiClient.Request | src/lib/api.ts:35-60 | the loop puts exactly the non-empty parameters, in order, into the URL's query; the outcome is that of `Collapse`, with exactly one of `data` and `error` |
| ApiClient.NetworkFailures | src/lib/api.ts:56-59 | a thrown fetch and a null body both give "Network error" |
| ApiClient.DeliveredOutcome | src/lib/api.ts:49-55 | a non-ok answer reports its non-empty `error` field, else "Request failed"; an ok answer is data |
| ApiClient.StoriesParams | src/lib/api.ts:67-71 | the record has three distinct keys |
| ApiClient.LimitText | src/lib/api.ts:70 | `limit?.toString()`: present exactly when a limit is given, never empty, so 0 is sent as "0" and not replaced by "25" |
| ApiClient.LimitTextReadBack | src/lib/api.ts:70 | the text of a non-negative limit is all digits and reads back as the limit |
| ApiClient.GetStories | src/lib/api.ts:62-72 | the call sends the non-empty entries of the defaulted record, and the outcome has exactly one of `data` and `error` |
| ApiClient.GetStory | src/lib/api.ts:74-76 | the call sends `id` when it is non-empty and an empty query otherwise |
| ApiClient.GetSubredditStories | src/lib/api.ts:101-106 | the call is `getStories` with the name as subreddit and the given sort and limit |
| ApiClient.StoriesQueryReadBack | src/lib/api.ts:67-71 | the query sent has the subreddit only when one was given non-empty, always a sort (default "hot") and a limit (default "25", otherwise its decimal), and never an id |
| ApiClient.StoriesReachListing | src/lib/api.ts:62-71 | end to end: `getStories` makes the proxy fetch the listing of the given or default community, sort and limit |
| ApiClient.DefaultStories | src/lib/api.ts:67-71 | `getStories()` makes the proxy fetch r/nosleep, hot, limit 25 |
| ApiClient.EmptyIdIsListing | src/lib/api.ts:74-76 | `getStory("")` drops the id, so the proxy answers with a listing |
| ApiClient.MissingPostReachesCaller | src/lib/api.ts:74-76 | end to end: a missing post reaches the caller as the error "Post not found" |
| ApiClient.UpstreamFailureReachesCaller | src/lib/api.ts:51-53 | end to end: an upstream status failure reaches the caller as "Reddit API error: " followed by the status |
| ApiClient.Communities | src/lib/api.ts:81-88 | the table has six entries |
| ApiClient.GetSubreddits | src/lib/api.ts:78-90 | it never fails and gives the whole table |
| ApiClient.SameName | src/lib/api.ts:94 | names equal up to case have the same length and agree character by lowered character |
| ApiClient.FindByName | src/lib/api.ts:94 | `find`: the index of the first community whose name matches, ignoring case, or none if no name matches |
| ApiClient.Placeholder | src/lib/api.ts:98 | the made-up record has the name as id and name, no members, no one online, the clock's time, and a description `Stories from r/` followed by the name |
| ApiClient.GetSubreddit | src/lib/api.ts:92-99 | it never fails: a matching community from the table when there is one, otherwise the placeholder record for the name |
| ApiClient.LookupIgnoresCase | src/lib/api.ts:94 | names that differ only in case find the same community |
| ApiClient.FindSameName | src/lib/api.ts:94 | `find` gives the same index for names equal up to case |
| ApiClient.NoSleepAnyCase | src/lib/api.ts:94 | "NoSleep" and "nosleep" both give the first community |
| ApiClient.UnknownLength | src/lib/api.ts:94-98 | a name whose length matches no community's gives the placeholder |
| ApiClient.UnknownCommunity | src/lib/api.ts:98 | "doesnotexist" gives a record with that id and name, "Stories from r/doesnotexist", no members and no error |
| Votes.Toggle | src/components/StoryCard.tsx:43-45 | voting the active direction clears the vote; any other vote becomes that direction |
| Votes.DisplayedCount | src/components/StoryCard.tsx:79 | the count is off the base by at most one, +1 exactly for an up vote, -1 exactly for a down vote |
| Votes.ArrowColor | src/components/StoryCard.tsx:75-86 | an arrow is coloured exactly when its vote is cast, orange for up and blue for down, on the card and on the story page alike |
| Votes.ToggleCases | src/components/StoryCard.tsx:43-45 | from the same direction the vote clears; from no vote or the opposite direction it is cast at once |
| Votes.ToggleTwice | src/components/StoryCard.tsx:43-45 | voting one direction twice restores the state, unless the state was the opposite vote |
| Votes.ToggleTwiceFromOpposite | src/components/StoryCard.tsx:43-45 | from the opposite vote, two clicks end with no vote |
| Votes.VotingScenario | src/components/StoryCard.tsx:43-79 | up shows base+1, up again shows base, and down straight after up shows base-1 |
| Votes.ReplayFromNoVote | src/components/StoryCard.tsx:43-45 | after any clicks from no vote, the vote is the last direction if its trailing run is odd, and none if it is even |
| Cards.StoryCard.constructor | src/components/StoryCard.tsx:35-37 | a card starts collapsed, not playing and with no vote |
| Cards.StoryCard.Count | src/components/StoryCard.tsx:79 | the counter is the displayed count for the card's vote, within one of the base |
| Cards.StoryCard.UpvoteColor | src/components/StoryCard.tsx:75 | orange exactly for an up vote, grey otherwise |
| Cards.StoryCard.DownvoteColor | src/components/StoryCard.tsx:86 | blue exactly for a down vote, grey otherwise |
| Cards.StoryCard.TitleLink | src/components/StoryCard.tsx:105 | the link is `/r/`, the community, `/comments/` and the id, each of which reads back from it |
| Cards.StoryCard.ShowsNarratedBadge | src/components/StoryCard.tsx:115 | the AI Narrated badge shows exactly when the play button does |
| Cards.StoryCard.ShowsRedditLink | src/components/StoryCard.tsx:155 | the Reddit button shows exactly for a present, non-empty `reddit_url` |
| Cards.StoryCard.ExpandControl | src/components/StoryCard.tsx:130-140 | shown exactly for content longer than 200; "Show less" with an up chevron when expanded, "Read more" with a down chevron when collapsed |
| Cards.StoryCard.VisibleLines | src/components/StoryCard.tsx:127 | unlimited exactly when expanded |
| Cards.StoryCard.PlayButton | src/components/StoryCard.tsx:177-186 | shown exactly for a narrated story; "Pause" with a pause icon while playing, "Listen" with a play icon otherwise |
| Cards.StoryCard.HandleVote | src/components/StoryCard.tsx:43-45 | the vote toggles and nothing else changes |
| Cards.StoryCard.ClickExpand | src/components/StoryCard.tsx:135 | expansion flips and nothing else changes |
| Cards.StoryCard.HandlePlayAudio | src/components/StoryCard.tsx:47-50 | playback flips and nothing else changes |
| StoryView.View | src/pages/Story.tsx:35-139 | loading wins; then a non-empty error is shown as is, or "Story not found" when there is no story; otherwise the story's article, with the Reddit link shown exactly when its URL is non-empty |
| StoryView.StoryPage.constructor | src/pages/Story.tsx:24 | the page starts with no vote |
| StoryView.StoryPage.HandleVote | src/pages/Story.tsx:31-33 | the vote toggles by the card's rule |
| StoryView.StoryPage.Count | src/pages/Story.tsx:92 | the counter is the displayed count for the page's vote, within one of the base |
| SignInPage.ValidationError | src/pages/SignIn.tsx:68-76 | a submission is accepted exactly when both fields are non-empty and, for sign-up, the password has at least 6 characters; empty fields are reported first, and only sign-up reports a short password |
| SignInPage.SignUpStricter | src/pages/SignIn.tsx:47-76 | whatever sign-up accepts, sign-in accepts |
| SignInPage.ShortPasswordSignsIn | src/pages/SignIn.tsx:73-76 | a five-character password is accepted by sign-in and refused by sign-up |
| SignInPage.EmptyCheckFirst | src/pages/SignIn.tsx:68-76 | an empty email is reported as such even when the password is also too short |
| SignInPage.SignInForm.constructor | src/pages/SignIn.tsx:29-34 | the form starts empty, with no alert, and idle |
| SignInPage.SignInForm.PasswordType | src/pages/SignIn.tsx:110 | the password is shown as text exactly when the toggle is on |
| SignInPage.SignInForm.ShowsError | src/pages/SignIn.tsx:172-177 | in a valid state, the error alert never shows together with the success alert, nor during a call |
| SignInPage.SignInForm.ShowsSuccess | src/pages/SignIn.tsx:179-184 | in a valid state, the success alert never shows together with the error alert, nor during a call |
| SignInPage.SignInForm.SetEmail | src/pages/SignIn.tsx:97 | only the email changes, and `Valid()` is kept |
| SignInPage.SignInForm.SetPassword | src/pages/SignIn.tsx:112 | only the password changes, and `Valid()` is kept |
| SignInPage.SignInForm.TogglePasswordVisibility | src/pages/SignIn.tsx:123 | only the visibility flips, and `Valid()` is kept |
| SignInPage.SignInForm.Submit | src/pages/SignIn.tsx:63-80 | the messages are cleared; a refused submission shows its message and calls nobody; an accepted one shows the spinner and calls the provider once with the fields; `Valid()` is kept |
| SignInPage.SignInForm.HandleSignIn | src/pages/SignIn.tsx:42-54 | empty fields give "Please fill in all fields." and no call; otherwise one sign-in call with the fields, awaited with no alert |
| SignInPage.SignInForm.HandleSignUp | src/pages/SignIn.tsx:63-80 | empty fields, then a password shorter than 6, are refused with their messages; otherwise one sign-up call, awaited with no alert |
| SignInPage.SignInForm.AuthReturned | src/pages/SignIn.tsx:53-86 | the spinner stops; an error shows the provider's message; sign-in success navigates to /home once; sign-up success shows "Account created! You can now sign in."; `Valid()` is kept |

## Left out

- Network I/O. The upstream fetch, the client's fetch and the auth
  provider are not performed. Their outcomes are inputs: `Upstream`,
  `Transport` and `AuthOutcome`.
- `SignInPage.SignInForm.AuthReturned` assumes the auth call resolves
  (`AuthOk` or `AuthError`). If `signIn` or `signUp` rejects instead, the
  handler stops at the await with no try/finally, so `isLoading` stays
  true and the submit button stays disabled; the model has no such
  outcome, and `Valid()` ("the spinner shows exactly while a call is
  awaited") holds only because it is excluded.
- The User-Agent and Authorization request headers. They do not affect
  any result the model states.
- JSON. Encoding and decoding are not modelled; bodies are datatypes.
  Upstream bodies that are JSON `null`, or a primitive, are not modelled.
  Neither are responses with a non-JSON content type, or gateway
  responses that do not come from the edge function.
- `RedditProxy.Handle` takes the text of the runtime's TypeError for a
  malformed listing as the parameter `shapeError`, because that text
  belongs to the JavaScript engine.
- ISO-8601 formatting of `created_at`, and the RangeError that
  `toISOString` throws for an out-of-range date. A timestamp is an
  `Instant` in milliseconds.
- The clock. `new Date()` in the community table is one reading, passed in
  as `now`; the source reads the clock once per record.
- Number formatting. `limit.toString()` is modelled for integers only.
  Fractional and non-finite numbers are not modelled.
- Text. `.length` counts characters, not UTF-16 code units.
  `toLowerCase` is modelled for ASCII letters only.
- URLs. Percent-encoding of parameters is not modelled. Neither is the
  `TypeError` that `new URL` throws when the base URL from the environment
  is malformed.
- `console.error` in `request`.
- Rendering: layout, colour-mode values, relative times ("3 hours ago"),
  and the unused `after` and `url` fields.
- Everything outside these five files: the other pages, `useStory` and
  the other hooks, the auth context, and the router.
- `SignInPage.SignInForm.Submit` requires that no call is pending. While a
  call is awaited, the submit button's `isLoading` disables it, so a
  second submission cannot start. Also, the form is rebuilt on every
  render, which resets its focus; that is not modelled.
- `SignInPage.SignInForm.HandleSignIn` does not say which tab is shown:
  tab selection is Chakra's own state.
- `ApiClient.Request` requires distinct parameter names: the keys of a
  JavaScript object always are.
- `Votes.ToggleTwice` requires that the vote is not the opposite of the
  clicked direction. From the opposite vote, two clicks end with no vote
  (`Votes.ToggleTwiceFromOpposite`).
- `ApiClient.GetSubreddit` states the found case as "a matching member of
  the table" rather than naming the first match. `ApiClient.FindByName`
  states that it is the first.
