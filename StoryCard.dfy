/** The StoryCard component: a story preview whose vote, expansion and
    playback flags are local state changed by its click handlers. */
module Cards {
  import opened Base
  import opened Records
  import opened Votes

  /** The `story` prop of the card. */
  datatype CardStory = CardStory(
    id: string,
    title: string,
    content: string,
    author: string,
    subreddit: string,
    upvotes: int,
    comments: int,
    createdAt: Instant,
    audioUrl: Option<string>,
    isNarrated: Option<bool>,
    redditUrl: Option<string>)

  /** Content longer than this gets a "Read more" / "Show less" control. */
  const ExpandThreshold := 200

  /** Lines of content shown while the card is collapsed. */
  const CollapsedLines := 3

  datatype Icon = ChevronUp | ChevronDown | PlayIcon | PauseIcon

  /** A rendered button: its text and its icon. */
  datatype Control = Control(text: string, icon: Icon)

  class StoryCard {
    const story: CardStory
    var isExpanded: bool
    var isPlaying: bool
    var userVote: Vote

    /** The initial state: no vote, collapsed, not playing. */
    constructor (story: CardStory)
      ensures this.story == story
      ensures userVote == NoVote && !isExpanded && !isPlaying
    {
      this.story := story;
      isExpanded := false;
      isPlaying := false;
      userVote := NoVote;
    }

    /** The number shown between the arrows. */
    function Count(): (n: int)
      reads this
      ensures story.upvotes - 1 <= n <= story.upvotes + 1
      ensures n == DisplayedCount(story.upvotes, userVote)
    {
      DisplayedCount(story.upvotes, userVote)
    }

    /** The up arrow is orange and the down arrow blue exactly when that
      vote is cast; otherwise they are grey. */
    function UpvoteColor(): (c: Color)
      reads this
      ensures c == Orange500 <==> userVote == Cast(Up)
      ensures c != Orange500 ==> c == Gray400
    {
      ArrowColor(userVote, Up)
    }

    function DownvoteColor(): (c: Color)
      reads this
      ensures c == Blue500 <==> userVote == Cast(Down)
      ensures c != Blue500 ==> c == Gray400
    {
      ArrowColor(userVote, Down)
    }

    /** The title's link target, `/r/<subreddit>/comments/<id>`: both the
        community and the id can be read back from it. */
    function TitleLink(): (path: string)
      reads this
      ensures |path| == |"/r/"| + |story.subreddit| + |"/comments/"| + |story.id|
      ensures path[..3] == "/r/"
      ensures path[3..3 + |story.subreddit|] == story.subreddit
      ensures path[3 + |story.subreddit|..|path| - |story.id|] == "/comments/"
      ensures path[|path| - |story.id|..] == story.id
    {
      var path := "/r/" + story.subreddit + "/comments/" + story.id;
      assert path[..3] == "/r/";
      assert path[3..3 + |story.subreddit|] == story.subreddit;
      assert path[3 + |story.subreddit|..|path| - |story.id|] == "/comments/";
      assert path[|path| - |story.id|..] == story.id;
      path
    }

    /** The expand control: present only for long content; its label and
      icon follow `isExpanded`. */
    function ExpandControl(): (c: Option<Control>)
      reads this
      ensures c.Some? <==> |story.content| > ExpandThreshold
      ensures c.Some? ==> (c.value.text == "Show less" <==> isExpanded)
      ensures c.Some? ==> (c.value.text == "Read more" <==> !isExpanded)
      ensures c.Some? ==> c.value.icon == (if isExpanded then ChevronUp else ChevronDown)
    {
      if |story.content| > ExpandThreshold then
        Some(if isExpanded then Control("Show less", ChevronUp) else Control("Read more", ChevronDown))
      else None
    }

    /** `noOfLines`: unlimited when expanded, three lines otherwise. */
    function VisibleLines(): (lines: Option<nat>)
      reads this
      ensures lines.None? <==> isExpanded
    {
      if isExpanded then None else Some(CollapsedLines)
    }

    /** The play button: present only for a narrated story; its label and
      icon follow `isPlaying`. */
    function PlayButton(): (c: Option<Control>)
      reads this
      ensures c.Some? <==> story.isNarrated == Some(true)
      ensures c.Some? ==> (c.value.text == "Pause" <==> isPlaying)
      ensures c.Some? ==> (c.value.text == "Listen" <==> !isPlaying)
      ensures c.Some? ==> c.value.icon == (if isPlaying then PauseIcon else PlayIcon)
    {
      if story.isNarrated == Some(true) then
        Some(if isPlaying then Control("Pause", PauseIcon) else Control("Listen", PlayIcon))
      else None
    }

    /** The "AI Narrated" badge shows exactly when the play button does. */
    predicate ShowsNarratedBadge()
      reads this
      ensures ShowsNarratedBadge() <==> PlayButton().Some?
    {
      story.isNarrated == Some(true)
    }

    /** The "Reddit" button shows exactly for a non-empty `reddit_url`. */
    predicate ShowsRedditLink()
      ensures ShowsRedditLink() <==> story.redditUrl.Some? && story.redditUrl.value != ""
    {
      Truthy(story.redditUrl)
    }

    /** `handleVote(d)`: only the vote changes. */
    method HandleVote(d: Direction)
      modifies this
      ensures userVote == Toggle(old(userVote), d)
      ensures isExpanded == old(isExpanded) && isPlaying == old(isPlaying)
    {
      userVote := Toggle(userVote, d);
    }

    /** A click on the expand control, which exists only for long content. */
    method ClickExpand()
      requires ExpandControl().Some?
      modifies this
      ensures isExpanded == !old(isExpanded)
      ensures userVote == old(userVote) && isPlaying == old(isPlaying)
    {
      isExpanded := !isExpanded;
    }

    /** `handlePlayAudio`, reachable only from the play button. */
    method HandlePlayAudio()
      requires PlayButton().Some?
      modifies this
      ensures isPlaying == !old(isPlaying)
      ensures userVote == old(userVote) && isExpanded == old(isExpanded)
    {
      isPlaying := !isPlaying;
    }
  }
}
