/** The Story page: which of its three views it renders, and its local vote. */
module StoryView {
  import opened Base
  import opened Records
  import opened Votes

  const StoryNotFound := "Story not found"

  /** The three things the page can render. In the article, `redditLink` is
      the "View on Reddit" target, when that link is shown. */
  datatype PageView =
    | LoadingView
    | MessageView(text: string)
    | ArticleView(story: Story, redditLink: Option<string>)

  /** The page's branches, given what the story hook reports: loading first,
      then an error or a missing story, then the article. */
  function View(loading: bool, error: Option<string>, story: Option<Story>): (v: PageView)
    ensures loading ==> v == LoadingView
    ensures !loading && Truthy(error) ==> v == MessageView(error.value)
    ensures !loading && !Truthy(error) && story.None? ==> v == MessageView(StoryNotFound)
    ensures v.ArticleView? <==> !loading && !Truthy(error) && story.Some?
    ensures v.ArticleView? ==> story == Some(v.story)
    ensures v.ArticleView? ==> (v.redditLink.Some? <==> Truthy(v.story.redditUrl))
                               && (v.redditLink.Some? ==> v.story.redditUrl == v.redditLink)
  {
    if loading then LoadingView
    else if Truthy(error) || story.None? then MessageView(OrElse(error, StoryNotFound))
    else ArticleView(story.value, if Truthy(story.value.redditUrl) then story.value.redditUrl else None)
  }

  class StoryPage {
    var userVote: Vote

    /** The page opens with no vote. */
    constructor ()
      ensures userVote == NoVote
    {
      userVote := NoVote;
    }

    /** `handleVote(d)`, the same rule as the card's. */
    method HandleVote(d: Direction)
      modifies this
      ensures userVote == Toggle(old(userVote), d)
    {
      userVote := Toggle(userVote, d);
    }

    /** The number shown between the arrows for the loaded story. The
        arrows themselves are coloured by `ArrowColor`, as on the card. */
    function Count(story: Story): (n: int)
      reads this
      ensures story.upvotes - 1 <= n <= story.upvotes + 1
      ensures n == DisplayedCount(story.upvotes, userVote)
    {
      DisplayedCount(story.upvotes, userVote)
    }
  }
}
