/** The `Story` record that the proxy produces and the client consumes
    (the `Story` interface of src/lib/api.ts). */
module Records {
  import opened Base

  /** A point in time as milliseconds since the epoch. The source renders it
      with `toISOString()`; the rendering is not part of this model. */
  datatype Instant = Instant(millis: int)

  datatype Story = Story(
    id: string,
    title: string,
    content: string,
    author: string,
    subreddit: string,
    upvotes: int,
    comments: int,
    createdAt: Instant,
    isNarrated: bool,
    audioUrl: Option<string>,
    redditId: Option<string>,
    redditUrl: Option<string>)
}
