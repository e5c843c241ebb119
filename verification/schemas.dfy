/** The search result records shared by the backend's response model and the
    frontend's types: one `RedditPost` per submission and the response that
    wraps them. The frontend's `SearchResponse` also has a `query` field,
    which the backend's model lacks; it is left out because `formatCSV`
    never reads it. */
module Schemas {

  /** A post as the search endpoint returns it and the frontend receives it.
      `createdUtc` is the raw timestamp (a float in the source), `createdDate`
      its formatted UTC rendering. */
  datatype Post = Post(
    id: string,
    title: string,
    selftext: string,
    subreddit: string,
    score: int,
    numComments: int,
    createdUtc: real,
    createdDate: string,
    url: string)

  /** The search response: the posts, their count and the pagination flag. */
  datatype SearchResponse = SearchResponse(results: seq<Post>, total: int, hasMore: bool)
}
