/** The Reddit search endpoint: validate `limit`, run one search over all
    subreddits, map each submission to a post, and wrap the posts with their
    count. The search client is abstract: its listing is an input, made of
    the submissions it yields and the exception it raises, if any, after
    them. */
module Search {
  import opened Options
  import opened Schemas
  import opened Http

  /** A submission as the client yields it. */
  datatype Submission = Submission(
    id: string,
    title: string,
    selftext: string,
    subredditName: string,
    score: int,
    numComments: int,
    createdUtc: real,
    permalink: string)

  /** What iterating the search yields: some submissions, then possibly an
      exception (a network or API error, raised at any point). */
  datatype Listing = Listing(submissions: seq<Submission>, failure: Option<Exception>)

  /** The one search request: subreddit, keyword, limit. */
  datatype SearchCall = SearchCall(subreddit: string, keyword: string, limit: int)

  /** The endpoint's result: the response and the search calls made. */
  datatype Searched = Searched(response: Response, calls: seq<SearchCall>)

  const DefaultLimit: int := 10
  const MinLimit: int := 1
  const MaxLimit: int := 100
  const RedditOrigin: string := "https://www.reddit.com"
  const SearchErrorPrefix: string := "An error occurred while searching Reddit: "

  /** The `limit` query parameter after validation: omitted means 10, a
      value outside [1, 100] is rejected. */
  function EffectiveLimit(limit: Option<int>): (r: Option<int>)
    ensures r.Some? <==> limit.None? || MinLimit <= limit.value <= MaxLimit
    ensures r.Some? ==> MinLimit <= r.value <= MaxLimit
    ensures limit.None? ==> r == Some(DefaultLimit)
    ensures limit.Some? && r.Some? ==> r.value == limit.value
  {
    match limit
    case None => Some(DefaultLimit)
    case Some(n) => if MinLimit <= n <= MaxLimit then Some(n) else None
  }

  /** The post built from one submission; `formatUtc` renders a timestamp as
      a `%Y-%m-%d %H:%M:%S` UTC string. */
  function ToPost(s: Submission, formatUtc: real -> string): Post
  {
    Post(s.id, s.title, s.selftext, s.subredditName, s.score, s.numComments,
         s.createdUtc, formatUtc(s.createdUtc), RedditOrigin + s.permalink)
  }

  /** Nothing of a submission is lost in its post: distinct submissions give
      distinct posts. */
  lemma ToPostInjective(a: Submission, b: Submission, formatUtc: real -> string)
    requires ToPost(a, formatUtc) == ToPost(b, formatUtc)
    ensures a == b
  {
    var pa := ToPost(a, formatUtc);
    assert a.permalink == pa.url[|RedditOrigin|..];
    assert b.permalink == pa.url[|RedditOrigin|..];
  }

  /** `search_reddit`: a rejected limit answers 422 before any search;
      otherwise one search, one post per submission in order, `total` the
      number of posts and `has_more` false; an exception from the search
      answers 500 with its text after a fixed prefix. */
  method SearchReddit(keyword: string, limit: Option<int>, listing: Listing, formatUtc: real -> string)
    returns (out: Searched)
    ensures EffectiveLimit(limit).None? ==>
      out.calls == [] && out.response.status == 422 && out.response.payload == ValidationFailed
    ensures EffectiveLimit(limit).Some? ==>
      out.calls == [SearchCall("all", keyword, EffectiveLimit(limit).value)]
    ensures EffectiveLimit(limit).Some? && listing.failure.Some? ==>
      out.response.status == 500
      && out.response.payload == Detail(SearchErrorPrefix + Str(listing.failure.value))
    ensures out.response.status == 200 <==> EffectiveLimit(limit).Some? && listing.failure.None?
    ensures out.response.status == 200 ==>
      && out.response.payload.Results?
      && var response := out.response.payload.search;
      && |response.results| == |listing.submissions|
      && response.total == |response.results|
      && !response.hasMore
      && forall i :: 0 <= i < |listing.submissions| ==>
           var s := listing.submissions[i];
           var p := response.results[i];
           && p.id == s.id && p.title == s.title && p.selftext == s.selftext
           && p.subreddit == s.subredditName
           && p.score == s.score && p.numComments == s.numComments
           && p.createdUtc == s.createdUtc && p.createdDate == formatUtc(s.createdUtc)
           && p.url == RedditOrigin + s.permalink
    ensures out.response.cookies == [] && out.response.headers == []
  {
    var checked := EffectiveLimit(limit);
    if checked.None? {
      return Searched(Response(422, ValidationFailed, [], []), []);
    }
    var calls := [SearchCall("all", keyword, checked.value)];
    var results: seq<Post> := [];
    var k := 0;
    while k < |listing.submissions|
      invariant 0 <= k <= |listing.submissions|
      invariant |results| == k
      invariant forall i :: 0 <= i < k ==> results[i] == ToPost(listing.submissions[i], formatUtc)
    {
      results := results + [ToPost(listing.submissions[k], formatUtc)];
      k := k + 1;
    }
    if listing.failure.Some? {
      return Searched(Raise(500, SearchErrorPrefix + Str(listing.failure.value), []), calls);
    }
    var response := SearchResponse(results, |results|, false);
    return Searched(Success(Results(response), []), calls);
  }
}
