/**
 * The catalogue API client (app/lib/api.ts): its record shapes, the
 * provider-key table, the request bodies it builds and which calls swallow a
 * transport failure and which pass it on. The transport itself is a parameter:
 * a function from the request to the reply it produced.
 */
module Api {
  import opened Wrappers
  import opened Seqs

  /** A nullable string tested in a condition: null, absent and "" are false. */
  predicate Truthy(s: Option<string>)
  {
    s.Some? && s.value != []
  }

  datatype ShowType = Tv | Movie

  /** A show id is a number from the backend, or a string once the fetch hook has prefixed it. */
  datatype ShowId = NumId(n: int) | StrId(s: string)

  /**
   * A show. `None` stands for a field that is null or absent; `popularity`
   * (a floating-point number) is not part of the model.
   */
  datatype Show = Show(
    id: ShowId,
    title: string,
    releaseDate: string,
    genreIds: seq<int>,
    overview: string,
    posterUrl: Option<string>,
    originalLanguage: string,
    originalCountry: seq<string>,
    showType: ShowType,
    watchProviders: Option<seq<int>>,
    trailerLink: Option<string>,
    backdropPath: Option<string>,
    homepage: Option<string>)

  datatype Provider = Provider(providerName: string, providerKey: int, shows: seq<Show>)

  datatype Movie = Movie(
    id: int, title: string, releaseDate: string, genreIds: seq<int>, overview: string,
    posterUrl: string, originalLanguage: string, originalCountry: seq<string>,
    watchProviders: seq<int>, homepage: Option<string>)

  datatype BlogPost = BlogPost(
    postId: string, title: string, description: string, imageUrl: string, author: string,
    category: string, body: Option<string>, blogId: string, createdDate: string, updatedDate: string)

  /** A recommended movie; `vote_average` (floating point) is not part of the model. */
  datatype AIMovie = AIMovie(
    backdropPath: Option<string>, genres: string, id: int, overview: string, posterUrl: string,
    releaseYear: string, specialAttribute: string, title: string)

  /**
   * The `data` field of an AI reply: an array of movies, an object wrapping
   * them (the shape the interface declares), or null/absent.
   */
  datatype AIData = MovieArray(items: seq<AIMovie>) | MovieObject(movies: seq<AIMovie>) | NoData

  datatype AIResponse = AIResponse(message: string, data: AIData)

  datatype ShowsResponse = ShowsResponse(shows: seq<Show>, totalCount: int)

  datatype FeedbackData = FeedbackData(name: string, email: string, feedbackType: string, message: string)

  /** A transport failure: the request did not produce a usable reply. */
  datatype ApiError = ApiError(description: string)

  /** The slug-to-key table of streaming platforms, in declaration order. */
  const ProviderKeys: seq<(string, int)> := [
    ("netflix", 8), ("amazonprimevideo", 119), ("hotstar", 122), ("jiocinema", 220),
    ("jiohotstar", 2336), ("zee5", 232), ("sonyliv", 237), ("mxplayer", 515),
    ("amazonminitv", 1898), ("watchmore", 0)]

  /** The ten slugs are distinct and so are the ten keys. */
  lemma ProviderKeysDistinct()
    ensures |ProviderKeys| == 10
    ensures forall i, j :: 0 <= i < j < |ProviderKeys| ==> ProviderKeys[i].0 != ProviderKeys[j].0
    ensures forall i, j :: 0 <= i < j < |ProviderKeys| ==> ProviderKeys[i].1 != ProviderKeys[j].1
  {
  }

  /** `providerKeyMap[slug]`: the key of a listed slug, `None` (undefined) for any other. */
  function ProviderKey(slug: string): (r: Option<int>)
    ensures forall i :: 0 <= i < |ProviderKeys| && ProviderKeys[i].0 == slug ==> r == Some(ProviderKeys[i].1)
    ensures (forall i :: 0 <= i < |ProviderKeys| ==> ProviderKeys[i].0 != slug) ==> r.None?
  {
    ProviderKeysDistinct();
    match FirstIndex(ProviderKeys, (e: (string, int)) => e.0 == slug)
    case Some(i) => Some(ProviderKeys[i].1)
    case None => None
  }

  lemma ProviderKeyExamples()
    ensures ProviderKey("netflix") == Some(8) && ProviderKey("watchmore") == Some(0)
    ensures ProviderKey("Netflix").None?
  {
    assert ProviderKeys[0].0 == "netflix" && ProviderKeys[9].0 == "watchmore";
    assert forall i :: 0 <= i < |ProviderKeys| ==> ProviderKeys[i].0 != "Netflix";
  }

  /** A call that logs a failure and yields an empty list instead. */
  function Swallow<T>(reply: Result<seq<T>, ApiError>): (r: seq<T>)
    ensures reply.Success? ==> r == reply.value
    ensures reply.Failure? ==> r == []
  {
    match reply
    case Success(v) => v
    case Failure(_) => []
  }

  /** A call that logs a failure and throws it again to its caller. */
  function Rethrow<T>(reply: Result<T, ApiError>): (r: Result<T, ApiError>)
    ensures r.Failure? <==> reply.Failure?
    ensures reply.Success? ==> r.value == reply.value
    ensures reply.Failure? ==> r.error == reply.error
  {
    reply
  }

  /** The optional filters the home endpoint accepts. */
  datatype ApiFilters = ApiFilters(originalLanguage: Option<string>, genreIds: Option<seq<int>>)

  const NoApiFilters: ApiFilters := ApiFilters(None, None)

  /** The JSON body posted to the home endpoint. */
  datatype HomeRequest = HomeRequest(showType: Option<ShowType>, limit: int, filters: ApiFilters)

  const DefaultLimit: int := 100

  /** `{showType, limit, ...filters}`; an omitted limit is 100 and omitted filters add no field. */
  function ShowsRequestBody(showType: Option<ShowType>, limit: Option<int>, filters: Option<ApiFilters>): (r: HomeRequest)
    ensures r.showType == showType
    ensures r.limit == (if limit.Some? then limit.value else DefaultLimit)
    ensures r.filters == (if filters.Some? then filters.value else NoApiFilters)
  {
    HomeRequest(showType, limit.GetOr(DefaultLimit), filters.GetOr(NoApiFilters))
  }

  /** `fetchShows`: the providers the home endpoint returned, or `[]` when the request failed. */
  function FetchShows(showType: Option<ShowType>, limit: Option<int>, filters: Option<ApiFilters>,
                      post: HomeRequest -> Result<seq<Provider>, ApiError>): (r: seq<Provider>)
    ensures var reply := post(ShowsRequestBody(showType, limit, filters));
            (reply.Success? ==> r == reply.value) && (reply.Failure? ==> r == [])
  {
    Swallow(post(ShowsRequestBody(showType, limit, filters)))
  }

  /** `fetchRecommendations`: posts `{query}`; a failure yields `[]`. */
  function FetchRecommendations(query: string, post: string -> Result<seq<Movie>, ApiError>): (r: seq<Movie>)
    ensures post(query).Success? ==> r == post(query).value
    ensures post(query).Failure? ==> r == []
  {
    Swallow(post(query))
  }

  /** `fetchAllBlogs`: a failure yields `[]`. */
  function FetchAllBlogs(reply: Result<seq<BlogPost>, ApiError>): (r: seq<BlogPost>)
    ensures reply.Success? ==> r == reply.value
    ensures reply.Failure? ==> r == []
  {
    Swallow(reply)
  }

  /** `fetchBlogById`: gets the post with that id; a failure reaches the caller. */
  function FetchBlogById(blogId: string, get: string -> Result<BlogPost, ApiError>): (r: Result<BlogPost, ApiError>)
    ensures r.Failure? <==> get(blogId).Failure?
    ensures r.Success? ==> r.value == get(blogId).value
  {
    Rethrow(get(blogId))
  }

  /** `generateAIRecommendations`: posts `{query}`; a failure reaches the caller. */
  function GenerateAIRecommendations(query: string, post: string -> Result<AIResponse, ApiError>): (r: Result<AIResponse, ApiError>)
    ensures r.Failure? <==> post(query).Failure?
    ensures r.Success? ==> r.value == post(query).value
  {
    Rethrow(post(query))
  }

  /** The parameter object a caller may hand to `fetchShowsByProvider`. */
  datatype FilterParams = FilterParams(
    limit: int, offset: int, watchProviders: seq<int>,
    genreIds: Option<seq<int>>, originalLanguage: Option<string>, releaseDate: Option<string>)

  /**
   * The body posted to the all-shows endpoint: the caller's parameters as
   * given, or a page request whose one provider key may be undefined.
   */
  datatype AllShowsRequest =
    | Verbatim(params: FilterParams)
    | Paged(limit: int, offset: int, watchProviders: seq<Option<int>>)

  const DefaultOffset: int := 0

  /** `filterParams || {limit, offset, watchProviders: [providerKeyMap[provider]]}`. */
  function AllShowsRequestBody(provider: string, limit: Option<int>, offset: Option<int>,
                               filterParams: Option<FilterParams>): (r: AllShowsRequest)
    ensures filterParams.Some? ==> r == Verbatim(filterParams.value)
    ensures filterParams.None? ==> r.Paged? && r.watchProviders == [ProviderKey(provider)]
    ensures filterParams.None? ==> r.limit == limit.GetOr(DefaultLimit) && r.offset == offset.GetOr(DefaultOffset)
  {
    match filterParams
    case Some(params) => Verbatim(params)
    case None => Paged(limit.GetOr(DefaultLimit), offset.GetOr(DefaultOffset), [ProviderKey(provider)])
  }

  /** Given parameters, the slug, limit and offset play no part in the request. */
  lemma FilterParamsOverrideArguments(p1: string, p2: string, l1: Option<int>, l2: Option<int>,
                                      o1: Option<int>, o2: Option<int>, params: FilterParams)
    ensures AllShowsRequestBody(p1, l1, o1, Some(params)) == AllShowsRequestBody(p2, l2, o2, Some(params))
  {
  }

  /** An unlisted slug sends a single undefined provider key. */
  lemma UnknownProviderSendsUndefinedKey(provider: string, limit: Option<int>, offset: Option<int>)
    requires forall i :: 0 <= i < |ProviderKeys| ==> ProviderKeys[i].0 != provider
    ensures AllShowsRequestBody(provider, limit, offset, None).watchProviders == [None]
  {
  }

  /** `fetchShowsByProvider`: a failure reaches the caller. */
  function FetchShowsByProvider(provider: string, limit: Option<int>, offset: Option<int>,
                                filterParams: Option<FilterParams>,
                                post: AllShowsRequest -> Result<ShowsResponse, ApiError>): (r: Result<ShowsResponse, ApiError>)
    ensures var reply := post(AllShowsRequestBody(provider, limit, offset, filterParams));
            (r.Failure? <==> reply.Failure?) && (r.Success? ==> r.value == reply.value)
  {
    Rethrow(post(AllShowsRequestBody(provider, limit, offset, filterParams)))
  }

  /** `submitFeedback`: posts the data as given; a failure reaches the caller. */
  function SubmitFeedback<R>(data: FeedbackData, post: FeedbackData -> Result<R, ApiError>): (r: Result<R, ApiError>)
    ensures r.Failure? <==> post(data).Failure?
    ensures r.Success? ==> r.value == post(data).value
  {
    Rethrow(post(data))
  }

  /** Exactly the three list calls never fail towards their caller: a failed transport gives them `[]`. */
  lemma FailurePolicy(e: ApiError, query: string, blogId: string, data: FeedbackData, provider: string)
    ensures FetchShows(None, None, None, _ => Failure(e)) == []
    ensures FetchRecommendations(query, _ => Failure(e)) == []
    ensures FetchAllBlogs(Failure(e)) == []
    ensures FetchBlogById(blogId, _ => Failure(e)) == Failure(e)
    ensures GenerateAIRecommendations(query, _ => Failure(e)) == Failure(e)
    ensures FetchShowsByProvider(provider, None, None, None, _ => Failure(e)) == Failure(e)
    ensures SubmitFeedback<int>(data, _ => Failure(e)) == Failure(e)
  {
  }
}
