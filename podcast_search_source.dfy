/** Searching the iTunes podcast directory. */
module PodcastSearchSources {
  import opened Wrappers
  import opened Decimal
  import opened Items
  import opened Paging
  import opened SoundByteExceptions
  import opened Seqs

  /** The search request: only the query, the country and the entity kind. */
  function SearchRequest(searchQuery: Option<string>): Request {
    Request(Some(ITunesPodcast), "/search",
      map["term" := searchQuery, "country" := Some("us"), "entity" := Some("podcast")])
  }

  /** `GetItemsAsync`: the search request, and its result from the response: "No results
      found" for no podcasts, else every podcast converted in order (the conversion is not part
      of this model) with the end token, so the source has a single page. */
  function GetItemsAsync<R, P>(searchQuery: Option<string>, count: Int32, token: Option<string>,
                               response: Result<seq<R>, SoundByteException>, toBasePodcast: R -> P)
    : (out: (Request, Result<SourceResponse<P>, SoundByteException>))
    ensures out.0 == SearchRequest(searchQuery)
    ensures response.Failure? ==> out.1 == Failure(response.error)
    ensures response.Success? && response.value == [] ==> out.1 == Success(NoResults(searchQuery))
    ensures response.Success? && response.value != [] ==>
              && out.1.Success? && out.1.value.isSuccess && out.1.value.token == Some(Eol)
              && out.1.value.items.Some? && |out.1.value.items.value| == |response.value|
              && forall i :: 0 <= i < |response.value| ==> out.1.value.items.value[i] == toBasePodcast(response.value[i])
  {
    var request := SearchRequest(searchQuery);
    match response
    case Failure(e) => (request, Failure(e))
    case Success(podcasts) =>
      if podcasts == [] then (request, Success(NoResults(searchQuery)))
      else (request, Success(Succeeded(Map(toBasePodcast, podcasts), Some(Eol))))
  }

  /** The count and token arguments change neither the request nor the result. */
  lemma CountAndTokenIgnored<R, P>(searchQuery: Option<string>, count1: Int32, count2: Int32,
                                   token1: Option<string>, token2: Option<string>,
                                   response: Result<seq<R>, SoundByteException>, toBasePodcast: R -> P)
    ensures GetItemsAsync(searchQuery, count1, token1, response, toBasePodcast) ==
            GetItemsAsync(searchQuery, count2, token2, response, toBasePodcast)
  {
  }

  /** A returned response is a success exactly when the search found something, and a success
      never asks for another page. */
  lemma SucceedsExactlyOnResults<R, P>(searchQuery: Option<string>, count: Int32, token: Option<string>,
                                       response: Result<seq<R>, SoundByteException>, toBasePodcast: R -> P)
    requires response.Success?
    ensures var r := GetItemsAsync(searchQuery, count, token, response, toBasePodcast).1;
            && r.Success?
            && (r.value.isSuccess <==> response.value != [])
            && (r.value.isSuccess ==> !HasMore(r.value.token))
            && (!r.value.isSuccess ==> r.value.items == None && r.value.token == None)
  {
  }
}
