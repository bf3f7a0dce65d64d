/** Searching YouTube for channels, as canonical users. */
module SearchYouTubeUserSources {
  import opened Wrappers
  import opened Decimal
  import opened Items
  import opened Paging
  import opened SoundByteExceptions
  import opened Seqs

  /** A search result: the kind its `id` object names, and the rest of the result, which the
      channel conversion reads (that conversion is not part of this model). */
  datatype YouTubeChannel = YouTubeChannel(idKind: Option<string>, channelId: Option<string>, title: Option<string>)

  predicate IsChannel(c: YouTubeChannel) {
    c.idKind == Some("youtube#channel")
  }

  /** The search request: channels only, with the given page size and page token. */
  function SearchRequest(searchQuery: Option<string>, count: Int32, token: Option<string>,
                         urlEncode: string -> string): Request
  {
    Request(Some(YouTube), "search",
      map["part" := Some("snippet"), "maxResults" := Some(IntToString(count)), "pageToken" := token,
          "type" := Some("channel"), "q" := UrlEncoded(urlEncode, searchQuery)])
  }

  /** `GetItemsAsync`: an empty result is the "No results found" failure; otherwise the results
      whose id kind is a channel are converted in order, and the next token is the response's
      next-page token. An error from the call propagates. */
  method GetItemsAsync(searchQuery: Option<string>, count: Int32, token: Option<string>,
                       response: TokenPage<YouTubeChannel>, urlEncode: string -> string,
                       toBaseUser: YouTubeChannel -> BaseUser)
    returns (request: Request, result: Result<SourceResponse<BaseUser>, SoundByteException>)
    ensures request == SearchRequest(searchQuery, count, token, urlEncode)
    ensures request.query["maxResults"] == Some(IntToString(count)) && request.query["pageToken"] == token
    ensures request.query["type"] == Some("channel")
    ensures response.TokenError? ==> result == Failure(response.error)
    ensures response.TokenOk? && response.items == [] ==> result == Success(NoResults(searchQuery))
    ensures response.TokenOk? && response.items != [] ==>
              result == Success(Succeeded(Map(toBaseUser, Filter(IsChannel, response.items)), response.nextPageToken))
  {
    request := SearchRequest(searchQuery, count, token, urlEncode);
    match response
    case TokenError(e) =>
      result := Failure(e);
    case TokenOk(channels, nextList) =>
      if channels == [] {
        result := Success(NoResults(searchQuery));
      } else {
        var baseUsers: seq<BaseUser> := [];
        var i := 0;
        while i < |channels|
          invariant 0 <= i <= |channels|
          invariant baseUsers == Map(toBaseUser, Filter(IsChannel, channels[..i]))
        {
          ghost var seen := channels[..i];
          assert channels[..i + 1] == seen + [channels[i]];
          FilterAppend(IsChannel, seen, channels[i]);
          if channels[i].idKind == Some("youtube#channel") {
            MapAppend(toBaseUser, Filter(IsChannel, seen), channels[i]);
            baseUsers := baseUsers + [toBaseUser(channels[i])];
          }
          i := i + 1;
        }
        assert channels[..|channels|] == channels;
        result := Success(Succeeded(baseUsers, nextList));
      }
  }

  /** A non-empty response with no channel in it is a success with no users, not a failure; a
      response whose results are all channels gives one user per result. */
  lemma ChannelFilterOutcomes(channels: seq<YouTubeChannel>, toBaseUser: YouTubeChannel -> BaseUser)
    ensures (forall i :: 0 <= i < |channels| ==> !IsChannel(channels[i])) ==>
              Map(toBaseUser, Filter(IsChannel, channels)) == []
    ensures (forall i :: 0 <= i < |channels| ==> IsChannel(channels[i])) ==>
              Map(toBaseUser, Filter(IsChannel, channels)) == Map(toBaseUser, channels)
  {
    if forall i :: 0 <= i < |channels| ==> IsChannel(channels[i]) {
      FilterAll(IsChannel, channels);
    }
    var r := Filter(IsChannel, channels);
    if r != [] {
      assert r[0] in channels;
    }
  }
}
