/** SoundCloud playlist search results, loaded page by page. */
module SearchPlaylistModels {
  import opened Wrappers
  import opened Strings
  import opened Decimal
  import opened Seqs
  import opened Items
  import opened Paging
  import opened IncrementalLoading

  /** The playlist search call. `trackLimitor` is the page-size setting the app reads. */
  function PlaylistSearchRequest(query: string, token: Option<string>, trackLimitor: nat,
                                 urlEncode: string -> string): (r: Request)
    ensures r.service == Some(SoundCloud) && r.path == "/playlists"
    ensures r.query.Keys == {"limit", "linked_partitioning", "offset", "q"}
    ensures r.query["limit"] == Some(NatToString(trackLimitor))
    ensures r.query["offset"] == token && r.query["linked_partitioning"] == Some("1")
    ensures r.query["q"] == Some(urlEncode(query))
  {
    Request(Some(SoundCloud), "/playlists",
      map["limit" := Some(NatToString(trackLimitor)), "linked_partitioning" := Some("1"),
          "offset" := token, "q" := Some(urlEncode(query))])
  }

  /** What one load does: with a null or empty query nothing is asked and nothing changes.
      Otherwise the playlist page is read with "offset" as its next-page parameter, and a
      `SoundByteException` ends the list. */
  function SearchAfterLoad<R, T>(query: Option<string>, token: Option<string>, items: seq<T>,
                                 response: Page<R>, toBasePlaylist: R -> T): (r: Loaded<T>)
    ensures IsNullOrEmpty(query) ==> r == Loaded(token, items, 0)
    ensures !IsNullOrEmpty(query) ==> r == AfterLoad(token, items, PageOutcome(response, "offset", toBasePlaylist), EndList)
  {
    if IsNullOrEmpty(query) then Loaded(token, items, 0)
    else AfterLoad(token, items, PageOutcome(response, "offset", toBasePlaylist), EndList)
  }

  /** The collection. `T` is the canonical playlist type its items are converted to. */
  class SearchPlaylistModel<T> {
    var token: Option<string>
    var query: Option<string>
    var items: seq<T>

    constructor ()
      ensures token == None && query == None && items == []
    {
      token := None;
      query := None;
      items := [];
    }

    predicate HasMoreItems()
      reads this
    {
      HasMore(token)
    }

    /** The `Query` setter: it does not restart the list. */
    method SetQuery(value: Option<string>)
      modifies this
      ensures query == value && token == old(token) && items == old(items)
    {
      query := value;
    }

    method RefreshItems()
      modifies this
      ensures token == None && items == [] && query == old(query)
      ensures HasMoreItems()
    {
      token := None;
      items := [];
    }

    /** `LoadMoreItemsAsync`. With a query the search is sent (`request`), `response` is what
        it produced, and each returned playlist is converted and appended in order. */
    method LoadMoreItemsAsync<R>(count: nat, trackLimitor: nat, response: Page<R>,
                                 toBasePlaylist: R -> T, urlEncode: string -> string)
      returns (request: Option<Request>, loaded: nat)
      modifies this
      ensures request.None? <==> IsNullOrEmpty(old(query))
      ensures request.Some? ==>
                request.value == PlaylistSearchRequest(old(query).value, old(token), trackLimitor, urlEncode)
      ensures Loaded(token, items, loaded) ==
              SearchAfterLoad(old(query), old(token), old(items), response, toBasePlaylist)
      ensures query == old(query)
    {
      if IsNullOrEmpty(query) {
        return None, 0;
      }
      request := Some(PlaylistSearchRequest(query.value, token, trackLimitor, urlEncode));
      loaded := count;
      match response
      case Error(_) =>
        loaded := 0;
        token := Some(Eol);
      case Ok(page, next) =>
        var offset := FirstValue(next, "offset");
        token := Some(TokenOrEol(offset));
        if |page| > 0 {
          loaded := |page|;
          var i := 0;
          while i < |page|
            invariant 0 <= i <= |page|
            invariant items == old(items) + Map(toBasePlaylist, page[..i])
            invariant token == Some(TokenOrEol(offset))
            invariant query == old(query)
          {
            MapAppend(toBasePlaylist, page[..i], page[i]);
            assert page[..i + 1] == page[..i] + [page[i]];
            items := items + [toBasePlaylist(page[i])];
            i := i + 1;
          }
          assert page[..|page|] == page;
        } else {
          loaded := 0;
          token := Some(Eol);
        }
    }
  }
}
