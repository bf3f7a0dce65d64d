/** The SoundCloud charts collection: the top or trending tracks of one genre, loaded fifty at a
    time. */
module ChartModels {
  import opened Wrappers
  import opened Strings
  import opened Seqs
  import opened Items
  import opened Paging
  import opened IncrementalLoading

  const DefaultGenre := "all-music"
  const DefaultKind := "top"
  const GenrePrefix := "soundcloud%3Agenres%3A"

  /** The chart call for a genre, a kind and a token. */
  function ChartRequest(genre: Option<string>, kind: Option<string>, token: Option<string>): (r: Request)
    ensures r.service == Some(SoundCloudV2) && r.path == "/charts"
    ensures r.query.Keys == {"genre", "kind", "limit", "offset", "linked_partitioning"}
    ensures r.query["genre"] == Some(GenrePrefix + OrEmpty(genre))
    ensures r.query["kind"] == kind && r.query["offset"] == token
    ensures r.query["limit"] == Some("50") && r.query["linked_partitioning"] == Some("1")
  {
    Request(Some(SoundCloudV2), "/charts",
      map["genre" := Some(GenrePrefix + OrEmpty(genre)), "kind" := kind, "limit" := Some("50"),
          "offset" := token, "linked_partitioning" := Some("1")])
  }

  /** The collection. `T` is the canonical track type its items are converted to. */
  class ChartModel<T> {
    var token: Option<string>
    var genre: Option<string>
    var kind: Option<string>
    var items: seq<T>

    constructor ()
      ensures token == None && items == []
      ensures genre == Some(DefaultGenre) && kind == Some(DefaultKind)
    {
      token := None;
      genre := Some(DefaultGenre);
      kind := Some(DefaultKind);
      items := [];
    }

    /** `HasMoreItems`. */
    predicate HasMoreItems()
      reads this
    {
      HasMore(token)
    }

    /** `RefreshItems`: forget the token and every item. */
    method RefreshItems()
      modifies this
      ensures token == None && items == []
      ensures genre == old(genre) && kind == old(kind)
      ensures HasMoreItems()
    {
      token := None;
      items := [];
    }

    /** The `Genre` setter: a new genre restarts the list. */
    method SetGenre(value: Option<string>)
      modifies this
      ensures genre == value && kind == old(kind)
      ensures token == None && items == []
    {
      genre := value;
      RefreshItems();
    }

    /** The `Kind` setter: a new kind restarts the list. */
    method SetKind(value: Option<string>)
      modifies this
      ensures kind == value && genre == old(genre)
      ensures token == None && items == []
    {
      kind := value;
      RefreshItems();
    }

    /** `LoadMoreItemsAsync`. The chart call is sent; `response` is what it produced. Each
        returned chart entry's track is converted and appended in order. A `SoundByteException`
        ends the list. The count parameter is ignored. */
    method LoadMoreItemsAsync<R>(count: nat, response: Page<R>, toBaseTrack: R -> T)
      returns (request: Request, loaded: nat)
      modifies this
      ensures request == ChartRequest(old(genre), old(kind), old(token))
      ensures Loaded(token, items, loaded) ==
              AfterLoad(old(token), old(items), PageOutcome(response, "offset", toBaseTrack), EndList)
      ensures genre == old(genre) && kind == old(kind)
    {
      request := ChartRequest(genre, kind, token);
      loaded := count;
      match response
      case Error(_) =>
        loaded := 0;
        token := Some(Eol);
      case Ok(page, next) =>
        var offset := FirstValue(next, "offset");
        token := Some(TokenOrEol(offset));
        if |page| > 0 {
          loaded := |page|;
          var i := 0;
          while i < |page|
            invariant 0 <= i <= |page|
            invariant items == old(items) + Map(toBaseTrack, page[..i])
            invariant token == Some(TokenOrEol(offset))
            invariant genre == old(genre) && kind == old(kind)
          {
            MapAppend(toBaseTrack, page[..i], page[i]);
            assert page[..i + 1] == page[..i] + [page[i]];
            items := items + [toBaseTrack(page[i])];
            i := i + 1;
          }
          assert page[..|page|] == page;
        } else {
          loaded := 0;
          token := Some(Eol);
        }
    }
  }
}
