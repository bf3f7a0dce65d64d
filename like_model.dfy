/** The liked tracks of a SoundCloud user, loaded page by page. */
module LikeModels {
  import opened Wrappers
  import opened Strings
  import opened Decimal
  import opened Seqs
  import opened Items
  import opened Paging
  import opened IncrementalLoading

  /** The likes call for a user, a requested count and a token. It goes through the overload
      that names no service. */
  function LikesRequest(user: BaseUser, count: nat, token: Option<string>): (r: Request)
    ensures r.service == None
    ensures r.path == "/users/" + OrEmpty(user.id) + "/favorites"
    ensures r.query.Keys == {"limit", "cursor", "linked_partitioning"}
    ensures r.query["limit"] == Some(NatToString(AtLeastTen(count)))
    ensures r.query["cursor"] == token && r.query["linked_partitioning"] == Some("1")
  {
    Request(None, "/users/" + OrEmpty(user.id) + "/favorites",
      map["limit" := Some(NatToString(AtLeastTen(count))), "cursor" := token,
          "linked_partitioning" := Some("1")])
  }

  /** What one load does: with no user nothing is asked and the list ends. Otherwise the likes
      page is read with "cursor" as its next-page parameter. A `SoundByteException` keeps the token. */
  function LikesAfterLoad<R, T>(user: Option<BaseUser>, token: Option<string>, items: seq<T>,
                                response: Page<R>, toBaseTrack: R -> T): (r: Loaded<T>)
    ensures user.None? ==> r == Loaded(Some(Eol), items, 0)
    ensures user.Some? ==> r == AfterLoad(token, items, PageOutcome(response, "cursor", toBaseTrack), KeepToken)
  {
    if user.None? then Loaded(Some(Eol), items, 0)
    else AfterLoad(token, items, PageOutcome(response, "cursor", toBaseTrack), KeepToken)
  }

  /** A failed call leaves the likes exactly as they were, token included, so the next load
      retries the same page. */
  lemma FailureRetriesSamePage<R, T>(user: BaseUser, token: Option<string>, items: seq<T>,
                                     e: SoundByteExceptions.SoundByteException, toBaseTrack: R -> T)
    ensures LikesAfterLoad(Some(user), token, items, Error(e), toBaseTrack) == Loaded(token, items, 0)
  {
  }

  /** The collection. `T` is the canonical track type its items are converted to. */
  class LikeModel<T> {
    var user: Option<BaseUser>
    var token: Option<string>
    var items: seq<T>

    constructor (user: Option<BaseUser>)
      ensures this.user == user && token == None && items == []
    {
      this.user := user;
      token := None;
      items := [];
    }

    predicate HasMoreItems()
      reads this
    {
      HasMore(token)
    }

    method RefreshItems()
      modifies this
      ensures token == None && items == [] && user == old(user)
      ensures HasMoreItems()
    {
      token := None;
      items := [];
    }

    /** `LoadMoreItemsAsync`. With a user the likes call is sent (`request`), `response` is
        what it produced, and each returned track is converted and appended in order. */
    method LoadMoreItemsAsync<R>(count: nat, response: Page<R>, toBaseTrack: R -> T)
      returns (request: Option<Request>, loaded: nat)
      modifies this
      ensures old(user).None? <==> request.None?
      ensures request.Some? ==> request.value == LikesRequest(old(user).value, count, old(token))
      ensures Loaded(token, items, loaded) == LikesAfterLoad(old(user), old(token), old(items), response, toBaseTrack)
      ensures user == old(user)
    {
      loaded := count;
      if user.Some? {
        request := Some(LikesRequest(user.value, count, token));
        match response
        case Error(_) =>
          loaded := 0;
        case Ok(page, next) =>
          var cursor := FirstValue(next, "cursor");
          token := Some(TokenOrEol(cursor));
          if |page| > 0 {
            loaded := |page|;
            var i := 0;
            while i < |page|
              invariant 0 <= i <= |page|
              invariant items == old(items) + Map(toBaseTrack, page[..i])
              invariant token == Some(TokenOrEol(cursor))
              invariant user == old(user)
            {
              MapAppend(toBaseTrack, page[..i], page[i]);
              assert page[..i + 1] == page[..i] + [page[i]];
              items := items + [toBaseTrack(page[i])];
              i := i + 1;
            }
            assert page[..|page|] == page;
          } else {
            loaded := 0;
            token := Some(Eol);
          }
      } else {
        request := None;
        loaded := 0;
        token := Some(Eol);
      }
    }
  }
}
