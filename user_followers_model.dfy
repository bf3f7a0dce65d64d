/** The users a SoundCloud user follows or is followed by, loaded fifty at a time. */
module UserFollowersModels {
  import opened Wrappers
  import opened Strings
  import opened Seqs
  import opened Items
  import opened Paging
  import opened IncrementalLoading

  /** The call for a user and a relation ("followers" or "followings") from a token. */
  function FollowersRequest(user: BaseUser, relation: Option<string>, token: Option<string>): (r: Request)
    ensures r.service == Some(SoundCloud)
    ensures r.path == "/users/" + OrEmpty(user.id) + "/" + OrEmpty(relation)
    ensures r.query.Keys == {"limit", "cursor", "linked_partitioning"}
    ensures r.query["limit"] == Some("50")
    ensures r.query["cursor"] == token && r.query["linked_partitioning"] == Some("1")
  {
    Request(Some(SoundCloud), "/users/" + OrEmpty(user.id) + "/" + OrEmpty(relation),
      map["limit" := Some("50"), "cursor" := token, "linked_partitioning" := Some("1")])
  }

  /** The collection. `T` is the canonical user type its items are converted to. */
  class UserFollowersModel<T> {
    var user: BaseUser
    var relation: Option<string>
    var token: Option<string>
    var items: seq<T>

    constructor (user: BaseUser, relation: Option<string>)
      ensures this.user == user && this.relation == relation
      ensures token == None && items == []
    {
      this.user := user;
      this.relation := relation;
      token := None;
      items := [];
    }

    predicate HasMoreItems()
      reads this
    {
      HasMore(token)
    }

    method RefreshItems()
      modifies this
      ensures token == None && items == []
      ensures user == old(user) && relation == old(relation)
      ensures HasMoreItems()
    {
      token := None;
      items := [];
    }

    /** `LoadMoreItemsAsync`. The call is sent; `response` is what it produced. Each returned
        user is converted and appended in order. The next page's parameter is "cursor", and a
        `SoundByteException` keeps the token. */
    method LoadMoreItemsAsync<R>(count: nat, response: Page<R>, toBaseUser: R -> T)
      returns (request: Request, loaded: nat)
      modifies this
      ensures request == FollowersRequest(old(user), old(relation), old(token))
      ensures Loaded(token, items, loaded) ==
              AfterLoad(old(token), old(items), PageOutcome(response, "cursor", toBaseUser), KeepToken)
      ensures user == old(user) && relation == old(relation)
    {
      request := FollowersRequest(user, relation, token);
      loaded := count;
      match response
      case Error(_) =>
        loaded := 0;
      case Ok(page, next) =>
        var cursor := FirstValue(next, "cursor");
        token := Some(TokenOrEol(cursor));
        if |page| > 0 {
          loaded := |page|;
          var i := 0;
          while i < |page|
            invariant 0 <= i <= |page|
            invariant items == old(items) + Map(toBaseUser, page[..i])
            invariant token == Some(TokenOrEol(cursor))
            invariant user == old(user) && relation == old(relation)
          {
            MapAppend(toBaseUser, page[..i], page[i]);
            assert page[..i + 1] == page[..i] + [page[i]];
            items := items + [toBaseUser(page[i])];
            i := i + 1;
          }
          assert page[..|page|] == page;
        } else {
          loaded := 0;
          token := Some(Eol);
        }
    }
  }
}
