/** The incremental-loading protocol every paged collection follows. A collection holds a token
    saying where the next page starts ("eol" once there is none) and the items loaded so far.
    One load asks the backend for a page and then does one of these:
    - appends what the page yields and reports the page's size;
    - on an empty page, ends the list and reports zero;
    - on a `SoundByteException`, reports zero. Some collections end the list here too; the
      others keep the token. */
module IncrementalLoading {
  import opened Wrappers
  import opened Strings
  import opened Seqs
  import opened Paging

  /** What one call to the backend produced, as a collection sees it. `Fetched` holds the
      next-page value, the number of items the page held and the items the collection appends
      for it. `Raised` means the call raised a `SoundByteException`. */
  datatype Outcome<T> = Fetched(next: Option<string>, pageSize: nat, added: seq<T>) | Raised

  /** What a collection does with its token when a load raises. */
  datatype OnError = EndList | KeepToken

  /** What a load leaves behind: the token, the items, and the count it returns. */
  datatype Loaded<T> = Loaded(token: Option<string>, items: seq<T>, count: nat)

  /** One load, starting from `token` and `items`. */
  function AfterLoad<T>(token: Option<string>, items: seq<T>, outcome: Outcome<T>, onError: OnError): (r: Loaded<T>)
    ensures |items| <= |r.items| && r.items[..|items|] == items
    ensures r.count == 0 <==> outcome.Raised? || outcome.pageSize == 0
    ensures r.count > 0 ==> r.count == outcome.pageSize && r.items == items + outcome.added
    ensures r.count == 0 ==> r.items == items
    ensures outcome.Raised? && onError == KeepToken ==> r.token == token
  {
    match outcome
    case Raised =>
      if onError == EndList then Loaded(Some(Eol), items, 0) else Loaded(token, items, 0)
    case Fetched(next, pageSize, added) =>
      if pageSize > 0 then
        assert (items + added)[..|items|] == items;
        Loaded(Some(TokenOrEol(next)), items + added, pageSize)
      else Loaded(Some(Eol), items, 0)
  }

  /** After a load there are no more items exactly when one of these holds:
      - the call raised and the collection ends the list on an error;
      - the call raised, the collection keeps its token, and that token had already ended the list;
      - the page was empty;
      - the page has no next-page value, or that value is empty or "eol". */
  lemma EndOfList<T>(token: Option<string>, items: seq<T>, outcome: Outcome<T>, onError: OnError)
    ensures !HasMore(AfterLoad(token, items, outcome, onError).token) <==>
              || (outcome.Raised? && onError == EndList)
              || (outcome.Raised? && onError == KeepToken && !HasMore(token))
              || (outcome.Fetched? && outcome.pageSize == 0)
              || (outcome.Fetched? && (IsNullOrEmpty(outcome.next) || outcome.next == Some(Eol)))
  {
  }

  /** A non-empty page with a usable next-page value hands that value on as the new token. */
  lemma NextTokenCarried<T>(token: Option<string>, items: seq<T>, outcome: Outcome<T>, onError: OnError)
    requires outcome.Fetched? && outcome.pageSize > 0 && !IsNullOrEmpty(outcome.next)
    ensures AfterLoad(token, items, outcome, onError).token == outcome.next
  {
  }

  /** What a SoundCloud page means to a collection. `key` names the next-page parameter, either
      "offset" or "cursor". Each item of the page is converted to one item of the collection. */
  function PageOutcome<R, T>(response: Page<R>, key: string, convert: R -> T): (o: Outcome<T>)
    ensures response.Error? <==> o.Raised?
    ensures o.Fetched? ==> o.next == FirstValue(response.next, key)
    ensures o.Fetched? ==> o.pageSize == |response.items| == |o.added|
    ensures o.Fetched? ==> forall j :: 0 <= j < |o.added| ==> o.added[j] == convert(response.items[j])
  {
    match response
    case Error(_) => Raised
    case Ok(page, next) => Fetched(FirstValue(next, key), |page|, Map(convert, page))
  }

  /** Two loads in a row append their pages in order. */
  lemma LoadsAppendInOrder<T>(token: Option<string>, items: seq<T>, first: Outcome<T>, second: Outcome<T>,
                              onError: OnError)
    requires first.Fetched? && first.pageSize > 0 && second.Fetched? && second.pageSize > 0
    ensures var one := AfterLoad(token, items, first, onError);
            AfterLoad(one.token, one.items, second, onError).items == items + first.added + second.added
  {
    var one := AfterLoad(token, items, first, onError);
    assert one.items == items + first.added;
    assert AfterLoad(one.token, one.items, second, onError).items == one.items + second.added;
  }
}
