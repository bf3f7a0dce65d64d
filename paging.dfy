/** Paging vocabulary shared by every source: tokens, pages, requests and source responses. */
module Paging {
  import opened Wrappers
  import opened Strings
  import opened Items
  import opened SoundByteExceptions

  /** The token meaning "no further pages". */
  const Eol := "eol"

  /** A parsed query string: its (key, value) pairs in order. */
  type QueryParams = seq<(string, string)>

  /** The value of the first pair whose key is `key`, as `FirstOrDefault(x => x.Key == key).Value`
      reads it: `None` (null) when no pair has that key. */
  function FirstValue(ps: QueryParams, key: string): (r: Option<string>)
    ensures r == None <==> forall i :: 0 <= i < |ps| ==> ps[i].0 != key
    ensures r.Some? ==> exists i :: 0 <= i < |ps| && ps[i] == (key, r.value) &&
                                    forall j :: 0 <= j < i ==> ps[j].0 != key
  {
    if ps == [] then None
    else if ps[0].0 == key then
      assert ps[0] == (key, ps[0].1);
      Some(ps[0].1)
    else
      var r := FirstValue(ps[1..], key);
      if r.Some? then
        var i :| 0 <= i < |ps[1..]| && ps[1..][i] == (key, r.value) &&
                 forall j :: 0 <= j < i ==> ps[1..][j].0 != key;
        assert ps[i + 1] == (key, r.value);
        assert forall j :: 0 <= j < i + 1 ==> ps[j].0 != key by {
          forall j | 0 <= j < i + 1 ensures ps[j].0 != key {
            if j > 0 { assert ps[j] == ps[1..][j - 1]; }
          }
        }
        r
      else
        assert forall j :: 1 <= j < |ps| ==> ps[j] == ps[1..][j - 1];
        r
  }

  /** A null or empty next-page value ends the paging. */
  function TokenOrEol(v: Option<string>): string {
    if IsNullOrEmpty(v) then Eol else v.value
  }

  /** `HasMoreItems`: the token is anything but the end marker. */
  predicate HasMore(token: Option<string>) {
    token != Some(Eol)
  }

  /** The page size asked for by the calls that load "at least 10 tracks at once": 10 for any
      count up to 10, else the count. */
  function AtLeastTen(count: nat): (n: nat)
    ensures n >= 10
    ensures count > 10 ==> n == count
    ensures count <= 10 ==> n == 10
  {
    if count <= 10 then 10 else count
  }

  /** A fetch from a SoundCloud-style backend: the decoded items and the parsed query string of
      the next-page link, or the error the call raised. */
  datatype Page<T> = Ok(items: seq<T>, next: QueryParams) | Error(error: SoundByteException)

  /** A fetch from the YouTube backend: the decoded items and the next-page token. */
  datatype TokenPage<T> = TokenOk(items: seq<T>, nextPageToken: Option<string>) | TokenError(error: SoundByteException)

  /** An outgoing authenticated GET: its service (`None` for the overload that names none), its
      path, and its query parameters. */
  datatype Request = Request(service: Option<ServiceType>, path: string, query: map<string, Option<string>>)

  /** What a source returns: success with items and next token, or a failure with a message. */
  datatype SourceResponse<T> = SourceResponse(
    items: Option<seq<T>>,
    token: Option<string>,
    isSuccess: bool,
    messageTitle: Option<string>,
    messageContent: Option<string>)

  /** `new SourceResponse(items, token)`. */
  function Succeeded<T>(items: seq<T>, token: Option<string>): SourceResponse<T> {
    SourceResponse(Some(items), token, true, None, None)
  }

  /** `new SourceResponse(null, null, false, title, content)`. */
  function Failed<T>(title: string, content: string): SourceResponse<T> {
    SourceResponse(None, None, false, Some(title), Some(content))
  }

  /** The failure a search source returns when the backend found nothing. */
  function NoResults<T>(query: Option<string>): SourceResponse<T> {
    Failed("No results found", "Could not find any results for '" + OrEmpty(query) + "'")
  }

  /** `WebUtility.UrlEncode`, which passes null through. */
  function UrlEncoded(urlEncode: string -> string, s: Option<string>): Option<string> {
    if s.Some? then Some(urlEncode(s.value)) else None
  }
}
