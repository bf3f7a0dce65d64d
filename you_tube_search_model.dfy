/** YouTube video search results, ten at a time. Only finished videos become tracks: channels,
    playlists and live or upcoming broadcasts are skipped. */
module YouTubeSearchModels {
  import opened Wrappers
  import opened Strings
  import opened Seqs
  import opened Items
  import opened Paging
  import opened IncrementalLoading
  import opened YouTubeTracks

  /** One search result: its `id` and `snippet` objects. */
  datatype SearchItem = SearchItem(id: YouTubeId, snippet: YouTubeSnippet)

  /** What the video-information lookup returns for a video. The stream urls are the ones the
      lookup's stream ordering ranks last (highest). */
  datatype VideoInfo = VideoInfo(
    durationMs: nat,
    description: Option<string>,
    likeCount: int,
    viewCount: int,
    imageHighResUrl: Option<string>,
    authorLogoUrl: Option<string>,
    bestVideoStreamUrl: Option<string>,
    bestAudioStreamUrl: Option<string>)

  /** The uploader of a track, as the collection builds it. */
  datatype TrackUser = TrackUser(username: Option<string>, artworkLink: Option<string>)

  /** The track the collection shows. */
  datatype Track = Track(
    serviceType: ServiceType,
    id: Option<string>,
    kind: string,
    durationMs: nat,
    creationDate: string,
    description: Option<string>,
    likesCount: int,
    playbackCount: int,
    artworkLink: Option<string>,
    title: Option<string>,
    genre: string,
    videoStreamUrl: Option<string>,
    streamUrl: Option<string>,
    user: TrackUser,
    permalinkUri: string)

  /** The search call, ten results per page. The query is sent as it is. */
  function YouTubeSearchRequest(query: Option<string>, token: Option<string>): (r: Request)
    ensures r.service == Some(YouTube) && r.path == "search"
    ensures r.query.Keys == {"part", "maxResults", "q", "pageToken"}
    ensures r.query["part"] == Some("snippet") && r.query["maxResults"] == Some("10")
    ensures r.query["q"] == query && r.query["pageToken"] == token
  {
    Request(Some(YouTube), "search",
      map["part" := Some("snippet"), "maxResults" := Some("10"), "q" := query, "pageToken" := token])
  }

  /** A result becomes a track only when it is a video and not a live or upcoming broadcast. */
  predicate IsPlayableVideo(item: SearchItem) {
    item.id.kind == Some("youtube#video") && item.snippet.liveBroadcastContent == Some("none")
  }

  /** The track made of a search result and the information looked up for its video. */
  function ToTrack(item: SearchItem, video: VideoInfo): (t: Track)
    ensures t.serviceType == YouTube && t.kind == "track" && t.genre == "YouTube"
    ensures t.id == item.id.videoId
    ensures t.permalinkUri == WatchUrlPrefix + OrEmpty(item.id.videoId)
    ensures t.title == item.snippet.title && t.creationDate == item.snippet.publishedAt
    ensures t.user == TrackUser(item.snippet.channelTitle, video.authorLogoUrl)
    ensures t.durationMs == video.durationMs && t.description == video.description
    ensures t.likesCount == video.likeCount && t.playbackCount == video.viewCount
    ensures t.artworkLink == video.imageHighResUrl
    ensures t.videoStreamUrl == video.bestVideoStreamUrl && t.streamUrl == video.bestAudioStreamUrl
  {
    Track(YouTube, item.id.videoId, "track", video.durationMs, item.snippet.publishedAt,
          video.description, video.likeCount, video.viewCount, video.imageHighResUrl,
          item.snippet.title, "YouTube", video.bestVideoStreamUrl, video.bestAudioStreamUrl,
          TrackUser(item.snippet.channelTitle, video.authorLogoUrl),
          WatchUrlPrefix + OrEmpty(item.id.videoId))
  }

  /** The conversion of a result, looking its video up with `videoInfo`. */
  function TrackOf(videoInfo: Option<string> -> VideoInfo): SearchItem -> Track {
    (item: SearchItem) => ToTrack(item, videoInfo(item.id.videoId))
  }

  /** What a search page means to the collection. The count is the page's size, including the
      results it skips; the tracks appended are those of its playable videos, in order. */
  function SearchOutcome(response: TokenPage<SearchItem>, videoInfo: Option<string> -> VideoInfo): (o: Outcome<Track>)
    ensures response.TokenError? <==> o.Raised?
    ensures o.Fetched? ==> o.next == response.nextPageToken && o.pageSize == |response.items|
    ensures o.Fetched? ==> o.added == PlayableTracks(response.items, videoInfo)
  {
    match response
    case TokenError(_) => Raised
    case TokenOk(page, next) => Fetched(next, |page|, PlayableTracks(page, videoInfo))
  }

  /** Every track a page yields comes from a playable video of that page, and there are never
      more of them than the page had results. */
  lemma AddedTracksArePlayableVideos(page: seq<SearchItem>, next: Option<string>,
                                     videoInfo: Option<string> -> VideoInfo)
    ensures var o := SearchOutcome(TokenOk(page, next), videoInfo);
            |o.added| <= o.pageSize &&
            forall j :: 0 <= j < |o.added| ==>
              exists i :: 0 <= i < |page| && IsPlayableVideo(page[i]) && o.added[j] == ToTrack(page[i], videoInfo(page[i].id.videoId))
  {
    var kept := Filter(IsPlayableVideo, page);
    var o := SearchOutcome(TokenOk(page, next), videoInfo);
    PlayableTracksAreFilteredResults(page, videoInfo);
    forall j | 0 <= j < |o.added|
      ensures exists i :: 0 <= i < |page| && IsPlayableVideo(page[i]) && o.added[j] == ToTrack(page[i], videoInfo(page[i].id.videoId))
    {
      assert kept[j] in page;
      var i :| 0 <= i < |page| && page[i] == kept[j];
      assert IsPlayableVideo(page[i]);
    }
  }

  /** A page of playable videos only appends one track per result. */
  lemma AllPlayableAllAdded(page: seq<SearchItem>, next: Option<string>, videoInfo: Option<string> -> VideoInfo)
    requires forall i :: 0 <= i < |page| ==> IsPlayableVideo(page[i])
    ensures |SearchOutcome(TokenOk(page, next), videoInfo).added| == |page|
  {
    FilterAll(IsPlayableVideo, page);
    PlayableTracksAreFilteredResults(page, videoInfo);
  }

  /** The tracks a page yields, in order: one per playable video, looked up with `videoInfo`. */
  function PlayableTracks(page: seq<SearchItem>, videoInfo: Option<string> -> VideoInfo): (r: seq<Track>)
    ensures |r| <= |page|
  {
    if page == [] then []
    else
      var last := page[|page| - 1];
      var before := PlayableTracks(page[..|page| - 1], videoInfo);
      if IsPlayableVideo(last) then before + [ToTrack(last, videoInfo(last.id.videoId))] else before
  }

  /** The tracks of a page are its playable results, filtered in order and then converted. */
  lemma {:induction false} PlayableTracksAreFilteredResults(page: seq<SearchItem>, videoInfo: Option<string> -> VideoInfo)
    ensures PlayableTracks(page, videoInfo) == Map(TrackOf(videoInfo), Filter(IsPlayableVideo, page))
  {
    if page != [] {
      var init := page[..|page| - 1];
      var last := page[|page| - 1];
      assert page == init + [last];
      PlayableTracksAreFilteredResults(init, videoInfo);
      FilterAppend(IsPlayableVideo, init, last);
      if IsPlayableVideo(last) {
        MapAppend(TrackOf(videoInfo), Filter(IsPlayableVideo, init), last);
      }
    }
  }

  /** The collection. */
  class YouTubeSearchModel {
    var token: Option<string>
    var query: Option<string>
    /** Set by the search page; the search does not read it. */
    var filter: Option<string>
    var items: seq<Track>

    constructor ()
      ensures token == None && query == None && filter == None && items == []
    {
      token := None;
      query := None;
      filter := None;
      items := [];
    }

    predicate HasMoreItems()
      reads this
    {
      HasMore(token)
    }

    method SetQuery(value: Option<string>)
      modifies this
      ensures query == value && filter == old(filter) && token == old(token) && items == old(items)
    {
      query := value;
    }

    method SetFilter(value: Option<string>)
      modifies this
      ensures filter == value && query == old(query) && token == old(token) && items == old(items)
    {
      filter := value;
    }

    method RefreshItems()
      modifies this
      ensures token == None && items == [] && query == old(query) && filter == old(filter)
      ensures HasMoreItems()
    {
      token := None;
      items := [];
    }

    /** The `foreach` over a non-empty page: each playable video's result is looked up and
        appended as a track, in order; the other results are skipped. */
    method AddPlayableVideos(page: seq<SearchItem>, videoInfo: Option<string> -> VideoInfo)
      modifies this
      ensures items == old(items) + PlayableTracks(page, videoInfo)
      ensures token == old(token) && query == old(query) && filter == old(filter)
    {
      var i := 0;
      while i < |page|
        invariant 0 <= i <= |page|
        invariant items == old(items) + PlayableTracks(page[..i], videoInfo)
        invariant token == old(token) && query == old(query) && filter == old(filter)
      {
        var item := page[i];
        assert page[..i + 1][..i] == page[..i];
        if item.id.kind == Some("youtube#video") {
          if item.snippet.liveBroadcastContent == Some("none") {
            var video := videoInfo(item.id.videoId);
            items := items + [ToTrack(item, video)];
          }
        }
        i := i + 1;
      }
      assert page[..|page|] == page;
    }

    /** `LoadMoreItemsAsync`. With a null or empty query nothing is asked and nothing changes.
        Otherwise the search is sent (`request`) and `response` is what it produced. `videoInfo`
        is the video-information lookup made for each kept result. A `SoundByteException` ends the list. */
    method LoadMoreItemsAsync(count: nat, response: TokenPage<SearchItem>, videoInfo: Option<string> -> VideoInfo)
      returns (request: Option<Request>, loaded: nat)
      modifies this
      ensures request.None? <==> IsNullOrEmpty(old(query))
      ensures request.Some? ==> request.value == YouTubeSearchRequest(old(query), old(token))
      ensures IsNullOrEmpty(old(query)) ==> token == old(token) && items == old(items) && loaded == 0
      ensures !IsNullOrEmpty(old(query)) ==>
                Loaded(token, items, loaded) == AfterLoad(old(token), old(items), SearchOutcome(response, videoInfo), EndList)
      ensures query == old(query) && filter == old(filter)
    {
      if IsNullOrEmpty(query) {
        return None, 0;
      }
      request := Some(YouTubeSearchRequest(query, token));
      loaded := 10;
      match response
      case TokenError(_) =>
        loaded := 0;
        token := Some(Eol);
      case TokenOk(page, offset) =>
        token := Some(TokenOrEol(offset));
        if |page| > 0 {
          loaded := |page|;
          AddPlayableVideos(page, videoInfo);
        } else {
          loaded := 0;
          token := Some(Eol);
        }
    }
  }
}
