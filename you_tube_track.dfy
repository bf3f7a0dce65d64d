/** A YouTube search or video result, its conversion to a canonical track, removing it from
    the likes playlist, and the comments of a video. */
module YouTubeTracks {
  import opened Wrappers
  import opened Strings
  import opened Decimal
  import opened Items
  import opened Paging
  import opened SoundByteExceptions

  /** The `id` object of a result: a search result's kind, and whichever ids it carries. */
  datatype YouTubeId = YouTubeId(kind: Option<string>, channelId: Option<string>,
                                 videoId: Option<string>, playlistId: Option<string>)

  /** The `snippet` object, with the url of its high-resolution thumbnail. */
  datatype YouTubeSnippet = YouTubeSnippet(
    publishedAt: string,
    channelId: Option<string>,
    title: Option<string>,
    description: Option<string>,
    highThumbnailUrl: Option<string>,
    channelTitle: Option<string>,
    liveBroadcastContent: Option<string>)

  /** The `contentDetails` object, with the duration `XmlConvert.ToTimeSpan` reads from its
      ISO 8601 text, in milliseconds. */
  datatype YouTubeContentDetails = YouTubeContentDetails(durationMs: nat)

  datatype YouTubeTrack = YouTubeTrack(
    likedPlaylistId: Option<string>,
    kind: Option<string>,
    id: YouTubeId,
    snippet: Option<YouTubeSnippet>,
    contentDetails: Option<YouTubeContentDetails>)

  const WatchUrlPrefix := "https://www.youtube.com/watch?v="

  /** `new YouTubeTrack(id)`: only the video id is set. */
  function FromVideoId(id: string): (t: YouTubeTrack)
    ensures t.id.videoId == Some(id)
    ensures t.id.kind == None && t.id.channelId == None && t.id.playlistId == None
    ensures t.likedPlaylistId == None && t.kind == None
    ensures t.snippet == None && t.contentDetails == None
  {
    YouTubeTrack(None, None, YouTubeId(None, None, Some(id), None), None, None)
  }

  /** `ToBaseTrack` dereferences `Snippet`; it must be present for the conversion to return. */
  predicate Convertible(t: YouTubeTrack) {
    t.snippet.Some?
  }

  /** `ToBaseTrack`: the canonical track of a YouTube result. Fields the conversion does not
      set keep their defaults: null stream urls, zero counts. */
  function ToBaseTrack(t: YouTubeTrack): (b: BaseTrack)
    requires Convertible(t)
    ensures b.serviceType == YouTube
    ensures b.id == t.id.videoId
    ensures b.link == Some(WatchUrlPrefix + OrEmpty(t.id.videoId))
    ensures b.isLive <==> t.snippet.value.liveBroadcastContent != Some("none")
    ensures t.contentDetails == None ==> b.durationMs == 0
    ensures t.contentDetails.Some? ==> b.durationMs == t.contentDetails.value.durationMs
    ensures t.id.kind == Some("youtube#video") ==> b.kind == Some("track")
    ensures t.id.kind != Some("youtube#video") ==> b.kind == t.kind
    ensures b.genre == Some("YouTube")
    ensures b.user == BaseUser(t.snippet.value.channelId, t.snippet.value.channelTitle, None)
    ensures b.title == t.snippet.value.title && b.description == t.snippet.value.description
    ensures b.artworkUrl == t.snippet.value.highThumbnailUrl && b.created == t.snippet.value.publishedAt
    ensures b.audioStreamUrl == None && b.videoStreamUrl == None
    ensures b.likeCount == 0 && b.dislikeCount == 0 && b.viewCount == 0 && b.commentCount == 0
  {
    var sn := t.snippet.value;
    var track := BaseTrack(
      YouTube, t.id.videoId, None, Some(WatchUrlPrefix + OrEmpty(t.id.videoId)), None, None,
      sn.highThumbnailUrl, sn.title, sn.description,
      if t.contentDetails.Some? then t.contentDetails.value.durationMs else 0,
      sn.publishedAt, 0, 0, 0, 0, Some("YouTube"), sn.liveBroadcastContent != Some("none"),
      BaseUser(sn.channelId, sn.channelTitle, None));
    if t.id.kind == Some("youtube#video") then track.(kind := Some("track")) else track.(kind := t.kind)
  }

  /** A track made from a video id links to the watch page of that id once a snippet is present. */
  lemma FromVideoIdLink(id: string, sn: YouTubeSnippet)
    ensures var b := ToBaseTrack(FromVideoId(id).(snippet := Some(sn)));
            b.id == Some(id) && b.link == Some(WatchUrlPrefix + id) && b.durationMs == 0
  {
  }

  /** What `UnlikeAsync` does: the DELETE it sends, if any, and the value it returns. */
  datatype UnlikeOutcome = UnlikeOutcome(deletePath: Option<string>, result: bool)

  /** `UnlikeAsync`. With no YouTube account, or no playlist item id on the track, nothing is
      sent and the answer is true. Otherwise it deletes "playlistItems/" followed by the
      track's liked-playlist id, and answers whether the call returned without an error. The
      guard reads `Id.PlaylistId` while the path uses `LikedPlaylistId`. */
  function UnlikeAsync(t: YouTubeTrack, connected: bool, deleteSucceeds: bool): (r: UnlikeOutcome)
    ensures r.deletePath.None? <==> !connected || IsNullOrEmpty(t.id.playlistId)
    ensures r.deletePath.Some? ==> r.deletePath.value == "playlistItems/" + OrEmpty(t.likedPlaylistId)
    ensures !r.result <==> r.deletePath.Some? && !deleteSucceeds
  {
    if !connected then UnlikeOutcome(None, true)
    else if IsNullOrEmpty(t.id.playlistId) then UnlikeOutcome(None, true)
    else UnlikeOutcome(Some("playlistItems/" + OrEmpty(t.likedPlaylistId)), deleteSucceeds)
  }

  /** `GetCommentsAsync`: one call to "commentThreads" for the video, then every comment
      converted in order by the comment conversion (not part of this model); the next token is
      the response's `nextPageToken`. An error from the call propagates. */
  method GetCommentsAsync<C, B>(track: YouTubeTrack, count: Int32, token: Option<string>,
                                response: TokenPage<C>, toBaseComment: C -> B)
    returns (request: Request, result: Result<(seq<B>, Option<string>), SoundByteException>)
    ensures request == Request(Some(YouTube), "commentThreads",
                               map["maxResults" := Some(IntToString(count)), "part" := Some("snippet"),
                                   "videoId" := track.id.videoId, "pageToken" := token])
    ensures response.TokenError? ==> result == Failure(response.error)
    ensures response.TokenOk? ==> result.Success? && result.value.1 == response.nextPageToken
    ensures response.TokenOk? ==> |result.value.0| == |response.items|
    ensures response.TokenOk? ==>
              forall j :: 0 <= j < |response.items| ==> result.value.0[j] == toBaseComment(response.items[j])
  {
    request := Request(Some(YouTube), "commentThreads",
      map["maxResults" := Some(IntToString(count)), "part" := Some("snippet"),
          "videoId" := track.id.videoId, "pageToken" := token]);
    match response
    case TokenError(e) =>
      result := Failure(e);
    case TokenOk(items, nextPageToken) =>
      var baseCommentList: seq<B> := [];
      var i := 0;
      while i < |items|
        invariant 0 <= i <= |items|
        invariant |baseCommentList| == i
        invariant forall j :: 0 <= j < i ==> baseCommentList[j] == toBaseComment(items[j])
      {
        baseCommentList := baseCommentList + [toBaseComment(items[i])];
        i := i + 1;
      }
      result := Success((baseCommentList, nextPageToken));
  }
}
