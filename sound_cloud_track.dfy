/** A SoundCloud track as the API returns it, its conversion to a canonical track, and the
    two SoundCloud calls made from it: track search and the comments of a track. */
module SoundCloudTracks {
  import opened Wrappers
  import opened Strings
  import opened Decimal
  import opened Items
  import opened Paging
  import opened SoundByteExceptions

  /** The track's uploader: the avatar url the artwork falls back to, and the canonical user
      `ToBaseUser` makes of it (that conversion is not part of this model). */
  datatype SoundCloudUser = SoundCloudUser(avatarUrl: Option<string>, asBaseUser: BaseUser)

  /** The fields of a SoundCloud track the core reads. Reference-typed fields may be null. */
  datatype SoundCloudTrack = SoundCloudTrack(
    artworkUrl: Option<string>,
    commentCount: Int32,
    createdAt: Option<string>,
    description: Option<string>,
    duration: Int32,
    genre: Option<string>,
    id: Int32,
    kind: Option<string>,
    likesCount: Int32,
    permalinkUrl: Option<string>,
    playbackCount: Int32,
    title: Option<string>,
    user: Option<SoundCloudUser>)

  /** The parameterless constructor: every field at its default. */
  const Blank := SoundCloudTrack(None, 0, None, None, 0, None, 0, None, 0, None, 0, None, None)

  /** `new SoundCloudTrack(id)`: the id is parsed with `int.Parse`, whose failure is the error. */
  function FromId(id: string): (r: Result<SoundCloudTrack, ParseError>)
    ensures r.Success? <==> ParseInt32(id).Success?
    ensures r.Success? ==> r.value == Blank.(id := ParseInt32(id).value)
    ensures r.Failure? ==> r.error == ParseInt32(id).error
  {
    match ParseInt32(id)
    case Success(v) => Success(Blank.(id := v))
    case Failure(e) => Failure(e)
  }

  /** The `ArtworkUrl` getter reads `User.AvatarUrl` only when the stored url is null or empty. */
  predicate HasArtwork(t: SoundCloudTrack) {
    !IsNullOrEmpty(t.artworkUrl) || t.user.Some?
  }

  /** `ArtworkUrl`: the stored artwork url, or the uploader's avatar when it is null or empty. */
  function ArtworkUrl(t: SoundCloudTrack): (r: Option<string>)
    requires HasArtwork(t)
    ensures !IsNullOrEmpty(t.artworkUrl) ==> r == t.artworkUrl
    ensures IsNullOrEmpty(t.artworkUrl) ==> r == t.user.value.avatarUrl
  {
    if IsNullOrEmpty(t.artworkUrl) then t.user.value.avatarUrl else t.artworkUrl
  }

  /** `ToBaseTrack` dereferences `User` and hands `CreatedAt` to `DateTime.Parse`; both must be
      present for it to return. */
  predicate Convertible(t: SoundCloudTrack) {
    t.user.Some? && t.createdAt.Some?
  }

  /** `ToBaseTrack`: the canonical track of a SoundCloud track. */
  function ToBaseTrack(t: SoundCloudTrack): (b: BaseTrack)
    requires Convertible(t)
    ensures b.serviceType == SoundCloud
    ensures b.id == Some(IntToString(t.id))
    ensures b.audioStreamUrl == Some("") && b.videoStreamUrl == Some("")
    ensures b.dislikeCount == 0 && !b.isLive
    ensures b.likeCount == t.likesCount && b.viewCount == t.playbackCount
    ensures b.commentCount == t.commentCount && b.durationMs == t.duration
    ensures b.kind == t.kind && b.link == t.permalinkUrl && b.title == t.title
    ensures b.description == t.description && b.genre == t.genre
    ensures b.artworkUrl == ArtworkUrl(t) && b.created == t.createdAt.value
    ensures b.user == t.user.value.asBaseUser
  {
    BaseTrack(
      SoundCloud, Some(IntToString(t.id)), t.kind, t.permalinkUrl, Some(""), Some(""),
      ArtworkUrl(t), t.title, t.description, t.duration, t.createdAt.value,
      t.likesCount, 0, t.playbackCount, t.commentCount, t.genre, false, t.user.value.asBaseUser)
  }

  /** The canonical id is the decimal text of the numeric id, and reads back as that number. */
  lemma ToBaseTrackIdParses(t: SoundCloudTrack)
    requires Convertible(t)
    ensures ParseInt32(ToBaseTrack(t).id.value) == Success(t.id as int)
  {
    ParseIntToString(t.id);
  }

  /** A track made from a canonical decimal id keeps that id through the conversion, once the
      uploader and creation date the conversion needs are filled in. A track made from the id
      alone cannot be converted: its user is null. */
  lemma FromIdKeepsId(id: string, user: SoundCloudUser, createdAt: string)
    requires exists i :: Int32Min <= i <= Int32Max && id == IntToString(i)
    ensures FromId(id).Success?
    ensures !Convertible(FromId(id).value)
    ensures ToBaseTrack(FromId(id).value.(user := Some(user), createdAt := Some(createdAt))).id == Some(id)
  {
    IntToStringParse(id);
  }

  predicate AllConvertible(ts: seq<SoundCloudTrack>) {
    forall i :: 0 <= i < |ts| ==> Convertible(ts[i])
  }

  /** `SearchAsync`: one call to "/tracks", then every returned track converted in order; the
      next token is the `offset` of the next-page link, null when it has none. An error from
      the call propagates. */
  method SearchAsync(searchTerm: Option<string>, count: nat, token: Option<string>,
                     response: Page<SoundCloudTrack>, urlEncode: string -> string)
    returns (request: Request, result: Result<(seq<BaseTrack>, Option<string>), SoundByteException>)
    requires response.Ok? ==> AllConvertible(response.items)
    ensures request.service == Some(SoundCloud) && request.path == "/tracks"
    ensures request.query == map["limit" := Some(NatToString(AtLeastTen(count))),
                                 "linked_partitioning" := Some("1"),
                                 "offset" := token,
                                 "q" := UrlEncoded(urlEncode, searchTerm)]
    ensures response.Error? ==> result == Failure(response.error)
    ensures response.Ok? ==> result.Success? && result.value.1 == FirstValue(response.next, "offset")
    ensures response.Ok? ==> |result.value.0| == |response.items|
    ensures response.Ok? ==>
              forall j :: 0 <= j < |response.items| ==> result.value.0[j] == ToBaseTrack(response.items[j])
  {
    var limit := count;
    if limit <= 10 {
      limit := 10;
    }
    var q := UrlEncoded(urlEncode, searchTerm);
    request := Request(Some(SoundCloud), "/tracks",
      map["limit" := Some(NatToString(limit)), "linked_partitioning" := Some("1"), "offset" := token, "q" := q]);
    match response
    case Error(e) =>
      result := Failure(e);
    case Ok(items, next) =>
      var nextToken := FirstValue(next, "offset");
      var baseTrackList: seq<BaseTrack> := [];
      var i := 0;
      while i < |items|
        invariant 0 <= i <= |items|
        invariant |baseTrackList| == i
        invariant forall j :: 0 <= j < i ==> baseTrackList[j] == ToBaseTrack(items[j])
      {
        baseTrackList := baseTrackList + [ToBaseTrack(items[i])];
        i := i + 1;
      }
      result := Success((baseTrackList, nextToken));
  }

  /** `GetCommentsAsync`: one call to "/tracks/{id}/comments", then every comment converted in
      order by the comment conversion (not part of this model); the next token is the `offset`
      of the next-page link. An error from the call propagates. */
  method GetCommentsAsync<C, B>(track: SoundCloudTrack, count: nat, token: Option<string>,
                                response: Page<C>, toBaseComment: C -> B)
    returns (request: Request, result: Result<(seq<B>, Option<string>), SoundByteException>)
    ensures request == Request(Some(SoundCloud), "/tracks/" + IntToString(track.id) + "/comments",
                               map["limit" := Some(NatToString(count)), "offset" := token,
                                   "linked_partitioning" := Some("1")])
    ensures response.Error? ==> result == Failure(response.error)
    ensures response.Ok? ==> result.Success? && result.value.1 == FirstValue(response.next, "offset")
    ensures response.Ok? ==> |result.value.0| == |response.items|
    ensures response.Ok? ==>
              forall j :: 0 <= j < |response.items| ==> result.value.0[j] == toBaseComment(response.items[j])
  {
    request := Request(Some(SoundCloud), "/tracks/" + IntToString(track.id) + "/comments",
      map["limit" := Some(NatToString(count)), "offset" := token, "linked_partitioning" := Some("1")]);
    match response
    case Error(e) =>
      result := Failure(e);
    case Ok(items, next) =>
      var nextToken := FirstValue(next, "offset");
      var baseCommentList: seq<B> := [];
      var i := 0;
      while i < |items|
        invariant 0 <= i <= |items|
        invariant |baseCommentList| == i
        invariant forall j :: 0 <= j < i ==> baseCommentList[j] == toBaseComment(items[j])
      {
        baseCommentList := baseCommentList + [toBaseComment(items[i])];
        i := i + 1;
      }
      result := Success((baseCommentList, nextToken));
  }
}
