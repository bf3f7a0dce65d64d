/** The canonical, backend-independent records every adapter produces. */
module Items {
  import opened Wrappers

  /** The backends a record can come from. */
  datatype ServiceType = SoundCloud | SoundCloudV2 | Fanburst | YouTube | ITunesPodcast | Local

  /** A canonical user. */
  datatype BaseUser = BaseUser(id: Option<string>, username: Option<string>, artworkUrl: Option<string>)

  /** A canonical track; identity is the pair (service type, id). Text the backends may leave out
      is `Option`, and the creation date is kept as the text `DateTime.Parse` reads. */
  datatype BaseTrack = BaseTrack(
    serviceType: ServiceType,
    id: Option<string>,
    kind: Option<string>,
    link: Option<string>,
    audioStreamUrl: Option<string>,
    videoStreamUrl: Option<string>,
    artworkUrl: Option<string>,
    title: Option<string>,
    description: Option<string>,
    durationMs: int,
    created: string,
    likeCount: int,
    dislikeCount: int,
    viewCount: int,
    commentCount: int,
    genre: Option<string>,
    isLive: bool,
    user: BaseUser)
}
