# SoundByte core, modelled in Dafny

SoundByte is a music and podcast client. It reads tracks, users, playlists, charts, likes and
podcasts from SoundCloud, YouTube and iTunes, shows them in collections that load more items as
the user scrolls, and plays them from one playback queue. This project models the parts of it
that decide what is asked of the backends and what is done with their answers:

- the canonical conversions of SoundCloud and YouTube tracks, and their search and comment
  calls (`SoundCloudTracks`, `YouTubeTracks`);
- the YouTube channel search, the iTunes podcast search and the YouTube "likes" source
  (`SearchYouTubeUserSources`, `PodcastSearchSources`, `YouTubeLikeSources`);
- the five incremental collections: charts, likes, playlist search, followers and YouTube
  search. They share one loading rule, `IncrementalLoading.AfterLoad`. Each collection's
  `LoadMoreItemsAsync` is proved to move its token and items the way that rule says;
- the playback service: starting a track by polling the queue for it, loading a playlist, and
  binding a queued track to its stream (`PlaybackServices`);
- the playlist dialog: the JSON payloads it sends to add and remove a track, and how it puts a
  check box back when a request fails (`PlaylistDialogs`);
- the upload page: its precondition, the size and duration limit on a picked file, and the
  multipart form it sends (`UploadViews`);
- the helpers these rely on: the error type (`SoundByteExceptions`), the YouTube container
  extensions (`Extensions`), and the url and query-string helpers (`UrlHelper`).

Network calls are not made. A call is modelled by the request it would send (service, path,
query map) and by its answer, which the operation takes as an input value (`Page`, `TokenPage`,
`Result`). Several other things are passed in as function values: conversions whose code is
not part of this model (`ToBaseUser`, `ToBasePlaylist`, `ToBaseComment`, the podcast
conversion), `WebUtility.UrlEncode` and `UrlDecode`, and the stream lookups. Nullable strings
are `Option<string>`. C# `int` is the subset type `Int32`. `int.Parse` and `int.ToString` are
written out in `Decimal`.

Behaviours kept as written:

- `YouTubeTrack.UnlikeAsync` tests `Id.PlaylistId` but deletes `"playlistItems/" + LikedPlaylistId`.
- `ShufflePlaylist` switches shuffle on whatever its argument says.
- `LikeModel` calls the overload that names no service. Its `Request.service` is `None`.
- The upload page's error and cancel handlers clear the artwork file twice and never clear the
  music file, so the music file survives an error.
- When the upload page refuses a picked file that is too large, the pick button stays disabled.
- `_audioStream` on the upload page is a read-only field that is always null. The model keeps
  the branch that sends it, but no upload can reach that branch.

## Model

| member | source | states |
|---|---|---|
| SoundByteExceptions.MessageLayout | SoundByte.API/Exceptions/SoundByteException.cs:23-29 | the message is "Title: ", the title, ", Description: ", the description |
| SoundByteExceptions.MessageDeterminesTitleAndDescription | SoundByte.API/Exceptions/SoundByteException.cs:23-29 | for titles with no comma, equal messages mean equal titles and descriptions |
| Extensions.GetFileExtension | SoundByte.YouTubeParser/Models/Extensions.cs:14-31 | the five known containers map to mp4, m4a, webm, 3gpp and flv; any other value is the out-of-range error |
| Extensions.ExtensionRoundTrip | SoundByte.YouTubeParser/Models/Extensions.cs:14-31 | each known container's extension leads back to that container |
| Extensions.ContainerRoundTrip | SoundByte.YouTubeParser/Models/Extensions.cs:14-31 | every extension produced comes from exactly one container |
| Extensions.ExtensionsDistinct | SoundByte.YouTubeParser/Models/Extensions.cs:14-31 | distinct known containers have distinct extensions |
| UrlHelper.SetUrlQueryParameter | SoundByte.YouTubeParser/Internal/UrlHelper.cs:9-41 | a matched `key=...` group is replaced in place by `key=value`; otherwise `?` or `&` (depending on whether the url has a `?`) and `key=value` are appended |
| UrlHelper.SetUrlPathParameter | SoundByte.YouTubeParser/Internal/UrlHelper.cs:43-69 | a matched `key/...` segment is replaced by `key/value`; otherwise `/key/value` is appended |
| UrlHelper.NullValueIsEmpty | SoundByte.YouTubeParser/Internal/UrlHelper.cs:11 | both setters treat a null value as the empty string |
| UrlHelper.QueryKeyPrefixMatches | SoundByte.YouTubeParser/Internal/UrlHelper.cs:14 | the pattern matches keys by prefix: key `a` finds and replaces `ab=1` |
| UrlHelper.MatchFrom | SoundByte.YouTubeParser/Internal/UrlHelper.cs:14 | the leftmost match at or after a position, with its group inside the url |
| UrlHelper.ScanFailsOnExtension | SoundByte.YouTubeParser/Internal/UrlHelper.cs:14 | a lazy scan that fails on some text still fails after more text is appended |
| UrlHelper.ScanToEnd | SoundByte.YouTubeParser/Internal/UrlHelper.cs:14 | with no stop character and no line break, the scan runs to the end |
| UrlHelper.FirstMatch | SoundByte.YouTubeParser/Internal/UrlHelper.cs:14 | the leftmost match is the one at the first start position that matches |
| UrlHelper.MatchAtNone | SoundByte.YouTubeParser/Internal/UrlHelper.cs:14 | when the pattern opens at a position and the key follows, a failed match there means the scan failed |
| UrlHelper.NoMatchOnExtension | SoundByte.YouTubeParser/Internal/UrlHelper.cs:33-39 | appending a separator and a new parameter creates no match at an earlier start position |
| UrlHelper.SetQueryIdempotent | SoundByte.YouTubeParser/Internal/UrlHelper.cs:9-41 | setting a missing query parameter twice to the same value gives the same url as setting it once |
| UrlHelper.SetPathIdempotent | SoundByte.YouTubeParser/Internal/UrlHelper.cs:43-69 | the same for path parameters |
| UrlHelper.GetDictionaryFromUrlQuery | SoundByte.YouTubeParser/Internal/UrlHelper.cs:71-95 | the loop builds the dictionary of the pairs from the decoded `&` pieces, storing them in order |
| UrlHelper.PairsExactly | SoundByte.YouTubeParser/Internal/UrlHelper.cs:77-88 | a pair is produced exactly when a piece decodes to text with `=` after a non-empty key; the value is everything after the first `=` |
| UrlHelper.BuildEntries | SoundByte.YouTubeParser/Internal/UrlHelper.cs:73-91 | a key is present exactly when some pair has that key in any ASCII case; the entry keeps its first spelling and the last value |
| Paging.FirstValue | SoundByte.Core/Items/Track/SoundCloudTrack.cs:188-189 | the value of the first pair with that key, or null |
| Paging.AtLeastTen | SoundByte.Core/Items/Track/SoundCloudTrack.cs:174-175 | counts of 10 or less become 10; larger counts are kept |
| SoundCloudTracks.FromId | SoundByte.Core/Items/Track/SoundCloudTrack.cs:37-40 | the track's id is `int.Parse` of the text, and a parse failure is the error |
| SoundCloudTracks.ArtworkUrl | SoundByte.Core/Items/Track/SoundCloudTrack.cs:46-60 | the stored artwork url, or the uploader's avatar when the stored one is null or empty |
| SoundCloudTracks.ToBaseTrack | SoundByte.Core/Items/Track/SoundCloudTrack.cs:140-162 | SoundCloud service, the id's decimal text, empty stream urls, zero dislikes, and every other field copied |
| SoundCloudTracks.ToBaseTrackIdParses | SoundByte.Core/Items/Track/SoundCloudTrack.cs:145 | the canonical id parses back to the numeric id |
| SoundCloudTracks.FromIdKeepsId | SoundByte.Core/Items/Track/SoundCloudTrack.cs:37-40 | a track built from a canonical decimal id converts back to that id |
| SoundCloudTracks.SearchAsync | SoundByte.Core/Items/Track/SoundCloudTrack.cs:172-197 | one "/tracks" request with the limit raised to at least 10, the url-encoded query and the offset; the result is every track converted in order, plus the next "offset" |
| SoundCloudTracks.GetCommentsAsync | SoundByte.Core/Items/Track/SoundCloudTrack.cs:206-227 | one "/tracks/{id}/comments" request; the result is every comment converted in order, plus the next "offset" |
| YouTubeTracks.FromVideoId | SoundByte.Core/Items/Track/YouTubeTrack.cs:35-38 | only the video id is set |
| YouTubeTracks.ToBaseTrack | SoundByte.Core/Items/Track/YouTubeTrack.cs:135-169 | YouTube service, the video id and its watch-page link; kind "track" for videos; live unless the broadcast is "none"; the duration when present, genre "YouTube", the channel as user and the snippet's text; no stream urls and zero counts |
| YouTubeTracks.FromVideoIdLink | SoundByte.Core/Items/Track/YouTubeTrack.cs:135-169 | a track made from a video id links to that video's watch page |
| YouTubeTracks.UnlikeAsync | SoundByte.Core/Items/Track/YouTubeTrack.cs:247-267 | no account or no playlist id gives true with no call; otherwise the delete is sent and its success is returned |
| YouTubeTracks.GetCommentsAsync | SoundByte.Core/Items/Track/YouTubeTrack.cs:171-189 | one "commentThreads" request for the video; every comment converted in order, plus the next page token |
| SearchYouTubeUserSources.GetItemsAsync | SoundByte.Core/Sources/YouTube/SearchYouTubeUserSource.cs:33-68 | a channel-only search; an empty answer is the "no results" failure; otherwise the channels, converted in order, plus the next token |
| SearchYouTubeUserSources.ChannelFilterOutcomes | SoundByte.Core/Sources/YouTube/SearchYouTubeUserSource.cs:50-64 | a non-empty answer with no channel in it is a success with no users, not a failure |
| PodcastSearchSources.GetItemsAsync | SoundByte.Core/Sources/Podcast/PodcastSearchSource.cs:31-52 | the search request; "no results" on an empty answer; otherwise every podcast converted, with the end-of-list token |
| PodcastSearchSources.CountAndTokenIgnored | SoundByte.Core/Sources/Podcast/PodcastSearchSource.cs:31-52 | the count and token arguments change neither the request nor the result |
| PodcastSearchSources.SucceedsExactlyOnResults | SoundByte.Core/Sources/Podcast/PodcastSearchSource.cs:43-52 | a response succeeds exactly when the search found something, and a success ends the list |
| YouTubeLikeSources.GetParameters | SoundByte.Core/Sources/YouTube/YouTubeLikeSource.cs:13-16 | the source has no parameters |
| YouTubeLikeSources.ApplyParameters | SoundByte.Core/Sources/YouTube/YouTubeLikeSource.cs:18-21 | applying parameters leaves the source unchanged |
| YouTubeLikeSources.GetItemsAsync | SoundByte.Core/Sources/YouTube/YouTubeLikeSource.cs:23-39 | with no YouTube account the result is the "no account" failure; with one, the "Under Development" failure |
| YouTubeLikeSources.ParametersRoundTrip | SoundByte.Core/Sources/YouTube/YouTubeLikeSource.cs:13-21 | applying the source's own parameters changes nothing |
| IncrementalLoading.AfterLoad | SoundByte.UWP/Models/ChartModel.cs:116-158 | after a load the old items are a prefix of the new ones. The count is 0 exactly when the call raised or the page was empty, and then the items are unchanged; otherwise the count is the page size and the page is appended |
| IncrementalLoading.EndOfList | SoundByte.UWP/Models/LikeModel.cs:97-146 | a load ends the list exactly when the page was empty, the next value was null, empty or "eol", or the call raised under the end-the-list policy; under the keep-token policy a raise ends it only if the list had already ended |
| IncrementalLoading.NextTokenCarried | SoundByte.UWP/Models/UserFollowersModel.cs:89-93 | a non-empty page with a usable next value hands that value on as the new token |
| IncrementalLoading.PageOutcome | SoundByte.UWP/Models/ChartModel.cs:116-141 | a SoundCloud page gives its next-page value under the collection's key, its size, one converted item per result in order; an error gives the raised outcome |
| IncrementalLoading.LoadsAppendInOrder | SoundByte.UWP/Models/ChartModel.cs:123-141 | two successful loads in a row append their pages in order |
| ChartModels.ChartRequest | SoundByte.UWP/Models/ChartModel.cs:106-113 | "/charts" on the v2 API, with the genre prefixed by the percent-encoded literal "soundcloud%3Agenres%3A", the kind, a limit of 50, the offset and linked partitioning |
| ChartModels.ChartModel.LoadMoreItemsAsync | SoundByte.UWP/Models/ChartModel.cs:81-158 | sends the chart request; token, items and count are those of the shared loading rule on an "offset" page, and an error ends the list |
| ChartModels.ChartModel.constructor | SoundByte.UWP/Models/ChartModel.cs:37-40 | a new chart list is empty with a null token, genre "all-music" and kind "top" |
| ChartModels.ChartModel.SetGenre | SoundByte.UWP/Models/ChartModel.cs:53-61 | the genre takes the value and the list restarts with a null token and no items, even when the value is unchanged; the kind is kept |
| ChartModels.ChartModel.SetKind | SoundByte.UWP/Models/ChartModel.cs:68-76 | the kind takes the value and the list restarts with a null token and no items; the genre is kept |
| ChartModels.ChartModel.RefreshItems | SoundByte.UWP/Models/ChartModel.cs:182-186 | the token is null and the list empty, so `HasMoreItems` (token not "eol") holds; genre and kind are kept |
| LikeModels.LikesRequest | SoundByte.UWP/Models/LikeModel.cs:84-94 | "/users/{id}/favorites" with the limit raised to at least 10, the cursor and linked partitioning, on the overload that names no service |
| LikeModels.LikesAfterLoad | SoundByte.UWP/Models/LikeModel.cs:79-162 | no user ends the list; otherwise the shared loading rule on a "cursor" page, and an error keeps the token |
| LikeModels.FailureRetriesSamePage | SoundByte.UWP/Models/LikeModel.cs:135-146 | a failed call leaves the token and the items exactly as they were |
| LikeModels.LikeModel.LoadMoreItemsAsync | SoundByte.UWP/Models/LikeModel.cs:75-162 | asks nothing exactly when there is no user; otherwise sends the likes request; the new state is `LikesAfterLoad` of the old one |
| LikeModels.LikeModel.constructor | SoundByte.UWP/Models/LikeModel.cs:40-43 | the list is for the given user, empty, with a null token |
| LikeModels.LikeModel.RefreshItems | SoundByte.UWP/Models/LikeModel.cs:180-184 | the token is null and the list empty, so `HasMoreItems` holds; the user is kept |
| SearchPlaylistModels.PlaylistSearchRequest | SoundByte.UWP/Models/SearchPlaylistModel.cs:77-84 | "/playlists" with the url-encoded query, the limit, the offset and linked partitioning |
| SearchPlaylistModels.SearchAfterLoad | SoundByte.UWP/Models/SearchPlaylistModel.cs:62-131 | an empty query changes nothing; otherwise the shared loading rule on an "offset" page, and an error ends the list |
| SearchPlaylistModels.SearchPlaylistModel.LoadMoreItemsAsync | SoundByte.UWP/Models/SearchPlaylistModel.cs:62-131 | asks nothing exactly when the query is null or empty; the new state is `SearchAfterLoad` of the old one |
| SearchPlaylistModels.SearchPlaylistModel.SetQuery | SoundByte.UWP/Models/SearchPlaylistModel.cs:44 | the query takes the value; the token and the items are not touched |
| SearchPlaylistModels.SearchPlaylistModel.RefreshItems | SoundByte.UWP/Models/SearchPlaylistModel.cs:157-161 | the token is null and the list empty, so `HasMoreItems` holds; the query is kept |
| UserFollowersModels.FollowersRequest | SoundByte.UWP/Models/UserFollowersModel.cs:80-86 | "/users/{id}/{relation}" with a limit of 50, the cursor and linked partitioning |
| UserFollowersModels.UserFollowersModel.LoadMoreItemsAsync | SoundByte.UWP/Models/UserFollowersModel.cs:59-136 | sends the followers request; the new state follows the shared loading rule on a "cursor" page, and an error keeps the token |
| UserFollowersModels.UserFollowersModel.constructor | SoundByte.UWP/Models/UserFollowersModel.cs:34-38 | the list is for the given user and relation, empty, with a null token |
| UserFollowersModels.UserFollowersModel.RefreshItems | SoundByte.UWP/Models/UserFollowersModel.cs:150-154 | the token is null and the list empty, so `HasMoreItems` holds; user and relation are kept |
| YouTubeSearchModels.YouTubeSearchRequest | SoundByte.UWP/Models/YouTubeSearchModel.cs:92-99 | "search" on YouTube with the snippet part, ten results, the query as given and the page token |
| YouTubeSearchModels.ToTrack | SoundByte.UWP/Models/YouTubeSearchModel.cs:121-150 | a YouTube track of kind "track" and genre "YouTube" with the watch-page link; every other field comes from the result or its looked-up video |
| YouTubeSearchModels.SearchOutcome | SoundByte.UWP/Models/YouTubeSearchModel.cs:103-185 | the count is the page's size including skipped results; the tracks appended are those of the playable videos |
| YouTubeSearchModels.PlayableTracksAreFilteredResults | SoundByte.UWP/Models/YouTubeSearchModel.cs:116-152 | the tracks of a page are its playable results, filtered in order and then converted |
| YouTubeSearchModels.AddedTracksArePlayableVideos | SoundByte.UWP/Models/YouTubeSearchModel.cs:116-152 | every added track comes from a playable video of the page; there are never more tracks than results |
| YouTubeSearchModels.AllPlayableAllAdded | SoundByte.UWP/Models/YouTubeSearchModel.cs:116-152 | a page of playable videos only adds one track per result |
| YouTubeSearchModels.YouTubeSearchModel.AddPlayableVideos | SoundByte.UWP/Models/YouTubeSearchModel.cs:116-152 | the loop appends exactly the playable tracks of the page, in order |
| YouTubeSearchModels.YouTubeSearchModel.LoadMoreItemsAsync | SoundByte.UWP/Models/YouTubeSearchModel.cs:87-194 | asks nothing exactly when the query is null or empty; otherwise the new state follows the shared loading rule on the search outcome, and an error ends the list |
| YouTubeSearchModels.YouTubeSearchModel.SetQuery | SoundByte.UWP/Models/YouTubeSearchModel.cs:43 | the query takes the value; filter, token and items are not touched |
| YouTubeSearchModels.YouTubeSearchModel.SetFilter | SoundByte.UWP/Models/YouTubeSearchModel.cs:48 | the filter takes the value; query, token and items are not touched |
| YouTubeSearchModels.YouTubeSearchModel.RefreshItems | SoundByte.UWP/Models/YouTubeSearchModel.cs:59-63 | the token is null and the list empty, so `HasMoreItems` holds; query and filter are kept |
| PlaybackServices.FindIndex | SoundByte.UWP/Services/PlaybackV2Service.cs:301-303 | the first index of a track with that id, or -1 exactly when there is none |
| PlaybackServices.Poll | SoundByte.UWP/Services/PlaybackV2Service.cs:294-325 | a found poll stops within 50 attempts, at an index that holds the track, in a queue the attempt saw |
| PlaybackServices.PollWaitBounded | SoundByte.UWP/Services/PlaybackV2Service.cs:305-324 | a poll waits at most 200 ms for each remaining attempt |
| PlaybackServices.TotalWaitBounded | SoundByte.UWP/Services/PlaybackV2Service.cs:294-325 | from the start, a poll waits at most 50 times 200 ms |
| PlaybackServices.GaveUpExactly | SoundByte.UWP/Services/PlaybackV2Service.cs:294-327 | the poll gives up exactly when no remaining attempt sees the track |
| PlaybackServices.FoundAtFirstSighting | SoundByte.UWP/Services/PlaybackV2Service.cs:301-318 | a found poll stops at the first attempt that sees the track, at its first index |
| PlaybackServices.ImmediatePlay | SoundByte.UWP/Services/PlaybackV2Service.cs:301-318 | a track already queued is found on the first attempt, with no wait |
| PlaybackServices.PlaybackService.ShufflePlaylist | SoundByte.UWP/Services/PlaybackV2Service.cs:208-221 | shuffle is switched on whatever the argument says; the random-track start it then calls (lines 330-333) raises; nothing else changes |
| PlaybackServices.PlaybackService.MuteTrack | SoundByte.UWP/Services/PlaybackV2Service.cs:223-226 | the player is muted exactly as asked; nothing else changes |
| PlaybackServices.PlaybackService.SetTrackVolume | SoundByte.UWP/Services/PlaybackV2Service.cs:228-231 | the volume is the given one; nothing else changes |
| PlaybackServices.PlaybackService.RepeatTrack | SoundByte.UWP/Services/PlaybackV2Service.cs:239-242 | looping is on exactly as asked; nothing else changes |
| PlaybackServices.PlaybackService.PauseTrack | SoundByte.UWP/Services/PlaybackV2Service.cs:265-271 | the player pauses only when it can; nothing else changes |
| PlaybackServices.PlaybackService.PlayTrack | SoundByte.UWP/Services/PlaybackV2Service.cs:276-281 | the player is playing; nothing else changes |
| PlaybackServices.PlaybackService.StartTrackAsync | SoundByte.UWP/Services/PlaybackV2Service.cs:286-328 | no track just plays; otherwise the loop ends as `Poll` says, moving to the found index or leaving the queue after 50 attempts, then plays |
| PlaybackServices.PlaybackService.InitilizePlaylistAsync | SoundByte.UWP/Services/PlaybackV2Service.cs:340-410 | a given playlist is queued directly; otherwise 50 items are fetched from the token. Items whose media item fails to be created are dropped. A failed fetch is reported with the error prefix, and a missing item list raises |
| PlaybackServices.PlaybackService.BindMediaSource | SoundByte.UWP/Services/PlaybackV2Service.cs:413-446 | no queued track with the binder's token binds nothing; a live YouTube track binds an adaptive source when one is created; any other track binds its stream url |
| PlaybackServices.BindingDispatch | SoundByte.UWP/Services/PlaybackV2Service.cs:420-446 | an adaptive source is only bound for a live YouTube track |
| PlaylistDialogs.CreatePayloadLists | SoundByte.UWP/Dialogs/PlaylistDialog.xaml.cs:88-89 | the create payload is the one-track list payload of the track's id (the same list format the add and remove payloads use), with the title put first in the playlist object |
| PlaylistDialogs.AggregateIsJoinAndComma | SoundByte.UWP/Dialogs/PlaylistDialog.xaml.cs:224-225 | the aggregate is the prefix, the comma-joined id objects and one trailing comma |
| PlaylistDialogs.RemovePayloadLists | SoundByte.UWP/Dialogs/PlaylistDialog.xaml.cs:224-229 | the remove payload lists exactly the remaining ids; no ids give an empty track list |
| PlaylistDialogs.AddPayloadLists | SoundByte.UWP/Dialogs/PlaylistDialog.xaml.cs:283-287 | the add payload lists the existing ids and then the new one |
| PlaylistDialogs.RemoveFirst | SoundByte.UWP/Dialogs/PlaylistDialog.xaml.cs:217-221 | the first occurrence of the id is taken out; a missing id changes nothing |
| PlaylistDialogs.RemoveFirstCount | SoundByte.UWP/Dialogs/PlaylistDialog.xaml.cs:217-221 | exactly one occurrence of the id is removed, when there is one |
| PlaylistDialogs.LoadGuard | SoundByte.UWP/Dialogs/PlaylistDialog.xaml.cs:136-153 | no track does nothing; an unconnected Fanburst or SoundCloud account shows the login message; a connected Fanburst account shows the not-supported message; loading goes on exactly otherwise |
| PlaylistDialogs.PlaylistDialog.CreatePlaylist | SoundByte.UWP/Dialogs/PlaylistDialog.xaml.cs:82-121 | posts the create payload; a created playlist is inserted first, marked as holding the track |
| PlaylistDialogs.PlaylistDialog.LoadContent | SoundByte.UWP/Dialogs/PlaylistDialog.xaml.cs:134-193 | the guard's result, or the fetched playlists converted in order, or the error's message; loading is unblocked at the end |
| PlaylistDialogs.PlaylistDialog.TrackNumber | SoundByte.UWP/Dialogs/PlaylistDialog.xaml.cs:217 | `int.Parse` of the track id |
| PlaylistDialogs.PlaylistDialog.RemoveTrackFromPlaylist | SoundByte.UWP/Dialogs/PlaylistDialog.xaml.cs:200-260 | blocked loading does nothing; otherwise puts the remaining ids to the playlist. A failure re-checks the box without re-entering the handler |
| PlaylistDialogs.PlaylistDialog.AddTrackToPlaylist | SoundByte.UWP/Dialogs/PlaylistDialog.xaml.cs:266-318 | blocked loading does nothing; otherwise puts the existing ids and the track's id, with the secret token in the path. A failure unchecks the box |
| UploadViews.CanUpload | SoundByte.UWP/Views/Me/UploadView.xaml.cs:68-69 | an upload needs a music file or a stream, a name and tags |
| UploadViews.AcceptablePick | SoundByte.UWP/Views/Me/UploadView.xaml.cs:370 | a file under 5368709120 bytes and under 405 minutes |
| UploadViews.Slug | SoundByte.UWP/Views/Me/UploadView.xaml.cs:207-217 | the license and type values keep their length, have no space and no upper-case letter; spaces become dashes and letters are lowered |
| UploadViews.FormBuilt | SoundByte.UWP/Views/Me/UploadView.xaml.cs:99-217 | the form is built exactly when there is audio and all three selections are made; it starts with the music file when there is one, else the stream as "stream.mp3", then the title |
| UploadViews.TagsSentVerbatim | SoundByte.UWP/Views/Me/UploadView.xaml.cs:130-138 | the tag field is the tags text itself |
| UploadViews.FieldsPresent | SoundByte.UWP/Views/Me/UploadView.xaml.cs:126-227 | a built form names exactly the fields sent: each optional text field when non-empty, the artwork when picked, every other field always |
| UploadViews.DownloadableLast | SoundByte.UWP/Views/Me/UploadView.xaml.cs:223-227 | the form ends with the download switch as "true" or "false" |
| UploadViews.UploadView.UploadButtonTapped | SoundByte.UWP/Views/Me/UploadView.xaml.cs:63-283 | an incomplete form is refused; otherwise the built form is posted and a success or error message follows; an exception clears the form; both buttons always end enabled |
| UploadViews.UploadView.CancelButtonTapped | SoundByte.UWP/Views/Me/UploadView.xaml.cs:285-304 | after an upload it clears the form; before one it goes back, or home |
| UploadViews.UploadView.UploadRecordingTapped | SoundByte.UWP/Views/Me/UploadView.xaml.cs:341-389 | a file over the limits is refused and the pick button stays disabled; an accepted file becomes the music file and names the track |
| UploadViews.UploadView.TrackImageBrowserTapped | SoundByte.UWP/Views/Me/UploadView.xaml.cs:306-339 | a picked image becomes the artwork; cancelling keeps the previous one |

## Left out

- Network, threading and cancellation. Each call is modelled by the request it would send and by its answer, given as an input.
- JSON decoding, `QueryParameterCollection` and `DateTime.Parse`. Page answers arrive parsed, and the next-page link arrives as its list of (key, value) pairs.
- `WebUtility.UrlEncode`, `UrlDecode`, `XmlConvert.ToTimeSpan` and the per-item conversions whose code is not part of this model. They are parameters.
- YoutubeExplode's stream lookup and ordering. The video-information lookup is a parameter that returns the chosen stream urls.
- Telemetry, message dialogs other than their text, navigation beyond its target, and progress bars.
- MediaPlayer internals, `NextTrack`, `PreviousTrack`, `SetTrackPosition`, `GetTrackPosition`, `GetTrackDuration` and the current-item-changed handler.
- `StartRandomTrack` raises `NotImplementedException`. The model has no member for it; `ShufflePlaylist`, its caller, reports the raise as `raised`.
- `YouTubeTrack.LikeAsync` (playlist creation and insertion on YouTube).
- `MonitizeService` and the other files of the repository outside the listed core.
- `SourceResponse`, `BaseTrack`, `BasePlaylist` and `PlaybackInitilizeResponse` are not part of this model. They are rebuilt as datatypes from their uses, and `PlaybackInitilizeResponse`'s first argument is read as success.
- Case folding beyond ASCII. `ToLower` and `OrdinalIgnoreCase` are modelled on ASCII letters only.
- The check box's playlist id is taken as already parsed (`Int32`). Parsing it from the box's tag is not modelled.
- A null answer from the playlist source in `LoadContent` is not modelled.
- `UserFollowersModel` with a null user is not modelled (the source dereferences it).
- A null YouTube snippet in the YouTube search collection is not modelled.
- The upload POST url with its credentials, the file streams' contents, and the artwork preview image.
- UploadViews.UploadView.UploadRecordingTapped: the duration is compared in 100-nanosecond ticks, and size and duration are read from the file's properties, given as the picked file's fields.
- YouTubeSearchModels.YouTubeSearchModel.LoadMoreItemsAsync: the video lookup (`GetVideoInfoAsync`), `.Last()` on an empty stream list and `DateTime.Parse` can raise exceptions other than `SoundByteException`. Such a raise escapes the method after the token has moved to the next page token and after the page's earlier playable videos were appended; the rest of the page is never loaded. The lookup is a total parameter here, so the model does not represent this path.
- SoundCloudTracks.SearchAsync: a returned track with a null user or a null creation date makes `ToBaseTrack` raise, and the raise leaves `SearchAsync`. The model requires every returned track to be convertible, so it does not represent that answer.
- ChartModels.ChartModel.LoadMoreItemsAsync: an exception other than `SoundByteException` raised by `ToBaseTrack` (a null user or creation date) while items are appended escapes the method after the token was set and after the earlier items of the page were appended. The conversion is a total parameter here, so the model does not represent this path.
- LikeModels.LikeModel.LoadMoreItemsAsync: an exception other than `SoundByteException` raised by `ToBaseTrack` (a null user or creation date) while items are appended escapes the method after the token was set and after the earlier items of the page were appended. The conversion is a total parameter here, so the model does not represent this path.
- SearchPlaylistModels.SearchPlaylistModel.LoadMoreItemsAsync: an exception other than `SoundByteException` raised by the playlist conversion while items are appended escapes the method after the token was set and after the earlier items of the page were appended. The conversion is a total parameter here, so the model does not represent this path.
- UserFollowersModels.UserFollowersModel.LoadMoreItemsAsync: an exception other than `SoundByteException` raised by the user conversion while items are appended escapes the method after the token was set and after the earlier items of the page were appended. The conversion is a total parameter here, so the model does not represent this path.
- PlaybackServices.PlaybackService.InitilizePlaylistAsync: the contract states that the current index is 0 afterwards. The code only clears the platform's item list; that clearing resets the current position is an assumption about the platform, not something the code does.
- PlaylistDialogs.PlaylistDialog: the dialog reads the track's `TrackId`, while every other part of the program reads `BaseTrack.Id`. `BaseTrack` is not part of this model, and the model reads `TrackId` as the track's `Id` when it builds the create and add payloads and when it parses the track number for a removal. If `TrackId` were a separate property left unset, those payloads would carry an empty id and removals would fail at the parse; the model does not cover that case.
- SoundCloudTracks.ToBaseTrack: a track with a null user or a null creation date makes the conversion raise, and a null user makes the artwork getter raise when the stored artwork url is null or empty. The requires `Convertible` (for the conversion) and `HasArtwork` (for `SoundCloudTracks.ArtworkUrl`) exclude those tracks, so these raises are not represented.
- UploadViews.UploadView.UploadButtonTapped: `Threw` is only the post raising. A raise before the post, from a missing SoundCloud token or from opening the music file, is not represented.
