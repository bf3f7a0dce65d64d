/** The dialog that adds the current track to the user's SoundCloud playlists. It has three
    jobs: create a playlist holding the track, load the user's playlists, and add the track to
    or remove it from one of them when its check box changes. */
module PlaylistDialogs {
  import opened Wrappers
  import opened Strings
  import opened Decimal
  import opened Seqs
  import opened Items
  import opened SoundByteExceptions

  /** The JSON object naming one track. */
  function IdObject(id: string): string {
    "{\"id\":\"" + id + "\"}"
  }

  /** The text every playlist payload starts with. */
  const PlaylistOpen := "{\"playlist\":{"

  /** The text every track-list payload starts with. */
  const ListPrefix := PlaylistOpen + "\"tracks\":["
  const ListSuffix := "]}}"

  /** A playlist payload holding exactly `ids`, comma-separated. */
  function ListPayload(ids: seq<string>): string {
    ListPrefix + Join(',', Map(IdObject, ids)) + ListSuffix
  }

  /** The create payload: the trimmed title, and a one-track list holding the track's id (empty
      when there is no track or id). */
  function CreatePayload(title: string, trackId: Option<string>): string {
    "{\"playlist\":{\"title\":\"" + title + "\",\"tracks\":[{\"id\":\"" + OrEmpty(trackId) + "\"}]}}"
  }

  /** The create payload is the one-track list payload of the track's id, with the title
      added as the first member of the playlist object. */
  lemma CreatePayloadLists(title: string, trackId: Option<string>)
    ensures CreatePayload(title, trackId) ==
              PlaylistOpen + "\"title\":\"" + title + "\"," + ListPayload([OrEmpty(trackId)])[|PlaylistOpen|..]
  {
    var id := OrEmpty(trackId);
    var tracks := "\"tracks\":[";
    var rest := tracks + IdObject(id) + ListSuffix;
    assert CreatePayload(title, trackId) == PlaylistOpen + "\"title\":\"" + title + "\"," + rest by {
      assert "{\"playlist\":{\"title\":\"" == PlaylistOpen + "\"title\":\"";
      assert "\",\"tracks\":[{\"id\":\"" == "\"," + tracks + "{\"id\":\"";
      assert "\"}]}}" == "\"}" + ListSuffix;
    }
    assert ListPayload([id])[|PlaylistOpen|..] == rest by {
      assert Map(IdObject, [id]) == [IdObject(id)];
      assert ListPayload([id]) == PlaylistOpen + rest;
    }
  }

  /** `Aggregate(seed, (current, id) => current + IdObject(id) + ",")`: every id's object
      followed by a comma. */
  function AggregateIds(seed: string, ids: seq<string>): string {
    if ids == [] then seed
    else AggregateIds(seed, ids[..|ids| - 1]) + IdObject(ids[|ids| - 1]) + ","
  }

  predicate IsComma(c: char) {
    c == ','
  }

  /** The remove payload: the aggregate with its trailing commas trimmed, then closed. */
  function RemovePayload(ids: seq<string>): string {
    TrimEndBy(AggregateIds(ListPrefix, ids), IsComma) + ListSuffix
  }

  /** The add payload: the aggregate of the existing ids, then the new id, then closed. */
  function AddPayload(ids: seq<string>, trackId: Option<string>): string {
    AggregateIds(ListPrefix, ids) + IdObject(OrEmpty(trackId)) + ListSuffix
  }

  lemma {:induction false} JoinAppend(parts: seq<string>, last: string)
    requires parts != []
    ensures Join(',', parts + [last]) == Join(',', parts) + [','] + last
  {
    if |parts| > 1 {
      JoinAppend(parts[1..], last);
      assert (parts + [last])[1..] == parts[1..] + [last];
    }
  }

  lemma {:induction false} JoinEndsLikeLastPart(parts: seq<string>)
    requires parts != [] && parts[|parts| - 1] != []
    ensures var j := Join(',', parts); j != [] && j[|j| - 1] == parts[|parts| - 1][|parts[|parts| - 1]| - 1]
  {
    if |parts| > 1 {
      JoinEndsLikeLastPart(parts[1..]);
    }
  }

  /** The aggregate is the prefix, then the id objects joined by commas, then one comma. */
  lemma {:induction false} AggregateIsJoinAndComma(ids: seq<string>)
    ensures ids == [] ==> AggregateIds(ListPrefix, ids) == ListPrefix
    ensures ids != [] ==> AggregateIds(ListPrefix, ids) == ListPrefix + Join(',', Map(IdObject, ids)) + ","
  {
    if ids != [] {
      var init := ids[..|ids| - 1];
      var last := ids[|ids| - 1];
      assert ids == init + [last];
      AggregateIsJoinAndComma(init);
      MapAppend(IdObject, init, last);
      if init != [] {
        JoinAppend(Map(IdObject, init), IdObject(last));
      }
    }
  }

  /** Trimming the commas off a text that ends in exactly one comma removes only that comma. */
  lemma TrimOneComma(s: string)
    requires s != [] && s[|s| - 1] != ','
    ensures TrimEndBy(s + ",", IsComma) == s
  {
    assert (s + ",")[..|s|] == s;
  }

  /** The remove payload lists exactly the remaining ids, with no trailing comma; an empty list
      gives `{"playlist":{"tracks":[]}}`. */
  lemma RemovePayloadLists(ids: seq<string>)
    ensures RemovePayload(ids) == ListPayload(ids)
    ensures ids == [] ==> RemovePayload(ids) == "{\"playlist\":{\"tracks\":[]}}"
  {
    AggregateIsJoinAndComma(ids);
    if ids == [] {
      TrimOneComma(ListPrefix[..|ListPrefix| - 1] + "[");
      assert ListPrefix == ListPrefix[..|ListPrefix| - 1] + "[";
      assert TrimEndBy(ListPrefix, IsComma) == ListPrefix;
    } else {
      var objects := Map(IdObject, ids);
      JoinEndsLikeLastPart(objects);
      TrimOneComma(ListPrefix + Join(',', objects));
    }
  }

  /** The add payload lists the existing ids in order and then the new one, with no check for
      a duplicate. */
  lemma AddPayloadLists(ids: seq<string>, trackId: Option<string>)
    ensures AddPayload(ids, trackId) == ListPayload(ids + [OrEmpty(trackId)])
  {
    AggregateIsJoinAndComma(ids);
    MapAppend(IdObject, ids, OrEmpty(trackId));
    if ids != [] {
      JoinAppend(Map(IdObject, ids), IdObject(OrEmpty(trackId)));
    }
  }

  /** `Tracks.Remove(Tracks.FirstOrDefault(x => x.Id == id))`: the first track with that id is
      removed. With none, the list is unchanged. */
  function RemoveFirst(ids: seq<int>, id: int): (r: seq<int>)
    ensures id !in ids ==> r == ids
    ensures id in ids ==> var i := IndexOf(ids, id); ids[i] == id && id !in ids[..i] && r == ids[..i] + ids[i + 1..]
  {
    var i := IndexOf(ids, id);
    if i == -1 then ids else ids[..i] + ids[i + 1..]
  }

  /** Removing takes away exactly one occurrence of the id, when there is one. */
  lemma RemoveFirstCount(ids: seq<int>, id: int)
    ensures multiset(RemoveFirst(ids, id)) == multiset(ids) - multiset{id}
  {
    var r := RemoveFirst(ids, id);
    if id in ids {
      var i := IndexOf(ids, id);
      var before, after := ids[..i], ids[i + 1..];
      assert r == before + after && ids == before + [id] + after;
      RemoveMiddle(before, id, after);
    } else {
      assert r == ids && multiset(ids)[id] == 0;
    }
  }

  /** Taking one element out of the middle of a sequence takes one copy out of its multiset. */
  lemma RemoveMiddle(a: seq<int>, x: int, b: seq<int>)
    ensures multiset(a + b) == multiset(a + [x] + b) - multiset{x}
  {
    assert multiset(a + [x] + b) == multiset(a) + multiset{x} + multiset(b);
  }

  /** A user playlist as the dialog lists it. */
  datatype BasePlaylist = BasePlaylist(id: Option<string>, title: Option<string>, isTrackInInternalSet: bool)

  /** The fields of a SoundCloud playlist the handlers read: its id, secret token and the ids
      of its tracks. */
  datatype SoundCloudPlaylist = SoundCloudPlaylist(id: Int32, secretToken: Option<string>, trackIds: seq<Int32>)

  /** How `LoadContent` ends: nothing to do, a message shown instead of the lists (its
      text and title), or the lists loaded. A `SoundByteException` shows its description and
      title. */
  datatype LoadResult =
    | NoTrack
    | Message(text: string, title: string)
    | Loaded

  const LoginText := "You must first login to add tracks to playlists."
  const LoginTitle := "Login Required"
  const FanburstText := "Adding Fanburst tracks to playlists is not currently supported."
  const FanburstTitle := "Not Supported"

  /** The guard at the start of `LoadContent`: what it shows before loading anything, if
      anything. */
  function LoadGuard(track: Option<BaseTrack>, fanburstConnected: bool, soundCloudConnected: bool): (r: Option<LoadResult>)
    ensures track.None? ==> r == Some(NoTrack)
    ensures track.Some? && ((track.value.serviceType == Fanburst && !fanburstConnected) ||
                            (track.value.serviceType == SoundCloud && !soundCloudConnected)) ==>
              r == Some(Message(LoginText, LoginTitle))
    ensures track.Some? && track.value.serviceType == Fanburst && fanburstConnected ==>
              r == Some(Message(FanburstText, FanburstTitle))
    ensures r.None? <==> track.Some? && track.value.serviceType != Fanburst &&
                         (track.value.serviceType == SoundCloud ==> soundCloudConnected)
  {
    if track.None? then Some(NoTrack)
    else if (track.value.serviceType == Fanburst && !fanburstConnected) ||
            (track.value.serviceType == SoundCloud && !soundCloudConnected) then
      Some(Message(LoginText, LoginTitle))
    else if track.value.serviceType == Fanburst then Some(Message(FanburstText, FanburstTitle))
    else None
  }

  /** The check box of one playlist row. `changedWhileBlocked` records whether the dialog's
      loading block was set when the handlers last changed the box, so that the box's own
      checked/unchecked handler returned at its guard. */
  class CheckBox {
    var isChecked: bool
    ghost var changedWhileBlocked: bool

    constructor (isChecked: bool)
      ensures this.isChecked == isChecked && !changedWhileBlocked
    {
      this.isChecked := isChecked;
      changedWhileBlocked := false;
    }
  }

  class PlaylistDialog {
    const track: Option<BaseTrack>
    var playlists: seq<BasePlaylist>
    var blockItemsLoading: bool

    constructor (track: Option<BaseTrack>)
      ensures this.track == track && playlists == [] && !blockItemsLoading
    {
      this.track := track;
      playlists := [];
      blockItemsLoading := false;
    }

    /** Undo a check-box change made by the user: the block is raised around the change. */
    method RevertCheckBox(box: CheckBox, value: bool)
      modifies this, box
      ensures box.isChecked == value && box.changedWhileBlocked
      ensures !blockItemsLoading && playlists == old(playlists)
    {
      blockItemsLoading := true;
      box.isChecked := value;
      box.changedWhileBlocked := blockItemsLoading;
      blockItemsLoading := false;
    }

    /** The create button of `CreatePlaylist`. With a blank title nothing is posted. Otherwise
        the create payload is posted (`post`); `created` is the playlist the call answered, or
        `None` for a null answer or an exception. A created playlist is shown first, marked as
        holding the track. */
    method CreatePlaylist(titleText: string, created: Option<BasePlaylist>) returns (post: Option<string>)
      modifies this
      ensures post.None? <==> Trim(titleText) == ""
      ensures post.Some? ==> post.value == CreatePayload(Trim(titleText), if track.Some? then track.value.id else None)
      ensures post.Some? && created.Some? ==> playlists == [created.value.(isTrackInInternalSet := true)] + old(playlists)
      ensures post.None? || created.None? ==> playlists == old(playlists)
      ensures blockItemsLoading == old(blockItemsLoading)
    {
      var title := Trim(titleText);
      if title == "" {
        return None;
      }
      var trackId := if track.Some? then track.value.id else None;
      var json := "{\"playlist\":{\"title\":\"" + title + "\",\"tracks\":[{\"id\":\"" + OrEmpty(trackId) + "\"}]}}";
      post := Some(json);
      if created.Some? {
        var playlist := created.value.(isTrackInInternalSet := true);
        playlists := [playlist] + playlists;
      }
    }

    /** `LoadContent`. After the guard, the user's playlists are fetched (`fetched`). On success
        the list is replaced by their conversions, in order. A `SoundByteException` leaves the
        list as it was and shows its description and title. The block is down at the end. */
    method LoadContent<P>(fanburstConnected: bool, soundCloudConnected: bool,
                          fetched: Result<seq<P>, SoundByteException>, toBasePlaylist: P -> BasePlaylist)
      returns (result: LoadResult)
      modifies this
      ensures LoadGuard(track, fanburstConnected, soundCloudConnected).Some? ==>
                result == LoadGuard(track, fanburstConnected, soundCloudConnected).value &&
                playlists == old(playlists) && blockItemsLoading == old(blockItemsLoading)
      ensures LoadGuard(track, fanburstConnected, soundCloudConnected).None? && fetched.Failure? ==>
                result == Message(fetched.error.errorDescription, fetched.error.errorTitle) &&
                playlists == old(playlists) && !blockItemsLoading
      ensures LoadGuard(track, fanburstConnected, soundCloudConnected).None? && fetched.Success? ==>
                result == Loaded && playlists == Map(toBasePlaylist, fetched.value) && !blockItemsLoading
    {
      var guard := LoadGuard(track, fanburstConnected, soundCloudConnected);
      if guard.Some? {
        return guard.value;
      }
      blockItemsLoading := true;
      match fetched {
      case Failure(ex) =>
        result := Message(ex.errorDescription, ex.errorTitle);
      case Success(userPlaylists) =>
        playlists := [];
        var i := 0;
        while i < |userPlaylists|
          invariant 0 <= i <= |userPlaylists|
          invariant playlists == Map(toBasePlaylist, userPlaylists[..i])
        {
          MapAppend(toBasePlaylist, userPlaylists[..i], userPlaylists[i]);
          assert userPlaylists[..i + 1] == userPlaylists[..i] + [userPlaylists[i]];
          var playlist := toBasePlaylist(userPlaylists[i]);
          blockItemsLoading := true;
          playlists := playlists + [playlist];
          blockItemsLoading := false;
          i := i + 1;
        }
        assert userPlaylists[..|userPlaylists|] == userPlaylists;
        result := Loaded;
      }
      blockItemsLoading := false;
    }

    /** The id the handlers compare against: `int.Parse(Track?.TrackId)`, which raises for a
        missing, malformed or out-of-range id. */
    function TrackNumber(): (r: Option<int>)
      reads this
      ensures r.Some? <==> track.Some? && track.value.id.Some? && ParseInt32(track.value.id.value).Success?
    {
      if track.Some? && track.value.id.Some? && ParseInt32(track.value.id.value).Success?
      then Some(ParseInt32(track.value.id.value).value) else None
    }

    /** `RemoveTrackFromPlaylist`, run when a row's box is unchecked. Blocked, it does nothing.
        Otherwise it fetches the playlist (`get`; `fetched` is its answer, `None` for an
        exception), removes the track from its list and puts back the remaining ids (`put`).
        `putSucceeded` is the put's answer, `None` for an exception. The track's id is parsed on
        comparing it with the first listed track, so an empty playlist never parses it. Any
        failure re-checks the box under the block. */
    method RemoveTrackFromPlaylist(box: CheckBox, playlistId: Int32, fetched: Option<SoundCloudPlaylist>,
                                   putSucceeded: Option<bool>)
      returns (get: Option<string>, put: Option<(string, string)>)
      modifies this, box
      ensures old(blockItemsLoading) ==> get.None? && put.None? && box.isChecked == old(box.isChecked)
      ensures !old(blockItemsLoading) ==> get == Some("/playlists/" + IntToString(playlistId))
      ensures !old(blockItemsLoading) && fetched.Some? && (fetched.value.trackIds == [] || TrackNumber().Some?) ==>
                var remaining := if fetched.value.trackIds == [] then [] else RemoveFirst(fetched.value.trackIds, TrackNumber().value);
                put == Some(("/playlists/" + IntToString(playlistId), RemovePayload(Map(IntToString, remaining))))
      ensures !old(blockItemsLoading) && (fetched.None? || (fetched.value.trackIds != [] && TrackNumber().None?)) ==>
                put.None?
      ensures !old(blockItemsLoading) ==>
                (box.isChecked <==> old(box.isChecked) || put.None? || putSucceeded != Some(true))
      ensures !old(blockItemsLoading) && (put.None? || putSucceeded != Some(true)) ==> box.changedWhileBlocked
      ensures playlists == old(playlists) && blockItemsLoading == old(blockItemsLoading)
    {
      if blockItemsLoading {
        return None, None;
      }
      var path := "/playlists/" + IntToString(playlistId);
      get := Some(path);
      if fetched.None? {
        RevertCheckBox(box, true);
        return get, None;
      }
      var trackIds := fetched.value.trackIds;
      var remaining := trackIds;
      if trackIds != [] {
        var number := TrackNumber();
        if number.None? {
          RevertCheckBox(box, true);
          return get, None;
        }
        remaining := RemoveFirst(trackIds, number.value);
      }
      var json := TrimEndBy(AggregateIds(ListPrefix, Map(IntToString, remaining)), IsComma) + "]}}";
      put := Some((path, json));
      if putSucceeded != Some(true) {
        RevertCheckBox(box, true);
      }
    }

    /** `AddTrackToPlaylist`, run when a row's box is checked. Blocked, it does nothing.
        Otherwise it fetches the playlist (`get`; `fetched` is its answer, `None` for an
        exception) and puts its ids followed by the track's (`put`) to its secret-token url.
        `putSucceeded` is the put's answer, `None` for an exception. Any failure unchecks the
        box under the block. */
    method AddTrackToPlaylist(box: CheckBox, playlistId: Int32, fetched: Option<SoundCloudPlaylist>,
                              putSucceeded: Option<bool>)
      returns (get: Option<string>, put: Option<(string, string)>)
      modifies this, box
      ensures old(blockItemsLoading) ==> get.None? && put.None? && box.isChecked == old(box.isChecked)
      ensures !old(blockItemsLoading) ==> get == Some("/playlists/" + IntToString(playlistId))
      ensures !old(blockItemsLoading) && fetched.Some? ==>
                put == Some(("/playlists/" + IntToString(fetched.value.id) + "/?secret-token=" + OrEmpty(fetched.value.secretToken),
                             AddPayload(Map(IntToString, fetched.value.trackIds), if track.Some? then track.value.id else None)))
      ensures !old(blockItemsLoading) && fetched.None? ==> put.None?
      ensures !old(blockItemsLoading) ==>
                (!box.isChecked <==> !old(box.isChecked) || put.None? || putSucceeded != Some(true))
      ensures !old(blockItemsLoading) && (put.None? || putSucceeded != Some(true)) ==> box.changedWhileBlocked
      ensures playlists == old(playlists) && blockItemsLoading == old(blockItemsLoading)
    {
      if blockItemsLoading {
        return None, None;
      }
      get := Some("/playlists/" + IntToString(playlistId));
      if fetched.None? {
        RevertCheckBox(box, false);
        return get, None;
      }
      var playlist := fetched.value;
      var trackId := if track.Some? then track.value.id else None;
      var json := AggregateIds(ListPrefix, Map(IntToString, playlist.trackIds)) + "{\"id\":\"" + OrEmpty(trackId) + "\"}]}}";
      assert json == AggregateIds(ListPrefix, Map(IntToString, playlist.trackIds)) + IdObject(OrEmpty(trackId)) + ListSuffix;
      put := Some(("/playlists/" + IntToString(playlist.id) + "/?secret-token=" + OrEmpty(playlist.secretToken), json));
      if putSucceeded != Some(true) {
        RevertCheckBox(box, false);
      }
    }
  }
}
