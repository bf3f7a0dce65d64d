/** The playback queue: starting a track by polling the queue for it, initialising the queue
    from a playlist, binding a queued track to its stream, and the player's simple settings.
    The platform's media playback list is its sequence of tracks and a current index. */
module PlaybackServices {
  import opened Wrappers
  import opened Seqs
  import opened Items

  /** The maximum number of attempts `StartTrackAsync` makes. */
  const MaxAttempts := 50
  /** The wait after an attempt that did not find the track, in milliseconds. */
  const NotFoundDelayMs := 50
  /** The wait after an attempt that raised, in milliseconds. */
  const FailedDelayMs := 200
  /** The number of items `InitilizePlaylistAsync` asks a source for. */
  const FirstPageSize := 50
  const LoadErrorPrefix := "Error Loading Playlist: "

  /** `FindIndex(item => item.Id == id)`: the first index of a track with that id, or -1. */
  function FindIndex(queue: seq<BaseTrack>, id: Option<string>): (r: int)
    ensures -1 <= r < |queue|
    ensures r == -1 <==> forall i :: 0 <= i < |queue| ==> queue[i].id != id
    ensures 0 <= r ==> queue[r].id == id && forall i :: 0 <= i < r ==> queue[i].id != id
  {
    if queue == [] then -1
    else if queue[0].id == id then 0
    else
      var r := FindIndex(queue[1..], id);
      assert forall i :: 1 <= i < |queue| ==> queue[i] == queue[1..][i - 1];
      if r == -1 then -1 else r + 1
  }

  /** What one attempt of the poll sees: the queue as it stood then, or an exception raised
      while reading it. */
  datatype Probe = Seen(queue: seq<BaseTrack>) | Threw

  /** Attempt `k` sees the `k`-th given probe; past the given probes it sees `queue`. */
  function ProbeAt(probes: seq<Probe>, queue: seq<BaseTrack>, k: nat): Probe {
    if k < |probes| then probes[k] else Seen(queue)
  }

  /** How a poll ends: the queue and index it moved to, after how many attempts and how long a
      wait; or giving up after every attempt, with the total wait. */
  datatype PollOutcome =
    | Found(queue: seq<BaseTrack>, index: nat, attempts: nat, waitedMs: nat)
    | GaveUp(waitedMs: nat)

  /** "This attempt found the track with this id". */
  predicate FoundIn(p: Probe, id: Option<string>) {
    p.Seen? && FindIndex(p.queue, id) != -1
  }

  /** The poll from attempt `k`, having waited `waited` milliseconds so far. */
  function Poll(id: Option<string>, probes: seq<Probe>, queue: seq<BaseTrack>, k: nat, waited: nat): (r: PollOutcome)
    ensures r.Found? ==> k < r.attempts <= MaxAttempts && r.index < |r.queue| && r.queue[r.index].id == id
    ensures r.Found? ==> ProbeAt(probes, queue, r.attempts - 1) == Seen(r.queue)
    decreases MaxAttempts - k
  {
    if k >= MaxAttempts then GaveUp(waited)
    else match ProbeAt(probes, queue, k)
      case Threw => Poll(id, probes, queue, k + 1, waited + FailedDelayMs)
      case Seen(items) =>
        var index := FindIndex(items, id);
        if index == -1 then Poll(id, probes, queue, k + 1, waited + NotFoundDelayMs)
        else Found(items, index, k + 1, waited)
  }

  /** The poll never waits more than the slowest wait for every remaining attempt. */
  lemma {:induction false} PollWaitBounded(id: Option<string>, probes: seq<Probe>, queue: seq<BaseTrack>, k: nat, waited: nat)
    ensures var r := Poll(id, probes, queue, k, waited);
            waited <= r.waitedMs <= waited + FailedDelayMs * (if k < MaxAttempts then MaxAttempts - k else 0)
    decreases MaxAttempts - k
  {
    if k < MaxAttempts {
      match ProbeAt(probes, queue, k)
      case Threw => PollWaitBounded(id, probes, queue, k + 1, waited + FailedDelayMs);
      case Seen(items) =>
        if FindIndex(items, id) == -1 {
          PollWaitBounded(id, probes, queue, k + 1, waited + NotFoundDelayMs);
        }
    }
  }

  /** From the start, the poll waits at most 50 times 200 ms. */
  lemma TotalWaitBounded(id: Option<string>, probes: seq<Probe>, queue: seq<BaseTrack>)
    ensures Poll(id, probes, queue, 0, 0).waitedMs <= MaxAttempts * FailedDelayMs
  {
    PollWaitBounded(id, probes, queue, 0, 0);
  }

  /** The poll gives up exactly when none of the attempts from `k` on finds the track. */
  lemma {:induction false} GaveUpExactly(id: Option<string>, probes: seq<Probe>, queue: seq<BaseTrack>, k: nat, waited: nat)
    ensures Poll(id, probes, queue, k, waited).GaveUp? <==>
            forall j :: k <= j < MaxAttempts ==> !FoundIn(ProbeAt(probes, queue, j), id)
    decreases MaxAttempts - k
  {
    if k < MaxAttempts {
      var p := ProbeAt(probes, queue, k);
      var next := if p.Threw? then waited + FailedDelayMs else waited + NotFoundDelayMs;
      GaveUpExactly(id, probes, queue, k + 1, next);
      if !FoundIn(p, id) {
        assert Poll(id, probes, queue, k, waited) == Poll(id, probes, queue, k + 1, next);
      }
    }
  }

  /** A poll that finds the track stops at the first attempt that sees it, at its first index. */
  lemma {:induction false} FoundAtFirstSighting(id: Option<string>, probes: seq<Probe>, queue: seq<BaseTrack>, k: nat, waited: nat)
    requires Poll(id, probes, queue, k, waited).Found?
    ensures var r := Poll(id, probes, queue, k, waited);
            (forall j :: k <= j < r.attempts - 1 ==> !FoundIn(ProbeAt(probes, queue, j), id)) &&
            r.index == FindIndex(r.queue, id)
    decreases MaxAttempts - k
  {
    var p := ProbeAt(probes, queue, k);
    if !FoundIn(p, id) {
      var next := if p.Threw? then waited + FailedDelayMs else waited + NotFoundDelayMs;
      FoundAtFirstSighting(id, probes, queue, k + 1, next);
    }
  }

  /** A track already in the queue is found on the first attempt, with no wait. */
  lemma ImmediatePlay(id: Option<string>, queue: seq<BaseTrack>)
    requires FindIndex(queue, id) != -1
    ensures Poll(id, [], queue, 0, 0) == Found(queue, FindIndex(queue, id), 1, 0)
  {
  }

  /** What `InitilizePlaylistAsync` reports: whether the queue was loaded, and a message. */
  datatype InitializeResponse = InitializeResponse(success: bool, message: Option<string>)

  /** How a queued track is bound to its stream. */
  datatype Binding = NoSource | AdaptiveSource(uri: string) | UriSource(uri: string)

  class PlaybackService {
    /** The media playback list: its items' tracks and the current index. */
    var queue: seq<BaseTrack>
    var current: nat
    var playing: bool
    var muted: bool
    var volume: real
    var looping: bool
    var shuffleEnabled: bool
    var playlistToken: Option<string>

    /** The constructor: an empty list, shuffle off, and a paused player. */
    constructor ()
      ensures queue == [] && current == 0 && !playing && !shuffleEnabled
      ensures playlistToken == None
    {
      queue := [];
      current := 0;
      playing := false;
      muted := false;
      volume := 1.0;
      looping := false;
      shuffleEnabled := false;
      playlistToken := None;
    }

    method MuteTrack(mute: bool)
      modifies this
      ensures muted == mute
      ensures queue == old(queue) && current == old(current) && playing == old(playing)
      ensures volume == old(volume) && looping == old(looping) && shuffleEnabled == old(shuffleEnabled)
      ensures playlistToken == old(playlistToken)
    {
      muted := mute;
    }

    method SetTrackVolume(v: real)
      modifies this
      ensures volume == v
      ensures queue == old(queue) && current == old(current) && playing == old(playing)
      ensures muted == old(muted) && looping == old(looping) && shuffleEnabled == old(shuffleEnabled)
      ensures playlistToken == old(playlistToken)
    {
      volume := v;
    }

    method RepeatTrack(repeat: bool)
      modifies this
      ensures looping == repeat
      ensures queue == old(queue) && current == old(current) && playing == old(playing)
      ensures muted == old(muted) && volume == old(volume) && shuffleEnabled == old(shuffleEnabled)
      ensures playlistToken == old(playlistToken)
    {
      looping := repeat;
    }

    /** `ShufflePlaylist`: shuffle is switched on whatever the argument says, and then
        `StartRandomTrack` raises `NotImplementedException`, which `raised` reports. */
    method ShufflePlaylist(shuffle: bool) returns (raised: bool)
      modifies this
      ensures shuffleEnabled && raised
      ensures queue == old(queue) && current == old(current) && playing == old(playing)
      ensures muted == old(muted) && volume == old(volume) && looping == old(looping)
      ensures playlistToken == old(playlistToken)
    {
      shuffleEnabled := true;
      raised := true;
    }

    method PauseTrack(canPause: bool)
      modifies this
      ensures playing == (old(playing) && !canPause)
      ensures queue == old(queue) && current == old(current)
      ensures muted == old(muted) && volume == old(volume) && looping == old(looping)
      ensures shuffleEnabled == old(shuffleEnabled) && playlistToken == old(playlistToken)
    {
      if canPause {
        playing := false;
      }
    }

    method PlayTrack()
      modifies this
      ensures playing && queue == old(queue) && current == old(current)
      ensures muted == old(muted) && volume == old(volume) && looping == old(looping)
      ensures shuffleEnabled == old(shuffleEnabled) && playlistToken == old(playlistToken)
    {
      playing := true;
    }

    /** `StartTrackAsync`. With no track it just plays. Otherwise it polls at most 50 times for
        a queued track with the same id; `probes` are what the attempts see. When one is found,
        the list moves to it; in every case the player plays. `waitedMs` is the total delay.
        `queue` is the list as this service sees it: a successful attempt takes on the list that
        attempt saw, since other flows append to it meanwhile. The method itself never changes
        the list, so when the poll gives up `queue` is the list the method started with. */
    method StartTrackAsync(trackToPlay: Option<BaseTrack>, probes: seq<Probe>) returns (waitedMs: nat)
      modifies this
      ensures playing
      ensures trackToPlay.None? ==> queue == old(queue) && current == old(current) && waitedMs == 0
      ensures trackToPlay.Some? ==>
                var r := Poll(trackToPlay.value.id, probes, old(queue), 0, 0);
                && waitedMs == r.waitedMs
                && (r.Found? ==> queue == r.queue && current == r.index)
                && (r.GaveUp? ==> queue == old(queue) && current == old(current))
      ensures muted == old(muted) && volume == old(volume) && looping == old(looping)
      ensures shuffleEnabled == old(shuffleEnabled) && playlistToken == old(playlistToken)
    {
      if trackToPlay.None? {
        playing := true;
        return 0;
      }
      var id := trackToPlay.value.id;
      var q0 := queue;
      var keepTrying := 0;
      waitedMs := 0;
      while keepTrying < MaxAttempts
        invariant 0 <= keepTrying <= MaxAttempts
        invariant Poll(id, probes, q0, keepTrying, waitedMs) == Poll(id, probes, q0, 0, 0)
        invariant queue == q0 && current == old(current) && playing == old(playing)
        invariant muted == old(muted) && volume == old(volume) && looping == old(looping)
        invariant shuffleEnabled == old(shuffleEnabled) && playlistToken == old(playlistToken)
        decreases MaxAttempts - keepTrying
      {
        var probe := ProbeAt(probes, q0, keepTrying);
        if probe.Threw? {
          keepTrying := keepTrying + 1;
          waitedMs := waitedMs + FailedDelayMs;
        } else {
          var index := FindIndex(probe.queue, id);
          if index == -1 {
            waitedMs := waitedMs + NotFoundDelayMs;
            keepTrying := keepTrying + 1;
          } else {
            queue := probe.queue;
            current := index;
            playing := true;
            return;
          }
        }
      }
      playing := true;
    }

    /** `InitilizePlaylistAsync`. The token is stored, the player paused and the list cleared.
        With no playlist given, the first 50 items are fetched with that token (`fetchedWith`);
        `fetched` is what the source answered or the message of what it raised. A raised fetch
        is reported as a failure. A source answer with no items makes the method raise (`None`).
        Otherwise every track whose playback item could be created (`itemCreated`) is queued, in
        order, and the result is success. Clearing the platform's list is taken to put its
        current index back at 0; the code itself sets no index. */
    method InitilizePlaylistAsync(playlist: Option<seq<BaseTrack>>, token: Option<string>,
                                  fetched: Result<(Option<seq<BaseTrack>>, Option<string>), string>,
                                  itemCreated: BaseTrack -> bool)
      returns (fetchedWith: Option<(nat, Option<string>)>, response: Option<InitializeResponse>)
      modifies this
      ensures !playing && current == 0
      ensures fetchedWith.Some? <==> playlist.None?
      ensures fetchedWith.Some? ==> fetchedWith.value == (FirstPageSize, token)
      ensures playlist.Some? ==> playlistToken == token
      ensures playlist.Some? ==> response == Some(InitializeResponse(true, None))
      ensures playlist.Some? ==> queue == Filter(itemCreated, playlist.value)
      ensures playlist.None? && fetched.Failure? ==>
                && response == Some(InitializeResponse(false, Some(LoadErrorPrefix + fetched.error)))
                && queue == [] && playlistToken == token
      ensures playlist.None? && fetched.Success? ==> playlistToken == fetched.value.1
      ensures playlist.None? && fetched.Success? && fetched.value.0.None? ==> response == None && queue == []
      ensures playlist.None? && fetched.Success? && fetched.value.0.Some? ==>
                && response == Some(InitializeResponse(true, None))
                && queue == Filter(itemCreated, fetched.value.0.value)
      ensures muted == old(muted) && volume == old(volume) && looping == old(looping)
      ensures shuffleEnabled == old(shuffleEnabled)
    {
      playlistToken := token;
      playing := false;
      queue := [];
      current := 0;
      var tracks: seq<BaseTrack>;
      if playlist.None? {
        fetchedWith := Some((FirstPageSize, playlistToken));
        match fetched
        case Failure(message) =>
          return fetchedWith, Some(InitializeResponse(false, Some(LoadErrorPrefix + message)));
        case Success((items, nextToken)) =>
          playlistToken := nextToken;
          if items.None? {
            return fetchedWith, None;
          }
          tracks := items.value;
      } else {
        fetchedWith := None;
        tracks := playlist.value;
      }
      var i := 0;
      while i < |tracks|
        invariant 0 <= i <= |tracks|
        invariant queue == Filter(itemCreated, tracks[..i])
        invariant !playing && current == 0
        invariant playlistToken == (if playlist.None? then fetched.value.1 else token)
        invariant muted == old(muted) && volume == old(volume) && looping == old(looping)
        invariant shuffleEnabled == old(shuffleEnabled)
      {
        FilterAppend(itemCreated, tracks[..i], tracks[i]);
        assert tracks[..i + 1] == tracks[..i] + [tracks[i]];
        if itemCreated(tracks[i]) {
          queue := queue + [tracks[i]];
        }
        i := i + 1;
      }
      assert tracks[..|tracks|] == tracks;
      response := Some(InitializeResponse(true, None));
    }

    /** `BindMediaSource` for the binder whose token is `token`. The first queued track with that
        id is bound to the stream url `audioStream` gives for it. A live YouTube track gets an
        adaptive source, and only when its creation succeeded (`adaptiveCreated`). Any other
        track gets the plain url. With no such track nothing is bound. */
    function BindMediaSource(token: Option<string>, audioStream: BaseTrack -> string, adaptiveCreated: bool): (b: Binding)
      reads this
      ensures FindIndex(queue, token) == -1 ==> b == NoSource
      ensures FindIndex(queue, token) != -1 ==>
                var t := queue[FindIndex(queue, token)];
                && (t.serviceType == YouTube && t.isLive && adaptiveCreated ==> b == AdaptiveSource(audioStream(t)))
                && (t.serviceType == YouTube && t.isLive && !adaptiveCreated ==> b == NoSource)
                && (!(t.serviceType == YouTube && t.isLive) ==> b == UriSource(audioStream(t)))
    {
      var index := FindIndex(queue, token);
      if index == -1 then NoSource
      else
        var track := queue[index];
        var uri := audioStream(track);
        if track.serviceType == YouTube && track.isLive then
          if adaptiveCreated then AdaptiveSource(uri) else NoSource
        else UriSource(uri)
    }
  }

  /** An adaptive source is only ever bound for a live YouTube track, and a plain url only for
      any other track; both come from a queued track with the binder's id. */
  lemma BindingDispatch(s: PlaybackService, token: Option<string>, audioStream: BaseTrack -> string, adaptiveCreated: bool)
    ensures var b := s.BindMediaSource(token, audioStream, adaptiveCreated);
            (b.AdaptiveSource? || b.UriSource?) ==>
              exists i :: 0 <= i < |s.queue| && s.queue[i].id == token &&
                b.uri == audioStream(s.queue[i]) &&
                (b.AdaptiveSource? <==> s.queue[i].serviceType == YouTube && s.queue[i].isLive)
  {
    var b := s.BindMediaSource(token, audioStream, adaptiveCreated);
    if b.AdaptiveSource? || b.UriSource? {
      var i := FindIndex(s.queue, token);
      assert s.queue[i].id == token;
    }
  }
}
