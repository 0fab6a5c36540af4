/** `src/app/context/SpotifyPlayerContext.tsx`: the Web Playback SDK player.
    Seven state fields are driven by the SDK's `ready`, `not_ready` and
    `player_state_changed` events and by `playTrack`, which asks the Web API
    to play a track on this device. The SDK itself and the network are
    inputs: an event is a value, the play response is a value. */
module Player {
  import opened Common

  /** The fields of `WebPlaybackTrack` the app reads. */
  datatype PlaybackTrack = PlaybackTrack(id: string, name: string, uri: string)

  /** The fields of `WebPlaybackState` the handler reads. */
  datatype PlaybackState = PlaybackState(currentTrack: PlaybackTrack, paused: bool)

  /** The seven `useState` fields; `hasPlayer` stands for `player !== null`. */
  datatype PlayerState = PlayerState(
    hasPlayer: bool,
    deviceId: Option<string>,
    isActive: bool,
    currentTrack: Option<PlaybackTrack>,
    isPaused: bool,
    isReady: bool,
    error: Option<string>)

  /** The initial `useState` values. */
  const Initial := PlayerState(false, None, false, None, false, false, None)

  /** What the SDK reports: the player was created (`setPlayer`), the device
      is ready with an id, the device went offline, or the playback state
      changed (`null` when nothing is playing on this device). */
  datatype PlayerEvent =
    | SdkReady
    | Ready(deviceId: string)
    | NotReady
    | StateChanged(state: Option<PlaybackState>)

  /** The state after the handler of `e`. */
  function Step(s: PlayerState, e: PlayerEvent): (t: PlayerState)
    ensures t.error == s.error
  {
    match e
    case SdkReady => s.(hasPlayer := true)
    case Ready(d) => s.(deviceId := Some(d), isReady := true)
    case NotReady => s.(deviceId := None, isReady := false)
    case StateChanged(None) => s
    case StateChanged(Some(st)) => s.(currentTrack := Some(st.currentTrack), isPaused := st.paused, isActive := true)
  }

  /** The state after a sequence of events. */
  function Run(s: PlayerState, events: seq<PlayerEvent>): PlayerState
    decreases |events|
  {
    if events == [] then s else Run(Step(s, events[0]), events[1..])
  }

  /** The readiness flag and the device id move together. */
  predicate ReadyMatchesDevice(s: PlayerState)
  {
    s.isReady <==> s.deviceId.Some?
  }

  /** Each handler changes only its own fields: `ready` sets the device id
      and readiness, `not_ready` clears both, a null playback state changes
      nothing, and a playback state sets the track, the pause flag and
      activity; none of them touches `error`. */
  lemma StepEffects(s: PlayerState, e: PlayerEvent)
    ensures e.Ready? ==>
      (Step(s, e).deviceId == Some(e.deviceId) && Step(s, e).isReady
       && Step(s, e).currentTrack == s.currentTrack && Step(s, e).isActive == s.isActive && Step(s, e).isPaused == s.isPaused)
    ensures e.NotReady? ==>
      (Step(s, e).deviceId.None? && !Step(s, e).isReady
       && Step(s, e).currentTrack == s.currentTrack && Step(s, e).isActive == s.isActive && Step(s, e).isPaused == s.isPaused)
    ensures e == StateChanged(None) ==> Step(s, e) == s
    ensures e.StateChanged? && e.state.Some? ==>
      Step(s, e).currentTrack == Some(e.state.value.currentTrack) && Step(s, e).isPaused == e.state.value.paused
      && Step(s, e).isActive && Step(s, e).deviceId == s.deviceId && Step(s, e).isReady == s.isReady
  {
  }

  /** After any sequence of events from a state where readiness and the
      device id agree (the initial state is one): they still agree, the
      error is unchanged, the player is active exactly when it was already
      or some non-null playback state was reported, and a created player
      stays created. */
  lemma {:induction false} RunInvariants(s: PlayerState, events: seq<PlayerEvent>)
    requires ReadyMatchesDevice(s)
    ensures ReadyMatchesDevice(Run(s, events))
    ensures Run(s, events).error == s.error
    ensures Run(s, events).isActive <==>
      s.isActive || exists i :: 0 <= i < |events| && events[i].StateChanged? && events[i].state.Some?
    ensures s.hasPlayer ==> Run(s, events).hasPlayer
    decreases |events|
  {
    if events != [] {
      var t := Step(s, events[0]);
      RunInvariants(t, events[1..]);
      if Run(s, events).isActive && !s.isActive && !t.isActive {
        var i :| 0 <= i < |events[1..]| && events[1..][i].StateChanged? && events[1..][i].state.Some?;
        assert events[i + 1] == events[1..][i];
      }
    }
  }

  /** The initial state: no device id, not ready, paused and active both false. */
  lemma InitialState()
    ensures Initial.deviceId.None? && !Initial.isReady && !Initial.isPaused && !Initial.isActive
    ensures ReadyMatchesDevice(Initial)
  {
  }

  // ---------------------------------------------------------------------
  // playTrack

  /** The JSON body of a failed play response, which may not parse. */
  datatype ErrorBody = Unparsable | Json(errorMessage: Option<string>)

  /** What became of the play request: `fetch` threw, or a response came. */
  datatype PlayOutcome = Threw | Responded(ok: bool, statusText: string, body: ErrorBody)

  /** The `PUT /v1/me/player/play` request `playTrack` issues. */
  datatype PlayRequest = PlayRequest(url: string, uris: seq<string>)

  const PlayEndpoint := "https://api.spotify.com/v1/me/player/play?device_id="
  const NoDevice := "No device ID available"
  const PlaybackFailed := "Failed to play track. Make sure you have Spotify Premium and the track is available in your region."

  /** The error after `playTrack` with the given outcome. */
  function PlayError(s: PlayerState, outcome: PlayOutcome): (error: Option<string>)
    ensures !Truthy(s.deviceId) ==> error == Some(NoDevice)
    ensures Truthy(s.deviceId) && (outcome.Threw? || (!outcome.ok && outcome.body.Unparsable?)) ==> error == Some(PlaybackFailed)
    ensures Truthy(s.deviceId) && outcome.Responded? && !outcome.ok && outcome.body.Json? ==>
      error == Some("Failed to play track: " + MessageOr(outcome.body.errorMessage, outcome.statusText))
    ensures Truthy(s.deviceId) && outcome.Responded? && outcome.ok ==> error == s.error
  {
    if !Truthy(s.deviceId) then Some(NoDevice)
    else match outcome
      case Threw => Some(PlaybackFailed)
      case Responded(ok, statusText, body) =>
        if ok then s.error
        else match body
          case Unparsable => Some(PlaybackFailed)
          case Json(message) => Some("Failed to play track: " + MessageOr(message, statusText))
  }

  /** The provider's state, updated in place by the handlers. */
  class PlayerProvider {
    var hasPlayer: bool
    var deviceId: Option<string>
    var isActive: bool
    var currentTrack: Option<PlaybackTrack>
    var isPaused: bool
    var isReady: bool
    var error: Option<string>

    function Snapshot(): PlayerState
      reads this
    {
      PlayerState(hasPlayer, deviceId, isActive, currentTrack, isPaused, isReady, error)
    }

    constructor ()
      ensures Snapshot() == Initial
    {
      hasPlayer, deviceId, isActive, currentTrack := false, None, false, None;
      isPaused, isReady, error := false, false, None;
    }

    /** `onSpotifyWebPlaybackSDKReady`: `setPlayer(player)`. */
    method OnSdkReady()
      modifies this
      ensures Snapshot() == Step(old(Snapshot()), SdkReady)
    {
      hasPlayer := true;
    }

    /** The `ready` listener. */
    method OnReady(d: string)
      modifies this
      ensures Snapshot() == Step(old(Snapshot()), Ready(d))
      ensures deviceId == Some(d) && isReady
    {
      deviceId := Some(d);
      isReady := true;
    }

    /** The `not_ready` listener. */
    method OnNotReady()
      modifies this
      ensures Snapshot() == Step(old(Snapshot()), NotReady)
      ensures deviceId.None? && !isReady
    {
      deviceId := None;
      isReady := false;
    }

    /** The `player_state_changed` listener. */
    method OnStateChanged(state: Option<PlaybackState>)
      modifies this
      ensures Snapshot() == Step(old(Snapshot()), StateChanged(state))
    {
      if state.None? {
        return;
      }
      currentTrack := Some(state.value.currentTrack);
      isPaused := state.value.paused;
      isActive := true;
    }

    /** `playTrack(trackUri)`. Without a device id it records the error and
        sends nothing; otherwise it sends one request for exactly this track
        to this device and records the error `outcome` calls for. Only
        `error` changes. */
    method PlayTrack(trackUri: string, outcome: PlayOutcome) returns (request: Option<PlayRequest>)
      modifies this
      ensures request.Some? <==> Truthy(old(deviceId))
      ensures request.Some? ==> request.value == PlayRequest(PlayEndpoint + old(deviceId).value, [trackUri])
      ensures error == PlayError(old(Snapshot()), outcome)
      ensures Snapshot() == old(Snapshot()).(error := error)
    {
      if !Truthy(deviceId) {
        error := Some(NoDevice);
        return None;
      }
      request := Some(PlayRequest(PlayEndpoint + deviceId.value, [trackUri]));
      match outcome {
        case Threw =>
          error := Some(PlaybackFailed);
        case Responded(ok, statusText, body) =>
          if !ok {
            match body {
              case Unparsable => error := Some(PlaybackFailed);
              case Json(message) => error := Some("Failed to play track: " + MessageOr(message, statusText));
            }
          }
      }
    }

    /** `togglePlay`: with no player it does nothing; otherwise it hands the
        toggle to the SDK. No field of the provider changes either way. */
    method TogglePlay() returns (delegated: bool)
      ensures delegated <==> hasPlayer
    {
      delegated := hasPlayer;
    }
  }
}
