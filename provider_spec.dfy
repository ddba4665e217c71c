/** The sequential behaviour of the Spotify playback provider, as functions from
    the provider's observable state to its next state. The classes in module
    `Playback` are proved to follow these functions; the lemmas in module
    `RunProperties` state what holds of every sequence of commands. */
module ProviderSpec {
  import opened Effects

  /** Everything the provider's commands and callbacks can change: the
      backpressure gate (open while the audio sink accepts deliveries), the
      value of the buffer timestamp, and every session and audio call made. */
  datatype State = State(gateOpen: bool, timestamp: int, trace: seq<Call>)

  /** A new state together with the value the operation returned. */
  datatype Reply<T> = Reply(state: State, value: T)

  /** The state right after construction: timestamp 0, gate open, and the
      music-delivery and end-of-track handlers registered on the session. */
  function Initial(): State {
    State(true, 0, [SessionOn(MusicDeliveryEvent), SessionOn(EndOfTrackEvent)])
  }

  /** The two session handlers are registered first, in this order, and no
      registration happens after them. */
  predicate RegisteredOnceAtStart(t: seq<Call>) {
    && |t| >= 2
    && t[0] == SessionOn(MusicDeliveryEvent)
    && t[1] == SessionOn(EndOfTrackEvent)
    && forall i :: 2 <= i < |t| ==> !t[i].SessionOn?
  }

  /** The session calls `play` makes for a track with URI `uri`, in order. */
  function SessionCalls(uri: string, timeout: int): seq<Call> {
    [GetTrack(uri), TrackLoad(uri, timeout), PlayerLoad(uri), PlayerPlay]
  }

  /** The audio calls `play` makes once the session has started playing. */
  function AudioCalls(track: Track): seq<Call> {
    [PrepareChange, SetAppsrc(LibspotifyGstCaps), StartPlayback, SetMetadata(track)]
  }

  /** Position of a session step in `SessionCalls`. */
  function StepIndex(step: SessionStep): nat {
    match step
    case GetTrackStep => 0
    case TrackLoadStep => 1
    case PlayerLoadStep => 2
    case PlayerPlayStep => 3
  }

  /** `play(track)`, where `failAt` names the session step, if any, that raises
      `spotify.Error`; the reply's value is what `play` returns. */
  function Play(s: State, timeout: int, track: Track, failAt: Option<SessionStep>): (r: Reply<bool>)
    ensures r.value <==> track.uri.Some? && failAt.None?
    ensures r.state.gateOpen == s.gateOpen
    ensures s.trace <= r.state.trace
    ensures forall i :: |s.trace| <= i < |r.state.trace| ==> !r.state.trace[i].SessionOn?
    // A track without URI: no call at all, nothing changes.
    ensures track.uri.None? ==> r.state == s
    // Success: the timestamp is reset and the eight calls happen in this order.
    ensures r.value ==> r.state.timestamp == 0
    ensures r.value ==> r.state.trace == s.trace + [
      GetTrack(track.uri.value), TrackLoad(track.uri.value, timeout),
      PlayerLoad(track.uri.value), PlayerPlay,
      PrepareChange, SetAppsrc(LibspotifyGstCaps), StartPlayback, SetMetadata(track)]
    // Failure: the timestamp is kept and the audio actor is never called.
    ensures !r.value ==> r.state.timestamp == s.timestamp
    ensures !r.value ==> forall i :: |s.trace| <= i < |r.state.trace| ==> !IsAudioCall(r.state.trace[i])
    // A raising step: the session steps up to and including it were attempted, no more.
    ensures track.uri.Some? && failAt.Some? ==>
      && |r.state.trace| == |s.trace| + StepIndex(failAt.value) + 1
      && r.state.trace[|s.trace|..] <= SessionCalls(track.uri.value, timeout)
  {
    match track.uri
    case None => Reply(s, false)
    case Some(uri) =>
      match failAt
      case Some(step) =>
        Reply(s.(trace := s.trace + SessionCalls(uri, timeout)[..StepIndex(step) + 1]), false)
      case None =>
        Reply(State(s.gateOpen, 0, s.trace + SessionCalls(uri, timeout) + AudioCalls(track)), true)
  }

  /** `resume()`: the session player is asked to play; `playerRaises` says
      whether that call raises `spotify.Error`. Nothing catches it, so it
      escapes and the base class's `resume()` is not reached; otherwise the
      base class's result `baseResult` is returned. */
  function Resume(s: State, playerRaises: bool, baseResult: bool): (r: Reply<Outcome<bool>>)
    ensures r.value == if playerRaises then SpotifyErrorRaised else Returned(baseResult)
    ensures r.state.gateOpen == s.gateOpen && r.state.timestamp == s.timestamp
    ensures |r.state.trace| == |s.trace| + 1 && s.trace <= r.state.trace
    ensures r.state.trace[|s.trace|] == PlayerPlay
  {
    var next := s.(trace := s.trace + [PlayerPlay]);
    if playerRaises then Reply(next, SpotifyErrorRaised) else Reply(next, Returned(baseResult))
  }

  /** `stop()`: the session player is asked to pause (the track stays
      loaded); as in `Resume`, a `spotify.Error` from that call escapes and
      skips the base class's `stop()`. */
  function Stop(s: State, playerRaises: bool, baseResult: bool): (r: Reply<Outcome<bool>>)
    ensures r.value == if playerRaises then SpotifyErrorRaised else Returned(baseResult)
    ensures r.state.gateOpen == s.gateOpen && r.state.timestamp == s.timestamp
    ensures |r.state.trace| == |s.trace| + 1 && s.trace <= r.state.trace
    ensures r.state.trace[|s.trace|] == PlayerPause
  {
    var next := s.(trace := s.trace + [PlayerPause]);
    if playerRaises then Reply(next, SpotifyErrorRaised) else Reply(next, Returned(baseResult))
  }

  /** `need_data_callback`: the sink wants data, deliveries are accepted
      again. The length hint plays no part. */
  function NeedData(s: State, lengthHint: int): (r: State)
    ensures r.gateOpen
    ensures r.timestamp == s.timestamp && r.trace == s.trace
  {
    s.(gateOpen := true)
  }

  /** `enough_data_callback`: the sink is full, deliveries are rejected. */
  function EnoughData(s: State): (r: State)
    ensures !r.gateOpen
    ensures r.timestamp == s.timestamp && r.trace == s.trace
  {
    s.(gateOpen := false)
  }

  /** `end_of_track_callback`: one end-of-stream signal to the audio actor. */
  function EndOfTrack(s: State): (r: State)
    ensures r.gateOpen == s.gateOpen && r.timestamp == s.timestamp
    ensures |r.trace| == |s.trace| + 1 && s.trace <= r.trace
    ensures r.trace[|s.trace|] == EmitEndOfStream
  {
    s.(trace := s.trace + [EmitEndOfStream])
  }

  /** Everything that can happen to a provider after construction: its public
      commands (with the failure point of `play`, whether the player call of
      `resume` or `stop` raises, and the base-class results as inputs) and the callbacks of the audio sink and
      of the session. */
  datatype Command =
    | PlayCmd(track: Track, failAt: Option<SessionStep>)
    | ResumeCmd(playerRaises: bool, baseResume: bool)
    | StopCmd(playerRaises: bool, baseStop: bool)
    | NeedDataCmd(lengthHint: int)
    | EnoughDataCmd
    | SeekDataCmd(timePosition: int)
    | MusicDeliveryCmd(numFrames: int)
    | EndOfTrackCmd

  /** The commands that touch the backpressure gate. */
  predicate IsGateSignal(c: Command) {
    c.NeedDataCmd? || c.EnoughDataCmd?
  }

  /** The commands that reset the buffer timestamp: a `play` that succeeds. */
  predicate ResetsTimestamp(c: Command) {
    c.PlayCmd? && c.track.uri.Some? && c.failAt.None?
  }

  /** The effect of one command. Seeking and music delivery are stubs in the
      provider and change nothing. */
  function Apply(s: State, timeout: int, c: Command): (r: State)
    ensures s.trace <= r.trace
    ensures forall i :: |s.trace| <= i < |r.trace| ==> !r.trace[i].SessionOn?
    ensures IsGateSignal(c) ==> r.gateOpen == c.NeedDataCmd?
    ensures !IsGateSignal(c) ==> r.gateOpen == s.gateOpen
    ensures r.timestamp == if ResetsTimestamp(c) then 0 else s.timestamp
    ensures !c.PlayCmd? ==> forall i :: |s.trace| <= i < |r.trace| ==> IsPlayerControl(r.trace[i])
    ensures c.EndOfTrackCmd? ==> r.trace == s.trace + [EmitEndOfStream]
    ensures !c.EndOfTrackCmd? ==> forall i :: |s.trace| <= i < |r.trace| ==> r.trace[i] != EmitEndOfStream
  {
    match c
    case PlayCmd(track, failAt) =>
      Play(s, timeout, track, failAt).state
    case ResumeCmd(raises, b) => Resume(s, raises, b).state
    case StopCmd(raises, b) => Stop(s, raises, b).state
    case NeedDataCmd(hint) => NeedData(s, hint)
    case EnoughDataCmd => EnoughData(s)
    case SeekDataCmd(_) => s
    case MusicDeliveryCmd(_) => s
    case EndOfTrackCmd => EndOfTrack(s)
  }

  /** The state after the commands `cmds`, applied in order from `s`. */
  function Run(s: State, timeout: int, cmds: seq<Command>): (r: State)
    ensures s.trace <= r.trace
    decreases |cmds|
  {
    if cmds == [] then s
    else Apply(Run(s, timeout, cmds[..|cmds| - 1]), timeout, cmds[|cmds| - 1])
  }
}
