/** The values the Spotify playback provider exchanges with its collaborators:
    the libspotify session (with its player) and the mopidy audio actor.
    Every call the provider makes on either of them is recorded as a `Call`. */
module Effects {

  datatype Option<T> = None | Some(value: T)

  /** How a provider command ends when nothing catches a `spotify.Error`:
      it returns a value, or the error escapes to the caller. */
  datatype Outcome<T> = Returned(value: T) | SpotifyErrorRaised

  /** A mopidy track. The playback core only looks at its URI, which may be
      missing; the whole value is handed on to the audio actor as metadata. */
  datatype Track = Track(uri: Option<string>)

  /** The two session events the provider subscribes to. */
  datatype SessionEvent = MusicDeliveryEvent | EndOfTrackEvent

  /** The four session operations inside `play` that can raise `spotify.Error`,
      in the order `play` performs them. */
  datatype SessionStep = GetTrackStep | TrackLoadStep | PlayerLoadStep | PlayerPlayStep

  /** One call on the session (`SessionOn` to `PlayerPause`) or on the audio
      actor (`PrepareChange` to `EmitEndOfStream`). The libspotify track object
      returned by `get_track(uri)` is identified by that URI. */
  datatype Call =
    | SessionOn(event: SessionEvent)
    | GetTrack(uri: string)
    | TrackLoad(uri: string, timeout: int)
    | PlayerLoad(uri: string)
    | PlayerPlay
    | PlayerPause
    | PrepareChange
    | SetAppsrc(caps: string)
    | StartPlayback
    | SetMetadata(track: Track)
    | EmitEndOfStream

  /** The GStreamer caps describing the audio libspotify delivers; an opaque
      constant to this model. */
  const LibspotifyGstCaps: string :=
    "audio/x-raw-int, endianness=(int)1234, channels=(int)2, "
    + "width=(int)16, depth=(int)16, signed=(boolean)true, "
    + "rate=(int)44100"

  /** Calls made on the mopidy audio actor. */
  predicate IsAudioCall(c: Call) {
    c.PrepareChange? || c.SetAppsrc? || c.StartPlayback? || c.SetMetadata? || c.EmitEndOfStream?
  }

  /** Calls that only drive an already loaded track: the session player's
      play/pause and the end-of-stream signal. */
  predicate IsPlayerControl(c: Call) {
    c.PlayerPlay? || c.PlayerPause? || c.EmitEndOfStream?
  }
}
