/** The Spotify playback provider as the objects it is made of: the buffer
    timestamp cell, and the provider that owns it together with the
    backpressure gate and drives the session and the audio actor. Every
    session and audio call is appended to the provider's `trace`. */
module Playback {
  import opened Effects
  import Spec = ProviderSpec

  /** An integer cell shared by the backend actor and the libspotify
      callbacks (the lock that serialises them is not modelled). Python
      integers are unbounded, and so is `value`. */
  class BufferTimestamp {
    var value: int

    constructor (value: int)
      ensures this.value == value
    {
      this.value := value;
    }

    method Get() returns (v: int)
      ensures v == value
    {
      v := value;
    }

    method Set(v: int)
      modifies this
      ensures value == v
    {
      value := v;
    }

    method Increase(delta: int)
      modifies this
      ensures value == old(value) + delta
    {
      value := value + delta;
    }
  }

  class SpotifyPlaybackProvider {
    /** The load timeout read from the `spotify` configuration at construction. */
    const timeout: int
    const bufferTimestamp: BufferTimestamp
    /** The `threading.Event` the need/enough-data callbacks set and clear. */
    var gateOpen: bool
    var trace: seq<Call>

    /** The provider's state as the functions of `ProviderSpec` see it. */
    function Snapshot(): Spec.State
      reads this, bufferTimestamp
    {
      Spec.State(gateOpen, bufferTimestamp.value, trace)
    }

    /** `__init__`: a zero timestamp, an open gate, and the music-delivery and
        end-of-track handlers registered on the session, once. */
    constructor (timeout: int)
      ensures this.timeout == timeout && fresh(bufferTimestamp)
      ensures gateOpen && bufferTimestamp.value == 0
      ensures Spec.RegisteredOnceAtStart(trace) && |trace| == 2
      ensures Snapshot() == Spec.Initial()
    {
      this.timeout := timeout;
      bufferTimestamp := new BufferTimestamp(0);
      gateOpen := true;
      trace := [];
      new;
      trace := trace + [SessionOn(MusicDeliveryEvent)];
      trace := trace + [SessionOn(EndOfTrackEvent)];
    }

    /** `play(track)`. `failAt` names the session step, if any, that raises
        `spotify.Error`; the error is caught and `play` returns false. */
    method Play(track: Track, failAt: Option<SessionStep>) returns (ok: bool)
      modifies this, bufferTimestamp
      ensures Snapshot() == Spec.Play(old(Snapshot()), timeout, track, failAt).state
      ensures ok == Spec.Play(old(Snapshot()), timeout, track, failAt).value
      ensures !ok ==> bufferTimestamp.value == old(bufferTimestamp.value)
      ensures gateOpen == old(gateOpen)
    {
      if track.uri.None? {
        return false;
      }
      var uri := track.uri.value;
      trace := trace + [GetTrack(uri)];
      if failAt == Some(GetTrackStep) {
        return false;
      }
      trace := trace + [TrackLoad(uri, timeout)];
      if failAt == Some(TrackLoadStep) {
        return false;
      }
      trace := trace + [PlayerLoad(uri)];
      if failAt == Some(PlayerLoadStep) {
        return false;
      }
      trace := trace + [PlayerPlay];
      if failAt == Some(PlayerPlayStep) {
        return false;
      }
      bufferTimestamp.Set(0);
      trace := trace + [PrepareChange];
      trace := trace + [SetAppsrc(LibspotifyGstCaps)];
      trace := trace + [StartPlayback];
      trace := trace + [SetMetadata(track)];
      return true;
    }

    /** `resume()`. `playerRaises` says whether `player.play()` raises
        `spotify.Error`; nothing catches it, so it escapes before the base
        class's `resume()`, whose result is `baseResume`. */
    method Resume(playerRaises: bool, baseResume: bool) returns (r: Outcome<bool>)
      modifies this
      ensures Snapshot() == Spec.Resume(old(Snapshot()), playerRaises, baseResume).state
      ensures r == Spec.Resume(old(Snapshot()), playerRaises, baseResume).value
      ensures r == if playerRaises then SpotifyErrorRaised else Returned(baseResume)
    {
      trace := trace + [PlayerPlay];
      if playerRaises {
        return SpotifyErrorRaised;
      }
      r := Returned(baseResume);
    }

    /** `stop()`: a pause, not a teardown. `playerRaises` says whether
        `player.pause()` raises `spotify.Error`, which escapes before the
        base class's `stop()`, whose result is `baseStop`. */
    method Stop(playerRaises: bool, baseStop: bool) returns (r: Outcome<bool>)
      modifies this
      ensures Snapshot() == Spec.Stop(old(Snapshot()), playerRaises, baseStop).state
      ensures r == Spec.Stop(old(Snapshot()), playerRaises, baseStop).value
      ensures r == if playerRaises then SpotifyErrorRaised else Returned(baseStop)
    {
      trace := trace + [PlayerPause];
      if playerRaises {
        return SpotifyErrorRaised;
      }
      r := Returned(baseStop);
    }

    /** `on_seek_data`: seeking is not implemented; nothing changes. */
    method OnSeekData(timePosition: int)
      ensures Snapshot() == old(Snapshot())
    {
    }

    /** `seek_data_callback` bound to this provider: forwards the position,
        unchanged, to `OnSeekData`. */
    method SeekDataCallback(timePosition: int)
      ensures Snapshot() == old(Snapshot())
    {
      OnSeekData(timePosition);
    }

    /** `need_data_callback` bound to this provider's gate. */
    method NeedDataCallback(lengthHint: int)
      modifies this
      ensures Snapshot() == Spec.NeedData(old(Snapshot()), lengthHint)
    {
      gateOpen := true;
    }

    /** `enough_data_callback` bound to this provider's gate. */
    method EnoughDataCallback()
      modifies this
      ensures Snapshot() == Spec.EnoughData(old(Snapshot()))
    {
      gateOpen := false;
    }

    /** `music_delivery_callback` as registered by the constructor: a stub
        that accepts no frames and touches neither the gate nor the
        timestamp nor anything else. */
    method MusicDeliveryCallback(audioFormat: string, frames: seq<bv8>, numFrames: int) returns (consumed: int)
      ensures consumed == 0
    {
      consumed := 0;
    }

    /** `end_of_track_callback` as registered by the constructor: one
        end-of-stream signal to the audio actor per call. */
    method EndOfTrackCallback()
      modifies this
      ensures Snapshot() == Spec.EndOfTrack(old(Snapshot()))
    {
      trace := trace + [EmitEndOfStream];
    }
  }
}
