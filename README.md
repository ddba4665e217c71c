# Spotify playback provider: a Dafny model

This project models the playback core of mopidy-spotify, the Spotify backend
for the mopidy music server (`mopidy_spotify/playback.py`). The model has four parts:

- `BufferTimestamp` is an integer cell. The backend actor and libspotify's
  callbacks share it.
- The backpressure gate is the `threading.Event` that the audio sink's
  need-data and enough-data callbacks set and clear.
- `SpotifyPlaybackProvider` has the commands `play`, `resume`, `stop` and
  `on_seek_data`.
- The module-level callbacks are registered with the session (music delivery,
  end of track) or with the audio sink (need data, enough data, seek data).
  `music_delivery_callback` is bound to the audio actor, the gate and the
  timestamp, and `end_of_track_callback` to the audio actor alone. The
  need-data and enough-data callbacks are bound to the gate.
  `seek_data_callback` is bound to the backend actor's proxy and only
  forwards to `on_seek_data`.

The model has no threads, locks or actor proxy, and calls happen one after
another. Every call the provider makes on the libspotify session or the mopidy
audio actor is appended to a `trace` of `Call` values. Registering a session
handler with `session.on` is also a call in the trace. A session step that
raises `spotify.Error` is an input: `failAt` for `play`, and `playerRaises` for
the one player call of `resume` and `stop`. `play` catches the error. `resume`
and `stop` do not catch it, so the model returns an `Outcome` in which the
error escapes. The results of the base class's `resume()` and `stop()` are
inputs too.

Files:

- `effects.dfy` (module `Effects`) holds the calls, tracks, session events,
  session steps and the GStreamer caps constant.
- `provider_spec.dfy` (module `ProviderSpec`) holds the provider's state
  `State(gateOpen, timestamp, trace)`. It has one transition function per
  operation, `Apply` for any one command and `Run` for a sequence of commands.
  The contracts of the transition functions state what each operation does and
  leaves alone.
- `playback.dfy` (module `Playback`) holds the classes `BufferTimestamp` and
  `SpotifyPlaybackProvider`. The provider's fields are `gateOpen`, `trace`, the
  `bufferTimestamp` object and the `timeout` constant. Each method's step-by-step
  body is proved to produce the state that the matching `ProviderSpec` function
  gives.
- `run_properties.dfy` (module `RunProperties`) holds lemmas over every sequence
  of commands, proved by induction. They cover handler registration,
  end-of-stream forwarding, the gate, the timestamp, and the order of the audio
  setup.

The model follows the code as written. Some points where the code does less
than its names suggest:

- `music_delivery_callback` is a TODO stub that returns 0
  (mopidy_spotify/playback.py:107-113). It never uses its
  `push_audio_data_event` and `buffer_timestamp` parameters, and it consumes
  no frames. So nothing in the provider ever increases the timestamp, and
  `BufferTimestamp.Increase` is modelled but never called.
- The music-delivery and end-of-track handlers are registered once, in the
  constructor. `play` does not register them again.
- `play` only rejects a track whose URI is `None`. An empty-string URI goes on
  to `get_track`.
- `on_seek_data` is a TODO stub that only logs
  (mopidy_spotify/playback.py:81-84), and seeks nothing.

## Model

| member | source | states |
|---|---|---|
| `Playback.BufferTimestamp.constructor` | mopidy_spotify/playback.py:130-132 | The cell starts at the value it is given. |
| `Playback.BufferTimestamp.Get` | mopidy_spotify/playback.py:134-136 | `get` returns the current value and changes nothing. |
| `Playback.BufferTimestamp.Set` | mopidy_spotify/playback.py:138-140 | After `set(v)` the value is `v`, so a following `get` returns `v`. |
| `Playback.BufferTimestamp.Increase` | mopidy_spotify/playback.py:142-144 | `increase(d)` turns value `x` into `x + d`. |
| `Playback.SpotifyPlaybackProvider.constructor` | mopidy_spotify/playback.py:24-37 | Afterwards the timestamp is 0 and the gate is open. The trace holds exactly two calls: registration of the music-delivery handler, then of the end-of-track handler. |
| `Playback.SpotifyPlaybackProvider.Play` | mopidy_spotify/playback.py:39-71 | The early `uri is None` return, the four session steps that can each raise, the timestamp reset, and the four audio calls produce exactly the state and result of `ProviderSpec.Play`. On failure the timestamp is unchanged. The gate is never changed. |
| `Playback.SpotifyPlaybackProvider.Resume` | mopidy_spotify/playback.py:73-75 | Appends `player.play` to the trace and changes nothing else. If that call raises `spotify.Error`, the error escapes and the base class is not reached. Otherwise it returns the base-class result. |
| `Playback.SpotifyPlaybackProvider.Stop` | mopidy_spotify/playback.py:77-79 | Appends `player.pause` to the trace and changes nothing else. If that call raises `spotify.Error`, the error escapes and the base class is not reached. Otherwise it returns the base-class result. |
| `Playback.SpotifyPlaybackProvider.OnSeekData` | mopidy_spotify/playback.py:81-84 | Changes no state: no gate, timestamp or trace change, in any state. |
| `Playback.SpotifyPlaybackProvider.SeekDataCallback` | mopidy_spotify/playback.py:101-104 | Hands the position unchanged to `OnSeekData` and so changes no state. |
| `Playback.SpotifyPlaybackProvider.NeedDataCallback` | mopidy_spotify/playback.py:87-92 | Acts on this provider's gate, as `ProviderSpec.NeedData` says. |
| `Playback.SpotifyPlaybackProvider.EnoughDataCallback` | mopidy_spotify/playback.py:95-98 | Acts on this provider's gate, as `ProviderSpec.EnoughData` says. |
| `Playback.SpotifyPlaybackProvider.MusicDeliveryCallback` | mopidy_spotify/playback.py:107-113 | Always reports 0 frames consumed. It modifies nothing, so the gate, timestamp and trace are unchanged. |
| `Playback.SpotifyPlaybackProvider.EndOfTrackCallback` | mopidy_spotify/playback.py:116-120 | Appends exactly one `emit_end_of_stream` per call, as `ProviderSpec.EndOfTrack` says. |
| `ProviderSpec.Play` | mopidy_spotify/playback.py:39-71 | Returns true exactly when the URI is present and no session step raised. A `None` URI changes nothing and calls nothing. Success resets the timestamp to 0 and appends the eight calls in order: `get_track(uri)`, `load(timeout)`, `player.load`, `player.play`, `prepare_change`, `set_appsrc(LIBSPOTIFY_GST_CAPS)`, `start_playback`, `set_metadata(track)`. A raising step keeps the timestamp. It appends only a prefix of the session steps, ending with the raising step, and makes no audio call. The gate is never touched and no handler is registered. |
| `ProviderSpec.Resume` | mopidy_spotify/playback.py:73-75 | The outcome is the escaping `spotify.Error` when `player.play()` raises, and the base-class result otherwise. The gate and timestamp are kept. The trace grows by exactly the attempted `player.play`. |
| `ProviderSpec.Stop` | mopidy_spotify/playback.py:77-79 | The outcome is the escaping `spotify.Error` when `player.pause()` raises, and the base-class result otherwise. The gate and timestamp are kept. The trace grows by exactly the attempted `player.pause`, which pauses and does not tear down. |
| `ProviderSpec.NeedData` | mopidy_spotify/playback.py:87-92 | The gate is open afterwards whatever the length hint and the previous gate were. The timestamp and trace are kept. Since the result depends only on the timestamp and trace, the callback is idempotent. |
| `ProviderSpec.EnoughData` | mopidy_spotify/playback.py:95-98 | The gate is closed afterwards. The timestamp and trace are kept. The callback is idempotent. |
| `ProviderSpec.EndOfTrack` | mopidy_spotify/playback.py:116-120 | The gate and timestamp are kept. The trace grows by exactly one `emit_end_of_stream`. |
| `ProviderSpec.Apply` | mopidy_spotify/playback.py:39-120 | Any one command only appends to the trace and never registers a handler. It leaves the gate alone unless it is a gate signal, in which case the gate then says which signal it was. It resets the timestamp exactly when it is a successful `play`. Any command but `play` only drives the player or signals end of stream. Only end of track emits end of stream. |
| `ProviderSpec.Run` | mopidy_spotify/playback.py:22-120 | A sequence of commands only ever appends to the trace. |
| `RunProperties.RunRegistersNothing` | mopidy_spotify/playback.py:39-120 | No sequence of commands registers a session handler. |
| `RunProperties.HandlersRegisteredOnlyAtConstruction` | mopidy_spotify/playback.py:32-37 | Starting from construction, whatever follows, exactly the music-delivery and end-of-track handlers are registered, once each and in that order, at the start of the trace. |
| `RunProperties.EndOfStreamOncePerEndOfTrack` | mopidy_spotify/playback.py:116-120 | The number of end-of-stream signals grows by the number of end-of-track callbacks, so two callbacks give two signals. Nothing else emits one. |
| `RunProperties.GateKeptWithoutSignal` | mopidy_spotify/playback.py:29-30 | Commands other than need/enough data, including every `play`, leave the gate as it was. From construction it stays open. |
| `RunProperties.GateFollowsLastSignal` | mopidy_spotify/playback.py:87-98 | After any sequence, the gate is open exactly when the last need/enough signal was need data. This is why repeated signals are idempotent. |
| `RunProperties.TimestampKeptWithoutSuccessfulPlay` | mopidy_spotify/playback.py:52-58 | Without a successful `play`, the timestamp keeps its value through any sequence. A failed or URI-less `play`, `resume`, `stop`, seek and delivery are all included. |
| `RunProperties.TimestampZeroAfterSuccessfulPlay` | mopidy_spotify/playback.py:58 | After a successful `play`, the timestamp is 0 whatever follows. |
| `RunProperties.WithoutPlayOnlyPlayerControl` | mopidy_spotify/playback.py:73-79 | Without a `play`, no track is fetched or loaded and the sink is not set up again. Only `player.play`, `player.pause` and end-of-stream calls are made. |
| `RunProperties.StopResumeTwice` | mopidy_spotify/playback.py:73-79 | `stop, resume, stop, resume` appends exactly `pause, play, pause, play`, whether or not those player calls raise. It keeps the gate and timestamp and reloads nothing. |
| `RunProperties.RunKeepsAudioSetupOrder` | mopidy_spotify/playback.py:52-66 | Every sequence of commands keeps the order of the audio setup described in the next row. |
| `RunProperties.AudioSetupOnlyAfterLoad` | mopidy_spotify/playback.py:52-66 | Starting from construction, whatever follows, every `set_appsrc` uses `LIBSPOTIFY_GST_CAPS`, and the five calls before it are `get_track(uri)`, `load(timeout)` and `player.load` for that same URI, then `player.play` and `prepare_change`. So the sink's callbacks are set up only after a successful load. |

## Left out

- Threads, `threading.RLock`, `threading.Event` and how they make writes visible across threads. The gate and the timestamp are plain fields, and calls happen one at a time.
- The mopidy actor proxy (`actor_ref.proxy()`) and its message passing. `seek_data_callback` is modelled as a direct call to `on_seek_data`.
- `functools.partial` binding. The need-data and enough-data callbacks are methods of the provider, so they act on the gate created in its constructor. The seek-data callback is a provider method that calls `OnSeekData` directly and acts on nothing. The `set_appsrc` call records only the caps, not the three callbacks passed with them. A `SessionOn(event)` call records only the event. It does not record which listener was registered or its bound arguments (the audio actor, the gate and the timestamp).
- pyspotify and GStreamer internals, including the meaning of the load timeout and of the caps string. Session and audio calls are recorded only as `Call` values. A `spotify.Error` is injected as the `failAt` input.
- Exceptions other than `spotify.Error` from session or audio calls. Nothing in the provider catches them. The model does not raise them.
- Calls on the audio actor raising. They are proxy calls that return futures, and the model treats them as not raising.
- The configuration lookup `self.backend._config['spotify']['timeout']`. The timeout is a constructor parameter.
- The base class `PlaybackProvider` and its `resume()`/`stop()`. Their results are inputs.
- Logging.
- Any delivery algorithm and any seek. In the code both are TODO stubs.
