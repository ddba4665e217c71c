/** What holds of every sequence of commands applied to a provider: the
    properties that relate several calls of `play`, `resume`, `stop` and the
    callbacks, each proved by induction on the commands. */
module RunProperties {
  import opened Effects
  import opened ProviderSpec

  /** No command registers a session handler. */
  lemma {:induction false} RunRegistersNothing(s: State, timeout: int, cmds: seq<Command>)
    ensures forall i :: |s.trace| <= i < |Run(s, timeout, cmds).trace| ==>
      !Run(s, timeout, cmds).trace[i].SessionOn?
    decreases |cmds|
  {
    if cmds != [] {
      var p := Run(s, timeout, cmds[..|cmds| - 1]);
      RunRegistersNothing(s, timeout, cmds[..|cmds| - 1]);
      var r := Apply(p, timeout, cmds[|cmds| - 1]);
      forall i | |s.trace| <= i < |r.trace| ensures !r.trace[i].SessionOn? {
        if i < |p.trace| {
          assert r.trace[i] == p.trace[i];
        }
      }
    }
  }

  /** Whatever happens after construction, exactly the music-delivery and the
      end-of-track handlers are registered, once each, by the constructor. */
  lemma {:induction false} HandlersRegisteredOnlyAtConstruction(timeout: int, cmds: seq<Command>)
    ensures RegisteredOnceAtStart(Run(Initial(), timeout, cmds).trace)
  {
    RunRegistersNothing(Initial(), timeout, cmds);
  }

  /** Every end-of-track callback emits exactly one end-of-stream signal, and
      nothing else emits one: duplicates are forwarded, not merged. */
  lemma {:induction false} EndOfStreamOncePerEndOfTrack(s: State, timeout: int, cmds: seq<Command>)
    ensures multiset(Run(s, timeout, cmds).trace)[EmitEndOfStream]
         == multiset(s.trace)[EmitEndOfStream] + multiset(cmds)[EndOfTrackCmd]
    decreases |cmds|
  {
    if cmds != [] {
      var init, c := cmds[..|cmds| - 1], cmds[|cmds| - 1];
      EndOfStreamOncePerEndOfTrack(s, timeout, init);
      assert cmds == init + [c];
      var p := Run(s, timeout, init);
      var r := Apply(p, timeout, c);
      var added := r.trace[|p.trace|..];
      assert r.trace == p.trace + added;
      if !c.EndOfTrackCmd? {
        assert EmitEndOfStream !in added;
      }
    }
  }

  /** Commands other than need/enough-data leave the gate as it was. */
  lemma {:induction false} GateKeptWithoutSignal(s: State, timeout: int, cmds: seq<Command>)
    requires forall j :: 0 <= j < |cmds| ==> !IsGateSignal(cmds[j])
    ensures Run(s, timeout, cmds).gateOpen == s.gateOpen
    decreases |cmds|
  {
    if cmds != [] {
      GateKeptWithoutSignal(s, timeout, cmds[..|cmds| - 1]);
    }
  }

  /** The gate is open exactly when the last gate signal was need-data. */
  lemma {:induction false} GateFollowsLastSignal(s: State, timeout: int, cmds: seq<Command>, k: nat)
    requires k < |cmds| && IsGateSignal(cmds[k])
    requires forall j :: k < j < |cmds| ==> !IsGateSignal(cmds[j])
    ensures Run(s, timeout, cmds).gateOpen == cmds[k].NeedDataCmd?
    decreases |cmds|
  {
    if k < |cmds| - 1 {
      GateFollowsLastSignal(s, timeout, cmds[..|cmds| - 1], k);
    }
  }

  /** Only a successful `play` resets the buffer timestamp; nothing else in
      the provider changes it. */
  lemma {:induction false} TimestampKeptWithoutSuccessfulPlay(s: State, timeout: int, cmds: seq<Command>)
    requires forall j :: 0 <= j < |cmds| ==> !ResetsTimestamp(cmds[j])
    ensures Run(s, timeout, cmds).timestamp == s.timestamp
    decreases |cmds|
  {
    if cmds != [] {
      TimestampKeptWithoutSuccessfulPlay(s, timeout, cmds[..|cmds| - 1]);
    }
  }

  /** After a successful `play` the timestamp stays 0 whatever follows. */
  lemma {:induction false} TimestampZeroAfterSuccessfulPlay(s: State, timeout: int, cmds: seq<Command>, k: nat)
    requires k < |cmds| && ResetsTimestamp(cmds[k])
    ensures Run(s, timeout, cmds).timestamp == 0
    decreases |cmds|
  {
    if k < |cmds| - 1 {
      TimestampZeroAfterSuccessfulPlay(s, timeout, cmds[..|cmds| - 1], k);
    }
  }

  /** Without a `play`, the session is never asked for or to load a track and
      the audio sink is never set up again: only the player is driven. */
  lemma {:induction false} WithoutPlayOnlyPlayerControl(s: State, timeout: int, cmds: seq<Command>)
    requires forall j :: 0 <= j < |cmds| ==> !cmds[j].PlayCmd?
    ensures forall i :: |s.trace| <= i < |Run(s, timeout, cmds).trace| ==>
      IsPlayerControl(Run(s, timeout, cmds).trace[i])
    decreases |cmds|
  {
    if cmds != [] {
      var p := Run(s, timeout, cmds[..|cmds| - 1]);
      WithoutPlayOnlyPlayerControl(s, timeout, cmds[..|cmds| - 1]);
      var r := Apply(p, timeout, cmds[|cmds| - 1]);
      forall i | |s.trace| <= i < |r.trace| ensures IsPlayerControl(r.trace[i]) {
        if i < |p.trace| {
          assert r.trace[i] == p.trace[i];
        }
      }
    }
  }

  /** Stopping and resuming twice pauses and plays the session player twice,
      without loading anything and without touching the gate or the timestamp,
      whether or not those player calls raise. */
  lemma StopResumeTwice(s: State, timeout: int, e1: bool, b1: bool, e2: bool, b2: bool,
                        e3: bool, b3: bool, e4: bool, b4: bool)
    ensures Run(s, timeout, [StopCmd(e1, b1), ResumeCmd(e2, b2), StopCmd(e3, b3), ResumeCmd(e4, b4)])
         == s.(trace := s.trace + [PlayerPause, PlayerPlay, PlayerPause, PlayerPlay])
  {
    var c1 := [StopCmd(e1, b1)];
    var c2 := [StopCmd(e1, b1), ResumeCmd(e2, b2)];
    var c3 := [StopCmd(e1, b1), ResumeCmd(e2, b2), StopCmd(e3, b3)];
    var c4 := [StopCmd(e1, b1), ResumeCmd(e2, b2), StopCmd(e3, b3), ResumeCmd(e4, b4)];
    assert c1[..0] == [] && c2[..1] == c1 && c3[..2] == c2 && c4[..3] == c3;
    var t1 := s.(trace := s.trace + [PlayerPause]);
    var t2 := t1.(trace := t1.trace + [PlayerPlay]);
    var t3 := t2.(trace := t2.trace + [PlayerPause]);
    var t4 := t3.(trace := t3.trace + [PlayerPlay]);
    assert Run(s, timeout, c1) == t1 by {
      assert Run(s, timeout, c1) == Apply(s, timeout, StopCmd(e1, b1));
    }
    assert Run(s, timeout, c2) == t2 by {
      assert Run(s, timeout, c2) == Apply(t1, timeout, ResumeCmd(e2, b2));
    }
    assert Run(s, timeout, c3) == t3 by {
      assert Run(s, timeout, c3) == Apply(t2, timeout, StopCmd(e3, b3));
    }
    assert Run(s, timeout, c4) == t4 by {
      assert Run(s, timeout, c4) == Apply(t3, timeout, ResumeCmd(e4, b4));
    }
    assert t4.trace == s.trace + [PlayerPause, PlayerPlay, PlayerPause, PlayerPlay];
  }

  /** The audio sink's source (and with it the need/enough/seek callbacks) is
      only ever set up right after the session got, loaded, and started
      playing a track, and always with the libspotify caps. */
  predicate AudioSetupFollowsLoad(t: seq<Call>, timeout: int) {
    forall i :: 0 <= i < |t| && t[i].SetAppsrc? ==>
      && 5 <= i
      && t[i] == SetAppsrc(LibspotifyGstCaps)
      && t[i - 5].GetTrack?
      && t[i - 4] == TrackLoad(t[i - 5].uri, timeout)
      && t[i - 3] == PlayerLoad(t[i - 5].uri)
      && t[i - 2] == PlayerPlay
      && t[i - 1] == PrepareChange
  }

  /** Calls that set up no audio source keep the order. */
  lemma KeepsAudioSetupOrderWithoutSetup(t: seq<Call>, t': seq<Call>, timeout: int)
    requires AudioSetupFollowsLoad(t, timeout) && t <= t'
    requires forall i :: |t| <= i < |t'| ==> !t'[i].SetAppsrc?
    ensures AudioSetupFollowsLoad(t', timeout)
  {
  }

  /** The calls of a successful `play` keep the order. */
  lemma KeepsAudioSetupOrderOnSuccess(t: seq<Call>, timeout: int, track: Track, u: string)
    requires AudioSetupFollowsLoad(t, timeout)
    ensures AudioSetupFollowsLoad(t + [
      GetTrack(u), TrackLoad(u, timeout), PlayerLoad(u), PlayerPlay,
      PrepareChange, SetAppsrc(LibspotifyGstCaps), StartPlayback, SetMetadata(track)], timeout)
  {
    var t' := t + [
      GetTrack(u), TrackLoad(u, timeout), PlayerLoad(u), PlayerPlay,
      PrepareChange, SetAppsrc(LibspotifyGstCaps), StartPlayback, SetMetadata(track)];
    var n := |t|;
    forall i | 0 <= i < |t'| && t'[i].SetAppsrc?
      ensures 5 <= i && t'[i] == SetAppsrc(LibspotifyGstCaps) && t'[i - 5].GetTrack?
      ensures t'[i - 4] == TrackLoad(t'[i - 5].uri, timeout) && t'[i - 3] == PlayerLoad(t'[i - 5].uri)
      ensures t'[i - 2] == PlayerPlay && t'[i - 1] == PrepareChange
    {
      if i < n {
        assert t'[i] == t[i];
        assert t'[i - 5] == t[i - 5] && t'[i - 4] == t[i - 4] && t'[i - 3] == t[i - 3];
        assert t'[i - 2] == t[i - 2] && t'[i - 1] == t[i - 1];
      } else {
        assert i == n + 5;
      }
    }
  }

  lemma ApplyKeepsAudioSetupOrder(s: State, timeout: int, c: Command)
    requires AudioSetupFollowsLoad(s.trace, timeout)
    ensures AudioSetupFollowsLoad(Apply(s, timeout, c).trace, timeout)
  {
    var r := Apply(s, timeout, c);
    if ResetsTimestamp(c) {
      KeepsAudioSetupOrderOnSuccess(s.trace, timeout, c.track, c.track.uri.value);
    } else {
      if c.PlayCmd? {
        assert !Play(s, timeout, c.track, c.failAt).value;
      }
      KeepsAudioSetupOrderWithoutSetup(s.trace, r.trace, timeout);
    }
  }

  /** Every command keeps the audio setup in order. */
  lemma {:induction false} RunKeepsAudioSetupOrder(s: State, timeout: int, cmds: seq<Command>)
    requires AudioSetupFollowsLoad(s.trace, timeout)
    ensures AudioSetupFollowsLoad(Run(s, timeout, cmds).trace, timeout)
    decreases |cmds|
  {
    if cmds != [] {
      RunKeepsAudioSetupOrder(s, timeout, cmds[..|cmds| - 1]);
      ApplyKeepsAudioSetupOrder(Run(s, timeout, cmds[..|cmds| - 1]), timeout, cmds[|cmds| - 1]);
    }
  }

  /** In every run from construction the sink is set up only after a load. */
  lemma {:induction false} AudioSetupOnlyAfterLoad(timeout: int, cmds: seq<Command>)
    ensures AudioSetupFollowsLoad(Run(Initial(), timeout, cmds).trace, timeout)
  {
    RunKeepsAudioSetupOrder(Initial(), timeout, cmds);
  }
}
