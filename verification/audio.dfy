/**
 * The mute actuator: find the player's audio session among the sessions of
 * the OS mixer and set its mute flag, verifying the write and retrying once.
 */
module Audio {
  import opened Wrappers

  /** The process image name of the player. */
  const SPOTIFY_IMAGE := "Spotify.exe"

  /**
   * The process behind an audio session: none (system sounds), one whose
   * image name can be read, or one whose name query raises.
   */
  datatype Process = NoProcess | Named(name: string) | Unreadable

  /** An OS audio session with its own mute flag. */
  class AudioSession {
    const process: Process
    var muted: bool

    constructor (process: Process, muted: bool)
      ensures this.process == process && this.muted == muted
    {
      this.process := process;
      this.muted := muted;
    }

    method GetMute() returns (m: bool)
      ensures m == muted
    {
      m := muted;
    }

    /** A mute write; `takes` says whether the audio service honours it. */
    method SetMute(mute: bool, takes: bool)
      modifies this
      ensures muted == if takes then mute else old(muted)
    {
      if takes {
        muted := mute;
      }
    }
  }

  /** A session whose process name can be read and is exactly the player's. */
  predicate IsSpotify(s: AudioSession) {
    s.process == Named(SPOTIFY_IMAGE)
  }

  predicate NoSpotify(sessions: seq<AudioSession>) {
    forall i :: 0 <= i < |sessions| ==> !IsSpotify(sessions[i])
  }

  /** Index `i` holds the first player session of `sessions`. */
  predicate FirstSpotifyAt(sessions: seq<AudioSession>, i: int) {
    0 <= i < |sessions| && IsSpotify(sessions[i]) &&
    forall j :: 0 <= j < i ==> !IsSpotify(sessions[j])
  }

  /**
   * `get_spotify_session`: the first session of the player, skipping
   * sessions without a process or whose name cannot be read.
   */
  method GetSpotifySession(sessions: seq<AudioSession>) returns (found: Option<AudioSession>)
    ensures found.None? <==> NoSpotify(sessions)
    ensures found.Some? ==> exists i :: FirstSpotifyAt(sessions, i) && sessions[i] == found.value
  {
    for i := 0 to |sessions|
      invariant forall j :: 0 <= j < i ==> !IsSpotify(sessions[j])
    {
      if IsSpotify(sessions[i]) {
        assert FirstSpotifyAt(sessions, i);
        return Some(sessions[i]);
      }
    }
    return None;
  }

  /**
   * `mute_spotify`: with the player's session found, write the flag only
   * when it differs, then read it back and write once more if the first
   * write did not take. Returns how many writes were made.
   */
  method MuteSpotify(sessions: seq<AudioSession>, mute: bool, firstWriteTakes: bool, retryTakes: bool)
    returns (writes: nat)
    modifies set s | s in sessions
    ensures writes <= 2
    ensures NoSpotify(sessions) ==>
      writes == 0 && forall s :: s in sessions ==> s.muted == old(s.muted)
    ensures forall i :: FirstSpotifyAt(sessions, i) ==>
      && (old(sessions[i].muted) == mute ==> writes == 0 && sessions[i].muted == mute)
      && (old(sessions[i].muted) != mute ==>
            && writes == (if firstWriteTakes then 1 else 2)
            && sessions[i].muted == if firstWriteTakes || retryTakes then mute else old(sessions[i].muted))
      && forall s :: s in sessions && s != sessions[i] ==> s.muted == old(s.muted)
  {
    writes := 0;
    var found := GetSpotifySession(sessions);
    match found {
      case None =>
      case Some(session) =>
        var current := session.GetMute();
        if current != mute {
          session.SetMute(mute, firstWriteTakes);
          writes := 1;
        }
        var check := session.GetMute();
        if check != mute {
          session.SetMute(mute, retryTakes);
          writes := writes + 1;
        }
    }
  }

  /** Whenever the player has a session, one of them is the first. */
  lemma {:induction false} FirstSpotifyExists(sessions: seq<AudioSession>)
    requires !NoSpotify(sessions)
    ensures exists i :: FirstSpotifyAt(sessions, i)
  {
    var init := sessions[..|sessions| - 1];
    if NoSpotify(init) {
      assert FirstSpotifyAt(sessions, |sessions| - 1);
    } else {
      FirstSpotifyExists(init);
      var i :| FirstSpotifyAt(init, i);
      assert FirstSpotifyAt(sessions, i);
    }
  }

  /**
   * Muting twice in a row: once the first call's writes have taken, the
   * second call writes nothing, whatever the audio service would do with
   * its writes, and the sessions end as after the first call alone.
   */
  method MuteTwice(sessions: seq<AudioSession>, mute: bool,
                   firstWriteTakes: bool, retryTakes: bool, againFirstTakes: bool, againRetryTakes: bool)
    returns (first: nat, second: nat)
    requires firstWriteTakes || retryTakes
    modifies set s | s in sessions
    ensures first <= 2 && second == 0
    ensures NoSpotify(sessions) ==> forall s :: s in sessions ==> s.muted == old(s.muted)
    ensures forall i :: FirstSpotifyAt(sessions, i) ==>
      && sessions[i].muted == mute
      && forall s :: s in sessions && s != sessions[i] ==> s.muted == old(s.muted)
  {
    first := MuteSpotify(sessions, mute, firstWriteTakes, retryTakes);
    if !NoSpotify(sessions) {
      FirstSpotifyExists(sessions);
    }
    second := MuteSpotify(sessions, mute, againFirstTakes, againRetryTakes);
  }
}
