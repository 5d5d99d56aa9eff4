# Mute-Spotify-Ads, modelled in Dafny

A model of the decision logic of `Mute-Spotify-Ads.py`. The script polls the
Spotify Web API for what is playing. It decides whether an advertisement is
playing and mutes or unmutes the Spotify audio session. After three loop
failures in a row it restarts the player.

The model has four modules:

- `wrappers.dfy`: `Option`, which stands for Python's `None`-or-value.
- `playback.dfy` (pure): `get_current_track`, `is_ad_playing` and `check_for_ads`.
  - The two API calls arrive as `Reply` values: the call raised, or it returned a response or `None`.
  - A response is `EmptyDict` or a non-empty `Dict`. This keeps Python's truthiness of `{}` visible.
  - The `duration_ms` and `artists` keys of an item are absent, `null` or present. A `null` value makes the source raise, so the result is no record.
  - A track length is the exact real `duration_ms / 1000`.
- `audio.dfy` (imperative): the mixer's audio sessions.
  - An `AudioSession` object has a fixed `process` and a mutable `muted` flag.
  - `get_spotify_session` is a first-match `for` loop.
  - `mute_spotify` reads the flag and writes only if it differs. It then reads back and retries once.
  - Each write carries a flag saying whether the audio service honours it, so the retry branch can be reached. The loop takes these flags per iteration.
  - The actuator returns how many `SetMute` writes it made.
- `loop.dfy`: one iteration of the `while True` body of `monitor_spotify`.
  - `Step` is a transition of the loop variables `(is_muted, consecutive_errors, last_check_time)`. It also yields the outward events: token refresh, playback query, mute request and player restart.
  - An iteration gets its inputs as parameters: the clock reading, whether the body raises, the token, the two API replies and the audio service's write behaviour.
  - The `Monitor` class holds the loop variables as fields. Its `Iterate` method performs the body and is proved to follow `Step`.
  - `Run` folds `Step` over a finite sequence of iterations. The lemmas about runs replace the infinite loop.

## Model

| member | source | states |
|---|---|---|
| `Playback.ArtistNames` | Mute-Spotify-Ads.py:128 | the artist names in order, one per entry; no list exactly when some entry lacks a name (the subscript raises) |
| `Playback.JoinEmpty` | Mute-Spotify-Ads.py:128 | the `', '`-joined artist string is empty iff there are no artists or a single artist with an empty name |
| `Playback.GetCurrentTrack` | Mute-Spotify-Ads.py:77-134 | a raised call or two `None` responses give no record; an `'ad'` type in "currently playing" gives the fixed advertisement record with `is_playing` true; every ad record is name `Advertisement`, length 0, empty artist; `is_playing` comes from the chosen source, defaulting to false; when the chosen source has an item and is not typed `'ad'`, a record exists exactly when the duration is not `null` and the artist names can be read, and it is not flagged as an ad; a non-ad record has the chosen item's name (default `Unknown`), its `duration_ms / 1000` (default 0) and the joined artist names |
| `Playback.CurrentPreferred` | Mute-Spotify-Ads.py:92-112 | when "currently playing" is a non-empty object, the "playback" response cannot change the result |
| `Playback.NoPlaybackNoTrack` | Mute-Spotify-Ads.py:114-134 | when neither response is truthy (`None` or `{}`), the result is no record |
| `Playback.MissingItemIsAd` | Mute-Spotify-Ads.py:114-123 | a missing item with some truthy response gives the advertisement record carrying the chosen source's `is_playing`, and is classified as an ad |
| `Playback.IsAdPlaying` | Mute-Spotify-Ads.py:137-156 | no record is not an ad; a record flagged as an ad is an ad; an empty artist is an ad; otherwise a record is an ad exactly when shorter than 30 seconds |
| `Playback.ClassifierBoundaries` | Mute-Spotify-Ads.py:137-156 | no record is not an ad; the explicit flag is an ad whatever the length; 29 s is an ad; 30 s with an artist is not; an empty artist is an ad |
| `Playback.CheckForAds` | Mute-Spotify-Ads.py:159-167 | a raised API call never counts as an ad, and an ad verdict always comes with a track record |
| `Playback.TrackVerdict` | Mute-Spotify-Ads.py:125-153 | for a real item the verdict is, on the raw response: `duration_ms < 30000` (an absent duration counts as 0) or an artist list that is empty or one empty name |
| `Playback.MalformedItemIsNoAd` | Mute-Spotify-Ads.py:125-167 | a `null` duration, a `null` artist list or an artist entry without a name makes the inspector raise and report nothing, so the verdict is "no ad" |
| `Audio.GetSpotifySession` | Mute-Spotify-Ads.py:170-179 | returns the first session whose process name is exactly `Spotify.exe`, skipping sessions without a process or with an unreadable name; returns nothing iff no session matches |
| `Audio.MuteSpotify` | Mute-Spotify-Ads.py:182-202 | with no player session nothing changes and nothing is written; otherwise the flag is written only when it differed, at most twice, and ends equal to the request once a write takes; no other session changes |
| `Audio.MuteTwice` | Mute-Spotify-Ads.py:182-202 | a second identical call makes no write, whatever the audio service would do with its writes, once the first call's writes took; the sessions end as after one call |
| `Loop.MuteCommand` | Mute-Spotify-Ads.py:251-263 | a mute or unmute is requested only in an iteration that checks for ads, only when the verdict differs from `is_muted`, and it requests the verdict |
| `Loop.Step` | Mute-Spotify-Ads.py:234-281 | a throttled iteration (less than 1 s since the last check) or one without a token leaves the loop variables unchanged, and a throttled one does nothing outward; a checked iteration sets `is_muted` to the verdict, the counter to 0 and `last_check_time` to now; a failing one counts the error and restarts the player exactly when the count reaches 3; the counter stays below 3 |
| `Loop.StepMutes` | Mute-Spotify-Ads.py:254-263 | an iteration emits at most one mute request, exactly the mute command, and `is_muted` becomes it |
| `Loop.FaultStep` | Mute-Spotify-Ads.py:271-281 | a failing iteration changes only the counter, restarts once at the threshold and requests no mute change |
| `Loop.RunKeepsErrorBudget` | Mute-Spotify-Ads.py:271-281 | in any finite run the counter stays within 0..2 between iterations |
| `Loop.FaultRun` | Mute-Spotify-Ads.py:271-281 | `k` failing iterations from counter `e` restart the player `r` times and leave counter `c` with `3r + c = e + k` and `c < 3` (so `c = (e + k) mod 3`, `r = (e + k) div 3`), changing nothing else |
| `Loop.ThreeFaultsRestartOnce` | Mute-Spotify-Ads.py:273-278 | three failures in a row from a clean counter restart the player exactly once and reset the counter |
| `Loop.FewFaultsNoRestart` | Mute-Spotify-Ads.py:273-281 | fewer than three failures from a clean counter do not restart the player |
| `Loop.MuteRequestsAlternate` | Mute-Spotify-Ads.py:226-263 | from the loop's start, mute and unmute requests strictly alternate beginning with a mute, and `is_muted` equals the last request (false before any) |
| `Loop.ThrottleAfterCheck` | Mute-Spotify-Ads.py:236-266 | an iteration less than a second after a completed check, if it does not raise, changes nothing and contacts no API |
| `Loop.Monitor.constructor` | Mute-Spotify-Ads.py:226-229 | the loop starts unmuted, with no errors and last check time 0 |
| `Loop.Monitor.Iterate` | Mute-Spotify-Ads.py:234-281 | one iteration changes the loop variables as `Step` does and logs its events; without a mute request or a player session no session changes; with a request, the first player session ends in the requested state when a write takes and keeps its flag otherwise, and no other session changes |
| `Loop.Monitor.RunIterations` | Mute-Spotify-Ads.py:234-281 | a finite prefix of the loop follows `Run` and keeps the counter below 3; a run that requests no mute change leaves every session's flag alone |

## Left out

- `initialize_spotify` and `refresh_token` (OAuth flows, the token cache file and environment variables) are left out. The token that `refresh_token` returns is an input of each iteration. `None` and the empty string both count as no token.
- The spotipy HTTP calls `currently_playing` and `current_playback` are left out. Their outcomes are the `Reply` inputs. Values of unexpected types (a non-object item, a non-boolean `is_playing`) are not modelled.
- `currently_playing_type` and `item` read with a bare `.get` give `None` for an absent key and for `null` alike, and the model does not tell these apart.
- Playback.GetCurrentTrack: a `null` item `name` is taken as absent, so the record's name is `Unknown` where the source puts `None`. A `null` `is_playing` is taken as absent, so it becomes false where the source puts `None`. Neither changes the ad verdict, because the classifier reads only the flag, the length and the artist.
- Playback.ArtistNames: an artist entry whose `name` is `null` is treated like one without the key. In the source the first raises `TypeError` in the join and the second raises `KeyError`. Both end in no record.
- pycaw session enumeration is replaced by a sequence of `AudioSession` objects. An enumeration that raises is not modelled. In the source it is swallowed by `mute_spotify`'s handler and changes nothing.
- Audio.MuteSpotify: a `GetMute` or `SetMute` call that raises is not modelled. In the source the handler at line 201 swallows it, possibly after one write has taken effect.
- `restart_spotify` is process control and is left out. Each restart is logged as a `RestartPlayer` event.
- `time.time()` and every `time.sleep` are left out. The clock reading is a real-valued parameter.
- All `print` logging is left out.
- The `while True` loop never ends. Only finite runs are modelled, through `Run` and `RunIterations`.
- Loop.Step: an exception raised after a loop variable was assigned (for instance by the sleep at line 269) is not modelled. A raising iteration is taken to fail before it assigns anything. The reads it made before raising are not logged as events.
- Loop.Step: the model takes "the body raises" as an input flag. `refresh_token`, `get_current_track` and `mute_spotify` catch their own exceptions. `is_ad_playing` and `check_for_ads` do not, and their prints of track data (lines 142, 152 and 162-164) can raise into the `except` at line 271. One example is a track name that the output encoding cannot represent. That is the realistic path behind a failing iteration. It comes after the token refresh and both API calls, and before any loop variable is assigned. Every poll of such a track then fails, and the player is restarted on every third such iteration.
- Track lengths are exact reals. Floating-point rounding of `duration_ms / 1000` is not modelled.
- The `else: return None` at lines 111-112 cannot be reached, because lines 88-90 already return when both responses are `None`. It has no counterpart in the model.
