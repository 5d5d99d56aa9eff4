/**
 * The playback inspector and the ad classifier: how the two responses of the
 * remote playback API are reduced to one track-info record, and how that
 * record is judged to be an advertisement.
 */
module Playback {
  import opened Wrappers

  const AD_TYPE := "ad"
  const AD_NAME := "Advertisement"
  const UNKNOWN_NAME := "Unknown"
  const SEPARATOR := ", "
  /** Tracks strictly shorter than this (in seconds) are taken for advertisements. */
  const MIN_TRACK_SECONDS: real := 30.0

  /**
   * A key of a response object read with a default: absent (the default
   * applies), present with value `null`, or present with a value.
   */
  datatype Field<T> = Absent | Null | Present(value: T)

  /**
   * One entry of an item's `artists` list; `name` is None when the key is
   * missing or `null` (either way the name cannot be joined).
   */
  datatype ArtistEntry = ArtistEntry(name: Option<string>)

  /** The playable item of a response. */
  datatype Item = Item(name: Option<string>, durationMs: Field<int>, artists: Field<seq<ArtistEntry>>)

  /**
   * A decoded response object. `EmptyDict` is the object with no keys, which
   * Python treats as false; every `Dict` has at least one key and is true.
   */
  datatype Response =
    | EmptyDict
    | Dict(playingType: Option<string>, item: Option<Item>, isPlaying: Option<bool>)

  /** The outcome of one API call: it raised, or it returned a response or `None`. */
  datatype Reply = Raised | Answered(response: Option<Response>)

  /** The track-info record; `length` is in seconds. */
  datatype TrackInfo = TrackInfo(name: string, length: real, artist: string, isPlaying: bool, isAd: bool)

  function PlayingType(r: Response): Option<string> {
    if r.Dict? then r.playingType else None
  }

  function ItemOf(r: Response): Option<Item> {
    if r.Dict? then r.item else None
  }

  function IsPlayingOf(r: Response): bool {
    if r.Dict? then r.isPlaying.GetOr(false) else false
  }

  /** Python truthiness of an optional response: not `None` and not `{}`. */
  predicate Truthy(r: Option<Response>) {
    r.Some? && r.value.Dict?
  }

  predicate IsAdType(r: Option<Response>) {
    r.Some? && PlayingType(r.value) == Some(AD_TYPE)
  }

  /** The response the track is read from: "currently playing" when present, else "playback". */
  function Chosen(current: Option<Response>, playback: Option<Response>): Response
    requires current.Some? || playback.Some?
  {
    if current.Some? then current.value else playback.value
  }

  /** The synthetic record produced for an advertisement. */
  function AdRecord(isPlaying: bool): TrackInfo {
    TrackInfo(AD_NAME, 0.0, "", isPlaying, true)
  }

  function Seconds(durationMs: int): real {
    durationMs as real / 1000.0
  }

  /**
   * The names of the artist entries, in order; None when an entry has no
   * name (the subscript `artist['name']` raises).
   */
  function ArtistNames(entries: seq<ArtistEntry>): (names: Option<seq<string>>)
    ensures names.None? <==> exists i :: 0 <= i < |entries| && entries[i].name.None?
    ensures names.Some? ==>
      |names.value| == |entries| &&
      forall i :: 0 <= i < |entries| ==> entries[i].name == Some(names.value[i])
  {
    if entries == [] then Some([])
    else
      match entries[0].name
      case None => None
      case Some(first) =>
        match ArtistNames(entries[1..])
        case None => None
        case Some(rest) => Some([first] + rest)
  }

  /** `SEPARATOR.join(names)`. */
  function Join(names: seq<string>): string {
    if names == [] then ""
    else if |names| == 1 then names[0]
    else names[0] + SEPARATOR + Join(names[1..])
  }

  /** A joined artist string is empty exactly when there is no artist or one nameless artist. */
  lemma JoinEmpty(names: seq<string>)
    ensures Join(names) == "" <==> names == [] || names == [""]
  {
  }

  /** `item.get('duration_ms', 0)`, or None when it is `null` (dividing it raises). */
  function DurationMs(item: Item): Option<int> {
    match item.durationMs
    case Absent => Some(0)
    case Null => None
    case Present(d) => Some(d)
  }

  /**
   * The artist names of `item.get('artists', [])`, or None when the list is
   * `null` (iterating it raises) or an entry has no name.
   */
  function ItemArtistNames(item: Item): Option<seq<string>> {
    match item.artists
    case Absent => Some([])
    case Null => None
    case Present(entries) => ArtistNames(entries)
  }

  /** The record for an item that is present; None when building it raises. */
  function TrackFromItem(item: Item, isPlaying: bool): Option<TrackInfo> {
    match (DurationMs(item), ItemArtistNames(item))
    case (Some(d), Some(names)) =>
      Some(TrackInfo(item.name.GetOr(UNKNOWN_NAME), Seconds(d), Join(names), isPlaying, false))
    case _ => None
  }

  /**
   * `get_current_track`: the two API replies reduced to a track-info
   * record, or None when there is no playback or an exception is raised.
   */
  function GetCurrentTrack(current: Reply, playback: Reply): (r: Option<TrackInfo>)
    ensures r.Some? ==>
      current.Answered? && playback.Answered? &&
      (current.response.Some? || playback.response.Some?)
    ensures r.Some? && r.value.isAd ==> r.value == AdRecord(r.value.isPlaying)
    ensures current.Answered? && playback.Answered? && IsAdType(current.response) ==>
      r == Some(AdRecord(true))
    ensures r.Some? && !IsAdType(current.response) ==>
      r.value.isPlaying == IsPlayingOf(Chosen(current.response, playback.response))
    ensures r.Some? && !r.value.isAd ==>
      var item := ItemOf(Chosen(current.response, playback.response));
      item.Some? &&
      r.value.name == item.value.name.GetOr(UNKNOWN_NAME) &&
      DurationMs(item.value).Some? && r.value.length == Seconds(DurationMs(item.value).value) &&
      ItemArtistNames(item.value).Some? && r.value.artist == Join(ItemArtistNames(item.value).value)
    ensures
      (&& current.Answered? && playback.Answered?
       && (current.response.Some? || playback.response.Some?)
       && !IsAdType(current.response)
       && ItemOf(Chosen(current.response, playback.response)).Some?)
      ==>
        var item := ItemOf(Chosen(current.response, playback.response)).value;
        (r.Some? <==> DurationMs(item).Some? && ItemArtistNames(item).Some?) &&
        (r.Some? ==> !r.value.isAd)
  {
    if current.Raised? || playback.Raised? then None
    else
      var c, p := current.response, playback.response;
      if c.None? && p.None? then None
      else if IsAdType(c) then Some(AdRecord(true))
      else
        var source := Chosen(c, p);
        match ItemOf(source)
        case None =>
          // `item.get` on None raises when neither response is truthy
          if Truthy(c) || Truthy(p) then Some(AdRecord(IsPlayingOf(source))) else None
        case Some(item) => TrackFromItem(item, IsPlayingOf(source))
  }

  /** `is_ad_playing`: the explicit flag first, then the length and artist heuristic. */
  function IsAdPlaying(track: Option<TrackInfo>): (isAd: bool)
    ensures track.None? ==> !isAd
    ensures track.Some? && track.value.isAd ==> isAd
    ensures track.Some? && track.value.artist == "" ==> isAd
    ensures track.Some? && !track.value.isAd && track.value.artist != "" ==>
      (isAd <==> track.value.length < MIN_TRACK_SECONDS)
  {
    match track
    case None => false
    case Some(info) => info.isAd || info.length < MIN_TRACK_SECONDS || info.artist == ""
  }

  /** `check_for_ads`: classify whatever the inspector reports; no report is no ad. */
  function CheckForAds(current: Reply, playback: Reply): (isAd: bool)
    ensures current.Raised? || playback.Raised? ==> !isAd
    ensures isAd ==> GetCurrentTrack(current, playback).Some?
  {
    var track := GetCurrentTrack(current, playback);
    track.Some? && IsAdPlaying(track)
  }

  /** The classifier's boundary cases: 29 seconds is an ad, 30 seconds with an artist is not. */
  lemma ClassifierBoundaries(name: string, artist: string, isPlaying: bool)
    requires artist != ""
    ensures !IsAdPlaying(None)
    ensures IsAdPlaying(Some(TrackInfo(name, 29.0, artist, isPlaying, false)))
    ensures !IsAdPlaying(Some(TrackInfo(name, 30.0, artist, isPlaying, false)))
    ensures IsAdPlaying(Some(TrackInfo(name, 200.0, "", isPlaying, false)))
    ensures forall length: real :: IsAdPlaying(Some(TrackInfo(name, length, artist, isPlaying, true)))
  {
  }

  /** When "currently playing" is a non-empty object, the "playback" response has no influence. */
  lemma CurrentPreferred(c: Response, p1: Option<Response>, p2: Option<Response>)
    requires c.Dict?
    ensures GetCurrentTrack(Answered(Some(c)), Answered(p1)) == GetCurrentTrack(Answered(Some(c)), Answered(p2))
  {
  }

  /** Two absent or empty responses give no record: the missing item is then dereferenced and raises. */
  lemma NoPlaybackNoTrack(c: Option<Response>, p: Option<Response>)
    requires !Truthy(c) && !Truthy(p)
    ensures GetCurrentTrack(Answered(c), Answered(p)).None?
  {
  }

  /** A missing item in the chosen response, with some response non-empty, is an advertisement. */
  lemma MissingItemIsAd(c: Option<Response>, p: Option<Response>)
    requires c.Some? || p.Some?
    requires !IsAdType(c) && ItemOf(Chosen(c, p)).None?
    requires Truthy(c) || Truthy(p)
    ensures GetCurrentTrack(Answered(c), Answered(p)) == Some(AdRecord(IsPlayingOf(Chosen(c, p))))
    ensures CheckForAds(Answered(c), Answered(p))
  {
  }

  /**
   * The verdict on a real track, stated on the raw response: an ad exactly
   * when it is shorter than 30000 ms (an absent duration counts as 0) or
   * has no non-empty artist list.
   */
  lemma TrackVerdict(c: Option<Response>, p: Option<Response>, item: Item, durationMs: int, names: seq<string>)
    requires c.Some? || p.Some?
    requires !IsAdType(c) && ItemOf(Chosen(c, p)) == Some(item)
    requires DurationMs(item) == Some(durationMs) && ItemArtistNames(item) == Some(names)
    ensures CheckForAds(Answered(c), Answered(p)) <==>
      durationMs < 30000 || names == [] || names == [""]
  {
    JoinEmpty(names);
  }

  /**
   * A `null` duration, a `null` artist list or an artist entry without a
   * name makes the inspector raise and report nothing, so no ad.
   */
  lemma MalformedItemIsNoAd(c: Option<Response>, p: Option<Response>, item: Item)
    requires c.Some? || p.Some?
    requires !IsAdType(c) && ItemOf(Chosen(c, p)) == Some(item)
    requires item.durationMs.Null? || item.artists.Null? ||
      (item.artists.Present? && exists i :: 0 <= i < |item.artists.value| && item.artists.value[i].name.None?)
    ensures GetCurrentTrack(Answered(c), Answered(p)).None?
    ensures !CheckForAds(Answered(c), Answered(p))
  {
  }
}
