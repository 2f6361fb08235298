/**
 * The demo PlayerActivity's bookkeeping around the player: the DRM key-request
 * property pairing, the behind-live-window test on a playback error, the saved start
 * position (cleared, updated from the player, used when the player is prepared), the
 * bounded media-source retry counter, and the save/restore of that state across
 * re-creation of the activity.
 */
module PlayerDemo {
  import opened Options

  /** C.INDEX_UNSET. */
  const IndexUnset: int := -1
  /** C.TIME_UNSET, Long.MIN_VALUE + 1. */
  const TimeUnset: int := -9223372036854775807

  /** The media-source kinds onPlayerError steps through. */
  const TryMediaSource: seq<string> := ["hls", "dash", "SS", "progressive"]

  const AbrAlgorithmDefault: string := "default"
  const AbrAlgorithmRandom: string := "random"

  // ---------------------------------------------------------------------------
  // DRM key-request properties

  /** An HttpMediaDrmCallback: its license URL and the key-request properties set on it, in order. */
  datatype DrmCallback = DrmCallback(licenseUrl: string, keyRequestProperties: seq<(string, string)>)

  /** The (key, value) pairs of a flat key/value array; an odd trailing key has no pair. */
  function KeyValuePairs(a: seq<string>): (pairs: seq<(string, string)>)
  {
    seq(|a| / 2, k requires 0 <= k < |a| / 2 => (a[2 * k], a[2 * k + 1]))
  }

  /** The flat array a sequence of pairs came from. */
  function Flatten(pairs: seq<(string, string)>): (a: seq<string>)
    decreases |pairs|
  {
    if pairs == [] then [] else Flatten(pairs[..|pairs| - 1]) + [pairs[|pairs| - 1].0, pairs[|pairs| - 1].1]
  }

  /**
   * createMediaDrmCallback: with no property array nothing is set; otherwise the
   * elements are set pairwise, key then value, while a whole pair remains.
   */
  method CreateMediaDrmCallback(licenseUrl: string, keyRequestPropertiesArray: Option<seq<string>>)
    returns (drmCallback: DrmCallback)
    ensures drmCallback.licenseUrl == licenseUrl
    ensures keyRequestPropertiesArray.None? ==> drmCallback.keyRequestProperties == []
    ensures keyRequestPropertiesArray.Some? ==>
      drmCallback.keyRequestProperties == KeyValuePairs(keyRequestPropertiesArray.value)
  {
    drmCallback := DrmCallback(licenseUrl, []);
    if keyRequestPropertiesArray.Some? {
      var a := keyRequestPropertiesArray.value;
      var i := 0;
      while i < |a| - 1
        invariant 0 <= i <= |a| && i % 2 == 0
        invariant drmCallback.licenseUrl == licenseUrl
        invariant |drmCallback.keyRequestProperties| == i / 2
        invariant forall k :: 0 <= k < i / 2 ==> drmCallback.keyRequestProperties[k] == (a[2 * k], a[2 * k + 1])
      {
        drmCallback := drmCallback.(keyRequestProperties := drmCallback.keyRequestProperties + [(a[i], a[i + 1])]);
        i := i + 2;
      }
    }
  }

  /** Exactly half the array, rounded down, becomes pairs, and they spell the array back without an odd last key. */
  lemma {:induction false} KeyValuePairsRoundTrip(a: seq<string>)
    ensures |KeyValuePairs(a)| == |a| / 2
    ensures Flatten(KeyValuePairs(a)) == a[..|a| - |a| % 2]
    decreases |a|
  {
    if |a| >= 2 {
      var n := |a| - |a| % 2;
      var front := a[..n - 2];
      KeyValuePairsRoundTrip(front);
      assert KeyValuePairs(a)[..|KeyValuePairs(a)| - 1] == KeyValuePairs(front);
      assert a[..n] == a[..n - 2] + [a[n - 2], a[n - 1]];
      assert front[..|front| - |front| % 2] == front;
    } else {
      assert KeyValuePairs(a) == [];
    }
  }

  /** Flattening loses nothing: pairs spelled out and paired again are the same pairs. */
  lemma {:induction false} FlattenRoundTrip(pairs: seq<(string, string)>)
    ensures |Flatten(pairs)| == 2 * |pairs|
    ensures KeyValuePairs(Flatten(pairs)) == pairs
    decreases |pairs|
  {
    if pairs != [] {
      var front := pairs[..|pairs| - 1];
      FlattenRoundTrip(front);
      var a := Flatten(pairs);
      assert a[..|a| - 2] == Flatten(front);
      forall k | 0 <= k < |pairs|
        ensures KeyValuePairs(a)[k] == pairs[k]
      {
        if k < |pairs| - 1 {
          assert KeyValuePairs(Flatten(front))[k] == front[k];
          assert a[2 * k] == Flatten(front)[2 * k] && a[2 * k + 1] == Flatten(front)[2 * k + 1];
        }
      }
    }
  }

  // ---------------------------------------------------------------------------
  // Playback errors

  /** ExoPlaybackException's error type. */
  datatype ErrorType = SourceError | RendererError | UnexpectedError | RemoteError | OutOfMemoryError

  /** Whether a throwable is a BehindLiveWindowException. */
  datatype Cause = BehindLiveWindowException | OtherCause(className: string)

  /**
   * A playback error: its type and, for a source error, the source exception followed
   * by its chain of causes (the element after each is its getCause()).
   */
  datatype PlaybackError = PlaybackError(errorType: ErrorType, sourceCauses: seq<Cause>)

  /** A source error with a BehindLiveWindowException anywhere in its chain. */
  predicate BehindLiveWindow(e: PlaybackError) {
    e.errorType == SourceError && BehindLiveWindowException in e.sourceCauses
  }

  /** isBehindLiveWindow: walks the cause chain from the source exception. */
  method IsBehindLiveWindow(e: PlaybackError) returns (behind: bool)
    ensures behind == BehindLiveWindow(e)
  {
    if e.errorType != SourceError {
      return false;
    }
    var cause := 0;
    while cause < |e.sourceCauses|
      invariant 0 <= cause <= |e.sourceCauses|
      invariant forall k :: 0 <= k < cause ==> e.sourceCauses[k] != BehindLiveWindowException
    {
      if e.sourceCauses[cause] == BehindLiveWindowException {
        return true;
      }
      cause := cause + 1;
    }
    return false;
  }

  // ---------------------------------------------------------------------------
  // The activity

  /** What the player reports: getPlayWhenReady, getCurrentWindowIndex, getContentPosition. */
  datatype PlayerState = PlayerState(playWhenReady: bool, currentWindowIndex: int, contentPosition: int)

  /** A newly built player: paused, at the start of window 0. */
  const NewPlayer: PlayerState := PlayerState(false, 0, 0)

  /** The calls the activity makes on its player. */
  datatype PlayerCall =
    | SetPlayWhenReady(playWhenReady: bool)
    | SeekTo(windowIndex: int, positionMs: int)
    | Prepare(resetPosition: bool, resetState: bool)
    | Release

  datatype TrackSelectionFactory = AdaptiveTrackSelection | RandomTrackSelection

  /** DefaultTrackSelector.Parameters, as a value the activity stores and restores. */
  datatype SelectorParameters = SelectorParameters(id: int)

  /** A DefaultTrackSelector: its factory and its current parameters. */
  datatype TrackSelector = TrackSelector(factory: TrackSelectionFactory, parameters: SelectorParameters)

  datatype MediaSource = ProgressiveMediaSource

  /** The four values onSaveInstanceState stores. */
  datatype SavedState = SavedState(parameters: SelectorParameters, autoPlay: bool, window: int, position: int)

  /** The track-selection factory for the abr_algorithm extra; None for an unrecognized one. */
  function AbrFactory(abrAlgorithm: Option<string>): (factory: Option<TrackSelectionFactory>) {
    if abrAlgorithm.None? || abrAlgorithm.value == AbrAlgorithmDefault then Some(AdaptiveTrackSelection)
    else if abrAlgorithm.value == AbrAlgorithmRandom then Some(RandomTrackSelection)
    else None
  }

  /** The player calls initializePlayer makes from the start position, after creating a player or not. */
  function StartCalls(created: bool, autoPlay: bool, window: int, position: int): (calls: seq<PlayerCall>) {
    (if created then [SetPlayWhenReady(autoPlay)] else [])
    + (if window != IndexUnset then [SeekTo(window, position)] else [])
    + [Prepare(window == IndexUnset, false)]
  }

  /**
   * What the player reports after the start calls: a seek moves it to the start
   * position; preparing with a position reset moves it to the start of window 0.
   */
  function StartedPlayer(p: PlayerState, window: int, position: int): (started: PlayerState) {
    if window != IndexUnset then p.(currentWindowIndex := window, contentPosition := position)
    else p.(currentWindowIndex := 0, contentPosition := 0)
  }

  function Max(a: int, b: int): (m: int) {
    if a >= b then a else b
  }

  class PlayerActivity {
    var startAutoPlay: bool
    var startWindow: int
    var startPosition: int
    var tryMediaSourceIndex: int
    var player: Option<PlayerState>
    var mediaSource: Option<MediaSource>
    var trackSelector: Option<TrackSelector>
    var trackSelectorParameters: SelectorParameters
    /** The calls made on players so far. */
    var playerCalls: seq<PlayerCall>
    /** Whether the activity has called finish(). */
    var finished: bool

    ghost predicate Valid()
      reads this
    {
      && 0 <= tryMediaSourceIndex <= |TryMediaSource|
      && (player.Some? <==> trackSelector.Some?)
      && (player.Some? ==> mediaSource.Some?)
    }

    /**
     * onCreate's state: restored from the saved instance state when there is one,
     * otherwise the default parameters and a cleared start position.
     */
    constructor (savedInstanceState: Option<SavedState>, defaultParameters: SelectorParameters)
      ensures Valid()
      ensures tryMediaSourceIndex == 0 && player.None? && mediaSource.None? && !finished && playerCalls == []
      ensures savedInstanceState.Some? ==>
        var s := savedInstanceState.value;
        trackSelectorParameters == s.parameters && startAutoPlay == s.autoPlay
        && startWindow == s.window && startPosition == s.position
      ensures savedInstanceState.None? ==>
        trackSelectorParameters == defaultParameters
        && startAutoPlay && startWindow == IndexUnset && startPosition == TimeUnset
    {
      tryMediaSourceIndex := 0;
      player, mediaSource, trackSelector := None, None, None;
      playerCalls := [];
      finished := false;
      if savedInstanceState.Some? {
        var s := savedInstanceState.value;
        trackSelectorParameters := s.parameters;
        startAutoPlay := s.autoPlay;
        startWindow := s.window;
        startPosition := s.position;
      } else {
        trackSelectorParameters := defaultParameters;
        startAutoPlay, startWindow, startPosition := true, 0, 0;
      }
      new;
      if savedInstanceState.None? {
        ClearStartPosition();
      }
    }

    method ClearStartPosition()
      modifies this`startAutoPlay, this`startWindow, this`startPosition
      ensures startAutoPlay && startWindow == IndexUnset && startPosition == TimeUnset
    {
      startAutoPlay := true;
      startWindow := IndexUnset;
      startPosition := TimeUnset;
    }

    /** Copies the player's state into the start position; a no-op without a player. */
    method UpdateStartPosition()
      modifies this`startAutoPlay, this`startWindow, this`startPosition
      ensures old(player).None? ==> unchanged(this)
      ensures player.Some? ==>
        && startAutoPlay == player.value.playWhenReady
        && startWindow == player.value.currentWindowIndex
        && startPosition == Max(0, player.value.contentPosition)
        && startPosition >= 0
    {
      if player.Some? {
        startAutoPlay := player.value.playWhenReady;
        startWindow := player.value.currentWindowIndex;
        startPosition := Max(0, player.value.contentPosition);
      }
    }

    method UpdateTrackSelectorParameters()
      modifies this`trackSelectorParameters
      ensures trackSelectorParameters == if trackSelector.Some? then trackSelector.value.parameters
                                         else old(trackSelectorParameters)
    {
      if trackSelector.Some? {
        trackSelectorParameters := trackSelector.value.parameters;
      }
    }

    /** Saves the selector parameters and the start position, then drops the player. */
    method ReleasePlayer()
      requires Valid()
      modifies this
      ensures Valid()
      ensures old(player).None? ==> unchanged(this)
      ensures old(player).Some? ==>
        && trackSelectorParameters == old(trackSelector).value.parameters
        && startAutoPlay == old(player).value.playWhenReady
        && startWindow == old(player).value.currentWindowIndex
        && startPosition == Max(0, old(player).value.contentPosition)
        && playerCalls == old(playerCalls) + [Release]
        && player.None? && mediaSource.None? && trackSelector.None?
        && tryMediaSourceIndex == old(tryMediaSourceIndex) && finished == old(finished)
    {
      if player.Some? {
        UpdateTrackSelectorParameters();
        UpdateStartPosition();
        playerCalls := playerCalls + [Release];
        player := None;
        mediaSource := None;
        trackSelector := None;
      }
    }

    /**
     * Builds a player when there is none (or finishes on an unrecognized abr_algorithm),
     * then seeks to the start position if there is one and prepares, resetting the
     * position exactly when there is none.
     */
    method InitializePlayer(abrAlgorithm: Option<string>)
      requires Valid()
      modifies this`player, this`mediaSource, this`trackSelector, this`playerCalls, this`finished
      ensures Valid()
      ensures old(player).None? && AbrFactory(abrAlgorithm).None? ==>
        && finished && player.None? && trackSelector.None?
        && mediaSource == Some(ProgressiveMediaSource) && playerCalls == old(playerCalls)
      ensures old(player).Some? || AbrFactory(abrAlgorithm).Some? ==>
        && finished == old(finished)
        && playerCalls == old(playerCalls) + StartCalls(old(player).None?, startAutoPlay, startWindow, startPosition)
        && player == Some(StartedPlayer(if old(player).Some? then old(player).value
                                        else NewPlayer.(playWhenReady := startAutoPlay),
                                        startWindow, startPosition))
        && trackSelector == (if old(player).Some? then old(trackSelector)
                             else Some(TrackSelector(AbrFactory(abrAlgorithm).value, trackSelectorParameters)))
        && mediaSource == (if old(player).Some? then old(mediaSource) else Some(ProgressiveMediaSource))
    {
      if player.None? {
        // createTopLevelMediaSource always builds a source, so its null check never returns here
        mediaSource := Some(ProgressiveMediaSource);
        var trackSelectionFactory;
        if abrAlgorithm.None? || abrAlgorithm.value == AbrAlgorithmDefault {
          trackSelectionFactory := AdaptiveTrackSelection;
        } else if abrAlgorithm.value == AbrAlgorithmRandom {
          trackSelectionFactory := RandomTrackSelection;
        } else {
          finished := true;
          return;
        }
        trackSelector := Some(TrackSelector(trackSelectionFactory, trackSelectorParameters));
        player := Some(NewPlayer);
        playerCalls := playerCalls + [SetPlayWhenReady(startAutoPlay)];
        player := Some(player.value.(playWhenReady := startAutoPlay));
      }
      var haveStartPosition := startWindow != IndexUnset;
      if haveStartPosition {
        playerCalls := playerCalls + [SeekTo(startWindow, startPosition)];
        player := Some(player.value.(currentWindowIndex := startWindow, contentPosition := startPosition));
      }
      playerCalls := playerCalls + [Prepare(!haveStartPosition, false)];
      if !haveStartPosition {
        player := Some(player.value.(currentWindowIndex := 0, contentPosition := 0));
      }
    }

    /**
     * onPlayerError: advances the media-source counter while it is below the number
     * of kinds, then on a behind-live-window error clears the start position and
     * initializes the player again.
     */
    method OnPlayerError(e: PlaybackError, abrAlgorithm: Option<string>)
      requires Valid()
      modifies this`tryMediaSourceIndex, this`startAutoPlay, this`startWindow, this`startPosition
      modifies this`player, this`mediaSource, this`trackSelector, this`playerCalls, this`finished
      ensures Valid()
      ensures tryMediaSourceIndex == if old(tryMediaSourceIndex) < |TryMediaSource| then old(tryMediaSourceIndex) + 1
                                     else old(tryMediaSourceIndex)
      ensures !BehindLiveWindow(e) ==>
        && player == old(player) && playerCalls == old(playerCalls)
        && trackSelector == old(trackSelector) && mediaSource == old(mediaSource) && finished == old(finished)
        && startAutoPlay == old(startAutoPlay) && startWindow == old(startWindow) && startPosition == old(startPosition)
      ensures BehindLiveWindow(e) ==>
        && startAutoPlay && startWindow == IndexUnset && startPosition == TimeUnset
      ensures BehindLiveWindow(e) && old(player).None? && AbrFactory(abrAlgorithm).None? ==>
        && finished && player.None? && trackSelector.None?
        && mediaSource == Some(ProgressiveMediaSource) && playerCalls == old(playerCalls)
      ensures BehindLiveWindow(e) && (old(player).Some? || AbrFactory(abrAlgorithm).Some?) ==>
        && finished == old(finished)
        && playerCalls == old(playerCalls) + StartCalls(old(player).None?, true, IndexUnset, TimeUnset)
        && player == Some(StartedPlayer(if old(player).Some? then old(player).value
                                        else NewPlayer.(playWhenReady := true),
                                        IndexUnset, TimeUnset))
        && trackSelector == (if old(player).Some? then old(trackSelector)
                             else Some(TrackSelector(AbrFactory(abrAlgorithm).value, trackSelectorParameters)))
        && mediaSource == (if old(player).Some? then old(mediaSource) else Some(ProgressiveMediaSource))
    {
      if tryMediaSourceIndex < |TryMediaSource| {
        // every case of the switch on tryMediaSource[tryMediaSourceIndex] is empty
        tryMediaSourceIndex := tryMediaSourceIndex + 1;
      }
      var behind := IsBehindLiveWindow(e);
      if behind {
        ClearStartPosition();
        InitializePlayer(abrAlgorithm);
      }
    }

    /** onSaveInstanceState: refreshes the parameters and the start position and returns them. */
    method OnSaveInstanceState() returns (outState: SavedState)
      requires Valid()
      modifies this`trackSelectorParameters, this`startAutoPlay, this`startWindow, this`startPosition
      ensures outState == SavedState(trackSelectorParameters, startAutoPlay, startWindow, startPosition)
      ensures trackSelectorParameters == if trackSelector.Some? then trackSelector.value.parameters
                                         else old(trackSelectorParameters)
      ensures player.None? ==>
        startAutoPlay == old(startAutoPlay) && startWindow == old(startWindow) && startPosition == old(startPosition)
      ensures player.Some? ==>
        && startAutoPlay == player.value.playWhenReady
        && startWindow == player.value.currentWindowIndex
        && startPosition == Max(0, player.value.contentPosition)
    {
      UpdateTrackSelectorParameters();
      UpdateStartPosition();
      outState := SavedState(trackSelectorParameters, startAutoPlay, startWindow, startPosition);
    }
  }

  /**
   * Re-creating the activity from saved state and initializing its player saves the
   * same state back, up to clamping of a negative position, when there was a start
   * window; without one the player is prepared from the start of window 0; with an
   * unrecognized abr_algorithm the activity finishes and the state is saved back as is.
   */
  method SavedStateRoundTrip(saved: SavedState, defaultParameters: SelectorParameters,
                             abrAlgorithm: Option<string>)
    returns (again: SavedState)
    ensures AbrFactory(abrAlgorithm).None? ==> again == saved
    ensures AbrFactory(abrAlgorithm).Some? && saved.window != IndexUnset ==>
      again == saved.(position := Max(0, saved.position))
    ensures AbrFactory(abrAlgorithm).Some? && saved.window == IndexUnset ==>
      again == saved.(window := 0, position := 0)
  {
    var activity := new PlayerActivity(Some(saved), defaultParameters);
    activity.InitializePlayer(abrAlgorithm);
    again := activity.OnSaveInstanceState();
  }

  /** A seek happens exactly when there is a start window, and prepare resets the position exactly when there is not. */
  lemma StartCallsSeekIffStartWindow(created: bool, autoPlay: bool, window: int, position: int)
    ensures var calls := StartCalls(created, autoPlay, window, position);
      && (SeekTo(window, position) in calls <==> window != IndexUnset)
      && (forall w, p :: SeekTo(w, p) in calls ==> w == window && p == position)
      && calls[|calls| - 1] == Prepare(window == IndexUnset, false)
      && (SetPlayWhenReady(autoPlay) in calls <==> created)
  {
  }
}
