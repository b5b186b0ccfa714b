/** The playback session of one player: the component's state as a value
    and one function per handler that changes it. The AudioPlayer class is
    specified by these functions; the lemmas here state what the handlers
    promise, alone and in sequence. */
module Session {
  import opened Values
  import opened Strategies

  /** Shown when every candidate failed for a reason other than 3 or 4. */
  const MsgLoadFailed: string := "No se pudo cargar el audio."
  /** Shown when the last candidate failed with media error code 3 or 4. */
  const MsgDriveBlocked: string :=
    "Drive bloqueó la reproducción. Verifica que el archivo sea 'Público'."

  /** The component state: the props it was rendered with, the candidate
      list memoised from them, and the state hooks. */
  datatype PlayerState = PlayerState(
    fileId: string,
    apiKey: Option<string>,
    urlStrategies: seq<string>,
    currentUrlIndex: int,
    activeSrc: string,
    isPlaying: bool,
    isLoading: bool,
    error: Option<string>,
    currentTime: Num,
    duration: Num,
    volume: real,
    isMuted: bool)

  /** What holds of the state between any two events: the list belongs to
      the current props, the index points into it, the element is bound to
      the indexed candidate, and an error, when shown, is one of the two
      messages and was raised on the last candidate. */
  predicate Valid(s: PlayerState) {
    && s.urlStrategies == UrlStrategies(s.fileId, s.apiKey)
    && 0 <= s.currentUrlIndex < |s.urlStrategies|
    && s.activeSrc == s.urlStrategies[s.currentUrlIndex]
    && (s.error.Some? ==>
          && s.currentUrlIndex == |s.urlStrategies| - 1
          && (s.error.value == MsgLoadFailed || s.error.value == MsgDriveBlocked))
  }

  /** The message for an exhausted track, from the element's error code
      (`None` when the element reports no error object). */
  function ErrorMessage(code: Option<int>): (m: string)
    ensures |m| > 0
    ensures m == MsgDriveBlocked <==> code == Some(3) || code == Some(4)
    ensures m == MsgLoadFailed <==> !(code == Some(3) || code == Some(4))
  {
    assert |MsgLoadFailed| != |MsgDriveBlocked|;
    if code.Some? && (code.value == 4 || code.value == 3) then MsgDriveBlocked
    else MsgLoadFailed
  }

  /** The state hooks' initial values, before any effect has run. */
  function Initial(fileId: string, apiKey: Option<string>): PlayerState {
    PlayerState(fileId, apiKey, UrlStrategies(fileId, apiKey), 0, "",
                false, true, None, Finite(0.0), Finite(0.0), 1.0, false)
  }

  /** The reset effect for new props: back to the first candidate, loading,
      no error and not playing; time, duration, volume and mute are kept. */
  function Reset(s: PlayerState, fileId: string, apiKey: Option<string>): (r: PlayerState)
    ensures Valid(r)
    ensures r.fileId == fileId && r.apiKey == apiKey
    ensures r.currentUrlIndex == 0 && r.activeSrc == UrlStrategies(fileId, apiKey)[0]
    ensures r.error == None && r.isLoading && !r.isPlaying
    ensures r.currentTime == s.currentTime && r.duration == s.duration
    ensures r.volume == s.volume && r.isMuted == s.isMuted
  {
    var strategies := UrlStrategies(fileId, apiKey);
    s.(fileId := fileId, apiKey := apiKey, urlStrategies := strategies,
       currentUrlIndex := 0, activeSrc := strategies[0],
       isLoading := true, error := None, isPlaying := false)
  }

  /** Mounting: the initial hook values followed by the reset effect. */
  function Mount(fileId: string, apiKey: Option<string>): (r: PlayerState)
    ensures Valid(r)
    ensures r.fileId == fileId && r.apiKey == apiKey
    ensures r.activeSrc == UrlStrategies(fileId, apiKey)[0]
    ensures r.currentUrlIndex == 0 && r.error == None && r.isLoading && !r.isPlaying
    ensures r.currentTime == Finite(0.0) && r.duration == Finite(0.0)
    ensures r.volume == 1.0 && !r.isMuted
  {
    Reset(Initial(fileId, apiKey), fileId, apiKey)
  }

  /** A re-render with new props: the memoised list and the reset effect
      only react when the file or the key actually changed. */
  function OnTrackChange(s: PlayerState, fileId: string, apiKey: Option<string>): (r: PlayerState)
    requires Valid(s)
    ensures Valid(r)
    ensures fileId == s.fileId && apiKey == s.apiKey ==> r == s
    ensures fileId != s.fileId || apiKey != s.apiKey ==> r == Reset(s, fileId, apiKey)
  {
    if fileId == s.fileId && apiKey == s.apiKey then s else Reset(s, fileId, apiKey)
  }

  /** The delayed autoplay after a reset settled: a resolved `play()`
      sets the flag, a rejected one clears it. */
  function OnAutoplaySettled(s: PlayerState, played: bool): (r: PlayerState)
    requires Valid(s)
    ensures Valid(r) && r.isPlaying == played
    ensures r == s.(isPlaying := played)
  {
    s.(isPlaying := played)
  }

  /** `loadedmetadata`: the duration is known, loading is over and any
      error is cleared. */
  function OnLoadedMetadata(s: PlayerState, duration: Num): (r: PlayerState)
    requires Valid(s)
    ensures Valid(r)
    ensures r.duration == duration && !r.isLoading && r.error == None
    ensures r.currentUrlIndex == s.currentUrlIndex && r.activeSrc == s.activeSrc
    ensures r.isPlaying == s.isPlaying
    ensures r == s.(duration := duration, isLoading := false, error := None)
  {
    s.(duration := duration, isLoading := false, error := None)
  }

  /** `timeupdate`: the position follows the element. */
  function OnTimeUpdate(s: PlayerState, time: Num): (r: PlayerState)
    requires Valid(s)
    ensures Valid(r) && r == s.(currentTime := time)
  {
    s.(currentTime := time)
  }

  /** `ended`: playback stops; the app then moves to the next track. */
  function OnEnded(s: PlayerState): (r: PlayerState)
    requires Valid(s)
    ensures Valid(r) && !r.isPlaying && r == s.(isPlaying := false)
  {
    s.(isPlaying := false)
  }

  /** `waiting`: the element stalled and is buffering. */
  function OnWaiting(s: PlayerState): (r: PlayerState)
    requires Valid(s)
    ensures Valid(r) && r.isLoading && r == s.(isLoading := true)
  {
    s.(isLoading := true)
  }

  /** `canplay`: enough is buffered to play. */
  function OnCanPlay(s: PlayerState): (r: PlayerState)
    requires Valid(s)
    ensures Valid(r) && !r.isLoading && r == s.(isLoading := false)
  {
    s.(isLoading := false)
  }

  /** `error` on the element: fall back to the next candidate while one is
      left, otherwise give up with a message chosen by the error code. */
  function OnMediaError(s: PlayerState, code: Option<int>): (r: PlayerState)
    requires Valid(s)
    ensures Valid(r)
    ensures r.fileId == s.fileId && r.apiKey == s.apiKey && r.urlStrategies == s.urlStrategies
    ensures s.currentUrlIndex < |s.urlStrategies| - 1 ==>
      && r.currentUrlIndex == s.currentUrlIndex + 1
      && r.activeSrc == s.urlStrategies[s.currentUrlIndex + 1]
      && r.isLoading && r.error == None && r.isPlaying == s.isPlaying
    ensures s.currentUrlIndex == |s.urlStrategies| - 1 ==>
      && r.currentUrlIndex == s.currentUrlIndex && r.activeSrc == s.activeSrc
      && r.error == Some(ErrorMessage(code)) && !r.isPlaying && !r.isLoading
    ensures r.currentTime == s.currentTime && r.duration == s.duration
    ensures r.volume == s.volume && r.isMuted == s.isMuted
  {
    var stopped := s.(isLoading := false);
    if stopped.currentUrlIndex < |stopped.urlStrategies| - 1 then
      var next := stopped.currentUrlIndex + 1;
      stopped.(currentUrlIndex := next, activeSrc := stopped.urlStrategies[next],
               isLoading := true)
    else
      stopped.(error := Some(ErrorMessage(code)), isPlaying := false)
  }

  /** The delayed `play()` after a fallback settled: only a rejection has
      an effect, and it clears the flag. */
  function OnRetryPlaySettled(s: PlayerState, played: bool): (r: PlayerState)
    requires Valid(s)
    ensures Valid(r)
    ensures r == if played then s else s.(isPlaying := false)
  {
    if played then s else s.(isPlaying := false)
  }

  /** The play/pause control. While an error is shown it is a manual retry
      from the first candidate that neither plays nor touches the loading
      flag; otherwise it pauses a playing track, or starts a paused one,
      which stays stopped if `play()` is rejected. */
  function OnTogglePlayPause(s: PlayerState, playAccepted: bool): (r: PlayerState)
    requires Valid(s)
    ensures Valid(r)
    ensures s.error.Some? ==>
      && r.currentUrlIndex == 0 && r.activeSrc == s.urlStrategies[0] && r.error == None
      && r.isPlaying == s.isPlaying && r.isLoading == s.isLoading
    ensures s.error.None? ==>
      && r.isPlaying == (!s.isPlaying && playAccepted)
      && r.currentUrlIndex == s.currentUrlIndex && r.activeSrc == s.activeSrc
      && r.error == None && r.isLoading == s.isLoading
    ensures r.urlStrategies == s.urlStrategies && r.currentTime == s.currentTime
    ensures r.volume == s.volume && r.isMuted == s.isMuted && r.duration == s.duration
    ensures r.fileId == s.fileId && r.apiKey == s.apiKey
    ensures s.error.Some? ==>
      r == s.(currentUrlIndex := 0, activeSrc := s.urlStrategies[0], error := None)
    ensures s.error.None? ==> r == s.(isPlaying := !s.isPlaying && playAccepted)
  {
    if s.error.Some? then
      s.(currentUrlIndex := 0, activeSrc := s.urlStrategies[0], error := None)
    else
      s.(isPlaying := if s.isPlaying then false else playAccepted)
  }

  /** The seek control: a finite time moves the position to exactly that
      time; anything else is ignored. */
  function OnSeek(s: PlayerState, time: Num): (r: PlayerState)
    requires Valid(s)
    ensures Valid(r)
    ensures time.IsFinite() ==> r == s.(currentTime := time)
    ensures !time.IsFinite() ==> r == s
  {
    if time.IsFinite() then s.(currentTime := time) else s
  }

  /** The volume slider: the volume follows it, and raising it above zero
      unmutes. */
  function OnVolumeChange(s: PlayerState, volume: real): (r: PlayerState)
    requires Valid(s)
    ensures Valid(r) && r.volume == volume
    ensures r.isMuted <==> s.isMuted && !(volume > 0.0)
    ensures r == s.(volume := volume, isMuted := r.isMuted)
  {
    var adjusted := s.(volume := volume);
    if volume > 0.0 && adjusted.isMuted then adjusted.(isMuted := false) else adjusted
  }

  /** The mute button. */
  function OnToggleMute(s: PlayerState): (r: PlayerState)
    requires Valid(s)
    ensures Valid(r) && r.isMuted != s.isMuted
    ensures r == s.(isMuted := r.isMuted)
  {
    s.(isMuted := !s.isMuted)
  }

  /** The "Reintentar" button, shown only with an error: a manual retry
      from the first candidate that also shows the loading state. */
  function OnRetryButton(s: PlayerState): (r: PlayerState)
    requires Valid(s) && s.error.Some?
    ensures Valid(r)
    ensures r.currentUrlIndex == 0 && r.activeSrc == s.urlStrategies[0]
    ensures r.error == None && r.isLoading && r.isPlaying == s.isPlaying
    ensures r == s.(currentUrlIndex := 0, activeSrc := s.urlStrategies[0], error := None,
                    isLoading := true)
  {
    s.(currentUrlIndex := 0, activeSrc := s.urlStrategies[0], error := None,
       isLoading := true)
  }

  /** Everything that can happen to a mounted player. */
  datatype Event =
    | TrackChange(fileId: string, apiKey: Option<string>)
    | AutoplaySettled(played: bool)
    | LoadedMetadata(duration: Num)
    | TimeUpdate(time: Num)
    | Ended
    | Waiting
    | CanPlay
    | MediaError(code: Option<int>)
    | RetryPlaySettled(played: bool)
    | TogglePlayPause(playAccepted: bool)
    | Seek(time: Num)
    | VolumeChange(volume: real)
    | ToggleMute
    | RetryButton

  /** One event handled. The retry button does not exist while no error is
      shown, so pressing it then changes nothing. */
  function Step(s: PlayerState, e: Event): (r: PlayerState)
    requires Valid(s)
    ensures Valid(r)
  {
    match e
    case TrackChange(f, k) => OnTrackChange(s, f, k)
    case AutoplaySettled(p) => OnAutoplaySettled(s, p)
    case LoadedMetadata(d) => OnLoadedMetadata(s, d)
    case TimeUpdate(t) => OnTimeUpdate(s, t)
    case Ended => OnEnded(s)
    case Waiting => OnWaiting(s)
    case CanPlay => OnCanPlay(s)
    case MediaError(c) => OnMediaError(s, c)
    case RetryPlaySettled(p) => OnRetryPlaySettled(s, p)
    case TogglePlayPause(a) => OnTogglePlayPause(s, a)
    case Seek(t) => OnSeek(s, t)
    case VolumeChange(v) => OnVolumeChange(s, v)
    case ToggleMute => OnToggleMute(s)
    case RetryButton => if s.error.Some? then OnRetryButton(s) else s
  }

  /** Events handled one after another, in order. */
  function Run(s: PlayerState, events: seq<Event>): (r: PlayerState)
    requires Valid(s)
    ensures Valid(r)
    decreases |events|
  {
    if events == [] then s else Run(Step(s, events[0]), events[1..])
  }

  /** The error events for a run of failures with the given codes. */
  function Failures(codes: seq<Option<int>>): (es: seq<Event>)
    ensures |es| == |codes|
    ensures forall i :: 0 <= i < |codes| ==> es[i] == MediaError(codes[i])
  {
    seq(|codes|, i requires 0 <= i < |codes| => MediaError(codes[i]))
  }

  /** Running two event lists is running their concatenation. */
  lemma {:induction false} RunAppend(s: PlayerState, xs: seq<Event>, ys: seq<Event>)
    requires Valid(s)
    ensures Run(s, xs + ys) == Run(Run(s, xs), ys)
    decreases |xs|
  {
    if xs != [] {
      assert (xs + ys)[0] == xs[0] && (xs + ys)[1..] == xs[1..] + ys;
      RunAppend(Step(s, xs[0]), xs[1..], ys);
      assert Run(s, xs + ys) == Run(Step(s, xs[0]), xs[1..] + ys);
    } else {
      assert xs + ys == ys;
    }
  }

  /** Consecutive failures starting with no error shown walk the candidate
      list one step per failure, keeping the loading state and the play
      intent; the failure that hits the last candidate raises the error. */
  lemma {:induction false} FailuresAdvance(s: PlayerState, codes: seq<Option<int>>)
    requires Valid(s) && s.error == None
    requires s.currentUrlIndex + |codes| <= |s.urlStrategies|
    ensures var r := Run(s, Failures(codes));
      && r.urlStrategies == s.urlStrategies
      && (s.currentUrlIndex + |codes| < |s.urlStrategies| ==>
            && r.currentUrlIndex == s.currentUrlIndex + |codes|
            && r.activeSrc == s.urlStrategies[r.currentUrlIndex]
            && r.error == None
            && (codes != [] ==> r.isLoading && r.isPlaying == s.isPlaying))
      && (s.currentUrlIndex + |codes| == |s.urlStrategies| ==>
            && r.currentUrlIndex == |s.urlStrategies| - 1
            && r.error == Some(ErrorMessage(codes[|codes| - 1]))
            && !r.isPlaying && !r.isLoading)
    decreases |codes|
  {
    if codes != [] {
      var es := Failures(codes);
      var t := Step(s, es[0]);
      assert t == OnMediaError(s, codes[0]);
      assert es[1..] == Failures(codes[1..]);
      if s.currentUrlIndex + |codes| == |s.urlStrategies| && |codes| == 1 {
        assert Run(t, es[1..]) == t;
      } else {
        FailuresAdvance(t, codes[1..]);
      }
    }
  }

  /** From a fresh reset, a run of as many failures as there are candidates
      shows the error exactly once: after every shorter prefix of the run no
      error is shown, after the whole run it is. */
  lemma ExhaustedExactlyOnce(s: PlayerState, fileId: string, apiKey: Option<string>,
                             codes: seq<Option<int>>)
    requires |codes| == |UrlStrategies(fileId, apiKey)|
    ensures var start := Reset(s, fileId, apiKey);
      forall k :: 0 <= k <= |codes| ==>
        (Run(start, Failures(codes[..k])).error.Some? <==> k == |codes|)
    ensures Run(Reset(s, fileId, apiKey), Failures(codes)).error
              == Some(ErrorMessage(codes[|codes| - 1]))
  {
    var start := Reset(s, fileId, apiKey);
    forall k | 0 <= k <= |codes|
      ensures Run(start, Failures(codes[..k])).error.Some? <==> k == |codes|
    {
      FailuresAdvance(start, codes[..k]);
    }
    FailuresAdvance(start, codes);
  }

  /** With a usable key there are three candidates: two failures followed
      by metadata from the third leave the docs export playing with no
      error shown. */
  lemma RecoversOnLastCandidate(s: PlayerState, fileId: string, key: string,
                                c1: Option<int>, c2: Option<int>, d: Num)
    requires |key| > MinKeyLength
    ensures var r := Run(Reset(s, fileId, Some(key)),
                         [MediaError(c1), MediaError(c2), LoadedMetadata(d)]);
      && r.currentUrlIndex == 2 && r.error == None && !r.isLoading
      && Classify(r.activeSrc) == Some(DocsExport)
  {
    var start := Reset(s, fileId, Some(key));
    var fails := [MediaError(c1), MediaError(c2)];
    assert fails == Failures([c1, c2]);
    FailuresAdvance(start, [c1, c2]);
    RunAppend(start, fails, [LoadedMetadata(d)]);
    assert fails + [LoadedMetadata(d)] == [MediaError(c1), MediaError(c2), LoadedMetadata(d)];
    UrlStrategiesOrder(fileId, Some(key));
  }

  /** Without a usable key there are two candidates; when both fail and the
      last reports code 4 (source not supported), the blocked-by-Drive
      message is shown. */
  lemma BlockedWithoutKey(s: PlayerState, fileId: string, apiKey: Option<string>, c1: Option<int>)
    requires !HasUsableKey(apiKey)
    ensures Run(Reset(s, fileId, apiKey), [MediaError(c1), MediaError(Some(4))]).error
              == Some(MsgDriveBlocked)
  {
    assert [MediaError(c1), MediaError(Some(4))] == Failures([c1, Some(4)]);
    ExhaustedExactlyOnce(s, fileId, apiKey, [c1, Some(4)]);
  }

  /** Outside an error, two presses of play/pause whose `play()` is not
      rejected restore the play intent. */
  lemma ToggleTwiceRestores(s: PlayerState)
    requires Valid(s) && s.error == None
    ensures OnTogglePlayPause(OnTogglePlayPause(s, true), true) == s
  {
  }

  /** Two presses of the mute button change nothing. */
  lemma ToggleMuteTwice(s: PlayerState)
    requires Valid(s)
    ensures OnToggleMute(OnToggleMute(s)) == s
  {
  }

  /** The two manual retries differ in one respect only: the button shows
      the loading state, the play/pause control leaves it alone. */
  lemma RetryPathsDiffer(s: PlayerState, playAccepted: bool)
    requires Valid(s) && s.error.Some?
    ensures OnRetryButton(s) == OnTogglePlayPause(s, playAccepted).(isLoading := true)
  {
  }
}
