/** The player component as an object: its state hooks are fields, each
    handler assigns them in the order the component does, and each handler
    is specified by the matching function of the Session module. The
    element's events and its `play()` outcomes arrive as method calls. */
module AudioPlayerComponent {
  import opened Values
  import opened Strategies
  import opened Session

  class AudioPlayer {
    var fileId: string
    var apiKey: Option<string>
    var urlStrategies: seq<string>
    var currentUrlIndex: int
    var activeSrc: string
    var isPlaying: bool
    var isLoading: bool
    var error: Option<string>
    var currentTime: Num
    var duration: Num
    var volume: real
    var isMuted: bool

    /** The fields as one session value. */
    ghost function State(): PlayerState
      reads this
    {
      PlayerState(fileId, apiKey, urlStrategies, currentUrlIndex, activeSrc,
                  isPlaying, isLoading, error, currentTime, duration, volume, isMuted)
    }

    ghost predicate Valid()
      reads this
    {
      Session.Valid(State())
    }

    /** Mount: the hooks' initial values, then the reset effect. */
    constructor (fileId: string, apiKey: Option<string>)
      ensures Valid() && State() == Mount(fileId, apiKey)
    {
      this.fileId := fileId;
      this.apiKey := apiKey;
      urlStrategies := UrlStrategies(fileId, apiKey);
      isPlaying := false;
      duration := Finite(0.0);
      currentTime := Finite(0.0);
      volume := 1.0;
      isMuted := false;
      isLoading := true;
      error := None;
      currentUrlIndex := 0;
      activeSrc := "";
      new;
      ResetForTrack();
    }

    /** The reset effect: first candidate, loading, no error, not playing. */
    method ResetForTrack()
      requires urlStrategies == UrlStrategies(fileId, apiKey)
      modifies this
      ensures Valid()
      ensures State() == Reset(old(State()), old(fileId), old(apiKey))
    {
      currentUrlIndex := 0;
      activeSrc := urlStrategies[0];
      isLoading := true;
      error := None;
      isPlaying := false;
    }

    /** New props from the parent; the candidate list is rebuilt and the
        session reset only when the file or the key changed. */
    method ChangeTrack(newFileId: string, newApiKey: Option<string>)
      requires Valid()
      modifies this
      ensures Valid()
      ensures State() == OnTrackChange(old(State()), newFileId, newApiKey)
    {
      if newFileId != fileId || newApiKey != apiKey {
        fileId := newFileId;
        apiKey := newApiKey;
        urlStrategies := UrlStrategies(fileId, apiKey);
        ResetForTrack();
      }
    }

    /** The autoplay attempted after a reset settled. */
    method AutoplaySettled(played: bool)
      requires Valid()
      modifies this
      ensures Valid() && State() == OnAutoplaySettled(old(State()), played)
    {
      isPlaying := played;
    }

    /** `setAudioData`, on `loadedmetadata`. */
    method SetAudioData(mediaDuration: Num)
      requires Valid()
      modifies this
      ensures Valid() && State() == OnLoadedMetadata(old(State()), mediaDuration)
    {
      duration := mediaDuration;
      isLoading := false;
      error := None;
    }

    /** `setAudioTime`, on `timeupdate`. */
    method SetAudioTime(mediaTime: Num)
      requires Valid()
      modifies this
      ensures Valid() && State() == OnTimeUpdate(old(State()), mediaTime)
    {
      currentTime := mediaTime;
    }

    /** `handleEnded`; advancing the playlist is the parent's part. */
    method HandleEnded()
      requires Valid()
      modifies this
      ensures Valid() && State() == OnEnded(old(State()))
    {
      isPlaying := false;
    }

    method HandleWaiting()
      requires Valid()
      modifies this
      ensures Valid() && State() == OnWaiting(old(State()))
    {
      isLoading := true;
    }

    method HandleCanPlay()
      requires Valid()
      modifies this
      ensures Valid() && State() == OnCanPlay(old(State()))
    {
      isLoading := false;
    }

    /** `handleError`: the fallback to the next candidate, or the error
        message once the list is exhausted. `code` is the element's media
        error code, `None` when it reports no error object. */
    method HandleError(code: Option<int>)
      requires Valid()
      modifies this
      ensures Valid() && State() == OnMediaError(old(State()), code)
    {
      isLoading := false;
      if currentUrlIndex < |urlStrategies| - 1 {
        var nextIndex := currentUrlIndex + 1;
        currentUrlIndex := nextIndex;
        activeSrc := urlStrategies[nextIndex];
        isLoading := true;
      } else {
        var errorMessage := MsgLoadFailed;
        if code.Some? {
          if code.value == 4 || code.value == 3 {
            errorMessage := MsgDriveBlocked;
          }
        }
        error := Some(errorMessage);
        isPlaying := false;
      }
    }

    /** The `play()` reissued after a fallback settled. */
    method RetryPlaySettled(played: bool)
      requires Valid()
      modifies this
      ensures Valid() && State() == OnRetryPlaySettled(old(State()), played)
    {
      if !played {
        isPlaying := false;
      }
    }

    /** `togglePlayPause`; `playAccepted` is whether the `play()` it issues
        resolves (it is ignored when the control pauses). */
    method TogglePlayPause(playAccepted: bool)
      requires Valid()
      modifies this
      ensures Valid() && State() == OnTogglePlayPause(old(State()), playAccepted)
    {
      if error.Some? {
        currentUrlIndex := 0;
        activeSrc := urlStrategies[0];
        error := None;
        return;
      }
      var wasPlaying := isPlaying;
      isPlaying := !wasPlaying;
      if !wasPlaying && !playAccepted {
        isPlaying := false;
      }
    }

    method HandleSeek(time: Num)
      requires Valid()
      modifies this
      ensures Valid() && State() == OnSeek(old(State()), time)
    {
      if time.IsFinite() {
        currentTime := time;
      }
    }

    method HandleVolumeChange(newVolume: real)
      requires Valid()
      modifies this
      ensures Valid() && State() == OnVolumeChange(old(State()), newVolume)
    {
      volume := newVolume;
      if newVolume > 0.0 && isMuted {
        isMuted := false;
      }
    }

    method ToggleMute()
      requires Valid()
      modifies this
      ensures Valid() && State() == OnToggleMute(old(State()))
    {
      var newMutedState := !isMuted;
      isMuted := newMutedState;
    }

    /** The "Reintentar" button, rendered only while an error is shown. */
    method RetryFromStart()
      requires Valid() && error.Some?
      modifies this
      ensures Valid() && State() == OnRetryButton(old(State()))
    {
      currentUrlIndex := 0;
      activeSrc := urlStrategies[0];
      error := None;
      isLoading := true;
    }
  }
}
