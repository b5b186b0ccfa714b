# Drive music player: source fallback and track sequencing

This project models the core of a browser audio player that streams tracks
stored on Google Drive. Direct links into Drive are unreliable, so the player
component builds an ordered list of candidate URLs for a file. It binds the
audio element to the first one. Whenever the element reports an error it
falls back to the next candidate. When the last candidate fails it shows an
error message, and the user can retry from the first candidate. Around that
sits the rest of the component's state: play intent, loading flag, position,
duration, volume and mute. The app shell holds a fixed two-track playlist and
moves through it circularly.

Modules, one per part of the program:

- `Values` (values.dfy): `Option`, and `Num` for JavaScript numbers that
  may be NaN or infinite.
- `Strategies` (strategies.dfy): the candidate URL list (`urlStrategies`).
  `Classify` reads a URL's strategy back from its host and path. It is the
  reference the list's shape is proved against.
- `Session` (session.dfy): the component state as a `PlayerState` value.
  There is one function per handler, and `Step`/`Run` handle a sequence of
  events. The lemmas cover invariants, fallback runs, retries and toggles.
- `AudioPlayerComponent` (audio_player.dfy): class `AudioPlayer`. Its fields
  are the component's state hooks. Each handler is a method that assigns
  them in the component's order and is specified by the matching `Session`
  function (`State() == OnX(old(State()), ...)`).
- `Sequencer` (sequencer.dfy): the playlist and the next/previous index
  arithmetic, with JavaScript's truncating `%` written out.
- `AppComponent` (app.dfy): class `App`. It owns the current track index and
  the player. Moving to another track re-renders the player with the new
  file.

The element's events (`loadedmetadata`, `timeupdate`, `ended`, `waiting`,
`canplay`, `error`) are method calls. The outcome of each `play()` call is a
boolean argument. The error handler takes the element's media error code as
`Option<int>`; `None` means the element reported no error object.

Behaviour of the code that the model keeps:

- On a track change the code sets `isPlaying` to false
  (components/AudioPlayer.tsx:59). After that, nothing sets it back to true
  until the autoplay resolves (line 68) or the user presses play (line 179).
- Once every candidate has failed, there are two messages only. Error codes
  3 (decode) and 4 (source not supported) give "Drive bloqueó la
  reproducción…". Every other code, or no error object, gives "No se pudo
  cargar el audio." (lines 128-133).
- The candidate list always has two or three entries.
- Events from a source the element has since left are not filtered out.

## Model

| member | source | states |
|---|---|---|
| Strategies.UrlStrategies | components/AudioPlayer.tsx:36-51 | the list has 3 candidates when the key is present and longer than 5 characters, otherwise 2 |
| Strategies.ClassifyUrl | components/AudioPlayer.tsx:39-48 | each strategy's URL is recognised by its host and path as that strategy, so the three forms never collide |
| Strategies.UrlCarriesFileId | components/AudioPlayer.tsx:41-48 | each strategy's URL carries the file id verbatim right after its base |
| Strategies.UrlStrategiesOrder | components/AudioPlayer.tsx:36-51 | the list is never empty; the authenticated URL is present exactly when the key is usable, and then first; the public download is next to last and the docs export is always last |
| Strategies.UrlStrategiesDistinct | components/AudioPlayer.tsx:36-51 | no two candidates are equal, so each fallback tries a different URL |
| Strategies.UrlStrategiesCarryFileId | components/AudioPlayer.tsx:36-51 | every candidate is a recognised strategy whose URL names the requested file |
| Session.ErrorMessage | components/AudioPlayer.tsx:127-134 | the message is non-empty; it is the blocked-by-Drive message iff the code is 3 or 4, and the default message otherwise |
| Session.Reset | components/AudioPlayer.tsx:54-59 | after a reset the index is 0, the element is bound to the first candidate, no error is shown, loading is on and playing is off; time, duration, volume and mute are kept; the invariant holds |
| Session.Mount | components/AudioPlayer.tsx:20-32 | the initial hook values followed by the reset for the given file and key: bound to that file's first candidate, loading, no error, not playing, time and duration 0, volume 1, unmuted |
| Session.OnTrackChange | components/AudioPlayer.tsx:54-78 | new props reset the session; the same file and key leave it unchanged |
| Session.OnAutoplaySettled | components/AudioPlayer.tsx:62-75 | a resolved autoplay sets the play flag, a rejected one clears it; nothing else changes |
| Session.OnLoadedMetadata | components/AudioPlayer.tsx:85-89 | metadata records the duration, ends loading and clears any error; everything else, including the candidate, the play flag, time, volume and mute, is kept |
| Session.OnTimeUpdate | components/AudioPlayer.tsx:91 | only the position changes |
| Session.OnEnded | components/AudioPlayer.tsx:93-98 | the track stops playing; nothing else changes |
| Session.OnWaiting | components/AudioPlayer.tsx:100 | only the loading flag changes, to on |
| Session.OnCanPlay | components/AudioPlayer.tsx:101 | only the loading flag changes, to off |
| Session.OnMediaError | components/AudioPlayer.tsx:103-138 | below the last candidate: index plus exactly one, element bound to that candidate, loading on, no error, play flag kept; at the last candidate: index kept, the code's message shown, playing and loading off; the invariant holds |
| Session.OnRetryPlaySettled | components/AudioPlayer.tsx:121-125 | a rejected `play()` after a fallback clears the play flag; a resolved one changes nothing |
| Session.OnTogglePlayPause | components/AudioPlayer.tsx:157-180 | with an error shown: back to the first candidate, error cleared, everything else (play and loading flags, file, key, time, volume, mute) untouched; otherwise only the play flag changes: it flips, and a rejected `play()` leaves it off |
| Session.OnSeek | components/AudioPlayer.tsx:182-189 | a finite time becomes the position exactly; a non-finite one changes nothing |
| Session.OnVolumeChange | components/AudioPlayer.tsx:191-200 | the volume becomes the new value; the result is muted iff it was muted and the new volume is not above zero |
| Session.OnToggleMute | components/AudioPlayer.tsx:202-208 | the mute flag flips and nothing else changes |
| Session.OnRetryButton | components/AudioPlayer.tsx:261-267 | back to the first candidate, error cleared, loading on; everything else, including the play flag, time, duration, volume and mute, is kept |
| Session.Step | components/AudioPlayer.tsx:140-145 | every event handled by the mounted component keeps the invariant |
| Session.Run | components/AudioPlayer.tsx:140-145 | every sequence of events keeps the invariant: index within the list, element bound to the indexed candidate, errors only on the last candidate |
| Session.FailuresAdvance | components/AudioPlayer.tsx:108-137 | consecutive failures move one candidate per failure with loading on and the play flag kept; the failure on the last candidate shows the code's message and stops playback |
| Session.ExhaustedExactlyOnce | components/AudioPlayer.tsx:108-137 | from a reset, as many failures as candidates show the error exactly once: after no shorter prefix, after the whole run |
| Session.RecoversOnLastCandidate | components/AudioPlayer.tsx:85-114 | with a usable key, two failures then metadata leave the docs export bound, index 2, no error, not loading |
| Session.BlockedWithoutKey | components/AudioPlayer.tsx:126-135 | without a usable key, two failures ending in code 4 show the blocked-by-Drive message |
| Session.ToggleTwiceRestores | components/AudioPlayer.tsx:168-179 | outside an error, two accepted play/pause presses restore the state |
| Session.ToggleMuteTwice | components/AudioPlayer.tsx:202-208 | two mute presses restore the state |
| Session.RetryPathsDiffer | components/AudioPlayer.tsx:262-267 | the retry button equals the play/pause retry except that it also turns loading on |
| AudioPlayerComponent.AudioPlayer.constructor | components/AudioPlayer.tsx:20-32 | a new player is in the mounted state |
| AudioPlayerComponent.AudioPlayer.ResetForTrack | components/AudioPlayer.tsx:54-59 | the fields become the reset state for the current props |
| AudioPlayerComponent.AudioPlayer.ChangeTrack | components/AudioPlayer.tsx:54-78 | the fields follow `OnTrackChange` and keep the invariant |
| AudioPlayerComponent.AudioPlayer.AutoplaySettled | components/AudioPlayer.tsx:62-75 | the fields follow `OnAutoplaySettled` |
| AudioPlayerComponent.AudioPlayer.SetAudioData | components/AudioPlayer.tsx:85-89 | the fields follow `OnLoadedMetadata` |
| AudioPlayerComponent.AudioPlayer.SetAudioTime | components/AudioPlayer.tsx:91 | the fields follow `OnTimeUpdate` |
| AudioPlayerComponent.AudioPlayer.HandleEnded | components/AudioPlayer.tsx:93-98 | the fields follow `OnEnded` |
| AudioPlayerComponent.AudioPlayer.HandleWaiting | components/AudioPlayer.tsx:100 | the fields follow `OnWaiting` |
| AudioPlayerComponent.AudioPlayer.HandleCanPlay | components/AudioPlayer.tsx:101 | the fields follow `OnCanPlay` |
| AudioPlayerComponent.AudioPlayer.HandleError | components/AudioPlayer.tsx:103-138 | the fields follow `OnMediaError`: fall back or fail, keeping the invariant |
| AudioPlayerComponent.AudioPlayer.RetryPlaySettled | components/AudioPlayer.tsx:121-125 | the fields follow `OnRetryPlaySettled` |
| AudioPlayerComponent.AudioPlayer.TogglePlayPause | components/AudioPlayer.tsx:157-180 | the fields follow `OnTogglePlayPause` |
| AudioPlayerComponent.AudioPlayer.HandleSeek | components/AudioPlayer.tsx:182-189 | the fields follow `OnSeek` |
| AudioPlayerComponent.AudioPlayer.HandleVolumeChange | components/AudioPlayer.tsx:191-200 | the fields follow `OnVolumeChange` |
| AudioPlayerComponent.AudioPlayer.ToggleMute | components/AudioPlayer.tsx:202-208 | the fields follow `OnToggleMute` |
| AudioPlayerComponent.AudioPlayer.RetryFromStart | components/AudioPlayer.tsx:261-267 | the fields follow `OnRetryButton` |
| Sequencer.JsRem | App.tsx:31 | JavaScript's remainder agrees with the mathematical one on non-negative dividends and lies in (-n, 0] on negative ones |
| Sequencer.Next | App.tsx:30-32 | from a valid index the next index is valid: one more, or 0 after the last track |
| Sequencer.Prev | App.tsx:34-36 | from a valid index the previous index is valid: one less, or the last track before the first |
| Sequencer.NextPrevInverse | App.tsx:30-36 | next then previous, and previous then next, return to the starting index |
| Sequencer.AdvanceFromStart | App.tsx:30-32 | advancing k times from the first track reaches track k mod n, so every track is visited in order |
| Sequencer.PlaylistWraps | App.tsx:7-36 | with the two-track playlist, next from 1 is 0 and previous from 0 is 1 |
| AppComponent.App.CurrentTrack | App.tsx:21-23 | the current track is the playlist entry at the index, so always an element of the playlist |
| AppComponent.App.constructor | App.tsx:20-23 | the app starts on the first track with its player mounted |
| AppComponent.App.HandleNextTrack | App.tsx:30-32 | the index moves by `Next`, stays valid, and the player is given the new track |
| AppComponent.App.HandlePrevTrack | App.tsx:34-36 | the index moves by `Prev`, stays valid, and the player is given the new track |
| AppComponent.App.TrackEnded | components/AudioPlayer.tsx:93-98 | an ended track stops, the app advances, and the player restarts from the first candidate of the next track with loading on and no error |

## Left out

- The audio element and the DOM are not modelled. Listener registration (components/AudioPlayer.tsx:140-154), writes to the element's `currentTime`, `volume` and `muted`, and `console` output are left out. The `if (!audio) return` guards are not modelled either, because the element always exists once mounted.
- The 100 ms autoplay timer and the 500 ms retry timer are not modelled. Their outcomes are separate events (`AutoplaySettled`, `RetryPlaySettled`), and the timer being cancelled on a track change is not modelled.
- Session.OnRetryPlaySettled: the retry timer's check of `isPlaying` (line 122) is not modelled. The timer reads the value captured when the handler was created, which is a concurrency artefact. The model lets any rejected retry clear the flag. A caller reproduces the guarded case by passing `played = true`.
- Promises are not modelled: each `play()` outcome is a boolean argument.
- Numbers: time and duration are `Num` (finite real, NaN or infinite). Volume is a `real` because the slider only delivers finite values in [0, 1]. The exception the element raises for an out-of-range volume is not modelled.
- A key's length is counted in characters, while JavaScript counts UTF-16 code units. The two agree for the ASCII keys Drive issues.
- The candidate list is built before the reset effect runs, so on first render the element's source is briefly the empty string. The model treats mounting as one step and does not represent that state.
- Rendering is not modelled: the JSX markup, the progress bar, the volume control, the transport controls, the album art and the "view in Drive" link.
- The props interface in types.ts is not part of this model, because it does not match the props the component takes.
- The app's API key is a constructor parameter of `App`, not a literal.
- The component's `onNextTrack`/`onPrevTrack` props are optional, but the app always passes them. `App.TrackEnded` composes the player's `ended` handler with the app's next-track handler.
