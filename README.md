# AudioBand audio session and volume button, in Dafny

This project models two pieces of AudioBand, a Windows taskbar media widget.

**`AudioSession`** is the persistent session object. It mirrors the state of
whichever audio source is bound: track, playing flag, progress, shuffle,
repeat and volume. It attaches its handlers to the six change events of the
bound source. It also runs the idle machine:
- pausing starts a one-shot timer;
- the timer's expiry makes the session idle, selects the idle profile and
  optionally clears the display;
- resuming leaves idle, selects the last non-idle profile and, after a
  clear-on-idle, replays the remembered track and volume.

**`VolumeButtonViewModel`** holds the volume logic of the volume button:
- the icon state derived from the volume;
- the `Volume` setter, which forwards a changed volume to the bound source;
- its reaction to the session's `Volume` change notification;
- the popup commands;
- the mouse-wheel step `Delta / 75` in C# truncating integer division.

The model comes in three layers:
- **Value specifications.** `AudioSourceTypes`, `SessionSpec` and
  `VolumeButtonSpec` hold datatypes and one pure function per C# member, each
  with a contract saying what it does and what it leaves alone.
- **Objects.** `AudioSessions` and `VolumeButtonViewModels` are classes with
  the C# fields, updated in place. Every method is proved to take the object
  from `old(Model())` to exactly the value the matching specification
  function gives.
- **Runs over time.** `SessionTraces` treats a run as a sequence of inputs,
  each one of:
  - binding a source;
  - a source raising an event;
  - the idle timer firing.

  An event reaches the session once per handler that the raising source still
  carries on that channel.

## Behaviour as written

The `CurrentAudioSource` setter stores the new source before it calls
`AudioSourceChanged`. The `-=` block therefore runs against the new source,
not the old one. The apparent intent is to detach the old source. The model
follows the code, and the lemmas prove what happens as a result:
- `RunNeverUnsubscribes`: no subscription is ever removed.
- `RunKeepsWired`: each channel carries the handler at most once, and the
  bound source carries it on all six channels.
- `StaleSourceStillUpdates`: a source that was bound earlier still changes
  the display.
- `UnboundSessionStillUpdates`: after unbinding (`null`), the old source can
  still fill the display.

Other points where the model follows the code:
- Every resume event selects the last non-idle profile, even when the
  session was not idle.
- A running timer is not stopped by switching sources.
- The timer's expiry does not consult `UseAutomaticIdleProfile`.
- The wheel step is not clamped, so the volume can leave 0..100.
- `ShouldGoIdleAfterInSeconds * 1000` is C# unchecked `int` arithmetic and
  wraps for timeouts above 2147483 seconds.

## Model

| member | source | states |
|---|---|---|
| AudioSourceTypes.Wrap32 | src/AudioBand/AudioSource/AudioSession.cs:251 | C# unchecked `int` result of a product: unchanged when it fits in 32 bits, always congruent to it modulo 2^32 |
| AudioSourceTypes.GetInterval | src/AudioBand/AudioSource/AudioSession.cs:247-252 | a zero timeout gives 250 ms; otherwise seconds times 1000, exact (and at least 1000 in magnitude) while it fits in an `int` |
| AudioSourceTypes.IntervalIs250OnlyForZero | src/AudioBand/AudioSource/AudioSession.cs:247-252 | the interval is 250 ms if and only if the timeout is zero, wrap-around included |
| SessionSpec.Initial | src/AudioBand/AudioSource/AudioSession.cs:13-41 | a new session is idle, unbound, with the timer stopped at the interval GetInterval gives for the timeout (250 exactly when it is zero), a cleared display, no subscriptions, the C# field defaults (no remembered track, remembered volume 0, shuffle off, repeat Off) and the profile log as given |
| SessionSpec.Unsubscribe | src/AudioBand/AudioSource/AudioSession.cs:136-141 | each of the six `-=` removes one handler from its channel of the given source if it carries one; other sources are untouched |
| SessionSpec.Subscribe | src/AudioBand/AudioSource/AudioSession.cs:150-155 | each of the six `+=` adds one handler to its channel of the given source; other sources are untouched |
| SessionSpec.Rewire | src/AudioBand/AudioSource/AudioSession.cs:133-155 | remove-then-add on the bound source leaves each of its channels with max(count, 1) handlers and no other source changed |
| SessionSpec.ClearSession | src/AudioBand/AudioSource/AudioSession.cs:204-214 | playing, artist, name, album, art, progress, length and volume are blanked; shuffle, repeat, idle state, timer, remembered track and volume, subscriptions and the profile log are kept |
| SessionSpec.AudioSourceChanged | src/AudioBand/AudioSource/AudioSession.cs:131-156 | the display is cleared; with no source the subscriptions are unchanged, with a source they are rewired on that source |
| SessionSpec.SetCurrentAudioSource | src/AudioBand/AudioSource/AudioSession.cs:46-59 | binding the same source changes nothing; any other value is stored, the display cleared except shuffle and repeat, the idle machine untouched; binding null changes no subscription; binding a source rewires only that source, so the previous source keeps its handlers |
| SessionSpec.OnShuffleChanged | src/AudioBand/AudioSource/AudioSession.cs:158-161 | only the shuffle flag changes, to the payload |
| SessionSpec.OnRepeatModeChanged | src/AudioBand/AudioSource/AudioSession.cs:163-166 | only the repeat mode changes, to the payload |
| SessionSpec.OnTrackProgressChanged | src/AudioBand/AudioSource/AudioSession.cs:168-171 | only the progress changes, to the payload |
| SessionSpec.OnVolumeChanged | src/AudioBand/AudioSource/AudioSession.cs:183-187 | the volume and the remembered volume both become the payload; nothing else changes |
| SessionSpec.OnTrackInfoChanged | src/AudioBand/AudioSource/AudioSession.cs:189-202 | a null payload changes nothing; otherwise the display shows exactly the payload's track, the payload is remembered, and nothing else changes |
| SessionSpec.HandleIdleProfile | src/AudioBand/AudioSource/AudioSession.cs:216-234 | a pause arms the timer with the interval read now and changes nothing else; playing stops the timer (keeping its interval), leaves idle and appends the last non-idle profile; it replays the remembered track and volume exactly when the session was idle with clear-on-idle, and otherwise leaves the display alone |
| SessionSpec.OnIsPlayingChanged | src/AudioBand/AudioSource/AudioSession.cs:173-181 | the playing flag becomes the payload; the idle machine runs first exactly when the automatic idle profile is on, and nothing else changes when it is off |
| SessionSpec.OnIdleTimerElapsed | src/AudioBand/AudioSource/AudioSession.cs:236-245 | the one-shot timer stops, the session becomes idle and the idle profile is appended; the display is cleared when clear-on-idle is set and untouched otherwise; source, subscriptions and memories are kept |
| SessionSpec.Handle | src/AudioBand/AudioSource/AudioSession.cs:158-202 | no handler changes the bound source or the subscriptions, and no handler makes the session idle |
| SessionTraces.HandleRepeatedly | src/AudioBand/AudioSource/AudioSession.cs:150-155 | a handler subscribed n times runs n times, and the bound source, the subscriptions and a non-idle state are preserved |
| SessionTraces.Deliver | src/AudioBand/AudioSource/AudioSession.cs:150-155 | an event from a channel with no handler changes nothing; with one handler it runs that handler once |
| SessionTraces.InitialIsWired | src/AudioBand/AudioSource/AudioSession.cs:34-41 | a new session holds no duplicate handler and, being unbound, satisfies the wiring invariant |
| SessionTraces.StepKeepsWired | src/AudioBand/AudioSource/AudioSession.cs:46-59 | every input keeps each channel at most once subscribed and the bound source subscribed on all six channels |
| SessionTraces.RunKeepsWired | src/AudioBand/AudioSource/AudioSession.cs:131-156 | the wiring invariant holds after any sequence of inputs |
| SessionTraces.StepNeverUnsubscribes | src/AudioBand/AudioSource/AudioSession.cs:56-57 | no input lowers the handler count of any channel of any source |
| SessionTraces.RunNeverUnsubscribes | src/AudioBand/AudioSource/AudioSession.cs:46-59 | over any run, a subscribed source stays subscribed, whatever is bound later |
| SessionTraces.StaleSourceStillUpdates | src/AudioBand/AudioSource/AudioSession.cs:56-57 | after switching from source a to source b, a volume event from a still sets the session's volume |
| SessionTraces.UnboundSessionStillUpdates | src/AudioBand/AudioSource/AudioSession.cs:144-148 | after unbinding a, a track-info event from a still fills the display while no source is bound |
| SessionTraces.OnlyTimerMakesIdle | src/AudioBand/AudioSource/AudioSession.cs:236-239 | no input other than the timer's expiry makes an active session idle |
| SessionTraces.TimerIsOneShot | src/AudioBand/AudioSource/AudioSession.cs:38-40 | once the timer has fired, a further expiry changes nothing |
| SessionTraces.ResumeBeforeTimeoutCancelsIdle | src/AudioBand/AudioSource/AudioSession.cs:216-234 | with the automatic profile, pause then resume then a timer expiry leaves the session active, playing and with the timer stopped, having selected only the last non-idle profile |
| SessionTraces.IdleThenResumeRestoresDisplay | src/AudioBand/AudioSource/AudioSession.cs:225-245 | with clear-on-idle, expiry then resume shows the remembered track and volume again, progress zero, playing, active, after selecting the idle and then the last non-idle profile |
| AudioSessions.AppSettings.SelectProfile | src/AudioBand/AudioSource/AudioSession.cs:232 | a profile selection is appended to the log and leaves the idle settings unchanged |
| AudioSessions.AudioSession.constructor | src/AudioBand/AudioSource/AudioSession.cs:34-41 | the new object is in the initial session state for the settings it was given |
| AudioSessions.AudioSession.SetIsPlaying | src/AudioBand/AudioSource/AudioSession.cs:62-66 | only the playing field changes |
| AudioSessions.AudioSession.SetSongArtist | src/AudioBand/AudioSource/AudioSession.cs:69-73 | only the artist field changes |
| AudioSessions.AudioSession.SetSongName | src/AudioBand/AudioSource/AudioSession.cs:76-80 | only the song name field changes |
| AudioSessions.AudioSession.SetAlbumName | src/AudioBand/AudioSource/AudioSession.cs:83-87 | only the album name field changes |
| AudioSessions.AudioSession.SetAlbumArt | src/AudioBand/AudioSource/AudioSession.cs:90-94 | only the album art field changes |
| AudioSessions.AudioSession.SetSongProgress | src/AudioBand/AudioSource/AudioSession.cs:97-101 | only the progress field changes |
| AudioSessions.AudioSession.SetSongLength | src/AudioBand/AudioSource/AudioSession.cs:104-108 | only the length field changes |
| AudioSessions.AudioSession.SetIsShuffleOn | src/AudioBand/AudioSource/AudioSession.cs:111-115 | only the shuffle field changes |
| AudioSessions.AudioSession.SetRepeatMode | src/AudioBand/AudioSource/AudioSession.cs:118-122 | only the repeat mode field changes |
| AudioSessions.AudioSession.SetVolume | src/AudioBand/AudioSource/AudioSession.cs:125-129 | only the volume field changes |
| AudioSessions.AudioSession.SetCurrentAudioSource | src/AudioBand/AudioSource/AudioSession.cs:46-59 | the object moves as SessionSpec.SetCurrentAudioSource says |
| AudioSessions.AudioSession.AudioSourceChanged | src/AudioBand/AudioSource/AudioSession.cs:131-156 | the object moves as SessionSpec.AudioSourceChanged says |
| AudioSessions.AudioSession.AudioSourceOnShuffleChanged | src/AudioBand/AudioSource/AudioSession.cs:158-161 | the object moves as SessionSpec.OnShuffleChanged says |
| AudioSessions.AudioSession.AudioSourceOnRepeatModeChanged | src/AudioBand/AudioSource/AudioSession.cs:163-166 | the object moves as SessionSpec.OnRepeatModeChanged says |
| AudioSessions.AudioSession.AudioSourceOnTrackProgressChanged | src/AudioBand/AudioSource/AudioSession.cs:168-171 | the object moves as SessionSpec.OnTrackProgressChanged says |
| AudioSessions.AudioSession.AudioSourceOnIsPlayingChanged | src/AudioBand/AudioSource/AudioSession.cs:173-181 | the object moves as SessionSpec.OnIsPlayingChanged says, under the settings as they were on entry, which it does not change |
| AudioSessions.AudioSession.AudioSourceVolumeChanged | src/AudioBand/AudioSource/AudioSession.cs:183-187 | the object moves as SessionSpec.OnVolumeChanged says |
| AudioSessions.AudioSession.AudioSourceOnTrackInfoChanged | src/AudioBand/AudioSource/AudioSession.cs:189-202 | the object moves as SessionSpec.OnTrackInfoChanged says |
| AudioSessions.AudioSession.ClearSession | src/AudioBand/AudioSource/AudioSession.cs:204-214 | the object moves as SessionSpec.ClearSession says |
| AudioSessions.AudioSession.HandleIdleProfile | src/AudioBand/AudioSource/AudioSession.cs:216-234 | the object moves as SessionSpec.HandleIdleProfile says, and the idle settings are unchanged |
| AudioSessions.AudioSession.OnIdleTimerElapsed | src/AudioBand/AudioSource/AudioSession.cs:236-245 | while the timer runs, its expiry moves the object as SessionSpec.OnIdleTimerElapsed says |
| AudioSessions.AudioSession.GetInterval | src/AudioBand/AudioSource/AudioSession.cs:247-252 | returns AudioSourceTypes.GetInterval of the timeout currently in the settings |
| VolumeButtonSpec.CurrentVolumeState | src/AudioBand/UI/PlaybackControls/VolumeButtonViewModel.cs:165-186 | the getter, applied to the view model's volume: Off exactly at volume 0, Low for other volumes up to 33 (negative ones included), Mid for 34..66, High above 66 |
| VolumeButtonSpec.StateIsMonotone | src/AudioBand/UI/PlaybackControls/VolumeButtonViewModel.cs:165-186 | on non-negative volumes, a louder volume never shows a quieter icon |
| VolumeButtonSpec.EveryStateReached | src/AudioBand/UI/PlaybackControls/VolumeButtonViewModel.cs:165-186 | each of the four icons is shown for some volume in 0..100 |
| VolumeButtonSpec.ScrollStep | src/AudioBand/UI/PlaybackControls/VolumeButtonViewModel.cs:256 | `Delta / 75` rounds toward zero: 75 times the step lies between 0 and the delta, less than 75 from it |
| VolumeButtonSpec.ScrollStepIsOdd | src/AudioBand/UI/PlaybackControls/VolumeButtonViewModel.cs:256 | scrolling by -d moves the volume by exactly the opposite of scrolling by d |
| VolumeButtonSpec.ScrollStepVersusEuclidean | src/AudioBand/UI/PlaybackControls/VolumeButtonViewModel.cs:256 | the step equals Euclidean division except on negative deltas that are not multiples of 75, where it is one more |
| VolumeButtonSpec.NotchSteps | src/AudioBand/UI/PlaybackControls/VolumeButtonViewModel.cs:254-257 | one wheel notch (120) moves the volume by one either way; a delta under 75 in magnitude moves it by nothing |
| VolumeButtonSpec.SetVolume | src/AudioBand/UI/PlaybackControls/VolumeButtonViewModel.cs:201-211 | the volume becomes the value; exactly one `SetVolumeAsync(value)` to the bound source is added when the value differs and a source is bound, none otherwise; the popup and earlier requests are kept |
| VolumeButtonSpec.SetVolumeIdempotent | src/AudioBand/UI/PlaybackControls/VolumeButtonViewModel.cs:201-211 | setting the same volume twice sends it at most once |
| VolumeButtonSpec.AudioSessionOnPropertyChanged | src/AudioBand/UI/PlaybackControls/VolumeButtonViewModel.cs:229-242 | a notification for any property but `Volume` changes nothing; for `Volume` the session's volume goes through the setter |
| VolumeButtonSpec.OpenVolumePopupCommandOnExecute | src/AudioBand/UI/PlaybackControls/VolumeButtonViewModel.cs:244-247 | the popup flag flips; volume and requests are kept |
| VolumeButtonSpec.PopupToggleTwiceRestores | src/AudioBand/UI/PlaybackControls/VolumeButtonViewModel.cs:244-247 | toggling twice restores the view model |
| VolumeButtonSpec.MouseLeftCommandOnExecute | src/AudioBand/UI/PlaybackControls/VolumeButtonViewModel.cs:249-252 | the popup is closed; volume and requests are kept |
| VolumeButtonSpec.MouseLeftIdempotent | src/AudioBand/UI/PlaybackControls/VolumeButtonViewModel.cs:249-252 | leaving twice is the same as leaving once |
| VolumeButtonSpec.VolumeMouseScrollCommandOnExecute | src/AudioBand/UI/PlaybackControls/VolumeButtonViewModel.cs:254-257 | the volume moves by the scroll step and the popup is kept; a zero step changes nothing; a non-zero step sends the new volume to the bound source, and nothing is sent when no source is bound |
| VolumeButtonSpec.ScrollIsNotClamped | src/AudioBand/UI/PlaybackControls/VolumeButtonViewModel.cs:254-257 | one notch down from volume 0 gives -1, which shows the Low icon |
| VolumeButtonSpec.SourceVolumeIsEchoed | src/AudioBand/UI/PlaybackControls/VolumeButtonViewModel.cs:229-242 | a volume event from the bound source that changes the session volume is sent back to that source by a view model that was in step |
| VolumeButtonViewModels.VolumeButtonViewModel.constructor | src/AudioBand/UI/PlaybackControls/VolumeButtonViewModel.cs:32-45 | a new view model listens to the given session, has volume 0, a closed popup and no requests |
| VolumeButtonViewModels.VolumeButtonViewModel.SetVolumeProperty | src/AudioBand/UI/PlaybackControls/VolumeButtonViewModel.cs:206 | `SetProperty` stores the value and reports whether it differed from the old one |
| VolumeButtonViewModels.VolumeButtonViewModel.SetVolume | src/AudioBand/UI/PlaybackControls/VolumeButtonViewModel.cs:201-211 | the object moves as VolumeButtonSpec.SetVolume says for the session's current source |
| VolumeButtonViewModels.VolumeButtonViewModel.AudioSessionOnPropertyChanged | src/AudioBand/UI/PlaybackControls/VolumeButtonViewModel.cs:229-237 | the object moves as VolumeButtonSpec.AudioSessionOnPropertyChanged says for the session's volume and source |
| VolumeButtonViewModels.VolumeButtonViewModel.OnVolumeChanged | src/AudioBand/UI/PlaybackControls/VolumeButtonViewModel.cs:239-242 | the object moves as VolumeButtonSpec.SetVolume says |
| VolumeButtonViewModels.VolumeButtonViewModel.OpenVolumePopupCommandOnExecute | src/AudioBand/UI/PlaybackControls/VolumeButtonViewModel.cs:244-247 | the object moves as VolumeButtonSpec.OpenVolumePopupCommandOnExecute says |
| VolumeButtonViewModels.VolumeButtonViewModel.MouseLeftCommandOnExecute | src/AudioBand/UI/PlaybackControls/VolumeButtonViewModel.cs:249-252 | the object moves as VolumeButtonSpec.MouseLeftCommandOnExecute says |
| VolumeButtonViewModels.VolumeButtonViewModel.VolumeMouseScrollCommandOnExecute | src/AudioBand/UI/PlaybackControls/VolumeButtonViewModel.cs:254-257 | the object moves as VolumeButtonSpec.VolumeMouseScrollCommandOnExecute says |

## Left out

- Threads and real time.
  - The timer's `Elapsed` handler runs on a thread-pool thread. The model
    applies each input atomically, in the order of the run.
  - The interval is stored but no clock is modelled. An expiry is an input
    that is accepted only while the timer runs.
- Change notifications. `SetProperty` is taken to assign the field and report
  whether the value differed. The `PropertyChanged` events it raises are not
  modelled. The exception is the volume button's reaction to the session's
  `Volume` notification, which is an explicit call.
- .NET types.
  - An `Image` is an opaque identity (`ArtId`).
  - A `TimeSpan` is its tick count.
  - A source is its reference identity.
  - An event handler's `sender` argument is ignored.
- `AudioSessions.AudioSession.OnIdleTimerElapsed`: requires the timer to be
  running. A `System.Timers.Timer` can still deliver an expiry just after
  `Stop`, and that race is not modelled.
- `AudioSourceTypes.GetInterval`: the exception that `Timer.Interval` throws
  for a non-positive interval (a negative timeout, or one that wraps) is not
  modelled. The wrapped value is stored.
- `RepeatMode`'s members besides its default are placeholders. The default
  value is taken to be the first member, `Off`.
- Foreign calls are recorded, not executed:
  - `IAppSettings.SelectProfile` is appended to a log. It is taken to leave
    the idle settings unchanged.
  - `IInternalAudioSource.SetVolumeAsync` is appended to a request list and
    not awaited.
- The handler replay in `HandleIdleProfile` passes `this` as sender and is
  otherwise the same handler call.
- The view model's `_volume` is a `double`. Every value the code shown
  assigns to it is a whole number (the session's `int` volume, and sums of `int` scroll steps),
  so it is an `int` here and the `(int)` cast in the setter is the identity.
- Event delivery to several sessions, and handlers other than the session's
  own on a source, are not part of this model.
- The rest of `VolumeButtonViewModel`:
  - colour and size properties;
  - button contents (`InitializeButtonContents`);
  - profile mapping (`MapSelf`, `AppSettingsOnProfileChanged`, `OnEndEdit`);
  - commands' `RelayCommand` plumbing.
  
  These are UI bindings with no volume logic.
- `NextButtonViewModel` and `IViewModelContainer` are not part of this model.
  They are a forwarding call to the bound source and a list of getters.
- Null settings objects and null profile names are not modelled. The settings
  are always present.
