/**
  `AudioSession` as an object: the fields the C# class updates in place, the
  settings object it reads on every decision, and one method per member of
  the class. Each method is proved to take the session from `old(Model())`
  to the value the matching function of SessionSpec computes.
 */
module AudioSessions {
  import opened AudioSourceTypes
  import SessionSpec

  /**
    The application settings (`IAppSettings`) as the session uses them: the
    idle policy, which other code may change at any time, and a record of the
    `SelectProfile` calls received.
   */
  class AppSettings {
    var audioBandSettings: AudioBandSettings
    var selectedProfiles: seq<string>

    constructor (settings: AudioBandSettings)
      ensures audioBandSettings == settings && selectedProfiles == []
    {
      audioBandSettings := settings;
      selectedProfiles := [];
    }

    /** `SelectProfile`: recorded; its effect on the application is not modelled. */
    method SelectProfile(profileName: string)
      modifies this
      ensures selectedProfiles == old(selectedProfiles) + [profileName]
      ensures audioBandSettings == old(audioBandSettings)
    {
      selectedProfiles := selectedProfiles + [profileName];
    }
  }

  class AudioSession {
    const appSettings: AppSettings
    var currentAudioSource: Option<SourceId>
    // handlers of this session attached to the sources' events
    var subscriptions: SessionSpec.Subscriptions
    // `_idleProfileTimer`: one-shot, so only running or stopped, and its interval
    var idleTimerEnabled: bool
    var idleTimerInterval: Int32
    var isIdle: bool
    var isPlaying: bool
    var songArtist: Option<string>
    var songName: Option<string>
    var albumName: Option<string>
    var albumArt: Option<ArtId>
    var songProgress: int
    var songLength: int
    var isShuffleOn: bool
    var repeatMode: RepeatMode
    var volume: int
    var lastTrackInfo: Option<TrackInfo>
    var lastVolume: int

    ghost function Model(): SessionSpec.Session
      reads this, appSettings
    {
      SessionSpec.Session(
        currentSource := currentAudioSource, subscriptions := subscriptions,
        isIdle := isIdle, timerArmed := idleTimerEnabled, timerInterval := idleTimerInterval,
        isPlaying := isPlaying, songArtist := songArtist, songName := songName,
        albumName := albumName, albumArt := albumArt,
        songProgress := songProgress, songLength := songLength,
        isShuffleOn := isShuffleOn, repeatMode := repeatMode, volume := volume,
        lastTrackInfo := lastTrackInfo, lastVolume := lastVolume,
        selectedProfiles := appSettings.selectedProfiles)
    }

    // The property setters (`SetProperty`): assign the backing field and
    // nothing else. Change notifications are not modelled.

    method SetIsPlaying(value: bool)
      modifies this
      ensures Model() == old(Model()).(isPlaying := value)
    {
      isPlaying := value;
    }

    method SetSongArtist(value: Option<string>)
      modifies this
      ensures Model() == old(Model()).(songArtist := value)
    {
      songArtist := value;
    }

    method SetSongName(value: Option<string>)
      modifies this
      ensures Model() == old(Model()).(songName := value)
    {
      songName := value;
    }

    method SetAlbumName(value: Option<string>)
      modifies this
      ensures Model() == old(Model()).(albumName := value)
    {
      albumName := value;
    }

    method SetAlbumArt(value: Option<ArtId>)
      modifies this
      ensures Model() == old(Model()).(albumArt := value)
    {
      albumArt := value;
    }

    method SetSongProgress(value: int)
      modifies this
      ensures Model() == old(Model()).(songProgress := value)
    {
      songProgress := value;
    }

    method SetSongLength(value: int)
      modifies this
      ensures Model() == old(Model()).(songLength := value)
    {
      songLength := value;
    }

    method SetIsShuffleOn(value: bool)
      modifies this
      ensures Model() == old(Model()).(isShuffleOn := value)
    {
      isShuffleOn := value;
    }

    method SetRepeatMode(value: RepeatMode)
      modifies this
      ensures Model() == old(Model()).(repeatMode := value)
    {
      repeatMode := value;
    }

    method SetVolume(value: int)
      modifies this
      ensures Model() == old(Model()).(volume := value)
    {
      volume := value;
    }

    /** Starts idle, with no source and a stopped one-shot timer. */
    constructor (appSettings: AppSettings)
      ensures this.appSettings == appSettings
      ensures Model() == SessionSpec.Initial(appSettings.audioBandSettings, appSettings.selectedProfiles)
    {
      this.appSettings := appSettings;
      currentAudioSource := None;
      subscriptions := map[];
      isIdle := true;
      isPlaying := false;
      songArtist, songName, albumName, albumArt := None, None, None, None;
      songProgress, songLength := 0, 0;
      isShuffleOn, repeatMode, volume := false, Off, 0;
      lastTrackInfo, lastVolume := None, 0;
      idleTimerEnabled := false;
      new;
      idleTimerInterval := GetInterval();
    }

    /** The setter of `CurrentAudioSource`. */
    method SetCurrentAudioSource(value: Option<SourceId>)
      modifies this
      ensures Model() == SessionSpec.SetCurrentAudioSource(old(Model()), value)
    {
      if currentAudioSource == value {
        return;
      }
      currentAudioSource := value;
      AudioSourceChanged();
    }

    method AudioSourceChanged()
      modifies this
      ensures Model() == SessionSpec.AudioSourceChanged(old(Model()))
    {
      if currentAudioSource.Some? {
        var source := currentAudioSource.value;
        ClearSession();
        subscriptions := SessionSpec.RemoveHandler(subscriptions, source, TrackInfoChanged);
        subscriptions := SessionSpec.RemoveHandler(subscriptions, source, IsPlayingChanged);
        subscriptions := SessionSpec.RemoveHandler(subscriptions, source, TrackProgressChanged);
        subscriptions := SessionSpec.RemoveHandler(subscriptions, source, RepeatModeChanged);
        subscriptions := SessionSpec.RemoveHandler(subscriptions, source, ShuffleChanged);
        subscriptions := SessionSpec.RemoveHandler(subscriptions, source, VolumeChanged);
      }

      if currentAudioSource.None? {
        ClearSession();
        return;
      }

      var source := currentAudioSource.value;
      subscriptions := SessionSpec.AddHandler(subscriptions, source, TrackInfoChanged);
      subscriptions := SessionSpec.AddHandler(subscriptions, source, IsPlayingChanged);
      subscriptions := SessionSpec.AddHandler(subscriptions, source, TrackProgressChanged);
      subscriptions := SessionSpec.AddHandler(subscriptions, source, RepeatModeChanged);
      subscriptions := SessionSpec.AddHandler(subscriptions, source, ShuffleChanged);
      subscriptions := SessionSpec.AddHandler(subscriptions, source, VolumeChanged);
    }

    method AudioSourceOnShuffleChanged(e: bool)
      modifies this
      ensures Model() == SessionSpec.OnShuffleChanged(old(Model()), e)
    {
      SetIsShuffleOn(e);
    }

    method AudioSourceOnRepeatModeChanged(e: RepeatMode)
      modifies this
      ensures Model() == SessionSpec.OnRepeatModeChanged(old(Model()), e)
    {
      SetRepeatMode(e);
    }

    method AudioSourceOnTrackProgressChanged(e: int)
      modifies this
      ensures Model() == SessionSpec.OnTrackProgressChanged(old(Model()), e)
    {
      SetSongProgress(e);
    }

    method AudioSourceOnIsPlayingChanged(isPlaying: bool)
      modifies this, appSettings
      ensures Model() == SessionSpec.OnIsPlayingChanged(old(Model()), old(appSettings.audioBandSettings), isPlaying)
      ensures appSettings.audioBandSettings == old(appSettings.audioBandSettings)
    {
      if appSettings.audioBandSettings.useAutomaticIdleProfile {
        HandleIdleProfile(isPlaying);
      }

      SetIsPlaying(isPlaying);
    }

    method AudioSourceVolumeChanged(e: int)
      modifies this
      ensures Model() == SessionSpec.OnVolumeChanged(old(Model()), e)
    {
      SetVolume(e);
      lastVolume := e;
    }

    method AudioSourceOnTrackInfoChanged(e: Option<TrackInfo>)
      modifies this
      ensures Model() == SessionSpec.OnTrackInfoChanged(old(Model()), e)
    {
      if e.None? {
        return;
      }

      SetSongArtist(e.value.artist);
      SetSongLength(e.value.trackLength);
      SetSongName(e.value.trackName);
      SetAlbumName(e.value.album);
      SetAlbumArt(e.value.albumArt);
      lastTrackInfo := e;
    }

    method ClearSession()
      modifies this
      ensures Model() == SessionSpec.ClearSession(old(Model()))
    {
      SetIsPlaying(false);
      SetSongArtist(None);
      SetSongName(None);
      SetAlbumName(None);
      SetAlbumArt(None);
      SetSongProgress(0);
      SetSongLength(0);
      SetVolume(0);
    }

    method HandleIdleProfile(isPlaying: bool)
      modifies this, appSettings
      ensures Model() == SessionSpec.HandleIdleProfile(old(Model()), old(appSettings.audioBandSettings), isPlaying)
      ensures appSettings.audioBandSettings == old(appSettings.audioBandSettings)
    {
      if !isPlaying {
        idleTimerInterval := GetInterval();
        idleTimerEnabled := true;
        return;
      }

      if isIdle && appSettings.audioBandSettings.clearSessionOnIdle {
        AudioSourceOnTrackInfoChanged(lastTrackInfo);
        AudioSourceVolumeChanged(lastVolume);
      }

      isIdle := false;
      appSettings.SelectProfile(appSettings.audioBandSettings.lastNonIdleProfileName);
      idleTimerEnabled := false;
    }

    /** The timer's `Elapsed` handler; with `AutoReset` off the timer has stopped by then. */
    method OnIdleTimerElapsed()
      requires idleTimerEnabled
      modifies this, appSettings
      ensures Model() == SessionSpec.OnIdleTimerElapsed(old(Model()), old(appSettings.audioBandSettings))
      ensures appSettings.audioBandSettings == old(appSettings.audioBandSettings)
    {
      idleTimerEnabled := false;
      isIdle := true;
      appSettings.SelectProfile(appSettings.audioBandSettings.idleProfileName);

      if appSettings.audioBandSettings.clearSessionOnIdle {
        ClearSession();
      }
    }

    /** The interval for the current settings. */
    method GetInterval() returns (ms: Int32)
      ensures ms == AudioSourceTypes.GetInterval(appSettings.audioBandSettings.shouldGoIdleAfterInSeconds)
    {
      ms := AudioSourceTypes.GetInterval(appSettings.audioBandSettings.shouldGoIdleAfterInSeconds);
    }
  }
}
