/**
  Value types shared by the session and the playback controls: the identity of
  an audio source, the payloads its six change channels carry, the idle-policy
  settings, and the C# 32-bit integer arithmetic the idle interval relies on.
 */
module AudioSourceTypes {

  datatype Option<+T> = None | Some(value: T)

  /** Reference identity of an audio source object (`IInternalAudioSource`). */
  datatype SourceId = SourceId(id: nat)

  /** Reference identity of an album-art `Image`; its pixels are not modelled. */
  datatype ArtId = ArtId(id: nat)

  /** `RepeatMode`; its first member is the C# default value of the field. */
  datatype RepeatMode = Off | RepeatContext | RepeatTrack

  /**
    The payload of a track-info event (`TrackInfoChangedEventArgs`). Strings
    and the image may be null in C#, hence `Option`; a `TimeSpan` is its tick count.
   */
  datatype TrackInfo = TrackInfo(
    artist: Option<string>,
    trackName: Option<string>,
    album: Option<string>,
    trackLength: int,
    albumArt: Option<ArtId>)

  /** The six events of an audio source that the session subscribes to. */
  datatype Channel =
    | TrackInfoChanged
    | IsPlayingChanged
    | TrackProgressChanged
    | RepeatModeChanged
    | ShuffleChanged
    | VolumeChanged

  /** One raised event with its payload; `NewTrackInfo(None)` is a null payload. */
  datatype SourceEvent =
    | NewTrackInfo(info: Option<TrackInfo>)
    | NewIsPlaying(isPlaying: bool)
    | NewProgress(progress: int)
    | NewRepeatMode(mode: RepeatMode)
    | NewShuffle(isShuffleOn: bool)
    | NewVolume(volume: int)

  /** The channel an event travels on. */
  function ChannelOf(ev: SourceEvent): Channel
  {
    match ev
    case NewTrackInfo(_) => TrackInfoChanged
    case NewIsPlaying(_) => IsPlayingChanged
    case NewProgress(_) => TrackProgressChanged
    case NewRepeatMode(_) => RepeatModeChanged
    case NewShuffle(_) => ShuffleChanged
    case NewVolume(_) => VolumeChanged
  }

  const TwoTo31: int := 0x8000_0000
  const TwoTo32: int := 0x1_0000_0000

  /** A C# `int`. */
  type Int32 = x: int | -TwoTo31 <= x < TwoTo31

  /** The C# unchecked conversion of a mathematical integer to `int` (wrap-around). */
  function Wrap32(x: int): (r: Int32)
    ensures -TwoTo31 <= x < TwoTo31 ==> r == x
    ensures (x - r) % TwoTo32 == 0
  {
    (x + TwoTo31) % TwoTo32 - TwoTo31
  }

  /**
    The idle-policy part of the application settings (`AudioBandSettings`),
    read afresh by the session on every decision.
   */
  datatype AudioBandSettings = AudioBandSettings(
    useAutomaticIdleProfile: bool,
    clearSessionOnIdle: bool,
    shouldGoIdleAfterInSeconds: Int32,
    idleProfileName: string,
    lastNonIdleProfileName: string)

  /**
    `GetInterval`: the idle timer's interval in milliseconds. A timeout of
    zero seconds means 250 ms; otherwise seconds times 1000 in C# `int`
    arithmetic, which wraps for timeouts beyond 2147483 seconds.
   */
  function GetInterval(seconds: Int32): (ms: Int32)
    ensures seconds == 0 ==> ms == 250
    ensures 0 < seconds <= 2147483 ==> ms == seconds * 1000 && ms >= 1000
    ensures -2147483 <= seconds < 0 ==> ms == seconds * 1000 && ms <= -1000
  {
    if seconds == 0 then 250 else Wrap32(seconds * 1000)
  }

  /**
    Only a zero timeout yields the 250 ms interval, even with wrap-around:
    `seconds * 1000` is a multiple of 8, and so is every wrap of it, while 250 is not.
   */
  lemma IntervalIs250OnlyForZero(seconds: Int32)
    ensures GetInterval(seconds) == 250 <==> seconds == 0
  {
  }
}
