/**
  What the session does over time. A run is a sequence of inputs: binding a
  source, a source raising one of its events, or the idle timer firing, each
  with the settings as they are at that moment. An event reaches the session
  once per handler the raising source carries on that channel, whether or not
  that source is still the current one.
 */
module SessionTraces {
  import opened AudioSourceTypes
  import opened SessionSpec

  datatype Input =
    | SetSource(value: Option<SourceId>)
    | Raise(source: SourceId, ev: SourceEvent)
    | TimerElapsed

  datatype Occurrence = Occurrence(settings: AudioBandSettings, input: Input)

  /** The handler for `ev`, invoked `n` times (a C# multicast delegate with `n` entries). */
  function HandleRepeatedly(s: Session, settings: AudioBandSettings, ev: SourceEvent, n: nat): (r: Session)
    ensures r.currentSource == s.currentSource && r.subscriptions == s.subscriptions
    ensures r.isIdle ==> s.isIdle
    decreases n
  {
    if n == 0 then s else HandleRepeatedly(Handle(s, settings, ev), settings, ev, n - 1)
  }

  /**
    `source` raises `ev`: every session handler subscribed to that channel of
    `source` runs. A source the session holds no handler for is ignored.
   */
  function Deliver(s: Session, settings: AudioBandSettings, source: SourceId, ev: SourceEvent): (r: Session)
    ensures Count(s.subscriptions, source, ChannelOf(ev)) == 0 ==> r == s
    ensures Count(s.subscriptions, source, ChannelOf(ev)) == 1 ==> r == Handle(s, settings, ev)
  {
    HandleRepeatedly(s, settings, ev, Count(s.subscriptions, source, ChannelOf(ev)))
  }

  /** One input. The timer fires only while it is running. */
  function Step(s: Session, o: Occurrence): Session
  {
    match o.input
    case SetSource(value) => SetCurrentAudioSource(s, value)
    case Raise(source, ev) => Deliver(s, o.settings, source, ev)
    case TimerElapsed => if s.timerArmed then OnIdleTimerElapsed(s, o.settings) else s
  }

  function Run(s: Session, trace: seq<Occurrence>): Session
    decreases |trace|
  {
    if trace == [] then s else Run(Step(s, trace[0]), trace[1..])
  }

  /**
    The wiring the session keeps: no channel of any source carries the
    handler twice, and the bound source carries it on all six channels.
   */
  ghost predicate Wired(s: Session)
  {
    && (forall src, ch :: Count(s.subscriptions, src, ch) <= 1)
    && (s.currentSource.Some? ==> forall ch :: Count(s.subscriptions, s.currentSource.value, ch) == 1)
  }

  lemma InitialIsWired(settings: AudioBandSettings, profiles: seq<string>)
    ensures Wired(Initial(settings, profiles))
  {
  }

  /** Every input keeps the wiring. */
  lemma StepKeepsWired(s: Session, o: Occurrence)
    requires Wired(s)
    ensures Wired(Step(s, o))
  {
    match o.input
    case SetSource(value) =>
      var r := SetCurrentAudioSource(s, value);
      assert forall src, ch :: Count(r.subscriptions, src, ch) <= 1;
    case Raise(source, ev) =>
      assert Step(s, o).subscriptions == s.subscriptions;
    case TimerElapsed =>
  }

  /** Every run from a wired state (so every run from construction) stays wired. */
  lemma {:induction false} RunKeepsWired(s: Session, trace: seq<Occurrence>)
    requires Wired(s)
    ensures Wired(Run(s, trace))
    decreases |trace|
  {
    if trace != [] {
      StepKeepsWired(s, trace[0]);
      RunKeepsWired(Step(s, trace[0]), trace[1..]);
    }
  }

  /** No input ever removes a subscription: the handler count of every channel only grows. */
  lemma StepNeverUnsubscribes(s: Session, o: Occurrence, src: SourceId, ch: Channel)
    ensures Count(Step(s, o).subscriptions, src, ch) >= Count(s.subscriptions, src, ch)
  {
  }

  /**
    A source, once subscribed, is never unsubscribed, whatever is bound
    later: the `-=` block always runs against the newly bound source.
   */
  lemma {:induction false} RunNeverUnsubscribes(s: Session, trace: seq<Occurrence>, src: SourceId, ch: Channel)
    ensures Count(Run(s, trace).subscriptions, src, ch) >= Count(s.subscriptions, src, ch)
    decreases |trace|
  {
    if trace != [] {
      StepNeverUnsubscribes(s, trace[0], src, ch);
      RunNeverUnsubscribes(Step(s, trace[0]), trace[1..], src, ch);
    }
  }

  /**
    After switching from `a` to `b`, a late volume event from `a` still
    reaches the session and overwrites what it shows.
   */
  lemma StaleSourceStillUpdates(s: Session, settings: AudioBandSettings, a: SourceId, b: SourceId, volume: int)
    requires Wired(s) && s.currentSource == Some(a) && a != b
    ensures Deliver(SetCurrentAudioSource(s, Some(b)), settings, a, NewVolume(volume)).volume == volume
  {
  }

  /**
    After unbinding `a`, a late track-info event from `a` fills the display
    again although no source is bound.
   */
  lemma UnboundSessionStillUpdates(s: Session, settings: AudioBandSettings, a: SourceId, info: TrackInfo)
    requires Wired(s) && s.currentSource == Some(a)
    ensures var r := Deliver(SetCurrentAudioSource(s, None), settings, a, NewTrackInfo(Some(info)));
      r.currentSource == None && ShowsTrack(r, info)
  {
  }

  /** Only the timer makes the session idle. */
  lemma OnlyTimerMakesIdle(s: Session, o: Occurrence)
    requires !s.isIdle && !o.input.TimerElapsed?
    ensures !Step(s, o).isIdle
  {
  }

  /** The timer is one-shot: after it fired, a second expiry changes nothing. */
  lemma TimerIsOneShot(s: Session, settings: AudioBandSettings, later: AudioBandSettings)
    requires s.timerArmed
    ensures var fired := Step(s, Occurrence(settings, TimerElapsed));
      Step(fired, Occurrence(later, TimerElapsed)) == fired
  {
  }

  /**
    With the automatic idle profile on, a pause followed by a resume before
    the timer fires leaves the session active, stops the timer, and selects
    only the last non-idle profile: a later expiry has no effect.
   */
  lemma ResumeBeforeTimeoutCancelsIdle(s: Session, settings: AudioBandSettings, a: SourceId)
    requires Wired(s) && s.currentSource == Some(a) && settings.useAutomaticIdleProfile
    ensures var r := Run(s, [Occurrence(settings, Raise(a, NewIsPlaying(false))),
                             Occurrence(settings, Raise(a, NewIsPlaying(true))),
                             Occurrence(settings, TimerElapsed)]);
      && !r.isIdle && !r.timerArmed && r.isPlaying
      && r.selectedProfiles == s.selectedProfiles + [settings.lastNonIdleProfileName]
  {
    var o1 := Occurrence(settings, Raise(a, NewIsPlaying(false)));
    var o2 := Occurrence(settings, Raise(a, NewIsPlaying(true)));
    var o3 := Occurrence(settings, TimerElapsed);
    var paused := Step(s, o1);
    assert paused == OnIsPlayingChanged(s, settings, false);
    StepKeepsWired(s, o1);
    var resumed := Step(paused, o2);
    assert resumed == OnIsPlayingChanged(paused, settings, true);
    assert !resumed.timerArmed;
    assert Step(resumed, o3) == resumed;
    assert [o1, o2, o3][1..] == [o2, o3] && [o2, o3][1..] == [o3];
    assert Run(s, [o1, o2, o3]) == Run(paused, [o2, o3]) == Run(resumed, [o3]) == Run(resumed, []);
  }

  /**
    With clear-on-idle, going idle and then resuming shows again exactly the
    remembered track and volume, after selecting the idle profile and then
    the last non-idle one. The progress stays at zero until the source reports it.
   */
  lemma IdleThenResumeRestoresDisplay(s: Session, settings: AudioBandSettings, a: SourceId, info: TrackInfo)
    requires Wired(s) && s.currentSource == Some(a) && s.timerArmed
    requires settings.useAutomaticIdleProfile && settings.clearSessionOnIdle
    requires s.lastTrackInfo == Some(info)
    ensures var r := Run(s, [Occurrence(settings, TimerElapsed),
                             Occurrence(settings, Raise(a, NewIsPlaying(true)))]);
      && ShowsTrack(r, info) && r.volume == s.lastVolume && r.isPlaying && r.songProgress == 0
      && !r.isIdle && !r.timerArmed
      && r.selectedProfiles == s.selectedProfiles + [settings.idleProfileName, settings.lastNonIdleProfileName]
  {
    var o1 := Occurrence(settings, TimerElapsed);
    var o2 := Occurrence(settings, Raise(a, NewIsPlaying(true)));
    var idle := Step(s, o1);
    assert idle == OnIdleTimerElapsed(s, settings);
    StepKeepsWired(s, o1);
    var resumed := Step(idle, o2);
    assert resumed == OnIsPlayingChanged(idle, settings, true);
    assert [o1, o2][1..] == [o2];
    assert Run(s, [o1, o2]) == Run(idle, [o2]) == Run(resumed, []);
  }
}
