/**
  The volume logic of the volume button's view model, as values: the icon
  classification, the `Volume` setter that writes back to the bound source,
  the popup commands and the mouse-wheel step in C# integer division.
 */
module VolumeButtonSpec {
  import opened AudioSourceTypes
  import SessionSpec

  datatype VolumeState = Off | Low | Mid | High

  /** `CurrentVolumeState`: which of the four icons the button shows. */
  function CurrentVolumeState(volume: int): (state: VolumeState)
    ensures state == VolumeState.Off <==> volume == 0
    ensures state == Low <==> volume != 0 && volume <= 33
    ensures state == Mid <==> 34 <= volume <= 66
    ensures state == High <==> volume > 66
  {
    if volume == 0 then VolumeState.Off
    else if volume <= 33 then Low
    else if volume <= 66 then Mid
    else High
  }

  /** The loudness a state stands for, for comparing states. */
  function Level(state: VolumeState): nat
  {
    match state
    case Off => 0
    case Low => 1
    case Mid => 2
    case High => 3
  }

  /** On non-negative volumes a louder volume never shows a quieter icon. */
  lemma StateIsMonotone(a: int, b: int)
    requires 0 <= a <= b
    ensures Level(CurrentVolumeState(a)) <= Level(CurrentVolumeState(b))
  {
  }

  /** Every state is reached by some volume of the 0..100 range. */
  lemma EveryStateReached(state: VolumeState)
    ensures exists v :: 0 <= v <= 100 && CurrentVolumeState(v) == state
  {
    var v := match state case Off => 0 case Low => 1 case Mid => 34 case High => 67;
    assert CurrentVolumeState(v) == state;
  }

  /** C# `/` on `int`: the quotient truncated toward zero. */
  function TruncatedDivision(a: int, b: int): int
    requires b != 0
  {
    var q := (if a < 0 then -a else a) / (if b < 0 then -b else b);
    if (a < 0) == (b < 0) then q else -q
  }

  /**
    The volume change of one mouse-wheel event, `Delta / 75`: the quotient
    of the wheel delta by 75 rounded toward zero, so that `75 * step` lies
    between zero and `delta`, less than 75 away from `delta`.
   */
  function ScrollStep(delta: int): (step: int)
    ensures delta >= 0 ==> 0 <= 75 * step <= delta < 75 * step + 75
    ensures delta < 0 ==> 75 * step - 75 < delta <= 75 * step <= 0
  {
    TruncatedDivision(delta, 75)
  }

  /** Scrolling down moves the volume exactly as far as scrolling up by the same amount. */
  lemma ScrollStepIsOdd(delta: int)
    ensures ScrollStep(-delta) == -ScrollStep(delta)
  {
  }

  /**
    The step differs from Dafny's (Euclidean) division exactly on negative
    deltas that are not multiples of 75, where it is one more.
   */
  lemma ScrollStepVersusEuclidean(delta: int)
    ensures ScrollStep(delta) == if delta < 0 && delta % 75 != 0 then delta / 75 + 1 else delta / 75
  {
  }

  /** A standard wheel notch (120 units) moves the volume by one, and a delta under 75 by nothing. */
  lemma NotchSteps(delta: int)
    ensures ScrollStep(120) == 1 && ScrollStep(-120) == -1
    ensures -75 < delta < 75 ==> ScrollStep(delta) == 0
  {
  }

  /** A call the view model makes on the bound source (`SetVolumeAsync`), recorded instead of run. */
  datatype VolumeRequest = SetVolumeAsync(source: SourceId, volume: int)

  /** The state of a volume button view model, with every request it sent. */
  datatype VolumeButton = VolumeButton(volume: int, isVolumePopupOpen: bool, requests: seq<VolumeRequest>)

  /**
    The `Volume` setter: the volume becomes `value`; the value goes to the
    bound source only if it differs from the old volume and a source is bound.
   */
  function SetVolume(b: VolumeButton, source: Option<SourceId>, value: int): (r: VolumeButton)
    ensures r.volume == value && r.isVolumePopupOpen == b.isVolumePopupOpen
    ensures |r.requests| == |b.requests| + (if value != b.volume && source.Some? then 1 else 0)
    ensures r.requests[..|b.requests|] == b.requests
    ensures |r.requests| > |b.requests| ==> r.requests[|b.requests|] == SetVolumeAsync(source.value, value)
  {
    var changed := b.volume != value;
    var b' := b.(volume := value);
    if changed && source.Some? then b'.(requests := b'.requests + [SetVolumeAsync(source.value, value)]) else b'
  }

  /** Setting the same value twice sends it at most once: the setter is idempotent. */
  lemma SetVolumeIdempotent(b: VolumeButton, source: Option<SourceId>, value: int)
    ensures SetVolume(SetVolume(b, source, value), source, value) == SetVolume(b, source, value)
  {
  }

  /**
    `AudioSessionOnPropertyChanged` with `OnVolumeChanged`: a change
    notification for any property but `Volume` is ignored; for `Volume` the
    view model takes the session's volume through its own setter.
   */
  function AudioSessionOnPropertyChanged(b: VolumeButton, propertyName: string, sessionVolume: int,
                                         source: Option<SourceId>): (r: VolumeButton)
    ensures propertyName != "Volume" ==> r == b
    ensures propertyName == "Volume" ==> r == SetVolume(b, source, sessionVolume)
  {
    if propertyName != "Volume" then b else SetVolume(b, source, sessionVolume)
  }

  /** `OpenVolumePopupCommandOnExecute`: flips the popup, nothing else. */
  function OpenVolumePopupCommandOnExecute(b: VolumeButton): (r: VolumeButton)
    ensures r.isVolumePopupOpen == !b.isVolumePopupOpen
    ensures r.volume == b.volume && r.requests == b.requests
  {
    b.(isVolumePopupOpen := !b.isVolumePopupOpen)
  }

  /** Two invocations of the popup command restore the popup. */
  lemma PopupToggleTwiceRestores(b: VolumeButton)
    ensures OpenVolumePopupCommandOnExecute(OpenVolumePopupCommandOnExecute(b)) == b
  {
  }

  /** `MouseLeftCommandOnExecute`: closes the popup, nothing else. */
  function MouseLeftCommandOnExecute(b: VolumeButton): (r: VolumeButton)
    ensures !r.isVolumePopupOpen
    ensures r.volume == b.volume && r.requests == b.requests
  {
    b.(isVolumePopupOpen := false)
  }

  lemma MouseLeftIdempotent(b: VolumeButton)
    ensures MouseLeftCommandOnExecute(MouseLeftCommandOnExecute(b)) == MouseLeftCommandOnExecute(b)
  {
  }

  /**
    `VolumeMouseScrollCommandOnExecute`: the volume moves by the scroll step
    through the setter, with no clamping to 0..100.
   */
  function VolumeMouseScrollCommandOnExecute(b: VolumeButton, source: Option<SourceId>, delta: int): (r: VolumeButton)
    ensures r.volume == b.volume + ScrollStep(delta) && r.isVolumePopupOpen == b.isVolumePopupOpen
    ensures ScrollStep(delta) == 0 ==> r == b
    ensures source.None? ==> r.requests == b.requests
    ensures ScrollStep(delta) != 0 && source.Some? ==>
      r.requests == b.requests + [SetVolumeAsync(source.value, r.volume)]
  {
    SetVolume(b, source, b.volume + ScrollStep(delta))
  }

  /** Nothing keeps the volume in 0..100: a notch down from 0 gives -1, shown as Low. */
  lemma ScrollIsNotClamped(b: VolumeButton, source: Option<SourceId>)
    requires b.volume == 0
    ensures var r := VolumeMouseScrollCommandOnExecute(b, source, -120);
      r.volume == -1 && CurrentVolumeState(r.volume) == Low
  {
  }

  /**
    A volume event from the bound source that changes the session's volume
    is sent straight back to that source: the session announces `Volume`,
    and a view model that showed the old volume forwards the new one.
   */
  lemma SourceVolumeIsEchoed(s: SessionSpec.Session, b: VolumeButton, v: int)
    requires s.currentSource.Some? && b.volume == s.volume && v != s.volume
    ensures var s' := SessionSpec.OnVolumeChanged(s, v);
      var r := AudioSessionOnPropertyChanged(b, "Volume", s'.volume, s'.currentSource);
      r.volume == v && r.requests == b.requests + [SetVolumeAsync(s.currentSource.value, v)]
  {
  }
}
