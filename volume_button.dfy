/**
  `VolumeButtonViewModel` as an object: its volume and popup fields, the
  session it listens to, and the requests it sends to the session's current
  source. Each method is proved to move the view model as the matching
  function of VolumeButtonSpec says. The `CurrentVolumeState` getter is
  VolumeButtonSpec.CurrentVolumeState of the `volume` field.
 */
module VolumeButtonViewModels {
  import opened AudioSourceTypes
  import opened VolumeButtonSpec
  import AudioSessions

  class VolumeButtonViewModel {
    const audioSession: AudioSessions.AudioSession
    var isVolumePopupOpen: bool
    var volume: int
    // every `SetVolumeAsync` call made on a source, oldest first
    var requests: seq<VolumeRequest>

    ghost function Model(): VolumeButton
      reads this
    {
      VolumeButton(volume, isVolumePopupOpen, requests)
    }

    constructor (audioSession: AudioSessions.AudioSession)
      ensures this.audioSession == audioSession
      ensures Model() == VolumeButton(0, false, [])
    {
      this.audioSession := audioSession;
      isVolumePopupOpen := false;
      volume := 0;
      requests := [];
    }

    /** `SetProperty` on the volume: assigns and tells whether the value differed. */
    method SetVolumeProperty(value: int) returns (changed: bool)
      modifies this
      ensures changed == (old(volume) != value)
      ensures Model() == old(Model()).(volume := value)
    {
      changed := volume != value;
      volume := value;
    }

    /** The setter of `Volume`. */
    method SetVolume(value: int)
      modifies this
      ensures Model() == VolumeButtonSpec.SetVolume(old(Model()), audioSession.currentAudioSource, value)
    {
      var changed := SetVolumeProperty(value);
      if changed && audioSession.currentAudioSource.Some? {
        requests := requests + [SetVolumeAsync(audioSession.currentAudioSource.value, value)];
      }
    }

    method AudioSessionOnPropertyChanged(propertyName: string)
      modifies this
      ensures Model() == VolumeButtonSpec.AudioSessionOnPropertyChanged(
        old(Model()), propertyName, audioSession.volume, audioSession.currentAudioSource)
    {
      if propertyName != "Volume" {
        return;
      }

      OnVolumeChanged(audioSession.volume);
    }

    method OnVolumeChanged(newVolume: int)
      modifies this
      ensures Model() == VolumeButtonSpec.SetVolume(old(Model()), audioSession.currentAudioSource, newVolume)
    {
      SetVolume(newVolume);
    }

    method OpenVolumePopupCommandOnExecute()
      modifies this
      ensures Model() == VolumeButtonSpec.OpenVolumePopupCommandOnExecute(old(Model()))
    {
      isVolumePopupOpen := !isVolumePopupOpen;
    }

    method MouseLeftCommandOnExecute()
      modifies this
      ensures Model() == VolumeButtonSpec.MouseLeftCommandOnExecute(old(Model()))
    {
      isVolumePopupOpen := false;
    }

    method VolumeMouseScrollCommandOnExecute(delta: int)
      modifies this
      ensures Model() == VolumeButtonSpec.VolumeMouseScrollCommandOnExecute(
        old(Model()), audioSession.currentAudioSource, delta)
    {
      SetVolume(volume + TruncatedDivision(delta, 75));
    }
  }
}
