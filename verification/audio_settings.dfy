/** `applyAudioSettings` of js/ui.js and its callers: the background music's
    volume and play state and the ambient sound's command, from the master
    and music switches and volumes. */
module AudioSettings {
  import opened Wrappers
  import opened JsMath
  import opened StoredValues

  /** What happens to the ambient sound: stopped (if it plays) when master
      audio is off, otherwise set to the master volume. */
  datatype Ambient = StopIfPlaying | SetAmbientVolume(volume: real)

  /** The background music element after the call. */
  datatype Music = Music(volume: real, playing: bool)

  datatype Output = Output(music: Music, ambient: Ambient)

  /** `Math.max(0, Math.min(1, v || 1.0))`, as the source clamps a volume. */
  function ClampAsWritten(v: real): (r: real)
    ensures 0.0 <= r <= 1.0
  {
    Clamp(0.0, 1.0, OrDefault(Some(v), 1.0))
  }

  /** The routing shared by both readings of the volumes: master off mutes
      and pauses, master and music on plays at their product, music off
      mutes and pauses. */
  function Route(masterOn: bool, musicOn: bool, masterVol: real, musicVol: real): Output
  {
    var ambient := if !masterOn then StopIfPlaying else SetAmbientVolume(masterVol);
    var music :=
      if !masterOn then Music(0.0, false)
      else if musicOn then Music(masterVol * musicVol, true)
      else Music(0.0, false);
    Output(music, ambient)
  }

  /** `applyAudioSettings` as written: a volume of 0 is replaced by 1.0
      before clamping. */
  function ApplyAudioAsWritten(masterOn: bool, musicOn: bool, masterVolume: real, musicVolume: real): Output
  {
    Route(masterOn, musicOn, ClampAsWritten(masterVolume), ClampAsWritten(musicVolume))
  }

  /** `applyAudioSettings` as evidently intended: the volumes are only
      clamped. */
  function ApplyAudio(masterOn: bool, musicOn: bool, masterVolume: real, musicVolume: real): Output
  {
    Route(masterOn, musicOn, Clamp(0.0, 1.0, masterVolume), Clamp(0.0, 1.0, musicVolume))
  }

  lemma ProductInRange(a: real, b: real)
    requires 0.0 <= a <= 1.0 && 0.0 <= b <= 1.0
    ensures 0.0 <= a * b <= b
    ensures a * b <= a
  {
    Scale(a, b);
    Scale(b, a);
  }

  /** The effective music volume: 0 and paused when master is off, 0 and
      paused when master is on and music off, and master times music, both
      clamped to [0, 1], while playing when both are on; the ambient sound
      follows the master switch and the master volume. The volume is always
      in [0, 1], and a master or music volume of 0 silences the music. */
  lemma EffectiveMusicVolume(masterOn: bool, musicOn: bool, masterVolume: real, musicVolume: real)
    ensures var out := ApplyAudio(masterOn, musicOn, masterVolume, musicVolume);
      var m, mu := Clamp(0.0, 1.0, masterVolume), Clamp(0.0, 1.0, musicVolume);
      && 0.0 <= out.music.volume <= 1.0
      && (out.music.playing <==> masterOn && musicOn)
      && (masterOn && musicOn ==> out.music.volume == m * mu)
      && (!(masterOn && musicOn) ==> out.music.volume == 0.0)
      && (masterOn ==> out.ambient == SetAmbientVolume(m))
      && (!masterOn ==> out.ambient == StopIfPlaying)
      && (masterVolume <= 0.0 || musicVolume <= 0.0 ==> out.music.volume == 0.0)
  {
    ProductInRange(Clamp(0.0, 1.0, masterVolume), Clamp(0.0, 1.0, musicVolume));
  }

  /** As written, the same routing holds, but a volume of exactly 0 counts
      as full volume: with both switches on and the master volume dragged to
      0, the music plays at the music volume instead of being silent. */
  lemma ZeroMasterPlaysFull(musicVolume: real)
    requires 0.0 < musicVolume <= 1.0
    ensures ApplyAudioAsWritten(true, true, 0.0, musicVolume).music == Music(musicVolume, true)
    ensures ApplyAudioAsWritten(true, true, 0.0, musicVolume).ambient == SetAmbientVolume(1.0)
    ensures ApplyAudio(true, true, 0.0, musicVolume).music == Music(0.0, true)
  {
  }

  /** The two readings agree on every volume other than 0. */
  lemma AsWrittenAgreesOffZero(masterOn: bool, musicOn: bool, masterVolume: real, musicVolume: real)
    requires masterVolume != 0.0 && musicVolume != 0.0
    ensures ApplyAudioAsWritten(masterOn, musicOn, masterVolume, musicVolume) ==
            ApplyAudio(masterOn, musicOn, masterVolume, musicVolume)
  {
  }

  // ---------------------------------------------------------------------
  // The stored audio settings and the calls that read them.

  /** The four audio keys of `localStorage`. */
  datatype AudioStore = AudioStore(
    masterEnabled: Option<string>,
    musicEnabled: Option<string>,
    masterVolume: Option<real>,
    musicVolume: Option<real>)

  /** `setupAudioPanel`: read the switches and volumes and apply them. */
  function AudioStartup(s: AudioStore): Output
  {
    ApplyAudioAsWritten(ReadFlag(s.masterEnabled), ReadFlag(s.musicEnabled),
                        ReadNumber(s.masterVolume, 1.0), ReadNumber(s.musicVolume, 1.0))
  }

  /** `setupAudioPanel` as evidently intended: stored volumes read back as
      stored. */
  function AudioStartupIntended(s: AudioStore): Output
  {
    ApplyAudio(ReadFlag(s.masterEnabled), ReadFlag(s.musicEnabled),
               ReadStoredNumber(s.masterVolume, 1.0), ReadStoredNumber(s.musicVolume, 1.0))
  }

  /** A fresh store (nothing saved) starts with both switches on at full
      volume; as written, a saved master volume of 0 starts the music at
      full volume too, where the intended reading keeps it silent. */
  lemma StartupVolumes(s: AudioStore)
    ensures AudioStartup(AudioStore(None, None, None, None)).music == Music(1.0, true)
    ensures s.masterEnabled == None && s.musicEnabled == None &&
            s.masterVolume == Some(0.0) && s.musicVolume == None ==>
              && AudioStartup(s).music == Music(1.0, true)
              && AudioStartupIntended(s).music == Music(0.0, true)
  {
  }

  /** The volume slider's save-and-apply (`updateSliderValue`): the dragged
      volume is clamped, stored when the save throttle lets it, and applied
      with the other volume read from the store. `master` says which slider
      moved; `save` is the throttle's verdict (always true when not
      dragging). */
  function VolumeSlider(s: AudioStore, masterOn: bool, musicOn: bool, master: bool, value: real, save: bool):
    (AudioStore, Output)
  {
    var v := Clamp(0.0, 1.0, value);
    var s' := if !save then s
              else if master then s.(masterVolume := WriteNumber(v))
              else s.(musicVolume := WriteNumber(v));
    var out := if master then ApplyAudioAsWritten(masterOn, musicOn, v, ReadNumber(s.musicVolume, 1.0))
               else ApplyAudioAsWritten(masterOn, musicOn, ReadNumber(s.masterVolume, 1.0), v);
    (s', out)
  }

  /** Dragging the master slider to 0 stores 0 but, as written, plays the
      music at the stored music volume. */
  lemma SliderToZero(s: AudioStore)
    requires s.musicVolume == Some(0.5)
    ensures var (s', out) := VolumeSlider(s, true, true, true, -3.0, true);
      s'.masterVolume == Some(0.0) && out.music == Music(0.5, true)
  {
  }
}
