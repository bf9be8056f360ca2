/** The video panel of js/ui.js: the `PERFORMANCE_PRESETS` table, the
    preset select, the five feature switches and the bloom-intensity slider,
    as a state machine over the stored settings, the panel's controls and
    the settings last handed to the renderer. */
module VideoSettings {
  import opened Wrappers
  import opened JsMath
  import opened StoredValues

  /** The five feature switches. */
  datatype Toggles = Toggles(antialiasing: bool, bloom: bool, fog: bool, snow: bool, leaves: bool)

  /** One switch, for the change handlers. */
  datatype Feature = Antialiasing | Bloom | Fog | Snow | Leaves

  /** One row of `PERFORMANCE_PRESETS`. */
  datatype Preset = Preset(toggles: Toggles, intensity: real)

  /** `PERFORMANCE_PRESETS[name]`: low turns everything off with intensity
      0, mid and high turn everything on with intensity 0.5 and 0.7. */
  function PresetTable(name: string): Option<Preset>
  {
    if name == "low" then Some(Preset(Toggles(false, false, false, false, false), 0.0))
    else if name == "mid" then Some(Preset(Toggles(true, true, true, true, true), 0.5))
    else if name == "high" then Some(Preset(Toggles(true, true, true, true, true), 0.7))
    else None
  }

  /** The video keys of `localStorage`. */
  datatype VideoStore = VideoStore(
    preset: Option<string>,
    antialiasing: Option<string>,
    bloom: Option<string>,
    fog: Option<string>,
    snow: Option<string>,
    leaves: Option<string>,
    bloomIntensity: Option<real>)

  /** The arguments of the last `applyVideoSettings` call. */
  datatype Applied = Applied(toggles: Toggles, intensity: real)

  /** The store, the preset select's value, the switches, the slider and
      what the renderer was last told. */
  datatype Video = Video(store: VideoStore, select: string, toggles: Toggles, slider: real, applied: Applied)

  function Get(t: Toggles, f: Feature): bool
  {
    match f
    case Antialiasing => t.antialiasing
    case Bloom => t.bloom
    case Fog => t.fog
    case Snow => t.snow
    case Leaves => t.leaves
  }

  function With(t: Toggles, f: Feature, on: bool): (t': Toggles)
    ensures Get(t', f) == on
    ensures forall g :: g != f ==> Get(t', g) == Get(t, g)
  {
    match f
    case Antialiasing => t.(antialiasing := on)
    case Bloom => t.(bloom := on)
    case Fog => t.(fog := on)
    case Snow => t.(snow := on)
    case Leaves => t.(leaves := on)
  }

  /** The switches as the stored flags give them. */
  function StoredToggles(s: VideoStore): Toggles
  {
    Toggles(ReadFlag(s.antialiasing), ReadFlag(s.bloom), ReadFlag(s.fog), ReadFlag(s.snow), ReadFlag(s.leaves))
  }

  /** The store with every flag written from the switches. */
  function WriteToggles(s: VideoStore, t: Toggles): VideoStore
  {
    s.(antialiasing := WriteFlag(t.antialiasing), bloom := WriteFlag(t.bloom), fog := WriteFlag(t.fog),
       snow := WriteFlag(t.snow), leaves := WriteFlag(t.leaves))
  }

  /** The store with one flag written. */
  function WriteOne(s: VideoStore, f: Feature, on: bool): VideoStore
  {
    match f
    case Antialiasing => s.(antialiasing := WriteFlag(on))
    case Bloom => s.(bloom := WriteFlag(on))
    case Fog => s.(fog := WriteFlag(on))
    case Snow => s.(snow := WriteFlag(on))
    case Leaves => s.(leaves := WriteFlag(on))
  }

  /** `updateBloomSliderValue`: clamp the value onto the slider; when the
      save throttle lets it (always when not dragging), store it and mark the
      preset custom; when the apply throttle lets it, hand the switches and
      the value to the renderer. */
  function BloomSlider(v: Video, value: real, save: bool, apply: bool): Video
  {
    var c := Clamp(0.0, 1.0, value);
    var v1 := v.(slider := c);
    var v2 := if save then v1.(store := v1.store.(bloomIntensity := WriteNumber(c), preset := Some("custom")),
                               select := "custom")
              else v1;
    if apply then v2.(applied := Applied(v2.toggles, c)) else v2
  }

  /** The slider update a preset choice evidently intends: the same, but
      without marking the preset custom. */
  function BloomSliderForPreset(v: Video, value: real): Video
  {
    var c := Clamp(0.0, 1.0, value);
    v.(slider := c, store := v.store.(bloomIntensity := WriteNumber(c)), applied := Applied(v.toggles, c))
  }

  /** `setupVideoPanel`'s start: the stored preset (default 'mid') on the
      select, the stored switches, then `setupBloomSlider` with the stored
      intensity (default 0.7), then one `applyVideoSettings`. */
  function Startup(s: VideoStore): Video
  {
    var t := StoredToggles(s);
    var i := ReadNumber(s.bloomIntensity, 0.7);
    var v := Video(s, ReadText(s.preset, "mid"), t, 0.0, Applied(t, i));
    var v' := BloomSlider(v, i, true, true);
    v'.(applied := Applied(t, i))
  }

  /** The preset select's change handler as written. */
  function SelectPreset(v: Video, name: string): Video
  {
    var v0 := v.(select := name, store := v.store.(preset := Some(name)));
    if name != "custom" then
      match PresetTable(name)
      case None => v0
      case Some(p) =>
        var v1 := BloomSlider(v0.(toggles := p.toggles), p.intensity, true, true);
        v1.(store := WriteToggles(v1.store, p.toggles).(bloomIntensity := WriteNumber(p.intensity)),
            applied := Applied(p.toggles, p.intensity))
    else
      var t := StoredToggles(v0.store);
      var i := ReadNumber(v0.store.bloomIntensity, 0.7);
      var v1 := BloomSlider(v0.(toggles := t), i, true, true);
      v1.(applied := Applied(t, i))
  }

  /** The preset change handler as evidently intended: a named preset stays
      selected and stored. */
  function SelectPresetIntended(v: Video, name: string): Video
  {
    var v0 := v.(select := name, store := v.store.(preset := Some(name)));
    if name != "custom" then
      match PresetTable(name)
      case None => v0
      case Some(p) =>
        var v1 := BloomSliderForPreset(v0.(toggles := p.toggles), p.intensity);
        v1.(store := WriteToggles(v1.store, p.toggles).(bloomIntensity := WriteNumber(p.intensity)),
            applied := Applied(p.toggles, p.intensity))
    else
      var t := StoredToggles(v0.store);
      var i := ReadNumber(v0.store.bloomIntensity, 0.7);
      var v1 := BloomSlider(v0.(toggles := t), i, true, true);
      v1.(applied := Applied(t, i))
  }

  /** One switch's change handler: store the flag, mark the preset custom,
      and apply the switches with the stored intensity. */
  function Toggle(v: Video, f: Feature, on: bool): Video
  {
    var t := With(v.toggles, f, on);
    var s := WriteOne(v.store, f, on).(preset := Some("custom"));
    v.(toggles := t, store := s, select := "custom", applied := Applied(t, ReadNumber(s.bloomIntensity, 0.7)))
  }

  // ---------------------------------------------------------------------

  /** A written flag set reads back as written. */
  lemma TogglesRoundTrip(s: VideoStore, t: Toggles)
    ensures StoredToggles(WriteToggles(s, t)) == t
  {
    FlagRoundTrip(t.antialiasing);
    FlagRoundTrip(t.bloom);
    FlagRoundTrip(t.fog);
    FlagRoundTrip(t.snow);
    FlagRoundTrip(t.leaves);
  }

  /** Choosing low, mid or high sets the switches, the slider, the renderer
      and the stored flags and intensity to the table's row; but, as
      written, the slider update inside marks the preset custom, so the
      select shows 'custom' and 'custom' is what is stored. Stored
      intensity 0 (the low row) reads back as 0.7. */
  lemma PresetSelected(v: Video, name: string)
    requires PresetTable(name).Some?
    ensures var p := PresetTable(name).value;
      var v' := SelectPreset(v, name);
      && v'.toggles == p.toggles
      && v'.slider == p.intensity
      && v'.applied == Applied(p.toggles, p.intensity)
      && StoredToggles(v'.store) == p.toggles
      && v'.store.bloomIntensity == Some(p.intensity)
      && ReadNumber(v'.store.bloomIntensity, 0.7) == (if p.intensity == 0.0 then 0.7 else p.intensity)
      && v'.store.preset == Some("custom") && v'.select == "custom"
  {
    var p := PresetTable(name).value;
    var v1 := BloomSlider(v.(select := name, store := v.store.(preset := Some(name)), toggles := p.toggles),
                          p.intensity, true, true);
    TogglesRoundTrip(v1.store, p.toggles);
  }

  /** Concretely: low hands the renderer everything off at intensity 0
      (which reads back from the store as 0.7), mid everything on at 0.5,
      high everything on at 0.7. */
  lemma PresetRows(v: Video)
    ensures SelectPreset(v, "low").applied == Applied(Toggles(false, false, false, false, false), 0.0)
    ensures ReadNumber(SelectPreset(v, "low").store.bloomIntensity, 0.7) == 0.7
    ensures SelectPreset(v, "mid").applied == Applied(Toggles(true, true, true, true, true), 0.5)
    ensures SelectPreset(v, "high").applied == Applied(Toggles(true, true, true, true, true), 0.7)
  {
    PresetSelected(v, "low");
  }

  /** The intended handler does the same to the switches, the slider, the
      renderer and the stored values, and keeps the chosen preset selected
      and stored. */
  lemma PresetSelectedIntended(v: Video, name: string)
    requires PresetTable(name).Some?
    ensures var p := PresetTable(name).value;
      var v' := SelectPresetIntended(v, name);
      && v'.toggles == p.toggles
      && v'.slider == p.intensity
      && v'.applied == Applied(p.toggles, p.intensity)
      && StoredToggles(v'.store) == p.toggles
      && v'.store.bloomIntensity == Some(p.intensity)
      && v'.store.preset == Some(name) && v'.select == name
  {
    var p := PresetTable(name).value;
    var v1 := BloomSliderForPreset(v.(select := name, store := v.store.(preset := Some(name)), toggles := p.toggles),
                                   p.intensity);
    TogglesRoundTrip(v1.store, p.toggles);
  }

  /** Choosing 'custom' restores the stored switches and the stored
      intensity (0 reading as 0.7), puts the intensity on the slider clamped
      to [0, 1], stores that back, and applies the switches with the
      intensity as read. */
  lemma CustomSelected(v: Video)
    ensures var v' := SelectPreset(v, "custom");
      var t := StoredToggles(v.store);
      var i := ReadNumber(v.store.bloomIntensity, 0.7);
      && v'.toggles == t
      && v'.slider == Clamp(0.0, 1.0, i)
      && v'.store.bloomIntensity == Some(v'.slider)
      && v'.applied == Applied(t, i)
      && v'.store.preset == Some("custom") && v'.select == "custom"
  {
  }

  /** Changing one switch stores it, leaves the other switches alone, marks
      the preset custom, and applies the switches with the stored
      intensity. */
  lemma ToggleMarksCustom(v: Video, f: Feature, on: bool, g: Feature)
    ensures var v' := Toggle(v, f, on);
      && Get(v'.toggles, f) == on
      && (g != f ==> Get(v'.toggles, g) == Get(v.toggles, g))
      && Get(StoredToggles(v'.store), f) == on
      && (g != f ==> Get(StoredToggles(v'.store), g) == Get(StoredToggles(v.store), g))
      && v'.store.preset == Some("custom") && v'.select == "custom"
      && v'.applied.toggles == v'.toggles
  {
    FlagRoundTrip(on);
  }

  /** A slider save marks the preset custom and stores the clamped value;
      a throttled drag step stores nothing and leaves the preset alone. */
  lemma SliderSaveMarksCustom(v: Video, value: real, save: bool, apply: bool)
    ensures var v' := BloomSlider(v, value, save, apply);
      && 0.0 <= v'.slider <= 1.0
      && (save ==> v'.store.preset == Some("custom") && v'.select == "custom"
                   && v'.store.bloomIntensity == Some(v'.slider))
      && (!save ==> v'.store == v.store && v'.select == v.select)
      && (apply ==> v'.applied == Applied(v.toggles, v'.slider))
      && (!apply ==> v'.applied == v.applied)
  {
  }

  /** Every page load ends with 'custom' stored and selected, whatever
      preset was saved, because `setupBloomSlider` saves the initial value
      through the slider update; the switches come from the stored flags. */
  lemma StartupMarksCustom(s: VideoStore)
    ensures Startup(s).store.preset == Some("custom") && Startup(s).select == "custom"
    ensures Startup(s).toggles == StoredToggles(s)
  {
  }
}
