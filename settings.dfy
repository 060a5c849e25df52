/** CalibrationSettings: the configuration the calibration controller reads.
    The getters PluginName, PositionKey and SampleRate are pure functions of the fields. */
module Settings {

  /** CalibrationSettings.Mode (`_2D`, `_3D`); `_2D` is the enum's default value. */
  datatype Mode = TwoD | ThreeD

  datatype CalibrationSettings = CalibrationSettings(
    mode: Mode,
    secondsPerTarget: real,
    ignoreInitialSeconds: real,
    samplesPerTarget: int)

  /** Settings for which SampleRate is finite and positive and a target can take a sample. */
  predicate ValidSettings(s: CalibrationSettings)
  {
    s.samplesPerTarget >= 1 && s.secondsPerTarget > s.ignoreInitialSeconds
  }

  /** A freshly created settings asset: mode is the enum default, the three timing
      fields have their initialisers. */
  function DefaultSettings(): (s: CalibrationSettings)
    ensures s.mode == TwoD
    ensures ValidSettings(s)
    ensures SampleRate(s) > 44.0 && SampleRate(s) < 45.0
  {
    CalibrationSettings(TwoD, 1.0, 0.1, 40)
  }

  /** Name of the calibration plugin the engine is asked to start. */
  function PluginName(s: CalibrationSettings): (name: string)
    ensures name == "HMD_Calibration" <==> s.mode.TwoD?
    ensures name == "HMD_Calibration_3D" <==> s.mode.ThreeD?
  {
    if s.mode == TwoD then "HMD_Calibration" else "HMD_Calibration_3D"
  }

  /** Key under which the reference positions are sent. */
  function PositionKey(s: CalibrationSettings): (key: string)
    ensures key == "norm_pos" <==> s.mode.TwoD?
    ensures key == "mm_pos" <==> s.mode.ThreeD?
  {
    if s.mode == TwoD then "norm_pos" else "mm_pos"
  }

  /** Both protocol tags are determined by the mode alone, and each tells the two modes apart. */
  lemma TagsIdentifyMode(s: CalibrationSettings, t: CalibrationSettings)
    ensures PluginName(s) == PluginName(t) <==> s.mode == t.mode
    ensures PositionKey(s) == PositionKey(t) <==> s.mode == t.mode
  {
  }

  /** Samples per second needed to take samplesPerTarget samples in the part of a
      target's time that is not ignored. Equal times would be a float division by zero. */
  function SampleRate(s: CalibrationSettings): (rate: real)
    requires s.secondsPerTarget != s.ignoreInitialSeconds
    ensures rate * (s.secondsPerTarget - s.ignoreInitialSeconds) == s.samplesPerTarget as real
    ensures s.samplesPerTarget > 0 && s.secondsPerTarget > s.ignoreInitialSeconds ==> rate > 0.0
  {
    s.samplesPerTarget as real / (s.secondsPerTarget - s.ignoreInitialSeconds)
  }

  /** Spacing samples 1/SampleRate apart, as the controller's rate gate does, makes
      samplesPerTarget samples span exactly the sampled window of a target. */
  lemma SampleIntervalSpansWindow(s: CalibrationSettings)
    requires ValidSettings(s)
    ensures s.samplesPerTarget as real * (1.0 / SampleRate(s)) == s.secondsPerTarget - s.ignoreInitialSeconds
  {
  }
}
