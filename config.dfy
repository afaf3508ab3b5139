/**
 * The process-wide feature state: the operating mode and the two toggles for
 * object recognition and the Gemini assistant. In the program these are three
 * module-level globals that the setters rebind; here they are the fields of one
 * object, and `Settings` is the value they hold at a given moment.
 */
module Config {

  datatype Mode = OnDemand | Continuous

  datatype Settings = Settings(currentMode: Mode, recognitionEnabled: bool, geminiEnabled: bool)

  /** The values the globals hold when the program starts. */
  const Initial := Settings(OnDemand, true, true)

  /** The state after `switch_mode(m)`. */
  function WithMode(s: Settings, m: Mode): (r: Settings)
    ensures r.currentMode == m
    ensures r.recognitionEnabled == s.recognitionEnabled && r.geminiEnabled == s.geminiEnabled
  {
    s.(currentMode := m)
  }

  /** The state after `toggle_recognition(b)`. */
  function WithRecognition(s: Settings, b: bool): (r: Settings)
    ensures r.recognitionEnabled == b
    ensures r.currentMode == s.currentMode && r.geminiEnabled == s.geminiEnabled
  {
    s.(recognitionEnabled := b)
  }

  /** The state after `toggle_gemini(b)`. */
  function WithGemini(s: Settings, b: bool): (r: Settings)
    ensures r.geminiEnabled == b
    ensures r.currentMode == s.currentMode && r.recognitionEnabled == s.recognitionEnabled
  {
    s.(geminiEnabled := b)
  }

  /** Setting a value that is already set changes nothing, so each setter is idempotent. */
  lemma SettersIdempotent(s: Settings, m: Mode, b: bool)
    ensures WithMode(WithMode(s, m), m) == WithMode(s, m)
    ensures WithRecognition(WithRecognition(s, b), b) == WithRecognition(s, b)
    ensures WithGemini(WithGemini(s, b), b) == WithGemini(s, b)
    ensures WithMode(s, s.currentMode) == s
    ensures WithRecognition(s, s.recognitionEnabled) == s
    ensures WithGemini(s, s.geminiEnabled) == s
  {
  }

  /** The three globals of the `config` module. Every access happens from the
      thread that holds the object; the program's unsynchronised sharing with the
      mode-switch listener thread is not modelled. */
  class FeatureState {
    var currentMode: Mode
    var recognitionEnabled: bool
    var geminiEnabled: bool

    /** The values of the three globals, as one value. */
    function Snapshot(): Settings
      reads this
    {
      Settings(currentMode, recognitionEnabled, geminiEnabled)
    }

    /** Module initialisation: on-demand mode, both features enabled. */
    constructor ()
      ensures Snapshot() == Initial
    {
      currentMode := OnDemand;
      recognitionEnabled := true;
      geminiEnabled := true;
    }

    /** `switch_mode(new_mode)`: the mode changes, both toggles stay. */
    method SwitchMode(newMode: Mode)
      modifies this
      ensures currentMode == newMode
      ensures recognitionEnabled == old(recognitionEnabled) && geminiEnabled == old(geminiEnabled)
      ensures Snapshot() == WithMode(old(Snapshot()), newMode)
    {
      currentMode := newMode;
    }

    /** `toggle_recognition(enabled)`: recognition changes, the mode and Gemini stay. */
    method ToggleRecognition(enabled: bool)
      modifies this
      ensures recognitionEnabled == enabled
      ensures currentMode == old(currentMode) && geminiEnabled == old(geminiEnabled)
      ensures Snapshot() == WithRecognition(old(Snapshot()), enabled)
    {
      recognitionEnabled := enabled;
    }

    /** `toggle_gemini(enabled)`: Gemini changes, the mode and recognition stay. */
    method ToggleGemini(enabled: bool)
      modifies this
      ensures geminiEnabled == enabled
      ensures currentMode == old(currentMode) && recognitionEnabled == old(recognitionEnabled)
      ensures Snapshot() == WithGemini(old(Snapshot()), enabled)
    {
      geminiEnabled := enabled;
    }
  }
}
