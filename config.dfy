/** Simulation parameters, grid dimensions and the shared view state
    (js/config.js). */
module Config {

  /** Grid dimensions and flag size of the shipped configuration. */
  const Cols: nat := 112
  const Rows: nat := 64
  const FlagW: real := 3.0
  const FlagH: real := FlagW / 1.75

  /** The value of `state.viewMode`: the two view modes the engine and the
      camera distinguish ('fullscreen' and 'stadium'), or any other string,
      which every comparison treats as neither. */
  datatype ViewMode = Fullscreen | Stadium | OtherView(name: OtherName)

  /** A mode string other than the two the program compares against. */
  type OtherName = s: string | s != "fullscreen" && s != "stadium" witness ""

  /** The string stored in `state.viewMode` for a mode. */
  function ModeName(m: ViewMode): (s: string)
    ensures m == Fullscreen <==> s == "fullscreen"
    ensures m == Stadium <==> s == "stadium"
  {
    match m
    case Fullscreen => "fullscreen"
    case Stadium => "stadium"
    case OtherView(name) => name
  }

  /** The mode a `state.viewMode` string stands for, as the comparisons
      `=== 'fullscreen'` and `=== 'stadium'` decide it. */
  function ModeOf(s: string): (m: ViewMode)
    ensures m == Fullscreen <==> s == "fullscreen"
    ensures m == Stadium <==> s == "stadium"
  {
    if s == "fullscreen" then Fullscreen
    else if s == "stadium" then Stadium
    else OtherView(s)
  }

  /** Strings and modes correspond one to one. */
  lemma ModeRoundTrip(m: ViewMode, s: string)
    ensures ModeOf(ModeName(m)) == m
    ensures ModeName(ModeOf(s)) == s
  {
  }

  /** A colour as its red, green and blue components. */
  datatype Rgb = Rgb(r: real, g: real, b: real)

  /** The mutable `SIM` parameter record. Sliders and the reset button write
      its fields; the engine and the camera read them. */
  class Sim {
    var windStrength: real
    var turbulence: real
    var windAngle: real
    var windDrift: real
    var stiffness: real
    var damping: real
    var opacity: real
    var flagColor: Rgb
    var gravity: real
    var stretch: real
    var zoom: real

    /** The values the page starts with. */
    constructor ()
      ensures windStrength == 36.0 && turbulence == 30.0 && windAngle == 90.0
      ensures windDrift == 24.0 && stiffness == 40.0 && damping == 92.0
      ensures opacity == 1.0 && flagColor == Rgb(0.91, 0.90, 0.89)
      ensures gravity == -7.9 && stretch == 10.0 && zoom == 100.0
    {
      windStrength := 36.0;
      turbulence := 30.0;
      windAngle := 90.0;
      windDrift := 24.0;
      stiffness := 40.0;
      damping := 92.0;
      opacity := 1.0;
      flagColor := Rgb(0.91, 0.90, 0.89);
      gravity := -7.9;
      stretch := 10.0;
      zoom := 100.0;
    }
  }

  /** The shared `state` record. */
  class AppState {
    var viewMode: ViewMode
    var theme: string
    var pinMode: string

    constructor ()
      ensures viewMode == Fullscreen && theme == "dark" && pinMode == "poleDense"
    {
      viewMode := Fullscreen;
      theme := "dark";
      pinMode := "poleDense";
    }
  }
}
