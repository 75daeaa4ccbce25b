/** The style tables of the panel (src/gui/ctk_styles.py): the colour palette,
    the status-to-colour mapping, the appearance-mode toggle and the preset
    merge of `StyledButton`. */
module CtkStyles {
  import opened Common

  // Colour palette (class Colors).
  const Primary := "#1f6aa5"
  const PrimaryHover := "#1a5a8f"
  const SuccessFg := "#2fa572"
  const SuccessBg := "#d4f4dd"
  const SuccessBgDark := "#1a4d2e"
  const DangerFg := "#d32f2f"
  const DangerBg := "#fde7e9"
  const DangerBgDark := "#5c1a1a"
  const WarningFg := "#f57c00"
  const WarningBg := "#fff3e0"
  const WarningBgDark := "#5c3d00"
  const HoverDark := "#3a3a3a"
  const TextDark := "#e0e0e0"
  const TextSecondaryDark := "#a0a0a0"
  const HoverLight := "#e8e8e8"
  const TextLight := "#1a1a1a"
  const BorderDark := "#404040"
  const BorderLight := "#d0d0d0"

  /** `toggle_appearance_mode`: customtkinter reports the current mode as
      "Dark" or "Light"; the new mode is set in lower case and returned. */
  function ToggleAppearanceMode(current: string): (mode: string)
    ensures mode == "light" || mode == "dark"
    ensures mode == "light" <==> current == "Dark"
  {
    if current == "Dark" then "light" else "dark"
  }

  /** How customtkinter reports a mode it was set to. */
  function ReportedMode(mode: string): string
  {
    if mode == "dark" then "Dark" else "Light"
  }

  /** Toggling twice returns to the reported mode one started from. */
  lemma ToggleTwiceRestores(current: string)
    requires current == "Dark" || current == "Light"
    ensures ReportedMode(ToggleAppearanceMode(ReportedMode(ToggleAppearanceMode(current)))) == current
  {
  }

  const PositiveStatuses: seq<string> := ["success", "running", "active"]
  const NegativeStatuses: seq<string> := ["danger", "error", "stopped", "inactive"]
  const CautionStatuses: seq<string> := ["warning", "pending"]

  /** `get_status_colors`: a (foreground, background) pair chosen by the
      lower-cased status and the mode; with no mode given the current mode
      decides. */
  function GetStatusColors(status: string, isDarkMode: Option<bool>, currentMode: string): (colors: (string, string))
    ensures Lower(status) in PositiveStatuses <==> colors.0 == SuccessFg
    ensures Lower(status) in NegativeStatuses <==> colors.0 == DangerFg
    ensures Lower(status) in CautionStatuses <==> colors.0 == WarningFg
    ensures var dark := if isDarkMode.Some? then isDarkMode.value else currentMode == "Dark";
      && (Lower(status) in PositiveStatuses ==> colors.1 == (if dark then SuccessBgDark else SuccessBg))
      && (Lower(status) in NegativeStatuses ==> colors.1 == (if dark then DangerBgDark else DangerBg))
      && (Lower(status) in CautionStatuses ==> colors.1 == (if dark then WarningBgDark else WarningBg))
      && (Lower(status) !in PositiveStatuses + NegativeStatuses + CautionStatuses ==>
            colors == (if dark then TextDark else TextLight, if dark then HoverDark else HoverLight))
  {
    var dark := if isDarkMode.Some? then isDarkMode.value else currentMode == "Dark";
    var s := Lower(status);
    if s in PositiveStatuses then
      (SuccessFg, if dark then SuccessBgDark else SuccessBg)
    else if s in NegativeStatuses then
      (DangerFg, if dark then DangerBgDark else DangerBg)
    else if s in CautionStatuses then
      (WarningFg, if dark then WarningBgDark else WarningBg)
    else
      (if dark then TextDark else TextLight, if dark then HoverDark else HoverLight)
  }

  /** The colours depend on the status only through its lower-cased form. */
  lemma StatusColorsIgnoreCase(status: string, isDarkMode: Option<bool>, currentMode: string)
    ensures GetStatusColors(status, isDarkMode, currentMode) == GetStatusColors(Lower(status), isDarkMode, currentMode)
  {
    LowerIdempotent(status);
  }

  /** An explicit mode wins over the current one; without one the current
      mode decides. */
  lemma StatusColorsFollowMode(status: string, dark: bool, currentMode: string)
    ensures GetStatusColors(status, Some(dark), currentMode) == GetStatusColors(status, Some(dark), "")
    ensures GetStatusColors(status, None, currentMode) == GetStatusColors(status, Some(currentMode == "Dark"), "")
  {
  }

  /** A widget option value. */
  datatype Opt =
    | Text(s: string)
    | Themed(light: string, dark: string)
    | Num(n: int)
    | Font(family: string, size: int, weight: string)
    | Handler(name: string)

  const ButtonFont := Font("Microsoft YaHei UI", 12, "bold")
  const CornerRadius := 6
  const ButtonHeight := 36
  const BorderWidth := 2

  /** The presets of `ButtonStyles`, as ordered key/value pairs. */
  function PrimaryPreset(): seq<(string, Opt)>
  {
    [("fg_color", Text(Primary)), ("hover_color", Text(PrimaryHover)), ("text_color", Text("#ffffff")),
     ("corner_radius", Num(CornerRadius)), ("font", ButtonFont), ("height", Num(ButtonHeight))]
  }

  function SuccessPreset(): seq<(string, Opt)>
  {
    [("fg_color", Text(SuccessFg)), ("hover_color", Text("#268a5f")), ("text_color", Text("#ffffff")),
     ("corner_radius", Num(CornerRadius)), ("font", ButtonFont), ("height", Num(ButtonHeight))]
  }

  function DangerPreset(): seq<(string, Opt)>
  {
    [("fg_color", Text(DangerFg)), ("hover_color", Text("#b71c1c")), ("text_color", Text("#ffffff")),
     ("corner_radius", Num(CornerRadius)), ("font", ButtonFont), ("height", Num(ButtonHeight))]
  }

  function SecondaryPreset(): seq<(string, Opt)>
  {
    [("fg_color", Text("transparent")), ("border_color", Themed(BorderLight, BorderDark)),
     ("text_color", Themed(TextLight, TextDark)), ("border_width", Num(BorderWidth)),
     ("corner_radius", Num(CornerRadius)), ("font", ButtonFont), ("height", Num(ButtonHeight))]
  }

  /** The preset a style name selects; an unknown name selects the secondary one. */
  function PresetFor(style: string): seq<(string, Opt)>
  {
    if style == "primary" then PrimaryPreset()
    else if style == "success" then SuccessPreset()
    else if style == "danger" then DangerPreset()
    else SecondaryPreset()
  }

  /** The keys a preset lists. */
  function PresetKeys<V>(preset: seq<(string, V)>): set<string>
  {
    set i | 0 <= i < |preset| :: preset[i].0
  }

  /** The value a preset gives a key: its first entry for that key. */
  function PresetValue<V>(preset: seq<(string, V)>, key: string): V
    requires key in PresetKeys(preset)
    decreases |preset|
  {
    if preset[0].0 == key then preset[0].1
    else
      assert key in PresetKeys(preset[1..]) by {
        var i :| 0 <= i < |preset| && preset[i].0 == key;
        assert preset[1..][i - 1].0 == key;
      }
      PresetValue(preset[1..], key)
  }

  /** The `kwargs.setdefault` loop of `StyledButton.__init__`: preset values
      fill the keys the caller did not pass; the caller's values always win. */
  method SetDefaults<V>(kwargs: map<string, V>, preset: seq<(string, V)>) returns (merged: map<string, V>)
    ensures merged.Keys == kwargs.Keys + PresetKeys(preset)
    ensures forall k :: k in kwargs ==> merged[k] == kwargs[k]
    ensures forall k :: k in merged && k !in kwargs ==> merged[k] == PresetValue(preset, k)
  {
    merged := kwargs;
    for i := 0 to |preset|
      invariant merged.Keys == kwargs.Keys + PresetKeys(preset[..i])
      invariant forall k :: k in kwargs ==> merged[k] == kwargs[k]
      invariant forall k :: k in merged && k !in kwargs ==> merged[k] == PresetValue(preset[..i], k)
    {
      var (k, v) := preset[i];
      PresetPrefixExtends(preset, i);
      if k !in merged {
        merged := merged[k := v];
      }
    }
    assert preset[..|preset|] == preset;
  }

  /** Extending a preset prefix by one entry adds its key and keeps earlier values. */
  lemma {:induction false} PresetPrefixExtends<V>(preset: seq<(string, V)>, i: nat)
    requires i < |preset|
    ensures PresetKeys(preset[..i + 1]) == PresetKeys(preset[..i]) + {preset[i].0}
    ensures forall k :: k in PresetKeys(preset[..i]) ==> PresetValue(preset[..i + 1], k) == PresetValue(preset[..i], k)
    ensures preset[i].0 !in PresetKeys(preset[..i]) ==> PresetValue(preset[..i + 1], preset[i].0) == preset[i].1
    decreases i
  {
    var p, q := preset[..i], preset[..i + 1];
    assert forall j :: 0 <= j < i ==> q[j] == p[j];
    assert q[i] == preset[i];
    if i > 0 {
      PresetPrefixExtends(preset[1..], i - 1);
      assert preset[1..][..i - 1] == p[1..];
      assert preset[1..][..i] == q[1..];
    }
  }

  /** A `StyledButton`: the options it hands to the underlying button. */
  class StyledButton {
    var options: map<string, Opt>

    constructor(style: string, kwargs: map<string, Opt>)
      ensures options.Keys == kwargs.Keys + PresetKeys(PresetFor(style))
      ensures forall k :: k in kwargs ==> options[k] == kwargs[k]
      ensures forall k :: k in options && k !in kwargs ==> options[k] == PresetValue(PresetFor(style), k)
    {
      var merged := SetDefaults(kwargs, PresetFor(style));
      options := merged;
    }
  }
}
