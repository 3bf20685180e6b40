/**
 * The colour-psychology provider: the current colour theme, the colour
 * temperature it drives, the dark-mode flag with its time-of-day rule, the
 * contextual colour lookup, and the theme classes it keeps on the page body.
 *
 * The body's class list is modelled as a set of class names.
 */
module ColorPsychology {
  import opened Text

  datatype ColorTheme = Endangered | Thriving | AiProcessing | Success | NeutralTheme

  datatype ColorTemperature = Warm | Cool | NeutralTemperature

  /** The temperature's name in the `temp-…` class. */
  function TemperatureName(t: ColorTemperature): string {
    match t
    case Warm => "warm"
    case Cool => "cool"
    case NeutralTemperature => "neutral"
  }

  /**
   * `themeClasses[theme]`: the body class of each theme, none for neutral.
   * Every theme's class is one of the listed values, and the non-empty ones
   * are the four theme classes.
   */
  function ThemeClass(theme: ColorTheme): (c: string)
    ensures c == "" <==> theme == NeutralTheme
    ensures c in ThemeClassValues
    ensures c != "" <==> c in ThemeClasses
  {
    match theme
    case Endangered => "color-endangered"
    case Thriving => "color-thriving"
    case AiProcessing => "color-ai-processing"
    case Success => "color-success"
    case NeutralTheme => ""
  }

  /** `Object.values(themeClasses)`, in declaration order. */
  const ThemeClassValues: seq<string> :=
    ["color-endangered", "color-thriving", "color-ai-processing", "color-success", ""]

  /** The four non-empty theme classes. */
  const ThemeClasses: set<string> :=
    {"color-endangered", "color-thriving", "color-ai-processing", "color-success"}

  /** The temperature `setTheme` leaves behind: the neutral theme keeps the current one. */
  function AutoTemperature(theme: ColorTheme, current: ColorTemperature): (t: ColorTemperature)
    ensures theme == Endangered ==> t == Warm
    ensures theme == AiProcessing ==> t == Cool
    ensures theme == Thriving || theme == Success ==> t == NeutralTemperature
    ensures theme == NeutralTheme ==> t == current
  {
    if theme == Endangered then Warm
    else if theme == AiProcessing then Cool
    else if theme == Thriving || theme == Success then NeutralTemperature
    else current
  }

  /** The time-based rule: dark before 06:00 and from 20:00. */
  predicate ShouldBeDark(hour: int) {
    hour < 6 || hour >= 20
  }

  /** The keyword table of `getContextualColors`. */
  const ColorMap: map<string, string> := map[
    "tiger" := "color-endangered",
    "elephant" := "color-thriving",
    "rhino" := "color-endangered",
    "leopard" := "color-endangered",
    "deer" := "color-thriving",
    "bird" := "color-thriving",
    "ai" := "color-ai-processing",
    "detection" := "color-ai-processing",
    "alert" := "color-endangered",
    "success" := "color-success",
    "conservation" := "color-thriving"
  ]

  /** `getContextualColors`: the class for the lower-cased context, or none. */
  function GetContextualColors(context: string): (cls: string)
    ensures cls != "" <==> ToLower(context) in ColorMap
    ensures cls != "" ==> cls in ThemeClasses
  {
    var key := ToLower(context);
    if key in ColorMap then ColorMap[key] else ""
  }

  /** Contexts that differ only in letter case get the same class. */
  lemma ContextualColorsIgnoreCase(a: string, b: string)
    requires ToLower(a) == ToLower(b)
    ensures GetContextualColors(a) == GetContextualColors(b)
  {
  }

  /** "Tiger" and "tiger" both give the endangered colour; "jaguar" gives none. */
  lemma TigerExample(upper: string, lower: string, unknown: string)
    requires upper == "Tiger" && lower == "tiger" && unknown == "jaguar"
    ensures GetContextualColors(upper) == GetContextualColors(lower) == "color-endangered"
    ensures GetContextualColors(unknown) == ""
  {
    assert ToLower(upper) == lower;
    assert ToLower(lower) == lower;
    assert ToLower(unknown) == unknown;
  }

  /** The body classes after the theme effect has run for a theme and a temperature. */
  ghost function AfterThemeEffect(classes: set<string>, theme: ColorTheme, t: ColorTemperature): set<string> {
    var marked := classes + {"theme-transition", "temp-" + TemperatureName(t)};
    (marked - ThemeClasses) + (if ThemeClass(theme) != "" then {ThemeClass(theme)} else {})
  }

  /**
   * After the effect, the current theme's class is the only theme class on
   * the body (none for neutral); the transition and temperature classes are
   * there; every other class is as before.
   */
  lemma ThemeEffectExclusive(classes: set<string>, theme: ColorTheme, t: ColorTemperature)
    ensures var after := AfterThemeEffect(classes, theme, t);
            forall c :: c in ThemeClasses ==> (c in after <==> c == ThemeClass(theme))
    ensures var after := AfterThemeEffect(classes, theme, t);
            "theme-transition" in after && "temp-" + TemperatureName(t) in after
    ensures var after := AfterThemeEffect(classes, theme, t);
            forall c :: c !in ThemeClasses && c != "theme-transition" && c != "temp-" + TemperatureName(t)
                        ==> (c in after <==> c in classes)
  {
    var tc := "temp-" + TemperatureName(t);
    assert tc[0] == 't';
    assert forall c :: c in ThemeClasses ==> c[0] == 'c';
  }

  /** The provider's state, with the page body's class set. */
  class ColorPsychologyProvider {
    var currentTheme: ColorTheme
    var currentTemperature: ColorTemperature
    var isDarkMode: bool
    var bodyClasses: set<string>

    constructor (initialClasses: set<string>)
      ensures currentTheme == NeutralTheme && currentTemperature == NeutralTemperature
      ensures !isDarkMode && bodyClasses == initialClasses
    {
      currentTheme := NeutralTheme;
      currentTemperature := NeutralTemperature;
      isDarkMode := false;
      bodyClasses := initialClasses;
    }

    /** `setTheme`: the theme is always set and drives the temperature. */
    method SetTheme(theme: ColorTheme)
      modifies this`currentTheme, this`currentTemperature
      ensures currentTheme == theme
      ensures currentTemperature == AutoTemperature(theme, old(currentTemperature))
    {
      currentTheme := theme;
      if theme == Endangered {
        currentTemperature := Warm;
      } else if theme == AiProcessing {
        currentTemperature := Cool;
      } else if theme == Thriving || theme == Success {
        currentTemperature := NeutralTemperature;
      }
    }

    /** `setTemperature`: only the temperature changes. */
    method SetTemperature(t: ColorTemperature)
      modifies this`currentTemperature
      ensures currentTemperature == t
    {
      currentTemperature := t;
    }

    /**
     * `toggleDarkMode` as a handler created at a render that saw the flag as
     * `rendered`: it writes `!rendered`, whatever the flag is now.
     */
    method ToggleDarkModeFrom(rendered: bool)
      modifies this`isDarkMode
      ensures isDarkMode == !rendered
    {
      isDarkMode := !rendered;
    }

    /** `toggleDarkMode` called from the current render: the flag flips. */
    method ToggleDarkMode()
      modifies this`isDarkMode
      ensures isDarkMode == !old(isDarkMode)
    {
      ToggleDarkModeFrom(isDarkMode);
    }

    /** `checkTimeBasedTheme` at a given hour: the flag follows the rule, and is written only when it differs. */
    method CheckTimeBasedTheme(hour: int) returns (changed: bool)
      modifies this`isDarkMode
      ensures isDarkMode == ShouldBeDark(hour)
      ensures changed <==> old(isDarkMode) != ShouldBeDark(hour)
    {
      var shouldBeDark := ShouldBeDark(hour);
      changed := shouldBeDark != isDarkMode;
      if changed {
        isDarkMode := shouldBeDark;
      }
    }

    /**
     * `toggleDarkMode` followed by the time-check effect, which re-runs
     * whenever the flag changes: the flag ends as the hour's rule says, so a
     * toggle away from the rule is written back at once.
     */
    method ToggleDarkModeThenRecheck(hour: int) returns (reverted: bool)
      modifies this`isDarkMode
      ensures isDarkMode == ShouldBeDark(hour)
      ensures reverted <==> old(isDarkMode) == ShouldBeDark(hour)
      ensures reverted ==> isDarkMode == old(isDarkMode)
    {
      ToggleDarkMode();
      reverted := CheckTimeBasedTheme(hour);
    }

    /**
     * The theme effect: the transition and temperature classes are added,
     * every non-empty theme class is removed in turn, then the current
     * theme's class, if any, is added.
     */
    method ApplyThemeEffect()
      modifies this`bodyClasses
      ensures bodyClasses == AfterThemeEffect(old(bodyClasses), currentTheme, currentTemperature)
    {
      bodyClasses := bodyClasses + {"theme-transition", "temp-" + TemperatureName(currentTemperature)};
      ghost var marked := bodyClasses;
      var i := 0;
      while i < |ThemeClassValues|
        invariant 0 <= i <= |ThemeClassValues|
        invariant forall c :: c in bodyClasses <==> c in marked && !(c in ThemeClassValues[..i] && c != "")
      {
        var cls := ThemeClassValues[i];
        if cls != "" {
          bodyClasses := bodyClasses - {cls};
        }
        i := i + 1;
      }
      assert ThemeClassValues[..i] == ThemeClassValues;
      assert forall c :: c in ThemeClassValues && c != "" <==> c in ThemeClasses;
      assert bodyClasses == marked - ThemeClasses;
      var cls := ThemeClass(currentTheme);
      if cls != "" {
        bodyClasses := bodyClasses + {cls};
      }
    }
  }

  /**
   * Two handler calls from the same render write the same value, so the flag
   * stays flipped instead of being restored.
   */
  method ToggleDarkModeTwiceFromOneRender(p: ColorPsychologyProvider)
    modifies p
    ensures p.isDarkMode == !old(p.isDarkMode)
    ensures p.currentTheme == old(p.currentTheme) && p.currentTemperature == old(p.currentTemperature)
    ensures p.bodyClasses == old(p.bodyClasses)
  {
    var rendered := p.isDarkMode;
    p.ToggleDarkModeFrom(rendered);
    p.ToggleDarkModeFrom(rendered);
  }

  /** Toggling twice, with a re-render between the calls, restores the flag and touches nothing else. */
  method ToggleDarkModeTwice(p: ColorPsychologyProvider)
    modifies p
    ensures p.isDarkMode == old(p.isDarkMode)
    ensures p.currentTheme == old(p.currentTheme) && p.currentTemperature == old(p.currentTemperature)
    ensures p.bodyClasses == old(p.bodyClasses)
  {
    p.ToggleDarkMode();
    p.ToggleDarkMode();
  }
}
