/** The settings provider: the temperature unit and the colour theme, kept
    in local storage, the theme mirrored as the `dark` class of the page's
    root element, and temperature conversion for display. */
module SettingsContext {

  const Metric := "metric"
  const Imperial := "imperial"
  const Light := "light"
  const Dark := "dark"
  const UnitKey := "weatherAppUnit"
  const ThemeKey := "weatherAppTheme"
  const Celsius := "°C"
  const Fahrenheit := "°F"

  /** The unit a toggle switches to: from metric to imperial, and from
      anything else to metric. */
  function ToggledUnit(unit: string): (u: string)
    ensures u == Metric || u == Imperial
    ensures u == Imperial <==> unit == Metric
  {
    if unit == Metric then Imperial else Metric
  }

  /** The theme a toggle switches to: from light to dark, and from anything
      else to light. */
  function ToggledTheme(theme: string): (t: string)
    ensures t == Light || t == Dark
    ensures t == Dark <==> theme == Light
  {
    if theme == Light then Dark else Light
  }

  /** Toggling twice returns to a known unit or theme. */
  lemma ToggleTwice(unit: string, theme: string)
    ensures unit == Metric || unit == Imperial ==> ToggledUnit(ToggledUnit(unit)) == unit
    ensures theme == Light || theme == Dark ==> ToggledTheme(ToggledTheme(theme)) == theme
    ensures ToggledUnit(ToggledUnit(ToggledUnit(unit))) == ToggledUnit(unit)
    ensures ToggledTheme(ToggledTheme(ToggledTheme(theme))) == ToggledTheme(theme)
  {
  }

  /** `convertTemperature`: degrees Fahrenheit under the imperial unit,
      the Celsius value unchanged under any other. */
  function ConvertTemperature(unit: string, celsius: real): (t: real)
    ensures unit == Imperial ==> (t - 32.0) * 5.0 / 9.0 == celsius
    ensures unit != Imperial ==> t == celsius
  {
    if unit == Imperial then celsius * 9.0 / 5.0 + 32.0 else celsius
  }

  /** `getTemperatureUnitSymbol`: °C for metric, °F for anything else. */
  function TemperatureUnitSymbol(unit: string): (symbol: string)
    ensures symbol == Celsius <==> unit == Metric
    ensures symbol == Celsius || symbol == Fahrenheit
  {
    if unit == Metric then Celsius else Fahrenheit
  }

  /** Conversion keeps the order of temperatures, strictly. */
  lemma ConvertMonotone(unit: string, a: real, b: real)
    requires a < b
    ensures ConvertTemperature(unit, a) < ConvertTemperature(unit, b)
  {
  }

  /** For the two units a toggle produces, the value and the symbol agree:
      Celsius with °C, Fahrenheit with °F. */
  lemma SymbolMatchesValue(unit: string, celsius: real)
    requires unit == Metric || unit == Imperial
    ensures TemperatureUnitSymbol(unit) == Celsius ==> ConvertTemperature(unit, celsius) == celsius
    ensures TemperatureUnitSymbol(unit) == Fahrenheit ==> ConvertTemperature(unit, celsius) == celsius * 9.0 / 5.0 + 32.0
  {
  }

  /** A stored unit that is neither metric nor imperial shows the Celsius
      value under the °F symbol. */
  lemma UnknownUnitMislabels(unit: string, celsius: real)
    requires unit != Metric && unit != Imperial
    ensures TemperatureUnitSymbol(unit) == Fahrenheit && ConvertTemperature(unit, celsius) == celsius
  {
  }

  /** Whether `localStorage.getItem(key)` returns a non-empty string. */
  predicate Stored(storage: map<string, string>, key: string) {
    key in storage && storage[key] != ""
  }

  class Settings {
    var unit: string
    var theme: string
    /** The application's local storage. */
    var storage: map<string, string>
    /** Whether the page's root element carries the `dark` class. */
    var darkClass: bool

    /** The page shows the dark style exactly when the theme is dark. */
    ghost predicate ThemeApplied()
      reads this
    {
      darkClass == (theme == Dark)
    }

    /** The first render: metric and light, whatever is stored, on a page
        without the `dark` class. */
    constructor(storage: map<string, string>)
      ensures ThemeApplied()
      ensures unit == Metric && theme == Light && this.storage == storage && !darkClass
    {
      unit := Metric;
      theme := Light;
      this.storage := storage;
      darkClass := false;
    }

    /** The mount effect: a stored unit or theme replaces the current one;
        with no stored theme, a system preference for dark switches to
        dark. Storage is read, not written. */
    method LoadStored(prefersDark: bool)
      modifies this
      requires ThemeApplied()
      ensures ThemeApplied()
      ensures storage == old(storage)
      ensures unit == (if Stored(storage, UnitKey) then storage[UnitKey] else old(unit))
      ensures theme == (if Stored(storage, ThemeKey) then storage[ThemeKey]
                        else if prefersDark then Dark else old(theme))
    {
      if Stored(storage, UnitKey) {
        unit := storage[UnitKey];
      }
      if Stored(storage, ThemeKey) {
        theme := storage[ThemeKey];
        darkClass := theme == Dark;
      } else if prefersDark {
        theme := Dark;
        darkClass := true;
      }
    }

    method ToggleUnit()
      modifies this
      requires ThemeApplied()
      ensures ThemeApplied()
      ensures unit == ToggledUnit(old(unit)) && theme == old(theme)
      ensures storage == old(storage)[UnitKey := unit]
    {
      var newUnit := ToggledUnit(unit);
      unit := newUnit;
      storage := storage[UnitKey := newUnit];
    }

    method ToggleTheme()
      modifies this
      requires ThemeApplied()
      ensures ThemeApplied()
      ensures theme == ToggledTheme(old(theme)) && unit == old(unit)
      ensures storage == old(storage)[ThemeKey := theme]
    {
      var newTheme := ToggledTheme(theme);
      theme := newTheme;
      storage := storage[ThemeKey := newTheme];
      darkClass := newTheme == Dark;
    }
  }
}
