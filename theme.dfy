/** How the screens turn the stored theme setting into a colour scheme. The setting is
    what `getTheme` returned (`None` for NaN); the system's own scheme may be unknown. */
module Theme {
  import opened Base

  datatype Scheme = Light | Dark

  /** The rule of the home, cart, inventory and sales screens: 0 follows the system,
      1 is light, anything else is dark. */
  function LightFirst(setting: Option<int>, system: Option<Scheme>): Option<Scheme> {
    if setting == Some(0) then system
    else if setting == Some(1) then Some(Light)
    else Some(Dark)
  }

  /** The rule of the item form and account screens: 0 follows the system, 2 is dark,
      anything else is light. */
  function DarkFirst(setting: Option<int>, system: Option<Scheme>): Option<Scheme> {
    if setting == Some(0) then system
    else if setting == Some(2) then Some(Dark)
    else Some(Light)
  }

  /** A screen is dark only when the resolved scheme is dark; an unknown system scheme is light. */
  predicate IsDark(resolved: Option<Scheme>) {
    resolved == Some(Dark)
  }

  /** The two rules agree on the three values the theme picker offers, and nowhere else. */
  lemma RulesAgreeOnPickerValues(setting: Option<int>, system: Option<Scheme>)
    ensures LightFirst(setting, system) == DarkFirst(setting, system)
            <==> setting == Some(0) || setting == Some(1) || setting == Some(2)
  {
  }

  /** Every setting the picker offers gives the scheme its label names. */
  lemma PickerValues(system: Option<Scheme>)
    ensures LightFirst(Some(0), system) == system && DarkFirst(Some(0), system) == system
    ensures LightFirst(Some(1), system) == Some(Light) && DarkFirst(Some(1), system) == Some(Light)
    ensures LightFirst(Some(2), system) == Some(Dark) && DarkFirst(Some(2), system) == Some(Dark)
  {
  }
}
