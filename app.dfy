/** The tab bar's icon for a route, filled when its tab is focused and outlined otherwise. */
module App {

  const Outline := "-outline"

  const Home := "Home"
  const Styles := "Styles"
  const Profile := "Profile"

  const KnownRoutes := {Home, Styles, Profile}

  predicate EndsWith(s: string, suffix: string)
  {
    |suffix| <= |s| && s[|s| - |suffix|..] == suffix
  }

  /** The icon name for a route; any route other than the three tabs gets the outlined help icon. */
  function TabIcon(route: string, focused: bool): (icon: string)
    ensures EndsWith(icon, Outline) <==> !focused || route !in KnownRoutes
  {
    if route == Home then (if focused then "home" else "home" + Outline)
    else if route == Styles then (if focused then "brush" else "brush" + Outline)
    else if route == Profile then (if focused then "person" else "person" + Outline)
    else "help" + Outline
  }

  /**
   * The focused icons are `home`, `brush` and `person`, and for each tab the
   * unfocused icon is the focused one with `-outline` appended.
   */
  lemma UnfocusedIsOutlineOfFocused(route: string)
    requires route in KnownRoutes
    ensures TabIcon(Home, true) == "home" && TabIcon(Styles, true) == "brush" && TabIcon(Profile, true) == "person"
    ensures TabIcon(route, false) == TabIcon(route, true) + Outline
  {
  }

  /** An unknown route shows the outlined help icon whether focused or not. */
  lemma UnknownRouteIgnoresFocus(route: string, focused: bool)
    requires route !in KnownRoutes
    ensures TabIcon(route, focused) == "help-outline"
  {
  }

  /** The three tabs have three different icons, in either focus state. */
  lemma TabIconsDistinct(r1: string, r2: string, focused: bool)
    requires r1 in KnownRoutes && r2 in KnownRoutes && r1 != r2
    ensures TabIcon(r1, focused) != TabIcon(r2, focused)
  {
  }
}
