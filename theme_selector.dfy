// The theme switch in the header: a toggle between light and dark, beside a
// button for the system theme.
module ThemeSelector {
  import opened Records

  /** `defineNextTheme(theme)` */
  function NextTheme(theme: Theme): (r: Theme)
    ensures r != System
    ensures r == Dark <==> theme == Light
  {
    if theme == Light then Dark else Light
  }

  /** On light and dark the toggle is an involution; from the system theme it goes to light. */
  lemma ToggleTwice(theme: Theme)
    ensures theme != System ==> NextTheme(NextTheme(theme)) == theme
    ensures theme == System ==> NextTheme(theme) == Light && NextTheme(NextTheme(theme)) == Dark
  {
  }

  /** The two choices on screen: the toggle's target and the system theme. */
  function Offered(shown: Theme): (r: seq<Theme>)
    ensures |r| == 2 && r[1] == System
  {
    [NextTheme(shown), System]
  }

  /** With light or dark shown, the toggle offers the other one of the two and never the shown theme. */
  lemma OfferedLeavesTheShownTheme(shown: Theme)
    requires shown != System
    ensures shown !in Offered(shown)
    ensures {Light, Dark} == {shown, Offered(shown)[0]}
  {
  }
}
