/**
  The theme button: the page's `data-theme` attribute is "" for the automatic
  theme, and each click moves auto to dark, dark to light and anything else to
  auto.
 */
module Theme {

  /** The theme names the button cycles through. */
  predicate IsTheme(t: string) {
    t == "auto" || t == "dark" || t == "light"
  }

  /** The theme a `data-theme` value stands for: `dataset.theme || "auto"`. */
  function Current(dataset: string): string {
    if dataset == "" then "auto" else dataset
  }

  /** The click handler's choice of the next theme. */
  function NextTheme(dataset: string): (next: string)
    ensures IsTheme(next)
    ensures next == "dark" <==> Current(dataset) == "auto"
    ensures next == "light" <==> Current(dataset) == "dark"
  {
    var current := Current(dataset);
    if current == "auto" then "dark"
    else if current == "dark" then "light"
    else "auto"
  }

  /** `applyTheme(theme)`'s `data-theme` value: "" for auto, the theme's name otherwise. */
  function DatasetFor(theme: string): (dataset: string)
    ensures Current(dataset) == Current(theme)
    ensures Current(theme) == "auto" ==> dataset == ""
    ensures Current(theme) != "auto" ==> dataset == theme
  {
    var t := if theme == "" then "auto" else theme;
    if t == "auto" then "" else t
  }

  /** `applyTheme(theme)`'s button label: the name of the theme shown, "Auto" for anything else. */
  function Label(theme: string): (text: string)
    ensures text in {"Dark", "Light", "Auto"}
    ensures Current(theme) == "dark" ==> text == "Dark"
    ensures Current(theme) == "light" ==> text == "Light"
    ensures Current(theme) != "dark" && Current(theme) != "light" ==> text == "Auto"
  {
    var t := if theme == "" then "auto" else theme;
    if t == "dark" then "Dark" else if t == "light" then "Light" else "Auto"
  }

  /**
    One click: the new `data-theme` value, which stands for the next theme of
    the cycle and is "" exactly when that theme is auto.
   */
  function Click(dataset: string): (next: string)
    ensures Current(next) == NextTheme(dataset)
    ensures next == "" <==> NextTheme(dataset) == "auto"
    ensures next != "auto"
  {
    DatasetFor(NextTheme(dataset))
  }

  /** Three clicks bring any theme the button sets back to where it was. */
  lemma ClickCycle(dataset: string)
    requires IsTheme(Current(dataset))
    ensures Current(Click(Click(Click(dataset)))) == Current(dataset)
    ensures Current(Click(dataset)) != Current(dataset)
  {
  }

  /** Whatever the stored value was, at most one click reaches a theme of the cycle. */
  lemma ClickNormalises(dataset: string)
    ensures IsTheme(Current(Click(dataset)))
  {
  }
}
