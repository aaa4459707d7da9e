/** The `packages/` `Checkbox` (packages/checkbox/checkbox.tsx). It repeats
    the `src/` decisions with its own code; each member here is proved to
    agree with its `src/` counterpart. */
module PkgCheckbox {
  import opened Wrappers
  import opened Styles
  import opened DefaultTheme
  import opened Elements
  import opened Checkbox

  /** `handlePress`: agrees with the `src/` checkbox, so `onChange` gets
      `true` for an indeterminate box and the negation otherwise, and only
      when the box is enabled and has a handler. */
  function PkgHandlePress(p: CheckboxProps): (r: Option<bool>)
    ensures r == HandlePress(p)
    ensures r.Some? <==> !p.Disabled() && p.onChange
  {
    if p.Disabled() || !p.onChange then None
    else if p.State() == Indeterminate then Some(true)
    else Some(!(p.State() == Checked))
  }

  /** `accessibilityState`: `'mixed'` for indeterminate, agreeing with `src/`. */
  function PkgAccessibilityState(p: CheckboxProps): (s: CheckboxAccessibilityState)
    ensures s == AccessibilityState(p)
    ensures s.checked == Mixed <==> p.State() == Indeterminate
  {
    CheckboxAccessibilityState(
      if p.State() == Indeterminate then Mixed else Bool(p.State() == Checked), p.Disabled())
  }

  /** `checkboxDynamicStyles`: filled iff checked or indeterminate, agreeing
      with `src/`. */
  function PkgDynamicStyles(c: CheckedState, theme: Theme): (r: Style)
    ensures r == DynamicStyles(c, theme)
    ensures r.backgroundColor == Some(theme.colors.secondary500) <==>
              IsChecked(c) || theme.colors.white900 == theme.colors.secondary500
  {
    var isChecked := c == Checked || c == Indeterminate;
    Empty.(borderColor := Some(if isChecked then "transparent" else theme.colors.neutral700),
           backgroundColor := Some(if isChecked then theme.colors.secondary500 else theme.colors.white900))
  }

  /** The local `checkboxBase`, `checkboxSm` and `checkboxMd` styles: 20 by
      20 for md, 16 by 16 otherwise, as in `src/`. */
  function PkgBoxStyle(p: CheckboxProps, theme: Theme): (r: Style)
    ensures r == BoxStyle(p, theme)
    ensures p.checkboxStyle == Empty ==>
              r.width == Some(Points(if p.Size() == "md" then 20.0 else 16.0))
  {
    var base := Empty.(borderRadius := Some(4.0), alignItems := Some("center"),
                       justifyContent := Some("center"), borderWidth := Some(1.0));
    var box := if p.Size() == "md" then Empty.(width := Some(Points(20.0)), height := Some(Points(20.0)))
               else Empty.(width := Some(Points(16.0)), height := Some(Points(16.0)));
    Overlay(Overlay(Overlay(base, box), PkgDynamicStyles(p.State(), theme)), p.checkboxStyle)
  }

  /** With the default theme the filled and empty looks differ. */
  lemma LooksDiffer(c: CheckedState)
    ensures PkgDynamicStyles(c, Default).backgroundColor == Some(Colors.secondary500) <==> IsChecked(c)
  {
  }

  /** The accessibility props the package `Pressable` receives: those of
      `src/` except that it sets neither `accessible` nor a hint, so only a
      caller's survive. */
  function PkgPressableA11y(p: CheckboxProps): (a: A11yProps)
    ensures a == Checkbox.PressableA11y(p).(accessible := p.rest.accessible, hint := p.rest.hint)
    ensures p.rest.state.None? ==> a.state.value.checked == Some(PkgAccessibilityState(p).checked)
  {
    var s := PkgAccessibilityState(p);
    SpreadRest(A11yProps(None, Some("checkbox"), AccessibilityLabel(p), None,
                         Some(NoState.(checked := Some(s.checked), disabled := Some(s.disabled))), None),
               p.rest)
  }
}
