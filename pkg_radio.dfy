/** The `packages/` `Radio` (packages/radio/radio.tsx): its local size
    table, press and circle dimensions agree with `src/`; its accessibility
    state names the flag `selected` where `src/` says `checked`. */
module PkgRadio {
  import opened Wrappers
  import opened Styles
  import opened RadioConstants
  import opened Radio
  import opened Elements

  /** The local `getSizeConfig()`: `sizeConfigs[size] || sizeConfigs.sm`,
      the same table and fallback as `src/`. */
  function PkgGetSizeConfig(size: string): (c: RadioSizeConfig)
    ensures c == GetRadioSizeConfig(size)
  {
    if size == "md" then RadioSizeConfig(18.0, 18.0, 12.0, 12.0)
    else RadioSizeConfig(14.0, 14.0, 8.0, 8.0)
  }

  /** `handlePress`, agreeing with `src/`. */
  function PkgHandlePress(p: RadioProps): (r: Option<bool>)
    ensures r == HandlePress(p)
  {
    if p.Disabled() || !p.onSelect then None else Some(!p.Selected())
  }

  /** The circle dimensions with their `||` overrides, agreeing with `src/`. */
  function PkgCircleDims(p: RadioProps): (c: RadioSizeConfig)
    ensures c == CircleDims(p)
  {
    var t := PkgGetSizeConfig(p.Size());
    RadioSizeConfig(NumberOr(p.width, t.outerWidth), NumberOr(p.height, t.outerHeight),
                    NumberOr(p.innerWidth, t.innerWidth), NumberOr(p.innerHeight, t.innerHeight))
  }

  /** `accessibilityState`: `{selected, disabled}`. */
  datatype PkgRadioAccessibilityState = PkgRadioAccessibilityState(selected: bool, disabled: bool)

  function PkgAccessibilityState(p: RadioProps): (s: PkgRadioAccessibilityState)
    ensures s.selected == AccessibilityState(p).checked && s.disabled == AccessibilityState(p).disabled
  {
    PkgRadioAccessibilityState(p.Selected(), p.Disabled())
  }

  /** The accessibility props the package `Pressable` receives: the
      `radio` role, the `{selected, disabled}` state and the children label,
      then `{...rest}`. Unlike `src/` it sets neither `accessible` nor a
      hint, and it reports `selected` where `src/` reports `checked`. */
  function PkgPressableA11y(p: RadioProps): (a: A11yProps)
    ensures a.accessible == p.rest.accessible && a.hint == p.rest.hint && a.value == p.rest.value
    ensures a.role == PressableA11y(p).role && a.labelText == PressableA11y(p).labelText
    ensures p.rest.state.Some? ==> a.state == p.rest.state
    ensures p.rest.state.None? ==>
              a.state == Some(NoState.(selected := Some(PkgAccessibilityState(p).selected),
                                       disabled := Some(PkgAccessibilityState(p).disabled)))
  {
    var s := PkgAccessibilityState(p);
    SpreadRest(A11yProps(None, Some("radio"), AccessibilityLabel(p), None,
                         Some(NoState.(selected := Some(s.selected), disabled := Some(s.disabled))), None),
               p.rest)
  }

  /** Without caller props the two radios announce the same selection
      under different keys: `src/` as `checked`, the package as `selected`. */
  lemma SelectionUnderDifferentKeys(p: RadioProps)
    requires p.rest == NoA11y
    ensures PressableA11y(p).state.value.checked == Some(Bool(p.Selected()))
    ensures PressableA11y(p).state.value.selected.None?
    ensures PkgPressableA11y(p).state.value.selected == Some(p.Selected())
    ensures PkgPressableA11y(p).state.value.checked.None?
  {
  }
}
