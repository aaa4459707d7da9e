/** The decisions of the `src/` `Switch` (src/switch/switch.tsx,
    src/switch/styles.ts): the press, the thumb's target position, the track
    colour and the accessibility state and value. */
module Switch {
  import opened Wrappers
  import opened Styles
  import opened DefaultTheme
  import opened SwitchConstants
  import opened Elements

  datatype SwitchProps = SwitchProps(
    value: Option<bool>,
    onValueChange: bool,
    disabled: Option<bool>,
    css: Style,
    style: Style,
    rest: A11yProps)
  {
    /** The defaults `value = false` and `disabled = false`. */
    predicate Value() { value.GetOr(false) }
    predicate Disabled() { disabled.GetOr(false) }
  }

  /** `handlePress`: the value `onValueChange` receives, or `None` when it is
      not called. */
  function HandlePress(p: SwitchProps): (r: Option<bool>)
    ensures r.Some? <==> !p.Disabled() && p.onValueChange
    ensures r.Some? ==> r.value == !p.Value()
  {
    if !p.Disabled() && p.onValueChange then Some(!p.Value()) else None
  }

  /** Where the thumb animates to: the on position when on, else the off one. */
  function ThumbTarget(value: bool): (x: real)
    ensures value ==> x == ThumbOnPosition()
    ensures !value ==> x == ThumbOffPosition()
  {
    if value then ThumbOnPosition() else ThumbOffPosition()
  }

  /** A press moves the thumb to the other end, and the thumb never leaves
      the track. */
  lemma PressMovesThumb(p: SwitchProps)
    requires HandlePress(p).Some?
    ensures ThumbTarget(HandlePress(p).value) != ThumbTarget(p.Value())
    ensures 0.0 < ThumbTarget(p.Value()) && ThumbTarget(p.Value()) + ThumbSize < SwitchWidth
  {
  }

  /** `styles.switch`. */
  const SwitchBase: Style :=
    Empty.(width := Some(Points(SwitchWidth)), height := Some(Points(SwitchHeight)),
           borderRadius := Some(100.0), justifyContent := Some("center"))

  /** `switchDynamicStyles`: primary500 when on, neutral400 when off. */
  function TrackColor(value: bool, theme: Theme): (c: string)
    ensures value ==> c == theme.colors.primary500
    ensures !value ==> c == theme.colors.neutral400
  {
    if value then theme.colors.primary500 else theme.colors.neutral400
  }

  /** The track's style list `[switch, dynamic, css, style]`, flattened (the
      disabled opacity aside). */
  function TrackStyle(p: SwitchProps, theme: Theme): (r: Style)
    ensures r.backgroundColor == p.style.backgroundColor.OrElse(p.css.backgroundColor)
                                   .OrElse(Some(TrackColor(p.Value(), theme)))
    ensures r.width == p.style.width.OrElse(p.css.width).OrElse(Some(Points(SwitchWidth)))
  {
    Overlay(Overlay(Overlay(SwitchBase, Empty.(backgroundColor := Some(TrackColor(p.Value(), theme)))), p.css),
            p.style)
  }

  /** `styles.thumb`: a white circle of the thumb size. */
  function ThumbStyle(theme: Theme): (r: Style)
    ensures r.width == r.height == Some(Points(ThumbSize))
    ensures r.backgroundColor == Some(theme.colors.white900)
  {
    Empty.(width := Some(Points(ThumbSize)), height := Some(Points(ThumbSize)), borderRadius := Some(100.0),
           backgroundColor := Some(theme.colors.white900))
  }

  /** `accessibilityState` and `accessibilityValue.text`. */
  datatype SwitchAccessibility = SwitchAccessibility(checked: bool, disabled: bool, valueText: string)

  function Accessibility(p: SwitchProps): (a: SwitchAccessibility)
    ensures a.checked == p.Value() && a.disabled == p.Disabled()
    ensures a.valueText == "On" <==> p.Value()
    ensures a.valueText == "Off" <==> !p.Value()
  {
    SwitchAccessibility(p.Value(), p.Disabled(), if p.Value() then "On" else "Off")
  }

  /** The accessibility props the `Pressable` receives: `accessible`, the
      `switch` role, the state and the `On`/`Off` value, then the caller's
      `{...rest}`, whose keys win. */
  function PressableA11y(p: SwitchProps): (a: A11yProps)
    ensures a.accessible == Some(p.rest.accessible.GetOr(true))
    ensures a.role == Some(p.rest.role.GetOr("switch"))
    ensures a.labelText == p.rest.labelText && a.hint == p.rest.hint
    ensures p.rest.state.Some? ==> a.state == p.rest.state
    ensures p.rest.state.None? ==>
              a.state == Some(NoState.(checked := Some(Bool(Accessibility(p).checked)),
                                       disabled := Some(Accessibility(p).disabled)))
    ensures p.rest.value.Some? ==> a.value == p.rest.value
    ensures p.rest.value.None? ==> a.value == Some(A11yValue(None, None, None, Some(Accessibility(p).valueText)))
  {
    var s := Accessibility(p);
    SpreadRest(A11yProps(Some(true), Some("switch"), None, None,
                         Some(NoState.(checked := Some(Bool(s.checked)), disabled := Some(s.disabled))),
                         Some(A11yValue(None, None, None, Some(s.valueText)))),
               p.rest)
  }

  /** A switch that is on speaks `On`, unless the caller passes an
      `accessibilityValue`, which then replaces it. */
  lemma CallerValueWins(p: SwitchProps)
    requires p.Value()
    ensures PressableA11y(p.(rest := NoA11y)).value.value.text == Some("On")
    ensures PressableA11y(p.(rest := NoA11y.(value := Some(A11yValue(None, None, None, Some("Enabled"))))))
              .value.value.text == Some("Enabled")
  {
  }

  /** With the default theme the two track colours differ, so the track
      shows the state. */
  lemma TrackShowsState()
    ensures TrackColor(true, Default) != TrackColor(false, Default)
  {
  }
}
