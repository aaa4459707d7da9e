/** The decisions of the `src/` `Checkbox` (src/checkbox/checkbox.tsx,
    src/checkbox/styles.ts): the tri-state press transition, the filled
    look, the icon, the box size and the accessibility mapping. */
module Checkbox {
  import opened Wrappers
  import opened Styles
  import opened DefaultTheme
  import opened Elements

  /** `CheckedState`: `boolean | 'indeterminate'`. */
  datatype CheckedState = Unchecked | Checked | Indeterminate

  function FromBool(b: bool): CheckedState {
    if b then Checked else Unchecked
  }

  /** The props the component reads; `size` is the string it holds at run
      time. */
  datatype CheckboxProps = CheckboxProps(
    checked: Option<CheckedState>,
    onChange: bool,
    disabled: Option<bool>,
    children: Children,
    size: Option<string>,
    checkboxStyle: Style,
    css: Style,
    style: Style,
    rest: A11yProps)
  {
    /** The defaults `checked = false`, `disabled = false`, `size = 'sm'`. */
    function State(): CheckedState { checked.GetOr(Unchecked) }
    predicate Disabled() { disabled.GetOr(false) }
    function Size(): string { size.GetOr("sm") }
  }

  /** The value `handlePress` passes to `onChange`: an indeterminate box
      becomes checked, a boolean one is negated. */
  function NextValue(c: CheckedState): (b: bool)
    ensures c == Indeterminate ==> b
    ensures c != Indeterminate ==> b == (c == Unchecked)
  {
    match c
    case Indeterminate => true
    case Checked => false
    case Unchecked => true
  }

  /** Pressing twice from a boolean state returns to it; from the
      indeterminate state two presses end unchecked. */
  lemma PressTwice(b: bool)
    ensures NextValue(FromBool(NextValue(FromBool(b)))) == b
    ensures NextValue(FromBool(NextValue(Indeterminate))) == false
  {
  }

  /** `handlePress`: the value `onChange` receives, or `None` when it is not
      called because the box is disabled or has no handler. */
  function HandlePress(p: CheckboxProps): (r: Option<bool>)
    ensures r.Some? <==> !p.Disabled() && p.onChange
    ensures r.Some? ==> r.value == NextValue(p.State())
  {
    if !p.Disabled() && p.onChange then Some(NextValue(p.State())) else None
  }

  /** `isChecked`: checked or indeterminate. */
  predicate IsChecked(c: CheckedState) {
    c == Checked || c == Indeterminate
  }

  /** After a press the box is checked exactly when it was not: the
      indeterminate box counts as checked, yet a press checks it. */
  lemma PressFlipsLookExceptIndeterminate(c: CheckedState)
    ensures c != Indeterminate ==> IsChecked(FromBool(NextValue(c))) == !IsChecked(c)
    ensures c == Indeterminate ==> IsChecked(FromBool(NextValue(c)))
  {
  }

  /** `checkboxDynamicStyles`: a filled box (secondary500, transparent
      border) when checked or indeterminate, else white900 inside a
      neutral700 border. */
  function DynamicStyles(c: CheckedState, theme: Theme): (r: Style)
    ensures IsChecked(c) ==>
              r.backgroundColor == Some(theme.colors.secondary500) && r.borderColor == Some("transparent")
    ensures !IsChecked(c) ==>
              r.backgroundColor == Some(theme.colors.white900) && r.borderColor == Some(theme.colors.neutral700)
    ensures r.(backgroundColor := None, borderColor := None) == Empty
  {
    var filled := IsChecked(c);
    Empty.(borderColor := Some(if filled then "transparent" else theme.colors.neutral700),
           backgroundColor := Some(if filled then theme.colors.secondary500 else theme.colors.white900))
  }

  datatype CheckboxAccessibilityState = CheckboxAccessibilityState(checked: A11yChecked, disabled: bool)

  function AccessibilityState(p: CheckboxProps): (s: CheckboxAccessibilityState)
    ensures s.checked == Mixed <==> p.State() == Indeterminate
    ensures s.checked.Bool? ==> s.checked.value == (p.State() == Checked)
    ensures s.disabled == p.Disabled()
  {
    CheckboxAccessibilityState(
      match p.State()
      case Indeterminate => Mixed
      case Checked => Bool(true)
      case Unchecked => Bool(false),
      p.Disabled())
  }

  /** `accessibilityLabel`: the children when they are a string. */
  function AccessibilityLabel(p: CheckboxProps): (announced: Option<string>)
    ensures announced.Some? <==> p.children.TextChild?
    ensures announced.Some? ==> announced.value == p.children.text
  {
    match p.children
    case TextChild(t) => Some(t)
    case _ => None
  }

  /** `accessibilityHint`. */
  const Hint := "Double tap to toggle"

  /** The accessibility props the `Pressable` receives: `accessible`, the
      `checkbox` role, the state, the children label and the hint, then the
      caller's `{...rest}`, whose keys win. */
  function PressableA11y(p: CheckboxProps): (a: A11yProps)
    ensures a.accessible == Some(p.rest.accessible.GetOr(true))
    ensures a.role == Some(p.rest.role.GetOr("checkbox"))
    ensures p.rest.labelText.Some? ==> a.labelText == p.rest.labelText
    ensures p.rest.labelText.None? ==> a.labelText == AccessibilityLabel(p)
    ensures a.hint == Some(p.rest.hint.GetOr(Hint))
    ensures p.rest.state.Some? ==> a.state == p.rest.state
    ensures p.rest.state.None? ==>
              a.state == Some(NoState.(checked := Some(AccessibilityState(p).checked),
                                       disabled := Some(AccessibilityState(p).disabled)))
    ensures a.value == p.rest.value
  {
    var s := AccessibilityState(p);
    SpreadRest(A11yProps(Some(true), Some("checkbox"), AccessibilityLabel(p), Some(Hint),
                         Some(NoState.(checked := Some(s.checked), disabled := Some(s.disabled))), None),
               p.rest)
  }

  /** A caller's `accessibilityLabel` is what is announced, whatever the
      children say; without one a string child is the label. */
  lemma CallerLabelWins(p: CheckboxProps)
    requires p.children == TextChild("Terms")
    ensures PressableA11y(p.(rest := p.rest.(labelText := Some("Accept terms")))).labelText == Some("Accept terms")
    ensures PressableA11y(p.(rest := NoA11y)).labelText == Some("Terms")
  {
  }

  /** The icon inside the box: a dash when indeterminate, else a tick; both
      white900 (the tick fades out while unchecked). */
  datatype CheckIcon = Dash(dashColor: string) | Tick(tickColor: string)

  function Icon(c: CheckedState, theme: Theme): (i: CheckIcon)
    ensures i.Dash? <==> c == Indeterminate
    ensures i == Dash(theme.colors.white900) || i == Tick(theme.colors.white900)
  {
    if c == Indeterminate then Dash(theme.colors.white900) else Tick(theme.colors.white900)
  }

  /** `checkboxStyles.checkboxBase`. */
  const CheckboxBase: Style :=
    Empty.(borderRadius := Some(4.0), alignItems := Some("center"), justifyContent := Some("center"),
           borderWidth := Some(1.0))

  /** `size === 'md' ? checkboxMd : checkboxSm`: 20 by 20 for md and 16 by
      16 for any other size. */
  function BoxSide(size: string): (side: real)
    ensures size == "md" ==> side == 20.0
    ensures size != "md" ==> side == 16.0
  {
    if size == "md" then 20.0 else 16.0
  }

  /** The box's style list `[checkboxBase, size, dynamic, checkboxStyle]`,
      flattened (the disabled opacity aside). Without a `checkboxStyle` the
      box is a square of the size's side with the look of its state. */
  function BoxStyle(p: CheckboxProps, theme: Theme): (r: Style)
    ensures p.checkboxStyle == Empty ==>
              r.width == r.height == Some(Points(BoxSide(p.Size()))) &&
              r.backgroundColor == DynamicStyles(p.State(), theme).backgroundColor &&
              r.borderWidth == Some(1.0) && r.borderRadius == Some(4.0)
    ensures p.checkboxStyle.width.Some? ==> r.width == p.checkboxStyle.width
  {
    var side := BoxSide(p.Size());
    Overlay(Overlay(Overlay(CheckboxBase, Empty.(width := Some(Points(side)), height := Some(Points(side)))),
                    DynamicStyles(p.State(), theme)), p.checkboxStyle)
  }

  /** The label container is rendered when the children are truthy. */
  predicate LabelShown(p: CheckboxProps) {
    TruthyChildren(p.children)
  }

  /** A disabled box ignores presses whatever its state, and a fresh box is
      unchecked, white and shows no dash. */
  lemma DisabledAndDefault(p: CheckboxProps, theme: Theme)
    requires p.disabled == Some(true)
    ensures HandlePress(p).None?
    ensures var untouched := p.(checked := None, disabled := None, onChange := true);
            HandlePress(untouched) == Some(true) &&
            DynamicStyles(untouched.State(), theme).backgroundColor == Some(theme.colors.white900) &&
            AccessibilityState(untouched).checked == Bool(false)
  {
  }
}
