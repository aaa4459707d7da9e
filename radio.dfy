/** The decisions of the `src/` `Radio` (src/radio/radio.tsx,
    src/radio/styles.ts): the press, the circle dimensions with their `||`
    overrides, the ring colour, the dot and the accessibility state. */
module Radio {
  import opened Wrappers
  import opened Styles
  import opened DefaultTheme
  import opened Elements
  import opened RadioConstants

  /** The props the component reads; `size` is the string it holds at run
      time. */
  datatype RadioProps = RadioProps(
    selected: Option<bool>,
    onSelect: bool,
    disabled: Option<bool>,
    children: Children,
    size: Option<string>,
    width: Option<real>,
    height: Option<real>,
    innerWidth: Option<real>,
    innerHeight: Option<real>,
    radioStyle: Style,
    rest: A11yProps)
  {
    /** The defaults `selected = false`, `disabled = false`, `size = 'sm'`. */
    predicate Selected() { selected.GetOr(false) }
    predicate Disabled() { disabled.GetOr(false) }
    function Size(): string { size.GetOr("sm") }
  }

  /** `handlePress`: the value `onSelect` receives, or `None` when it is not
      called because the radio is disabled or has no handler. */
  function HandlePress(p: RadioProps): (r: Option<bool>)
    ensures r.Some? <==> !p.Disabled() && p.onSelect
    ensures r.Some? ==> r.value == !p.Selected()
  {
    if !p.Disabled() && p.onSelect then Some(!p.Selected()) else None
  }

  /** The four circle dimensions: each explicit value unless it is missing
      or 0 (`||`), else the size's table entry. */
  function CircleDims(p: RadioProps): (c: RadioSizeConfig)
    ensures var t := GetRadioSizeConfig(p.Size());
            c.outerWidth == (if TruthyNumber(p.width) then p.width.value else t.outerWidth) &&
            c.outerHeight == (if TruthyNumber(p.height) then p.height.value else t.outerHeight) &&
            c.innerWidth == (if TruthyNumber(p.innerWidth) then p.innerWidth.value else t.innerWidth) &&
            c.innerHeight == (if TruthyNumber(p.innerHeight) then p.innerHeight.value else t.innerHeight)
  {
    var t := GetRadioSizeConfig(p.Size());
    RadioSizeConfig(NumberOr(p.width, t.outerWidth), NumberOr(p.height, t.outerHeight),
                    NumberOr(p.innerWidth, t.innerWidth), NumberOr(p.innerHeight, t.innerHeight))
  }

  /** A zero width is no override: the radio keeps its table size. */
  lemma ZeroIsNoOverride(p: RadioProps)
    ensures CircleDims(p.(width := Some(0.0))) == CircleDims(p.(width := None))
    ensures CircleDims(p.(width := None, height := None, innerWidth := None, innerHeight := None)) ==
              GetRadioSizeConfig(p.Size())
  {
  }

  /** `styles.outerCircle`. */
  function OuterCircleBase(theme: Theme): Style {
    Empty.(borderRadius := Some(100.0), borderWidth := Some(1.0), backgroundColor := Some(theme.colors.white900))
  }

  /** The ring's style `[outerCircle, dynamic, radioStyle]`, flattened (the
      disabled opacity aside): without a `radioStyle`, a white ring of the
      computed size, bordered secondary500 when selected and neutral400
      otherwise. */
  function OuterCircleStyle(p: RadioProps, theme: Theme): (r: Style)
    ensures p.radioStyle == Empty ==>
              r.width == Some(Points(CircleDims(p).outerWidth)) &&
              r.height == Some(Points(CircleDims(p).outerHeight)) &&
              r.borderColor == Some(if p.Selected() then theme.colors.secondary500 else theme.colors.neutral400) &&
              r.backgroundColor == Some(theme.colors.white900)
    ensures p.radioStyle.borderColor.Some? ==> r.borderColor == p.radioStyle.borderColor
  {
    var dims := CircleDims(p);
    var dynamicStyles := Empty.(height := Some(Points(dims.outerHeight)), width := Some(Points(dims.outerWidth)),
                                borderColor := Some(if p.Selected() then theme.colors.secondary500
                                                    else theme.colors.neutral400));
    Overlay(Overlay(OuterCircleBase(theme), dynamicStyles), p.radioStyle)
  }

  /** The dot: rendered only when selected, secondary500 and of the inner
      dimensions. */
  function InnerCircle(p: RadioProps, theme: Theme): (r: Option<Style>)
    ensures r.Some? <==> p.Selected()
    ensures r.Some? ==> r.value.backgroundColor == Some(theme.colors.secondary500) &&
                        r.value.width == Some(Points(CircleDims(p).innerWidth)) &&
                        r.value.height == Some(Points(CircleDims(p).innerHeight))
  {
    if p.Selected() then
      var dims := CircleDims(p);
      Some(Empty.(backgroundColor := Some(theme.colors.secondary500), borderRadius := Some(100.0),
                  height := Some(Points(dims.innerHeight)), width := Some(Points(dims.innerWidth))))
    else None
  }

  /** `accessibilityState`: `{checked: selected, disabled}`, with no
      `selected` key. */
  datatype RadioAccessibilityState = RadioAccessibilityState(checked: bool, disabled: bool)

  function AccessibilityState(p: RadioProps): (s: RadioAccessibilityState)
    ensures s.checked == p.Selected() && s.disabled == p.Disabled()
  {
    RadioAccessibilityState(p.Selected(), p.Disabled())
  }

  /** `accessibilityLabel`: the children when they are a string. */
  function AccessibilityLabel(p: RadioProps): (announced: Option<string>)
    ensures announced.Some? <==> p.children.TextChild?
    ensures announced.Some? ==> announced.value == p.children.text
  {
    if p.children.TextChild? then Some(p.children.text) else None
  }

  /** `accessibilityHint`. */
  const Hint := "Double tap to select"

  /** The accessibility props the `Pressable` receives: `accessible`, the
      `radio` role, the state, the children label and the hint, then the
      caller's `{...rest}`, whose keys win. */
  function PressableA11y(p: RadioProps): (a: A11yProps)
    ensures a.accessible == Some(p.rest.accessible.GetOr(true))
    ensures a.role == Some(p.rest.role.GetOr("radio"))
    ensures p.rest.labelText.Some? ==> a.labelText == p.rest.labelText
    ensures p.rest.labelText.None? ==> a.labelText == AccessibilityLabel(p)
    ensures a.hint == Some(p.rest.hint.GetOr(Hint))
    ensures p.rest.state.Some? ==> a.state == p.rest.state
    ensures p.rest.state.None? ==>
              a.state == Some(NoState.(checked := Some(Bool(AccessibilityState(p).checked)),
                                       disabled := Some(AccessibilityState(p).disabled)))
    ensures a.value == p.rest.value
  {
    var s := AccessibilityState(p);
    SpreadRest(A11yProps(Some(true), Some("radio"), AccessibilityLabel(p), Some(Hint),
                         Some(NoState.(checked := Some(Bool(s.checked)), disabled := Some(s.disabled))), None),
               p.rest)
  }

  /** A caller's `accessibilityState` replaces the computed one wholesale:
      passing only `{selected: true}` drops the `checked` and `disabled`
      keys the radio would have announced. */
  lemma CallerStateReplaces(p: RadioProps)
    requires p.rest.state == Some(NoState.(selected := Some(true)))
    ensures PressableA11y(p).state.value.checked.None? && PressableA11y(p).state.value.disabled.None?
    ensures PressableA11y(p.(rest := NoA11y)).state.value.checked == Some(Bool(p.Selected()))
  {
  }

  /** Selecting a radio by pressing it shows the dot and announces it as
      checked; a disabled radio ignores the press. */
  lemma PressSelects(p: RadioProps, theme: Theme)
    requires !p.Selected() && !p.Disabled() && p.onSelect
    ensures HandlePress(p) == Some(true)
    ensures InnerCircle(p.(selected := HandlePress(p)), theme).Some?
    ensures AccessibilityState(p.(selected := HandlePress(p))).checked
    ensures HandlePress(p.(disabled := Some(true))).None?
  {
  }
}
