/** The decisions of the `src/` `Button` component (src/button/button.tsx):
    prop defaults, the press guard, the accessibility props and the caller's
    overrides of them, the pressed-style condition and what the left, right
    and centre slots show. The children are reduced to whether they are
    present (truthy), an icon element to its own `size` prop. */
module Button {
  import opened Wrappers
  import opened Styles
  import DefaultTheme
  import opened ButtonConstants
  import ButtonHelpers
  import opened Elements

  /** An icon element, reduced to its own `size` prop, if it has one. */
  datatype IconElement = IconElement(size: Option<real>)

  /** The props the decisions read. The children and the press handler are
      reduced to "given", the icons to their own size; `css` and `style` are
      the caller's overrides and `rest` the accessibility props the caller
      passes through. */
  datatype ButtonProps = ButtonProps(
    children: bool,
    size: Option<ButtonSize>,
    color: Option<string>,
    variant: Option<string>,
    disabled: Option<bool>,
    loading: Option<bool>,
    leftIcon: Option<IconElement>,
    rightIcon: Option<IconElement>,
    icon: Option<IconElement>,
    onPress: bool,
    css: Style,
    style: Style,
    rest: A11yProps)
  {
    /** The destructuring defaults `size = 'sm'`, `color = 'primary'`,
        `variant = 'solid'`, `disabled = false`, `loading = false`. */
    function Size(): ButtonSize { size.GetOr(SM) }
    function Color(): string { color.GetOr("primary") }
    function Variant(): string { variant.GetOr("solid") }
    predicate Disabled() { disabled.GetOr(false) }
    predicate Loading() { loading.GetOr(false) }

    /** `isIcon = !!icon`. */
    predicate IsIcon() { icon.Some? }

    /** `hasNoIcon = !(leftIcon || rightIcon || icon)`. */
    predicate HasNoIcon() { !(leftIcon.Some? || rightIcon.Some? || icon.Some?) }
  }

  /** A button with no props at all. */
  const NoProps: ButtonProps :=
    ButtonProps(false, None, None, None, None, None, None, None, None, false, Empty, Empty, NoA11y)

  /** With nothing passed, the button is a small, primary, solid button that
      is neither disabled nor loading. */
  lemma Defaults()
    ensures NoProps.Size() == SM && NoProps.Color() == "primary" && NoProps.Variant() == "solid"
    ensures !NoProps.Disabled() && !NoProps.Loading()
  {
  }

  /** `handlePress`: whether a press reaches `onPress`. */
  function HandlePress(p: ButtonProps): (forwarded: bool)
    ensures forwarded <==> !p.Disabled() && !p.Loading() && p.onPress
  {
    !p.Disabled() && !p.Loading() && p.onPress
  }

  /** A disabled or loading button swallows every press, whatever else is set. */
  lemma DisabledOrLoadingSwallowsPress(p: ButtonProps)
    requires p.disabled == Some(true) || p.loading == Some(true)
    ensures !HandlePress(p)
    ensures !HandlePress(p.(onPress := true))
  {
  }

  /** `accessibilityState`. */
  datatype AccessibilityState = AccessibilityState(disabled: bool, busy: bool)

  function ButtonAccessibilityState(p: ButtonProps): (s: AccessibilityState)
    ensures s.disabled == p.Disabled() && s.busy == p.Loading()
  {
    AccessibilityState(p.Disabled(), p.Loading())
  }

  /** `accessibilityLabel ?? (isIcon && !children ? 'Button' : undefined)`. */
  function ButtonAccessibilityLabel(p: ButtonProps): (announced: Option<string>)
    ensures p.rest.labelText.Some? ==> announced == p.rest.labelText
    ensures p.rest.labelText.None? && p.IsIcon() && !p.children ==> announced == Some("Button")
    ensures p.rest.labelText.None? && !(p.IsIcon() && !p.children) ==> announced == None
  {
    p.rest.labelText.OrElse(if p.IsIcon() && !p.children then Some("Button") else None)
  }

  /** A button without an explicit label is announced as "Button" exactly
      when it is icon-only and has no children. */
  lemma LabelFallbackOnlyForIconOnly(p: ButtonProps)
    requires p.rest.labelText.None?
    ensures ButtonAccessibilityLabel(p).Some? <==> p.icon.Some? && !p.children
  {
  }

  /** The accessibility props the `Pressable` receives: `accessible`, the
      `button` role, the state and the label, then the caller's
      `{...rest}`, whose keys win. The label is the same before and after
      the spread, since it already prefers the caller's. */
  function PressableA11y(p: ButtonProps): (a: A11yProps)
    ensures a.accessible == Some(p.rest.accessible.GetOr(true))
    ensures a.role == Some(p.rest.role.GetOr("button"))
    ensures a.labelText == ButtonAccessibilityLabel(p)
    ensures a.hint == p.rest.hint && a.value == p.rest.value
    ensures p.rest.state.Some? ==> a.state == p.rest.state
    ensures p.rest.state.None? ==>
              a.state == Some(NoState.(disabled := Some(ButtonAccessibilityState(p).disabled),
                                       busy := Some(ButtonAccessibilityState(p).busy)))
  {
    var s := ButtonAccessibilityState(p);
    SpreadRest(A11yProps(Some(true), Some("button"), ButtonAccessibilityLabel(p), None,
                         Some(NoState.(disabled := Some(s.disabled), busy := Some(s.busy))), None),
               p.rest)
  }

  /** `pressed && !disabled && !loading && pressedStyle`: whether the pressed
      style enters the style list. */
  predicate PressedStyleApplies(p: ButtonProps, pressed: bool) {
    pressed && !p.Disabled() && !p.Loading()
  }

  /** `buttonStyles.buttonBase`. */
  const ButtonBase: Style :=
    Empty.(borderRadius := Some(8.0), flexDirection := Some("row"), alignItems := Some("center"),
           justifyContent := Some("center"))

  /** The style list of the `Pressable`, flattened: the base, the dynamic
      button styles, the pressed style when it applies, then `css` and
      `style`. The disabled entry sets only `opacity`, which `Style` does
      not hold, so it adds nothing here. Without caller overrides, the
      background is the pressed one exactly while a press is shown. */
  function PressableStyle(p: ButtonProps, theme: DefaultTheme.Theme, pressed: bool): (r: Style)
    ensures p.css == Empty && p.style == Empty ==>
              r.backgroundColor ==
                (if PressedStyleApplies(p, pressed)
                 then ButtonHelpers.PressedStyle(p.Color(), p.Variant(), theme).backgroundColor
                 else ButtonHelpers.ColorStyles(p.Color(), p.Variant(), theme).backgroundColor)
    ensures p.style.backgroundColor.Some? ==> r.backgroundColor == p.style.backgroundColor
    ensures r.height == p.style.height.OrElse(p.css.height).OrElse(Some(Points(Row(p.Size()).height)))
  {
    var dynamicStyles := ButtonHelpers.ButtonStyles(p.Size(), p.Color(), p.Variant(), p.IsIcon(), theme);
    var pressedLayer := if PressedStyleApplies(p, pressed)
                        then ButtonHelpers.PressedStyle(p.Color(), p.Variant(), theme) else Empty;
    Overlay(Overlay(Overlay(Overlay(ButtonBase, dynamicStyles), pressedLayer), p.css), p.style)
  }

  /** What a `ButtonSideElement` shows: the loader while loading, else the
      icon, cloned with `size: getIconSize(size)` placed before its own
      props so that a `size` of its own wins, else nothing. */
  datatype SideContent =
    | Nothing
    | Loader(container: Style, spinnerColor: string, loaderSize: ButtonSize)
    | Icon(container: Style, iconSize: real)

  function SideElement(icon: Option<IconElement>, loading: bool, position: string, size: ButtonSize,
                       spinnerColor: string, containerStyle: Style): (c: SideContent)
    ensures loading ==> c.Loader? && c.spinnerColor == spinnerColor && c.loaderSize == size
    ensures !loading && icon.Some? ==> c.Icon? && c.iconSize == icon.value.size.GetOr(IconSizes(size))
    ensures !loading && icon.None? ==> c == Nothing
    ensures c != Nothing ==>
              c.container == Overlay(ButtonHelpers.IconContainerStyles(position, SizeName(size)), containerStyle)
  {
    var container := Overlay(ButtonHelpers.IconContainerStyles(position, SizeName(size)), containerStyle);
    if loading then Loader(container, spinnerColor, size)
    else if icon.Some? then Icon(container, icon.value.size.GetOr(ButtonHelpers.IconSize(SizeName(size))))
    else Nothing
  }

  /** On a small button an icon with its own `size={24}` is drawn at 24,
      while one without a size gets the small icon size, 16. */
  lemma OwnIconSizeWins(p: ButtonProps, theme: DefaultTheme.Theme)
    requires p.Size() == SM && !p.Loading() && p.icon.None? && p.leftIcon == Some(IconElement(Some(24.0)))
    ensures RenderContent(p, theme).left.value.iconSize == 24.0
    ensures RenderContent(p.(leftIcon := Some(IconElement(None))), theme).left.value.iconSize == 16.0
  {
  }

  /** The content row: in icon mode only the centre element; otherwise an
      optional left slot, the label when there are children, and an
      optional right slot. */
  datatype Content =
    | IconOnly(center: SideContent)
    | Inline(left: Option<SideContent>, text: bool, right: Option<SideContent>)

  function SpinnerColor(p: ButtonProps, theme: DefaultTheme.Theme): string {
    ButtonHelpers.LoadingSpinnerColor(p.Color(), p.Variant(), theme)
  }

  /** `renderContent()`. The left slot renders for a left icon, or for a
      loading button that has no icons at all; its loader shows only in those
      cases, and its right margin is the loader margin. */
  function RenderContent(p: ButtonProps, theme: DefaultTheme.Theme): (c: Content)
    ensures p.IsIcon() <==> c.IconOnly?
    ensures c.Inline? ==> (c.left.Some? <==> p.leftIcon.Some? || (p.HasNoIcon() && p.Loading()))
    ensures c.Inline? && c.left.Some? ==>
              (c.left.value.Loader? <==> p.Loading() && (p.leftIcon.Some? || p.HasNoIcon()))
    ensures c.Inline? && c.left.Some? ==>
              c.left.value != Nothing && c.left.value.container.marginRight == Some(ButtonHelpers.ButtonLoaderMargin(SizeName(p.Size())))
    ensures c.Inline? ==> (c.text <==> p.children) && (c.right.Some? <==> p.rightIcon.Some?)
  {
    var size := p.Size();
    var spinner := SpinnerColor(p, theme);
    var margin := ButtonHelpers.ButtonLoaderMargin(SizeName(size));
    if p.IsIcon() then
      IconOnly(SideElement(p.icon, p.Loading(), "center", size, spinner, Empty))
    else
      var left :=
        if p.leftIcon.Some? || (p.HasNoIcon() && p.Loading()) then
          Some(SideElement(p.leftIcon, p.Loading() && (p.leftIcon.Some? || p.HasNoIcon()), "left", size, spinner,
                           Empty.(marginRight := Some(if p.HasNoIcon() && !p.Loading() then 0.0 else margin))))
        else None;
      var right :=
        if p.rightIcon.Some? then
          Some(SideElement(p.rightIcon, p.Loading(), "right", size, spinner, Empty.(marginLeft := Some(margin))))
        else None;
      Inline(left, p.children, right)
  }

  /** A loading button with a right icon but no left icon shows its loader on
      the right only; one with no icons shows it on the left. */
  lemma LoaderPlacement(p: ButtonProps, theme: DefaultTheme.Theme)
    requires p.Loading() && p.icon.None?
    ensures p.rightIcon.Some? && p.leftIcon.None? ==>
              RenderContent(p, theme).left.None? && RenderContent(p, theme).right.value.Loader?
    ensures p.HasNoIcon() ==>
              RenderContent(p, theme).left.value.Loader? && RenderContent(p, theme).right.None?
  {
  }
}
