/** The decisions of the `Alert` component (src/alert/alert.tsx): prop
    defaults, the icon it draws, the accessibility role and live region,
    the container style and when the close button appears. */
module Alert {
  import opened Wrappers
  import opened Styles
  import opened DefaultTheme
  import opened AlertConstants
  import opened AlertHelpers

  /** The props the component reads. The custom icon and the close handler
      are reduced to "given"; `childrenIsText` says whether `children` is a
      string. */
  datatype AlertProps = AlertProps(
    status: Option<AlertStatus>,
    size: Option<AlertSize>,
    icon: bool,
    closable: Option<bool>,
    onClose: bool,
    childrenIsText: bool,
    css: Style,
    style: Style,
    accessible: Option<bool>,
    accessibilityRole: Option<string>,
    accessibilityLiveRegion: Option<string>)
  {
    /** The destructuring defaults `status = DEFAULT_STATUS`,
        `size = DEFAULT_SIZE`, `closable = false`, `accessible = true`. */
    function Status(): AlertStatus { status.GetOr(DefaultStatus) }
    function Size(): AlertSize { size.GetOr(DefaultSize) }
    predicate Closable() { closable.GetOr(false) }
    predicate Accessible() { accessible.GetOr(true) }
  }

  const NoProps: AlertProps :=
    AlertProps(None, None, false, None, false, false, Empty, Empty, None, None, None)

  /** An alert with no props is a small, accessible, non-closable info alert. */
  lemma Defaults()
    ensures NoProps.Status() == Info && NoProps.Size() == Sm
    ensures !NoProps.Closable() && NoProps.Accessible()
  {
  }

  /** `computedLiveRegion`: the caller's value, else `'polite'` for errors
      and warnings and `'none'` for the rest. */
  function LiveRegion(p: AlertProps): (r: string)
    ensures p.accessibilityLiveRegion.Some? ==> r == p.accessibilityLiveRegion.value
    ensures p.accessibilityLiveRegion.None? ==>
              (r == "polite" <==> p.Status() in {Error, AlertStatus.Warning}) &&
              (r == "none" <==> p.Status() in {Info, Success})
  {
    p.accessibilityLiveRegion.GetOr(
      if p.Status() == Error || p.Status() == AlertStatus.Warning then "polite" else "none")
  }

  /** A default alert is not announced as it changes; only an alert whose
      status is set to error or warning is. */
  lemma OnlyProblemsAreAnnounced()
    ensures LiveRegion(NoProps) == "none"
    ensures LiveRegion(NoProps.(status := Some(Error))) == "polite"
    ensures LiveRegion(NoProps.(status := Some(AlertStatus.Warning))) == "polite"
  {
  }

  /** `accessibilityRole ?? 'alert'`. */
  function Role(p: AlertProps): (r: string)
    ensures p.accessibilityRole.Some? ==> r == p.accessibilityRole.value
    ensures p.accessibilityRole.None? ==> r == "alert"
  {
    p.accessibilityRole.GetOr("alert")
  }

  /** The accessibility props the outer `View` receives. */
  datatype AlertA11y = AlertA11y(accessible: bool, role: string, liveRegion: string)

  /** `accessible`, `accessibilityRole` and `accessibilityLiveRegion` on the
      container: accessible unless the caller passes `false`, with the
      resolved role and live region. */
  function ViewAccessibility(p: AlertProps): (r: AlertA11y)
    ensures r.accessible <==> p.accessible != Some(false)
    ensures r.role == Role(p) && r.liveRegion == LiveRegion(p)
    ensures p == NoProps ==> r == AlertA11y(true, "alert", "none")
  {
    AlertA11y(p.Accessible(), Role(p), LiveRegion(p))
  }

  /** `closeIconSize`: four points smaller than the status icon, so 16 for
      sm and 20 for md. */
  function CloseIconSize(size: AlertSize): (r: real)
    ensures r + 4.0 == IconSize(size)
    ensures size == Sm ==> r == 16.0
    ensures size == Md ==> r == 20.0
  {
    SizeConfig(size).iconSize - 4.0
  }

  /** The icon element `renderIcon()` returns: the caller's icon resized to a
      square of the icon size, or the status's default icon. Both are drawn
      in the status's icon colour. */
  datatype IconElement =
    | CustomIcon(width: real, height: real, iconColor: string)
    | StatusIcon(of: AlertStatus, size: real, iconColor: string)

  function RenderIcon(p: AlertProps, theme: Theme): (e: IconElement)
    ensures p.icon <==> e.CustomIcon?
    ensures e.CustomIcon? ==> e.width == e.height == IconSize(p.Size())
    ensures e.StatusIcon? ==> e.of == p.Status() && e.size == IconSize(p.Size())
    ensures ColorOf(theme.colors, StatusIconColor(p.Status())) == Some(e.iconColor)
  {
    var iconSize := IconSize(p.Size());
    var iconColor := IconColor(theme, p.Status());
    if p.icon then CustomIcon(iconSize, iconSize, iconColor)
    else StatusIcon(p.Status(), iconSize, iconColor)
  }

  /** `styles.container`. */
  const ContainerBase: Style := Empty.(flexDirection := Some("row"), alignItems := Some("flex-start"))

  /** The container's style list `[styles.container, sizeStyles,
      statusStyles, css, style]`, flattened. Without overrides the alert is a
      row with the size's padding and the status's colours; `style` wins
      over `css`, which wins over the computed styles. */
  function ContainerStyle(p: AlertProps, theme: Theme): (r: Style)
    ensures p.css == Empty && p.style == Empty ==>
              r.flexDirection == Some("row") &&
              r.paddingHorizontal == Some(SizeConfig(p.Size()).paddingHorizontal) &&
              r.gap == Some(SizeConfig(p.Size()).gap) &&
              r.backgroundColor == ColorOf(theme.colors, StatusBgColor(p.Status())) &&
              r.borderColor == ColorOf(theme.colors, StatusBorderColor(p.Status())) &&
              r.borderWidth == Some(1.0)
    ensures r.backgroundColor == p.style.backgroundColor.OrElse(p.css.backgroundColor)
                                   .OrElse(ColorOf(theme.colors, StatusBgColor(p.Status())))
    ensures r.borderRadius == p.style.borderRadius.OrElse(p.css.borderRadius)
                                .OrElse(Some(SizeConfig(p.Size()).borderRadius))
  {
    Overlay(Overlay(Overlay(Overlay(ContainerBase, SizeStyles(p.Size())),
                            StatusContainerStyles(theme, p.Status())), p.css), p.style)
  }

  /** The style of the text node: string children are wrapped in a `Text`
      with the status's text styles; other children are rendered as given. */
  function ContentTextStyle(p: AlertProps, theme: Theme): (r: Option<Style>)
    ensures r.Some? <==> p.childrenIsText
    ensures r.Some? ==> r.value.color == ColorOf(theme.colors, StatusTextColor(p.Status())) &&
                        r.value.fontSize == Some(SizeConfig(p.Size()).fontSize)
  {
    if p.childrenIsText then Some(TextStyles(theme, p.Status(), p.Size())) else None
  }

  /** The close button: a pressable with a fixed label and hint, holding the
      close icon in the status's icon colour. */
  datatype CloseButton = CloseButton(
    role: string, accessibleLabel: string, hint: string, iconSize: real, iconColor: string)

  /** `closable && onClose && <Pressable ...>`: the button appears only when
      the alert is closable and has a close handler. */
  function RenderCloseButton(p: AlertProps, theme: Theme): (b: Option<CloseButton>)
    ensures b.Some? <==> p.Closable() && p.onClose
    ensures b.Some? ==> b.value.role == "button" && b.value.accessibleLabel == "Close alert" &&
                        b.value.hint == "Dismisses this alert"
    ensures b.Some? ==> b.value.iconSize + 4.0 == IconSize(p.Size()) &&
                        Some(b.value.iconColor) == ColorOf(theme.colors, StatusIconColor(p.Status()))
  {
    if p.Closable() && p.onClose then
      Some(CloseButton("button", "Close alert", "Dismisses this alert",
                       CloseIconSize(p.Size()), IconColor(theme, p.Status())))
    else None
  }

  /** A close handler alone does not show the button: `closable` must be set. */
  lemma CloseNeedsBoth(p: AlertProps, theme: Theme)
    ensures p.closable.None? ==> RenderCloseButton(p, theme).None?
    ensures !p.onClose ==> RenderCloseButton(p, theme).None?
  {
  }
}
