/** The `src/` `Separator` (src/separator/separator.tsx): a one-point line
    across the full width or height, its margins, and the accessibility
    props it forwards or hides. */
module Separator {
  import opened Wrappers
  import opened Styles
  import opened DefaultTheme
  import opened Utils

  datatype Orientation = Horizontal | Vertical

  /** The accessibility props a caller may pass; `state` and `value` are
      objects the separator only forwards, so they are opaque strings here. */
  datatype SeparatorA11yProps = SeparatorA11yProps(
    accessible: Option<bool>,
    labelText: Option<string>,
    hint: Option<string>,
    state: Option<string>,
    value: Option<string>,
    viewIsModal: Option<bool>,
    elementsHidden: Option<bool>,
    liveRegion: Option<string>,
    importantForAccessibility: Option<string>)

  const NoA11y: SeparatorA11yProps := SeparatorA11yProps(None, None, None, None, None, None, None, None, None)

  datatype SeparatorProps = SeparatorProps(
    orientation: Option<Orientation>,
    color: Option<string>,
    decorative: Option<bool>,
    margins: MarginProps,
    a11y: SeparatorA11yProps,
    css: Style,
    style: Style)
  {
    /** The defaults `orientation = 'horizontal'` and `decorative = false`. */
    function Orientation(): Orientation { orientation.GetOr(Horizontal) }
    predicate Decorative() { decorative.GetOr(false) }
  }

  /** `dynamicStyles`: the four resolved margins (default 0), the colour,
      `neutral200` unless given, and a line one point thick along the
      orientation and `'100%'` across it. */
  function DynamicStyles(p: SeparatorProps, theme: Theme): (r: Style)
    ensures r.marginTop == Some(p.margins.marginTop.OrElse(p.margins.marginVertical).OrElse(p.margins.margin).GetOr(0.0))
    ensures r.marginBottom == Some(p.margins.marginBottom.OrElse(p.margins.marginVertical).OrElse(p.margins.margin).GetOr(0.0))
    ensures r.marginLeft == Some(p.margins.marginLeft.OrElse(p.margins.marginHorizontal).OrElse(p.margins.margin).GetOr(0.0))
    ensures r.marginRight == Some(p.margins.marginRight.OrElse(p.margins.marginHorizontal).OrElse(p.margins.margin).GetOr(0.0))
    ensures r.backgroundColor == Some(p.color.GetOr(theme.colors.neutral200))
    ensures p.Orientation() == Horizontal ==> r.height == Some(Points(1.0)) && r.width == Some(Percent(100.0))
    ensures p.Orientation() == Vertical ==> r.width == Some(Points(1.0)) && r.height == Some(Percent(100.0))
    ensures r.(marginTop := None, marginBottom := None, marginLeft := None, marginRight := None,
               backgroundColor := None, width := None, height := None) == Empty
  {
    var m := ResolveMargin(p.margins, 0.0);
    var line := if p.Orientation() == Horizontal then Empty.(height := Some(Points(1.0)), width := Some(Percent(100.0)))
                else Empty.(width := Some(Points(1.0)), height := Some(Percent(100.0)));
    Overlay(Empty.(marginTop := Some(m.top), marginBottom := Some(m.bottom), marginLeft := Some(m.left),
                   marginRight := Some(m.right), backgroundColor := Some(p.color.GetOr(theme.colors.neutral200))),
            line)
  }

  /** Turning a separator swaps its width and height and changes nothing
      else; with no margin props every margin is 0. */
  lemma OrientationTransposes(p: SeparatorProps, theme: Theme)
    ensures var h := DynamicStyles(p.(orientation := Some(Horizontal)), theme);
            var v := DynamicStyles(p.(orientation := Some(Vertical)), theme);
            v == h.(width := h.height, height := h.width)
    ensures DynamicStyles(p.(margins := NoMargin), theme).marginBottom == Some(0.0)
    ensures DynamicStyles(p.(orientation := None), theme) == DynamicStyles(p.(orientation := Some(Horizontal)), theme)
  {
  }

  /** The view's style list `[dynamicStyles, css, style]`, flattened. */
  function SeparatorStyle(p: SeparatorProps, theme: Theme): (r: Style)
    ensures r.backgroundColor == p.style.backgroundColor.OrElse(p.css.backgroundColor)
                                   .OrElse(Some(p.color.GetOr(theme.colors.neutral200)))
    ensures p.css == Empty && p.style == Empty ==> r == DynamicStyles(p, theme)
  {
    var computed := DynamicStyles(p, theme);
    OverlayEmpty(computed);
    Overlay(Overlay(computed, p.css), p.style)
  }

  /** The accessibility props the view receives. A decorative separator is
      not accessible, has no role, label, hint, state or value, hides its
      elements and descendants; otherwise it has the role `'none'` and the
      caller's props pass through. Modal and live-region pass through
      either way. */
  datatype SeparatorA11y = SeparatorA11y(role: Option<string>, props: SeparatorA11yProps)

  function Accessibility(p: SeparatorProps): (r: SeparatorA11y)
    ensures p.Decorative() ==>
              r.role.None? && r.props.accessible == Some(false) &&
              r.props.labelText.None? && r.props.hint.None? && r.props.state.None? && r.props.value.None? &&
              r.props.elementsHidden == Some(true) &&
              r.props.importantForAccessibility == Some("no-hide-descendants")
    ensures !p.Decorative() ==> r.role == Some("none") && r.props == p.a11y
    ensures r.props.viewIsModal == p.a11y.viewIsModal && r.props.liveRegion == p.a11y.liveRegion
  {
    if p.Decorative() then
      SeparatorA11y(None, SeparatorA11yProps(Some(false), None, None, None, None, p.a11y.viewIsModal, Some(true),
                                    p.a11y.liveRegion, Some("no-hide-descendants")))
    else SeparatorA11y(Some("none"), p.a11y)
  }

  /** A decorative separator announces nothing the caller passed: whatever
      label, hint, state or value are given, it is presented the same. */
  lemma DecorativeIgnoresCallerProps(p: SeparatorProps)
    requires p.Decorative()
    ensures Accessibility(p) ==
              Accessibility(p.(a11y := NoA11y.(viewIsModal := p.a11y.viewIsModal, liveRegion := p.a11y.liveRegion)))
    ensures !Accessibility(p.(decorative := None)).role.None?
  {
  }
}
