/** The `packages/` `Flex` (packages/flex/flex.tsx): a view whose style is a
    column by default, the resolved margins and paddings, and each flex prop
    the caller gave. */
module PkgFlex {
  import opened Wrappers
  import opened Styles
  import opened Utils

  /** The props the component reads. */
  datatype FlexProps = FlexProps(
    margins: MarginProps,
    paddings: PaddingProps,
    direction: Option<string>,
    align: Option<string>,
    justify: Option<string>,
    wrap: Option<string>,
    flex: Option<real>,
    flexGrow: Option<real>,
    flexShrink: Option<real>,
    flexBasis: Option<Dimension>,
    alignSelf: Option<string>,
    gap: Option<real>,
    css: Style,
    style: Style)

  /** `dynamicStyles`: `flexDirection` is the direction unless that is
      missing or empty, then `'column'`; the margins and paddings are always
      written, resolved with the default 0; `align`, `justify`, `wrap` and
      `alignSelf` appear only when truthy, while `flex`, `flexGrow`,
      `flexShrink`, `flexBasis` and `gap` appear whenever given, 0 included.
      No other key is written. */
  function FlexDynamicStyles(p: FlexProps): (r: Style)
    ensures r.flexDirection == Some(if TruthyString(p.direction) then p.direction.value else "column")
    ensures var m := ResolveMargin(p.margins, 0.0);
            r.marginTop == Some(m.top) && r.marginBottom == Some(m.bottom) &&
            r.marginLeft == Some(m.left) && r.marginRight == Some(m.right)
    ensures var q := ResolvePadding(p.paddings, 0.0);
            r.paddingTop == Some(q.top) && r.paddingBottom == Some(q.bottom) &&
            r.paddingLeft == Some(q.left) && r.paddingRight == Some(q.right)
    ensures r.alignItems.Some? <==> TruthyString(p.align)
    ensures r.justifyContent.Some? <==> TruthyString(p.justify)
    ensures r.flexWrap.Some? <==> TruthyString(p.wrap)
    ensures r.alignSelf.Some? <==> TruthyString(p.alignSelf)
    ensures r.alignItems.Some? ==> r.alignItems == p.align
    ensures r.justifyContent.Some? ==> r.justifyContent == p.justify
    ensures r.flexWrap.Some? ==> r.flexWrap == p.wrap
    ensures r.alignSelf.Some? ==> r.alignSelf == p.alignSelf
    ensures r.flex == p.flex && r.flexGrow == p.flexGrow && r.flexShrink == p.flexShrink
    ensures r.flexBasis == p.flexBasis && r.gap == p.gap
    ensures r.(flexDirection := None, marginTop := None, marginBottom := None, marginLeft := None,
               marginRight := None, paddingTop := None, paddingBottom := None, paddingLeft := None,
               paddingRight := None, alignItems := None, justifyContent := None, flexWrap := None,
               alignSelf := None, flex := None, flexGrow := None, flexShrink := None, flexBasis := None,
               gap := None) == Empty
  {
    FlexBase(p).(alignItems := IfTruthy(p.align), justifyContent := IfTruthy(p.justify), flexWrap := IfTruthy(p.wrap),
                 flex := p.flex, flexGrow := p.flexGrow, flexShrink := p.flexShrink, flexBasis := p.flexBasis,
                 alignSelf := IfTruthy(p.alignSelf), gap := p.gap)
  }

  /** The keys written unconditionally: the direction and the spacing. */
  function FlexBase(p: FlexProps): Style {
    var m := ResolveMargin(p.margins, 0.0);
    var q := ResolvePadding(p.paddings, 0.0);
    Empty.(flexDirection := Some(if TruthyString(p.direction) then p.direction.value else "column"),
           marginTop := Some(m.top), marginBottom := Some(m.bottom),
           marginLeft := Some(m.left), marginRight := Some(m.right),
           paddingTop := Some(q.top), paddingBottom := Some(q.bottom),
           paddingLeft := Some(q.left), paddingRight := Some(q.right))
  }

  /** The building of `dynamicStyles`: the direction and spacing first, then
      one guarded write per optional prop. */
  method BuildFlexStyles(p: FlexProps) returns (s: Style)
    ensures s == FlexDynamicStyles(p)
  {
    var m := ResolveMargin(p.margins, 0.0);
    var q := ResolvePadding(p.paddings, 0.0);
    s := Empty.(flexDirection := Some(if TruthyString(p.direction) then p.direction.value else "column"),
                marginTop := Some(m.top), marginBottom := Some(m.bottom),
                marginLeft := Some(m.left), marginRight := Some(m.right),
                paddingTop := Some(q.top), paddingBottom := Some(q.bottom),
                paddingLeft := Some(q.left), paddingRight := Some(q.right));
    s := if TruthyString(p.align) then s.(alignItems := p.align) else s;
    s := if TruthyString(p.justify) then s.(justifyContent := p.justify) else s;
    s := if TruthyString(p.wrap) then s.(flexWrap := p.wrap) else s;
    s := if p.flex.Some? then s.(flex := p.flex) else s;
    s := if p.flexGrow.Some? then s.(flexGrow := p.flexGrow) else s;
    s := if p.flexShrink.Some? then s.(flexShrink := p.flexShrink) else s;
    s := if p.flexBasis.Some? then s.(flexBasis := p.flexBasis) else s;
    s := if TruthyString(p.alignSelf) then s.(alignSelf := p.alignSelf) else s;
    s := if p.gap.Some? then s.(gap := p.gap) else s;
  }

  /** Zero survives where empty strings do not: `flex: 0` and `gap: 0` are
      written, an empty `align` or `direction` is not. */
  lemma ZeroKeptEmptyDropped(p: FlexProps)
    ensures FlexDynamicStyles(p.(flex := Some(0.0), gap := Some(0.0))).flex == Some(0.0)
    ensures FlexDynamicStyles(p.(flex := Some(0.0), gap := Some(0.0))).gap == Some(0.0)
    ensures FlexDynamicStyles(p.(align := Some(""))).alignItems.None?
    ensures FlexDynamicStyles(p.(direction := Some(""))) == FlexDynamicStyles(p.(direction := None))
    ensures FlexDynamicStyles(p.(direction := None)).flexDirection == Some("column")
  {
  }

  /** The view's style list `[dynamicStyles, css, style]`, flattened: the
      caller's `style` wins over `css`, which wins over the computed keys. */
  function FlexStyle(p: FlexProps): (r: Style)
    ensures r.flexDirection == p.style.flexDirection.OrElse(p.css.flexDirection)
                                 .OrElse(FlexDynamicStyles(p).flexDirection)
    ensures r.gap == p.style.gap.OrElse(p.css.gap).OrElse(p.gap)
    ensures p.css == Empty && p.style == Empty ==> r == FlexDynamicStyles(p)
  {
    var computed := FlexDynamicStyles(p);
    OverlayEmpty(computed);
    Overlay(Overlay(computed, p.css), p.style)
  }
}
