/** React Native style objects. A style is modelled as a record with one
    optional field per style key the components write; `None` means the key
    is absent from the object. */
module Styles {
  import opened Wrappers

  /** A dimension: a number of density-independent points, a percentage
      string such as `'100%'`, or `'auto'`. */
  datatype Dimension = Points(pt: real) | Percent(pct: real) | Auto

  datatype Style = Style(
    width: Option<Dimension>,
    height: Option<Dimension>,
    padding: Option<real>,
    paddingVertical: Option<real>,
    paddingHorizontal: Option<real>,
    paddingTop: Option<real>,
    paddingBottom: Option<real>,
    paddingLeft: Option<real>,
    paddingRight: Option<real>,
    marginTop: Option<real>,
    marginBottom: Option<real>,
    marginLeft: Option<real>,
    marginRight: Option<real>,
    borderRadius: Option<real>,
    borderWidth: Option<real>,
    backgroundColor: Option<string>,
    borderColor: Option<string>,
    borderTopColor: Option<string>,
    borderRightColor: Option<string>,
    borderBottomColor: Option<string>,
    borderLeftColor: Option<string>,
    flexDirection: Option<string>,
    alignItems: Option<string>,
    justifyContent: Option<string>,
    flexWrap: Option<string>,
    alignSelf: Option<string>,
    flex: Option<real>,
    flexGrow: Option<real>,
    flexShrink: Option<real>,
    flexBasis: Option<Dimension>,
    gap: Option<real>,
    fontSize: Option<real>,
    lineHeight: Option<real>,
    letterSpacing: Option<real>,
    fontFamily: Option<string>,
    fontWeight: Option<string>,
    color: Option<string>,
    textAlign: Option<string>,
    textDecorationLine: Option<string>,
    textTransform: Option<string>,
    fontStyle: Option<string>)

  /** The empty style object `{}`. */
  const Empty: Style := Style(None, None, None, None, None, None, None, None, None, None, None, None, None, None, None, None, None, None, None, None, None, None, None, None, None, None, None, None, None, None, None, None, None, None, None, None, None, None, None, None, None)

  /** Object spread `{...base, ...top}` (and a flattened style array
      `[base, top]`): every key set in `top` wins, the others come from `base`. */
  function Overlay(base: Style, top: Style): (r: Style)
    ensures r == Empty <==> base == Empty && top == Empty
  {
    Style(
      top.width.OrElse(base.width),
      top.height.OrElse(base.height),
      top.padding.OrElse(base.padding),
      top.paddingVertical.OrElse(base.paddingVertical),
      top.paddingHorizontal.OrElse(base.paddingHorizontal),
      top.paddingTop.OrElse(base.paddingTop),
      top.paddingBottom.OrElse(base.paddingBottom),
      top.paddingLeft.OrElse(base.paddingLeft),
      top.paddingRight.OrElse(base.paddingRight),
      top.marginTop.OrElse(base.marginTop),
      top.marginBottom.OrElse(base.marginBottom),
      top.marginLeft.OrElse(base.marginLeft),
      top.marginRight.OrElse(base.marginRight),
      top.borderRadius.OrElse(base.borderRadius),
      top.borderWidth.OrElse(base.borderWidth),
      top.backgroundColor.OrElse(base.backgroundColor),
      top.borderColor.OrElse(base.borderColor),
      top.borderTopColor.OrElse(base.borderTopColor),
      top.borderRightColor.OrElse(base.borderRightColor),
      top.borderBottomColor.OrElse(base.borderBottomColor),
      top.borderLeftColor.OrElse(base.borderLeftColor),
      top.flexDirection.OrElse(base.flexDirection),
      top.alignItems.OrElse(base.alignItems),
      top.justifyContent.OrElse(base.justifyContent),
      top.flexWrap.OrElse(base.flexWrap),
      top.alignSelf.OrElse(base.alignSelf),
      top.flex.OrElse(base.flex),
      top.flexGrow.OrElse(base.flexGrow),
      top.flexShrink.OrElse(base.flexShrink),
      top.flexBasis.OrElse(base.flexBasis),
      top.gap.OrElse(base.gap),
      top.fontSize.OrElse(base.fontSize),
      top.lineHeight.OrElse(base.lineHeight),
      top.letterSpacing.OrElse(base.letterSpacing),
      top.fontFamily.OrElse(base.fontFamily),
      top.fontWeight.OrElse(base.fontWeight),
      top.color.OrElse(base.color),
      top.textAlign.OrElse(base.textAlign),
      top.textDecorationLine.OrElse(base.textDecorationLine),
      top.textTransform.OrElse(base.textTransform),
      top.fontStyle.OrElse(base.fontStyle))
  }

  /** The empty object is neutral on both sides of a spread. */
  lemma OverlayEmpty(s: Style)
    ensures Overlay(Empty, s) == s && Overlay(s, Empty) == s
  {
  }

  /** Layering is associative, so `[a, b, c]` flattens the same way however it is grouped. */
  lemma OverlayAssociative(a: Style, b: Style, c: Style)
    ensures Overlay(Overlay(a, b), c) == Overlay(a, Overlay(b, c))
  {
  }

  /** Laying a style over itself changes nothing. */
  lemma OverlayIdempotent(a: Style, b: Style)
    ensures Overlay(Overlay(a, b), b) == Overlay(a, b)
  {
  }
}
