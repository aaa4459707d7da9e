/** The `packages/` `Text` (packages/text/text.tsx): the typography defaults,
    the resolved spacing, and the typography props the caller gave. */
module PkgText {
  import opened Wrappers
  import opened Styles
  import opened DefaultTheme
  import opened Utils

  /** `DEFAULT_FONT_SIZE`. */
  const DefaultFontSize: real := 14.0

  /** The props the component reads. */
  datatype TextProps = TextProps(
    margins: MarginProps,
    paddings: PaddingProps,
    fontSize: Option<real>,
    fontFamily: Option<string>,
    fontWeight: Option<string>,
    color: Option<string>,
    textAlign: Option<string>,
    textDecoration: Option<string>,
    textTransform: Option<string>,
    fontStyle: Option<string>,
    lineHeight: Option<real>,
    letterSpacing: Option<real>,
    css: Style,
    style: Style)
  {
    /** `fontFamily ?? theme.fonts.regular` and `fontWeight ?? '400'`. */
    function Family(theme: Theme): string { fontFamily.GetOr(theme.fonts.regular) }
    function Weight(): string { fontWeight.GetOr("400") }
  }

  /** `dynamicStyles`: font size 14, the regular font and neutral900 unless
      given; a weight only on the `'System'` font; the resolved margins and
      paddings; `lineHeight` and `letterSpacing` whenever given, and the
      four string props only when truthy, `textDecoration` written as
      `textDecorationLine`. No other key is written. */
  function TextDynamicStyles(p: TextProps, theme: Theme): (r: Style)
    ensures r.fontSize == Some(p.fontSize.GetOr(DefaultFontSize))
    ensures r.fontFamily == Some(p.Family(theme))
    ensures r.fontWeight.Some? <==> p.Family(theme) == "System" && p.Weight() != ""
    ensures r.fontWeight.Some? ==> r.fontWeight == Some(p.Weight())
    ensures r.color == Some(p.color.GetOr(theme.colors.neutral900))
    ensures var m := ResolveMargin(p.margins, 0.0);
            r.marginTop == Some(m.top) && r.marginBottom == Some(m.bottom) &&
            r.marginLeft == Some(m.left) && r.marginRight == Some(m.right)
    ensures var q := ResolvePadding(p.paddings, 0.0);
            r.paddingTop == Some(q.top) && r.paddingBottom == Some(q.bottom) &&
            r.paddingLeft == Some(q.left) && r.paddingRight == Some(q.right)
    ensures r.textAlign.Some? <==> TruthyString(p.textAlign)
    ensures r.textDecorationLine.Some? <==> TruthyString(p.textDecoration)
    ensures r.textTransform.Some? <==> TruthyString(p.textTransform)
    ensures r.fontStyle.Some? <==> TruthyString(p.fontStyle)
    ensures r.textAlign.Some? ==> r.textAlign == p.textAlign
    ensures r.textDecorationLine.Some? ==> r.textDecorationLine == p.textDecoration
    ensures r.textTransform.Some? ==> r.textTransform == p.textTransform
    ensures r.fontStyle.Some? ==> r.fontStyle == p.fontStyle
    ensures r.lineHeight == p.lineHeight && r.letterSpacing == p.letterSpacing
    ensures r.(fontSize := None, fontFamily := None, fontWeight := None, color := None, marginTop := None,
               marginBottom := None, marginLeft := None, marginRight := None, paddingTop := None,
               paddingBottom := None, paddingLeft := None, paddingRight := None, textAlign := None,
               textDecorationLine := None, textTransform := None, fontStyle := None, lineHeight := None,
               letterSpacing := None) == Empty
  {
    var m := ResolveMargin(p.margins, 0.0);
    var q := ResolvePadding(p.paddings, 0.0);
    var weight := CreateTextStyle(p.Family(theme), Some(p.Weight())).fontWeight;
    assert weight.Some? <==> p.Family(theme) == "System" && p.Weight() != "";
    assert weight.Some? ==> weight == Some(p.Weight());
    Empty.(fontSize := Some(p.fontSize.GetOr(DefaultFontSize)),
           fontFamily := Some(p.Family(theme)), fontWeight := weight,
           color := Some(p.color.GetOr(theme.colors.neutral900)),
           marginTop := Some(m.top), marginBottom := Some(m.bottom),
           marginLeft := Some(m.left), marginRight := Some(m.right),
           paddingTop := Some(q.top), paddingBottom := Some(q.bottom),
           paddingLeft := Some(q.left), paddingRight := Some(q.right),
           textAlign := IfTruthy(p.textAlign), textDecorationLine := IfTruthy(p.textDecoration),
           textTransform := IfTruthy(p.textTransform), fontStyle := IfTruthy(p.fontStyle),
           lineHeight := p.lineHeight, letterSpacing := p.letterSpacing)
  }

  /** The building of `dynamicStyles`: the defaults, the spread of
      `createTextStyle`, the spacing, then six guarded writes. */
  method BuildTextStyles(p: TextProps, theme: Theme) returns (s: Style)
    ensures s == TextDynamicStyles(p, theme)
  {
    var m := ResolveMargin(p.margins, 0.0);
    var q := ResolvePadding(p.paddings, 0.0);
    var fontFamily := p.fontFamily.GetOr(theme.fonts.regular);
    var fontWeight := p.fontWeight.GetOr("400");
    s := Overlay(Empty.(fontSize := Some(p.fontSize.GetOr(DefaultFontSize))),
                 CreateTextStyle(fontFamily, Some(fontWeight)));
    s := s.(color := Some(p.color.GetOr(theme.colors.neutral900)),
            marginTop := Some(m.top), marginBottom := Some(m.bottom),
            marginLeft := Some(m.left), marginRight := Some(m.right),
            paddingTop := Some(q.top), paddingBottom := Some(q.bottom),
            paddingLeft := Some(q.left), paddingRight := Some(q.right));
    s := if TruthyString(p.textAlign) then s.(textAlign := p.textAlign) else s;
    s := if TruthyString(p.textDecoration) then s.(textDecorationLine := p.textDecoration) else s;
    s := if TruthyString(p.textTransform) then s.(textTransform := p.textTransform) else s;
    s := if TruthyString(p.fontStyle) then s.(fontStyle := p.fontStyle) else s;
    s := if p.lineHeight.Some? then s.(lineHeight := p.lineHeight) else s;
    s := if p.letterSpacing.Some? then s.(letterSpacing := p.letterSpacing) else s;
  }

  /** A bare text is 14-point neutral900 in the default theme's regular
      font, which is the platform font, so it carries the weight: 400 unless
      given. A custom font file never gets a weight key. */
  lemma TypographyDefaults(p: TextProps, family: string)
    requires p.fontSize.None? && p.fontFamily.None? && p.color.None? && p.fontWeight.None?
    requires family != "System"
    ensures var r := TextDynamicStyles(p, Default);
            r.fontSize == Some(14.0) && r.fontFamily == Some(Fonts.regular) &&
            r.color == Some(Colors.neutral900) && r.fontWeight == Some("400")
    ensures TextDynamicStyles(p.(fontFamily := Some(family), fontWeight := Some("700")), Default).fontWeight.None?
  {
  }

  /** The text's style list `[dynamicStyles, css, style]`, flattened. */
  function TextStyle(p: TextProps, theme: Theme): (r: Style)
    ensures r.color == p.style.color.OrElse(p.css.color).OrElse(Some(p.color.GetOr(theme.colors.neutral900)))
    ensures p.css == Empty && p.style == Empty ==> r == TextDynamicStyles(p, theme)
  {
    var computed := TextDynamicStyles(p, theme);
    OverlayEmpty(computed);
    Overlay(Overlay(computed, p.css), p.style)
  }
}
