/** Style helpers of the `src/` button (src/button/helpers.ts): size and
    colour styles, text styles, icon and loader spacing, spinner colour and
    the pressed style. Colour, variant and (where the code falls back) size
    arrive as the strings they are at run time, so that a key the tables do
    not know, such as the declared colours `'bright'`, `'light'` and
    `'error'`, takes the code's fallback. */
module ButtonHelpers {
  import opened Wrappers
  import opened Styles
  import Utils
  import DefaultTheme
  import opened ButtonConstants

  /** The five colour keys of the helper tables. */
  datatype ColorKey = Primary | Secondary | DefaultColor | Negative | Neutral

  function ParseColor(name: string): (r: Option<ColorKey>)
    ensures r.Some? <==> name in {"primary", "secondary", "default", "negative", "neutral"}
  {
    if name == "primary" then Some(Primary)
    else if name == "secondary" then Some(Secondary)
    else if name == "default" then Some(DefaultColor)
    else if name == "negative" then Some(Negative)
    else if name == "neutral" then Some(Neutral)
    else None
  }

  /** `ButtonVariant`: `'solid' | 'ghost' | 'outline'`. */
  datatype ButtonVariant = Solid | Ghost | Outline

  function ParseVariant(name: string): (r: Option<ButtonVariant>)
    ensures r.Some? <==> name in {"solid", "ghost", "outline"}
    ensures r == Some(Solid) <==> name == "solid"
  {
    if name == "solid" then Some(Solid)
    else if name == "ghost" then Some(Ghost)
    else if name == "outline" then Some(Outline)
    else None
  }

  /** A size string with the `|| table.sm` fallback applied. Every table
      entry is positive (`IconTablesMonotone`), so `||` only ever falls back
      for an unknown key. */
  function SizeOrSm(size: string): (s: ButtonSize)
    ensures ParseButtonSize(size).Some? ==> s == ParseButtonSize(size).value
    ensures ParseButtonSize(size).None? ==> s == SM
  {
    ParseButtonSize(size).GetOr(SM)
  }

  // ---------------------------------------------------------------------
  // Size styles
  // ---------------------------------------------------------------------

  /** What `getSizeStyles` returns: height, radius and both paddings of the
      size config, plus `width` exactly in icon mode. */
  function SizeStyles(size: ButtonSize, isIcon: bool): (r: Style)
    ensures r.height == Some(Points(Row(size).height))
    ensures r.borderRadius == Some(Row(size).borderRadius)
    ensures r.paddingVertical == Some(if isIcon then 0.0 else Row(size).pV)
    ensures r.paddingHorizontal == Some(if isIcon then 0.0 else Row(size).pH)
    ensures r.width.Some? <==> isIcon
    ensures isIcon ==> r.width == Some(Points(Row(size).iconWidth))
    ensures r.(height := None, borderRadius := None, paddingVertical := None,
               paddingHorizontal := None, width := None) == Empty
  {
    var config := GetButtonSizeConfig(size, isIcon);
    var base := Empty.(height := Some(Points(config.height)), borderRadius := Some(config.borderRadius),
                       paddingVertical := Some(config.paddingVertical),
                       paddingHorizontal := Some(config.paddingHorizontal));
    if isIcon && config.width.Points? then base.(width := Some(config.width)) else base
  }

  /** `getSizeStyles(size, isIcon)`: the style object is built, then `width`
      is written in icon mode. */
  method GetSizeStyles(size: ButtonSize, isIcon: bool) returns (styleObj: Style)
    ensures styleObj == SizeStyles(size, isIcon)
  {
    var config := GetButtonSizeConfig(size, isIcon);
    styleObj := Empty.(height := Some(Points(config.height)), borderRadius := Some(config.borderRadius),
                       paddingVertical := Some(config.paddingVertical),
                       paddingHorizontal := Some(config.paddingHorizontal));
    if isIcon && config.width.Points? {
      styleObj := styleObj.(width := Some(config.width));
    }
  }

  /** md in icon mode is 32 wide with no padding; md otherwise has no width. */
  lemma SizeStylesExamples()
    ensures SizeStyles(MD, true).width == Some(Points(32.0))
    ensures SizeStyles(MD, true).paddingVertical == Some(0.0)
    ensures SizeStyles(MD, false).width == None
    ensures SizeStyles(MD, false).paddingHorizontal == Some(12.0)
  {
  }

  // ---------------------------------------------------------------------
  // Colour styles
  // ---------------------------------------------------------------------

  /** `ColorConfig`: `border` is optional. */
  datatype ColorConfig = ColorConfig(
    background: string, text: string, pressedBackground: string, border: Option<string>)

  /** The `colorConfig` table of `getColorStyles`. */
  function ColorTable(theme: DefaultTheme.Theme, color: ColorKey, variant: ButtonVariant): ColorConfig {
    var c := theme.colors;
    match (color, variant)
    case (Primary, Solid) => ColorConfig(c.primary500, c.white900, c.primary600, None)
    case (Primary, Ghost) => ColorConfig("transparent", c.primary500, Utils.ColorOpacity(c.primary500, 0.10), None)
    case (Primary, Outline) => ColorConfig(c.white900, c.primary500, Utils.ColorOpacity(c.primary500, 0.05),
                                           Some(Utils.ColorOpacity(c.primary500, 0.40)))
    case (Secondary, Solid) => ColorConfig(c.secondary500, c.white900, c.secondary600, None)
    case (Secondary, Ghost) => ColorConfig("transparent", c.secondary500, Utils.ColorOpacity(c.secondary500, 0.10), None)
    case (Secondary, Outline) => ColorConfig(c.white900, c.secondary500, Utils.ColorOpacity(c.secondary500, 0.05),
                                             Some(Utils.ColorOpacity(c.secondary500, 0.20)))
    case (DefaultColor, Solid) => ColorConfig(Utils.ColorOpacity(c.secondary500, 0.08), c.secondary600,
                                              Utils.ColorOpacity(c.secondary500, 0.20), None)
    case (DefaultColor, Ghost) => ColorConfig("transparent", c.secondary600, Utils.ColorOpacity(c.secondary500, 0.15), None)
    case (DefaultColor, Outline) => ColorConfig(c.white900, c.secondary600, Utils.ColorOpacity(c.secondary500, 0.08),
                                                Some(Utils.ColorOpacity(c.secondary500, 0.20)))
    case (Negative, Solid) => ColorConfig(c.negative600, c.white900, c.negative700, None)
    case (Negative, Ghost) => ColorConfig("transparent", c.negative600, Utils.ColorOpacity(c.negative600, 0.10), None)
    case (Negative, Outline) => ColorConfig(c.white900, c.negative600, Utils.ColorOpacity(c.negative600, 0.05),
                                            Some(c.negative600))
    case (Neutral, Solid) => ColorConfig(c.neutral500, c.white900, c.neutral600, None)
    case (Neutral, Ghost) => ColorConfig("transparent", c.neutral500, Utils.ColorOpacity(c.neutral500, 0.10), None)
    case (Neutral, Outline) => ColorConfig(c.white900, c.neutral500, Utils.ColorOpacity(c.neutral500, 0.05),
                                           Some(c.neutral500))
  }

  /** `colorConfig[color]?.[variant] || colorConfig.primary.solid`: a known
      pair selects its entry, anything else the primary solid entry. */
  function LookupColorConfig(theme: DefaultTheme.Theme, color: string, variant: string): (config: ColorConfig)
    ensures ParseColor(color).Some? && ParseVariant(variant).Some? ==>
              config == ColorTable(theme, ParseColor(color).value, ParseVariant(variant).value)
    ensures ParseColor(color).None? || ParseVariant(variant).None? ==>
              config == ColorTable(theme, Primary, Solid)
  {
    match (ParseColor(color), ParseVariant(variant))
    case (Some(c), Some(v)) => ColorTable(theme, c, v)
    case _ => ColorTable(theme, Primary, Solid)
  }

  /** What `getColorStyles` returns: the entry's background, and
      `borderWidth 1.5` with the entry's border colour exactly when the entry
      has a (non-empty) border. */
  function ColorStyles(color: string, variant: string, theme: DefaultTheme.Theme): (r: Style)
    ensures r.backgroundColor == Some(LookupColorConfig(theme, color, variant).background)
    ensures r.borderWidth.Some? <==> TruthyString(LookupColorConfig(theme, color, variant).border)
    ensures r.borderWidth.Some? ==> r.borderWidth == Some(1.5) && r.borderColor == LookupColorConfig(theme, color, variant).border
    ensures r.borderColor.Some? <==> r.borderWidth.Some?
    ensures r.(backgroundColor := None, borderWidth := None, borderColor := None) == Empty
  {
    ConfigStyles(LookupColorConfig(theme, color, variant))
  }

  /** The style object built from one table entry. */
  function ConfigStyles(config: ColorConfig): (r: Style)
    ensures r.backgroundColor == Some(config.background)
    ensures r.borderWidth.Some? <==> TruthyString(config.border)
    ensures r.borderWidth.Some? ==> r.borderWidth == Some(1.5) && r.borderColor == config.border
    ensures r.borderColor.Some? <==> r.borderWidth.Some?
    ensures r.(backgroundColor := None, borderWidth := None, borderColor := None) == Empty
  {
    var base := Empty.(backgroundColor := Some(config.background));
    if TruthyString(config.border) then base.(borderWidth := Some(1.5), borderColor := config.border) else base
  }

  /** `getColorStyles(color, variant, theme)`: the background is set, then
      the border fields are written when the entry has a border. */
  method GetColorStyles(color: string, variant: string, theme: DefaultTheme.Theme) returns (styleObj: Style)
    ensures styleObj == ColorStyles(color, variant, theme)
  {
    var config := LookupColorConfig(theme, color, variant);
    styleObj := Empty.(backgroundColor := Some(config.background));
    if TruthyString(config.border) {
      styleObj := styleObj.(borderWidth := Some(1.5), borderColor := config.border);
    }
  }

  /** Only the outline variant of a known colour ever draws a border, and
      under the default theme every outline entry does. */
  lemma OnlyOutlineHasBorder(theme: DefaultTheme.Theme, color: string, variant: string)
    ensures ColorStyles(color, variant, theme).borderWidth.Some? ==>
              ParseColor(color).Some? && ParseVariant(variant) == Some(Outline)
    ensures ParseColor(color).Some? && ParseVariant(variant) == Some(Outline) ==>
              ColorStyles(color, variant, DefaultTheme.Default).borderWidth == Some(1.5)
  {
  }

  /** Ghost buttons are transparent whatever their colour; primary solid is
      filled with `primary500`. */
  lemma GhostIsTransparent(theme: DefaultTheme.Theme, color: ColorKey)
    ensures ColorTable(theme, color, Ghost).background == "transparent"
    ensures ColorTable(theme, Primary, Solid).background == theme.colors.primary500
  {
  }

  /** `getButtonStyles`: the size styles with the colour styles spread over
      them. The two never set the same key, so neither side overrides the
      other and the order of the spread does not matter. */
  function ButtonStyles(size: ButtonSize, color: string, variant: string, isIcon: bool,
                        theme: DefaultTheme.Theme): (r: Style)
    ensures var ss, cs := SizeStyles(size, isIcon), ColorStyles(color, variant, theme);
            r.height == ss.height && r.width == ss.width && r.borderRadius == ss.borderRadius &&
            r.paddingVertical == ss.paddingVertical && r.paddingHorizontal == ss.paddingHorizontal &&
            r.backgroundColor == cs.backgroundColor && r.borderWidth == cs.borderWidth &&
            r.borderColor == cs.borderColor
    ensures r == Overlay(ColorStyles(color, variant, theme), SizeStyles(size, isIcon))
  {
    Overlay(SizeStyles(size, isIcon), ColorStyles(color, variant, theme))
  }

  // ---------------------------------------------------------------------
  // Text styles
  // ---------------------------------------------------------------------

  /** One entry of the `sizes` table of `getButtonTextStyles`. */
  datatype TextSize = TextSize(fontSize: real, fontFamily: string, fontWeight: string)

  function TextSizeTable(theme: DefaultTheme.Theme, size: ButtonSize): TextSize {
    match size
    case XXS => TextSize(10.0, theme.fonts.medium, "500")
    case XS => TextSize(12.0, theme.fonts.medium, "500")
    case SM => TextSize(14.0, theme.fonts.medium, "500")
    case MD => TextSize(14.0, theme.fonts.bold, "700")
    case LG => TextSize(16.0, theme.fonts.bold, "700")
    case XL => TextSize(16.0, theme.fonts.bold, "700")
    case XXL => TextSize(16.0, theme.fonts.bold, "700")
  }

  /** The `colorConfig` table of `getButtonTextStyles`. */
  function TextColorTable(theme: DefaultTheme.Theme, color: ColorKey, variant: ButtonVariant): string {
    var c := theme.colors;
    match (color, variant)
    case (Primary, Solid) => c.white900
    case (Primary, _) => c.primary500
    case (Secondary, Solid) => c.white900
    case (Secondary, _) => c.secondary500
    case (DefaultColor, _) => c.secondary600
    case (Negative, Solid) => c.white900
    case (Negative, _) => c.negative600
    case (Neutral, Solid) => c.white900
    case (Neutral, _) => c.neutral500
  }

  /** `colorConfig[color]?.[variant] || colorConfig.primary.solid` on strings:
      a missing entry and an empty colour both give the primary solid colour. */
  function TextColor(theme: DefaultTheme.Theme, color: string, variant: string): (r: string)
    ensures ParseColor(color).None? || ParseVariant(variant).None? ==> r == theme.colors.white900
    ensures ParseColor(color).Some? && ParseVariant(variant).Some? &&
            TextColorTable(theme, ParseColor(color).value, ParseVariant(variant).value) != "" ==>
              r == TextColorTable(theme, ParseColor(color).value, ParseVariant(variant).value)
  {
    var entry := match (ParseColor(color), ParseVariant(variant))
                 case (Some(c), Some(v)) => TextColorTable(theme, c, v)
                 case _ => "";
    if entry != "" then entry else TextColorTable(theme, Primary, Solid)
  }

  /** `getButtonTextStyles`: font size of the size entry (sm for an unknown
      size), the text colour, and `createTextStyle` of the entry's family and
      weight spread last. */
  function ButtonTextStyles(size: string, color: string, variant: string, theme: DefaultTheme.Theme): (r: Style)
    ensures var entry := TextSizeTable(theme, SizeOrSm(size));
            r.fontSize == Some(entry.fontSize) && r.fontFamily == Some(entry.fontFamily) &&
            (r.fontWeight.Some? <==> entry.fontFamily == "System") &&
            (r.fontWeight.Some? ==> r.fontWeight == Some(entry.fontWeight))
    ensures r.color == Some(TextColor(theme, color, variant))
    ensures r.(fontSize := None, color := None, fontFamily := None, fontWeight := None) == Empty
  {
    var sizeConfig := TextSizeTable(theme, SizeOrSm(size));
    var textColor := TextColor(theme, color, variant);
    Overlay(Empty.(fontSize := Some(sizeConfig.fontSize), color := Some(textColor)),
            Utils.CreateTextStyle(sizeConfig.fontFamily, Some(sizeConfig.fontWeight)))
  }

  /** The values the helper tests pin down: an unknown size gives 14, primary
      solid text is `white900` and primary ghost text is `primary500`; the
      default theme's `'System'` fonts keep the weight. */
  lemma ButtonTextStylesExamples(theme: DefaultTheme.Theme)
    ensures ButtonTextStyles("huge", "primary", "solid", theme).fontSize == Some(14.0)
    ensures theme.colors.white900 != "" ==>
              ButtonTextStyles("sm", "primary", "solid", theme).color == Some(theme.colors.white900)
    ensures theme.colors.primary500 != "" ==>
              ButtonTextStyles("sm", "primary", "ghost", theme).color == Some(theme.colors.primary500)
    ensures ButtonTextStyles("md", "primary", "solid", DefaultTheme.Default).fontWeight == Some("700")
  {
    assert ParseButtonSize("huge") == None;
    assert ParseButtonSize("sm") == Some(SM);
    assert ParseButtonSize("md") == Some(MD);
  }

  // ---------------------------------------------------------------------
  // Icon, loader and spinner helpers
  // ---------------------------------------------------------------------

  /** `getIconSize`: `ICON_SIZES[size] || ICON_SIZES.sm`. */
  function IconSize(size: string): (r: real)
    ensures ParseButtonSize(size).Some? ==> r == IconSizes(ParseButtonSize(size).value)
    ensures ParseButtonSize(size).None? ==> r == 16.0
  {
    IconSizes(SizeOrSm(size))
  }

  /** `getIconContainerStyles`: a left icon is spaced by `marginRight`, a
      right icon by `marginLeft`, a centred one not at all; the spacing is
      `ICON_SPACING[size]`, sm for an unknown size. */
  function IconContainerStyles(position: string, size: string): (r: Style)
    ensures position == "left" ==> r == Empty.(marginRight := Some(IconSpacing(SizeOrSm(size))))
    ensures position == "right" ==> r == Empty.(marginLeft := Some(IconSpacing(SizeOrSm(size))))
    ensures position != "left" && position != "right" ==> r == Empty
  {
    var margin := IconSpacing(SizeOrSm(size));
    if position == "left" then Empty.(marginRight := Some(margin))
    else if position == "right" then Empty.(marginLeft := Some(margin))
    else Empty
  }

  /** The `colors` table of `getLoadingSpinnerColor`. */
  function SpinnerTable(theme: DefaultTheme.Theme, color: ColorKey): string {
    match color
    case Primary => theme.colors.primary500
    case Secondary => theme.colors.secondary500
    case DefaultColor => theme.colors.secondary600
    case Negative => theme.colors.negative700
    case Neutral => theme.colors.neutral500
  }

  /** `getLoadingSpinnerColor`: white on a solid button of any colour but
      `'default'`; otherwise the colour's table entry, primary for a colour
      the table does not know or an empty entry. */
  function LoadingSpinnerColor(color: string, variant: string, theme: DefaultTheme.Theme): (r: string)
    ensures variant == "solid" && color != "default" ==> r == theme.colors.white900
    ensures !(variant == "solid" && color != "default") ==>
              var entry := if ParseColor(color).Some? then SpinnerTable(theme, ParseColor(color).value) else "";
              r == if entry != "" then entry else theme.colors.primary500
  {
    if variant == "solid" && color != "default" then theme.colors.white900
    else
      var entry := match ParseColor(color)
                   case Some(c) => SpinnerTable(theme, c)
                   case None => "";
      if entry != "" then entry else SpinnerTable(theme, Primary)
  }

  /** A default-coloured spinner is `secondary600` for every variant; an
      unknown colour on a solid button is still white. */
  lemma SpinnerExamples(theme: DefaultTheme.Theme, variant: string)
    ensures theme.colors.secondary600 != "" ==>
              LoadingSpinnerColor("default", variant, theme) == theme.colors.secondary600
    ensures LoadingSpinnerColor("bright", "solid", theme) == theme.colors.white900
  {
  }

  /** The `config` table of `getPressedStyle`. */
  function PressedTable(theme: DefaultTheme.Theme, color: ColorKey, variant: ButtonVariant): Style {
    var c := theme.colors;
    match (color, variant)
    case (Primary, Solid) => Empty.(backgroundColor := Some(c.primary600))
    case (Primary, Ghost) => Empty.(backgroundColor := Some(Utils.ColorOpacity(c.primary500, 0.15)))
    case (Primary, Outline) => Empty.(backgroundColor := Some(Utils.ColorOpacity(c.primary500, 0.05)),
                                      borderColor := Some(Utils.ColorOpacity(c.primary500, 0.80)))
    case (Secondary, Solid) => Empty.(backgroundColor := Some(c.secondary600))
    case (Secondary, Ghost) => Empty.(backgroundColor := Some(Utils.ColorOpacity(c.secondary500, 0.15)))
    case (Secondary, Outline) => Empty.(backgroundColor := Some(Utils.ColorOpacity(c.secondary500, 0.05)),
                                        borderColor := Some(Utils.ColorOpacity(c.secondary500, 0.80)))
    case (DefaultColor, Solid) => Empty.(backgroundColor := Some(Utils.ColorOpacity(c.secondary500, 0.20)))
    case (DefaultColor, Ghost) => Empty.(backgroundColor := Some(c.black50))
    case (DefaultColor, Outline) => Empty.(backgroundColor := Some(c.black50),
                                           borderColor := Some(Utils.ColorOpacity(c.secondary500, 0.80)))
    case (Negative, Solid) => Empty.(backgroundColor := Some(c.negative700))
    case (Negative, Ghost) => Empty.(backgroundColor := Some(Utils.ColorOpacity(c.negative600, 0.15)))
    case (Negative, Outline) => Empty.(backgroundColor := Some(Utils.ColorOpacity(c.negative600, 0.05)),
                                       borderColor := Some(Utils.ColorOpacity(c.negative600, 0.80)))
    case (Neutral, Solid) => Empty.(backgroundColor := Some(c.neutral600))
    case (Neutral, Ghost) => Empty.(backgroundColor := Some(Utils.ColorOpacity(c.neutral500, 0.15)))
    case (Neutral, Outline) => Empty.(backgroundColor := Some(Utils.ColorOpacity(c.neutral500, 0.05)),
                                      borderColor := Some(Utils.ColorOpacity(c.neutral500, 0.80)))
  }

  /** `getPressedStyle`: a background for every pair, a border colour only
      for outline, and the primary solid entry for an unknown pair. */
  function PressedStyle(color: string, variant: string, theme: DefaultTheme.Theme): (r: Style)
    ensures r.backgroundColor.Some?
    ensures r.borderColor.Some? <==> ParseColor(color).Some? && ParseVariant(variant) == Some(Outline)
    ensures ParseColor(color).Some? && ParseVariant(variant).Some? ==>
              r == PressedTable(theme, ParseColor(color).value, ParseVariant(variant).value)
    ensures ParseColor(color).None? || ParseVariant(variant).None? ==>
              r == Empty.(backgroundColor := Some(theme.colors.primary600))
    ensures r.(backgroundColor := None, borderColor := None) == Empty
  {
    match (ParseColor(color), ParseVariant(variant))
    case (Some(c), Some(v)) => PressedTableShape(theme, c, v); PressedTable(theme, c, v)
    case _ => PressedTableShape(theme, Primary, Solid); PressedTable(theme, Primary, Solid)
  }

  /** Every entry of the pressed table has a background and nothing but a
      background and, for outline alone, a border colour. */
  lemma PressedTableShape(theme: DefaultTheme.Theme, c: ColorKey, v: ButtonVariant)
    ensures PressedTable(theme, c, v).backgroundColor.Some?
    ensures PressedTable(theme, c, v).borderColor.Some? <==> v == Outline
    ensures PressedTable(theme, c, v).(backgroundColor := None, borderColor := None) == Empty
  {
  }

  /** The pattern of the pressed table, read against the colour table: a
      pressed solid button takes the colour's pressed shade (the 600 shade,
      700 for negative); for every colour but `default`, a pressed ghost is
      the solid background at 15% and a pressed outline the solid background
      at 5% inside an 80% border. The `default` ghost and outline press to
      black50, the outline with an 80% secondary500 border. */
  lemma PressedPattern(theme: DefaultTheme.Theme, c: ColorKey, v: ButtonVariant)
    ensures v == Solid ==>
              PressedTable(theme, c, v) == Empty.(backgroundColor := Some(ColorTable(theme, c, Solid).pressedBackground))
    ensures v == Solid && c != DefaultColor ==>
              PressedTable(theme, c, v).backgroundColor ==
              Some(if c == Primary then theme.colors.primary600
                   else if c == Secondary then theme.colors.secondary600
                   else if c == Negative then theme.colors.negative700
                   else theme.colors.neutral600)
    ensures c != DefaultColor && v == Ghost ==>
              PressedTable(theme, c, v) ==
              Empty.(backgroundColor := Some(Utils.ColorOpacity(ColorTable(theme, c, Solid).background, 0.15)))
    ensures c != DefaultColor && v == Outline ==>
              var base := ColorTable(theme, c, Solid).background;
              PressedTable(theme, c, v) ==
              Empty.(backgroundColor := Some(Utils.ColorOpacity(base, 0.05)),
                     borderColor := Some(Utils.ColorOpacity(base, 0.80)))
    ensures c == DefaultColor && v != Solid ==> PressedTable(theme, c, v).backgroundColor == Some(theme.colors.black50)
    ensures c == DefaultColor && v == Outline ==>
              PressedTable(theme, c, v).borderColor == Some(Utils.ColorOpacity(theme.colors.secondary500, 0.80))
  {
  }

  /** `getButtonLoaderMargin`: `ICON_SPACING[size] || ICON_SPACING.sm`, the
      same spacing an icon on that side gets. */
  function ButtonLoaderMargin(size: string): (r: real)
    ensures r == IconContainerStyles("left", size).marginRight.value
    ensures ParseButtonSize(size).None? ==> r == 2.0
  {
    IconSpacing(SizeOrSm(size))
  }

  /** The declared colours the tables do not know fall back to primary solid
      in the colour, text and pressed helpers alike. */
  lemma UnknownColorFallsBack(theme: DefaultTheme.Theme, color: string, variant: string)
    requires color in {"bright", "light", "error"}
    ensures ColorStyles(color, variant, theme) == ColorStyles("primary", "solid", theme)
    ensures ButtonTextStyles("sm", color, variant, theme).color ==
            ButtonTextStyles("sm", "primary", "solid", theme).color
    ensures PressedStyle(color, variant, theme) == PressedStyle("primary", "solid", theme)
  {
  }
}
