/** Alert sizes, defaults and the status-to-colour-key tables
    (src/alert/constants.ts, src/alert/types.ts). */
module AlertConstants {
  import opened Wrappers
  import opened DefaultTheme

  /** `AlertStatus`: `'info' | 'success' | 'warning' | 'error'`. */
  datatype AlertStatus = Info | Success | Warning | Error

  /** `AlertSize`: `'sm' | 'md'`. */
  datatype AlertSize = Sm | Md

  function StatusName(s: AlertStatus): string {
    match s
    case Info => "info"
    case Success => "success"
    case Warning => "warning"
    case Error => "error"
  }

  /** `SizeConfig`: the numbers one alert size uses. */
  datatype AlertSizeConfig = AlertSizeConfig(
    paddingHorizontal: real,
    paddingVertical: real,
    fontSize: real,
    lineHeight: real,
    iconSize: real,
    gap: real,
    borderRadius: real)

  /** `SIZE_CONFIG[size]`. */
  function SizeConfig(size: AlertSize): AlertSizeConfig {
    match size
    case Sm => AlertSizeConfig(12.0, 8.0, 14.0, 20.0, 20.0, 8.0, 8.0)
    case Md => AlertSizeConfig(16.0, 12.0, 16.0, 24.0, 24.0, 12.0, 12.0)
  }

  /** `DEFAULT_SIZE` and `DEFAULT_STATUS`. */
  const DefaultSize: AlertSize := Sm
  const DefaultStatus: AlertStatus := Info

  /** `STATUS_BG_COLORS[status]`. */
  function StatusBgColor(s: AlertStatus): Token {
    match s
    case Info => Token(Accent, 100)
    case Success => Token(Positive, 100)
    case Warning => Token(Palette.Warning, 100)
    case Error => Token(Negative, 100)
  }

  /** `STATUS_BORDER_COLORS[status]`. */
  function StatusBorderColor(s: AlertStatus): Token {
    match s
    case Info => Token(Accent, 200)
    case Success => Token(Positive, 200)
    case Warning => Token(Palette.Warning, 200)
    case Error => Token(Negative, 200)
  }

  /** `STATUS_ICON_COLORS[status]`. */
  function StatusIconColor(s: AlertStatus): Token {
    match s
    case Info => Token(Accent, 500)
    case Success => Token(Positive, 500)
    case Warning => Token(Palette.Warning, 600)
    case Error => Token(Negative, 500)
  }

  /** `STATUS_TEXT_COLORS[status]`. */
  function StatusTextColor(s: AlertStatus): Token {
    match s
    case Info => Token(Accent, 700)
    case Success => Token(Positive, 700)
    case Warning => Token(Palette.Warning, 700)
    case Error => Token(Negative, 700)
  }

  /** The colour family of a status: info is accent, success positive,
      warning warning and error negative. */
  function StatusPalette(s: AlertStatus): Palette {
    match s
    case Info => Accent
    case Success => Positive
    case Warning => Palette.Warning
    case Error => Negative
  }

  /** The four tables use one family per status: the background is its 100
      shade, the border its 200 shade, the text its 700 shade, and the icon
      its 500 shade except for warnings, which use 600. */
  lemma StatusShades(s: AlertStatus)
    ensures StatusBgColor(s) == Token(StatusPalette(s), 100)
    ensures StatusBorderColor(s) == Token(StatusPalette(s), 200)
    ensures StatusTextColor(s) == Token(StatusPalette(s), 700)
    ensures StatusIconColor(s) == Token(StatusPalette(s), if s.Warning? then 600 else 500)
  {
  }

  /** Every key in the four tables names a colour of the theme, so the
      lookups `theme.colors[key]` never yield `undefined`. */
  lemma StatusKeysResolve(c: ThemeColors, s: AlertStatus)
    ensures ColorOf(c, StatusBgColor(s)).Some?
    ensures ColorOf(c, StatusBorderColor(s)).Some?
    ensures ColorOf(c, StatusIconColor(s)).Some?
    ensures ColorOf(c, StatusTextColor(s)).Some?
  {
  }

  /** The info background key is `'accent100'`. */
  lemma InfoBgKeyName()
    ensures StatusBgColor(Info).Name() == "accent100"
  {
    assert Decimal(100) == "100";
  }

  /** The warning icon key is `'warning600'`. */
  lemma WarningIconKeyName()
    ensures StatusIconColor(AlertStatus.Warning).Name() == "warning600"
  {
    assert Decimal(600) == "600";
  }

  /** The md alert is at least as large as the sm alert in every dimension,
      and strictly larger in each. */
  lemma MdLargerThanSm()
    ensures var sm, md := SizeConfig(Sm), SizeConfig(Md);
            sm.paddingHorizontal < md.paddingHorizontal && sm.paddingVertical < md.paddingVertical &&
            sm.fontSize < md.fontSize && sm.lineHeight < md.lineHeight &&
            sm.iconSize < md.iconSize && sm.gap < md.gap && sm.borderRadius < md.borderRadius
  {
  }

  /** In both sizes the line height exceeds the font size, and the icon is
      as tall as one line of text. */
  lemma IconMatchesLine(size: AlertSize)
    ensures SizeConfig(size).fontSize < SizeConfig(size).lineHeight
    ensures SizeConfig(size).iconSize == SizeConfig(size).lineHeight
  {
  }
}
