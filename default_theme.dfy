/** The default theme: the token data every component falls back to and
    that a custom theme is merged into. */
module DefaultTheme {
  import opened Wrappers
  import Utils

  /** The colour tokens, one field per key of the theme's `colors` object. */
  datatype ThemeColors = ThemeColors(
    primary: string,
    secondary: string,
    accent50: string,
    accent100: string,
    accent200: string,
    accent300: string,
    accent400: string,
    accent500: string,
    accent600: string,
    accent700: string,
    accent800: string,
    accent900: string,
    primary50: string,
    primary100: string,
    primary200: string,
    primary300: string,
    primary400: string,
    primary500: string,
    primary600: string,
    primary700: string,
    primary800: string,
    primary900: string,
    warning50: string,
    warning100: string,
    warning200: string,
    warning300: string,
    warning400: string,
    warning500: string,
    warning600: string,
    warning700: string,
    warning800: string,
    warning900: string,
    highlight50: string,
    highlight100: string,
    highlight200: string,
    highlight300: string,
    highlight400: string,
    highlight500: string,
    highlight600: string,
    highlight700: string,
    highlight800: string,
    highlight900: string,
    positive50: string,
    positive100: string,
    positive200: string,
    positive300: string,
    positive400: string,
    positive500: string,
    positive600: string,
    positive700: string,
    positive800: string,
    positive900: string,
    secondary50: string,
    secondary100: string,
    secondary200: string,
    secondary300: string,
    secondary400: string,
    secondary500: string,
    secondary600: string,
    secondary700: string,
    secondary800: string,
    secondary900: string,
    negative50: string,
    negative100: string,
    negative200: string,
    negative300: string,
    negative400: string,
    negative500: string,
    negative600: string,
    negative700: string,
    negative800: string,
    negative900: string,
    neutral50: string,
    neutral100: string,
    neutral200: string,
    neutral300: string,
    neutral400: string,
    neutral500: string,
    neutral600: string,
    neutral700: string,
    neutral800: string,
    neutral900: string,
    black50: string,
    black100: string,
    black200: string,
    black300: string,
    black400: string,
    black500: string,
    black600: string,
    black700: string,
    black800: string,
    black900: string,
    white50: string,
    white100: string,
    white200: string,
    white300: string,
    white400: string,
    white500: string,
    white600: string,
    white700: string,
    white800: string,
    white900: string)

  datatype ThemeFonts = ThemeFonts(regular: string, medium: string, bold: string)

  /** The part of a theme that components read: its colours and fonts. */
  datatype Theme = Theme(colors: ThemeColors, fonts: ThemeFonts)

  const Colors: ThemeColors := ThemeColors(
    "#2E666D",
    "#363A43",
    "#F3F3FF",
    "#EAE9FE",
    "#D7D6FE",
    "#B9B5FD",
    "#978CF9",
    "#7158F5",
    "#623BEC",
    "#5329D8",
    "#4622B5",
    "#3B1E94",
    "#E6F5F6",
    "#B8E1E5",
    "#8ACCD2",
    "#5CB5BD",
    "#2E9CA6",
    "#00828D",
    "#006B74",
    "#00555C",
    "#003E43",
    "#00272A",
    "#FFF6EF",
    "#FEEAC7",
    "#FDD28A",
    "#FCBD4F",
    "#FBAB24",
    "#F59E0B",
    "#DB8D06",
    "#B47409",
    "#92610E",
    "#78510F",
    "#FFFCDA",
    "#FFF7AD",
    "#FFF27D",
    "#FFED4B",
    "#FFE81A",
    "#E6CF00",
    "#B3A100",
    "#807300",
    "#786B03",
    "#6A5F00",
    "#F4FAF1",
    "#E8F4E3",
    "#D4E8CA",
    "#A8D291",
    "#67B034",
    "#5EA130",
    "#55932A",
    "#4C8425",
    "#437720",
    "#3C691C",
    "#F4F6F7",
    "#E2E6EB",
    "#C9CFD8",
    "#A3AEBD",
    "#76859A",
    "#64748B",
    "#4E596C",
    "#444B5A",
    "#3D424D",
    "#363A43",
    "#FFF6F3",
    "#FDEDE8",
    "#FFDAD0",
    "#FFB4A1",
    "#FA7659",
    "#F65633",
    "#E75030",
    "#D14729",
    "#BC4024",
    "#A9371E",
    "#F8F8F8",
    "#F1F1F1",
    "#E2E2E2",
    "#C6C6C6",
    "#9E9E9E",
    "#919191",
    "#848484",
    "#757575",
    "#575757",
    "#111111",
    "#0000000A",
    "#00000014",
    "#0000001A",
    "#00000026",
    "#00000033",
    "#0000004D",
    "#00000080",
    "#000000B2",
    "#000000CC",
    "#000000",
    "#FFFFFF0D",
    "#FFFFFF14",
    "#FFFFFF1A",
    "#FFFFFF26",
    "#FFFFFF33",
    "#FFFFFF4D",
    "#FFFFFF80",
    "#FFFFFFB2",
    "#FFFFFFCC",
    "#FFFFFF")

  const Fonts: ThemeFonts := ThemeFonts("System", "System", "System")

  const Default: Theme := Theme(Colors, Fonts)

  /** `fontSizes`; `xl2` … `xl5` stand for the keys `'2xl'` … `'5xl'`. */
  datatype FontSizes = FontSizes(xxs: real, xs: real, sm: real, md: real, lg: real, xl: real,
                                 xl2: real, xl3: real, xl4: real, xl5: real)

  const DefaultFontSizes: FontSizes :=
    FontSizes(10.0, 12.0, 14.0, 16.0, 19.2, 23.04, 27.65, 33.18, 39.81, 47.78)

  /** `lineHeights`; `xl2` … `xl4` stand for `'2xl'` … `'4xl'`. */
  datatype LineHeights = LineHeights(xxs: real, xs: real, sm: real, md: real, lg: real, xl: real,
                                     xl2: real, xl3: real, xl4: real)

  const DefaultLineHeights: LineHeights :=
    LineHeights(12.0, 16.0, 20.0, 24.0, 28.0, 32.0, 40.0, 48.0, 64.0)

  datatype BorderWidths = BorderWidths(xs: real, sm: real, md: real, lg: real, xl: real)

  const DefaultBorderWidths: BorderWidths := BorderWidths(1.0, 2.0, 3.0, 4.0, 5.0)

  /** `radii`; `xl2` … `xl4` stand for `'2xl'` … `'4xl'`. */
  datatype Radii = Radii(none: real, xs: real, sm: real, md: real, lg: real, xl: real,
                         xl2: real, xl3: real, xl4: real, round: real, pill: real)

  const DefaultRadii: Radii := Radii(0.0, 2.0, 4.0, 6.0, 8.0, 12.0, 16.0, 20.0, 24.0, 9999.0, 9999.0)

  /** The only `shadows` entry, `sm`. */
  const ShadowSm: string := "0px 5px 15px rgba(0, 0, 0, 0.04)"

  /** `space`: the entry under the decimal key `key` (`'1'` … `'50'`), in dp. */
  function Space(key: int): Option<real> {
    match key
    case 1 => Some(2.0)
    case 2 => Some(4.0)
    case 3 => Some(6.0)
    case 4 => Some(8.0)
    case 5 => Some(10.0)
    case 6 => Some(12.0)
    case 7 => Some(14.0)
    case 8 => Some(16.0)
    case 9 => Some(18.0)
    case 10 => Some(20.0)
    case 11 => Some(22.0)
    case 12 => Some(24.0)
    case 13 => Some(26.0)
    case 14 => Some(28.0)
    case 15 => Some(30.0)
    case 16 => Some(32.0)
    case 17 => Some(34.0)
    case 18 => Some(36.0)
    case 19 => Some(38.0)
    case 20 => Some(40.0)
    case 21 => Some(42.0)
    case 22 => Some(44.0)
    case 23 => Some(46.0)
    case 24 => Some(48.0)
    case 25 => Some(50.0)
    case 26 => Some(52.0)
    case 27 => Some(54.0)
    case 28 => Some(56.0)
    case 29 => Some(58.0)
    case 30 => Some(60.0)
    case 31 => Some(62.0)
    case 32 => Some(64.0)
    case 33 => Some(66.0)
    case 34 => Some(68.0)
    case 35 => Some(70.0)
    case 36 => Some(72.0)
    case 37 => Some(74.0)
    case 38 => Some(76.0)
    case 39 => Some(78.0)
    case 40 => Some(80.0)
    case 41 => Some(82.0)
    case 42 => Some(84.0)
    case 43 => Some(86.0)
    case 44 => Some(88.0)
    case 45 => Some(90.0)
    case 46 => Some(92.0)
    case 47 => Some(94.0)
    case 48 => Some(96.0)
    case 49 => Some(98.0)
    case 50 => Some(100.0)
    case _ => None
  }

  /** `sizes`: the entry under the decimal key `key` (`'1'` … `'34'`), in dp. */
  function Sizes(key: int): Option<real> {
    match key
    case 1 => Some(4.0)
    case 2 => Some(8.0)
    case 3 => Some(12.0)
    case 4 => Some(16.0)
    case 5 => Some(20.0)
    case 6 => Some(24.0)
    case 7 => Some(28.0)
    case 8 => Some(32.0)
    case 9 => Some(36.0)
    case 10 => Some(40.0)
    case 11 => Some(44.0)
    case 12 => Some(48.0)
    case 13 => Some(52.0)
    case 14 => Some(56.0)
    case 15 => Some(60.0)
    case 16 => Some(64.0)
    case 17 => Some(68.0)
    case 18 => Some(72.0)
    case 19 => Some(76.0)
    case 20 => Some(80.0)
    case 21 => Some(84.0)
    case 22 => Some(88.0)
    case 23 => Some(92.0)
    case 24 => Some(96.0)
    case 25 => Some(100.0)
    case 26 => Some(104.0)
    case 27 => Some(108.0)
    case 28 => Some(112.0)
    case 29 => Some(116.0)
    case 30 => Some(120.0)
    case 31 => Some(124.0)
    case 32 => Some(128.0)
    case 33 => Some(132.0)
    case 34 => Some(136.0)
    case _ => None
  }

  /** `fontWeights`: the entry under the decimal key `key` (`'1'` … `'9'`). */
  function FontWeights(key: int): Option<string> {
    match key
    case 1 => Some("100")
    case 2 => Some("200")
    case 3 => Some("300")
    case 4 => Some("400")
    case 5 => Some("500")
    case 6 => Some("600")
    case 7 => Some("700")
    case 8 => Some("800")
    case 9 => Some("900")
    case _ => None
  }

  /** `transitions`: the entry under the decimal key `key`, in milliseconds. */
  function Transitions(key: int): Option<real> {
    match key
    case 1 => Some(100.0)
    case 2 => Some(200.0)
    case 3 => Some(300.0)
    case _ => None
  }

  // ---------------------------------------------------------------------
  // Decimal keys
  // ---------------------------------------------------------------------

  /** The decimal string of `n`, which is how the numbered scales are keyed. */
  function Decimal(n: nat): (s: string)
    ensures |s| > 0 && forall i :: 0 <= i < |s| ==> '0' <= s[i] <= '9'
    decreases n
  {
    if n < 10 then [('0' as int + n) as char] else Decimal(n / 10) + [('0' as int + n % 10) as char]
  }

  /** Reads a string of decimal digits back as a number. */
  function ParseDecimal(s: string): nat
    decreases |s|
  {
    if s == [] then 0
    else
      var d := s[|s| - 1] as int - '0' as int;
      10 * ParseDecimal(s[..|s| - 1]) + (if 0 <= d <= 9 then d else 0)
  }

  /** A key read back gives its number, so distinct numbers have distinct keys. */
  lemma {:induction false} DecimalRoundTrip(n: nat)
    ensures ParseDecimal(Decimal(n)) == n
    decreases n
  {
    var s := Decimal(n);
    if n >= 10 {
      DecimalRoundTrip(n / 10);
      assert s[..|s| - 1] == Decimal(n / 10);
    }
  }

  // ---------------------------------------------------------------------
  // Properties of the token data
  // ---------------------------------------------------------------------

  /** `space['k'] == 2k` for k = 1..50, and there are no other keys. */
  lemma SpaceScale(k: int)
    ensures Space(k).Some? <==> 1 <= k <= 50
    ensures Space(k).Some? ==> Space(k).value == 2.0 * k as real
  {
  }

  /** `sizes['k'] == 4k` for k = 1..34, and there are no other keys. */
  lemma SizesScale(k: int)
    ensures Sizes(k).Some? <==> 1 <= k <= 34
    ensures Sizes(k).Some? ==> Sizes(k).value == 4.0 * k as real
  {
  }

  /** `fontWeights['k']` is the decimal string of 100k for k = 1..9. */
  lemma FontWeightsScale(k: int)
    ensures FontWeights(k).Some? <==> 1 <= k <= 9
    ensures FontWeights(k).Some? ==> FontWeights(k).value == Decimal(100 * k)
  {
    if 1 <= k <= 9 {
      assert Decimal(100 * k) == Decimal(10 * k) + ['0'];
      assert Decimal(10 * k) == Decimal(k) + ['0'];
    }
  }

  /** `transitions['k'] == 100k` milliseconds for k = 1..3. */
  lemma TransitionsScale(k: int)
    ensures Transitions(k).Some? <==> 1 <= k <= 3
    ensures Transitions(k).Some? ==> Transitions(k).value == 100.0 * k as real
  {
  }

  /** Radii: `none` is 0, `round` and `pill` are 9999, xs..4xl strictly increase. */
  lemma RadiiOrder()
    ensures DefaultRadii.none == 0.0 && DefaultRadii.round == DefaultRadii.pill == 9999.0
    ensures var r := DefaultRadii;
            r.none < r.xs < r.sm < r.md < r.lg < r.xl < r.xl2 < r.xl3 < r.xl4 < r.round
  {
  }

  /** A colour token: `#` and six or eight upper-case hex digits. */
  predicate TokenColor(s: string) {
    (|s| == 7 || |s| == 9) && s[0] == '#' &&
    Utils.IsUpperHexDigit(s[1]) && Utils.IsUpperHexDigit(s[2]) && Utils.IsUpperHexDigit(s[3]) &&
    Utils.IsUpperHexDigit(s[4]) && Utils.IsUpperHexDigit(s[5]) && Utils.IsUpperHexDigit(s[6]) &&
    (|s| == 9 ==> Utils.IsUpperHexDigit(s[7]) && Utils.IsUpperHexDigit(s[8]))
  }

  /** A token colour is valid `colorOpacity` input. */
  lemma TokenColorIsWellFormed(s: string)
    requires TokenColor(s)
    ensures Utils.WellFormedColor(s)
  {
    var raw := Utils.StripHash(s);
    assert raw == s[1..];
    assert forall i :: 0 <= i < |raw| ==> raw[i] == s[i + 1];
  }

  predicate ValidPalette(c: ThemeColors) {
    TokenColor(c.primary) &&
    TokenColor(c.secondary) &&
    TokenColor(c.accent50) &&
    TokenColor(c.accent100) &&
    TokenColor(c.accent200) &&
    TokenColor(c.accent300) &&
    TokenColor(c.accent400) &&
    TokenColor(c.accent500) &&
    TokenColor(c.accent600) &&
    TokenColor(c.accent700) &&
    TokenColor(c.accent800) &&
    TokenColor(c.accent900) &&
    TokenColor(c.primary50) &&
    TokenColor(c.primary100) &&
    TokenColor(c.primary200) &&
    TokenColor(c.primary300) &&
    TokenColor(c.primary400) &&
    TokenColor(c.primary500) &&
    TokenColor(c.primary600) &&
    TokenColor(c.primary700) &&
    TokenColor(c.primary800) &&
    TokenColor(c.primary900) &&
    TokenColor(c.warning50) &&
    TokenColor(c.warning100) &&
    TokenColor(c.warning200) &&
    TokenColor(c.warning300) &&
    TokenColor(c.warning400) &&
    TokenColor(c.warning500) &&
    TokenColor(c.warning600) &&
    TokenColor(c.warning700) &&
    TokenColor(c.warning800) &&
    TokenColor(c.warning900) &&
    TokenColor(c.highlight50) &&
    TokenColor(c.highlight100) &&
    TokenColor(c.highlight200) &&
    TokenColor(c.highlight300) &&
    TokenColor(c.highlight400) &&
    TokenColor(c.highlight500) &&
    TokenColor(c.highlight600) &&
    TokenColor(c.highlight700) &&
    TokenColor(c.highlight800) &&
    TokenColor(c.highlight900) &&
    TokenColor(c.positive50) &&
    TokenColor(c.positive100) &&
    TokenColor(c.positive200) &&
    TokenColor(c.positive300) &&
    TokenColor(c.positive400) &&
    TokenColor(c.positive500) &&
    TokenColor(c.positive600) &&
    TokenColor(c.positive700) &&
    TokenColor(c.positive800) &&
    TokenColor(c.positive900) &&
    TokenColor(c.secondary50) &&
    TokenColor(c.secondary100) &&
    TokenColor(c.secondary200) &&
    TokenColor(c.secondary300) &&
    TokenColor(c.secondary400) &&
    TokenColor(c.secondary500) &&
    TokenColor(c.secondary600) &&
    TokenColor(c.secondary700) &&
    TokenColor(c.secondary800) &&
    TokenColor(c.secondary900) &&
    TokenColor(c.negative50) &&
    TokenColor(c.negative100) &&
    TokenColor(c.negative200) &&
    TokenColor(c.negative300) &&
    TokenColor(c.negative400) &&
    TokenColor(c.negative500) &&
    TokenColor(c.negative600) &&
    TokenColor(c.negative700) &&
    TokenColor(c.negative800) &&
    TokenColor(c.negative900) &&
    TokenColor(c.neutral50) &&
    TokenColor(c.neutral100) &&
    TokenColor(c.neutral200) &&
    TokenColor(c.neutral300) &&
    TokenColor(c.neutral400) &&
    TokenColor(c.neutral500) &&
    TokenColor(c.neutral600) &&
    TokenColor(c.neutral700) &&
    TokenColor(c.neutral800) &&
    TokenColor(c.neutral900) &&
    TokenColor(c.black50) &&
    TokenColor(c.black100) &&
    TokenColor(c.black200) &&
    TokenColor(c.black300) &&
    TokenColor(c.black400) &&
    TokenColor(c.black500) &&
    TokenColor(c.black600) &&
    TokenColor(c.black700) &&
    TokenColor(c.black800) &&
    TokenColor(c.black900) &&
    TokenColor(c.white50) &&
    TokenColor(c.white100) &&
    TokenColor(c.white200) &&
    TokenColor(c.white300) &&
    TokenColor(c.white400) &&
    TokenColor(c.white500) &&
    TokenColor(c.white600) &&
    TokenColor(c.white700) &&
    TokenColor(c.white800) &&
    TokenColor(c.white900)
  }

  lemma BaseTokensValid()
    ensures TokenColor(Colors.primary)
    ensures TokenColor(Colors.secondary)
  {
  }

  lemma AccentTokensValid()
    ensures TokenColor(Colors.accent50)
    ensures TokenColor(Colors.accent100)
    ensures TokenColor(Colors.accent200)
    ensures TokenColor(Colors.accent300)
    ensures TokenColor(Colors.accent400)
    ensures TokenColor(Colors.accent500)
    ensures TokenColor(Colors.accent600)
    ensures TokenColor(Colors.accent700)
    ensures TokenColor(Colors.accent800)
    ensures TokenColor(Colors.accent900)
  {
  }

  lemma PrimaryTokensValid()
    ensures TokenColor(Colors.primary50)
    ensures TokenColor(Colors.primary100)
    ensures TokenColor(Colors.primary200)
    ensures TokenColor(Colors.primary300)
    ensures TokenColor(Colors.primary400)
    ensures TokenColor(Colors.primary500)
    ensures TokenColor(Colors.primary600)
    ensures TokenColor(Colors.primary700)
    ensures TokenColor(Colors.primary800)
    ensures TokenColor(Colors.primary900)
  {
  }

  lemma WarningTokensValid()
    ensures TokenColor(Colors.warning50)
    ensures TokenColor(Colors.warning100)
    ensures TokenColor(Colors.warning200)
    ensures TokenColor(Colors.warning300)
    ensures TokenColor(Colors.warning400)
    ensures TokenColor(Colors.warning500)
    ensures TokenColor(Colors.warning600)
    ensures TokenColor(Colors.warning700)
    ensures TokenColor(Colors.warning800)
    ensures TokenColor(Colors.warning900)
  {
  }

  lemma HighlightTokensValid()
    ensures TokenColor(Colors.highlight50)
    ensures TokenColor(Colors.highlight100)
    ensures TokenColor(Colors.highlight200)
    ensures TokenColor(Colors.highlight300)
    ensures TokenColor(Colors.highlight400)
    ensures TokenColor(Colors.highlight500)
    ensures TokenColor(Colors.highlight600)
    ensures TokenColor(Colors.highlight700)
    ensures TokenColor(Colors.highlight800)
    ensures TokenColor(Colors.highlight900)
  {
  }

  lemma PositiveTokensValid()
    ensures TokenColor(Colors.positive50)
    ensures TokenColor(Colors.positive100)
    ensures TokenColor(Colors.positive200)
    ensures TokenColor(Colors.positive300)
    ensures TokenColor(Colors.positive400)
    ensures TokenColor(Colors.positive500)
    ensures TokenColor(Colors.positive600)
    ensures TokenColor(Colors.positive700)
    ensures TokenColor(Colors.positive800)
    ensures TokenColor(Colors.positive900)
  {
  }

  lemma SecondaryTokensValid()
    ensures TokenColor(Colors.secondary50)
    ensures TokenColor(Colors.secondary100)
    ensures TokenColor(Colors.secondary200)
    ensures TokenColor(Colors.secondary300)
    ensures TokenColor(Colors.secondary400)
    ensures TokenColor(Colors.secondary500)
    ensures TokenColor(Colors.secondary600)
    ensures TokenColor(Colors.secondary700)
    ensures TokenColor(Colors.secondary800)
    ensures TokenColor(Colors.secondary900)
  {
  }

  lemma NegativeTokensValid()
    ensures TokenColor(Colors.negative50)
    ensures TokenColor(Colors.negative100)
    ensures TokenColor(Colors.negative200)
    ensures TokenColor(Colors.negative300)
    ensures TokenColor(Colors.negative400)
    ensures TokenColor(Colors.negative500)
    ensures TokenColor(Colors.negative600)
    ensures TokenColor(Colors.negative700)
    ensures TokenColor(Colors.negative800)
    ensures TokenColor(Colors.negative900)
  {
  }

  lemma NeutralTokensValid()
    ensures TokenColor(Colors.neutral50)
    ensures TokenColor(Colors.neutral100)
    ensures TokenColor(Colors.neutral200)
    ensures TokenColor(Colors.neutral300)
    ensures TokenColor(Colors.neutral400)
    ensures TokenColor(Colors.neutral500)
    ensures TokenColor(Colors.neutral600)
    ensures TokenColor(Colors.neutral700)
    ensures TokenColor(Colors.neutral800)
    ensures TokenColor(Colors.neutral900)
  {
  }

  lemma BlackTokensValid()
    ensures TokenColor(Colors.black50)
    ensures TokenColor(Colors.black100)
    ensures TokenColor(Colors.black200)
    ensures TokenColor(Colors.black300)
    ensures TokenColor(Colors.black400)
    ensures TokenColor(Colors.black500)
    ensures TokenColor(Colors.black600)
    ensures TokenColor(Colors.black700)
    ensures TokenColor(Colors.black800)
    ensures TokenColor(Colors.black900)
  {
  }

  lemma WhiteTokensValid()
    ensures TokenColor(Colors.white50)
    ensures TokenColor(Colors.white100)
    ensures TokenColor(Colors.white200)
    ensures TokenColor(Colors.white300)
    ensures TokenColor(Colors.white400)
    ensures TokenColor(Colors.white500)
    ensures TokenColor(Colors.white600)
    ensures TokenColor(Colors.white700)
    ensures TokenColor(Colors.white800)
    ensures TokenColor(Colors.white900)
  {
  }

  /** Every default colour token is `#` plus 6 or 8 upper-case hex digits. */
  lemma DefaultPaletteIsValid()
    ensures ValidPalette(Colors)
  {
    BaseTokensValid();
    AccentTokensValid();
    PrimaryTokensValid();
    WarningTokensValid();
    HighlightTokensValid();
    PositiveTokensValid();
    SecondaryTokensValid();
    NegativeTokensValid();
    NeutralTokensValid();
    BlackTokensValid();
    WhiteTokensValid();
  }

  /** `black900` and `white900` are opaque six-digit colours; the lighter
      black and white steps carry an alpha pair. */
  lemma BlackAndWhiteAlpha()
    ensures |Colors.black900| == 7 && |Colors.white900| == 7
    ensures |Colors.black50| == 9
    ensures |Colors.black100| == 9
    ensures |Colors.black200| == 9
    ensures |Colors.black300| == 9
    ensures |Colors.black400| == 9
    ensures |Colors.black500| == 9
    ensures |Colors.black600| == 9
    ensures |Colors.black700| == 9
    ensures |Colors.black800| == 9
    ensures |Colors.white50| == 9
    ensures |Colors.white100| == 9
    ensures |Colors.white200| == 9
    ensures |Colors.white300| == 9
    ensures |Colors.white400| == 9
    ensures |Colors.white500| == 9
    ensures |Colors.white600| == 9
    ensures |Colors.white700| == 9
    ensures |Colors.white800| == 9
  {
  }

  /** All three font families are the platform font, so `createTextStyle`
      keeps any weight under the default theme. */
  lemma DefaultFontsKeepWeights(weight: string)
    requires weight != ""
    ensures Utils.CreateTextStyle(Fonts.regular, Some(weight)).fontWeight == Some(weight)
    ensures Utils.CreateTextStyle(Fonts.medium, Some(weight)).fontWeight == Some(weight)
    ensures Utils.CreateTextStyle(Fonts.bold, Some(weight)).fontWeight == Some(weight)
  {
  }

  // ---------------------------------------------------------------------
  // Colour tokens by name
  // ---------------------------------------------------------------------

  /** The ten shade families of the colour palette. */
  datatype Palette = Accent | Primary | Warning | Highlight | Positive | Secondary | Negative | Neutral | Black | White
  function PaletteName(p: Palette): string {
    match p
    case Accent => "accent"
    case Primary => "primary"
    case Warning => "warning"
    case Highlight => "highlight"
    case Positive => "positive"
    case Secondary => "secondary"
    case Negative => "negative"
    case Neutral => "neutral"
    case Black => "black"
    case White => "white"
  }

  /** A colour key such as `'accent100'`: a family and a shade. */
  datatype Token = Token(palette: Palette, shade: nat) {
    /** The key as written in the source, e.g. `'warning600'`. */
    function Name(): string {
      PaletteName(palette) + Decimal(shade)
    }
  }

  /** The shades every family has: 50 and 100, 200, ..., 900. */
  predicate ValidShade(shade: int) {
    shade == 50 || (100 <= shade <= 900 && shade % 100 == 0)
  }

  /** `theme.colors[key]` for a shade key: the field of that name, or
      `None` when there is no such field. */
  function ColorOf(c: ThemeColors, t: Token): (r: Option<string>)
    ensures r.Some? <==> ValidShade(t.shade)
  {
    match t.palette
    case Accent =>
      (match t.shade
       case 50 => Some(c.accent50)
       case 100 => Some(c.accent100)
       case 200 => Some(c.accent200)
       case 300 => Some(c.accent300)
       case 400 => Some(c.accent400)
       case 500 => Some(c.accent500)
       case 600 => Some(c.accent600)
       case 700 => Some(c.accent700)
       case 800 => Some(c.accent800)
       case 900 => Some(c.accent900)
       case _ => None)
    case Primary =>
      (match t.shade
       case 50 => Some(c.primary50)
       case 100 => Some(c.primary100)
       case 200 => Some(c.primary200)
       case 300 => Some(c.primary300)
       case 400 => Some(c.primary400)
       case 500 => Some(c.primary500)
       case 600 => Some(c.primary600)
       case 700 => Some(c.primary700)
       case 800 => Some(c.primary800)
       case 900 => Some(c.primary900)
       case _ => None)
    case Warning =>
      (match t.shade
       case 50 => Some(c.warning50)
       case 100 => Some(c.warning100)
       case 200 => Some(c.warning200)
       case 300 => Some(c.warning300)
       case 400 => Some(c.warning400)
       case 500 => Some(c.warning500)
       case 600 => Some(c.warning600)
       case 700 => Some(c.warning700)
       case 800 => Some(c.warning800)
       case 900 => Some(c.warning900)
       case _ => None)
    case Highlight =>
      (match t.shade
       case 50 => Some(c.highlight50)
       case 100 => Some(c.highlight100)
       case 200 => Some(c.highlight200)
       case 300 => Some(c.highlight300)
       case 400 => Some(c.highlight400)
       case 500 => Some(c.highlight500)
       case 600 => Some(c.highlight600)
       case 700 => Some(c.highlight700)
       case 800 => Some(c.highlight800)
       case 900 => Some(c.highlight900)
       case _ => None)
    case Positive =>
      (match t.shade
       case 50 => Some(c.positive50)
       case 100 => Some(c.positive100)
       case 200 => Some(c.positive200)
       case 300 => Some(c.positive300)
       case 400 => Some(c.positive400)
       case 500 => Some(c.positive500)
       case 600 => Some(c.positive600)
       case 700 => Some(c.positive700)
       case 800 => Some(c.positive800)
       case 900 => Some(c.positive900)
       case _ => None)
    case Secondary =>
      (match t.shade
       case 50 => Some(c.secondary50)
       case 100 => Some(c.secondary100)
       case 200 => Some(c.secondary200)
       case 300 => Some(c.secondary300)
       case 400 => Some(c.secondary400)
       case 500 => Some(c.secondary500)
       case 600 => Some(c.secondary600)
       case 700 => Some(c.secondary700)
       case 800 => Some(c.secondary800)
       case 900 => Some(c.secondary900)
       case _ => None)
    case Negative =>
      (match t.shade
       case 50 => Some(c.negative50)
       case 100 => Some(c.negative100)
       case 200 => Some(c.negative200)
       case 300 => Some(c.negative300)
       case 400 => Some(c.negative400)
       case 500 => Some(c.negative500)
       case 600 => Some(c.negative600)
       case 700 => Some(c.negative700)
       case 800 => Some(c.negative800)
       case 900 => Some(c.negative900)
       case _ => None)
    case Neutral =>
      (match t.shade
       case 50 => Some(c.neutral50)
       case 100 => Some(c.neutral100)
       case 200 => Some(c.neutral200)
       case 300 => Some(c.neutral300)
       case 400 => Some(c.neutral400)
       case 500 => Some(c.neutral500)
       case 600 => Some(c.neutral600)
       case 700 => Some(c.neutral700)
       case 800 => Some(c.neutral800)
       case 900 => Some(c.neutral900)
       case _ => None)
    case Black =>
      (match t.shade
       case 50 => Some(c.black50)
       case 100 => Some(c.black100)
       case 200 => Some(c.black200)
       case 300 => Some(c.black300)
       case 400 => Some(c.black400)
       case 500 => Some(c.black500)
       case 600 => Some(c.black600)
       case 700 => Some(c.black700)
       case 800 => Some(c.black800)
       case 900 => Some(c.black900)
       case _ => None)
    case White =>
      (match t.shade
       case 50 => Some(c.white50)
       case 100 => Some(c.white100)
       case 200 => Some(c.white200)
       case 300 => Some(c.white300)
       case 400 => Some(c.white400)
       case 500 => Some(c.white500)
       case 600 => Some(c.white600)
       case 700 => Some(c.white700)
       case 800 => Some(c.white800)
       case 900 => Some(c.white900)
       case _ => None)
  }
}
