/** The published `Button` (packages/button/button.tsx). It keeps its own
    copies of the tables: sizes carry a CSS-like padding string that is split
    and read with `parseInt`, and several colours are hard-coded hex
    literals where `src/` calls `colorOpacity`. The lemmas here show where the
    two trees agree. */
module PkgButton {
  import opened Wrappers
  import opened Styles
  import Utils
  import DefaultTheme
  import opened ButtonConstants
  import opened ButtonHelpers
  import Button

  // ---------------------------------------------------------------------
  // String splitting and parseInt
  // ---------------------------------------------------------------------

  /** `s.split(sep)` for a one-character separator: always at least one part,
      an empty part wherever two separators meet or at either end. */
  function Split(s: string, sep: char): (parts: seq<string>)
    ensures |parts| >= 1
    decreases |s|
  {
    if s == [] then [""]
    else
      var rest := Split(s[1..], sep);
      if s[0] == sep then [""] + rest
      else [[s[0]] + rest[0]] + rest[1..]
  }

  /** `parts.join(sep)`. */
  function Join(parts: seq<string>, sep: char): string
    requires |parts| >= 1
    decreases |parts|
  {
    if |parts| == 1 then parts[0] else parts[0] + [sep] + Join(parts[1..], sep)
  }

  /** Splitting loses nothing: joining the parts back gives the string. */
  lemma {:induction false} SplitJoin(s: string, sep: char)
    ensures Join(Split(s, sep), sep) == s
    decreases |s|
  {
    if s != [] {
      var rest := Split(s[1..], sep);
      SplitJoin(s[1..], sep);
      if s[0] == sep {
        assert Split(s, sep)[1..] == rest;
      } else {
        var parts := Split(s, sep);
        if |rest| == 1 {
          assert parts == [[s[0]] + rest[0]];
        } else {
          assert parts[1..] == rest[1..];
          assert Join(rest, sep) == rest[0] + [sep] + Join(rest[1..], sep);
        }
      }
    }
  }

  /** A piece with no separator in it followed by the separator splits off
      as one part. */
  lemma {:induction false} SplitAt(x: string, y: string, sep: char)
    requires sep !in x
    ensures Split(x + [sep] + y, sep) == [x] + Split(y, sep)
    ensures Split(x, sep) == [x]
    decreases |x|
  {
    if x != [] {
      SplitAt(x[1..], y, sep);
      assert (x + [sep] + y)[1..] == x[1..] + [sep] + y;
      assert [x[0]] + x[1..] == x;
    } else {
      assert x + [sep] + y == [sep] + y;
    }
  }

  predicate IsDigit(c: char) {
    '0' <= c <= '9'
  }

  /** The leading run of decimal digits. */
  function DigitPrefix(t: string): (d: string)
    ensures |d| <= |t| && d == t[..|d|]
    ensures forall i :: 0 <= i < |d| ==> IsDigit(d[i])
    decreases |t|
  {
    if t != [] && IsDigit(t[0]) then [t[0]] + DigitPrefix(t[1..]) else []
  }

  /** `parseInt(t)` on an unsigned token: the value of its leading digits, or
      `None` (NaN) when it does not start with a digit. */
  function ParseInt(t: string): (r: Option<int>)
    ensures r.Some? <==> t != [] && IsDigit(t[0])
    ensures r.Some? ==> r.value >= 0
  {
    var d := DigitPrefix(t);
    if d == [] then None else Some(DefaultTheme.ParseDecimal(d))
  }

  lemma {:induction false} DigitPrefixOf(d: string, suffix: string)
    requires forall i :: 0 <= i < |d| ==> IsDigit(d[i])
    requires suffix == [] || !IsDigit(suffix[0])
    ensures DigitPrefix(d + suffix) == d
    decreases |d|
  {
    if d != [] {
      DigitPrefixOf(d[1..], suffix);
      assert (d + suffix)[1..] == d[1..] + suffix;
    } else {
      assert d + suffix == suffix;
    }
  }

  /** `parseInt` reads back a number written in decimal with a unit after it. */
  lemma ParseIntOfDecimal(n: nat, suffix: string)
    requires suffix == [] || !IsDigit(suffix[0])
    ensures ParseInt(DefaultTheme.Decimal(n) + suffix) == Some(n)
  {
    DigitPrefixOf(DefaultTheme.Decimal(n), suffix);
    DefaultTheme.DecimalRoundTrip(n);
  }

  /** `config.padding.split(' ').map((p) => parseInt(p))`. */
  function PaddingValues(padding: string): (values: seq<Option<int>>)
    ensures |values| == |Split(padding, ' ')| >= 1
    ensures forall i :: 0 <= i < |values| ==> values[i] == ParseInt(Split(padding, ' ')[i])
  {
    var parts := Split(padding, ' ');
    seq(|parts|, i requires 0 <= i < |parts| => ParseInt(parts[i]))
  }

  /** A parsed token as a number; NaN never arises from the literals here
      (`PaddingLiterals`). */
  function NumberOf(v: Option<int>): real {
    if v.Some? then v.value as real else 0.0
  }

  /** `"{a}px {b}px"` reads back as `[a, b]`, and `"{a}px"` as `[a]`. */
  lemma PaddingPair(a: nat, b: nat)
    ensures PaddingValues(DefaultTheme.Decimal(a) + "px " + DefaultTheme.Decimal(b) + "px") == [Some(a), Some(b)]
    ensures PaddingValues(DefaultTheme.Decimal(a) + "px") == [Some(a)]
  {
    var x, y := DefaultTheme.Decimal(a) + "px", DefaultTheme.Decimal(b) + "px";
    assert ' ' !in x by {
      assert forall i :: 0 <= i < |x| - 2 ==> x[i] == DefaultTheme.Decimal(a)[i];
    }
    assert ' ' !in y by {
      assert forall i :: 0 <= i < |y| - 2 ==> y[i] == DefaultTheme.Decimal(b)[i];
    }
    assert DefaultTheme.Decimal(a) + "px " + DefaultTheme.Decimal(b) + "px" == x + [' '] + y;
    SplitAt(x, y, ' ');
    SplitAt(y, [], ' ');
    ParseIntOfDecimal(a, "px");
    ParseIntOfDecimal(b, "px");
  }

  // ---------------------------------------------------------------------
  // Size styles
  // ---------------------------------------------------------------------

  /** One entry of the local `sizes` table of `getSizeStyles`. */
  datatype PaddedSize = PaddedSize(
    padding: string, height: real, width: Dimension, borderRadius: real, fontSize: real, iconSize: real)

  function SizesTable(size: ButtonSize, isIcon: bool): PaddedSize {
    match size
    case XXS => PaddedSize(if isIcon then "0px" else "2px 4px", 16.0, if isIcon then Points(16.0) else Auto, 4.0, 10.0, 14.0)
    case XS => PaddedSize(if isIcon then "0px" else "2px 6px", 20.0, if isIcon then Points(20.0) else Auto, 4.0, 12.0, 14.0)
    case SM => PaddedSize(if isIcon then "0px" else "2px 8px", 24.0, if isIcon then Points(24.0) else Auto, 4.0, 14.0, 16.0)
    case MD => PaddedSize(if isIcon then "0px" else "6px 12px", 32.0, if isIcon then Points(32.0) else Auto, 8.0, 14.0, 20.0)
    case LG => PaddedSize(if isIcon then "0px" else "8px 16px", 40.0, if isIcon then Points(40.0) else Auto, 8.0, 16.0, 20.0)
    case XL => PaddedSize(if isIcon then "0px" else "10px 20px", 44.0, if isIcon then Points(48.0) else Auto, 12.0, 16.0, 24.0)
    case XXL => PaddedSize(if isIcon then "0px" else "18px 28px", 64.0, if isIcon then Points(64.0) else Auto, 16.0, 16.0, 24.0)
  }

  /** What `getSizeStyles` returns: height and radius; two padding tokens
      become the vertical and horizontal paddings, otherwise the first token
      is the uniform padding; `width` only in icon mode and only when the
      table width is a number. */
  function SizeStyles(size: ButtonSize, isIcon: bool): (r: Style)
    ensures var config := SizesTable(size, isIcon);
            var values := PaddingValues(config.padding);
            r.height == Some(Points(config.height)) && r.borderRadius == Some(config.borderRadius) &&
            (|values| == 2 ==> r.paddingVertical == Some(NumberOf(values[0])) &&
                               r.paddingHorizontal == Some(NumberOf(values[1])) && r.padding == None) &&
            (|values| != 2 ==> r.padding == Some(NumberOf(values[0])) &&
                               r.paddingVertical == None && r.paddingHorizontal == None) &&
            (r.width.Some? <==> isIcon && config.width.Points?) &&
            (r.width.Some? ==> r.width == Some(config.width))
    ensures r.(height := None, borderRadius := None, padding := None, paddingVertical := None,
               paddingHorizontal := None, width := None) == Empty
  {
    var config := SizesTable(size, isIcon);
    var values := PaddingValues(config.padding);
    var base := Empty.(height := Some(Points(config.height)), borderRadius := Some(config.borderRadius));
    var padded := if |values| == 2
                  then base.(paddingVertical := Some(NumberOf(values[0])), paddingHorizontal := Some(NumberOf(values[1])))
                  else base.(padding := Some(NumberOf(values[0])));
    if isIcon && config.width.Points? then padded.(width := Some(config.width)) else padded
  }

  /** `getSizeStyles(size = 'sm', isIcon = false)`: the style object is
      built, then the padding and width fields are written by branch. */
  method GetSizeStyles(size: Option<ButtonSize>, isIcon: Option<bool>) returns (styleObj: Style)
    ensures styleObj == SizeStyles(size.GetOr(SM), isIcon.GetOr(false))
  {
    var icon := isIcon.GetOr(false);
    var config := SizesTable(size.GetOr(SM), icon);
    var paddingValues := PaddingValues(config.padding);
    styleObj := Empty.(height := Some(Points(config.height)), borderRadius := Some(config.borderRadius));
    if |paddingValues| == 2 {
      styleObj := styleObj.(paddingVertical := Some(NumberOf(paddingValues[0])));
      styleObj := styleObj.(paddingHorizontal := Some(NumberOf(paddingValues[1])));
    } else {
      styleObj := styleObj.(padding := Some(NumberOf(paddingValues[0])));
    }
    if icon && config.width.Points? {
      styleObj := styleObj.(width := Some(config.width));
    }
  }

  /** One padding literal read back: `"{a}px {b}px"` gives `[a, b]`. */
  lemma PaddingLiteral(lit: string, a: nat, b: nat)
    requires lit == DefaultTheme.Decimal(a) + "px " + DefaultTheme.Decimal(b) + "px"
    ensures PaddingValues(lit) == [Some(a), Some(b)]
  {
    PaddingPair(a, b);
  }

  /** The paddings of the three smallest sizes, whose numbers are one digit. */
  lemma SmallPaddingRows(size: ButtonSize)
    requires size == XXS || size == XS || size == SM
    ensures var values := PaddingValues(SizesTable(size, false).padding);
            |values| == 2 && values[0].Some? && values[1].Some? &&
            NumberOf(values[0]) == Row(size).pV && NumberOf(values[1]) == Row(size).pH
  {
    match size
    case XXS => PaddingLiteral(SizesTable(size, false).padding, 2, 4);
    case XS => PaddingLiteral(SizesTable(size, false).padding, 2, 6);
    case SM => PaddingLiteral(SizesTable(size, false).padding, 2, 8);
  }

  /** The paddings of md and lg. */
  lemma MiddlePaddingRows(size: ButtonSize)
    requires size == MD || size == LG
    ensures var values := PaddingValues(SizesTable(size, false).padding);
            |values| == 2 && values[0].Some? && values[1].Some? &&
            NumberOf(values[0]) == Row(size).pV && NumberOf(values[1]) == Row(size).pH
  {
    if size == MD {
      assert DefaultTheme.Decimal(6) == "6";
      assert DefaultTheme.Decimal(12) == "12";
      PaddingLiteral(SizesTable(size, false).padding, 6, 12);
    } else {
      assert DefaultTheme.Decimal(8) == "8";
      assert DefaultTheme.Decimal(16) == "16";
      PaddingLiteral(SizesTable(size, false).padding, 8, 16);
    }
  }

  /** The paddings of xl and 2xl. */
  lemma LargePaddingRows(size: ButtonSize)
    requires size == XL || size == XXL
    ensures var values := PaddingValues(SizesTable(size, false).padding);
            |values| == 2 && values[0].Some? && values[1].Some? &&
            NumberOf(values[0]) == Row(size).pV && NumberOf(values[1]) == Row(size).pH
  {
    if size == XL {
      assert DefaultTheme.Decimal(10) == "10";
      assert DefaultTheme.Decimal(20) == "20";
      PaddingLiteral(SizesTable(size, false).padding, 10, 20);
    } else {
      assert DefaultTheme.Decimal(18) == "18";
      assert DefaultTheme.Decimal(28) == "28";
      PaddingLiteral(SizesTable(size, false).padding, 18, 28);
    }
  }

  /** Every padding literal is two `px` numbers (or `0px` in icon mode) and
      parses to the paddings of the `src/` size row. */
  lemma PaddingLiterals(size: ButtonSize)
    ensures PaddingValues(SizesTable(size, true).padding) == [Some(0)]
    ensures var values := PaddingValues(SizesTable(size, false).padding);
            |values| == 2 && values[0].Some? && values[1].Some? &&
            NumberOf(values[0]) == Row(size).pV && NumberOf(values[1]) == Row(size).pH
  {
    PaddingPair(0, 0);
    assert DefaultTheme.Decimal(0) + "px" == "0px";
    if size == XXS || size == XS || size == SM {
      SmallPaddingRows(size);
    } else if size == MD || size == LG {
      MiddlePaddingRows(size);
    } else {
      LargePaddingRows(size);
    }
  }

  /** The published size styles agree with `src/`: identical without an
      icon; in icon mode the two zero paddings become one `padding: 0`. */
  lemma SizeStylesMatchSrc(size: ButtonSize)
    ensures SizeStyles(size, false) == ButtonHelpers.SizeStyles(size, false)
    ensures SizeStyles(size, true) ==
            ButtonHelpers.SizeStyles(size, true).(paddingVertical := None, paddingHorizontal := None,
                                                  padding := Some(0.0))
  {
    PaddingLiterals(size);
  }

  // ---------------------------------------------------------------------
  // Colour styles
  // ---------------------------------------------------------------------

  /** The local `colorConfig` of `getColorStyles`, with its hex literals. */
  function ColorTable(theme: DefaultTheme.Theme, color: ColorKey, variant: ButtonVariant): ColorConfig {
    var c := theme.colors;
    match (color, variant)
    case (Primary, Solid) => ColorConfig(c.primary500, c.white900, c.primary600, None)
    case (Primary, Ghost) => ColorConfig("transparent", c.primary500, "#00828D1A", None)
    case (Primary, Outline) => ColorConfig(c.white900, c.primary500, "#00828D0D", Some("#00828D66"))
    case (Secondary, Solid) => ColorConfig(c.secondary500, c.white900, c.secondary600, None)
    case (Secondary, Ghost) => ColorConfig("transparent", c.secondary500, "#64748B1A", None)
    case (Secondary, Outline) => ColorConfig(c.white900, c.secondary500, "#64748B0D", Some("#64748B33"))
    case (DefaultColor, Solid) => ColorConfig("#64748B14", c.secondary600, "#64748B33", None)
    case (DefaultColor, Ghost) => ColorConfig("transparent", c.secondary600, "#64748B26", None)
    case (DefaultColor, Outline) => ColorConfig(c.white900, c.secondary600, "#64748B14", Some("#64748B33"))
    case (Negative, Solid) => ColorConfig(c.negative600, c.white900, c.negative700, None)
    case (Negative, Ghost) => ColorConfig("transparent", c.negative600, "#E750301A", None)
    case (Negative, Outline) => ColorConfig(c.white900, c.negative600, "#E750300D", Some(c.negative600))
    case (Neutral, Solid) => ColorConfig(c.neutral500, c.white900, c.neutral600, None)
    case (Neutral, Ghost) => ColorConfig("transparent", c.neutral500, "#9191911A", None)
    case (Neutral, Outline) => ColorConfig(c.white900, c.neutral500, "#9191910D", Some(c.neutral500))
  }

  /** `colorConfig[color]?.[variant] || colorConfig.primary.solid`. */
  function LookupColorConfig(theme: DefaultTheme.Theme, color: string, variant: string): (config: ColorConfig)
    ensures ParseColor(color).Some? && ParseVariant(variant).Some? ==>
              config == ColorTable(theme, ParseColor(color).value, ParseVariant(variant).value)
    ensures ParseColor(color).None? || ParseVariant(variant).None? ==>
              config == ColorTable(theme, Primary, Solid)
  {
    match (ParseColor(color), ParseVariant(variant))
    case (Some(c), Some(v)) => ColorTable(theme, c, v)
    case _ => ColorTable(theme, Primary, Solid)
  }

  /** What the published `getColorStyles` returns: the background, plus
      `borderWidth 1.5` and the border colour exactly when the entry has a
      non-empty border. */
  function ColorStyles(color: string, variant: string, theme: DefaultTheme.Theme): (r: Style)
    ensures r.backgroundColor == Some(LookupColorConfig(theme, color, variant).background)
    ensures r.borderWidth.Some? <==> TruthyString(LookupColorConfig(theme, color, variant).border)
    ensures r.borderWidth.Some? ==> r.borderWidth == Some(1.5) && r.borderColor == LookupColorConfig(theme, color, variant).border
    ensures r.borderColor.Some? <==> r.borderWidth.Some?
    ensures r.(backgroundColor := None, borderWidth := None, borderColor := None) == Empty
  {
    var config := LookupColorConfig(theme, color, variant);
    var base := Empty.(backgroundColor := Some(config.background));
    if TruthyString(config.border) then base.(borderWidth := Some(1.5), borderColor := config.border) else base
  }

  /** `getColorStyles(color = 'primary', variant = 'solid', theme)`. */
  method GetColorStyles(color: Option<string>, variant: Option<string>, theme: DefaultTheme.Theme)
    returns (styleObj: Style)
    ensures styleObj == ColorStyles(color.GetOr("primary"), variant.GetOr("solid"), theme)
  {
    var config := LookupColorConfig(theme, color.GetOr("primary"), variant.GetOr("solid"));
    styleObj := Empty.(backgroundColor := Some(config.background));
    if TruthyString(config.border) {
      styleObj := styleObj.(borderWidth := Some(1.5));
      styleObj := styleObj.(borderColor := config.border);
    }
  }

  /** The alpha pairs of the opacities the button tables use. */
  lemma AlphaPairsLow()
    ensures Utils.AlphaSuffix(0.10) == "1A" && Utils.AlphaSuffix(0.05) == "0D"
    ensures Utils.AlphaSuffix(0.40) == "66" && Utils.AlphaSuffix(0.20) == "33"
  {
    Utils.AlphaSuffixOf(0.10, 26);
    Utils.AlphaSuffixOf(0.05, 13);
    Utils.AlphaSuffixOf(0.40, 102);
    Utils.AlphaSuffixOf(0.20, 51);
  }

  lemma AlphaPairsHigh()
    ensures Utils.AlphaSuffix(0.08) == "14" && Utils.AlphaSuffix(0.15) == "26"
    ensures Utils.AlphaSuffix(0.80) == "CC"
  {
    Utils.AlphaSuffixOf(0.08, 20);
    Utils.AlphaSuffixOf(0.15, 38);
    Utils.AlphaSuffixOf(0.80, 204);
  }

  /** The hex literals are the `colorOpacity` values of the default theme's
      colours, one lemma per base colour. */
  lemma PrimaryBase(opacity: real)
    ensures Utils.ColorOpacity(DefaultTheme.Colors.primary500, opacity) == "#00828D" + Utils.AlphaSuffix(opacity)
  {
    assert Utils.FullHex(DefaultTheme.Colors.primary500) == "00828D";
    Utils.ColorOpacityOf(DefaultTheme.Colors.primary500, opacity, "00828D", Utils.AlphaSuffix(opacity));
  }

  lemma PrimaryLiterals()
    ensures Utils.ColorOpacity(DefaultTheme.Colors.primary500, 0.10) == "#00828D1A"
    ensures Utils.ColorOpacity(DefaultTheme.Colors.primary500, 0.05) == "#00828D0D"
    ensures Utils.ColorOpacity(DefaultTheme.Colors.primary500, 0.40) == "#00828D66"
    ensures Utils.ColorOpacity(DefaultTheme.Colors.primary500, 0.15) == "#00828D26"
    ensures Utils.ColorOpacity(DefaultTheme.Colors.primary500, 0.80) == "#00828DCC"
  {
    AlphaPairsLow();
    AlphaPairsHigh();
    PrimaryBase(0.10);
    PrimaryBase(0.05);
    PrimaryBase(0.40);
    PrimaryBase(0.15);
    PrimaryBase(0.80);
  }

  lemma SecondaryBase(opacity: real)
    ensures Utils.ColorOpacity(DefaultTheme.Colors.secondary500, opacity) == "#64748B" + Utils.AlphaSuffix(opacity)
  {
    assert Utils.FullHex(DefaultTheme.Colors.secondary500) == "64748B";
    Utils.ColorOpacityOf(DefaultTheme.Colors.secondary500, opacity, "64748B", Utils.AlphaSuffix(opacity));
  }

  lemma SecondaryLiterals()
    ensures Utils.ColorOpacity(DefaultTheme.Colors.secondary500, 0.10) == "#64748B1A"
    ensures Utils.ColorOpacity(DefaultTheme.Colors.secondary500, 0.05) == "#64748B0D"
    ensures Utils.ColorOpacity(DefaultTheme.Colors.secondary500, 0.20) == "#64748B33"
    ensures Utils.ColorOpacity(DefaultTheme.Colors.secondary500, 0.08) == "#64748B14"
    ensures Utils.ColorOpacity(DefaultTheme.Colors.secondary500, 0.15) == "#64748B26"
    ensures Utils.ColorOpacity(DefaultTheme.Colors.secondary500, 0.80) == "#64748BCC"
  {
    AlphaPairsLow();
    AlphaPairsHigh();
    SecondaryBase(0.10);
    SecondaryBase(0.05);
    SecondaryBase(0.20);
    SecondaryBase(0.08);
    SecondaryBase(0.15);
    SecondaryBase(0.80);
  }

  lemma NegativeBase(opacity: real)
    ensures Utils.ColorOpacity(DefaultTheme.Colors.negative600, opacity) == "#E75030" + Utils.AlphaSuffix(opacity)
  {
    assert Utils.FullHex(DefaultTheme.Colors.negative600) == "E75030";
    Utils.ColorOpacityOf(DefaultTheme.Colors.negative600, opacity, "E75030", Utils.AlphaSuffix(opacity));
  }

  lemma NegativeLiterals()
    ensures Utils.ColorOpacity(DefaultTheme.Colors.negative600, 0.10) == "#E750301A"
    ensures Utils.ColorOpacity(DefaultTheme.Colors.negative600, 0.05) == "#E750300D"
    ensures Utils.ColorOpacity(DefaultTheme.Colors.negative600, 0.15) == "#E7503026"
    ensures Utils.ColorOpacity(DefaultTheme.Colors.negative600, 0.80) == "#E75030CC"
  {
    AlphaPairsLow();
    AlphaPairsHigh();
    NegativeBase(0.10);
    NegativeBase(0.05);
    NegativeBase(0.15);
    NegativeBase(0.80);
  }

  lemma NeutralBase(opacity: real)
    ensures Utils.ColorOpacity(DefaultTheme.Colors.neutral500, opacity) == "#919191" + Utils.AlphaSuffix(opacity)
  {
    assert Utils.FullHex(DefaultTheme.Colors.neutral500) == "919191";
    Utils.ColorOpacityOf(DefaultTheme.Colors.neutral500, opacity, "919191", Utils.AlphaSuffix(opacity));
  }

  lemma NeutralLiterals()
    ensures Utils.ColorOpacity(DefaultTheme.Colors.neutral500, 0.10) == "#9191911A"
    ensures Utils.ColorOpacity(DefaultTheme.Colors.neutral500, 0.05) == "#9191910D"
    ensures Utils.ColorOpacity(DefaultTheme.Colors.neutral500, 0.15) == "#91919126"
    ensures Utils.ColorOpacity(DefaultTheme.Colors.neutral500, 0.80) == "#919191CC"
  {
    AlphaPairsLow();
    AlphaPairsHigh();
    NeutralBase(0.10);
    NeutralBase(0.05);
    NeutralBase(0.15);
    NeutralBase(0.80);
  }

  /** Under the default theme the published colour table is the `src/` one
      entry for entry, so the colour styles agree for every colour and variant. */
  lemma ColorTableMatchesSrc(color: ColorKey, variant: ButtonVariant)
    ensures ColorTable(DefaultTheme.Default, color, variant) ==
            ButtonHelpers.ColorTable(DefaultTheme.Default, color, variant)
  {
    match color
    case Primary => PrimaryRowsMatch(variant);
    case Secondary => SecondaryRowsMatch(variant);
    case DefaultColor => DefaultRowsMatch(variant);
    case Negative => NegativeRowsMatch(variant);
    case Neutral => NeutralRowsMatch(variant);
  }

  /** The Primary rows of the package colour and pressed tables are the `src/` ones. */
  lemma PrimaryRowsMatch(variant: ButtonVariant)
    ensures ColorTable(DefaultTheme.Default, Primary, variant) ==
            ButtonHelpers.ColorTable(DefaultTheme.Default, Primary, variant)
    ensures PressedTable(DefaultTheme.Default, Primary, variant) ==
            ButtonHelpers.PressedTable(DefaultTheme.Default, Primary, variant)
  {
    PrimaryLiterals();
  }

  /** The Secondary rows of the package colour and pressed tables are the `src/` ones. */
  lemma SecondaryRowsMatch(variant: ButtonVariant)
    ensures ColorTable(DefaultTheme.Default, Secondary, variant) ==
            ButtonHelpers.ColorTable(DefaultTheme.Default, Secondary, variant)
    ensures PressedTable(DefaultTheme.Default, Secondary, variant) ==
            ButtonHelpers.PressedTable(DefaultTheme.Default, Secondary, variant)
  {
    SecondaryLiterals();
  }

  /** The DefaultColor rows of the package colour and pressed tables are the `src/` ones. */
  lemma DefaultRowsMatch(variant: ButtonVariant)
    ensures ColorTable(DefaultTheme.Default, DefaultColor, variant) ==
            ButtonHelpers.ColorTable(DefaultTheme.Default, DefaultColor, variant)
    ensures PressedTable(DefaultTheme.Default, DefaultColor, variant) ==
            ButtonHelpers.PressedTable(DefaultTheme.Default, DefaultColor, variant)
  {
    SecondaryLiterals();
  }

  /** The Negative rows of the package colour and pressed tables are the `src/` ones. */
  lemma NegativeRowsMatch(variant: ButtonVariant)
    ensures ColorTable(DefaultTheme.Default, Negative, variant) ==
            ButtonHelpers.ColorTable(DefaultTheme.Default, Negative, variant)
    ensures PressedTable(DefaultTheme.Default, Negative, variant) ==
            ButtonHelpers.PressedTable(DefaultTheme.Default, Negative, variant)
  {
    NegativeLiterals();
  }

  /** The Neutral rows of the package colour and pressed tables are the `src/` ones. */
  lemma NeutralRowsMatch(variant: ButtonVariant)
    ensures ColorTable(DefaultTheme.Default, Neutral, variant) ==
            ButtonHelpers.ColorTable(DefaultTheme.Default, Neutral, variant)
    ensures PressedTable(DefaultTheme.Default, Neutral, variant) ==
            ButtonHelpers.PressedTable(DefaultTheme.Default, Neutral, variant)
  {
    NeutralLiterals();
  }

  lemma ColorStylesMatchSrc(color: string, variant: string)
    ensures ColorStyles(color, variant, DefaultTheme.Default) ==
            ButtonHelpers.ColorStyles(color, variant, DefaultTheme.Default)
  {
    match (ParseColor(color), ParseVariant(variant))
    case (Some(c), Some(v)) => ColorTableMatchesSrc(c, v);
    case _ => ColorTableMatchesSrc(Primary, Solid);
  }

  // ---------------------------------------------------------------------
  // Text, icon and spinner helpers (local copies of the src tables)
  // ---------------------------------------------------------------------

  /** The published `getButtonTextStyles`: its size and colour tables are the
      `src/` ones, so the result is the same for every input. */
  function ButtonTextStyles(size: string, color: string, variant: string, theme: DefaultTheme.Theme): (r: Style)
    ensures r == ButtonHelpers.ButtonTextStyles(size, color, variant, theme)
    ensures ParseButtonSize(size).None? ==> r.fontSize == Some(14.0)
  {
    var sizeConfig := match ParseButtonSize(size)
                      case Some(s) => TextSizeTable(theme, s)
                      case None => TextSizeTable(theme, SM);
    var entry := match (ParseColor(color), ParseVariant(variant))
                 case (Some(c), Some(v)) => TextColorTable(theme, c, v)
                 case _ => "";
    var textColor := if entry != "" then entry else theme.colors.white900;
    assert sizeConfig == TextSizeTable(theme, SizeOrSm(size));
    assert textColor == TextColor(theme, color, variant);
    Overlay(Empty.(fontSize := Some(sizeConfig.fontSize), color := Some(textColor)),
            Utils.CreateTextStyle(sizeConfig.fontFamily, Some(sizeConfig.fontWeight)))
  }

  /** The local `spacing` table, also used for the loader margin. */
  function Spacing(size: ButtonSize): real {
    match size
    case XXS => 2.0
    case XS => 2.0
    case SM => 2.0
    case MD => 4.0
    case LG => 4.0
    case XL => 6.0
    case XXL => 8.0
  }

  /** The published `getIconContainerStyles`: the same margins as `src/`,
      sm spacing for an unknown size. */
  function IconContainerStyles(position: string, size: string): (r: Style)
    ensures r == ButtonHelpers.IconContainerStyles(position, size)
  {
    var margin := match ParseButtonSize(size)
                  case Some(s) => Spacing(s)
                  case None => Spacing(SM);
    if position == "left" then Empty.(marginRight := Some(margin))
    else if position == "right" then Empty.(marginLeft := Some(margin))
    else Empty
  }

  /** The component's `buttonLoaderMargin`: `spacing[size] || spacing.sm`. */
  function LoaderMargin(size: string): (r: real)
    ensures r == ButtonHelpers.ButtonLoaderMargin(size)
    ensures ParseButtonSize(size).None? ==> r == 2.0
  {
    match ParseButtonSize(size)
    case Some(s) => Spacing(s)
    case None => Spacing(SM)
  }

  /** The published `getIconSize`. */
  function IconSize(size: string): (r: real)
    ensures r == ButtonHelpers.IconSize(size)
    ensures ParseButtonSize(size).None? ==> r == 16.0
  {
    var sizes := (s: ButtonSize) =>
      match s
      case XXS => 14.0
      case XS => 14.0
      case SM => 16.0
      case MD => 24.0
      case LG => 24.0
      case XL => 24.0
      case XXL => 24.0;
    match ParseButtonSize(size)
    case Some(s) => sizes(s)
    case None => sizes(SM)
  }

  /** The published `getLoadingSpinnerColor`: white for a solid button of a
      colour other than `'default'`, else the table, primary as fallback. */
  function LoadingSpinnerColor(color: string, variant: string, theme: DefaultTheme.Theme): (r: string)
    ensures r == ButtonHelpers.LoadingSpinnerColor(color, variant, theme)
    ensures variant == "solid" && color != "default" ==> r == theme.colors.white900
  {
    if variant == "solid" && color != "default" then theme.colors.white900
    else
      var entry := match ParseColor(color)
                   case Some(Primary) => theme.colors.primary500
                   case Some(Secondary) => theme.colors.secondary500
                   case Some(DefaultColor) => theme.colors.secondary600
                   case Some(Negative) => theme.colors.negative700
                   case Some(Neutral) => theme.colors.neutral500
                   case None => "";
      if entry != "" then entry else theme.colors.primary500
  }

  // ---------------------------------------------------------------------
  // Component rules
  // ---------------------------------------------------------------------

  /** The published `handlePress`: `onPress` only when neither disabled nor
      loading, exactly as in `src/`. */
  function HandlePress(p: Button.ButtonProps): (forwarded: bool)
    ensures forwarded <==> !p.Disabled() && !p.Loading() && p.onPress
    ensures forwarded == Button.HandlePress(p)
  {
    if !p.Disabled() && !p.Loading() && p.onPress then true else false
  }

  /** The component's local pressed-style table, with hex literals. */
  function PressedTable(theme: DefaultTheme.Theme, color: ColorKey, variant: ButtonVariant): Style {
    var c := theme.colors;
    match (color, variant)
    case (Primary, Solid) => Empty.(backgroundColor := Some(c.primary600))
    case (Primary, Ghost) => Empty.(backgroundColor := Some("#00828D26"))
    case (Primary, Outline) => Empty.(backgroundColor := Some("#00828D0D"), borderColor := Some("#00828DCC"))
    case (Secondary, Solid) => Empty.(backgroundColor := Some(c.secondary600))
    case (Secondary, Ghost) => Empty.(backgroundColor := Some("#64748B26"))
    case (Secondary, Outline) => Empty.(backgroundColor := Some("#64748B0D"), borderColor := Some("#64748BCC"))
    case (DefaultColor, Solid) => Empty.(backgroundColor := Some("#64748B33"))
    case (DefaultColor, Ghost) => Empty.(backgroundColor := Some("#0000000A"))
    case (DefaultColor, Outline) => Empty.(backgroundColor := Some("#0000000A"), borderColor := Some("#64748BCC"))
    case (Negative, Solid) => Empty.(backgroundColor := Some(c.negative700))
    case (Negative, Ghost) => Empty.(backgroundColor := Some("#E7503026"))
    case (Negative, Outline) => Empty.(backgroundColor := Some("#E750300D"), borderColor := Some("#E75030CC"))
    case (Neutral, Solid) => Empty.(backgroundColor := Some(c.neutral600))
    case (Neutral, Ghost) => Empty.(backgroundColor := Some("#91919126"))
    case (Neutral, Outline) => Empty.(backgroundColor := Some("#9191910D"), borderColor := Some("#919191CC"))
  }

  /** The component's `pressedStyle`: a background always, a border colour
      only for outline, the primary solid entry for an unknown pair. */
  function PressedStyle(color: string, variant: string, theme: DefaultTheme.Theme): (r: Style)
    ensures r.backgroundColor.Some?
    ensures r.borderColor.Some? <==> ParseColor(color).Some? && ParseVariant(variant) == Some(Outline)
    ensures ParseColor(color).Some? && ParseVariant(variant).Some? ==>
              r == PressedTable(theme, ParseColor(color).value, ParseVariant(variant).value)
    ensures ParseColor(color).None? || ParseVariant(variant).None? ==>
              r == Empty.(backgroundColor := Some(theme.colors.primary600))
    ensures r.(backgroundColor := None, borderColor := None) == Empty
  {
    match (ParseColor(color), ParseVariant(variant))
    case (Some(c), Some(v)) => PressedTableShape(theme, c, v); PressedTable(theme, c, v)
    case _ => PressedTableShape(theme, Primary, Solid); PressedTable(theme, Primary, Solid)
  }

  /** Every entry of the pressed table has a background and nothing but a
      background and, for outline alone, a border colour. */
  lemma PressedTableShape(theme: DefaultTheme.Theme, c: ColorKey, v: ButtonVariant)
    ensures PressedTable(theme, c, v).backgroundColor.Some?
    ensures PressedTable(theme, c, v).borderColor.Some? <==> v == Outline
    ensures PressedTable(theme, c, v).(backgroundColor := None, borderColor := None) == Empty
  {
  }

  /** Under the default theme the published pressed styles are the `src/` ones. */
  lemma PressedStyleMatchesSrc(color: ColorKey, variant: ButtonVariant)
    ensures PressedTable(DefaultTheme.Default, color, variant) ==
            ButtonHelpers.PressedTable(DefaultTheme.Default, color, variant)
  {
    match color
    case Primary => PrimaryRowsMatch(variant);
    case Secondary => SecondaryRowsMatch(variant);
    case DefaultColor => DefaultRowsMatch(variant);
    case Negative => NegativeRowsMatch(variant);
    case Neutral => NeutralRowsMatch(variant);
  }

  /** For every colour and variant string, the package's pressed style under
      the default theme is the `src/` one, so it follows the same pattern
      (`ButtonHelpers.PressedPattern`). */
  lemma PressedStyleEqualsSrc(color: string, variant: string)
    ensures PressedStyle(color, variant, DefaultTheme.Default) ==
            ButtonHelpers.PressedStyle(color, variant, DefaultTheme.Default)
  {
    match (ParseColor(color), ParseVariant(variant))
    case (Some(c), Some(v)) => PressedStyleMatchesSrc(c, v);
    case _ => PressedStyleMatchesSrc(Primary, Solid);
  }

  /** The published style list: base, dynamic styles, the pressed style
      while pressed and neither disabled nor loading, then `css` and `style`
      (the disabled entry sets only `opacity`, which `Style` does not hold). */
  function PressableStyle(p: Button.ButtonProps, theme: DefaultTheme.Theme, pressed: bool): (r: Style)
    ensures p.css == Empty && p.style == Empty ==>
              r.backgroundColor ==
                (if Button.PressedStyleApplies(p, pressed)
                 then PressedStyle(p.Color(), p.Variant(), theme).backgroundColor
                 else ColorStyles(p.Color(), p.Variant(), theme).backgroundColor)
    ensures p.style.backgroundColor.Some? ==> r.backgroundColor == p.style.backgroundColor
  {
    var dynamicStyles := Overlay(SizeStyles(p.Size(), p.IsIcon()), ColorStyles(p.Color(), p.Variant(), theme));
    var pressedLayer := if Button.PressedStyleApplies(p, pressed)
                        then PressedStyle(p.Color(), p.Variant(), theme) else Empty;
    Overlay(Overlay(Overlay(Overlay(Button.ButtonBase, dynamicStyles), pressedLayer), p.css), p.style)
  }
}
