/** Button size data: the per-size row of numbers, the normal and icon-only
    configurations built from it, and the icon, spacing and outline tables
    (src/button/constants.ts). */
module ButtonConstants {
  import opened Wrappers
  import opened Styles

  /** `ButtonSize`: `'xxs' | 'xs' | 'sm' | 'md' | 'lg' | 'xl' | '2xl'`. */
  datatype ButtonSize = XXS | XS | SM | MD | LG | XL | XXL

  function SizeName(s: ButtonSize): string {
    match s
    case XXS => "xxs"
    case XS => "xs"
    case SM => "sm"
    case MD => "md"
    case LG => "lg"
    case XL => "xl"
    case XXL => "2xl"
  }

  /** A size prop as the JavaScript string it is at run time; anything that
      is not one of the seven keys misses every table. */
  function ParseButtonSize(name: string): (r: Option<ButtonSize>)
    ensures r.Some? ==> SizeName(r.value) == name
  {
    if name == "xxs" then Some(XXS)
    else if name == "xs" then Some(XS)
    else if name == "sm" then Some(SM)
    else if name == "md" then Some(MD)
    else if name == "lg" then Some(LG)
    else if name == "xl" then Some(XL)
    else if name == "2xl" then Some(XXL)
    else None
  }

  /** Every size key parses back to its size, so the string form loses nothing. */
  lemma SizeNameRoundTrip(s: ButtonSize)
    ensures ParseButtonSize(SizeName(s)) == Some(s)
  {
  }

  /** Position of a size in the order xxs < xs < ... < 2xl. */
  function Rank(s: ButtonSize): nat {
    match s
    case XXS => 0
    case XS => 1
    case SM => 2
    case MD => 3
    case LG => 4
    case XL => 5
    case XXL => 6
  }

  /** `SizeConfig`. */
  datatype SizeConfig = SizeConfig(
    paddingVertical: real,
    paddingHorizontal: real,
    height: real,
    width: Dimension,
    borderRadius: real,
    fontSize: real,
    iconSize: real)

  /** The normal and the icon-only configuration of one size. */
  datatype SizePair = SizePair(normal: SizeConfig, icon: SizeConfig)

  /** The seven arguments of one `buildSizeConfig(...)` call in `SIZE_DATA`. */
  datatype SizeRow = SizeRow(
    pV: real, pH: real, height: real, iconWidth: real,
    borderRadius: real, fontSize: real, iconSize: real)

  function Row(s: ButtonSize): SizeRow {
    match s
    case XXS => SizeRow(2.0, 4.0, 16.0, 16.0, 4.0, 10.0, 14.0)
    case XS => SizeRow(2.0, 6.0, 20.0, 20.0, 4.0, 12.0, 14.0)
    case SM => SizeRow(2.0, 8.0, 24.0, 24.0, 4.0, 14.0, 16.0)
    case MD => SizeRow(6.0, 12.0, 32.0, 32.0, 8.0, 14.0, 20.0)
    case LG => SizeRow(8.0, 16.0, 40.0, 40.0, 8.0, 16.0, 20.0)
    case XL => SizeRow(10.0, 20.0, 44.0, 48.0, 12.0, 16.0, 24.0)
    case XXL => SizeRow(18.0, 28.0, 64.0, 64.0, 16.0, 16.0, 24.0)
  }

  /** `buildSizeConfig`: the normal config keeps the paddings and is `'auto'`
      wide; the icon config has no padding and the fixed icon width. Both
      share height, radius, font size and icon size. */
  function BuildSizeConfig(row: SizeRow): (p: SizePair)
    ensures p.normal.paddingVertical == row.pV && p.normal.paddingHorizontal == row.pH
    ensures p.normal.width == Auto
    ensures p.icon.paddingVertical == 0.0 && p.icon.paddingHorizontal == 0.0
    ensures p.icon.width == Points(row.iconWidth)
    ensures p.normal.height == p.icon.height == row.height
    ensures p.normal.borderRadius == p.icon.borderRadius == row.borderRadius
    ensures p.normal.fontSize == p.icon.fontSize == row.fontSize
    ensures p.normal.iconSize == p.icon.iconSize == row.iconSize
  {
    SizePair(
      SizeConfig(row.pV, row.pH, row.height, Auto, row.borderRadius, row.fontSize, row.iconSize),
      SizeConfig(0.0, 0.0, row.height, Points(row.iconWidth), row.borderRadius, row.fontSize, row.iconSize))
  }

  /** `SIZE_DATA[size]`. */
  function SizeData(s: ButtonSize): SizePair {
    BuildSizeConfig(Row(s))
  }

  /** `getButtonSizeConfig(size, isIcon)`. The size is one of the seven keys
      (the lookup has no fallback, so the enum type is its precondition). */
  function GetButtonSizeConfig(size: ButtonSize, isIcon: bool): (c: SizeConfig)
    ensures isIcon ==> c.paddingVertical == 0.0 && c.paddingHorizontal == 0.0
    ensures isIcon ==> c.width == Points(Row(size).iconWidth)
    ensures !isIcon ==> c.paddingVertical == Row(size).pV && c.paddingHorizontal == Row(size).pH
    ensures !isIcon ==> c.width == Auto
    ensures c.height == Row(size).height && c.borderRadius == Row(size).borderRadius
    ensures c.fontSize == Row(size).fontSize && c.iconSize == Row(size).iconSize
  {
    if isIcon then SizeData(size).icon else SizeData(size).normal
  }

  /** The two configurations of one size agree on everything but paddings and width. */
  lemma NormalAndIconShare(size: ButtonSize)
    ensures var n, i := GetButtonSizeConfig(size, false), GetButtonSizeConfig(size, true);
            n.height == i.height && n.borderRadius == i.borderRadius &&
            n.fontSize == i.fontSize && n.iconSize == i.iconSize &&
            n == i.(paddingVertical := n.paddingVertical, paddingHorizontal := n.paddingHorizontal, width := Auto)
  {
  }

  /** Heights 16, 20, 24, 32, 40, 44, 64 strictly increase with the size. */
  lemma HeightsIncrease(a: ButtonSize, b: ButtonSize)
    requires Rank(a) < Rank(b)
    ensures Row(a).height < Row(b).height
  {
  }

  /** The icon-only button is square for every size except xl (48 wide, 44 high). */
  lemma IconButtonSquare(s: ButtonSize)
    ensures Row(s).iconWidth == Row(s).height <==> s != XL
    ensures s == XL ==> Row(s).iconWidth == 48.0 && Row(s).height == 44.0
  {
  }

  /** `ICON_SIZES`. */
  function IconSizes(s: ButtonSize): real {
    match s
    case XXS => 14.0
    case XS => 14.0
    case SM => 16.0
    case MD => 24.0
    case LG => 24.0
    case XL => 24.0
    case XXL => 24.0
  }

  /** `ICON_SPACING`. */
  function IconSpacing(s: ButtonSize): real {
    match s
    case XXS => 2.0
    case XS => 2.0
    case SM => 2.0
    case MD => 4.0
    case LG => 4.0
    case XL => 6.0
    case XXL => 8.0
  }

  /** `OUTLINE_BORDER_WIDTHS`. */
  function OutlineBorderWidths(s: ButtonSize): real {
    match s
    case XXS => 1.0
    case XS => 1.0
    case SM => 1.0
    case MD => 1.5
    case LG => 2.0
    case XL => 2.0
    case XXL => 2.0
  }

  /** Icon sizes and icon spacing never shrink as the button grows, and every
      entry is positive (so a `||` fallback on them never fires). */
  lemma IconTablesMonotone(a: ButtonSize, b: ButtonSize)
    requires Rank(a) <= Rank(b)
    ensures 0.0 < IconSizes(a) <= IconSizes(b)
    ensures 0.0 < IconSpacing(a) <= IconSpacing(b)
  {
  }

  /** The outline widths follow their doc comment: 1 for xxs to sm, 1.5 for
      md, 2 for lg to 2xl. */
  lemma OutlineWidthsByGroup(s: ButtonSize)
    ensures Rank(s) <= Rank(SM) ==> OutlineBorderWidths(s) == 1.0
    ensures s == MD ==> OutlineBorderWidths(s) == 1.5
    ensures Rank(LG) <= Rank(s) ==> OutlineBorderWidths(s) == 2.0
  {
  }
}
