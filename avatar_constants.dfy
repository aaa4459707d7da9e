/** Avatar dimension, font-size and corner-radius tables
    (src/avatar/constants.ts). */
module AvatarConstants {
  import opened Wrappers

  /** `AvatarSizeProp`: the nine sizes `xs` to `5xl`. */
  datatype AvatarSizeProp = SizeXs | SizeSm | SizeMd | SizeLg | SizeXl | Size2xl | Size3xl | Size4xl | Size5xl

  /** `AvatarSize`: the rounding variants `xs` to `3xl` and `full`. */
  datatype AvatarRounding = RoundXs | RoundSm | RoundMd | RoundLg | RoundXl | Round2xl | Round3xl | RoundFull

  /** Position of a size in the order xs < sm < ... < 5xl. */
  function SizeRank(s: AvatarSizeProp): nat {
    match s
    case SizeXs => 0
    case SizeSm => 1
    case SizeMd => 2
    case SizeLg => 3
    case SizeXl => 4
    case Size2xl => 5
    case Size3xl => 6
    case Size4xl => 7
    case Size5xl => 8
  }

  /** Position of a rounding in the order xs < sm < ... < 3xl < full. */
  function RoundingRank(r: AvatarRounding): nat {
    match r
    case RoundXs => 0
    case RoundSm => 1
    case RoundMd => 2
    case RoundLg => 3
    case RoundXl => 4
    case Round2xl => 5
    case Round3xl => 6
    case RoundFull => 7
  }

  /** The string a rounding prop holds at run time. */
  function RoundingName(r: AvatarRounding): string {
    match r
    case RoundXs => "xs"
    case RoundSm => "sm"
    case RoundMd => "md"
    case RoundLg => "lg"
    case RoundXl => "xl"
    case Round2xl => "2xl"
    case Round3xl => "3xl"
    case RoundFull => "full"
  }

  /** A rounding prop as a JavaScript string; anything else is no key. */
  function ParseRounding(name: string): (r: Option<AvatarRounding>)
    ensures r.Some? ==> RoundingName(r.value) == name
  {
    if name == "xs" then Some(RoundXs)
    else if name == "sm" then Some(RoundSm)
    else if name == "md" then Some(RoundMd)
    else if name == "lg" then Some(RoundLg)
    else if name == "xl" then Some(RoundXl)
    else if name == "2xl" then Some(Round2xl)
    else if name == "3xl" then Some(Round3xl)
    else if name == "full" then Some(RoundFull)
    else None
  }

  /** Every rounding name parses back to its rounding. */
  lemma RoundingNameRoundTrip(r: AvatarRounding)
    ensures ParseRounding(RoundingName(r)) == Some(r)
  {
  }

  datatype Dimensions = Dimensions(width: real, height: real)

  /** `AVATAR_DIMENSIONS[size]`. */
  function AvatarDimensions(s: AvatarSizeProp): Dimensions {
    match s
    case SizeXs => Dimensions(20.0, 20.0)
    case SizeSm => Dimensions(24.0, 24.0)
    case SizeMd => Dimensions(32.0, 32.0)
    case SizeLg => Dimensions(40.0, 40.0)
    case SizeXl => Dimensions(48.0, 48.0)
    case Size2xl => Dimensions(56.0, 56.0)
    case Size3xl => Dimensions(64.0, 64.0)
    case Size4xl => Dimensions(72.0, 72.0)
    case Size5xl => Dimensions(120.0, 120.0)
  }

  /** `AVATAR_FONT_SIZES[size]`. */
  function AvatarFontSize(s: AvatarSizeProp): real {
    match s
    case SizeXs => 10.0
    case SizeSm => 12.0
    case SizeMd => 14.0
    case SizeLg => 16.0
    case SizeXl => 19.2
    case Size2xl => 19.2
    case Size3xl => 19.2
    case Size4xl => 23.04
    case Size5xl => 39.808
  }

  /** `AVATAR_BORDER_RADII[rounded]`. */
  function AvatarBorderRadii(r: AvatarRounding): real {
    match r
    case RoundXs => 4.0
    case RoundSm => 8.0
    case RoundMd => 12.0
    case RoundLg => 16.0
    case RoundXl => 20.0
    case Round2xl => 24.0
    case Round3xl => 32.0
    case RoundFull => 999.0
  }

  /** Every avatar size is square, and a larger size is strictly larger. */
  lemma DimensionsSquareAndIncreasing(a: AvatarSizeProp, b: AvatarSizeProp)
    ensures AvatarDimensions(a).width == AvatarDimensions(a).height
    ensures SizeRank(a) < SizeRank(b) ==> AvatarDimensions(a).width < AvatarDimensions(b).width
  {
  }

  /** The font size never shrinks as the avatar grows, and stays below the
      avatar's side. */
  lemma FontSizesNonDecreasing(a: AvatarSizeProp, b: AvatarSizeProp)
    ensures SizeRank(a) <= SizeRank(b) ==> AvatarFontSize(a) <= AvatarFontSize(b)
    ensures 0.0 < AvatarFontSize(a) < AvatarDimensions(a).height
  {
  }

  /** Radii strictly increase from xs to 3xl, and `full` is 999. */
  lemma RadiiIncreasing(a: AvatarRounding, b: AvatarRounding)
    ensures RoundingRank(a) < RoundingRank(b) ==> AvatarBorderRadii(a) < AvatarBorderRadii(b)
    ensures AvatarBorderRadii(RoundFull) == 999.0
  {
  }

  /** A `full` radius is at least half the side of every avatar size, so a
      full avatar is drawn as a circle. */
  lemma FullIsCircle(s: AvatarSizeProp)
    ensures AvatarBorderRadii(RoundFull) >= AvatarDimensions(s).width / 2.0
  {
  }
}
