/** Text-input sizes (src/text-input/constants.ts). */
module TextInputConstants {
  /** `TextInputSize`: `'sm' | 'md' | 'lg' | 'xl' | '2xl'`. */
  datatype TextInputSize = InputSm | InputMd | InputLg | InputXl | Input2xl

  /** Position of a size in the order sm < md < lg < xl < 2xl. */
  function InputRank(s: TextInputSize): nat {
    match s
    case InputSm => 0
    case InputMd => 1
    case InputLg => 2
    case InputXl => 3
    case Input2xl => 4
  }

  /** `TextInputSizeConfig`. */
  datatype TextInputSizeConfig = TextInputSizeConfig(
    height: real,
    borderRadius: real,
    fontSize: real,
    paddingHorizontal: real,
    leftIconPadding: real,
    rightIconPadding: real,
    iconSize: real)

  /** `getSizeConfig(size)`: `SIZE_CONFIGS[size]`, a lookup with no
      fallback, so the size is one of the five keys. */
  function GetSizeConfig(s: TextInputSize): TextInputSizeConfig {
    match s
    case InputSm => TextInputSizeConfig(32.0, 6.0, 12.0, 8.0, 40.0, 40.0, 20.0)
    case InputMd => TextInputSizeConfig(40.0, 8.0, 14.0, 10.0, 40.0, 40.0, 20.0)
    case InputLg => TextInputSizeConfig(44.0, 12.0, 16.0, 12.0, 40.0, 40.0, 20.0)
    case InputXl => TextInputSizeConfig(48.0, 8.0, 16.0, 14.0, 42.0, 42.0, 22.0)
    case Input2xl => TextInputSizeConfig(56.0, 12.0, 16.0, 16.0, 42.0, 42.0, 24.0)
  }

  /** Heights 32, 40, 44, 48, 56 strictly increase with the size. */
  lemma HeightsIncrease(a: TextInputSize, b: TextInputSize)
    requires InputRank(a) < InputRank(b)
    ensures GetSizeConfig(a).height < GetSizeConfig(b).height
  {
  }

  /** The horizontal padding is 8 plus 2 per size step. */
  lemma PaddingSteps(s: TextInputSize)
    ensures GetSizeConfig(s).paddingHorizontal == 8.0 + 2.0 * (InputRank(s) as real)
  {
  }

  /** Both icon paddings are equal and leave more room than the plain
      padding; the icon fits in the field's height; the font grows
      with the size. */
  lemma IconRoom(a: TextInputSize, b: TextInputSize)
    ensures var c := GetSizeConfig(a);
            c.leftIconPadding == c.rightIconPadding && c.paddingHorizontal <= c.leftIconPadding &&
            c.iconSize < c.height
    ensures InputRank(a) <= InputRank(b) ==> GetSizeConfig(a).fontSize <= GetSizeConfig(b).fontSize
  {
  }
}
