/** Radio circle sizes (src/radio/constants.ts). */
module RadioConstants {
  import opened Wrappers

  /** `RadioSize`: `'sm' | 'md'`. */
  datatype RadioSize = RadioSm | RadioMd

  function ParseRadioSize(name: string): (r: Option<RadioSize>)
    ensures r == Some(RadioSm) <==> name == "sm"
    ensures r == Some(RadioMd) <==> name == "md"
  {
    if name == "sm" then Some(RadioSm) else if name == "md" then Some(RadioMd) else None
  }

  /** `RadioSizeConfig`: the outer ring and the inner dot. */
  datatype RadioSizeConfig = RadioSizeConfig(
    outerWidth: real, outerHeight: real, innerWidth: real, innerHeight: real)

  /** `RADIO_SIZE_CONFIGS[size]`. */
  function RadioSizeConfigs(s: RadioSize): RadioSizeConfig {
    match s
    case RadioSm => RadioSizeConfig(14.0, 14.0, 8.0, 8.0)
    case RadioMd => RadioSizeConfig(18.0, 18.0, 12.0, 12.0)
  }

  /** `getRadioSizeConfig(size)`: the entry of the size, or the sm entry for
      a string that is no size key. */
  function GetRadioSizeConfig(size: string): (c: RadioSizeConfig)
    ensures size == "md" ==> c == RadioSizeConfig(18.0, 18.0, 12.0, 12.0)
    ensures size != "md" ==> c == RadioSizeConfig(14.0, 14.0, 8.0, 8.0)
  {
    match ParseRadioSize(size)
    case Some(s) => RadioSizeConfigs(s)
    case None => RadioSizeConfigs(RadioSm)
  }

  /** Both rings and both dots are circles, each dot is smaller than its
      ring, and every dot leaves a ring of 3 points on each side. */
  lemma CirclesNested(s: RadioSize)
    ensures var c := RadioSizeConfigs(s);
            c.outerWidth == c.outerHeight && c.innerWidth == c.innerHeight &&
            0.0 < c.innerWidth < c.outerWidth && c.outerWidth - c.innerWidth == 6.0
  {
  }
}
