/** The `packages/` `Switch` (packages/switch/switch.tsx): its local
    geometry and press agree with `src/`; its on colour is a fixed hex value
    instead of the theme's primary500. It reads the static default theme. */
module PkgSwitch {
  import opened Wrappers
  import opened DefaultTheme
  import SwitchConstants
  import opened Switch

  /** The local `THUMB_OFF_POSITION` and `THUMB_ON_POSITION`, computed from
      the local 40/18/1 constants: the same 1 and 21 as `src/`. */
  function PkgThumbTarget(value: bool): (x: real)
    ensures x == ThumbTarget(value)
    ensures x == (if value then 21.0 else 1.0)
  {
    var switchWidth, thumbSize, thumbMargin := 40.0, 18.0, 1.0;
    if value then switchWidth - thumbSize - thumbMargin else thumbMargin
  }

  /** `handlePress`, agreeing with `src/`. */
  function PkgHandlePress(p: SwitchProps): (r: Option<bool>)
    ensures r == HandlePress(p)
  {
    if p.Disabled() || !p.onValueChange then None else Some(!p.Value())
  }

  /** `switchDynamicStyles.backgroundColor`: `'#448E97'` when on, the
      default theme's neutral400 when off. */
  function PkgTrackColor(value: bool): (c: string)
    ensures !value ==> c == TrackColor(false, Default)
    ensures value ==> c == "#448E97"
  {
    if value then "#448E97" else Colors.neutral400
  }

  /** The package's on colour is not the default theme's primary500, so the
      two switches differ when on and agree when off. */
  lemma OnColorDiffers()
    ensures PkgTrackColor(true) != TrackColor(true, Default)
    ensures PkgTrackColor(false) == TrackColor(false, Default)
  {
  }
}
