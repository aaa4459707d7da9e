/** Switch track and thumb geometry (src/switch/constants.ts). */
module SwitchConstants {
  /** `SWITCH_WIDTH`, `SWITCH_HEIGHT`, `THUMB_SIZE`, `THUMB_MARGIN`. */
  const SwitchWidth: real := 40.0
  const SwitchHeight: real := 20.0
  const ThumbSize: real := 18.0
  const ThumbMargin: real := 1.0

  /** `THUMB_OFF_POSITION`: the thumb sits one margin from the left edge. */
  function ThumbOffPosition(): (x: real)
    ensures x == 1.0
  {
    ThumbMargin
  }

  /** `THUMB_ON_POSITION`: the thumb sits one margin from the right edge. */
  function ThumbOnPosition(): (x: real)
    ensures x == 21.0
    ensures x + ThumbSize + ThumbMargin == SwitchWidth
  {
    SwitchWidth - ThumbSize - ThumbMargin
  }

  /** The thumb fits the track with one margin above and below, stays inside
      it at both ends, and moves right when switched on. */
  lemma ThumbInsideTrack()
    ensures ThumbSize + 2.0 * ThumbMargin == SwitchHeight
    ensures 0.0 < ThumbOffPosition() < ThumbOnPosition()
    ensures ThumbOnPosition() + ThumbSize < SwitchWidth
    ensures ThumbOffPosition() == SwitchWidth - (ThumbOnPosition() + ThumbSize)
  {
  }
}
