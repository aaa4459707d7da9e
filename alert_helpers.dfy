/** The style helpers of the alert (src/alert/helpers.ts): size styles,
    status colours for the container, the icon and the text. */
module AlertHelpers {
  import opened Wrappers
  import opened Styles
  import opened DefaultTheme
  import opened AlertConstants

  /** `getSizeStyles(size)`: exactly the paddings, radius and gap of the size. */
  function SizeStyles(size: AlertSize): (r: Style)
    ensures r.paddingHorizontal == Some(SizeConfig(size).paddingHorizontal)
    ensures r.paddingVertical == Some(SizeConfig(size).paddingVertical)
    ensures r.borderRadius == Some(SizeConfig(size).borderRadius)
    ensures r.gap == Some(SizeConfig(size).gap)
    ensures r.(paddingHorizontal := None, paddingVertical := None, borderRadius := None, gap := None) == Empty
  {
    var config := SizeConfig(size);
    Empty.(paddingHorizontal := Some(config.paddingHorizontal), paddingVertical := Some(config.paddingVertical),
           borderRadius := Some(config.borderRadius), gap := Some(config.gap))
  }

  /** `getStatusContainerStyles(theme, status)`: the background and border
      colours of the status's keys and a one-point border, nothing else. */
  function StatusContainerStyles(theme: Theme, status: AlertStatus): (r: Style)
    ensures r.backgroundColor == ColorOf(theme.colors, StatusBgColor(status)) && r.backgroundColor.Some?
    ensures r.borderColor == ColorOf(theme.colors, StatusBorderColor(status)) && r.borderColor.Some?
    ensures r.borderWidth == Some(1.0)
    ensures r.(backgroundColor := None, borderWidth := None, borderColor := None) == Empty
  {
    StatusKeysResolve(theme.colors, status);
    Empty.(backgroundColor := ColorOf(theme.colors, StatusBgColor(status)), borderWidth := Some(1.0),
           borderColor := ColorOf(theme.colors, StatusBorderColor(status)))
  }

  /** `getIconColor(theme, status)`: the theme colour of the status's icon key. */
  function IconColor(theme: Theme, status: AlertStatus): (r: string)
    ensures ColorOf(theme.colors, StatusIconColor(status)) == Some(r)
  {
    StatusKeysResolve(theme.colors, status);
    ColorOf(theme.colors, StatusIconColor(status)).value
  }

  /** `getTextStyles(theme, status, size)`: the text colour of the status,
      the font size and line height of the size, and `flex: 1`. */
  function TextStyles(theme: Theme, status: AlertStatus, size: AlertSize): (r: Style)
    ensures r.color == ColorOf(theme.colors, StatusTextColor(status)) && r.color.Some?
    ensures r.fontSize == Some(SizeConfig(size).fontSize)
    ensures r.lineHeight == Some(SizeConfig(size).lineHeight)
    ensures r.flex == Some(1.0)
    ensures r.(color := None, fontSize := None, lineHeight := None, flex := None) == Empty
  {
    StatusKeysResolve(theme.colors, status);
    var config := SizeConfig(size);
    Empty.(color := ColorOf(theme.colors, StatusTextColor(status)), fontSize := Some(config.fontSize),
           lineHeight := Some(config.lineHeight), flex := Some(1.0))
  }

  /** `getIconSize(size)`: 20 for sm, 24 for md. */
  function IconSize(size: AlertSize): (r: real)
    ensures size == Sm ==> r == 20.0
    ensures size == Md ==> r == 24.0
    ensures r == SizeConfig(size).lineHeight
  {
    SizeConfig(size).iconSize
  }

  /** With the default theme an info alert is drawn in the accent family:
      accent100 behind, accent200 around, accent500 icon and accent700 text. */
  lemma InfoAlertColors()
    ensures StatusContainerStyles(Default, Info).backgroundColor == Some(Colors.accent100)
    ensures StatusContainerStyles(Default, Info).borderColor == Some(Colors.accent200)
    ensures IconColor(Default, Info) == Colors.accent500
    ensures TextStyles(Default, Info, Sm).color == Some(Colors.accent700)
  {
  }

  /** With the default theme a warning alert's icon is warning600, one shade
      darker than the 500 the other statuses use. */
  lemma WarningIconIsDarker()
    ensures IconColor(Default, AlertStatus.Warning) == Colors.warning600
    ensures IconColor(Default, Error) == Colors.negative500
    ensures IconColor(Default, Success) == Colors.positive500
  {
  }
}
