/** The `src/` `LineLoader` (src/loader/line-loader.tsx): the track and dot
    colours per colour preset, the fallbacks for unknown keys, the
    container box and its accessibility. */
module LineLoader {
  import opened Wrappers
  import opened Styles
  import opened DefaultTheme
  import opened Utils
  import opened LoaderConstants

  /** The props; `size` and `color` are the strings they hold at run time. */
  datatype LineLoaderProps = LineLoaderProps(size: Option<string>, color: Option<string>, css: Style, style: Style)
  {
    /** The defaults `size = 'sm'` and `color = 'primary'`. */
    function Size(): string { size.GetOr("sm") }
    function Color(): string { color.GetOr("primary") }
  }

  /** A `colorMap` entry. */
  datatype LoaderColors = LoaderColors(track: string, dot: string)

  /** `colorMap[color]`: for each preset the dot colour and the track, which
      is a colour at a preset opacity. */
  function ColorMap(color: string, theme: Theme): (r: Option<LoaderColors>)
    ensures r.Some? <==> color in {"primary", "secondary", "bright", "negative", "accent"}
    ensures color == "primary" ==> r == Some(LoaderColors(ColorOpacity(theme.colors.primary800, 0.25), theme.colors.primary800))
    ensures color == "secondary" ==>
              r == Some(LoaderColors(ColorOpacity(theme.colors.secondary700, 0.4), theme.colors.secondary700))
    ensures color == "bright" ==> r == Some(LoaderColors(ColorOpacity(theme.colors.white900, 0.5), theme.colors.white900))
    ensures color == "negative" ==>
              r == Some(LoaderColors(ColorOpacity(theme.colors.negative500, 0.4), theme.colors.negative700))
    ensures color == "accent" ==> r == Some(LoaderColors(ColorOpacity(theme.colors.accent500, 0.2), theme.colors.accent500))
  {
    if color == "primary" then Some(LoaderColors(ColorOpacity(theme.colors.primary800, 0.25), theme.colors.primary800))
    else if color == "secondary" then
      Some(LoaderColors(ColorOpacity(theme.colors.secondary700, 0.4), theme.colors.secondary700))
    else if color == "bright" then Some(LoaderColors(ColorOpacity(theme.colors.white900, 0.5), theme.colors.white900))
    else if color == "negative" then
      Some(LoaderColors(ColorOpacity(theme.colors.negative500, 0.4), theme.colors.negative700))
    else if color == "accent" then Some(LoaderColors(ColorOpacity(theme.colors.accent500, 0.2), theme.colors.accent500))
    else None
  }

  /** `colorMap[color] ?? colorMap.primary`. */
  function PresetColors(p: LineLoaderProps, theme: Theme): (r: LoaderColors)
    ensures ColorMap(p.Color(), theme).Some? ==> r == ColorMap(p.Color(), theme).value
    ensures ColorMap(p.Color(), theme).None? ==> r == ColorMap("primary", theme).value
  {
    ColorMap(p.Color(), theme).GetOr(ColorMap("primary", theme).value)
  }

  /** For the primary, secondary, bright and accent presets the track is the
      dot colour made translucent; the negative track is a translucent
      negative500 under a negative700 dot. Any unknown colour, and no
      colour, draws like primary. */
  lemma TrackIsTranslucentDot(p: LineLoaderProps, theme: Theme)
    ensures p.Color() != "negative" ==> exists a: real :: PresetColors(p, theme).track == ColorOpacity(PresetColors(p, theme).dot, a)
    ensures p.Color() == "negative" ==> PresetColors(p, theme).track == ColorOpacity(theme.colors.negative500, 0.4) &&
                                        PresetColors(p, theme).dot == theme.colors.negative700
    ensures p.Color() !in {"primary", "secondary", "bright", "negative", "accent"} ==>
              PresetColors(p, theme) == PresetColors(p.(color := None), theme)
  {
    var c := p.Color();
    if c == "secondary" {
      assert PresetColors(p, theme).track == ColorOpacity(PresetColors(p, theme).dot, 0.4);
    } else if c == "bright" {
      assert PresetColors(p, theme).track == ColorOpacity(PresetColors(p, theme).dot, 0.5);
    } else if c == "accent" {
      assert PresetColors(p, theme).track == ColorOpacity(PresetColors(p, theme).dot, 0.2);
    } else if c != "negative" {
      assert PresetColors(p, theme).track == ColorOpacity(PresetColors(p, theme).dot, 0.25);
    }
  }

  /** With the default theme the negative dot is not the track's base colour. */
  lemma NegativeDotDarker()
    ensures PresetColors(LineLoaderProps(None, Some("negative"), Empty, Empty), Default).dot != DefaultTheme.Colors.negative500
  {
  }

  /** `LINE_LOADER_DIMENSIONS[size] ?? LINE_LOADER_DIMENSIONS.sm`. */
  function Box(p: LineLoaderProps): (b: LoaderBox)
    ensures ParseLineSize(p.Size()).Some? ==> b == LineLoaderDimensions(ParseLineSize(p.Size()).value)
    ensures ParseLineSize(p.Size()).None? ==> b == LineLoaderDimensions(LineSm)
  {
    match ParseLineSize(p.Size())
    case Some(s) => LineLoaderDimensions(s)
    case None => LineLoaderDimensions(LineSm)
  }

  /** `containerStyle`: the box and track colour, with ends rounded to a
      semicircle (`height / 2`). */
  function ContainerStyle(p: LineLoaderProps, theme: Theme): (r: Style)
    ensures r.width == Some(Points(Box(p).width)) && r.height == Some(Points(Box(p).height))
    ensures r.backgroundColor == Some(PresetColors(p, theme).track)
    ensures r.borderRadius.Some? && 2.0 * r.borderRadius.value == Box(p).height
    ensures r.(width := None, height := None, backgroundColor := None, borderRadius := None) == Empty
  {
    var box := Box(p);
    Empty.(width := Some(Points(box.width)), height := Some(Points(box.height)),
           backgroundColor := Some(PresetColors(p, theme).track), borderRadius := Some(box.height / 2.0))
  }

  /** The loader with no props is the 24 by 4 primary track with radius 2,
      and every track is 24 wide with a radius between 2 and 4. */
  lemma DefaultLineLoader(p: LineLoaderProps, theme: Theme)
    ensures ContainerStyle(LineLoaderProps(None, None, Empty, Empty), theme) ==
              Empty.(width := Some(Points(24.0)), height := Some(Points(4.0)), borderRadius := Some(2.0),
                     backgroundColor := Some(ColorOpacity(theme.colors.primary800, 0.25)))
    ensures Box(p).width == 24.0 && 2.0 <= ContainerStyle(p, theme).borderRadius.value <= 4.0
  {
  }

  /** The root view's style list `[container, containerStyle, css, style]`,
      flattened (`overflow` and `position` are not style keys here), and its
      accessibility: a `progressbar` that is always accessible. */
  datatype LoaderView = LoaderView(style: Style, role: string, accessible: bool)

  function Render(p: LineLoaderProps, theme: Theme): (v: LoaderView)
    ensures v.role == "progressbar" && v.accessible
    ensures v.style.marginTop == p.style.marginTop.OrElse(p.css.marginTop)
    ensures v.style.width == p.style.width.OrElse(p.css.width).OrElse(Some(Points(Box(p).width)))
  {
    LoaderView(Overlay(Overlay(ContainerStyle(p, theme), p.css), p.style), "progressbar", true)
  }
}
