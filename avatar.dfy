/** The decisions of the `src/` `Avatar` component (src/avatar/avatar.tsx):
    its dimensions, font size, colours, accessibility label, and whether it
    shows the image or the initials. */
module Avatar {
  import opened Wrappers
  import opened Styles
  import opened DefaultTheme
  import opened AvatarConstants
  import opened AvatarHelpers

  /** The props the component reads; `rounded` is the string it holds at
      run time. */
  datatype AvatarProps = AvatarProps(
    imageSrc: Option<string>,
    name: Option<string>,
    textColor: Option<string>,
    textSize: Option<real>,
    backgroundColor: Option<string>,
    width: Option<real>,
    height: Option<real>,
    rounded: Option<string>,
    size: Option<AvatarSizeProp>,
    css: Style,
    style: Style)
  {
    /** The destructuring defaults `name = '?'` and `rounded = 'full'`. */
    function Name(): string { name.GetOr("?") }
    function Rounded(): string { rounded.GetOr("full") }
  }

  const NoProps: AvatarProps :=
    AvatarProps(None, None, None, None, None, None, None, None, None, Empty, Empty)

  /** `avatarWidth` and `avatarHeight`: the size's table entry when a size is
      given, else the explicit width and height, else 32. */
  function AvatarBox(p: AvatarProps): (d: Dimensions)
    ensures p.size.Some? ==> d == AvatarDimensions(p.size.value)
    ensures p.size.None? ==> d.width == p.width.GetOr(32.0) && d.height == p.height.GetOr(32.0)
  {
    match p.size
    case Some(s) => AvatarDimensions(s)
    case None => Dimensions(p.width.GetOr(32.0), p.height.GetOr(32.0))
  }

  /** A size wins over explicit dimensions, and a sized avatar is square. */
  lemma SizeOverridesDimensions(p: AvatarProps, s: AvatarSizeProp)
    ensures AvatarBox(p.(size := Some(s))) == AvatarBox(p.(size := Some(s), width := None, height := None))
    ensures AvatarBox(p.(size := Some(s))).width == AvatarBox(p.(size := Some(s))).height
    ensures AvatarBox(NoProps) == Dimensions(32.0, 32.0)
  {
  }

  /** `avatarFontSize`: `textSize ?? (size ? AVATAR_FONT_SIZES[size] : 14)`. */
  function AvatarFontSize(p: AvatarProps): (r: real)
    ensures p.textSize.Some? ==> r == p.textSize.value
    ensures p.textSize.None? && p.size.Some? ==> r == AvatarConstants.AvatarFontSize(p.size.value)
    ensures p.textSize.None? && p.size.None? ==> r == 14.0
  {
    p.textSize.GetOr(match p.size case Some(s) => AvatarConstants.AvatarFontSize(s) case None => 14.0)
  }

  /** An unsized avatar uses the md font size, matching its md-sized 32-point
      default box. */
  lemma DefaultIsMd()
    ensures AvatarFontSize(NoProps) == AvatarConstants.AvatarFontSize(SizeMd)
    ensures AvatarBox(NoProps) == AvatarDimensions(SizeMd)
  {
  }

  /** `dynamicStyles`: the box, the radius of the rounding and the
      background, `neutral100` unless given; no other keys. */
  function DynamicStyles(p: AvatarProps, theme: Theme): (r: Style)
    ensures r.width == Some(Points(AvatarBox(p).width)) && r.height == Some(Points(AvatarBox(p).height))
    ensures r.borderRadius == Some(AvatarBorderRadius(p.Rounded()))
    ensures r.backgroundColor == Some(p.backgroundColor.GetOr(theme.colors.neutral100))
    ensures r.(width := None, height := None, borderRadius := None, backgroundColor := None) == Empty
  {
    var box := AvatarBox(p);
    Empty.(width := Some(Points(box.width)), height := Some(Points(box.height)),
           borderRadius := Some(AvatarBorderRadius(p.Rounded())),
           backgroundColor := Some(p.backgroundColor.GetOr(theme.colors.neutral100)))
  }

  /** `imageStyle`: the image has the container's box and radius. */
  function ImageStyle(p: AvatarProps): (r: Style)
    ensures forall theme: Theme :: r == DynamicStyles(p, theme).(backgroundColor := None)
  {
    var box := AvatarBox(p);
    Empty.(width := Some(Points(box.width)), height := Some(Points(box.height)),
           borderRadius := Some(AvatarBorderRadius(p.Rounded())))
  }

  /** `name !== '?' ? name : undefined`: the default name is not announced. */
  function AccessibilityLabel(p: AvatarProps): (announced: Option<string>)
    ensures announced.Some? <==> p.Name() != "?"
    ensures announced.Some? ==> announced.value == p.Name() && p.name.Some?
  {
    if p.Name() != "?" then Some(p.Name()) else None
  }

  /** What the avatar shows: the image, or the initials in the bold font. */
  datatype AvatarContent =
    | Picture(uri: string, imageStyle: Style)
    | Initials(text: string, fontSize: real, fontFamily: string, textColor: string)

  function Content(p: AvatarProps, theme: Theme): (c: AvatarContent)
    ensures c.Picture? <==> TruthyString(p.imageSrc)
    ensures c.Picture? ==> c.uri == p.imageSrc.value && c.imageStyle == ImageStyle(p)
    ensures c.Initials? ==> c.text == FallbackInitials(p.Name()) && c.fontSize == AvatarFontSize(p) &&
                            c.fontFamily == theme.fonts.bold &&
                            c.textColor == p.textColor.GetOr(theme.colors.neutral600)
  {
    if TruthyString(p.imageSrc) then Picture(p.imageSrc.value, ImageStyle(p))
    else Initials(FallbackInitials(p.Name()), AvatarFontSize(p), theme.fonts.bold,
                  p.textColor.GetOr(theme.colors.neutral600))
  }

  /** The container's style list `[avatarBase, dynamicStyles, css, style]`,
      flattened; `base` stands for `avatarStyles.avatarBase`. The caller's
      `style` wins over `css`, which wins over the computed box. */
  function ContainerStyle(p: AvatarProps, theme: Theme, base: Style): (r: Style)
    ensures r.width == p.style.width.OrElse(p.css.width).OrElse(Some(Points(AvatarBox(p).width)))
    ensures r.backgroundColor ==
              p.style.backgroundColor.OrElse(p.css.backgroundColor)
                .OrElse(Some(p.backgroundColor.GetOr(theme.colors.neutral100)))
  {
    Overlay(Overlay(Overlay(base, DynamicStyles(p, theme)), p.css), p.style)
  }

  /** An avatar with no props shows "?" on neutral100, in neutral600, and is
      not announced by name. */
  lemma NoPropsAvatar(theme: Theme)
    ensures Content(NoProps, theme) ==
              Initials("?", 14.0, theme.fonts.bold, theme.colors.neutral600)
    ensures DynamicStyles(NoProps, theme).backgroundColor == Some(theme.colors.neutral100)
    ensures DynamicStyles(NoProps, theme).borderRadius == Some(999.0)
    ensures AccessibilityLabel(NoProps).None?
  {
    InitialOfOneWord("?");
  }
}
