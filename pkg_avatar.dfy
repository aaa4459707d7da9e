/** The `packages/` `Avatar` (packages/avatar/avatar.tsx): its own radius
    switch, the palette colour picked from the first letter of the name, the
    single-letter initial and the prop overrides. Letters, digits and
    upper-casing are those of ASCII. */
module PkgAvatar {
  import opened Wrappers
  import opened Styles
  import opened DefaultTheme
  import AvatarConstants
  import AvatarHelpers

  /** `getAvatarSize(rounded)`: the switch over the rounding names. */
  function GetAvatarSize(rounded: string): (r: real)
    ensures r == AvatarHelpers.AvatarBorderRadius(rounded)
  {
    if rounded == "xs" then 4.0
    else if rounded == "sm" then 8.0
    else if rounded == "md" then 12.0
    else if rounded == "lg" then 16.0
    else if rounded == "xl" then 20.0
    else if rounded == "2xl" then 24.0
    else if rounded == "3xl" then 32.0
    else if rounded == "full" then 999.0
    else 999.0
  }

  /** `AvatarColor`: a background and a text colour. */
  datatype AvatarColor = AvatarColor(bg: string, text: string)

  /** `avatarColors`. */
  const AvatarColors: seq<AvatarColor> := [
    AvatarColor("#F4BEB44D", "#AB857E"),
    AvatarColor("#A65E6E4D", "#74424D"),
    AvatarColor("#C083D84D", "#865C97"),
    AvatarColor("#5F5CB04D", "#43407B"),
    AvatarColor("#7158F54D", "#4F3EAC"),
    AvatarColor("#84BCEF4D", "#5C84A7")]

  /** The grey used when the palette lookup misses. */
  const Grey: AvatarColor := AvatarColor("#64748B14", "#64748B")

  /** `name?.charAt(0).toUpperCase() ?? '?'`: `None` for an empty name, whose
      first character is the empty string. */
  function FirstLetter(name: Option<string>): (c: Option<char>)
    ensures name.None? ==> c == Some('?')
    ensures name.Some? ==> (c.Some? <==> name.value != [])
    ensures name.Some? && name.value != [] ==> c == Some(AvatarHelpers.Upper(name.value[0]))
  {
    match name
    case None => Some('?')
    case Some(n) => if n == [] then None else Some(AvatarHelpers.Upper(n[0]))
  }

  /** `randomColor`: the palette entry at `(charCode % 65) % 6` of the first
      letter. An empty name has no character code (`NaN`), so the lookup
      misses and the grey fallback is used. */
  function RandomColor(name: Option<string>): (r: AvatarColor)
    ensures FirstLetter(name).Some? ==> r == AvatarColors[(FirstLetter(name).value as int % 65) % |AvatarColors|]
    ensures FirstLetter(name).None? ==> r == Grey
  {
    match FirstLetter(name)
    case Some(c) => AvatarColors[(c as int % 65) % |AvatarColors|]
    case None => Grey
  }

  /** The grey fallback is used exactly for the empty name; every other name
      lands on the palette. */
  lemma GreyOnlyForEmptyName(name: Option<string>)
    ensures RandomColor(name) == Grey <==> name == Some("")
  {
    if FirstLetter(name).Some? {
      var i := (FirstLetter(name).value as int % 65) % |AvatarColors|;
      assert 0 <= i < 6;
      assert AvatarColors[i] != Grey;
    }
  }

  /** The case of the first letter does not matter, and a missing name is
      coloured like the name "?". */
  lemma ColorIgnoresCase(rest: string)
    ensures RandomColor(Some(['a'] + rest)) == RandomColor(Some(['A'] + rest))
    ensures RandomColor(None) == RandomColor(Some("?")) == AvatarColors[3]
    ensures RandomColor(Some(['A'] + rest)) == AvatarColors[0]
  {
  }

  /** The characters `[\p{L}\p{N}]` matches within ASCII. */
  predicate IsAlnum(c: char) {
    'a' <= c <= 'z' || 'A' <= c <= 'Z' || '0' <= c <= '9'
  }

  /** `name.replace(/[^\p{L}\p{N}]/gu, '')`: the letters and digits of the
      name, in order. */
  function KeepAlnum(s: string): (t: string)
    ensures |t| <= |s|
    ensures forall i :: 0 <= i < |t| ==> IsAlnum(t[i])
    ensures (exists i :: 0 <= i < |s| && IsAlnum(s[i])) <==> t != []
  {
    if s == [] then []
    else if IsAlnum(s[0]) then [s[0]] + KeepAlnum(s[1..])
    else
      var t := KeepAlnum(s[1..]);
      assert (exists i :: 0 <= i < |s| && IsAlnum(s[i])) ==> (exists i :: 0 <= i < |s[1..]| && IsAlnum(s[1..][i]));
      t
  }

  /** Removing the non-letters twice removes nothing more. */
  lemma {:induction false} KeepAlnumIdempotent(s: string)
    ensures KeepAlnum(KeepAlnum(s)) == KeepAlnum(s)
  {
    if s != [] {
      KeepAlnumIdempotent(s[1..]);
      if IsAlnum(s[0]) {
        var t := [s[0]] + KeepAlnum(s[1..]);
        assert t[0] == s[0] && t[1..] == KeepAlnum(s[1..]);
      }
    }
  }

  /** The first kept character is the first letter or digit of the name. */
  lemma {:induction false} KeepAlnumFirst(s: string, k: nat)
    requires k < |s| && IsAlnum(s[k])
    requires forall i :: 0 <= i < k ==> !IsAlnum(s[i])
    ensures KeepAlnum(s) != [] && KeepAlnum(s)[0] == s[k]
  {
    if k > 0 {
      assert forall i :: 0 <= i < k - 1 ==> s[1..][i] == s[i + 1];
      KeepAlnumFirst(s[1..], k - 1);
    }
  }

  /** `cleanedName`: the name without non-letters, or the email when that
      is empty or there is no name. */
  function CleanedName(name: Option<string>, email: Option<string>): (r: Option<string>)
    ensures name.Some? && KeepAlnum(name.value) != [] ==> r == Some(KeepAlnum(name.value))
    ensures name.None? || KeepAlnum(name.value) == [] ==> r == email
  {
    match name
    case Some(n) => if KeepAlnum(n) != [] then Some(KeepAlnum(n)) else email
    case None => email
  }

  /** `cleanedName?.charAt(0)?.toUpperCase()`: the displayed initial, at most
      one character. */
  function DisplayedInitial(name: Option<string>, email: Option<string>): (r: Option<string>)
    ensures r.Some? <==> CleanedName(name, email).Some?
    ensures r.Some? ==> |r.value| <= 1
    ensures r.Some? && CleanedName(name, email).value != [] ==>
              r.value == [AvatarHelpers.Upper(CleanedName(name, email).value[0])]
  {
    match CleanedName(name, email)
    case None => None
    case Some(c) => Some(if c == [] then [] else [AvatarHelpers.Upper(c[0])])
  }

  /** A name with a letter or digit shows its first letter or digit, upper
      cased, whatever the email; "  @jane" shows "J". */
  lemma InitialFromName(name: string, k: nat, email: Option<string>)
    requires k < |name| && IsAlnum(name[k])
    requires forall i :: 0 <= i < k ==> !IsAlnum(name[i])
    ensures DisplayedInitial(Some(name), email) == Some([AvatarHelpers.Upper(name[k])])
  {
    KeepAlnumFirst(name, k);
  }

  /** The props the component reads. */
  datatype PkgAvatarProps = PkgAvatarProps(
    imageSrc: Option<string>,
    name: Option<string>,
    email: Option<string>,
    textColor: Option<string>,
    textSize: Option<real>,
    backgroundColor: Option<string>,
    width: Option<real>,
    height: Option<real>,
    rounded: Option<string>,
    css: Style,
    style: Style)
  {
    /** The defaults `width = 32`, `height = 32`, `rounded = 'full'`. */
    function Width(): real { width.GetOr(32.0) }
    function Height(): real { height.GetOr(32.0) }
    function Rounded(): string { rounded.GetOr("full") }
  }

  /** `avatarStyles`: the box, the radius, and the background, which is the
      palette colour unless a non-empty one is given. */
  function AvatarStyles(p: PkgAvatarProps): (r: Style)
    ensures r.width == Some(Points(p.Width())) && r.height == Some(Points(p.Height()))
    ensures r.borderRadius == Some(AvatarHelpers.AvatarBorderRadius(p.Rounded()))
    ensures TruthyString(p.backgroundColor) ==> r.backgroundColor == p.backgroundColor
    ensures !TruthyString(p.backgroundColor) ==> r.backgroundColor == Some(RandomColor(p.name).bg)
    ensures r.(width := None, height := None, borderRadius := None, backgroundColor := None) == Empty
  {
    Empty.(width := Some(Points(p.Width())), height := Some(Points(p.Height())),
           borderRadius := Some(GetAvatarSize(p.Rounded())),
           backgroundColor := Some(if TruthyString(p.backgroundColor) then p.backgroundColor.value
                                   else RandomColor(p.name).bg))
  }

  /** What the avatar shows: the image with the container's box and radius,
      or the initial in bold, weight 700. */
  datatype PkgAvatarContent =
    | Picture(uri: string, width: real, height: real, borderRadius: real)
    | Initial(text: Option<string>, fontSize: real, fontFamily: string, fontWeight: string, textColor: string)

  function Content(p: PkgAvatarProps, theme: Theme): (c: PkgAvatarContent)
    ensures c.Picture? <==> TruthyString(p.imageSrc)
    ensures c.Picture? ==> c.width == p.Width() && c.height == p.Height() &&
                           Some(c.borderRadius) == AvatarStyles(p).borderRadius
    ensures c.Initial? ==> c.text == DisplayedInitial(p.name, p.email) && c.fontFamily == theme.fonts.bold &&
                           c.fontWeight == "700"
    ensures c.Initial? ==> c.fontSize == (if TruthyNumber(p.textSize) then p.textSize.value else 14.0)
    ensures c.Initial? ==>
              c.textColor == (if TruthyString(p.textColor) then p.textColor.value else RandomColor(p.name).text)
  {
    if TruthyString(p.imageSrc) then
      Picture(p.imageSrc.value, p.Width(), p.Height(), GetAvatarSize(p.Rounded()))
    else
      Initial(DisplayedInitial(p.name, p.email), NumberOr(p.textSize, 14.0), theme.fonts.bold, "700",
              if TruthyString(p.textColor) then p.textColor.value else RandomColor(p.name).text)
  }

  /** The background and the initial share one palette entry (or the grey)
      unless the caller overrides them. */
  lemma PaletteEntryShared(p: PkgAvatarProps, theme: Theme)
    requires !TruthyString(p.backgroundColor) && !TruthyString(p.textColor) && !TruthyString(p.imageSrc)
    ensures var entry := RandomColor(p.name);
            entry in AvatarColors + [Grey] &&
            AvatarStyles(p).backgroundColor == Some(entry.bg) && Content(p, theme).textColor == entry.text
  {
  }
}
