/** The `packages/` `TextInput` (packages/text-input/text-input.tsx). It
    repeats the `src/` component with its own size table and colours taken
    from the package's static theme, passed here as `theme`; each member is
    proved to agree with its `src/` counterpart. */
module PkgTextInput {
  import opened Wrappers
  import opened Styles
  import opened DefaultTheme
  import opened TextInputConstants
  import opened TextInput

  /** The package's own `getSizeConfig` table, the same as the shared one. */
  function PkgGetSizeConfig(size: TextInputSize): (c: TextInputSizeConfig)
    ensures c == GetSizeConfig(size)
    ensures c.leftIconPadding == c.rightIconPadding > c.paddingHorizontal
  {
    match size
    case InputSm => TextInputSizeConfig(32.0, 6.0, 12.0, 8.0, 40.0, 40.0, 20.0)
    case InputMd => TextInputSizeConfig(40.0, 8.0, 14.0, 10.0, 40.0, 40.0, 20.0)
    case InputLg => TextInputSizeConfig(44.0, 12.0, 16.0, 12.0, 40.0, 40.0, 20.0)
    case InputXl => TextInputSizeConfig(48.0, 8.0, 16.0, 14.0, 42.0, 42.0, 22.0)
    case Input2xl => TextInputSizeConfig(56.0, 12.0, 16.0, 16.0, 42.0, 42.0, 24.0)
  }

  /** The package's `inputWrapperStyles`, built key by key from its own size
      table: the same style as `src/` for the same focus and theme. */
  method PkgBuildWrapperStyles(p: TextInputProps, focused: bool, theme: Theme) returns (s: Style)
    ensures s == InputWrapperStyles(p, focused, theme)
  {
    var config := PkgGetSizeConfig(p.Size());
    s := Empty.(height := Some(Points(config.height)), borderRadius := Some(config.borderRadius),
                backgroundColor := Some(if p.Variant() == "filled" then theme.colors.neutral50
                                        else theme.colors.white900));
    var edge := if focused then theme.colors.neutral500 else theme.colors.black300;
    if p.ErrorBorder() {
      s := s.(borderTopColor := Some(edge));
      s := s.(borderRightColor := Some(edge));
      s := s.(borderLeftColor := Some(edge));
      s := s.(borderBottomColor := Some(theme.colors.negative500));
    } else {
      s := s.(borderColor := Some(edge));
    }
  }

  /** The package's `textInputStyles`, from its own size table. */
  function PkgTextInputStyles(p: TextInputProps): (r: Style)
    ensures r == TextInputStyles(p)
  {
    var config := PkgGetSizeConfig(p.Size());
    Empty.(fontSize := Some(config.fontSize),
           paddingLeft := Some(if p.leftIcon || p.leftElement then config.leftIconPadding else config.paddingHorizontal),
           paddingRight := Some(if p.rightIcon || p.rightElement then config.rightIconPadding
                                else config.paddingHorizontal))
  }

  /** The package's `secureTextEntry`, `editable` and password toggle: the
      same expressions as `src/`, so the same answers. */
  function PkgInputFlags(p: TextInputProps): (r: (bool, bool, Option<bool>))
    ensures r.0 == EffectiveSecureTextEntry(p) && r.1 == Editable(p) && r.2 == RightIconPress(p)
    ensures r.2.Some? ==> r.0 == !EffectiveSecureTextEntry(p.(showPassword := r.2))
  {
    var isPassword := p.SecureTextEntry() && p.showPassword.Some?;
    var shouldShow := isPassword && p.showPassword.value;
    (p.SecureTextEntry() && !shouldShow,
     !p.Disabled() && p.editable != Some(false),
     if isPassword && p.setShowPassword then Some(!p.showPassword.value) else None)
  }
}
