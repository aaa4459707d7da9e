/** The `src/` `TextInput` (src/text-input/text-input.tsx,
    src/text-input/styles.ts): the focus state its handlers update, the
    wrapper style written key by key from it, the input paddings, the
    password toggle and the accessibility props. */
module TextInput {
  import opened Wrappers
  import opened Styles
  import opened DefaultTheme
  import opened TextInputConstants

  /** The props the component reads. Icons, elements and the setters are
      reduced to "given"; `variant` is the string it holds at run time. */
  datatype TextInputProps = TextInputProps(
    size: Option<TextInputSize>,
    variant: Option<string>,
    placeholder: Option<string>,
    leftIcon: bool,
    rightIcon: bool,
    leftElement: bool,
    rightElement: bool,
    disabled: Option<bool>,
    errorBorder: Option<bool>,
    secureTextEntry: Option<bool>,
    showPassword: Option<bool>,
    setShowPassword: bool,
    editable: Option<bool>,
    cursorColor: Option<string>,
    placeholderTextColor: Option<string>,
    accessibilityLabel: Option<string>,
    errorMessage: Option<string>)
  {
    /** The defaults `size = 'md'`, `variant = 'default'`, `disabled = false`,
        `errorBorder = false`, `secureTextEntry = false`. */
    function Size(): TextInputSize { size.GetOr(InputMd) }
    function Variant(): string { variant.GetOr("default") }
    predicate Disabled() { disabled.GetOr(false) }
    predicate ErrorBorder() { errorBorder.GetOr(false) }
    predicate SecureTextEntry() { secureTextEntry.GetOr(false) }
  }

  /** A caller's handler the component forwarded an event to. */
  datatype HandlerCall = OnFocus | OnBlur

  /** The `isFocused` state of one mounted input, and the caller's handlers
      it has invoked so far. */
  class FocusState {
    var isFocused: bool
    var calls: seq<HandlerCall>

    /** `useState(false)`: a new input is not focused. */
    constructor()
      ensures !isFocused && calls == []
    {
      isFocused := false;
      calls := [];
    }

    /** `handleFocus`: marks the input focused, then calls `onFocus` when
        the caller gave one. */
    method HandleFocus(hasOnFocus: bool)
      modifies this
      ensures isFocused
      ensures calls == old(calls) + (if hasOnFocus then [OnFocus] else [])
    {
      isFocused := true;
      if hasOnFocus {
        calls := calls + [OnFocus];
      }
    }

    /** `handleBlur`: marks the input not focused, then calls `onBlur` when
        the caller gave one. */
    method HandleBlur(hasOnBlur: bool)
      modifies this
      ensures !isFocused
      ensures calls == old(calls) + (if hasOnBlur then [OnBlur] else [])
    {
      isFocused := false;
      if hasOnBlur {
        calls := calls + [OnBlur];
      }
    }

    /** The building of `inputWrapperStyles`: the height, radius and
        background first, then either the three focus-coloured sides and the
        error-coloured bottom, or one border colour for all sides. */
    method BuildWrapperStyles(p: TextInputProps, theme: Theme) returns (s: Style)
      ensures s == InputWrapperStyles(p, isFocused, theme)
    {
      var config := GetSizeConfig(p.Size());
      s := Empty.(height := Some(Points(config.height)), borderRadius := Some(config.borderRadius),
                  backgroundColor := Some(if p.Variant() == "filled" then theme.colors.neutral50
                                          else theme.colors.white900));
      if p.ErrorBorder() {
        s := s.(borderTopColor := Some(if isFocused then theme.colors.neutral500 else theme.colors.black300));
        s := s.(borderRightColor := Some(if isFocused then theme.colors.neutral500 else theme.colors.black300));
        s := s.(borderLeftColor := Some(if isFocused then theme.colors.neutral500 else theme.colors.black300));
        s := s.(borderBottomColor := Some(theme.colors.negative500));
      } else {
        s := s.(borderColor := Some(if isFocused then theme.colors.neutral500 else theme.colors.black300));
      }
    }
  }

  /** The border colour focus gives: neutral500 while focused, else black300. */
  function FocusColor(focused: bool, theme: Theme): (c: string)
    ensures focused ==> c == theme.colors.neutral500
    ensures !focused ==> c == theme.colors.black300
  {
    if focused then theme.colors.neutral500 else theme.colors.black300
  }

  /** `inputWrapperStyles` for a focus state. With `errorBorder` the bottom
      is always negative500 and the other three sides follow the focus;
      without it one border colour follows the focus. Height and radius come
      from the size; the background is neutral50 for the filled variant and
      white900 otherwise. */
  function InputWrapperStyles(p: TextInputProps, focused: bool, theme: Theme): (r: Style)
    ensures r.height == Some(Points(GetSizeConfig(p.Size()).height))
    ensures r.borderRadius == Some(GetSizeConfig(p.Size()).borderRadius)
    ensures r.backgroundColor ==
              Some(if p.Variant() == "filled" then theme.colors.neutral50 else theme.colors.white900)
    ensures p.ErrorBorder() ==>
              r.borderBottomColor == Some(theme.colors.negative500) &&
              r.borderTopColor == r.borderRightColor == r.borderLeftColor == Some(FocusColor(focused, theme)) &&
              r.borderColor.None?
    ensures !p.ErrorBorder() ==>
              r.borderColor == Some(FocusColor(focused, theme)) &&
              r.borderTopColor.None? && r.borderRightColor.None? && r.borderLeftColor.None? &&
              r.borderBottomColor.None?
    ensures r.(height := None, borderRadius := None, backgroundColor := None, borderColor := None,
               borderTopColor := None, borderRightColor := None, borderBottomColor := None,
               borderLeftColor := None) == Empty
  {
    var config := GetSizeConfig(p.Size());
    var base := Empty.(height := Some(Points(config.height)), borderRadius := Some(config.borderRadius),
                       backgroundColor := Some(if p.Variant() == "filled" then theme.colors.neutral50
                                               else theme.colors.white900));
    var edge := Some(FocusColor(focused, theme));
    if p.ErrorBorder() then
      base.(borderTopColor := edge, borderRightColor := edge, borderLeftColor := edge,
            borderBottomColor := Some(theme.colors.negative500))
    else base.(borderColor := edge)
  }

  /** Focusing an input turns every border that is not the error bottom
      neutral500, and blurring turns it back to black300; the error bottom
      stays negative500 either way. */
  lemma FocusRecolorsBorders(p: TextInputProps, theme: Theme)
    requires p.ErrorBorder()
    ensures InputWrapperStyles(p, true, theme).borderTopColor == Some(theme.colors.neutral500)
    ensures InputWrapperStyles(p, false, theme).borderTopColor == Some(theme.colors.black300)
    ensures InputWrapperStyles(p, true, theme).borderBottomColor ==
              InputWrapperStyles(p, false, theme).borderBottomColor
    ensures InputWrapperStyles(p, true, theme).(borderTopColor := None, borderRightColor := None,
                                                borderLeftColor := None) ==
            InputWrapperStyles(p, false, theme).(borderTopColor := None, borderRightColor := None,
                                                 borderLeftColor := None)
  {
  }

  /** The input wrapper's style `[inputWrapper, inputWrapperStyles,
      disabled && inputWrapperDisabled]`, flattened (opacity aside): a
      disabled input is always neutral50 behind. */
  function WrapperStyle(p: TextInputProps, focused: bool, theme: Theme): (r: Style)
    ensures p.Disabled() ==> r.backgroundColor == Some(theme.colors.neutral50)
    ensures !p.Disabled() ==> r.backgroundColor == InputWrapperStyles(p, focused, theme).backgroundColor
    ensures r.width == Some(Percent(100.0)) && r.borderWidth == Some(1.0)
  {
    var inputWrapper := Empty.(width := Some(Percent(100.0)), borderWidth := Some(1.0));
    var disabledLayer := if p.Disabled() then Empty.(backgroundColor := Some(theme.colors.neutral50)) else Empty;
    Overlay(Overlay(inputWrapper, InputWrapperStyles(p, focused, theme)), disabledLayer)
  }

  /** `textInputStyles`: the font size of the size, and on each side the
      icon padding when an icon or element sits there, else the plain
      horizontal padding. */
  function TextInputStyles(p: TextInputProps): (r: Style)
    ensures r.fontSize == Some(GetSizeConfig(p.Size()).fontSize)
    ensures r.paddingLeft == Some(if p.leftIcon || p.leftElement then GetSizeConfig(p.Size()).leftIconPadding
                                  else GetSizeConfig(p.Size()).paddingHorizontal)
    ensures r.paddingRight == Some(if p.rightIcon || p.rightElement then GetSizeConfig(p.Size()).rightIconPadding
                                   else GetSizeConfig(p.Size()).paddingHorizontal)
    ensures r.(fontSize := None, paddingLeft := None, paddingRight := None) == Empty
  {
    var config := GetSizeConfig(p.Size());
    Empty.(fontSize := Some(config.fontSize),
           paddingLeft := Some(if p.leftIcon || p.leftElement then config.leftIconPadding else config.paddingHorizontal),
           paddingRight := Some(if p.rightIcon || p.rightElement then config.rightIconPadding
                                else config.paddingHorizontal))
  }

  /** An icon never leaves less room than no icon, and the two sides are
      padded alike when they hold alike. */
  lemma PaddingsSymmetric(p: TextInputProps)
    ensures TextInputStyles(p).paddingLeft.value >= GetSizeConfig(p.Size()).paddingHorizontal
    ensures (p.leftIcon || p.leftElement) == (p.rightIcon || p.rightElement) ==>
              TextInputStyles(p).paddingLeft == TextInputStyles(p).paddingRight
  {
    IconRoom(p.Size(), p.Size());
  }

  /** `isPassword`: secure entry with a `showPassword` prop. */
  predicate IsPassword(p: TextInputProps) {
    p.SecureTextEntry() && p.showPassword.Some?
  }

  /** `shouldShowPassword`. */
  predicate ShouldShowPassword(p: TextInputProps) {
    IsPassword(p) && p.showPassword.value
  }

  /** `secureTextEntry && !shouldShowPassword`: the text is hidden when
      secure entry is asked for, unless `showPassword` is `true`. */
  function EffectiveSecureTextEntry(p: TextInputProps): (hidden: bool)
    ensures hidden <==> p.SecureTextEntry() && p.showPassword != Some(true)
  {
    p.SecureTextEntry() && !ShouldShowPassword(p)
  }

  /** `!disabled && editable !== false`. */
  function Editable(p: TextInputProps): (e: bool)
    ensures e <==> !p.Disabled() && p.editable != Some(false)
  {
    !p.Disabled() && p.editable != Some(false)
  }

  /** `accessibilityState`: only the disabled flag. */
  function AccessibilityDisabled(p: TextInputProps): (d: bool)
    ensures d == p.Disabled() && (d ==> !Editable(p))
  {
    p.Disabled()
  }

  /** `accessibilityLabel ?? placeholder`. */
  function AccessibilityLabel(p: TextInputProps): (announced: Option<string>)
    ensures p.accessibilityLabel.Some? ==> announced == p.accessibilityLabel
    ensures p.accessibilityLabel.None? ==> announced == p.placeholder
  {
    p.accessibilityLabel.OrElse(p.placeholder)
  }

  /** The right icon's `onPress`: the value passed to `setShowPassword`, or
      `None` when nothing is called (not a password field, or no setter). */
  function RightIconPress(p: TextInputProps): (r: Option<bool>)
    ensures r.Some? <==> IsPassword(p) && p.setShowPassword
    ensures r.Some? ==> r.value == !p.showPassword.value
  {
    if IsPassword(p) && p.setShowPassword then Some(!p.showPassword.value) else None
  }

  /** The right icon's `accessibilityLabel`: present only in password mode,
      "Hide password" while the password shows and "Show password" while it
      is hidden. */
  function RightIconLabel(p: TextInputProps): (announced: Option<string>)
    ensures announced.Some? <==> IsPassword(p)
    ensures announced == Some("Hide password") <==> ShouldShowPassword(p)
    ensures announced == Some("Show password") <==> IsPassword(p) && !ShouldShowPassword(p)
  {
    if IsPassword(p) then Some(if ShouldShowPassword(p) then "Hide password" else "Show password") else None
  }

  /** The right icon's `accessible` flag and `accessibilityRole`: a button
      only in password mode. */
  function RightIconRole(p: TextInputProps): (role: Option<string>)
    ensures role.Some? <==> IsPassword(p)
    ensures role.Some? ==> role.value == "button"
  {
    if IsPassword(p) then Some("button") else None
  }

  /** Pressing the password toggle flips what the field does: the next
      render shows the text it hid, announces the other action, and a second
      press restores the first state. */
  lemma ToggleFlipsVisibility(p: TextInputProps)
    requires IsPassword(p) && p.setShowPassword
    ensures var q := p.(showPassword := RightIconPress(p));
            EffectiveSecureTextEntry(q) == !EffectiveSecureTextEntry(p) &&
            RightIconLabel(q) != RightIconLabel(p) &&
            p.(showPassword := RightIconPress(q)) == p
  {
  }

  /** The colour of a left or right icon: neutral500 when disabled, else
      neutral800. */
  function IconColor(p: TextInputProps, theme: Theme): (c: string)
    ensures p.Disabled() ==> c == theme.colors.neutral500
    ensures !p.Disabled() ==> c == theme.colors.neutral800
  {
    if p.Disabled() then theme.colors.neutral500 else theme.colors.neutral800
  }

  /** `placeholderTextColor ?? neutral500` and `cursorColor ?? neutral900`. */
  function PlaceholderColor(p: TextInputProps, theme: Theme): (c: string)
    ensures p.placeholderTextColor.Some? ==> c == p.placeholderTextColor.value
    ensures p.placeholderTextColor.None? ==> c == theme.colors.neutral500
  {
    p.placeholderTextColor.GetOr(theme.colors.neutral500)
  }

  function CursorColor(p: TextInputProps, theme: Theme): (c: string)
    ensures p.cursorColor.Some? ==> c == p.cursorColor.value
    ensures p.cursorColor.None? ==> c == theme.colors.neutral900
  {
    p.cursorColor.GetOr(theme.colors.neutral900)
  }

  /** The error line: rendered for a non-empty message, as a polite alert in
      negative500 at font size 12. */
  datatype ErrorLine = ErrorLine(message: string, role: string, liveRegion: string, color: string, fontSize: real)

  function RenderErrorMessage(p: TextInputProps, theme: Theme): (e: Option<ErrorLine>)
    ensures e.Some? <==> TruthyString(p.errorMessage)
    ensures e.Some? ==> e.value == ErrorLine(p.errorMessage.value, "alert", "polite", theme.colors.negative500, 12.0)
  {
    if TruthyString(p.errorMessage) then
      Some(ErrorLine(p.errorMessage.value, "alert", "polite", theme.colors.negative500, 12.0))
    else None
  }

  /** Focus then blur leaves the borders as a fresh input draws them, and
      records both forwarded handlers in order. */
  method FocusThenBlur(p: TextInputProps, theme: Theme) returns (before: Style, during: Style, after: Style)
    ensures before == after == InputWrapperStyles(p, false, theme)
    ensures during == InputWrapperStyles(p, true, theme)
  {
    var state := new FocusState();
    before := state.BuildWrapperStyles(p, theme);
    state.HandleFocus(true);
    during := state.BuildWrapperStyles(p, theme);
    state.HandleBlur(true);
    after := state.BuildWrapperStyles(p, theme);
    assert state.calls == [OnFocus, OnBlur];
  }
}
