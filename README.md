# twigs-mobile style rules in Dafny

twigs-mobile is a React Native UI kit with two parallel component sets:
`src/` and the older `packages/`. Rendering and animation belong to the
platform. Every colour, size, spacing and accessibility value the kit hands
to the platform is decided by deterministic rules, and this project models
those rules and proves what they promise:

- **Colour opacity.** `colorOpacity` takes a hex colour and an opacity and
  returns the colour with two alpha digits appended.
- **Spacing resolution.** `resolveMargin` and `resolvePadding` pick each
  edge through a side, axis, uniform and default precedence chain.
- **Theme merging and selection.** `deepMerge`, `TwigsProvider` and
  `useTheme` merge a theme override into the default theme and select the
  theme in use. The default theme's token tables are modelled too.
- **Variant tables with fallbacks** for the button, alert, avatar, radio,
  switch, text input and loaders.
- **Per-component decisions.** These include:
  - the press guards;
  - the checkbox's tri-state toggle;
  - the derived accessibility labels, roles, states and live regions, and how a caller's own accessibility props override them;
  - the text input's focus state and password masking;
  - avatar initials.

## Representation

- **Numbers.** JavaScript numbers are `real`, and `undefined` is `None`.
- **Truthiness.** JavaScript truthiness is spelled out. A string is truthy when present and non-empty. A number is truthy when present and non-zero.
- **Styles.** A React Native style object is the `Styles.Style` record, with one optional field per key the kit writes. A style list `[a, b, c]` flattens to `Overlay(Overlay(a, b), c)`, where later entries win. A contract says "no other key" by clearing the keys it names and comparing the rest with `Empty`.
- **Theme.** The theme is a typed record of colour tokens and fonts (`DefaultTheme.Theme`). For the merge it becomes a JSON-like `ThemeContext.Value` tree, whose `Undefined` leaf stands for a source entry that is present but `undefined`.
- **Constant tables.** The kit's lookup tables are transcribed as functions over enumerated keys and carry no contract of their own. What the components rely on is stated by lemmas, each with its own row:
  - `AlertConstants.SizeConfig` and the four status colour tables (src/alert/constants.ts): `MdLargerThanSm`, `IconMatchesLine`, `StatusShades`, `StatusKeysResolve`;
  - `AvatarConstants.AvatarDimensions` and `AvatarBorderRadii` (src/avatar/constants.ts): `DimensionsSquareAndIncreasing`, `RadiiIncreasing`, `FullIsCircle`;
  - `TextInputConstants.GetSizeConfig` (src/text-input/constants.ts): `HeightsIncrease`, `PaddingSteps`, `IconRoom`;
  - `LoaderConstants.LineLoaderDimensions`, `CircleDiameter` and `CircleStrokeWidth` (src/loader/constants.ts): `LineHeightsIncrease`, `CircleTablesOrdered`, `CircleDiameterOf`, `CircleStrokeWidthOf`;
  - `ButtonConstants.Row`, `IconSizes`, `IconSpacing` and `OutlineBorderWidths` (src/button/constants.ts): `HeightsIncrease`, `IconButtonSquare`, `IconTablesMonotone`, `OutlineWidthsByGroup`;
  - the `ButtonHelpers` colour, text, spinner and pressed tables (src/button/helpers.ts): `ColorStyles`, `TextColor`, `LoadingSpinnerColor`, `PressedStyle`, `PressedPattern`, `GhostIsTransparent`;
  - the `PkgButton` size, colour and pressed tables (packages/button/button.tsx): `SizeStylesMatchSrc`, `ColorTableMatchesSrc`, `PressedStyleMatchesSrc`;
  - the `DefaultTheme` colours, space, sizes, font weights, transitions and radii (src/theme/default-theme.ts): `DefaultPaletteIsValid`, `SpaceScale`, `SizesScale`, `FontWeightsScale`, `TransitionsScale`, `RadiiOrder`.
- **Imperative code.** Code that the source writes step by step is written as methods, each proved equal to a specification function:
  - `deepMerge`'s loop over the source keys;
  - the field writes into `inputWrapperStyles`, the button `styleObj` and the `dynamicStyles` of `Flex` and `Text`.
- **Text-input focus.** The text input's `isFocused` state is the `TextInput.FocusState` class. Its focus and blur methods flip the field and record which caller handlers were invoked.
- **`packages/` modules.** Each `packages/` module repeats a `src/` rule with its own code. Its members are proved to agree with their `src/` counterparts, and each difference is stated as a lemma.

The code is followed where the types or the documentation say otherwise:

- **Unknown button colours.** An unknown button colour (`bright`, `light`, `error`) falls back to primary/solid. These colours are allowed by the types but missing from the helper tables.
- **Total `colorOpacity`.** `colorOpacity` is modelled as a total function, because it never throws. The well-formedness of the colour appears only in the requires of the lemmas about its output format.

## Model

| member | source | states |
|---|---|---|
| Wrappers.IfTruthy | packages/flex/flex.tsx:41-43 | the result is present exactly when the string is defined and non-empty, and then it is that string |
| Styles.Overlay | src/separator/separator.tsx:41 | a spread or flattened style list is empty exactly when both of its layers are empty |
| Styles.OverlayEmpty | src/separator/separator.tsx:41 | an empty object in a style list changes nothing, on either side |
| Styles.OverlayAssociative | src/separator/separator.tsx:41 | flattening `[a, b, c]` gives the same style however the list is grouped |
| Styles.OverlayIdempotent | src/separator/separator.tsx:41 | overlaying the same later layer twice equals overlaying it once |
| Elements.SpreadRest | src/checkbox/checkbox.tsx:65-73 | a trailing `{...rest}` replaces each accessibility key the caller passes, wholesale, and keeps every other computed key |
| Elements.SpreadRestLaws | src/checkbox/checkbox.tsx:73 | spreading nothing keeps the computed props, spreading the same props twice is spreading them once, and a caller who passes every key gets exactly their own |
| Utils.FirstDefined | src/utils/index.ts:87-90 | a `??` chain yields its first defined link, or the default when no link is defined |
| Utils.ChainOfThree | src/utils/index.ts:87-90 | the three-link chain `side ?? axis ?? all ?? default` picks the first defined of the three, else the default |
| Utils.ResolveMargin | src/utils/index.ts:86-91 | each edge is its own side value, else its axis value, else `margin`, else the default |
| Utils.ResolvePadding | src/utils/index.ts:93-98 | the same precedence over the `padding*` props |
| Utils.NoSpacingGivesDefault | src/utils/index.ts:86-98 | with no prop set all four edges are the default spacing |
| Utils.PaddingIsRenamedMargin | src/utils/index.ts:86-98 | padding resolution is margin resolution under the renaming, with values passed through unclamped |
| Utils.SideFieldOnlyAffectsItsEdge | src/utils/index.ts:86-91 | setting one side prop sets that edge to its value and leaves the other three edges as they were |
| Utils.AxisFieldOnlyAffectsItsAxis | src/utils/index.ts:86-91 | `marginVertical` cannot change left or right, `marginHorizontal` cannot change top or bottom |
| Utils.AlphaByte | src/utils/index.ts:133 | the alpha byte lies in 0..255; opacity at or below 0 gives 0, at or above 1 gives 255 |
| Utils.DigitCase | src/utils/index.ts:134-136 | upper-casing the lower-case hex digit of a value gives the upper-case digit of that value, which reads back as the value |
| Utils.ToUpper | src/utils/index.ts:136 | upper-casing keeps the length and maps each character on its own |
| Utils.HexValue | src/utils/index.ts:133-136 | a hex digit of either case has a value below 16 |
| Utils.AlphaSuffix | src/utils/index.ts:133-136 | the alpha pair is two upper-case hex digits that read back as the clamped, rounded opacity byte |
| Utils.AlphaDigits | src/utils/index.ts:134-136 | a byte printed in hex, padded to two characters and upper-cased is its high digit then its low digit |
| Utils.AlphaSuffixOf | src/utils/index.ts:133-136 | an opacity whose rounded byte is n has the upper-case digits of n as its alpha pair |
| Utils.ColorOpacityBase | src/utils/index.ts:111-139 | for every input, `colorOpacity` gives `#`, then the input's own base digits (the first six of six or eight digits; each of the first three doubled for three or four digits; any other input as it is), in the input's case, then the alpha pair of the opacity |
| Utils.ColorOpacityFormat | src/utils/index.ts:111-139 | for a well-formed colour the result is `#`, six hex digits and two upper-case alpha digits whose value is the rounded, clamped opacity |
| Utils.ColorOpacityKeepsCase | src/utils/index.ts:112-131 | lower-case input keeps its case: `#abc` at opacity 1 gives `#aabbccFF`, and `00828dff` at 0.1 gives `#00828d1A` |
| Utils.AlphaOverride | src/utils/index.ts:112-122 | the input's alpha is dropped: applying opacity o1 and then o2 equals applying o2 alone |
| Utils.OpacityClamps | src/utils/index.ts:133 | opacity at or below 0 yields alpha `00`, opacity at or above 1 yields `FF`, after the colour's base digits |
| Utils.ColorOpacityExamples | src/utils/index.ts:107-109 | `('#00828D', 0.1)` gives `#00828D1A` and `('#64748B', 0.8)` gives `#64748BCC` |
| Utils.ColorOpacityMoreExamples | src/utils/index.ts:111-139 | `('#E75030', 0.05)` gives `#E750300D` and `('#00828D', 0.4)` gives `#00828D66` |
| Utils.ColorOpacityBounds | src/utils/index.ts:133 | opacity 0 and opacity 1 on `#FF0000` give `#FF000000` and `#FF0000FF` |
| Utils.ColorOpacityInputForms | src/utils/index.ts:112-131 | an eight-digit input loses its alpha and `#F00` expands to `FF0000` |
| Utils.ColorOpacityClampedExamples | src/utils/index.ts:133 | opacities -0.5 and 1.5 clamp to `00` and `FF` |
| Utils.CreateTextStyle | src/utils/index.ts:141-163 | the family is always set; a weight is set exactly when the family is `'System'` and a non-empty weight is given, and then it is that weight |
| PkgUtils.ResolveMargin | packages/utils/index.ts:52-57 | the published margin resolution gives the same edges as `src/` for every input |
| PkgUtils.ResolvePadding | packages/utils/index.ts:59-64 | the published padding resolution gives the same edges as `src/` for every input |
| PkgUtils.CreateTextStyle | packages/utils/index.ts:66-77 | the published text style equals the `src/` one for every family and weight |
| PkgUtils.EmptyPropsGiveDefault | packages/utils/index.ts:52-64 | with no props both resolutions give the default spacing on every edge |
| DefaultTheme.Decimal | src/theme/default-theme.ts:336-387 | the key of a numbered scale entry is a non-empty string of decimal digits |
| DefaultTheme.DecimalRoundTrip | src/theme/default-theme.ts:336-387 | a scale key read back as a number gives its index, so no two entries share a key |
| DefaultTheme.SpaceScale | src/theme/default-theme.ts:336-387 | `space` has exactly the keys 1..50, and entry k is 2k |
| DefaultTheme.SizesScale | src/theme/default-theme.ts:438-473 | `sizes` has exactly the keys 1..34, and entry k is 4k |
| DefaultTheme.FontWeightsScale | src/theme/default-theme.ts:410-420 | `fontWeights` has exactly the keys 1..9, and entry k is the string of 100k |
| DefaultTheme.TransitionsScale | src/theme/default-theme.ts:508-512 | `transitions` has exactly the keys 1..3, and entry k is 100k milliseconds |
| DefaultTheme.RadiiOrder | src/theme/default-theme.ts:487-499 | `none` is 0, `round` and `pill` are 9999, and none < xs < ... < 4xl < round |
| DefaultTheme.TokenColorIsWellFormed | src/theme/default-theme.ts:230-333 | a colour token, `#` with six or eight upper-case hex digits, is valid input to `colorOpacity` |
| DefaultTheme.BaseTokensValid | src/theme/default-theme.ts:231-232 | `primary` and `secondary` are colour tokens |
| DefaultTheme.AccentTokensValid | src/theme/default-theme.ts:233-242 | every accent shade is a colour token |
| DefaultTheme.PrimaryTokensValid | src/theme/default-theme.ts:243-252 | every primary shade is a colour token |
| DefaultTheme.WarningTokensValid | src/theme/default-theme.ts:253-262 | every warning shade is a colour token |
| DefaultTheme.HighlightTokensValid | src/theme/default-theme.ts:263-272 | every highlight shade is a colour token |
| DefaultTheme.PositiveTokensValid | src/theme/default-theme.ts:273-282 | every positive shade is a colour token |
| DefaultTheme.SecondaryTokensValid | src/theme/default-theme.ts:283-292 | every secondary shade is a colour token |
| DefaultTheme.NegativeTokensValid | src/theme/default-theme.ts:293-302 | every negative shade is a colour token |
| DefaultTheme.NeutralTokensValid | src/theme/default-theme.ts:303-312 | every neutral shade is a colour token |
| DefaultTheme.BlackTokensValid | src/theme/default-theme.ts:313-322 | every black shade is a colour token |
| DefaultTheme.WhiteTokensValid | src/theme/default-theme.ts:323-332 | every white shade is a colour token |
| DefaultTheme.DefaultPaletteIsValid | src/theme/default-theme.ts:230-333 | all 102 default colours are `#` plus six or eight upper-case hex digits |
| DefaultTheme.BlackAndWhiteAlpha | src/theme/default-theme.ts:313-332 | `black900` and `white900` are opaque six-digit colours; every lighter black and white step carries an alpha pair |
| DefaultTheme.DefaultFontsKeepWeights | src/theme/default-theme.ts:403-407 | the three default families are the platform font, so a text style keeps any non-empty weight |
| DefaultTheme.ColorOf | src/theme/default-theme.ts:230-333 | a family-and-shade key names a colour exactly when the shade is 50 or a hundred from 100 to 900 |
| ThemeContext.PlainObjectIsObj | packages/context/theme-context.tsx:16-23 | the guard `v && typeof v === 'object' && !Array.isArray(v)` holds exactly for non-null, non-array objects |
| ThemeContext.Merge | packages/context/theme-context.tsx:8-32 | the merged object keeps every target key and adds no key that is in neither the target nor the source |
| ThemeContext.Restrict | packages/context/theme-context.tsx:11-12 | the source keys visited so far are the source's keys within the visited set |
| ThemeContext.MergeStep | packages/context/theme-context.tsx:13-27 | visiting one more source key recurses into two plain objects, writes any other defined value, and skips `undefined`, changing only that key |
| ThemeContext.DeepMerge | packages/context/theme-context.tsx:8-32 | the copy-then-visit loop yields the key-by-key merge of the target and the source, whatever the visiting order |
| ThemeContext.MergeKeepsTarget | packages/context/theme-context.tsx:9-27 | every target key survives; keys the source omits or sets to `undefined` keep the target's value |
| ThemeContext.MergeReplaces | packages/context/theme-context.tsx:25-26 | a defined source value that is not an object over an object replaces the target's entry as it is |
| ThemeContext.MergeRecurses | packages/context/theme-context.tsx:16-24 | two objects under one key merge recursively |
| ThemeContext.SelfMerge | packages/context/theme-context.tsx:8-32 | merging an object into itself gives it back |
| ThemeContext.MergeIdempotent | packages/context/theme-context.tsx:8-32 | applying the same override twice equals applying it once |
| ThemeContext.MergeEmpty | packages/context/theme-context.tsx:8-32 | an empty override returns the target unchanged |
| ThemeContext.LeafOverride | packages/context/theme-context.tsx:16-26 | overriding `{group: {key: x}}` with a non-object x changes the target at `group.key` and nowhere else |
| ThemeContext.SameShapeReflexive | packages/context/theme-context.tsx:4-6 | every theme value has its own shape |
| ThemeContext.MergeKeepsShape | packages/context/theme-context.tsx:4-32 | an override fitting the `DeepPartial` type keeps the theme's keys at every level and the kind of every leaf |
| ThemeContext.DecimalInjective | src/theme/default-theme.ts:336-387 | distinct numbers give distinct scale keys |
| ThemeContext.NumberedLookup | src/theme/default-theme.ts:336-387 | a numbered scale holds entry k under the key of k |
| ThemeContext.SpaceValue | src/theme/default-theme.ts:336-387 | the default theme object holds 2k under `space['k']` for k in 1..50 |
| ThemeContext.TwigsProvider | packages/context/theme-context.tsx:41-50 | without a custom theme the provider supplies the default theme, else the custom theme merged into the default |
| ThemeContext.UseTheme | packages/context/theme-context.tsx:52-55 | a truthy context value is returned as it is, a falsy one gives the default theme, so the result is always truthy |
| ThemeContext.NestedProvidersDoNotCompose | packages/context/theme-context.tsx:41-55 | providers do not compose: under an outer provider that changes `fonts.regular`, an inner provider with an empty override gives its children the plain default theme, which differs from the outer one |
| ThemeContext.PrimaryOverride | packages/context/theme-context.tsx:41-50 | a provider overriding `colors.primary500` gives the default theme with that one token replaced |
| ButtonConstants.ParseButtonSize | src/button/constants.ts:59-67 | a size string names a size exactly when it is that size's key |
| ButtonConstants.SizeNameRoundTrip | src/button/constants.ts:59-67 | each of the seven size keys parses back to its own size |
| ButtonConstants.BuildSizeConfig | src/button/constants.ts:30-57 | the normal config keeps both paddings and is `'auto'` wide; the icon config has no padding and the fixed icon width; both share height, radius, font size and icon size |
| ButtonConstants.GetButtonSizeConfig | src/button/constants.ts:69-71 | icon mode gives zero padding and the icon width, normal mode the size's paddings and `'auto'`; height, radius, font and icon size come from the size's row either way |
| ButtonConstants.NormalAndIconShare | src/button/constants.ts:38-57 | the two configs of one size differ only in their paddings and width |
| ButtonConstants.HeightsIncrease | src/button/constants.ts:59-67 | a larger size is strictly taller |
| ButtonConstants.IconButtonSquare | src/button/constants.ts:59-67 | the icon-only button is square for every size except xl, which is 48 wide and 44 high |
| ButtonConstants.IconTablesMonotone | src/button/constants.ts:73-93 | icon sizes and icon spacings are positive and never shrink as the size grows |
| ButtonConstants.OutlineWidthsByGroup | src/button/constants.ts:95-107 | outline widths are 1 for xxs to sm, 1.5 for md and 2 for lg to 2xl |
| ButtonHelpers.ParseColor | src/button/helpers.ts:33-59 | a colour string has a table row exactly when it is primary, secondary, default, negative or neutral |
| ButtonHelpers.ParseVariant | src/button/helpers.ts:33-59 | a variant string has a table column exactly when it is solid, ghost or outline |
| ButtonHelpers.SizeOrSm | src/button/helpers.ts:120 | a known size string selects its size; any other string selects sm |
| ButtonHelpers.SizeStyles | src/button/helpers.ts:9-24 | height, radius and both paddings of the size's config; `width` exactly in icon mode, then the icon width; no other key |
| ButtonHelpers.GetSizeStyles | src/button/helpers.ts:9-24 | building the object and then writing `width` in icon mode yields the size styles |
| ButtonHelpers.SizeStylesExamples | src/button/helpers.ts:9-24 | md in icon mode is 32 wide with no padding; md in normal mode has no width and 12 horizontal padding |
| ButtonHelpers.LookupColorConfig | src/button/helpers.ts:61 | a known colour and variant select their entry; any other pair selects primary solid |
| ButtonHelpers.ColorStyles | src/button/helpers.ts:28-70 | the entry's background; border width 1.5 and the entry's border colour exactly when the entry has a non-empty border; no other key |
| ButtonHelpers.GetColorStyles | src/button/helpers.ts:62-69 | setting the background and then the guarded border fields yields the colour styles |
| ButtonHelpers.OnlyOutlineHasBorder | src/button/helpers.ts:33-67 | a border is drawn only for the outline variant of a known colour, and under the default theme every outline entry draws one |
| ButtonHelpers.GhostIsTransparent | src/button/helpers.ts:35-56 | every ghost entry has a transparent background; primary solid is filled with `primary500` |
| ButtonHelpers.ButtonStyles | src/button/helpers.ts:74-89 | each key comes from the size styles or the colour styles, which never share a key, so the spread order does not matter |
| ButtonHelpers.TextColor | src/button/helpers.ts:112-121 | an unknown colour or variant gives `white900`; a known pair with a non-empty entry gives that entry |
| ButtonHelpers.ButtonTextStyles | src/button/helpers.ts:91-128 | font size and family of the size's entry (sm for an unknown size), a weight exactly on the `'System'` family, the text colour, and no other key |
| ButtonHelpers.ButtonTextStylesExamples | src/button/helpers.ts:102-126 | an unknown size gives 14; primary solid text is `white900`, primary ghost text `primary500`; md under the default theme keeps weight 700 |
| ButtonHelpers.IconSize | src/button/helpers.ts:132-133 | a known size gives its icon size; an unknown size gives 16, the sm entry |
| ButtonHelpers.IconContainerStyles | src/button/helpers.ts:135-146 | a left icon gets `marginRight`, a right icon `marginLeft`, each the size's icon spacing (sm for unknown sizes); any other position gets no style |
| ButtonHelpers.LoadingSpinnerColor | src/button/helpers.ts:148-164 | white on a solid button of any colour but `default`; otherwise the colour's entry, or `primary500` when there is none |
| ButtonHelpers.SpinnerExamples | src/button/helpers.ts:153-163 | a default-coloured spinner is `secondary600` in every variant; an unknown colour on a solid button is white |
| ButtonHelpers.PressedStyle | src/button/helpers.ts:166-199 | a known colour and variant get their entry of the pressed table, an unknown pair `primary600` alone; every pressed style has a background, and a border colour exactly for outline on a known colour |
| ButtonHelpers.PressedPattern | src/button/helpers.ts:170-196 | the pressed table's pattern: solid presses to the colour's pressed shade (600, negative 700); for every colour but `default`, ghost is the solid background at 15% and outline the solid background at 5% inside an 80% border; the `default` ghost and outline press to black50, the outline with an 80% secondary500 border |
| ButtonHelpers.ButtonLoaderMargin | src/button/helpers.ts:201-202 | the loader margin equals the spacing a left icon gets, 2 for an unknown size |
| ButtonHelpers.UnknownColorFallsBack | src/button/helpers.ts:61-198 | the colours `bright`, `light` and `error`, which the tables lack, draw as primary solid in the colour, text and pressed helpers |
| Button.Defaults | src/button/button.tsx:75-79 | with no props the button is sm, primary and solid, and neither disabled nor loading |
| Button.HandlePress | src/button/button.tsx:113-120 | a press reaches `onPress` exactly when the button is neither disabled nor loading and a handler is given |
| Button.DisabledOrLoadingSwallowsPress | src/button/button.tsx:115 | a disabled or loading button forwards no press, even with a handler |
| Button.ButtonAccessibilityState | src/button/button.tsx:191 | the state reports `disabled` and reports `busy` exactly while loading |
| Button.ButtonAccessibilityLabel | src/button/button.tsx:192 | the caller's label wins; otherwise "Button" for an icon-only button without children, else no label |
| Button.LabelFallbackOnlyForIconOnly | src/button/button.tsx:192 | without an explicit label, a label is announced exactly when the button is icon-only and has no children |
| Button.PressableA11y | src/button/button.tsx:189-201 | the pressable is accessible with the `button` role and the `{disabled, busy}` state unless the caller's `{...rest}` passes those keys, which then win wholesale; the label is the same before and after the spread; hint and value are the caller's |
| Button.PressableStyle | src/button/button.tsx:193-200 | without caller overrides the background is the pressed one exactly while a press shows on an enabled, idle button; the caller's `style` wins; the height falls back to the size's height |
| Button.SideElement | src/button/button.tsx:30-61 | a loading slot shows the loader in the spinner colour at the button's size, else an icon at its own `size` if it has one and at the size's icon size otherwise, else nothing; a shown slot is wrapped in the position's icon spacing then the container style |
| Button.OwnIconSizeWins | src/button/button.tsx:52-55 | on a small button an icon with its own size 24 is drawn at 24, one without a size at 16 |
| Button.RenderContent | src/button/button.tsx:131-183 | icon mode shows only the centre slot; otherwise the left slot appears for a left icon or a loading button without icons, shows the loader only then, and carries the loader margin; the label appears with children, the right slot with a right icon |
| Button.LoaderPlacement | src/button/button.tsx:146-175 | a loading button with only a right icon shows its loader on the right only; one with no icons shows it on the left |
| PkgButton.Split | packages/button/button.tsx:212 | splitting on a separator always gives at least one part |
| PkgButton.SplitJoin | packages/button/button.tsx:212 | joining the parts with the separator gives back the string, so splitting loses nothing |
| PkgButton.SplitAt | packages/button/button.tsx:212 | a separator-free piece followed by the separator splits off as one part, and a separator-free string is a single part |
| PkgButton.DigitPrefix | packages/button/button.tsx:212 | the leading digit run is a prefix of the token made only of decimal digits |
| PkgButton.ParseInt | packages/button/button.tsx:212 | `parseInt` gives a number exactly when the token starts with a digit, and that number is non-negative |
| PkgButton.DigitPrefixOf | packages/button/button.tsx:212 | digits followed by a non-digit (or nothing) have exactly those digits as their leading run |
| PkgButton.ParseIntOfDecimal | packages/button/button.tsx:212 | a number written in decimal with a unit after it reads back as that number |
| PkgButton.PaddingValues | packages/button/button.tsx:212 | one parsed value per space-separated token, each the `parseInt` of its token |
| PkgButton.PaddingPair | packages/button/button.tsx:151-212 | `"{a}px {b}px"` reads back as `[a, b]` and `"{a}px"` as `[a]` |
| PkgButton.SizeStyles | packages/button/button.tsx:151-231 | height and radius of the size; two padding tokens give vertical and horizontal padding, otherwise the first token is the uniform `padding`; `width` only in icon mode with a numeric width; no other key |
| PkgButton.GetSizeStyles | packages/button/button.tsx:151-231 | building the object and writing the padding and width fields by branch, with the defaults sm and not-icon, yields the size styles |
| PkgButton.PaddingLiteral | packages/button/button.tsx:154-204 | a padding literal of two `px` numbers parses to those two numbers |
| PkgButton.PaddingLiterals | packages/button/button.tsx:151-212 | every icon-mode padding is `[0]`; every normal padding is two numbers equal to the `src/` paddings of that size |
| PkgButton.SizeStylesMatchSrc | packages/button/button.tsx:151-231 | without an icon the published size styles equal the `src/` ones; in icon mode the two zero paddings become one `padding: 0` |
| PkgButton.LookupColorConfig | packages/button/button.tsx:331 | a known colour and variant select their entry; any other pair selects primary solid |
| PkgButton.ColorStyles | packages/button/button.tsx:233-343 | the entry's background; border width 1.5 and the entry's border colour exactly when the entry has a non-empty border; no other key |
| PkgButton.GetColorStyles | packages/button/button.tsx:233-343 | with the defaults primary and solid, setting the background and then the guarded border yields the colour styles |
| PkgButton.AlphaPairsLow | packages/button/button.tsx:238-330 | opacities 0.10, 0.05, 0.40 and 0.20 have the alpha pairs `1A`, `0D`, `66` and `33` |
| PkgButton.AlphaPairsHigh | packages/button/button.tsx:238-330 | opacities 0.08, 0.15 and 0.80 have the alpha pairs `14`, `26` and `CC` |
| PkgButton.PrimaryLiterals | packages/button/button.tsx:238-330 | the primary hex literals are `colorOpacity` of the default `primary500` |
| PkgButton.SecondaryLiterals | packages/button/button.tsx:238-330 | the secondary and default hex literals are `colorOpacity` of the default `secondary500` |
| PkgButton.NegativeLiterals | packages/button/button.tsx:238-330 | the negative hex literals are `colorOpacity` of the default `negative600` |
| PkgButton.NeutralLiterals | packages/button/button.tsx:238-330 | the neutral hex literals are `colorOpacity` of the default `neutral500` |
| PkgButton.ColorTableMatchesSrc | packages/button/button.tsx:238-330 | under the default theme the published colour table equals the `src/` table entry for entry |
| PkgButton.ColorStylesMatchSrc | packages/button/button.tsx:233-343 | under the default theme the published colour styles equal the `src/` ones for every colour and variant string |
| PkgButton.ButtonTextStyles | packages/button/button.tsx:345-405 | the published text style equals the `src/` one for every input, 14 points for an unknown size |
| PkgButton.IconContainerStyles | packages/button/button.tsx:407-432 | the published icon margins equal the `src/` ones for every position and size |
| PkgButton.LoaderMargin | packages/button/button.tsx:547-558 | the component's loader margin equals the `src/` helper's, 2 for an unknown size |
| PkgButton.IconSize | packages/button/button.tsx:434-445 | the published icon size equals the `src/` one, 16 for an unknown size |
| PkgButton.LoadingSpinnerColor | packages/button/button.tsx:447-465 | the published spinner colour equals the `src/` one; a solid button of any colour but `default` gets `white900` |
| PkgButton.HandlePress | packages/button/button.tsx:560-567 | a press is forwarded exactly when neither disabled nor loading and a handler is given, as in `src/` |
| PkgButton.PressedStyle | packages/button/button.tsx:569-599 | a known colour and variant get their entry of the package's pressed table, an unknown pair `primary600` alone; every pressed style has a background, and a border colour exactly for outline on a known colour |
| PkgButton.PressedStyleMatchesSrc | packages/button/button.tsx:569-599 | under the default theme the component's pressed table equals the `src/` one entry for entry |
| PkgButton.PressedStyleEqualsSrc | packages/button/button.tsx:569-599 | for every colour and variant string, the package's pressed style under the default theme is the `src/` one, so it follows `ButtonHelpers.PressedPattern` |
| PkgButton.PressableStyle | packages/button/button.tsx:673-680 | without caller overrides the background is the pressed one exactly while a press shows on an enabled, idle button; the caller's `style` wins |
| AlertConstants.StatusShades | src/alert/constants.ts:41-71 | each status uses one colour family: background shade 100, border 200, text 700, and icon 500, except warnings whose icon is 600 |
| AlertConstants.StatusKeysResolve | src/alert/constants.ts:41-71 | every key in the four status tables names a theme colour, so no lookup yields `undefined` |
| AlertConstants.InfoBgKeyName | src/alert/constants.ts:43 | the info background key is spelled `'accent100'` |
| AlertConstants.WarningIconKeyName | src/alert/constants.ts:61 | the warning icon key is spelled `'warning600'` |
| AlertConstants.MdLargerThanSm | src/alert/constants.ts:14-33 | the md alert is strictly larger than the sm alert in every dimension |
| AlertConstants.IconMatchesLine | src/alert/constants.ts:14-33 | in both sizes the line height exceeds the font size and the icon is exactly one line tall |
| AlertHelpers.SizeStyles | src/alert/helpers.ts:13-21 | both paddings, the radius and the gap of the size, and no other key |
| AlertHelpers.StatusContainerStyles | src/alert/helpers.ts:24-33 | the defined theme colours of the status's background and border keys, a one-point border, and no other key |
| AlertHelpers.IconColor | src/alert/helpers.ts:36-39 | the theme colour named by the status's icon key |
| AlertHelpers.TextStyles | src/alert/helpers.ts:42-52 | the defined text colour of the status, the size's font size and line height, `flex: 1`, and no other key |
| AlertHelpers.IconSize | src/alert/helpers.ts:55-57 | 20 for sm and 24 for md, equal to the size's line height |
| AlertHelpers.InfoAlertColors | src/alert/helpers.ts:24-52 | under the default theme an info alert uses accent100 behind, accent200 around, an accent500 icon and accent700 text |
| AlertHelpers.WarningIconIsDarker | src/alert/helpers.ts:36-39 | under the default theme the warning icon is warning600, while error and success icons use their 500 shades |
| Alert.Defaults | src/alert/alert.tsx:23-31 | with no props the alert is a small info alert that is accessible and not closable |
| Alert.LiveRegion | src/alert/alert.tsx:67 | the caller's live region wins; otherwise `'polite'` exactly for error and warning and `'none'` exactly for info and success |
| Alert.OnlyProblemsAreAnnounced | src/alert/alert.tsx:67 | a default alert is not announced; error and warning alerts are announced politely |
| Alert.Role | src/alert/alert.tsx:73 | the caller's role, else `'alert'` |
| Alert.ViewAccessibility | src/alert/alert.tsx:71-76 | the container is accessible unless the caller passes `false`, and gets the resolved role and live region; with no props it is an accessible `'alert'` with live region `'none'` |
| Alert.CloseIconSize | src/alert/alert.tsx:49 | the close icon is 4 points smaller than the status icon: 16 for sm, 20 for md |
| Alert.RenderIcon | src/alert/alert.tsx:52-63 | a caller's icon becomes a square of the icon size, otherwise the status's own icon at that size; both take the status's icon colour |
| Alert.ContainerStyle | src/alert/alert.tsx:78 | without overrides a row with the size's padding and gap, the status's colours and a one-point border; `style` wins over `css`, which wins over the computed keys |
| Alert.ContentTextStyle | src/alert/alert.tsx:84 | string children get a text style in the status's text colour at the size's font size; other children get none |
| Alert.RenderCloseButton | src/alert/alert.tsx:87-99 | the close button appears exactly when the alert is closable and has a handler; it is a button labelled "Close alert" with the dismiss hint, its icon 4 points below the status icon in the icon colour |
| Alert.CloseNeedsBoth | src/alert/alert.tsx:87 | without `closable`, or without a handler, no close button appears |
| AvatarConstants.ParseRounding | src/avatar/constants.ts:28-37 | a string names at most one rounding, and only the exact key spelling does |
| AvatarConstants.RoundingNameRoundTrip | src/avatar/constants.ts:28-37 | every rounding's key parses back to that rounding |
| AvatarConstants.DimensionsSquareAndIncreasing | src/avatar/constants.ts:3-13 | every avatar size is square, and a larger size is strictly wider |
| AvatarConstants.FontSizesNonDecreasing | src/avatar/constants.ts:15-25 | a larger size never has a smaller font, and every font is positive and smaller than its avatar |
| AvatarConstants.RadiiIncreasing | src/avatar/constants.ts:28-37 | the radius strictly increases from xs to full, and full is 999 |
| AvatarConstants.FullIsCircle | src/avatar/constants.ts:3-37 | the full radius is at least half of every avatar width, so a full avatar is a circle |
| AvatarHelpers.AvatarBorderRadius | src/avatar/helpers.ts:5-6 | the table's radius for a known rounding, and 999 for any other string |
| AvatarHelpers.BorderRadiusLookup | src/avatar/helpers.ts:5-6 | each rounding's key gets its table radius, and an unknown key is rounded like `'full'` |
| AvatarHelpers.Upper | src/avatar/helpers.ts:13-14 | `toUpperCase` on ASCII: a lower-case letter moves 32 code points down, any other character is kept |
| AvatarHelpers.TrimStart | src/avatar/helpers.ts:10 | the result is no longer than the input, does not start with white space, and keeps a last character that is not white space |
| AvatarHelpers.TrimEnd | src/avatar/helpers.ts:10 | the result is no longer than the input, does not end with white space, and keeps a first character that is not white space |
| AvatarHelpers.Trim | src/avatar/helpers.ts:10 | the trimmed name is empty or starts and ends with a character that is not white space |
| AvatarHelpers.SplitWs | src/avatar/helpers.ts:10 | splitting on runs of white space gives at least one piece, and the first piece starts with the string's first character when that is not white space |
| AvatarHelpers.SplitTailNonEmpty | src/avatar/helpers.ts:10 | when the string does not end in white space, every piece after the first is non-empty |
| AvatarHelpers.WordsNonEmpty | src/avatar/helpers.ts:10-11 | the words of a non-blank name are all non-empty, and the first starts with the name's first non-space character |
| AvatarHelpers.FallbackInitials | src/avatar/helpers.ts:9-16 | at most two letters; empty exactly for a blank name; the first is the upper-cased first character; two letters exactly when the name has two or more words |
| AvatarHelpers.InitialsOfFirstAndLast | src/avatar/helpers.ts:11-15 | with two or more words the initials are the upper-cased first letters of the first and the last word, skipping middle names |
| AvatarHelpers.TrimStartSkipsSpace | src/avatar/helpers.ts:10 | leading white space does not change the trimmed start |
| AvatarHelpers.TrimEndSkipsSpace | src/avatar/helpers.ts:10 | trailing white space does not change the trimmed end |
| AvatarHelpers.TrimStartAppend | src/avatar/helpers.ts:10 | trimming the start of a string that is not all space does not touch what follows it |
| AvatarHelpers.TrimStartOfBlank | src/avatar/helpers.ts:10 | a string of white space trims to the empty string |
| AvatarHelpers.SurroundingSpaceTrimmed | src/avatar/helpers.ts:10 | white space around a name does not change the trimmed name |
| AvatarHelpers.SurroundingSpaceIgnored | src/avatar/helpers.ts:9-16 | white space around a name does not change its initials |
| AvatarHelpers.SplitAfterWord | src/avatar/helpers.ts:10 | a word at the front of a string is glued onto the first piece of the rest |
| AvatarHelpers.OneWord | src/avatar/helpers.ts:10 | a single word trims to itself and is its own only word |
| AvatarHelpers.TwoWords | src/avatar/helpers.ts:10 | two words separated by white space split into exactly those two words |
| AvatarHelpers.InitialOfOneWord | src/avatar/helpers.ts:11-15 | a one-word name gives its upper-cased first letter alone |
| AvatarHelpers.InitialsOfTwoWords | src/avatar/helpers.ts:11-15 | a two-word name gives the upper-cased first letters of both words |
| AvatarHelpers.InitialsExamples | src/avatar/helpers.ts:9-16 | "John Doe" gives "JD" and "jane smith" gives "JS" |
| AvatarHelpers.SingleInitialExamples | src/avatar/helpers.ts:9-16 | "John" gives "J" and the default name "?" gives "?" |
| AvatarHelpers.InitialsIgnoreExtraSpace | src/avatar/helpers.ts:10 | "  Alice   Bob  " gives "AB" |
| Avatar.AvatarBox | src/avatar/avatar.tsx:27-28 | a given size decides both dimensions from the table; otherwise the given width and height, each 32 by default |
| Avatar.SizeOverridesDimensions | src/avatar/avatar.tsx:27-28 | with a size, the width and height props are ignored and the box is square; with no props it is 32 by 32 |
| Avatar.AvatarFontSize | src/avatar/avatar.tsx:29 | the given text size, else the size's font size, else 14 |
| Avatar.DefaultIsMd | src/avatar/avatar.tsx:27-29 | an avatar with no props has exactly the md box and font size |
| Avatar.DynamicStyles | src/avatar/avatar.tsx:32-40 | the box, the rounding's radius and the background colour (neutral100 unless given), and no other key |
| Avatar.ImageStyle | src/avatar/avatar.tsx:42-49 | the image takes the container's box and radius but no background |
| Avatar.AccessibilityLabel | src/avatar/avatar.tsx:55 | the name is announced exactly when it is not the placeholder `'?'` |
| Avatar.Content | src/avatar/avatar.tsx:58-72 | a picture exactly when the image source is truthy, with the image style; otherwise the initials of the name in the bold font at the avatar font size, neutral600 unless given |
| Avatar.ContainerStyle | src/avatar/avatar.tsx:56 | `style` wins over `css`, which wins over the computed width and background |
| Avatar.NoPropsAvatar | src/avatar/avatar.tsx:12-72 | with no props the avatar shows "?" at 14 points in neutral600 on neutral100, rounded 999, with no spoken label |
| PkgAvatar.GetAvatarSize | packages/avatar/avatar.tsx:43-64 | the package's radius switch agrees with the table lookup for every string, unknown ones giving 999 |
| PkgAvatar.FirstLetter | packages/avatar/avatar.tsx:81 | `'?'` for no name, nothing for the empty name, otherwise the upper-cased first character |
| PkgAvatar.RandomColor | packages/avatar/avatar.tsx:80-88 | the palette entry at the letter's code modulo 65, then modulo 6; the grey fallback when there is no letter |
| PkgAvatar.GreyOnlyForEmptyName | packages/avatar/avatar.tsx:83-87 | the grey fallback is used exactly for the empty name |
| PkgAvatar.ColorIgnoresCase | packages/avatar/avatar.tsx:81-83 | a name starting with "a" and one starting with "A" share a colour; no name and "?" share entry 3; "A…" gets entry 0 |
| PkgAvatar.KeepAlnum | packages/avatar/avatar.tsx:90 | the kept characters are all letters or digits, no more than the input, and some remain exactly when the input has one |
| PkgAvatar.KeepAlnumIdempotent | packages/avatar/avatar.tsx:90 | cleaning a cleaned name changes nothing |
| PkgAvatar.KeepAlnumFirst | packages/avatar/avatar.tsx:90 | the cleaned name starts with the first letter or digit of the input |
| PkgAvatar.CleanedName | packages/avatar/avatar.tsx:90 | the name's letters and digits when there are any; otherwise the email |
| PkgAvatar.DisplayedInitial | packages/avatar/avatar.tsx:117 | shown exactly when there is a cleaned name; at most one character, the upper-cased first one |
| PkgAvatar.InitialFromName | packages/avatar/avatar.tsx:90-117 | the shown initial is the first letter or digit of the name, upper-cased, skipping leading punctuation |
| PkgAvatar.AvatarStyles | packages/avatar/avatar.tsx:92-97 | the box, the rounding's radius, the given background when truthy and else the palette background, and no other key |
| PkgAvatar.Content | packages/avatar/avatar.tsx:101-119 | a picture exactly when the image source is truthy, with the container's box and radius; otherwise the initial in the bold font, weight 700, size 14 unless a truthy size is given, and the palette text colour unless a truthy colour is given |
| PkgAvatar.PaletteEntryShared | packages/avatar/avatar.tsx:80-115 | without colour props the background and the initial's colour come from the same palette entry |
| Checkbox.NextValue | src/checkbox/checkbox.tsx:39-43 | an indeterminate box reports `true`; a boolean box reports its negation |
| Checkbox.PressTwice | src/checkbox/checkbox.tsx:39-43 | two presses bring a boolean box back to where it was; an indeterminate box goes to checked and then unchecked |
| Checkbox.HandlePress | src/checkbox/checkbox.tsx:37-45 | `onChange` is called exactly when the box is enabled and has a handler, with the next value |
| Checkbox.PressFlipsLookExceptIndeterminate | src/checkbox/checkbox.tsx:39-52 | a press flips the filled look of a boolean box, but an indeterminate box, which already looks filled, stays filled |
| Checkbox.DynamicStyles | src/checkbox/checkbox.tsx:51-57 | checked and indeterminate boxes are secondary500 with a transparent border; unchecked boxes are white900 with a neutral700 border; no other key |
| Checkbox.AccessibilityState | src/checkbox/checkbox.tsx:67-70 | `'mixed'` exactly for an indeterminate box, otherwise whether it is checked; the disabled flag as given |
| Checkbox.AccessibilityLabel | src/checkbox/checkbox.tsx:71 | the children are read out exactly when they are a string |
| Checkbox.PressableA11y | src/checkbox/checkbox.tsx:65-73 | the pressable is accessible, with the `checkbox` role, the computed state, the string-children label and the toggle hint, except that each key the caller's `{...rest}` passes wins wholesale |
| Checkbox.CallerLabelWins | src/checkbox/checkbox.tsx:71-73 | a caller's label "Accept terms" is announced over the children "Terms"; without one the children are |
| Checkbox.Icon | src/checkbox/checkbox.tsx:84-90 | a dash exactly for an indeterminate box, a tick otherwise, always in white900 |
| Checkbox.BoxSide | src/checkbox/styles.ts:11-18 | 20 points for `'md'`, 16 for any other size |
| Checkbox.BoxStyle | src/checkbox/checkbox.tsx:75-83 | without a caller style the box is a square of the size's side with the state's background, a one-point border and radius 4; a caller's width wins |
| Checkbox.DisabledAndDefault | src/checkbox/checkbox.tsx:13-57 | a disabled box ignores presses; a fresh box is unchecked and white, reads as not checked, and a press checks it |
| PkgCheckbox.PkgHandlePress | packages/checkbox/checkbox.tsx:128-136 | the package press handler reports the same value as the `src/` one, and only for an enabled box with a handler |
| PkgCheckbox.PkgAccessibilityState | packages/checkbox/checkbox.tsx:157-160 | the package state agrees with `src/`: `'mixed'` exactly for indeterminate |
| PkgCheckbox.PkgPressableA11y | packages/checkbox/checkbox.tsx:156-162 | the package pressable gets the `src/` accessibility props, except that `accessible` and the hint are only the caller's |
| PkgCheckbox.PkgDynamicStyles | packages/checkbox/checkbox.tsx:142-148 | the package colours agree with `src/`: secondary500 when checked or indeterminate |
| PkgCheckbox.PkgBoxStyle | packages/checkbox/checkbox.tsx:63-77 | the package box agrees with `src/`: 20 points for md and 16 otherwise |
| PkgCheckbox.LooksDiffer | packages/checkbox/checkbox.tsx:145-148 | under the default theme the box is secondary500 exactly when it is checked or indeterminate |
| RadioConstants.ParseRadioSize | src/radio/constants.ts:8-17 | exactly `'sm'` and `'md'` are size keys |
| RadioConstants.GetRadioSizeConfig | src/radio/constants.ts:20-21 | `'md'` gives an 18-point ring around a 12-point dot; every other string falls back to the 14 and 8 of sm |
| RadioConstants.CirclesNested | src/radio/constants.ts:8-17 | both sizes are round, the dot is positive and smaller than the ring, and the ring is 6 points wider than the dot |
| Radio.HandlePress | src/radio/radio.tsx:34-38 | `onSelect` is called exactly when the radio is enabled and has a handler, with the negation of `selected` |
| Radio.CircleDims | src/radio/radio.tsx:40-44 | each of the four dimensions is the caller's value when truthy, else the size table's |
| Radio.ZeroIsNoOverride | src/radio/radio.tsx:41-44 | a width of 0 is ignored like a missing one, and with no overrides the dimensions are the table's |
| Radio.OuterCircleStyle | src/radio/radio.tsx:46-50 | without a `radioStyle` a white ring of the computed size, bordered secondary500 when selected and neutral400 otherwise; a caller's border colour wins |
| Radio.InnerCircle | src/radio/radio.tsx:52-55 | the dot is drawn exactly when the radio is selected, in secondary500 at the inner size |
| Radio.AccessibilityState | src/radio/radio.tsx:65-68 | `checked` is `selected` and `disabled` is as given |
| Radio.AccessibilityLabel | src/radio/radio.tsx:69 | the children are read out exactly when they are a string |
| Radio.PressableA11y | src/radio/radio.tsx:63-71 | the pressable is accessible, with the `radio` role, the `{checked, disabled}` state, the string-children label and the select hint, except that each key the caller's `{...rest}` passes wins wholesale |
| Radio.CallerStateReplaces | src/radio/radio.tsx:65-71 | a caller's `accessibilityState` replaces the computed one wholesale, dropping `checked` and `disabled`; without one `checked` is the selection |
| Radio.PressSelects | src/radio/radio.tsx:34-85 | pressing an enabled unselected radio reports `true`, and fed back it draws the dot and reads as checked; a disabled radio reports nothing |
| PkgRadio.PkgGetSizeConfig | packages/radio/radio.tsx:70-82 | the package's local size table agrees with the `src/` lookup for every string |
| PkgRadio.PkgHandlePress | packages/radio/radio.tsx:64-68 | the package press handler agrees with `src/` |
| PkgRadio.PkgCircleDims | packages/radio/radio.tsx:84-88 | the package circle dimensions agree with `src/` |
| PkgRadio.PkgAccessibilityState | packages/radio/radio.tsx:108-111 | the package reports `selected` where `src/` reports `checked`, with the same value, and the same disabled flag |
| PkgRadio.PkgPressableA11y | packages/radio/radio.tsx:107-113 | the package pressable has the `src/` role and label, the `{selected, disabled}` state unless the caller passes one, and only the caller's `accessible`, hint and value |
| PkgRadio.SelectionUnderDifferentKeys | packages/radio/radio.tsx:107-113 | without caller props, `src/` announces the selection as `checked` and the package as `selected`, each without the other key |
| SwitchConstants.ThumbOffPosition | src/switch/constants.ts:6 | the thumb rests one margin, 1 point, in from the left when off |
| SwitchConstants.ThumbOnPosition | src/switch/constants.ts:7 | the thumb rests at 21 when on, so that it and one margin fill the 40-point track exactly |
| SwitchConstants.ThumbInsideTrack | src/switch/constants.ts:1-7 | the thumb and two margins fill the track's height; the off position is left of the on position; the thumb stays inside the track, with equal gaps at both ends |
| Switch.HandlePress | src/switch/switch.tsx:24-28 | `onValueChange` is called exactly when the switch is enabled and has a handler, with the negated value |
| Switch.ThumbTarget | src/switch/switch.tsx:14-17 | the thumb slides to the on position for `true` and to the off position for `false` |
| Switch.PressMovesThumb | src/switch/switch.tsx:14-28 | a press that reports a value moves the thumb to the other end, and both ends lie inside the track |
| Switch.TrackColor | src/switch/switch.tsx:34-36 | primary500 when on, neutral400 when off |
| Switch.TrackStyle | src/switch/switch.tsx:46 | `style` wins over `css`, which wins over the state's colour and the 40-point width |
| Switch.ThumbStyle | src/switch/styles.ts:16-21 | an 18-point white900 thumb |
| Switch.Accessibility | src/switch/switch.tsx:42-45 | `checked` is the value, `disabled` as given, and the spoken value is "On" exactly when on and "Off" exactly when off |
| Switch.PressableA11y | src/switch/switch.tsx:42-47 | the pressable is accessible, with the `switch` role, the `{checked, disabled}` state and the `On`/`Off` value, except that each key the caller's `{...rest}` passes wins wholesale; label and hint are the caller's |
| Switch.CallerValueWins | src/switch/switch.tsx:45-47 | an on switch speaks "On", and a caller's `accessibilityValue` of "Enabled" replaces it |
| Switch.TrackShowsState | src/switch/switch.tsx:34-36 | under the default theme the on and off tracks differ in colour |
| PkgSwitch.PkgThumbTarget | packages/switch/switch.tsx:7-13 | the package's own constants put the thumb where `src/` does: 21 when on and 1 when off |
| PkgSwitch.PkgHandlePress | packages/switch/switch.tsx:51-55 | the package press handler agrees with `src/` |
| PkgSwitch.PkgTrackColor | packages/switch/switch.tsx:61-63 | off is the default theme's neutral400 as in `src/`; on is the fixed `'#448E97'` |
| PkgSwitch.OnColorDiffers | packages/switch/switch.tsx:61-63 | the package's on colour differs from the `src/` primary500, and the off colours agree |
| TextInputConstants.HeightsIncrease | src/text-input/constants.ts:13-59 | heights strictly increase from sm to 2xl |
| TextInputConstants.PaddingSteps | src/text-input/constants.ts:13-59 | the horizontal padding grows by 2 points per size step, from 8 at sm |
| TextInputConstants.IconRoom | src/text-input/constants.ts:13-59 | in every size the left and right icon paddings are equal and leave at least the plain padding, the icon is shorter than the input, and a larger size never has a smaller font |
| TextInput.FocusState.constructor | src/text-input/text-input.tsx:82 | a new input is not focused and has called no handler |
| TextInput.FocusState.HandleFocus | src/text-input/text-input.tsx:94-97 | focus sets the focused state and forwards to the caller's `onFocus` when there is one |
| TextInput.FocusState.HandleBlur | src/text-input/text-input.tsx:99-102 | blur clears the focused state and forwards to the caller's `onBlur` when there is one |
| TextInput.FocusState.BuildWrapperStyles | src/text-input/text-input.tsx:108-127 | the wrapper style built step by step from the current focus state is the one the focus-dependent specification describes |
| TextInput.FocusColor | src/text-input/text-input.tsx:115-126 | neutral500 when focused and black300 otherwise |
| TextInput.InputWrapperStyles | src/text-input/text-input.tsx:108-127 | the size's height and radius; neutral50 behind a filled input and white900 otherwise; with an error border the top, right and left edges take the focus colour and the bottom edge negative500, otherwise the whole border takes the focus colour; no other key |
| TextInput.FocusRecolorsBorders | src/text-input/text-input.tsx:114-124 | with an error border, focus recolours only the top, right and left edges, and the red bottom edge stays |
| TextInput.WrapperStyle | src/text-input/text-input.tsx:197-202 | a disabled input's wrapper is neutral50 whatever the variant; otherwise the variant's background; always full width with a one-point border |
| TextInput.TextInputStyles | src/text-input/text-input.tsx:129-133 | the size's font size; the icon padding on a side with an icon or element, else the plain padding; no other key |
| TextInput.PaddingsSymmetric | src/text-input/text-input.tsx:129-133 | the left padding never falls below the plain padding, and the two sides match when both or neither have an icon |
| TextInput.EffectiveSecureTextEntry | src/text-input/text-input.tsx:91-92 | the text is hidden exactly when secure entry is asked for and `showPassword` is not `true` |
| TextInput.Editable | src/text-input/text-input.tsx:147 | editable exactly when not disabled and `editable` is not `false` |
| TextInput.AccessibilityDisabled | src/text-input/text-input.tsx:164 | the reported disabled state is the prop, and a disabled input is never editable |
| TextInput.AccessibilityLabel | src/text-input/text-input.tsx:162 | the caller's label, else the placeholder |
| TextInput.RightIconPress | src/text-input/text-input.tsx:231 | the right icon toggles `showPassword` exactly for a password field with a setter, reporting the negated value |
| TextInput.RightIconLabel | src/text-input/text-input.tsx:234-240 | labelled exactly for a password field: "Hide password" while the password shows, "Show password" while it is hidden |
| TextInput.RightIconRole | src/text-input/text-input.tsx:232-233 | the right icon is a button exactly for a password field |
| TextInput.ToggleFlipsVisibility | src/text-input/text-input.tsx:91-92 | one press on the right icon flips whether the text is hidden and flips its label; a second press restores the props |
| TextInput.IconColor | src/text-input/text-input.tsx:212 | neutral500 for a disabled input and neutral800 otherwise |
| TextInput.PlaceholderColor | src/text-input/text-input.tsx:140 | the caller's placeholder colour, else neutral500 |
| TextInput.CursorColor | src/text-input/text-input.tsx:148 | the caller's cursor colour, else neutral900 |
| TextInput.RenderErrorMessage | src/text-input/text-input.tsx:272-278 | an error line exactly when the message is truthy: the message, announced politely as an alert, at 12 points in negative500 |
| TextInput.FocusThenBlur | src/text-input/text-input.tsx:94-127 | focusing and then blurring a new input returns its wrapper to the unfocused style, and while focused it has the focused style |
| PkgTextInput.PkgGetSizeConfig | packages/text-input/text-input.tsx:126-175 | the package's local size table agrees with the `src/` one for every size, and its icon paddings exceed the plain padding |
| PkgTextInput.PkgBuildWrapperStyles | packages/text-input/text-input.tsx:264-277 | the package builds the same wrapper style as `src/` for every focus state |
| PkgTextInput.PkgTextInputStyles | packages/text-input/text-input.tsx:279-283 | the package's text style agrees with `src/` |
| PkgTextInput.PkgInputFlags | packages/text-input/text-input.tsx:247-297 | secure entry, editability and the right icon's toggle agree with `src/`, and a toggle flips whether the text is hidden |
| Separator.DynamicStyles | src/separator/separator.tsx:11-35 | each of the four margins resolved from its side, then its axis, then `margin`, 0 by default; neutral200 unless a colour is given; a horizontal line is 1 high and full width, a vertical one 1 wide and full height; no other key |
| Separator.OrientationTransposes | src/separator/separator.tsx:8-32 | a vertical separator is the horizontal one with width and height swapped, an unset orientation is horizontal, and unset margins are 0 |
| Separator.SeparatorStyle | src/separator/separator.tsx:41 | `style` wins over `css`, which wins over the computed colour; with neither the computed style is used |
| Separator.Accessibility | src/separator/separator.tsx:42-53 | a decorative separator is not accessible, has no role, label, hint, state or value, and hides itself and its descendants; otherwise role `'none'` and the caller's props pass through; modal and live region always pass through |
| Separator.DecorativeIgnoresCallerProps | src/separator/separator.tsx:42-53 | once decorative, the caller's accessibility props other than modal and live region make no difference, and a non-decorative separator has a role |
| LoaderConstants.ParseLineSize | src/loader/constants.ts:4-9 | a string names a line size exactly when it is that size's key |
| LoaderConstants.LineHeightsIncrease | src/loader/constants.ts:4-9 | every track is 24 wide, and a larger size is strictly thicker |
| LoaderConstants.CircleTablesOrdered | src/loader/constants.ts:12-31 | diameters strictly increase with size, strokes never shrink, and every stroke is positive and thinner than its circle |
| LoaderConstants.ParseCircleSize | src/loader/constants.ts:12-31 | a string names a circle size exactly when it is that size's key |
| LoaderConstants.CircleDiameterOf | src/loader/constants.ts:12-20 | the diameter table has an entry for exactly the seven size keys |
| LoaderConstants.CircleStrokeWidthOf | src/loader/constants.ts:23-31 | the stroke table has an entry for exactly the keys the diameter table has |
| LineLoader.ColorMap | src/loader/line-loader.tsx:29-50 | only the five presets have an entry; each track is a colour at the preset's opacity and each dot the matching colour |
| LineLoader.PresetColors | src/loader/line-loader.tsx:53 | a known preset's colours, and primary's for any other key |
| LineLoader.TrackIsTranslucentDot | src/loader/line-loader.tsx:29-53 | except for negative, the track is the dot's colour made translucent; negative pairs a translucent negative500 track with a negative700 dot; an unknown colour draws like the default |
| LineLoader.NegativeDotDarker | src/loader/line-loader.tsx:42-45 | under the default theme the negative dot is not the track's base colour |
| LineLoader.Box | src/loader/line-loader.tsx:52 | a known size's track box, and sm's for any other key |
| LineLoader.ContainerStyle | src/loader/line-loader.tsx:74-79 | the box, the track colour and a radius of half the height, so the ends are semicircles; no other key |
| LineLoader.DefaultLineLoader | src/loader/line-loader.tsx:20-79 | with no props a 24 by 4 primary track with radius 2; every track is 24 wide with a radius between 2 and 4 |
| LineLoader.Render | src/loader/line-loader.tsx:81-86 | always an accessible progress bar; `style` wins over `css`, which wins over the container style |
| PkgFlex.FlexDynamicStyles | packages/flex/flex.tsx:29-49 | the direction unless missing or empty, else column; the resolved spacing, 0 by default; align, justify, wrap and alignSelf only when truthy; flex, grow, shrink, basis and gap whenever given; no other key |
| PkgFlex.BuildFlexStyles | packages/flex/flex.tsx:29-49 | the style built by the guarded writes is the one the specification describes |
| PkgFlex.ZeroKeptEmptyDropped | packages/flex/flex.tsx:30-49 | `flex: 0` and `gap: 0` are written, while an empty align is dropped and an empty direction becomes column |
| PkgFlex.FlexStyle | packages/flex/flex.tsx:51 | `style` wins over `css`, which wins over the computed keys |
| PkgText.TextDynamicStyles | packages/text/text.tsx:30-54 | font size 14, the regular font and neutral900 unless given; a weight only on the System font; the resolved spacing; line height and letter spacing whenever given; the four string props only when truthy, `textDecoration` as `textDecorationLine`; no other key |
| PkgText.BuildTextStyles | packages/text/text.tsx:30-54 | the style built by the spread and the guarded writes is the one the specification describes |
| PkgText.TypographyDefaults | packages/text/text.tsx:7-39 | a bare text is 14-point neutral900 in the default font with weight 400; a custom font never gets a weight key |
| PkgText.TextStyle | packages/text/text.tsx:58 | `style` wins over `css`, which wins over the computed colour; with neither the computed style is used |

## Left out

- **Rendering, hooks and stylesheets.** This covers:
  - JSX trees, `forwardRef`, `useMemo`, `useState` plumbing, refs;
  - `StyleSheet.create`.

  These are platform behaviour. Only the values they are given are modelled, and a style list is flattened by `Styles.Overlay`.
- **Animation runtime.** The reanimated shared values, springs and worklets are platform behaviour. This covers:
  - the button content's opacity pulse while loading (src/button/button.tsx:96-108, packages/button/button.tsx:530-544);
  - the checkbox tick's fade;
  - the switch thumb's slide (only its target position is modelled);
  - the line loader's moving dot;
  - the package button's `LineLoader` (packages/button/button.tsx:69-127).
- **src/button/line-loader.tsx.** It imports `LOADER_SIZES`, which src/button/constants.ts does not define, so there is no well-defined behaviour to model.
- **Circle-loader geometry.** The `Math.PI` circumference and dash arrays of src/loader/circle-loader.tsx are floating-point numerics. Only its size tables are modelled, in `LoaderConstants`.
- **IEEE floating point.** Opacities and sizes are exact reals. NaN, infinities and binary rounding are not modelled, and rounding is `Floor(x + 1/2)`.
- **Unicode.** `toUpperCase`, `\s` and `\p{L}\p{N}` are modelled over ASCII. Outside ASCII the source can change a string's length or class more characters as letters.
- **Bottom sheets, SVG icons and the `Box` wrappers.** These are third-party widgets, static path data, and pass-throughs to the modelled resolvers.
- **packages/theme is not part of this model.** The package switch and text input read a static `theme`, which is modelled as the default theme.
- **src/avatar/styles.ts and the `types.ts` files are not part of this model.** The avatar's base style is a parameter of `Avatar.ContainerStyle`.
- **Style keys.** The `Style` record has no `opacity`, `display`, `position`, `overflow` or `transform` keys. So these are not visible:
  - the disabled opacity of the checkbox, radio, switch, text input and button (the button's disabled colour entry changes only the opacity);
  - the absolute icon positions of the text input.
- **button-helpers.test.ts:70-123.** These expectations target functions that src/button/helpers.ts does not define, so they state nothing about the modelled code.
- **The package text input's focus handlers (packages/text-input/text-input.tsx:238, 250-258).** They are the same statements as the `src/` ones and are covered by `TextInput.FocusState`.
- **The package button's `renderContent` and `ButtonSideElement` (packages/button/button.tsx:467-499, 604-667).** They are the same expressions as the `src/` ones, modelled by `Button.RenderContent` and `Button.SideElement`, including the icon's own `size` winning over the computed one.
- **The package right icon and error text.** The package text input's right icon carries no accessibility props and its error text has no alert role. Neither is modelled separately.
- Elements.SpreadRest: treats an accessibility key the caller passes explicitly as `undefined` as not passed. In JavaScript such a key is still spread, so `accessibilityLabel={undefined}` clears the computed label instead.
- Button.SideElement: treats an icon's `size={undefined}` as no size of its own. In JavaScript the spread of the icon's props would clear the computed size instead.
- **Accessibility keys other than the six computed ones.** `Elements.A11yProps` holds `accessible`, role, label, hint, state and value. The other `BaseAccessibilityProps` keys, such as `accessibilityLiveRegion`, pass through `{...rest}` untouched because the checkbox, radio, switch and button compute none of them.
- **The package switch's accessibility.** The package switch computes no accessibility props and only spreads the caller's, so there is nothing to model.
- PkgButton.NumberOf: reads a token that does not parse (NaN in the source) as 0. `PkgButton.PaddingLiterals` shows that no padding string in the table produces one.
- PkgButton.ParseInt: models `parseInt` on unsigned decimal tokens only. The padding strings hold no sign, so this covers them all.
