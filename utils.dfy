/** Shared helpers of the UI kit: spacing resolution, the hex colour-opacity
    transform and the platform-aware text style. */
module Utils {
  import opened Wrappers
  import opened Styles

  // ---------------------------------------------------------------------
  // Spacing resolution
  // ---------------------------------------------------------------------

  datatype MarginProps = MarginProps(
    margin: Option<real>,
    marginHorizontal: Option<real>,
    marginVertical: Option<real>,
    marginTop: Option<real>,
    marginBottom: Option<real>,
    marginLeft: Option<real>,
    marginRight: Option<real>)

  datatype PaddingProps = PaddingProps(
    padding: Option<real>,
    paddingHorizontal: Option<real>,
    paddingVertical: Option<real>,
    paddingTop: Option<real>,
    paddingBottom: Option<real>,
    paddingLeft: Option<real>,
    paddingRight: Option<real>)

  datatype ResolvedSpacing = ResolvedSpacing(top: real, bottom: real, left: real, right: real)

  const NoMargin: MarginProps := MarginProps(None, None, None, None, None, None, None)
  const NoPadding: PaddingProps := PaddingProps(None, None, None, None, None, None, None)

  /** The value of a chain `a ?? b ?? ... ?? default`: the first defined
      entry, or the default when none is defined. */
  function FirstDefined(chain: seq<Option<real>>, default: real): (r: real)
    ensures (forall i :: 0 <= i < |chain| ==> chain[i].None?) ==> r == default
    ensures (exists i :: 0 <= i < |chain| && chain[i].Some?) ==>
              exists i :: 0 <= i < |chain| && chain[i] == Some(r) &&
                          forall j :: 0 <= j < i ==> chain[j].None?
  {
    if chain == [] then default
    else if chain[0].Some? then chain[0].value
    else FirstDefined(chain[1..], default)
  }

  /** A three-link chain `a ?? b ?? c ?? d`. */
  lemma {:induction false} ChainOfThree(a: Option<real>, b: Option<real>, c: Option<real>, d: real)
    ensures FirstDefined([a, b, c], d) == a.OrElse(b).OrElse(c).GetOr(d)
  {
    assert [a, b, c][1..] == [b, c] && [b, c][1..] == [c] && [c][1..] == [];
    assert FirstDefined([c], d) == c.GetOr(d) by {
      assert FirstDefined([], d) == d;
    }
    assert FirstDefined([b, c], d) == b.OrElse(c).GetOr(d);
  }

  /** Each edge is its side field, else its axis field (vertical for top and
      bottom, horizontal for left and right), else `margin`, else the default. */
  function ResolveMargin(p: MarginProps, defaultSpacing: real): (r: ResolvedSpacing)
    ensures r.top == FirstDefined([p.marginTop, p.marginVertical, p.margin], defaultSpacing)
    ensures r.bottom == FirstDefined([p.marginBottom, p.marginVertical, p.margin], defaultSpacing)
    ensures r.left == FirstDefined([p.marginLeft, p.marginHorizontal, p.margin], defaultSpacing)
    ensures r.right == FirstDefined([p.marginRight, p.marginHorizontal, p.margin], defaultSpacing)
  {
    ChainOfThree(p.marginTop, p.marginVertical, p.margin, defaultSpacing);
    ChainOfThree(p.marginBottom, p.marginVertical, p.margin, defaultSpacing);
    ChainOfThree(p.marginLeft, p.marginHorizontal, p.margin, defaultSpacing);
    ChainOfThree(p.marginRight, p.marginHorizontal, p.margin, defaultSpacing);
    ResolvedSpacing(
      p.marginTop.OrElse(p.marginVertical).OrElse(p.margin).GetOr(defaultSpacing),
      p.marginBottom.OrElse(p.marginVertical).OrElse(p.margin).GetOr(defaultSpacing),
      p.marginLeft.OrElse(p.marginHorizontal).OrElse(p.margin).GetOr(defaultSpacing),
      p.marginRight.OrElse(p.marginHorizontal).OrElse(p.margin).GetOr(defaultSpacing))
  }

  /** The same chains over the `padding*` fields. */
  function ResolvePadding(p: PaddingProps, defaultSpacing: real): (r: ResolvedSpacing)
    ensures r.top == FirstDefined([p.paddingTop, p.paddingVertical, p.padding], defaultSpacing)
    ensures r.bottom == FirstDefined([p.paddingBottom, p.paddingVertical, p.padding], defaultSpacing)
    ensures r.left == FirstDefined([p.paddingLeft, p.paddingHorizontal, p.padding], defaultSpacing)
    ensures r.right == FirstDefined([p.paddingRight, p.paddingHorizontal, p.padding], defaultSpacing)
  {
    ChainOfThree(p.paddingTop, p.paddingVertical, p.padding, defaultSpacing);
    ChainOfThree(p.paddingBottom, p.paddingVertical, p.padding, defaultSpacing);
    ChainOfThree(p.paddingLeft, p.paddingHorizontal, p.padding, defaultSpacing);
    ChainOfThree(p.paddingRight, p.paddingHorizontal, p.padding, defaultSpacing);
    ResolvedSpacing(
      p.paddingTop.OrElse(p.paddingVertical).OrElse(p.padding).GetOr(defaultSpacing),
      p.paddingBottom.OrElse(p.paddingVertical).OrElse(p.padding).GetOr(defaultSpacing),
      p.paddingLeft.OrElse(p.paddingHorizontal).OrElse(p.padding).GetOr(defaultSpacing),
      p.paddingRight.OrElse(p.paddingHorizontal).OrElse(p.padding).GetOr(defaultSpacing))
  }

  /** Renames `padding*` fields to the matching `margin*` fields. */
  function AsMargin(p: PaddingProps): MarginProps {
    MarginProps(p.padding, p.paddingHorizontal, p.paddingVertical,
                p.paddingTop, p.paddingBottom, p.paddingLeft, p.paddingRight)
  }

  /** With no field set every edge is the default spacing (0 when omitted). */
  lemma NoSpacingGivesDefault(d: real)
    ensures ResolveMargin(NoMargin, d) == ResolvedSpacing(d, d, d, d)
    ensures ResolvePadding(NoPadding, d) == ResolvedSpacing(d, d, d, d)
  {
  }

  /** `resolvePadding` is `resolveMargin` under the renaming; values pass
      through unclamped, negative ones included. */
  lemma PaddingIsRenamedMargin(p: PaddingProps, d: real)
    ensures ResolvePadding(p, d) == ResolveMargin(AsMargin(p), d)
  {
  }

  /** A side field wins over everything and touches only its own edge. */
  lemma SideFieldOnlyAffectsItsEdge(p: MarginProps, d: real, v: real)
    ensures ResolveMargin(p.(marginTop := Some(v)), d) == ResolveMargin(p, d).(top := v)
    ensures ResolveMargin(p.(marginBottom := Some(v)), d) == ResolveMargin(p, d).(bottom := v)
    ensures ResolveMargin(p.(marginLeft := Some(v)), d) == ResolveMargin(p, d).(left := v)
    ensures ResolveMargin(p.(marginRight := Some(v)), d) == ResolveMargin(p, d).(right := v)
  {
  }

  /** `marginVertical` can change only top and bottom, `marginHorizontal`
      only left and right. */
  lemma AxisFieldOnlyAffectsItsAxis(p: MarginProps, d: real, v: Option<real>)
    ensures var r0, r1 := ResolveMargin(p, d), ResolveMargin(p.(marginVertical := v), d);
            r1.left == r0.left && r1.right == r0.right
    ensures var r0, r1 := ResolveMargin(p, d), ResolveMargin(p.(marginHorizontal := v), d);
            r1.top == r0.top && r1.bottom == r0.bottom
  {
  }

  // ---------------------------------------------------------------------
  // Hex colour with opacity
  // ---------------------------------------------------------------------

  predicate IsHexDigit(c: char) {
    '0' <= c <= '9' || 'a' <= c <= 'f' || 'A' <= c <= 'F'
  }

  predicate IsUpperHexDigit(c: char) {
    '0' <= c <= '9' || 'A' <= c <= 'F'
  }

  /** `#RGB`, `#RGBA`, `#RRGGBB` or `#RRGGBBAA`, the `#` being optional. */
  predicate WellFormedColor(color: string) {
    var raw := StripHash(color);
    (|raw| == 3 || |raw| == 4 || |raw| == 6 || |raw| == 8) &&
    forall i :: 0 <= i < |raw| ==> IsHexDigit(raw[i])
  }

  /** `color.replace(/^#/, '')`: drops one leading `#`. */
  function StripHash(color: string): string {
    if |color| > 0 && color[0] == '#' then color[1..] else color
  }

  /** Drops an existing alpha: 8 digits keep 6, 4 digits keep 3. */
  function BaseDigits(raw: string): string {
    if |raw| == 8 then raw[..6]
    else if |raw| == 4 then raw[..3]
    else raw
  }

  /** `#RGB` shorthand becomes `RRGGBB`; anything else is kept. */
  function ExpandShorthand(base: string): string {
    if |base| == 3 then [base[0], base[0], base[1], base[1], base[2], base[2]]
    else base
  }

  /** The six (or, for malformed input, other) colour digits kept in the output. */
  function FullHex(color: string): string {
    ExpandShorthand(BaseDigits(StripHash(color)))
  }

  /** `Math.round` on non-negative numbers: halves round up. */
  function Round(x: real): int {
    (x + 0.5).Floor
  }

  function Clamp01(x: real): real {
    if x > 1.0 then 1.0 else if x < 0.0 then 0.0 else x
  }

  /** `Math.round(Math.min(1, Math.max(0, opacity)) * 255)`. */
  function AlphaByte(opacity: real): (n: int)
    ensures 0 <= n <= 255
    ensures opacity <= 0.0 ==> n == 0
    ensures opacity >= 1.0 ==> n == 255
  {
    Round(Clamp01(opacity) * 255.0)
  }

  /** Digit of `Number.prototype.toString(16)`, lower case. */
  function LowerHexDigit(d: nat): char
    requires d < 16
  {
    "0123456789abcdef"[d]
  }

  function UpperHexDigit(d: nat): char
    requires d < 16
  {
    "0123456789ABCDEF"[d]
  }

  /** Upper-casing a lower-case digit gives the upper-case digit of the same value. */
  lemma DigitCase(d: nat)
    requires d < 16
    ensures ToUpperChar(LowerHexDigit(d)) == UpperHexDigit(d)
    ensures IsUpperHexDigit(UpperHexDigit(d)) && HexValue(UpperHexDigit(d)) == d
  {
  }

  /** `n.toString(16)` for 0 <= n < 256: one digit below 16, else two. */
  function ToHexString(n: nat): string
    requires n < 256
  {
    if n < 16 then [LowerHexDigit(n)] else [LowerHexDigit(n / 16), LowerHexDigit(n % 16)]
  }

  /** `s.padStart(2, '0')`. */
  function PadStart2(s: string): string {
    if |s| < 2 then seq(2 - |s|, _ => '0') + s else s
  }

  function ToUpperChar(c: char): char {
    if 'a' <= c <= 'z' then (c as int - 32) as char else c
  }

  /** `toUpperCase()` on ASCII text. */
  function ToUpper(s: string): (r: string)
    ensures |r| == |s|
    ensures forall i :: 0 <= i < |s| ==> r[i] == ToUpperChar(s[i])
  {
    if s == [] then [] else [ToUpperChar(s[0])] + ToUpper(s[1..])
  }

  /** Value of one hex digit, either case. */
  function HexValue(c: char): (v: nat)
    requires IsHexDigit(c)
    ensures v < 16
  {
    if '0' <= c <= '9' then c as int - '0' as int
    else if 'a' <= c <= 'f' then c as int - 'a' as int + 10
    else c as int - 'A' as int + 10
  }

  /** The two-digit alpha suffix: `toString(16)`, padded, upper-cased. */
  function AlphaSuffix(opacity: real): (s: string)
    ensures |s| == 2 && IsUpperHexDigit(s[0]) && IsUpperHexDigit(s[1])
    ensures 16 * HexValue(s[0]) + HexValue(s[1]) == AlphaByte(opacity)
  {
    var n := AlphaByte(opacity);
    AlphaDigits(n);
    DigitCase(n / 16);
    DigitCase(n % 16);
    ToUpper(PadStart2(ToHexString(n)))
  }

  /** The padded, upper-cased hex of a byte is its two upper-case digits. */
  lemma AlphaDigits(n: nat)
    requires n < 256
    ensures ToUpper(PadStart2(ToHexString(n))) == [UpperHexDigit(n / 16), UpperHexDigit(n % 16)]
  {
    DigitCase(n / 16);
    DigitCase(n % 16);
    if n < 16 {
      assert PadStart2(ToHexString(n)) == [LowerHexDigit(0), LowerHexDigit(n)];
    }
    var p := PadStart2(ToHexString(n));
    assert p == [LowerHexDigit(n / 16), LowerHexDigit(n % 16)];
    assert ToUpper(p) == [ToUpperChar(p[0]), ToUpperChar(p[1])];
  }

  /** `colorOpacity(color, opacity)`: `#`, the colour's base digits, then the
      opacity as an absolute alpha pair. Any existing alpha is dropped. */
  function ColorOpacity(color: string, opacity: real): string
  {
    "#" + FullHex(color) + AlphaSuffix(opacity)
  }

  /** Between `#` and the alpha pair stand the input's own base digits, in
      the input's own case: the first six of six or eight digits, each of
      the first three doubled for three or four digits, and any other input
      as it is. */
  lemma ColorOpacityBase(color: string, opacity: real)
    ensures var raw, r := StripHash(color), ColorOpacity(color, opacity);
            |r| >= 3 && r[0] == '#' && r[|r| - 2..] == AlphaSuffix(opacity) &&
            (|raw| == 6 || |raw| == 8 ==> |r| == 9 && r[1..7] == raw[..6]) &&
            (|raw| == 3 || |raw| == 4 ==>
               |r| == 9 && r[1..7] == [raw[0], raw[0], raw[1], raw[1], raw[2], raw[2]]) &&
            (|raw| !in {3, 4, 6, 8} ==> r[1..|r| - 2] == raw)
  {
  }

  /** The output assembled from known base digits and a known alpha pair. */
  lemma ColorOpacityOf(color: string, opacity: real, hex: string, alpha: string)
    requires FullHex(color) == hex && AlphaSuffix(opacity) == alpha
    ensures ColorOpacity(color, opacity) == "#" + hex + alpha
  {
  }

  /** For well-formed input the output is `#RRGGBBAA`: nine characters, six
      hex digits (the input's own base digits, as `ColorOpacity` states),
      then two upper-case alpha digits that read back as the rounded,
      clamped opacity. */
  lemma ColorOpacityFormat(color: string, opacity: real)
    requires WellFormedColor(color)
    ensures var r := ColorOpacity(color, opacity);
            |r| == 9 && r[0] == '#' &&
            (forall i :: 1 <= i < 7 ==> IsHexDigit(r[i])) &&
            IsUpperHexDigit(r[7]) && IsUpperHexDigit(r[8]) &&
            16 * HexValue(r[7]) + HexValue(r[8]) == AlphaByte(opacity)
  {
    var raw := StripHash(color);
    var full := FullHex(color);
    assert |full| == 6 && forall i :: 0 <= i < 6 ==> IsHexDigit(full[i]) by {
      if |raw| == 3 || |raw| == 4 {
        assert BaseDigits(raw) == raw[..3];
      }
    }
    var r := ColorOpacity(color, opacity);
    assert forall i :: 1 <= i < 7 ==> r[i] == full[i - 1];
  }

  /** Opacity is an override, not a product: applying it twice keeps only
      the second opacity. */
  lemma AlphaOverride(color: string, o1: real, o2: real)
    requires WellFormedColor(color)
    ensures ColorOpacity(ColorOpacity(color, o1), o2) == ColorOpacity(color, o2)
  {
    ColorOpacityFormat(color, o1);
    var once := ColorOpacity(color, o1);
    assert StripHash(once) == once[1..];
    assert BaseDigits(once[1..]) == FullHex(color);
  }

  /** Clamping: non-positive opacity is fully transparent, opacity of at
      least one is fully opaque. */
  lemma OpacityClamps(color: string, o: real)
    ensures o <= 0.0 ==> ColorOpacity(color, o) == "#" + FullHex(color) + "00"
    ensures o >= 1.0 ==> ColorOpacity(color, o) == "#" + FullHex(color) + "FF"
  {
  }

  /** The alpha pair of an opacity whose rounded byte is known. */
  lemma AlphaSuffixOf(opacity: real, n: nat)
    requires n < 256 && AlphaByte(opacity) == n
    ensures AlphaSuffix(opacity) == [UpperHexDigit(n / 16), UpperHexDigit(n % 16)]
  {
    AlphaDigits(n);
  }

  /** The documented and tested values for six-digit colours. */
  lemma ColorOpacityExamples()
    ensures ColorOpacity("#00828D", 0.1) == "#00828D1A"
    ensures ColorOpacity("#64748B", 0.8) == "#64748BCC"
  {
    AlphaSuffixOf(0.1, 26);
    assert FullHex("#00828D") == "00828D";
    ColorOpacityOf("#00828D", 0.1, "00828D", "1A");
    AlphaSuffixOf(0.8, 204);
    assert FullHex("#64748B") == "64748B";
    ColorOpacityOf("#64748B", 0.8, "64748B", "CC");
  }

  /** Two more six-digit values, at opacities 0.05 and 0.4. */
  lemma ColorOpacityMoreExamples()
    ensures ColorOpacity("#E75030", 0.05) == "#E750300D"
    ensures ColorOpacity("#00828D", 0.4) == "#00828D66"
  {
    AlphaSuffixOf(0.05, 13);
    assert FullHex("#E75030") == "E75030";
    ColorOpacityOf("#E75030", 0.05, "E75030", "0D");
    AlphaSuffixOf(0.4, 102);
    assert FullHex("#00828D") == "00828D";
    ColorOpacityOf("#00828D", 0.4, "00828D", "66");
  }

  /** Full transparency and full opacity. */
  lemma ColorOpacityBounds()
    ensures ColorOpacity("#FF0000", 0.0) == "#FF000000"
    ensures ColorOpacity("#FF0000", 1.0) == "#FF0000FF"
  {
    AlphaSuffixOf(0.0, 0);
    assert FullHex("#FF0000") == "FF0000";
    ColorOpacityOf("#FF0000", 0.0, "FF0000", "00");
    AlphaSuffixOf(1.0, 255);
    assert FullHex("#FF0000") == "FF0000";
    ColorOpacityOf("#FF0000", 1.0, "FF0000", "FF");
  }

  /** An existing alpha is replaced and shorthand is expanded. */
  lemma ColorOpacityInputForms()
    ensures ColorOpacity("#00828DFF", 0.5) == "#00828D80"
    ensures ColorOpacity("#F00", 0.5) == "#FF000080"
  {
    AlphaSuffixOf(0.5, 128);
    assert FullHex("#00828DFF") == "00828D";
    ColorOpacityOf("#00828DFF", 0.5, "00828D", "80");
    assert FullHex("#F00") == "FF0000";
    ColorOpacityOf("#F00", 0.5, "FF0000", "80");
  }

  /** Lower-case input keeps its case; only the alpha pair is upper case. */
  lemma ColorOpacityKeepsCase()
    ensures ColorOpacity("#abc", 1.0) == "#aabbccFF"
    ensures ColorOpacity("00828dff", 0.1) == "#00828d1A"
  {
    AlphaSuffixOf(1.0, 255);
    assert FullHex("#abc") == "aabbcc";
    ColorOpacityOf("#abc", 1.0, "aabbcc", "FF");
    AlphaSuffixOf(0.1, 26);
    assert FullHex("00828dff") == "00828d";
    ColorOpacityOf("00828dff", 0.1, "00828d", "1A");
  }

  /** Opacity outside [0, 1] is clamped. */
  lemma ColorOpacityClampedExamples()
    ensures ColorOpacity("#000000", -0.5) == "#00000000"
    ensures ColorOpacity("#000000", 1.5) == "#000000FF"
  {
    AlphaSuffixOf(-0.5, 0);
    assert FullHex("#000000") == "000000";
    ColorOpacityOf("#000000", -0.5, "000000", "00");
    AlphaSuffixOf(1.5, 255);
    ColorOpacityOf("#000000", 1.5, "000000", "FF");
  }

  // ---------------------------------------------------------------------
  // Text style
  // ---------------------------------------------------------------------

  /** `{fontFamily}`, plus `fontWeight` only on the platform font `'System'`
      (custom font files carry their own weight). */
  function CreateTextStyle(fontFamily: string, fontWeight: Option<string>): (r: Style)
    ensures r.fontFamily == Some(fontFamily)
    ensures r.fontWeight.Some? <==> fontFamily == "System" && TruthyString(fontWeight)
    ensures r.fontWeight.Some? ==> r.fontWeight == fontWeight
    ensures r.(fontFamily := None, fontWeight := None) == Empty
  {
    var style := Empty.(fontFamily := Some(fontFamily));
    if fontFamily == "System" && TruthyString(fontWeight) then style.(fontWeight := fontWeight)
    else style
  }
}
