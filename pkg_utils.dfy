/** The helpers of the published `packages/` tree. Its prop interfaces have the
    same fields as the `src/` ones, so they share the record types of `Utils`. */
module PkgUtils {
  import opened Wrappers
  import opened Styles
  import Utils

  /** Each edge resolves side > axis > `margin` > default, exactly as in `src/`. */
  function ResolveMargin(p: Utils.MarginProps, defaultSpacing: real): (r: Utils.ResolvedSpacing)
    ensures r == Utils.ResolveMargin(p, defaultSpacing)
  {
    Utils.ResolvedSpacing(
      p.marginTop.OrElse(p.marginVertical).OrElse(p.margin).GetOr(defaultSpacing),
      p.marginBottom.OrElse(p.marginVertical).OrElse(p.margin).GetOr(defaultSpacing),
      p.marginLeft.OrElse(p.marginHorizontal).OrElse(p.margin).GetOr(defaultSpacing),
      p.marginRight.OrElse(p.marginHorizontal).OrElse(p.margin).GetOr(defaultSpacing))
  }

  /** The same chains over the `padding*` fields, again equal to `src/`. */
  function ResolvePadding(p: Utils.PaddingProps, defaultSpacing: real): (r: Utils.ResolvedSpacing)
    ensures r == Utils.ResolvePadding(p, defaultSpacing)
  {
    Utils.ResolvedSpacing(
      p.paddingTop.OrElse(p.paddingVertical).OrElse(p.padding).GetOr(defaultSpacing),
      p.paddingBottom.OrElse(p.paddingVertical).OrElse(p.padding).GetOr(defaultSpacing),
      p.paddingLeft.OrElse(p.paddingHorizontal).OrElse(p.padding).GetOr(defaultSpacing),
      p.paddingRight.OrElse(p.paddingHorizontal).OrElse(p.padding).GetOr(defaultSpacing))
  }

  /** `fontWeight` is emitted only for `'System'` with a weight given, as in `src/`. */
  function CreateTextStyle(fontFamily: string, fontWeight: Option<string>): (r: Style)
    ensures r == Utils.CreateTextStyle(fontFamily, fontWeight)
  {
    var style := Empty.(fontFamily := Some(fontFamily));
    if fontFamily == "System" && TruthyString(fontWeight) then style.(fontWeight := fontWeight)
    else style
  }

  /** Empty props give the default spacing on every edge. */
  lemma EmptyPropsGiveDefault(d: real)
    ensures ResolveMargin(Utils.NoMargin, d) == Utils.ResolvedSpacing(d, d, d, d)
    ensures ResolvePadding(Utils.NoPadding, d) == Utils.ResolvedSpacing(d, d, d, d)
  {
  }
}
