/** The theme context: deep-merging a partial custom theme into the default
    theme, the provider's choice of theme, and the consumer's fallback.
    Themes are handled here as JSON-like values. */
module ThemeContext {
  import opened Wrappers
  import DefaultTheme

  /** A JavaScript value as it can appear in a theme object. */
  datatype Value =
    | Obj(fields: map<string, Value>)
    | Arr(items: seq<Value>)
    | Str(s: string)
    | Num(n: real)
    | Bool(b: bool)
    | Null
    | Undefined

  /** JavaScript truthiness (NaN is not modelled). */
  predicate Truthy(v: Value) {
    match v
    case Obj(_) => true
    case Arr(_) => true
    case Str(s) => s != ""
    case Num(n) => n != 0.0
    case Bool(b) => b
    case Null => false
    case Undefined => false
  }

  /** `typeof v === 'object'`: objects, arrays and `null`. */
  predicate TypeofObject(v: Value) {
    v.Obj? || v.Arr? || v.Null?
  }

  /** The guard of the recursive case: `v && typeof v === 'object' && !Array.isArray(v)`. */
  predicate IsPlainObject(v: Value) {
    Truthy(v) && TypeofObject(v) && !v.Arr?
  }

  /** The guard accepts exactly the non-null, non-array objects. */
  lemma PlainObjectIsObj(v: Value)
    ensures IsPlainObject(v) <==> v.Obj?
  {
  }

  // ---------------------------------------------------------------------
  // Deep merge
  // ---------------------------------------------------------------------

  /** The merged object, key by key. A key of `source` whose value is
      `undefined` keeps the target's entry (or stays absent); two plain
      objects merge recursively; any other defined source value replaces the
      target's entry wholesale. */
  function Merge(target: map<string, Value>, source: map<string, Value>): (r: map<string, Value>)
    ensures target.Keys <= r.Keys <= target.Keys + source.Keys
    decreases Obj(source)
  {
    map k | k in target.Keys + source.Keys && (k in target || !source[k].Undefined?) ::
      if k !in source then target[k]
      else if IsPlainObject(source[k]) && k in target && IsPlainObject(target[k])
        then Obj(Merge(target[k].fields, source[k].fields))
      else if source[k].Undefined? then target[k]
      else source[k]
  }

  /** The entries of `source` whose keys are in `keys`. */
  function Restrict(source: map<string, Value>, keys: set<string>): (r: map<string, Value>)
    ensures r.Keys == source.Keys * keys
  {
    map k | k in source.Keys * keys :: source[k]
  }

  /** Processing one more source key changes the merged object at that key only. */
  lemma MergeStep(target: map<string, Value>, source: map<string, Value>, done: set<string>, key: string)
    requires key in source && key !in done
    ensures var before := Merge(target, Restrict(source, done));
            var after := Merge(target, Restrict(source, done + {key}));
            var sv := source[key];
            after == (if IsPlainObject(sv) && key in before && IsPlainObject(before[key])
                      then before[key := Obj(Merge(before[key].fields, sv.fields))]
                      else if !sv.Undefined? then before[key := sv]
                      else before)
  {
    var before := Merge(target, Restrict(source, done));
    var after := Merge(target, Restrict(source, done + {key}));
    assert key in before <==> key in target;
    assert key in before ==> before[key] == target[key];
  }

  /** `deepMerge(target, source)`: copies `target`, then visits the keys of
      `source` one by one, writing the merged entry for each. Every key is
      visited once, so the order of the visits does not matter. */
  method DeepMerge(target: map<string, Value>, source: map<string, Value>) returns (result: map<string, Value>)
    ensures result == Merge(target, source)
    decreases Obj(source)
  {
    result := target;
    var pending := source.Keys;
    assert Restrict(source, {}) == map[];
    assert Merge(target, map[]) == target;
    while pending != {}
      invariant pending <= source.Keys
      invariant result == Merge(target, Restrict(source, source.Keys - pending))
      decreases pending
    {
      var key :| key in pending;
      var sourceValue := source[key];
      MergeStep(target, source, source.Keys - pending, key);
      if IsPlainObject(sourceValue) && key in result && IsPlainObject(result[key]) {
        var sub := DeepMerge(result[key].fields, sourceValue.fields);
        result := result[key := Obj(sub)];
      } else if !sourceValue.Undefined? {
        result := result[key := sourceValue];
      }
      assert source.Keys - (pending - {key}) == (source.Keys - pending) + {key};
      pending := pending - {key};
    }
    assert Restrict(source, source.Keys) == source;
  }

  /** Every key of the target survives, and keys the source does not name
      keep the target's value. */
  lemma MergeKeepsTarget(target: map<string, Value>, source: map<string, Value>, k: string)
    requires k in target
    ensures k in Merge(target, source)
    ensures k !in source ==> Merge(target, source)[k] == target[k]
    ensures k in source && source[k].Undefined? ==> Merge(target, source)[k] == target[k]
  {
  }

  /** A defined source value that is not a plain object over a plain object
      replaces the target's entry: primitives, falsy values, `null`, arrays,
      and objects over a non-object all land as they are. */
  lemma MergeReplaces(target: map<string, Value>, source: map<string, Value>, k: string)
    requires k in source && !source[k].Undefined?
    requires !(source[k].Obj? && k in target && target[k].Obj?)
    ensures Merge(target, source)[k] == source[k]
  {
  }

  /** Two plain objects under the same key merge recursively. */
  lemma MergeRecurses(target: map<string, Value>, source: map<string, Value>, k: string)
    requires k in source && source[k].Obj? && k in target && target[k].Obj?
    ensures Merge(target, source)[k] == Obj(Merge(target[k].fields, source[k].fields))
  {
  }

  /** Merging an object into itself gives it back. */
  lemma {:induction false} SelfMerge(m: map<string, Value>)
    ensures Merge(m, m) == m
    decreases Obj(m)
  {
    forall k | k in m && m[k].Obj?
      ensures Merge(m[k].fields, m[k].fields) == m[k].fields
    {
      SelfMerge(m[k].fields);
    }
  }

  /** Applying the same override twice is the same as applying it once. */
  lemma {:induction false} MergeIdempotent(target: map<string, Value>, source: map<string, Value>)
    ensures Merge(Merge(target, source), source) == Merge(target, source)
    decreases Obj(source)
  {
    var once := Merge(target, source);
    forall k | k in source && source[k].Obj? && k in once && once[k].Obj?
      ensures Merge(once[k].fields, source[k].fields) == once[k].fields
    {
      if k in target && target[k].Obj? {
        MergeIdempotent(target[k].fields, source[k].fields);
      } else {
        SelfMerge(source[k].fields);
      }
    }
  }

  /** An empty override changes nothing. */
  lemma MergeEmpty(target: map<string, Value>)
    ensures Merge(target, map[]) == target
  {
  }

  /** Overriding one leaf `{group: {key: x}}` changes the target at
      `group.key` and nowhere else. */
  lemma LeafOverride(target: map<string, Value>, group: string, key: string, x: Value)
    requires group in target && target[group].Obj?
    requires !x.Obj? && !x.Undefined?
    ensures Merge(target, map[group := Obj(map[key := x])]) ==
            target[group := Obj(target[group].fields[key := x])]
  {
    var inner := Merge(target[group].fields, map[key := x]);
    assert inner == target[group].fields[key := x];
  }

  // ---------------------------------------------------------------------
  // Theme shape
  // ---------------------------------------------------------------------

  /** Same JavaScript kind of value. */
  predicate SameKind(a: Value, b: Value) {
    a.Obj? == b.Obj? && a.Arr? == b.Arr? && a.Str? == b.Str? && a.Num? == b.Num? &&
    a.Bool? == b.Bool? && a.Null? == b.Null? && a.Undefined? == b.Undefined?
  }

  /** `s` fits the type `DeepPartial` of the type of `t`: it is undefined,
      or an object naming only keys of `t` with fitting values, or a
      non-object of the same kind as `t`. */
  predicate FitsPartial(s: Value, t: Value)
    decreases s
  {
    s.Undefined? ||
    (s.Obj? && t.Obj? && forall k :: k in s.fields ==> k in t.fields && FitsPartial(s.fields[k], t.fields[k])) ||
    (!s.Obj? && !t.Obj? && SameKind(s, t))
  }

  /** `r` has exactly the shape of `t`: the same keys at every level and the
      same kind of value at every leaf. */
  predicate SameShape(r: Value, t: Value)
    decreases t
  {
    SameKind(r, t) &&
    (t.Obj? ==> r.fields.Keys == t.fields.Keys &&
                forall k :: k in t.fields ==> SameShape(r.fields[k], t.fields[k]))
  }

  lemma {:induction false} SameShapeReflexive(t: Value)
    ensures SameShape(t, t)
    decreases t
  {
    if t.Obj? {
      forall k | k in t.fields
        ensures SameShape(t.fields[k], t.fields[k])
      {
        SameShapeReflexive(t.fields[k]);
      }
    }
  }

  /** A well-typed partial override keeps the theme's shape: no token is
      lost, added or turned into another kind of value. */
  lemma {:induction false} MergeKeepsShape(target: map<string, Value>, source: map<string, Value>)
    requires forall k :: k in source ==> k in target && FitsPartial(source[k], target[k])
    ensures SameShape(Obj(Merge(target, source)), Obj(target))
    decreases Obj(source)
  {
    var r := Merge(target, source);
    forall k | k in target
      ensures SameShape(r[k], target[k])
    {
      if k in source && source[k].Obj? {
        MergeKeepsShape(target[k].fields, source[k].fields);
      } else {
        SameShapeReflexive(target[k]);
      }
    }
  }

  // ---------------------------------------------------------------------
  // The default theme as a value
  // ---------------------------------------------------------------------

  lemma DecimalInjective()
    ensures forall a: nat, b: nat {:trigger DefaultTheme.Decimal(a), DefaultTheme.Decimal(b)} ::
              DefaultTheme.Decimal(a) == DefaultTheme.Decimal(b) ==> a == b
  {
    forall a: nat, b: nat | DefaultTheme.Decimal(a) == DefaultTheme.Decimal(b)
      ensures a == b
    {
      DefaultTheme.DecimalRoundTrip(a);
      DefaultTheme.DecimalRoundTrip(b);
    }
  }

  /** A scale keyed `'1'` … `'count'`. */
  function Numbered(count: nat, entry: int -> Option<Value>): Value {
    DecimalInjective();
    Obj(map k: nat | 1 <= k <= count :: DefaultTheme.Decimal(k) := entry(k).GetOr(Undefined))
  }

  function ColorsValue(c: DefaultTheme.ThemeColors): Value {
    Obj(map[
      "primary" := Str(c.primary),
      "secondary" := Str(c.secondary),
      "accent50" := Str(c.accent50),
      "accent100" := Str(c.accent100),
      "accent200" := Str(c.accent200),
      "accent300" := Str(c.accent300),
      "accent400" := Str(c.accent400),
      "accent500" := Str(c.accent500),
      "accent600" := Str(c.accent600),
      "accent700" := Str(c.accent700),
      "accent800" := Str(c.accent800),
      "accent900" := Str(c.accent900),
      "primary50" := Str(c.primary50),
      "primary100" := Str(c.primary100),
      "primary200" := Str(c.primary200),
      "primary300" := Str(c.primary300),
      "primary400" := Str(c.primary400),
      "primary500" := Str(c.primary500),
      "primary600" := Str(c.primary600),
      "primary700" := Str(c.primary700),
      "primary800" := Str(c.primary800),
      "primary900" := Str(c.primary900),
      "warning50" := Str(c.warning50),
      "warning100" := Str(c.warning100),
      "warning200" := Str(c.warning200),
      "warning300" := Str(c.warning300),
      "warning400" := Str(c.warning400),
      "warning500" := Str(c.warning500),
      "warning600" := Str(c.warning600),
      "warning700" := Str(c.warning700),
      "warning800" := Str(c.warning800),
      "warning900" := Str(c.warning900),
      "highlight50" := Str(c.highlight50),
      "highlight100" := Str(c.highlight100),
      "highlight200" := Str(c.highlight200),
      "highlight300" := Str(c.highlight300),
      "highlight400" := Str(c.highlight400),
      "highlight500" := Str(c.highlight500),
      "highlight600" := Str(c.highlight600),
      "highlight700" := Str(c.highlight700),
      "highlight800" := Str(c.highlight800),
      "highlight900" := Str(c.highlight900),
      "positive50" := Str(c.positive50),
      "positive100" := Str(c.positive100),
      "positive200" := Str(c.positive200),
      "positive300" := Str(c.positive300),
      "positive400" := Str(c.positive400),
      "positive500" := Str(c.positive500),
      "positive600" := Str(c.positive600),
      "positive700" := Str(c.positive700),
      "positive800" := Str(c.positive800),
      "positive900" := Str(c.positive900),
      "secondary50" := Str(c.secondary50),
      "secondary100" := Str(c.secondary100),
      "secondary200" := Str(c.secondary200),
      "secondary300" := Str(c.secondary300),
      "secondary400" := Str(c.secondary400),
      "secondary500" := Str(c.secondary500),
      "secondary600" := Str(c.secondary600),
      "secondary700" := Str(c.secondary700),
      "secondary800" := Str(c.secondary800),
      "secondary900" := Str(c.secondary900),
      "negative50" := Str(c.negative50),
      "negative100" := Str(c.negative100),
      "negative200" := Str(c.negative200),
      "negative300" := Str(c.negative300),
      "negative400" := Str(c.negative400),
      "negative500" := Str(c.negative500),
      "negative600" := Str(c.negative600),
      "negative700" := Str(c.negative700),
      "negative800" := Str(c.negative800),
      "negative900" := Str(c.negative900),
      "neutral50" := Str(c.neutral50),
      "neutral100" := Str(c.neutral100),
      "neutral200" := Str(c.neutral200),
      "neutral300" := Str(c.neutral300),
      "neutral400" := Str(c.neutral400),
      "neutral500" := Str(c.neutral500),
      "neutral600" := Str(c.neutral600),
      "neutral700" := Str(c.neutral700),
      "neutral800" := Str(c.neutral800),
      "neutral900" := Str(c.neutral900),
      "black50" := Str(c.black50),
      "black100" := Str(c.black100),
      "black200" := Str(c.black200),
      "black300" := Str(c.black300),
      "black400" := Str(c.black400),
      "black500" := Str(c.black500),
      "black600" := Str(c.black600),
      "black700" := Str(c.black700),
      "black800" := Str(c.black800),
      "black900" := Str(c.black900),
      "white50" := Str(c.white50),
      "white100" := Str(c.white100),
      "white200" := Str(c.white200),
      "white300" := Str(c.white300),
      "white400" := Str(c.white400),
      "white500" := Str(c.white500),
      "white600" := Str(c.white600),
      "white700" := Str(c.white700),
      "white800" := Str(c.white800),
      "white900" := Str(c.white900)])
  }

  function NumberValue(o: Option<real>): Option<Value> {
    if o.Some? then Some(Num(o.value)) else None
  }

  function StringValue(o: Option<string>): Option<Value> {
    if o.Some? then Some(Str(o.value)) else None
  }

  /** `defaultTheme` as an object. */
  function DefaultThemeValue(): Value {
    var fs := DefaultTheme.DefaultFontSizes;
    var lh := DefaultTheme.DefaultLineHeights;
    var bw := DefaultTheme.DefaultBorderWidths;
    var rd := DefaultTheme.DefaultRadii;
    var f := DefaultTheme.Fonts;
    Obj(map[
      "space" := Numbered(50, k => NumberValue(DefaultTheme.Space(k))),
      "fontSizes" := Obj(map["xxs" := Num(fs.xxs), "xs" := Num(fs.xs), "sm" := Num(fs.sm), "md" := Num(fs.md),
                             "lg" := Num(fs.lg), "xl" := Num(fs.xl), "2xl" := Num(fs.xl2), "3xl" := Num(fs.xl3),
                             "4xl" := Num(fs.xl4), "5xl" := Num(fs.xl5)]),
      "fonts" := Obj(map["regular" := Str(f.regular), "medium" := Str(f.medium), "bold" := Str(f.bold)]),
      "fontWeights" := Numbered(9, k => StringValue(DefaultTheme.FontWeights(k))),
      "lineHeights" := Obj(map["xxs" := Num(lh.xxs), "xs" := Num(lh.xs), "sm" := Num(lh.sm), "md" := Num(lh.md),
                               "lg" := Num(lh.lg), "xl" := Num(lh.xl), "2xl" := Num(lh.xl2), "3xl" := Num(lh.xl3),
                               "4xl" := Num(lh.xl4)]),
      "letterSpacings" := Obj(map[]),
      "sizes" := Numbered(34, k => NumberValue(DefaultTheme.Sizes(k))),
      "borderWidths" := Obj(map["xs" := Num(bw.xs), "sm" := Num(bw.sm), "md" := Num(bw.md), "lg" := Num(bw.lg),
                                "xl" := Num(bw.xl)]),
      "borderStyles" := Obj(map[]),
      "radii" := Obj(map["none" := Num(rd.none), "xs" := Num(rd.xs), "sm" := Num(rd.sm), "md" := Num(rd.md),
                         "lg" := Num(rd.lg), "xl" := Num(rd.xl), "2xl" := Num(rd.xl2), "3xl" := Num(rd.xl3),
                         "4xl" := Num(rd.xl4), "round" := Num(rd.round), "pill" := Num(rd.pill)]),
      "shadows" := Obj(map["sm" := Str(DefaultTheme.ShadowSm)]),
      "zIndices" := Obj(map[]),
      "transitions" := Numbered(3, k => NumberValue(DefaultTheme.Transitions(k))),
      "colors" := ColorsValue(DefaultTheme.Colors)])
  }

  /** A numbered scale holds entry k under the decimal key of k. */
  lemma NumberedLookup(count: nat, entry: int -> Option<Value>, k: nat)
    requires 1 <= k <= count && entry(k).Some?
    ensures DefaultTheme.Decimal(k) in Numbered(count, entry).fields
    ensures Numbered(count, entry).fields[DefaultTheme.Decimal(k)] == entry(k).value
  {
    DecimalInjective();
  }

  /** In the value form, `space['k']` is `2k` under the decimal key of k. */
  lemma SpaceValue(k: nat)
    requires 1 <= k <= 50
    ensures var space := Numbered(50, k => NumberValue(DefaultTheme.Space(k)));
            DefaultTheme.Decimal(k) in space.fields &&
            space.fields[DefaultTheme.Decimal(k)] == Num(2.0 * k as real)
  {
    DefaultTheme.SpaceScale(k);
    NumberedLookup(50, k => NumberValue(DefaultTheme.Space(k)), k);
  }

  // ---------------------------------------------------------------------
  // Provider and consumer
  // ---------------------------------------------------------------------

  /** The theme a `TwigsProvider` puts into context: the default theme when
      no custom theme is given, else the custom theme merged into the
      default. It never reads an enclosing provider's theme. */
  function TwigsProvider(customTheme: Option<map<string, Value>>): (theme: Value)
    ensures theme.Obj?
    ensures customTheme.None? ==> theme == DefaultThemeValue()
    ensures customTheme.Some? ==> theme.fields == Merge(DefaultThemeValue().fields, customTheme.value)
  {
    if customTheme.None? then DefaultThemeValue()
    else
      Obj(Merge(DefaultThemeValue().fields, customTheme.value))
  }

  /** The context value a component sees: the nearest provider's value, or
      the context default (the default theme) outside any provider. */
  function ContextValue(nearestProvider: Option<Value>): Value {
    nearestProvider.GetOr(DefaultThemeValue())
  }

  /** `useTheme()`: the context value, or the default theme when it is falsy. */
  function UseTheme(contextTheme: Value): (theme: Value)
    ensures Truthy(contextTheme) ==> theme == contextTheme
    ensures !Truthy(contextTheme) ==> theme == DefaultThemeValue()
    ensures Truthy(theme)
  {
    if Truthy(contextTheme) then contextTheme else DefaultThemeValue()
  }

  /** Nested providers do not compose: under an outer provider that sets
      `fonts.regular` to `x`, an inner provider with an empty override
      gives its children the plain default theme, not the outer one. */
  lemma NestedProvidersDoNotCompose(x: string)
    requires x != DefaultTheme.Fonts.regular
    ensures var outer := TwigsProvider(Some(map["fonts" := Obj(map["regular" := Str(x)])]));
            var seen := UseTheme(ContextValue(Some(TwigsProvider(Some(map[])))));
            seen == DefaultThemeValue() && seen != outer
  {
    var f := DefaultTheme.Fonts;
    MergeEmpty(DefaultThemeValue().fields);
    DefaultFontsAt();
    LeafOverride(DefaultThemeValue().fields, "fonts", "regular", Str(x));
    assert map["regular" := Str(f.regular), "medium" := Str(f.medium), "bold" := Str(f.bold)]["regular"] == Str(f.regular);
  }

  /** Where the default theme keeps its fonts. */
  lemma DefaultFontsAt()
    ensures "fonts" in DefaultThemeValue().fields
    ensures var f := DefaultTheme.Fonts;
            DefaultThemeValue().fields["fonts"] ==
            Obj(map["regular" := Str(f.regular), "medium" := Str(f.medium), "bold" := Str(f.bold)])
  {
  }

  /** Overriding `colors.primary500` with a string changes the default
      theme at that token only. */
  lemma PrimaryOverride(x: string)
    ensures TwigsProvider(Some(map["colors" := Obj(map["primary500" := Str(x)])])) ==
            Obj(DefaultThemeValue().fields["colors" := Obj(ColorsValue(DefaultTheme.Colors).fields["primary500" := Str(x)])])
  {
    LeafOverride(DefaultThemeValue().fields, "colors", "primary500", Str(x));
  }
}
