/** The loader size tables (src/loader/constants.ts, src/loader/types.ts):
    the line loader's track box and the circle loader's diameter and stroke. */
module LoaderConstants {
  import opened Wrappers

  /** `LineLoaderSize`: `'sm' | 'md' | 'lg' | 'xl'`. */
  datatype LineSize = LineSm | LineMd | LineLg | LineXl

  function LineSizeName(s: LineSize): string {
    match s
    case LineSm => "sm"
    case LineMd => "md"
    case LineLg => "lg"
    case LineXl => "xl"
  }

  function LineRank(s: LineSize): nat {
    match s
    case LineSm => 0
    case LineMd => 1
    case LineLg => 2
    case LineXl => 3
  }

  /** The size a key of `LINE_LOADER_DIMENSIONS` names, if any. */
  function ParseLineSize(name: string): (r: Option<LineSize>)
    ensures r.Some? ==> LineSizeName(r.value) == name
    ensures forall s: LineSize :: name == LineSizeName(s) ==> r == Some(s)
  {
    if name == "sm" then Some(LineSm)
    else if name == "md" then Some(LineMd)
    else if name == "lg" then Some(LineLg)
    else if name == "xl" then Some(LineXl)
    else None
  }

  /** A track box, in points. */
  datatype LoaderBox = LoaderBox(width: real, height: real)

  /** `LINE_LOADER_DIMENSIONS[size]`. */
  function LineLoaderDimensions(s: LineSize): LoaderBox {
    match s
    case LineSm => LoaderBox(24.0, 4.0)
    case LineMd => LoaderBox(24.0, 5.0)
    case LineLg => LoaderBox(24.0, 6.0)
    case LineXl => LoaderBox(24.0, 8.0)
  }

  /** Every track is 24 wide, and a larger size is strictly thicker. */
  lemma LineHeightsIncrease(a: LineSize, b: LineSize)
    ensures LineLoaderDimensions(a).width == 24.0
    ensures LineRank(a) < LineRank(b) ==> LineLoaderDimensions(a).height < LineLoaderDimensions(b).height
    ensures LineRank(a) == LineRank(b) ==> a == b
  {
  }

  /** `CircleLoaderSize`: `'xs' | 'sm' | 'md' | 'lg' | 'xl' | '2xl' | '3xl'`. */
  datatype CircleSize = CircleXs | CircleSm | CircleMd | CircleLg | CircleXl | Circle2xl | Circle3xl

  function CircleSizeName(s: CircleSize): string {
    match s
    case CircleXs => "xs"
    case CircleSm => "sm"
    case CircleMd => "md"
    case CircleLg => "lg"
    case CircleXl => "xl"
    case Circle2xl => "2xl"
    case Circle3xl => "3xl"
  }

  function CircleRank(s: CircleSize): nat {
    match s
    case CircleXs => 0
    case CircleSm => 1
    case CircleMd => 2
    case CircleLg => 3
    case CircleXl => 4
    case Circle2xl => 5
    case Circle3xl => 6
  }

  /** `CIRCLE_LOADER_DIAMETERS[size]`. */
  function CircleDiameter(s: CircleSize): real {
    match s
    case CircleXs => 8.0
    case CircleSm => 10.0
    case CircleMd => 12.0
    case CircleLg => 16.0
    case CircleXl => 24.0
    case Circle2xl => 32.0
    case Circle3xl => 40.0
  }

  /** `CIRCLE_STROKE_WIDTHS[size]`. */
  function CircleStrokeWidth(s: CircleSize): real {
    match s
    case CircleXs => 1.5
    case CircleSm => 1.5
    case CircleMd => 2.0
    case CircleLg => 2.0
    case CircleXl => 2.5
    case Circle2xl => 3.0
    case Circle3xl => 3.0
  }

  /** Diameters strictly increase with the size, strokes never shrink, and
      every stroke is thinner than its circle, so the radius of the stroked
      ring `(diameter - stroke) / 2` is positive. */
  lemma CircleTablesOrdered(a: CircleSize, b: CircleSize)
    ensures CircleRank(a) < CircleRank(b) ==> CircleDiameter(a) < CircleDiameter(b)
    ensures CircleRank(a) <= CircleRank(b) ==> CircleStrokeWidth(a) <= CircleStrokeWidth(b)
    ensures 0.0 < CircleStrokeWidth(a) < CircleDiameter(a)
    ensures (CircleDiameter(a) - CircleStrokeWidth(a)) / 2.0 > 0.0
  {
  }

  /** The size a key of the circle tables names, if any. */
  function ParseCircleSize(name: string): (r: Option<CircleSize>)
    ensures r.Some? ==> CircleSizeName(r.value) == name
    ensures forall s: CircleSize :: name == CircleSizeName(s) ==> r == Some(s)
  {
    if name == "xs" then Some(CircleXs)
    else if name == "sm" then Some(CircleSm)
    else if name == "md" then Some(CircleMd)
    else if name == "lg" then Some(CircleLg)
    else if name == "xl" then Some(CircleXl)
    else if name == "2xl" then Some(Circle2xl)
    else if name == "3xl" then Some(Circle3xl)
    else None
  }

  /** The two circle tables, looked up by a run-time key: each has an entry
      for exactly the seven size names, so they share one key set. */
  function CircleDiameterOf(name: string): (r: Option<real>)
    ensures r.Some? <==> ParseCircleSize(name).Some?
    ensures r.Some? ==> r == Some(CircleDiameter(ParseCircleSize(name).value))
  {
    if name == "xs" then Some(8.0)
    else if name == "sm" then Some(10.0)
    else if name == "md" then Some(12.0)
    else if name == "lg" then Some(16.0)
    else if name == "xl" then Some(24.0)
    else if name == "2xl" then Some(32.0)
    else if name == "3xl" then Some(40.0)
    else None
  }

  function CircleStrokeWidthOf(name: string): (r: Option<real>)
    ensures r.Some? <==> CircleDiameterOf(name).Some?
    ensures r.Some? ==> r == Some(CircleStrokeWidth(ParseCircleSize(name).value))
  {
    if name == "xs" || name == "sm" then Some(1.5)
    else if name == "md" || name == "lg" then Some(2.0)
    else if name == "xl" then Some(2.5)
    else if name == "2xl" || name == "3xl" then Some(3.0)
    else None
  }
}
