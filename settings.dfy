/** The chart's configuration object and `setDefaults`, which fills in every
    option the caller left falsy.

    JavaScript truthiness is modelled per kind of option: a string option is
    falsy when it is missing or empty, a number option when it is missing or
    zero, and an object or array option only when it is missing (an empty
    array or object is truthy). */
module Settings {

  datatype Option<T> = None | Some(value: T)

  datatype Margin = Margin(top: real, right: real, bottom: real, left: real)

  /** A `{min, max}` object, used for `hexbin.radius` and `hexbin.countRange`.
      `setDefaults` replaces a missing object but not a missing member, so
      either bound may be missing. */
  datatype Range = Range(min: Option<real>, max: Option<real>)

  /** The nested `hexbin` object; its two members may each be missing. */
  datatype Hexbin = Hexbin(radius: Option<Range>, countRange: Option<Range>)

  /** A snapshot of every option of the configuration object. */
  datatype Options = Options(
    pCol: Option<string>,
    ratioCol: Option<string>,
    referenceCol: Option<string>,
    comparisonCol: Option<string>,
    height: Option<real>,
    width: Option<real>,
    margin: Option<Margin>,
    showYaxis: Option<string>,
    structure: Option<seq<string>>,
    colorVar: Option<string>,
    ratioLimit: Option<real>,
    hexbin: Option<Hexbin>)

  predicate TruthyText(o: Option<string>) {
    o.Some? && o.value != ""
  }

  predicate TruthyNumber(o: Option<real>) {
    o.Some? && o.value != 0.0
  }

  /** The library's `defaultSettings` object. */
  const DEFAULT_SETTINGS: Options := Options(
    pCol := None,
    ratioCol := None,
    referenceCol := None,
    comparisonCol := None,
    height := Some(240.0),
    width := Some(300.0),
    margin := Some(DEFAULT_MARGIN),
    showYaxis := Some("all"),
    structure := Some([]),
    colorVar := Some(""),
    ratioLimit := Some(2.0),
    hexbin := Some(Hexbin(Some(DEFAULT_RADIUS), Some(DEFAULT_COUNT_RANGE))))

  const DEFAULT_MARGIN: Margin := Margin(10.0, 10.0, 50.0, 80.0)
  const DEFAULT_RADIUS: Range := Range(Some(3.0), Some(10.0))
  const DEFAULT_COUNT_RANGE: Range := Range(Some(3.0), Some(100.0))

  function TextOr(o: Option<string>, default: Option<string>): Option<string> {
    if TruthyText(o) then o else default
  }

  function NumberOr(o: Option<real>, default: Option<real>): Option<real> {
    if TruthyNumber(o) then o else default
  }

  function PresentOr<T>(o: Option<T>, default: T): Option<T> {
    if o.Some? then o else Some(default)
  }

  /** The hexbin object with its missing radius and count range filled in;
      a missing object counts as `{}`. */
  function FillRanges(o: Option<Hexbin>): Hexbin {
    var h := if o.Some? then o.value else Hexbin(None, None);
    Hexbin(PresentOr(h.radius, DEFAULT_RADIUS), PresentOr(h.countRange, DEFAULT_COUNT_RANGE))
  }

  /** `after` is `before` when `before` was truthy, and `default` otherwise. */
  predicate KeptOrDefaulted<T(==)>(truthy: bool, before: Option<T>, after: Option<T>, default: Option<T>) {
    (truthy ==> after == before) && (!truthy ==> after == default)
  }

  /** The colour variable used when none is configured: the first entry of
      `structure`, else the default `''`. */
  function ColorFallback(structure: Option<seq<string>>): string {
    if structure.Some? && |structure.value| >= 1 then structure.value[0] else ""
  }

  /** What the configuration holds once every default is in place: the state
      `setDefaults` establishes. Column names may stay null, since their
      default is null. */
  predicate Complete(o: Options) {
    (o.pCol.None? || TruthyText(o.pCol)) &&
    (o.ratioCol.None? || TruthyText(o.ratioCol)) &&
    TruthyNumber(o.height) && TruthyNumber(o.width) &&
    o.margin.Some? &&
    TruthyText(o.showYaxis) &&
    o.structure.Some? &&
    (TruthyText(o.colorVar) || o.colorVar == Some(ColorFallback(o.structure))) &&
    TruthyNumber(o.ratioLimit) &&
    o.hexbin.Some? && o.hexbin.value.radius.Some? && o.hexbin.value.countRange.Some?
  }

  /** The options `setDefaults` leaves behind, as a function of the options it
      was given. */
  function WithDefaults(o: Options): (r: Options)
    ensures Complete(r)
  {
    var structure := PresentOr(o.structure, []);
    o.(pCol := TextOr(o.pCol, DEFAULT_SETTINGS.pCol),
       ratioCol := TextOr(o.ratioCol, DEFAULT_SETTINGS.ratioCol),
       height := NumberOr(o.height, DEFAULT_SETTINGS.height),
       width := NumberOr(o.width, DEFAULT_SETTINGS.width),
       margin := PresentOr(o.margin, DEFAULT_MARGIN),
       showYaxis := TextOr(o.showYaxis, DEFAULT_SETTINGS.showYaxis),
       structure := structure,
       colorVar := TextOr(o.colorVar, Some(ColorFallback(o.structure))),
       ratioLimit := NumberOr(o.ratioLimit, DEFAULT_SETTINGS.ratioLimit),
       hexbin := Some(FillRanges(o.hexbin)))
  }

  /** Every option that was truthy is kept and every falsy one takes its
      default; reference and comparison columns are left as they are. */
  lemma WithDefaultsKeepsOrDefaults(o: Options)
    ensures KeptOrDefaulted(TruthyText(o.pCol), o.pCol, WithDefaults(o).pCol, DEFAULT_SETTINGS.pCol)
    ensures KeptOrDefaulted(TruthyText(o.ratioCol), o.ratioCol, WithDefaults(o).ratioCol, DEFAULT_SETTINGS.ratioCol)
    ensures KeptOrDefaulted(TruthyNumber(o.height), o.height, WithDefaults(o).height, DEFAULT_SETTINGS.height)
    ensures KeptOrDefaulted(TruthyNumber(o.width), o.width, WithDefaults(o).width, DEFAULT_SETTINGS.width)
    ensures KeptOrDefaulted(o.margin.Some?, o.margin, WithDefaults(o).margin, DEFAULT_SETTINGS.margin)
    ensures KeptOrDefaulted(TruthyText(o.showYaxis), o.showYaxis, WithDefaults(o).showYaxis, DEFAULT_SETTINGS.showYaxis)
    ensures KeptOrDefaulted(o.structure.Some?, o.structure, WithDefaults(o).structure, DEFAULT_SETTINGS.structure)
    ensures KeptOrDefaulted(TruthyNumber(o.ratioLimit), o.ratioLimit, WithDefaults(o).ratioLimit, DEFAULT_SETTINGS.ratioLimit)
    ensures KeptOrDefaulted(o.hexbin.Some? && o.hexbin.value.radius.Some?,
                            if o.hexbin.Some? then o.hexbin.value.radius else None,
                            WithDefaults(o).hexbin.value.radius, Some(DEFAULT_RADIUS))
    ensures KeptOrDefaulted(o.hexbin.Some? && o.hexbin.value.countRange.Some?,
                            if o.hexbin.Some? then o.hexbin.value.countRange else None,
                            WithDefaults(o).hexbin.value.countRange, Some(DEFAULT_COUNT_RANGE))
    // a falsy colorVar falls back to structure[0], then to ''
    ensures KeptOrDefaulted(TruthyText(o.colorVar), o.colorVar, WithDefaults(o).colorVar,
                            Some(ColorFallback(o.structure)))
    ensures WithDefaults(o).referenceCol == o.referenceCol && WithDefaults(o).comparisonCol == o.comparisonCol
  {
  }

  /** `WithDefaults`, read field by field in the order `setDefaults` assigns them. */
  lemma WithDefaultsByField(o: Options, r: Options)
    requires r.pCol == TextOr(o.pCol, DEFAULT_SETTINGS.pCol)
    requires r.ratioCol == TextOr(o.ratioCol, DEFAULT_SETTINGS.ratioCol)
    requires r.referenceCol == o.referenceCol && r.comparisonCol == o.comparisonCol
    requires r.height == NumberOr(o.height, DEFAULT_SETTINGS.height)
    requires r.width == NumberOr(o.width, DEFAULT_SETTINGS.width)
    requires r.margin == PresentOr(o.margin, DEFAULT_MARGIN)
    requires r.showYaxis == TextOr(o.showYaxis, DEFAULT_SETTINGS.showYaxis)
    requires r.structure == PresentOr(o.structure, [])
    requires r.colorVar == TextOr(o.colorVar, Some(ColorFallback(r.structure)))
    requires r.ratioLimit == NumberOr(o.ratioLimit, DEFAULT_SETTINGS.ratioLimit)
    requires r.hexbin == Some(FillRanges(o.hexbin))
    ensures r == WithDefaults(o)
  {
  }

  /** Normalising is a fixed point exactly on complete options. */
  lemma WithDefaultsFixedPoint(o: Options)
    ensures WithDefaults(o) == o <==> Complete(o)
  {
  }

  /** Normalising twice is normalising once. */
  lemma WithDefaultsIdempotent(o: Options)
    ensures WithDefaults(WithDefaults(o)) == WithDefaults(o)
  {
    WithDefaultsFixedPoint(WithDefaults(o));
  }

  /** Because the test is truthiness, a ratio limit of zero is replaced. */
  lemma ZeroRatioLimitIsReplaced(o: Options)
    requires o.ratioLimit == Some(0.0)
    ensures WithDefaults(o).ratioLimit == Some(2.0)
  {
  }

  /** The mutable configuration object (`chart.config`, `settings`). */
  class Config {
    var pCol: Option<string>
    var ratioCol: Option<string>
    var referenceCol: Option<string>
    var comparisonCol: Option<string>
    var height: Option<real>
    var width: Option<real>
    var margin: Option<Margin>
    var showYaxis: Option<string>
    var structure: Option<seq<string>>
    var colorVar: Option<string>
    var ratioLimit: Option<real>
    var hexbin: Option<Hexbin>

    function Value(): Options
      reads this
    {
      Options(pCol, ratioCol, referenceCol, comparisonCol, height, width, margin,
              showYaxis, structure, colorVar, ratioLimit, hexbin)
    }

    constructor (o: Options)
      ensures Value() == o
    {
      pCol, ratioCol, referenceCol, comparisonCol := o.pCol, o.ratioCol, o.referenceCol, o.comparisonCol;
      height, width, margin, showYaxis := o.height, o.width, o.margin, o.showYaxis;
      structure, colorVar, ratioLimit, hexbin := o.structure, o.colorVar, o.ratioLimit, o.hexbin;
    }

    /** Replaces every falsy option by its default, field by field, in place. */
    method SetDefaults()
      modifies this
      ensures Value() == WithDefaults(old(Value()))
    {
      ghost var before := Value();
      SetColumnAndLayoutDefaults();
      SetColorDefaults();
      SetLimitDefaults();
      WithDefaultsByField(before, Value());
    }

    /** The first six assignments of `setDefaults`: the p and ratio columns
        and the layout options. */
    method SetColumnAndLayoutDefaults()
      modifies this
      ensures Value() == old(Value()).(
        pCol := TextOr(old(pCol), DEFAULT_SETTINGS.pCol),
        ratioCol := TextOr(old(ratioCol), DEFAULT_SETTINGS.ratioCol),
        height := NumberOr(old(height), DEFAULT_SETTINGS.height),
        width := NumberOr(old(width), DEFAULT_SETTINGS.width),
        margin := PresentOr(old(margin), DEFAULT_MARGIN),
        showYaxis := TextOr(old(showYaxis), DEFAULT_SETTINGS.showYaxis))
    {
      pCol := TextOr(pCol, DEFAULT_SETTINGS.pCol);
      ratioCol := TextOr(ratioCol, DEFAULT_SETTINGS.ratioCol);
      height := NumberOr(height, DEFAULT_SETTINGS.height);
      width := NumberOr(width, DEFAULT_SETTINGS.width);
      margin := PresentOr(margin, DEFAULT_MARGIN);
      showYaxis := TextOr(showYaxis, DEFAULT_SETTINGS.showYaxis);
    }

    /** `structure`, then `colorVar`, whose fallback reads the new
        `structure`. */
    method SetColorDefaults()
      modifies this
      ensures Value() == old(Value()).(
        structure := PresentOr(old(structure), []),
        colorVar := TextOr(old(colorVar), Some(ColorFallback(PresentOr(old(structure), [])))))
    {
      structure := PresentOr(structure, []);
      colorVar := TextOr(colorVar, Some(ColorFallback(structure)));
    }

    /** `ratioLimit`, then the `hexbin` object and its two ranges. */
    method SetLimitDefaults()
      modifies this
      ensures Value() == old(Value()).(
        ratioLimit := NumberOr(old(ratioLimit), DEFAULT_SETTINGS.ratioLimit),
        hexbin := Some(FillRanges(old(hexbin))))
    {
      ratioLimit := NumberOr(ratioLimit, DEFAULT_SETTINGS.ratioLimit);
      hexbin := PresentOr(hexbin, Hexbin(None, None));
      hexbin := Some(FillRanges(hexbin));
    }
  }
}
