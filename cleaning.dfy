/** `makeCleanData`: every raw record gets its plot name, and a ratio above
    the configured limit is clamped to it, the original being kept in
    `origRatio` and flagged by `aboveLimit`. Records are changed in place. */
module Cleaning {
  import opened Settings

  /** The fields of one record that the chart reads or writes. The designated
      columns (`comparison_col`, `reference_col`, `ratio_col`, `p_col`,
      `colorVar`) appear under fixed names; numeric columns hold numbers. */
  datatype RecordValue = RecordValue(
    comparison: string,
    reference: string,
    ratio: real,
    p: real,
    category: string,
    plotName: string,
    origRatio: Option<real>,
    aboveLimit: bool)

  /** One input row, updated in place by cleaning. */
  class Record {
    var comparison: string
    var reference: string
    var ratio: real
    var p: real
    /** The record's value in the `colorVar` column. */
    var category: string
    var plotName: string
    var origRatio: Option<real>
    var aboveLimit: bool

    function Value(): RecordValue
      reads this
    {
      RecordValue(comparison, reference, ratio, p, category, plotName, origRatio, aboveLimit)
    }

    constructor (v: RecordValue)
      ensures Value() == v
    {
      comparison, reference, ratio, p := v.comparison, v.reference, v.ratio, v.p;
      category, plotName, origRatio, aboveLimit := v.category, v.plotName, v.origRatio, v.aboveLimit;
    }

    /** The body of the `map` callback in `makeCleanData`. */
    method Clean(limit: real)
      modifies this
      ensures Value() == Cleaned(old(Value()), limit)
    {
      plotName := comparison + SEPARATOR + reference;
      if ratio > limit {
        origRatio := Some(ratio);
        ratio := limit;
        aboveLimit := true;
      }
    }
  }

  const SEPARATOR: string := " vs. "

  /** A raw record: cleaning has not flagged it yet. */
  predicate Raw(v: RecordValue) {
    v.origRatio.None? && !v.aboveLimit
  }

  /** The ratio before clamping, as far as the record remembers it. */
  function UnclampedRatio(v: RecordValue): real {
    if v.aboveLimit && v.origRatio.Some? then v.origRatio.value else v.ratio
  }

  /** The record as `makeCleanData` leaves it. */
  function Cleaned(v: RecordValue, limit: real): (r: RecordValue)
    ensures r.plotName == v.comparison + SEPARATOR + v.reference
    ensures r.ratio <= limit
    ensures v.ratio > limit ==> r.ratio == limit && r.origRatio == Some(v.ratio) && r.aboveLimit
    ensures v.ratio <= limit ==>
              r.ratio == v.ratio && r.origRatio == v.origRatio && r.aboveLimit == v.aboveLimit
    ensures r.comparison == v.comparison && r.reference == v.reference
    ensures r.p == v.p && r.category == v.category
  {
    var named := v.(plotName := v.comparison + SEPARATOR + v.reference);
    if named.ratio > limit then named.(origRatio := Some(named.ratio), ratio := limit, aboveLimit := true)
    else named
  }

  /** On a raw record the flag and the saved ratio are set exactly when the
      ratio exceeded the limit, and the unclamped ratio can be recovered. */
  lemma CleanedRaw(v: RecordValue, limit: real)
    requires Raw(v)
    ensures Cleaned(v, limit).aboveLimit <==> v.ratio > limit
    ensures Cleaned(v, limit).origRatio.Some? <==> v.ratio > limit
    ensures UnclampedRatio(Cleaned(v, limit)) == v.ratio
  {
  }

  /** Cleaning a cleaned record changes nothing, so a record that occurs twice
      in the input is cleaned as if it occurred once. */
  lemma CleanedIdempotent(v: RecordValue, limit: real)
    ensures Cleaned(Cleaned(v, limit), limit) == Cleaned(v, limit)
  {
  }

  /** `makeCleanData`: cleans every record of `raw` in place and returns a new
      array holding the same records in the same order. */
  method MakeCleanData(raw: array<Record>, limit: real) returns (clean: array<Record>)
    modifies set i | 0 <= i < raw.Length :: raw[i]
    ensures fresh(clean)
    ensures clean[..] == raw[..]
    ensures forall i :: 0 <= i < raw.Length ==> raw[i].Value() == Cleaned(old(raw[i].Value()), limit)
  {
    clean := new Record[raw.Length](i reads raw requires 0 <= i < raw.Length => raw[i]);
    var i := 0;
    while i < raw.Length
      invariant 0 <= i <= raw.Length
      invariant clean[..] == raw[..]
      invariant forall j :: 0 <= j < i ==> raw[j].Value() == Cleaned(old(raw[j].Value()), limit)
      invariant forall j :: i <= j < raw.Length ==>
                  raw[j].Value() == old(raw[j].Value()) ||
                  raw[j].Value() == Cleaned(old(raw[j].Value()), limit)
    {
      var d := raw[i];
      label Before:
      d.Clean(limit);
      CleanedIdempotent(old(d.Value()), limit);
      assert d.Value() == Cleaned(old(d.Value()), limit);
      forall j | 0 <= j < raw.Length && raw[j] != d
        ensures raw[j].Value() == old@Before(raw[j].Value())
      {
      }
      i := i + 1;
    }
  }
}
