/** The per-cell part of `makeNestedData`: a hexbin cell is flagged for
    drawing as points or as a hexagon, gets a clamped size, a tally of its
    records by colour value sorted by decreasing count, and the colour of the
    value at the top of that tally. */
module Hexes {
  import opened Settings
  import opened Nesting
  import opened Cleaning

  /** One entry of a cell's `levels`: a colour value and the number of the
      cell's records carrying it (d3's `{key, values}` after a length rollup). */
  datatype Level = Level(key: string, count: nat)

  /** The colour values of some records, in order. */
  function Categories(rs: seq<Record>): (cats: seq<string>)
    reads set r | r in rs
    ensures |cats| == |rs|
  {
    seq(|rs|, i reads set r | r in rs requires 0 <= i < |rs| => rs[i].category)
  }

  /** The colour values paired with their positions: the input of the nest. */
  function Keyed(cats: seq<string>): seq<(string, nat)> {
    seq(|cats|, i requires 0 <= i < |cats| => (cats[i], i as nat))
  }

  /** `rollup(d => d.length)`: each entry's values replaced by their number.
      The levels keep the entries' keys, in order. */
  function Rollup<T>(es: seq<Entry<string, T>>): (ls: seq<Level>)
    ensures |ls| == |es|
    ensures LevelKeys(ls) == EntryKeys(es)
  {
    seq(|es|, i requires 0 <= i < |es| => Level(es[i].key, |es[i].values|))
  }

  /** `d3.nest().key(colorVar).rollup(length).entries(cell)` before sorting:
      one level per colour value, in first-seen order. */
  function Tally(cats: seq<string>): (ls: seq<Level>)
    ensures |ls| == 0 <==> |cats| == 0
  {
    NestKeys(Keyed(cats));
    assert cats != [] ==> PairKeys(Keyed(cats))[0] == cats[0];
    Rollup(Nest(Keyed(cats)))
  }

  function LevelKeys(ls: seq<Level>): (ks: seq<string>)
    ensures |ks| == |ls|
  {
    seq(|ls|, i requires 0 <= i < |ls| => ls[i].key)
  }

  function Sum(ls: seq<Level>): nat {
    if |ls| == 0 then 0 else Sum(ls[..|ls| - 1]) + ls[|ls| - 1].count
  }

  ghost predicate NonIncreasing(ls: seq<Level>) {
    forall i, j :: 0 <= i < j < |ls| ==> ls[i].count >= ls[j].count
  }

  /** `levels` is the tally of `cats` sorted by non-increasing count. */
  ghost predicate Ranks(levels: seq<Level>, cats: seq<string>) {
    multiset(levels) == multiset(Tally(cats)) && NonIncreasing(levels)
  }

  lemma {:induction false} SumRollup<T>(es: seq<Entry<string, T>>)
    ensures Sum(Rollup(es)) == |Flatten(es)|
  {
    if |es| > 0 {
      var n := |es| - 1;
      assert Rollup(es)[..n] == Rollup(es[..n]);
      SumRollup(es[..n]);
    }
  }

  /** The tally has one level per distinct colour value of the cell. */
  lemma TallyKeys(cats: seq<string>)
    ensures Distinct(LevelKeys(Tally(cats)))
    ensures forall c :: c in LevelKeys(Tally(cats)) <==> c in cats
  {
    var ps := Keyed(cats);
    assert PairKeys(ps) == cats;
    assert LevelKeys(Tally(cats)) == EntryKeys(Nest(ps));
    NestKeys(ps);
  }

  /** Each level of the tally counts the records with its colour value. */
  lemma TallyCounts(cats: seq<string>)
    ensures forall l :: l in Tally(cats) ==> l.count == multiset(cats)[l.key] > 0
  {
    var ps := Keyed(cats);
    var es := Nest(ps);
    assert PairKeys(ps) == cats;
    NestValues(ps);
    forall l | l in Tally(cats)
      ensures l.count == multiset(cats)[l.key] > 0
    {
      var i :| 0 <= i < |es| && Tally(cats)[i] == l;
      SelectCount(ps, es[i].key);
    }
  }

  /** The counts of the tally add up to the number of records. */
  lemma TallySum(cats: seq<string>)
    ensures Sum(Tally(cats)) == |cats|
  {
    SumRollup(Nest(Keyed(cats)));
    NestSize(Keyed(cats));
  }

  lemma {:induction false} SumAppend(s: seq<Level>, t: seq<Level>)
    ensures Sum(s + t) == Sum(s) + Sum(t)
  {
    if |t| == 0 {
      assert s + t == s;
    } else {
      var n := |t| - 1;
      assert (s + t)[..|s + t| - 1] == s + t[..n];
      assert (s + t)[|s + t| - 1] == t[n];
      SumAppend(s, t[..n]);
    }
  }

  /** Taking one level out of a sequence takes it out of the multiset. */
  lemma RemoveAt(b: seq<Level>, k: nat)
    requires k < |b|
    ensures multiset(b) == multiset(b[..k] + b[k + 1..]) + multiset{b[k]}
  {
    assert b == b[..k] + [b[k]] + b[k + 1..];
  }

  lemma SumRemoveAt(b: seq<Level>, k: nat)
    requires k < |b|
    ensures Sum(b) == Sum(b[..k] + b[k + 1..]) + b[k].count
  {
    var left, x, right := b[..k], b[k], b[k + 1..];
    assert b == (left + [x]) + right;
    SumAppend(left + [x], right);
    assert (left + [x])[..|left|] == left;
    SumAppend(left, right);
  }

  lemma KeysRemoveAt(b: seq<Level>, k: nat)
    requires k < |b|
    ensures multiset(LevelKeys(b)) == multiset(LevelKeys(b[..k] + b[k + 1..])) + multiset{b[k].key}
  {
    var ks := LevelKeys(b);
    assert ks == ks[..k] + [b[k].key] + ks[k + 1..];
    assert LevelKeys(b[..k] + b[k + 1..]) == ks[..k] + ks[k + 1..];
  }

  /** Reordering levels keeps their total count and their keys. */
  lemma {:induction false} PermutationKeepsSums(a: seq<Level>, b: seq<Level>)
    requires multiset(a) == multiset(b)
    ensures Sum(a) == Sum(b)
    ensures multiset(LevelKeys(a)) == multiset(LevelKeys(b))
  {
    if |a| > 0 {
      var n := |a| - 1;
      assert a[n] in multiset(b);
      var k :| 0 <= k < |b| && b[k] == a[n];
      RemoveAt(a, n);
      RemoveAt(b, k);
      SumRemoveAt(a, n);
      SumRemoveAt(b, k);
      KeysRemoveAt(a, n);
      KeysRemoveAt(b, k);
      assert a[..n] + a[n + 1..] == a[..n];
      Cancel(multiset(b[..k] + b[k + 1..]), multiset(a[..n]), multiset{a[n]});
      PermutationKeepsSums(a[..n], b[..k] + b[k + 1..]);
    }
  }

  /** A sequence without repeats holds every element at most once. */
  lemma {:induction false} DistinctCountsAtMostOne(s: seq<string>)
    requires Distinct(s)
    ensures forall k :: multiset(s)[k] <= 1
  {
    if |s| > 0 {
      var n := |s| - 1;
      assert s == s[..n] + [s[n]];
      DistinctCountsAtMostOne(s[..n]);
      assert s[n] !in s[..n];
    }
  }

  /** An element occurring at two positions is counted at least twice. */
  lemma RepeatCountsTwice(s: seq<string>, i: nat, j: nat)
    requires i < j < |s| && s[i] == s[j]
    ensures multiset(s)[s[i]] >= 2
  {
    assert s == s[..i] + [s[i]] + s[i + 1..j] + [s[j]] + s[j + 1..];
  }

  /** A sequence holding every element at most once has no repeats. */
  lemma CountsAtMostOneDistinct(s: seq<string>)
    requires forall k :: multiset(s)[k] <= 1
    ensures Distinct(s)
  {
    forall i, j | 0 <= i < j < |s|
      ensures s[i] != s[j]
    {
      if s[i] == s[j] {
        RepeatCountsTwice(s, i, j);
      }
    }
  }

  /** The sorted tally has one level per distinct colour value of the cell. */
  lemma RankedKeys(levels: seq<Level>, cats: seq<string>)
    requires Ranks(levels, cats)
    ensures Distinct(LevelKeys(levels))
    ensures forall c :: c in LevelKeys(levels) <==> c in cats
  {
    var t := Tally(cats);
    TallyKeys(cats);
    PermutationKeepsSums(levels, t);
    DistinctCountsAtMostOne(LevelKeys(t));
    CountsAtMostOneDistinct(LevelKeys(levels));
    forall c
      ensures c in LevelKeys(levels) <==> c in cats
    {
      assert c in LevelKeys(levels) <==> c in multiset(LevelKeys(levels));
      assert c in LevelKeys(t) <==> c in multiset(LevelKeys(t));
    }
  }

  /** Each level of the sorted tally counts the cell's records of its colour
      value, and the counts add up to the number of records. */
  lemma RankedCounts(levels: seq<Level>, cats: seq<string>)
    requires Ranks(levels, cats)
    ensures forall i :: 0 <= i < |levels| ==> levels[i].count == multiset(cats)[levels[i].key] > 0
    ensures Sum(levels) == |cats|
  {
    var t := Tally(cats);
    TallyCounts(cats);
    TallySum(cats);
    PermutationKeepsSums(levels, t);
    forall i | 0 <= i < |levels|
      ensures levels[i].count == multiset(cats)[levels[i].key] > 0
    {
      assert levels[i] in multiset(t);
    }
  }

  /** What the sorted tally of a cell promises: one level per distinct colour
      value of the cell, each counting the records with that value, counts
      adding up to the number of records. */
  lemma RankedLevels(levels: seq<Level>, cats: seq<string>)
    requires Ranks(levels, cats)
    ensures Distinct(LevelKeys(levels))
    ensures forall c :: c in LevelKeys(levels) <==> c in cats
    ensures forall i :: 0 <= i < |levels| ==> levels[i].count == multiset(cats)[levels[i].key] > 0
    ensures Sum(levels) == |cats|
  {
    RankedKeys(levels, cats);
    RankedCounts(levels, cats);
  }

  /** The level at the top of a non-empty cell's sorted tally is a most
      frequent colour value of the cell. */
  lemma TopIsMostFrequent(levels: seq<Level>, cats: seq<string>)
    requires Ranks(levels, cats)
    requires cats != []
    ensures |levels| > 0 && levels[0].key in cats
    ensures forall c :: c in cats ==> multiset(cats)[c] <= multiset(cats)[levels[0].key]
  {
    RankedLevels(levels, cats);
    assert cats[0] in LevelKeys(levels);
    forall c | c in cats
      ensures multiset(cats)[c] <= multiset(cats)[levels[0].key]
    {
      assert c in LevelKeys(levels);
      var m :| 0 <= m < |levels| && LevelKeys(levels)[m] == c;
    }
    assert LevelKeys(levels)[0] == levels[0].key;
  }

  /** Exchanges `a[j - 1]` and `a[j]`. */
  method Swap(a: array<Level>, j: nat)
    requires 0 < j < a.Length
    modifies a
    ensures a[..] == old(a[..])[j - 1 := old(a[j])][j := old(a[j - 1])]
    ensures multiset(a[..]) == multiset(old(a[..]))
  {
    a[j - 1], a[j] := a[j], a[j - 1];
  }

  /** Moves `a[i]` down past every level of smaller count before it, as one
      pass of insertion sort: the first `i + 1` levels end up sorted. */
  method Insert(a: array<Level>, i: nat)
    requires i < a.Length
    requires forall m, n :: 0 <= m < n < i ==> a[m].count >= a[n].count
    modifies a
    ensures forall m, n :: 0 <= m < n <= i ==> a[m].count >= a[n].count
    ensures a[i + 1..] == old(a[i + 1..])
    ensures multiset(a[..]) == multiset(old(a[..]))
  {
    var j := i;
    while j > 0 && a[j - 1].count < a[j].count
      invariant 0 <= j <= i
      invariant forall m, n :: 0 <= m < n <= i && n != j ==> a[m].count >= a[n].count
      invariant forall n :: j < n <= i ==> a[j].count >= a[n].count
      invariant a[i + 1..] == old(a[i + 1..])
      invariant multiset(a[..]) == multiset(old(a[..]))
    {
      Swap(a, j);
      j := j - 1;
    }
  }

  /** `levels.sort((a, b) => b.values - a.values)`: sorts the levels in
      place by non-increasing count. Levels of equal count keep their order. */
  method SortLevels(a: array<Level>)
    modifies a
    ensures NonIncreasing(a[..])
    ensures multiset(a[..]) == multiset(old(a[..]))
  {
    var i := 0;
    while i < a.Length
      invariant 0 <= i <= a.Length
      invariant forall m, n :: 0 <= m < n < i ==> a[m].count >= a[n].count
      invariant multiset(a[..]) == multiset(old(a[..]))
    {
      Insert(a, i);
      i := i + 1;
    }
  }

  method NewLevels(s: seq<Level>) returns (a: array<Level>)
    ensures fresh(a) && a[..] == s
  {
    a := new Level[|s|](i requires 0 <= i < |s| => s[i]);
  }

  /** JavaScript's `x <= b` and `x > b` for a bound `b` that may be
      undefined: a comparison with `undefined` is false. */
  predicate AtMost(x: real, b: Option<real>) {
    b.Some? && x <= b.value
  }

  predicate Exceeds(x: real, b: Option<real>) {
    b.Some? && x > b.value
  }

  /** The size of a cell of `count` records: its count, capped at
      `countRange.max`; without a maximum the count is never capped. */
  function Size(count: nat, countRange: Range): (s: real)
    ensures s <= count as real
    ensures countRange.max.Some? ==> s <= countRange.max.value
    ensures s == count as real || (countRange.max.Some? && s == countRange.max.value)
  {
    if Exceeds(count as real, countRange.max) then countRange.max.value else count as real
  }

  /** One hexbin cell: the records it holds and what `makeNestedData`
      writes onto it. */
  class Cell {
    const members: seq<Record>
    var drawCircles: bool
    var size: real
    var levels: array<Level>
    var color: string

    constructor (members: seq<Record>)
      ensures this.members == members
    {
      this.members := members;
      drawCircles, size, color := false, 0.0, "";
      levels := new Level[0];
    }

    /** The state of a cell after the `hexData.forEach` callback. */
    ghost predicate Annotated(countRange: Range, colorScale: string -> string)
      reads this, levels, set r | r in members
    {
      drawCircles == AtMost(|members| as real, countRange.min) &&
      size == Size(|members|, countRange) &&
      Ranks(levels[..], Categories(members)) &&
      levels.Length > 0 && color == colorScale(levels[0].key)
    }

    /** The `hexData.forEach` callback of `makeNestedData`. */
    method Annotate(countRange: Range, colorScale: string -> string)
      requires members != []
      modifies this
      ensures fresh(levels)
      ensures Annotated(countRange, colorScale)
    {
      var cats := Categories(members);
      var tally := Tally(cats);
      var sorted := NewLevels(tally);
      SortLevels(sorted);
      assert Ranks(sorted[..], cats);
      drawCircles, size := AtMost(|members| as real, countRange.min), Size(|members|, countRange);
      levels, color := sorted, colorScale(sorted[0].key);
    }
  }
}
