# linkedVolcano: a Dafny model of the volcano plot's data pipeline

linkedVolcano draws one volcano plot per comparison of a data set. Its `createVolcano(element, config)` returns a chart object. The chart's `init(data)` does five things in order:

1. It normalises the configuration with `setDefaults`.
2. It cleans the raw rows in place with `makeCleanData`. Each row gets its plot name, and ratios above a limit are clamped.
3. It groups the rows by plot name with `makeNestedData`.
4. It bins each group into hexagon cells.
5. It annotates every cell with a drawing mode, a size, a tally of its colour values sorted by frequency, and the colour of the most frequent value.

The chart also carries a small event registry, `on(event, callback)`.

This project models that pipeline in Dafny 4, in the imperative form of the JavaScript, and proves its properties. It has five modules:

- `Settings` (settings.dfy)
  - The configuration is a `Config` class with one field per option.
  - `SetDefaults` assigns the fields in place. Its effect equals the pure function `WithDefaults`.
  - JavaScript truthiness is modelled by kind of option:
    - a string is falsy when it is missing or `''`;
    - a number is falsy when it is missing or `0`;
    - an object or array is falsy only when it is missing.
- `Cleaning` (cleaning.dfy)
  - A row is a `Record` object.
  - `MakeCleanData` cleans every record of an array in place and returns a fresh array of the same records.
- `Nesting` (nesting.dfy)
  - `d3.nest().key(f).entries(xs)` becomes the grouping function `Nest` over (key, value) pairs: one entry per distinct key, in first-seen order.
  - The module proves that `Nest` partitions its input.
- `Hexes` (hexes.dfy)
  - The per-cell annotation, as the `Cell` class.
  - The tally of colour values.
  - The in-place insertion sort of the tally by decreasing count.
- `Volcano` (volcano.dfy)
  - Grouping by plot name and hexagon binning.
  - The `Group` class and `MakeNestedData`.
  - The event registry and the `Chart` class.

Hexagon binning is geometry inside `d3.hexbin`. The model reduces it to a function `hexOf` from a record's (ratio, p) point to the hexagon it falls in. A group's cells are its records grouped by hexagon, in the order each hexagon is first hit, as `d3.hexbin` collects them. `colorScale`, the ordinal scale `makeScales` builds, is likewise a parameter.

## Model

| member | source | states |
|---|---|---|
| Settings.WithDefaults | build/volcanoPlot.js:25-40 | the options after `setDefaults` are complete: every non-column option is truthy (colorVar is truthy or the fallback), margin, structure, hexbin and both hexbin ranges are present, and the p and ratio column names are null or truthy |
| Settings.WithDefaultsKeepsOrDefaults | build/volcanoPlot.js:26-37 | each option that was truthy is kept and each falsy one takes its value from `defaultSettings` (lines 7-23); a falsy colorVar becomes `structure[0]` when structure is non-empty and `''` otherwise; reference and comparison columns are untouched |
| Settings.WithDefaultsFixedPoint | build/volcanoPlot.js:25-40 | defaulting leaves options unchanged exactly when they are already complete |
| Settings.WithDefaultsIdempotent | build/volcanoPlot.js:25-40 | applying `setDefaults` to its own output changes nothing |
| Settings.ZeroRatioLimitIsReplaced | build/volcanoPlot.js:34 | because the test is truthiness, a ratio limit of 0 becomes 2.0 |
| Settings.Config.SetDefaults | build/volcanoPlot.js:25-40 | the configuration object afterwards equals `WithDefaults` of its state before |
| Settings.Config.SetColumnAndLayoutDefaults | build/volcanoPlot.js:26-31 | the p and ratio columns, height, width, margin and showYaxis are defaulted, nothing else changes |
| Settings.Config.SetColorDefaults | build/volcanoPlot.js:32-33 | structure is defaulted to `[]`, then colorVar falls back to the first entry of the new structure or `''`, nothing else changes |
| Settings.Config.SetLimitDefaults | build/volcanoPlot.js:34-37 | ratioLimit is defaulted, the hexbin object is created if missing and its radius and countRange are defaulted, nothing else changes |
| Cleaning.Cleaned | build/volcanoPlot.js:94-101 | the plot name is `comparison + " vs. " + reference`; the ratio ends at most the limit; above the limit it becomes the limit, the old ratio is saved in origRatio and aboveLimit is set; at or below it the ratio and the flags are unchanged; the other columns are unchanged |
| Cleaning.CleanedRaw | build/volcanoPlot.js:97-101 | on a row not yet flagged, aboveLimit and origRatio are set exactly when the ratio exceeded the limit, and the unclamped ratio is recoverable |
| Cleaning.CleanedIdempotent | build/volcanoPlot.js:93-103 | cleaning a cleaned row changes nothing |
| Cleaning.Record.Clean | build/volcanoPlot.js:93-102 | the record afterwards is `Cleaned` of the record before |
| Cleaning.MakeCleanData | build/volcanoPlot.js:89-106 | returns a fresh array holding the same records in the same order, each record cleaned exactly once even when it occurs twice |
| Nesting.Add | build/volcanoPlot.js:114-116 | adds one value to the entry of its key, or appends a new entry for a new key; what this yields over a whole input is stated by the `Nest` lemmas below |
| Nesting.Nest | build/volcanoPlot.js:114-116 | `d3.nest().key(f).entries(xs)` as a fold of `Add` over the (key, value) pairs; its meaning is stated by NestKeys, NestValues, NestMembers, NestFirstSeen and NestPartition |
| Nesting.NestKeys | build/volcanoPlot.js:114-116 | the entries have distinct keys, and a key has an entry exactly when some input element has it |
| Nesting.NestValues | build/volcanoPlot.js:114-116 | each entry holds exactly the values with its key, in input order, and at least one |
| Nesting.NestMembers | build/volcanoPlot.js:114-116 | every value of an entry comes from an input element with the entry's key |
| Nesting.NestFirstSeen | build/volcanoPlot.js:114-116 | entries come in the order their keys first occur in the input |
| Nesting.NestPartition | build/volcanoPlot.js:114-116 | the entries together hold exactly the input values, as a multiset |
| Nesting.NestSize | build/volcanoPlot.js:114-116 | the entries together hold as many values as the input has elements |
| Nesting.SelectCount | build/volcanoPlot.js:127-131 | the number of values under a key is the number of input elements with that key |
| Volcano.PlotGroups | build/volcanoPlot.js:114-116 | the nest of the clean records by plot name; every group it returns holds at least one record |
| Volcano.PlotGroupsPartition | build/volcanoPlot.js:114-116 | grouping by plot name puts every record in exactly one group (as a multiset), each group is non-empty and holds only records of its name |
| Volcano.PlotGroupsKeys | build/volcanoPlot.js:114-116 | groups have distinct names, every record's name has a group, and groups come in first-seen order of their names |
| Volcano.HexCells | build/volcanoPlot.js:118 | `chart.hexbin(values)`: the group's records collected by the hexagon `hexOf` assigns them; every cell it returns holds at least one record |
| Volcano.HexCellsPartition | build/volcanoPlot.js:118 | a group's cells hold every record of the group exactly once, each cell is non-empty and holds only points of its hexagon, and no two cells share a hexagon |
| Hexes.Rollup | build/volcanoPlot.js:129-131 | `rollup(d => d.length)`: one level per entry, with the same keys in the same order |
| Hexes.SumRollup | build/volcanoPlot.js:129-131 | the counts of a rollup add up to the total number of values in its entries |
| Hexes.Tally | build/volcanoPlot.js:127-131 | the unsorted `e.levels`; it is empty exactly when the cell is, so a non-empty cell has a `levels[0]` |
| Hexes.TallyKeys | build/volcanoPlot.js:127-131 | the tally has one level per distinct colour value of the cell and no other |
| Hexes.TallyCounts | build/volcanoPlot.js:127-131 | each level counts the cell's records with its colour value, and the count is positive |
| Hexes.TallySum | build/volcanoPlot.js:127-131 | the counts of the tally add up to the number of records in the cell |
| Hexes.PermutationKeepsSums | build/volcanoPlot.js:133-135 | reordering levels keeps their total count and their multiset of keys |
| Hexes.Insert | build/volcanoPlot.js:133-135 | one insertion pass extends the sorted prefix by one element, leaves the rest of the array alone and permutes the array |
| Hexes.SortLevels | build/volcanoPlot.js:133-135 | the levels end sorted by non-increasing count and are a permutation of the levels before |
| Hexes.RankedKeys | build/volcanoPlot.js:127-135 | the sorted tally has distinct keys, exactly the colour values of the cell |
| Hexes.RankedCounts | build/volcanoPlot.js:127-135 | each sorted level counts the records of its colour value, and the counts sum to the cell's size |
| Hexes.RankedLevels | build/volcanoPlot.js:127-135 | the sorted tally has distinct keys that are exactly the cell's colour values, each counted correctly, summing to the cell's size |
| Hexes.TopIsMostFrequent | build/volcanoPlot.js:133-136 | the key of `levels[0]` is a colour value of the cell with the maximum count |
| Hexes.Size | build/volcanoPlot.js:124 | the size is the smaller of the cell's record count and `countRange.max`; without a `max` (a comparison with `undefined` is false) it is the count |
| Hexes.Cell.Annotate | build/volcanoPlot.js:120-137 | drawCircles holds exactly when `countRange.min` is present and the cell has at most that many records; size is `Size`; levels is a fresh array holding the tally sorted by non-increasing count; color is `colorScale(levels[0].key)` |
| Volcano.NewCells | build/volcanoPlot.js:118 | one fresh, distinct cell per hexagon entry, holding that entry's records |
| Volcano.AnnotateAll | build/volcanoPlot.js:120-137 | every cell of the list is annotated |
| Volcano.Group.Bin | build/volcanoPlot.js:117-138 | the group's hexData becomes fresh cells, one per hexagon of its records in first-hit order, each annotated |
| Volcano.NewGroups | build/volcanoPlot.js:114-116 | one fresh, distinct group object per plot-name entry, with that entry's name and records |
| Volcano.BinAll | build/volcanoPlot.js:117-138 | every group of the list is binned and annotated |
| Volcano.MakeNestedData | build/volcanoPlot.js:108-140 | returns fresh groups, one per plot name of the cleaned records in first-seen order with exactly that name's records, each binned into annotated cells |
| Volcano.Register | build/volcanoPlot.js:380-388 | `on` changes the events map only for `init` or `complete` with a truthy callback, and then only that entry, which becomes the callback |
| Volcano.InitialEventsWellFormed | build/volcanoPlot.js:375-378 | a new chart's registry holds exactly the names `init` and `complete` |
| Volcano.RegisterWellFormed | build/volcanoPlot.js:380-388 | registering never adds or removes an event name |
| Volcano.RegisterLastWins | build/volcanoPlot.js:386 | a later callback for the same event replaces an earlier one |
| Volcano.RegisterCommutes | build/volcanoPlot.js:380-388 | registrations for different events do not interfere |
| Volcano.Chart.constructor | build/volcanoPlot.js:359-378 | a new chart holds the given configuration and a no-op handler for `init` and for `complete` |
| Volcano.Chart.On | build/volcanoPlot.js:380-388 | the events map afterwards is `Register` of the map before, and it still holds exactly the two names |
| Volcano.Chart.Init | build/volcanoPlot.js:42-59 | the configuration is defaulted; the rows are cleaned in place with the defaulted ratio limit; the clean array holds the rows in order; the nested groups are the plot-name groups of the clean rows, each binned with the defaulted count range |

## Left out

- DOM and rendering are not modelled: the `wrap` and `layout` calls of `init`, `layout`, the plots' and tables' `init`, `layout$1`, `drawAxis`, `drawHexes` and the tables object. They create elements and carry no state that the pipeline reads.
- `makeScales` (build/volcanoPlot.js:61-87) is not modelled; it builds d3 floating-point scales. Its two uses in the pipeline are parameters:
  - `hexOf` stands for `chart.hexbin` composed with the x and y scales;
  - `colorScale` stands for the ordinal colour scale.

  The hexagon centres `x` and `y` that `d3.hexbin` puts on each cell are left out, since only drawing reads them.
- The brush handlers `start`, `update` and `end` are not modelled. Their bodies are commented out, or are d3 selection code.
- The UMD wrapper is module plumbing.
- The `+x` number coercion and `NaN` are not modelled (lines 95-96): values arrive as numbers, and ratios and p values are `real`. A `NaN` option would be falsy in JavaScript; that case is not represented.
- Rows are not indexed by column name. A record holds the values of the comparison, reference, ratio, p and colour columns under fixed names, so a row with a null column name (which JavaScript reads as `d["null"]`) is not represented.
- Calling `createVolcano` without a configuration is not represented: `setDefaults(undefined)` fails on its first line, and the model's `Chart` constructor takes a `Config` object.
- A partial `margin` object is not represented: `Margin` holds all four sides. `setDefaults` replaces only a missing margin, and the margin is read only by the layout code, which is not modelled. A partial `hexbin.radius` or `hexbin.countRange` is represented: each bound of a `Range` may be missing.
- `setDefaults` may install the very objects of `defaultSettings` (margin, the two hexbin ranges) into the configuration. That aliasing is not modelled: options are values.
- Volcano.Chart.Init: returns `data.clean` and `data.nested` instead of storing them, with `data.raw`, on the chart object, and does not call the plots' and tables' `init`.
- `d3.nest` keys are strings; the model takes plot names and colour values as strings already. Under d3 3.5, whose maps keep keys unprefixed, integer-like colour values may be listed in numeric order rather than first-seen order before the sort. That changes only the order of levels with equal counts, which `Ranks` leaves open; plot names (which contain `" vs. "`) and hexagons are never integer-like.
- Hexes.SortLevels: ties keep their first-seen order, as a stable sort does. The source relies on `Array.prototype.sort`, whose stability the language only guarantees in recent editions, so the order of equal counts is pinned down here, not in the source.
- Hexes.Cell.Annotate: requires a non-empty cell. `d3.hexbin` only produces non-empty cells, as Volcano.HexCellsPartition proves for the model, and the source would fail on `levels[0]` of an empty one.
- The `init` and `complete` handlers are never invoked anywhere in the library, so the model only stores them. A callback is reduced to a number that identifies it, and a falsy callback is `None`.
