# Wind rose chart: a Dafny model

This project models the core of `aster_plot.js`, a Looker custom
visualisation that draws a 16-point wind rose. Its render routine does three
things:

1. It builds a frequency table with one entry per compass direction. The
   directions are `N, NNE, …, NNW`. Every entry starts at 0. The query rows
   are then visited in order. A row whose dimension, upper-cased, is a
   direction's label overwrites that direction's entry with the row's
   measure.
2. It turns the table into 16 wedges in canonical order. A band scale over
   the full turn [0, 2π] gives each wedge's angles. A linear scale from
   [0, max] onto [0, R] gives its outer radius. R is the configured radius,
   or 200 when that is falsy. The inner radius is 0.
3. It places one text label per direction. The label sits at distance
   R + 15, at the middle of the direction's band, minus π/2.

Modules:

- `Wrappers`: the `Option` type.
- `Compass`: the `Direction` enumeration and its canonical order
  (`Directions`). Also each direction's label (`Name`), the lookup of a
  label (`Parse`) and ASCII upper-casing (`ToUpper`).
- `Normalizer`: the rows and the method `Normalize`. It keeps the source's
  two loops: the seeding loop and the row loop. It is proved equal to the
  specification function `FrequencyTable`, which is defined entry by entry
  by `LastMeasure`: the value of the last row that names the direction, or 0.
- `Scales`: d3's `scaleBand` and `scaleLinear`, written as plain functions.
  Only the features the chart uses are modelled: no padding, no clamping.
- `Chart`: the arc records (`Arcs`, the direction list mapped to
  direction/value pairs), the accessors the arc generator reads, the
  wedges, the labels, and two whole-chart scenarios.

Angles are exact reals counted in multiples of π, so a full turn is `2.0`
and one band is `1/8`. Wedge angles follow the arc generator's convention:
0 at the top, growing clockwise. Label angles follow the cosine/sine
convention, hence the −π/2 shift. As the code is written, the north wedge
*starts* at the top. Its label therefore sits π/16 clockwise of the top,
not exactly on it (`Chart.NorthLabel`).

The table is keyed by the `Direction` datatype, not by strings. The source's
`frequencyMap.hasOwnProperty(dir)` test becomes "`Parse(dir)` finds a
direction and that direction is a key of the table". `Compass.ParseName`
proves that `Parse` succeeds exactly on the 16 labels and returns the
direction whose label it is.

## Model

| member | source | states |
|---|---|---|
| Compass.DirectionsComplete | aster_plot.js:40-43 | the direction list has 16 entries, none repeated, and holds every direction |
| Compass.AllDirectionsSize | aster_plot.js:46-47 | the key set of every table is the set of the list and has exactly 16 members |
| Compass.NameInjective | aster_plot.js:40-43 | two directions with the same label are the same direction |
| Compass.ParseName | aster_plot.js:54 | a label parses to its own direction; a parse result's label is the parsed text; the text parses to nothing exactly when it is no direction's label |
| Compass.MatchIgnoringCase | aster_plot.js:53-54 | after upper-casing, a dimension matches a label exactly when it has the label's length and each character is the label's letter in upper or lower case |
| Compass.LowerCaseMatches | aster_plot.js:53-54 | "nne" and "nNe" both select NNE |
| Compass.FullWordDropped | aster_plot.js:53-54 | "North" upper-cases to "NORTH", which selects no direction |
| Normalizer.Normalize | aster_plot.js:46-57 | the two loops (seed every direction with 0, then overwrite from the rows in order) return exactly `FrequencyTable(rows)` |
| Normalizer.SeedIsEmptyTable | aster_plot.js:46-47 | the seeded object equals the table of no rows: every direction mapped to 0 |
| Normalizer.RowMatched | aster_plot.js:52-56 | a row whose key names direction d changes the table only at d, which becomes the row's measure |
| Normalizer.RowDropped | aster_plot.js:52-56 | a row whose key names no direction leaves the table unchanged |
| Normalizer.TableKeys | aster_plot.js:46-47 | the table's keys are exactly the 16 directions, whatever the rows are |
| Normalizer.UnmatchedStaysZero | aster_plot.js:47 | a direction that no row names keeps the value 0 |
| Normalizer.EmptyInputAllZero | aster_plot.js:46-57 | with no rows every entry is 0 |
| Normalizer.LastMatchWins | aster_plot.js:54-55 | if row k names d and no later row does, d's value is row k's measure; earlier rows are overwritten, not summed |
| Normalizer.DroppedRowChangesNothing | aster_plot.js:53-54 | deleting a row whose key is no label, from anywhere in the input, leaves the table unchanged |
| Normalizer.DuplicatesNotSummed | aster_plot.js:55 | rows "N" = 3 then "n" = 4 give N the value 4, not 7 |
| Scales.IndexOf | aster_plot.js:66-68 | the band scale's position of a value is its first occurrence in the domain, and there is none exactly when the value is absent |
| Scales.BandStart | aster_plot.js:66-68 | in a domain without repeats, value i's band starts at lo + i · bandwidth |
| Scales.BandsCoverRange | aster_plot.js:66-68 | the bands of a non-empty domain end exactly at the range's upper end |
| Scales.LinearEnds | aster_plot.js:70-72 | the linear scale maps each end of its domain to the matching end of its range |
| Scales.LinearFromOrigin | aster_plot.js:70-72 | a scale from [0, m] onto [0, r] maps x to x / m · r |
| Scales.LinearMonotone | aster_plot.js:70-72 | with an increasing domain and a non-decreasing range, the scale is monotone |
| Chart.ChartRadius | aster_plot.js:39 | a configured non-zero radius is used as given; a missing or zero one gives 200; the result is never 0 |
| Chart.SeqMaxIsMaximum | aster_plot.js:71 | the maximum is one of the elements and no element exceeds it |
| Chart.MaxValueIsMaximum | aster_plot.js:71 | the radial domain's upper end is one of the table's values and no value exceeds it |
| Chart.Band | aster_plot.js:66-68 | direction i's band is [i/8, (i+1)/8] π |
| Chart.BandwidthIsSixteenthTurn | aster_plot.js:66-68 | the band width is 2π / 16 |
| Chart.WedgeSpan | aster_plot.js:77-78 | wedge i starts at i · π/8 and ends π/8 later, for any table |
| Chart.WedgesContiguous | aster_plot.js:77-78 | consecutive wedges share an edge, the first starts at 0 and the last ends at 2π |
| Chart.SpanIsBand | aster_plot.js:77-78 | every wedge spans exactly one band width |
| Chart.TotalSpanUniform | aster_plot.js:77-78 | the spans of n records add up to n · π/8 |
| Chart.FullCircle | aster_plot.js:77-82 | the 16 spans add up to exactly 2π |
| Chart.RadiusProportional | aster_plot.js:70-76 | with a non-zero maximum (positive or negative), the outer radius is value / max · R |
| Chart.RadiusEnds | aster_plot.js:70-76 | with a non-zero maximum, the maximum value reaches R and the value 0 stays at the centre |
| Chart.RadiusMonotone | aster_plot.js:70-76 | for R ≥ 0 a larger value never gets a shorter wedge |
| Chart.RadiusWithinChart | aster_plot.js:70-76 | for R ≥ 0 a non-negative value's radius lies between 0 and R |
| Chart.WedgeFields | aster_plot.js:74-82 | wedge i has direction i, its table value, band i and inner radius 0 |
| Chart.WedgesCanonical | aster_plot.js:74-82 | the same holds for all 16 wedges at once |
| Chart.WedgeRadius | aster_plot.js:70-76 | with a non-zero maximum, wedge i's outer radius is its value / max · R |
| Chart.LabelsPlaced | aster_plot.js:94-106 | label i reads direction i's label, sits at R + 15 and at angle i · π/8 + π/16 − π/2, which is the middle of wedge i shifted back a quarter turn |
| Chart.LabelsIgnoreValues | aster_plot.js:94-106 | the labels depend only on R, never on the data |
| Chart.NorthLabel | aster_plot.js:99 | the north label reads "N" and sits at angle −π/2 + π/16 |
| Chart.NormalizedIsTable | aster_plot.js:46-47 | every normalised table has an entry for each direction |
| Chart.TwoRowTable | aster_plot.js:46-57 | rows N = 10 and E = 5 give N = 10, E = 5, every other direction 0 and maximum 10 |
| Chart.TwoRowScenario | aster_plot.js:39-82 | those rows at radius 100 give outer radius 100 to N, 50 to E and 0 to the other fourteen wedges |
| Chart.TwoRowRadii | aster_plot.js:70-82 | any table holding N = 10, E = 5 and zeros, drawn at radius 100, has those outer radii |
| Chart.EmptyScenario | aster_plot.js:39-108 | no rows and no radius: the maximum is 0, and all 16 labels still stand at distance 215 |

Since every member is a function of its inputs, drawing the same data twice
gives the same wedges and labels.

## Left out

- Plugin registration, the options block and `create` (aster_plot.js:1-31) are host wiring and hold no logic.
- The DOM and SVG calls are not modelled: clearing the element, the `svg` group and its centring transform, appending paths and texts, fill, stroke and font styling. The model stops at the values these calls receive.
- The colour (`config.color_range[0]`) is passed to the SVG untouched and is not modelled.
- `Math.cos`/`Math.sin` and floating point are not modelled. A label's angle and distance are exact polar coordinates; the Cartesian translation is not computed.
- Reading the field names from `queryResponse.fields` (aster_plot.js:49-50) is not modelled. A row is given directly as its dimension text and its measure.
- `clearErrors` and `done` (aster_plot.js:34, 108) are host calls and are not modelled.
- Normalizer.Normalize: a row whose dimension value is null, undefined or not a string is not modelled. At aster_plot.js:53, `toUpperCase` then throws a TypeError, which abandons the row loop, so nothing is drawn and `done()` is never called. The model types the dimension as a string, so every row reaches the label test.
- Normalizer.Normalize: the `+value` coercion is not modelled. The measure is an exact real, so NaN, strings and `null` measures cannot occur.
- Compass.ToUpper: upper-cases ASCII letters only. JavaScript's full Unicode `toUpperCase` (for example 'ſ' to 'S', or 'ß' to "SS") is not modelled.
- Chart.ChartRadius: the falsy radius values modelled are a missing one and 0. NaN, `""` and `null`, and a radius given as a string, are not.
- Chart.OuterRadius and the radial lemmas require the maximum to be non-zero; `Chart.RadiusMonotone` and `Chart.RadiusWithinChart` require it to be positive, since with a negative maximum the scale reverses direction. With all values 0, d3's zero-width linear domain returns a version-dependent value, so that case is not modelled (`Scales.LinearScale.Apply` requires a non-degenerate domain). Angles and labels have no such requirement, and `Chart.EmptyScenario` covers that input.
- Scales.BandStart: d3's band scale removes duplicate domain values. The compass list has none, so only the first-occurrence lookup is modelled.
