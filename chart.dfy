/**
 * The geometry of the wind rose. The normalised table becomes 16
 * (direction, value) records in canonical order; each record gets an
 * angular band from a band scale over a full turn and an outer radius from a
 * linear scale over [0, max], and a label placed outside the circle.
 *
 * Angles are exact reals counted in multiples of pi, so a full turn is 2.0.
 * Wedge angles follow the arc generator's convention (0 at the top of the
 * circle, growing clockwise); a label angle follows the cosine/sine
 * convention (0 along the positive x axis), hence the quarter-turn shift.
 */
module Chart {
  import opened Wrappers
  import opened Compass
  import opened Scales
  import opened Normalizer

  /** The radius used when the configured one is missing or zero. */
  const DefaultRadius: real := 200.0

  /** How far beyond the chart radius every label sits. */
  const LabelOffset: real := 15.0

  /** Wedges are filled pie slices from the centre. */
  const InnerRadius: real := 0.0

  /** The band scale of the directions over the full turn [0, 2 pi]. */
  const AngleScale: BandScale<Direction> := BandScale(Directions, 0.0, 2.0)

  /**
   * The chart radius: the configured radius when it is set and non-zero,
   * else 200 (a missing or zero value is falsy).
   */
  function ChartRadius(configured: Option<real>): (r: real)
    ensures configured.Some? && configured.value != 0.0 ==> r == configured.value
    ensures configured.None? || configured == Some(0.0) ==> r == DefaultRadius
    ensures r != 0.0
  {
    if configured.Some? && configured.value != 0.0 then configured.value else DefaultRadius
  }

  /** A frequency table: an entry for every direction. */
  predicate IsTable(table: map<Direction, real>) {
    forall d :: d in table
  }

  /** The record drawn for one direction. */
  datatype Arc = Arc(direction: Direction, value: real)

  /** The 16 records: the direction list mapped to (direction, value) pairs. */
  function Arcs(table: map<Direction, real>): seq<Arc>
    requires IsTable(table)
  {
    seq(|Directions|, i requires 0 <= i < |Directions| => Arc(Directions[i], table[Directions[i]]))
  }

  /** Record i is direction i with its table value, for all 16 directions. */
  lemma ArcsCanonical(table: map<Direction, real>)
    requires IsTable(table)
    ensures |Arcs(table)| == 16
    ensures forall i :: 0 <= i < 16 ==> Arcs(table)[i] == Arc(Directions[i], table[Directions[i]])
  {
    DirectionsComplete(N);
  }

  /**
   * The largest element, scanning left to right and replacing the running
   * maximum only by a strictly larger value.
   */
  function SeqMax(xs: seq<real>): real
    requires xs != []
  {
    if |xs| == 1 then xs[0]
    else
      var m := SeqMax(xs[..|xs| - 1]);
      if m < xs[|xs| - 1] then xs[|xs| - 1] else m
  }

  /** The scan's result is one of the elements and no element exceeds it. */
  lemma {:induction false} SeqMaxIsMaximum(xs: seq<real>)
    requires xs != []
    ensures SeqMax(xs) in xs
    ensures forall k :: 0 <= k < |xs| ==> xs[k] <= SeqMax(xs)
  {
    if |xs| > 1 {
      var init := xs[..|xs| - 1];
      SeqMaxIsMaximum(init);
      assert forall k :: 0 <= k < |init| ==> xs[k] == init[k];
    }
  }

  /** The table's values in insertion order, that is, canonical order. */
  function TableValues(table: map<Direction, real>): seq<real>
    requires IsTable(table)
  {
    seq(|Directions|, i requires 0 <= i < |Directions| => table[Directions[i]])
  }

  /** The upper end of the radial domain: d3's maximum of the table's values. */
  function MaxValue(table: map<Direction, real>): real
    requires IsTable(table)
  {
    SeqMax(TableValues(table))
  }

  /** The maximum is one of the 16 values and no value exceeds it. */
  lemma MaxValueIsMaximum(table: map<Direction, real>)
    requires IsTable(table)
    ensures exists d :: table[d] == MaxValue(table)
    ensures forall d :: table[d] <= MaxValue(table)
  {
    var vs := TableValues(table);
    SeqMaxIsMaximum(vs);
    forall d ensures table[d] in vs {
      Listed(d);
      var i :| 0 <= i < |Directions| && Directions[i] == d;
      assert vs[i] == table[d];
    }
    var i :| 0 <= i < |vs| && vs[i] == MaxValue(table);
    assert table[Directions[i]] == MaxValue(table);
  }

  /** The linear radial scale [0, max] onto [0, radius]. */
  function RadiusScale(table: map<Direction, real>, radius: real): LinearScale
    requires IsTable(table)
  {
    LinearScale(0.0, MaxValue(table), 0.0, radius)
  }

  /** The arc generator's start-angle accessor: the start of the record's band. */
  function StartAngle(a: Arc): real {
    Listed(a.direction);
    AngleScale.Apply(a.direction).value
  }

  /** The arc generator's end-angle accessor: one band width past the start. */
  function EndAngle(a: Arc): real {
    StartAngle(a) + AngleScale.Bandwidth()
  }

  /** The arc generator's outer-radius accessor: the radial scale of the value. */
  function OuterRadius(table: map<Direction, real>, radius: real, a: Arc): real
    requires IsTable(table) && MaxValue(table) != 0.0
  {
    RadiusScale(table, radius).Apply(a.value)
  }

  /** Everything the arc generator reads off one record. */
  datatype Wedge = Wedge(direction: Direction, value: real, startAngle: real, endAngle: real,
                         innerRadius: real, outerRadius: real)

  function WedgeOf(table: map<Direction, real>, radius: real, a: Arc): Wedge
    requires IsTable(table) && MaxValue(table) != 0.0
  {
    Wedge(a.direction, a.value, StartAngle(a), EndAngle(a), InnerRadius, OuterRadius(table, radius, a))
  }

  /** One wedge per record, in canonical order. */
  function Wedges(table: map<Direction, real>, radius: real): seq<Wedge>
    requires IsTable(table) && MaxValue(table) != 0.0
  {
    var arcs := Arcs(table);
    seq(|arcs|, i requires 0 <= i < |arcs| => WedgeOf(table, radius, arcs[i]))
  }

  /** A text label: the direction's name, its polar angle and its distance. */
  datatype Label = Label(text: string, angle: real, distance: real)

  /**
   * The label of one record: at the middle of its band, turned back a
   * quarter turn, at the chart radius plus the fixed offset.
   */
  function LabelOf(a: Arc, radius: real): Label {
    Label(Name(a.direction), StartAngle(a) + AngleScale.Bandwidth() / 2.0 - 0.5, radius + LabelOffset)
  }

  /** One label per record, always drawn. */
  function Labels(table: map<Direction, real>, radius: real): seq<Label>
    requires IsTable(table)
  {
    var arcs := Arcs(table);
    seq(|arcs|, i requires 0 <= i < |arcs| => LabelOf(arcs[i], radius))
  }

  // ----- Angular layout -----

  /** Direction i's band is [i/8, (i+1)/8] in multiples of pi, a sixteenth of a turn. */
  lemma Band(i: nat)
    requires i < 16
    ensures StartAngle(Arc(Directions[i], 0.0)) == (i as real) / 8.0
    ensures EndAngle(Arc(Directions[i], 0.0)) == (i as real) / 8.0 + 1.0 / 8.0
  {
    DirectionsComplete(N);
    BandStart(AngleScale, i);
    var start := AngleScale.Apply(Directions[i]).value;
    assert start == (i as real) * AngleScale.Bandwidth();
    BandwidthIsSixteenthTurn();
    assert StartAngle(Arc(Directions[i], 0.0)) == start;
  }

  /** Each band is a sixteenth of the full turn: 2 pi / 16 = pi / 8. */
  lemma BandwidthIsSixteenthTurn()
    ensures AngleScale.Bandwidth() == 1.0 / 8.0
  {
    DirectionsComplete(N);
  }

  /** Wedge i of any table spans [i w, i w + w] with w = 2 pi / 16. */
  lemma WedgeSpan(table: map<Direction, real>, i: nat)
    requires IsTable(table) && i < 16
    ensures |Arcs(table)| == 16
    ensures StartAngle(Arcs(table)[i]) == (i as real) / 8.0
    ensures EndAngle(Arcs(table)[i]) == (i as real) / 8.0 + 1.0 / 8.0
  {
    ArcsCanonical(table);
    Band(i);
    assert StartAngle(Arcs(table)[i]) == StartAngle(Arc(Directions[i], 0.0));
  }

  /**
   * No gaps and no overlaps: consecutive wedges share an edge, the first
   * starts at 0 and the last ends at 2 pi.
   */
  lemma WedgesContiguous(table: map<Direction, real>)
    requires IsTable(table)
    ensures |Arcs(table)| == 16
    ensures forall i :: 0 <= i < 15 ==> EndAngle(Arcs(table)[i]) == StartAngle(Arcs(table)[i + 1])
    ensures StartAngle(Arcs(table)[0]) == 0.0
    ensures EndAngle(Arcs(table)[15]) == 2.0
  {
    ArcsCanonical(table);
    forall i | 0 <= i < 16
      ensures StartAngle(Arcs(table)[i]) == (i as real) / 8.0
      ensures EndAngle(Arcs(table)[i]) == (i as real) / 8.0 + 1.0 / 8.0
    {
      WedgeSpan(table, i);
    }
  }

  /** The summed angular spans of a list of records. */
  function TotalSpan(arcs: seq<Arc>): real {
    if arcs == [] then 0.0 else EndAngle(arcs[0]) - StartAngle(arcs[0]) + TotalSpan(arcs[1..])
  }

  lemma {:induction false} TotalSpanUniform(arcs: seq<Arc>)
    ensures TotalSpan(arcs) == (|arcs| as real) / 8.0
  {
    if arcs != [] {
      SpanIsBand(arcs[0]);
      TotalSpanUniform(arcs[1..]);
    }
  }

  /** Every record's span is one band width. */
  lemma SpanIsBand(a: Arc)
    ensures EndAngle(a) - StartAngle(a) == 1.0 / 8.0
  {
    BandwidthIsSixteenthTurn();
  }

  /** The 16 spans add up to exactly one full turn, 2 pi. */
  lemma FullCircle(table: map<Direction, real>)
    requires IsTable(table)
    ensures TotalSpan(Arcs(table)) == 2.0
  {
    ArcsCanonical(table);
    TotalSpanUniform(Arcs(table));
  }

  // ----- Radial layout -----

  /** With a non-zero maximum the outer radius is value / max * radius. */
  lemma RadiusProportional(table: map<Direction, real>, radius: real, a: Arc)
    requires IsTable(table) && MaxValue(table) != 0.0
    ensures OuterRadius(table, radius, a) == a.value / MaxValue(table) * radius
  {
    LinearFromOrigin(MaxValue(table), radius, a.value, OuterRadius(table, radius, a));
  }

  /** The largest value reaches the full radius and a zero value stays at the centre. */
  lemma RadiusEnds(table: map<Direction, real>, radius: real, a: Arc)
    requires IsTable(table) && MaxValue(table) != 0.0
    ensures a.value == MaxValue(table) ==> OuterRadius(table, radius, a) == radius
    ensures a.value == 0.0 ==> OuterRadius(table, radius, a) == 0.0
  {
    LinearEnds(RadiusScale(table, radius));
  }

  /** A larger value never gets a shorter wedge (for a non-negative radius). */
  lemma RadiusMonotone(table: map<Direction, real>, radius: real, a: Arc, b: Arc)
    requires IsTable(table) && MaxValue(table) > 0.0 && radius >= 0.0
    requires a.value <= b.value
    ensures OuterRadius(table, radius, a) <= OuterRadius(table, radius, b)
  {
    LinearMonotone(RadiusScale(table, radius), a.value, b.value);
  }

  /** A non-negative table value gives a radius between 0 and the chart radius. */
  lemma RadiusWithinChart(table: map<Direction, real>, radius: real, d: Direction)
    requires IsTable(table) && MaxValue(table) > 0.0 && radius >= 0.0
    requires table[d] >= 0.0
    ensures 0.0 <= OuterRadius(table, radius, Arc(d, table[d])) <= radius
  {
    var s := RadiusScale(table, radius);
    MaxValueIsMaximum(table);
    LinearEnds(s);
    LinearMonotone(s, 0.0, table[d]);
    LinearMonotone(s, table[d], MaxValue(table));
  }

  /** Wedge i is the arc generator applied to record i. */
  lemma WedgeAt(table: map<Direction, real>, radius: real, i: nat)
    requires IsTable(table) && MaxValue(table) != 0.0
    requires i < 16
    ensures |Wedges(table, radius)| == 16 == |Arcs(table)|
    ensures Wedges(table, radius)[i] == WedgeOf(table, radius, Arcs(table)[i])
  {
    ArcsCanonical(table);
  }

  /** Wedge i carries direction i, its table value, band i and a radius at the centre. */
  lemma WedgeFields(table: map<Direction, real>, radius: real, i: nat)
    requires IsTable(table) && MaxValue(table) != 0.0 && i < 16
    ensures |Wedges(table, radius)| == 16
    ensures Wedges(table, radius)[i].direction == Directions[i]
    ensures Wedges(table, radius)[i].value == table[Directions[i]]
    ensures Wedges(table, radius)[i].startAngle == (i as real) / 8.0
    ensures Wedges(table, radius)[i].endAngle == (i as real) / 8.0 + 1.0 / 8.0
    ensures Wedges(table, radius)[i].innerRadius == 0.0
  {
    ArcsCanonical(table);
    WedgeSpan(table, i);
    WedgeAt(table, radius, i);
  }

  /** The same for all 16 wedges at once. */
  lemma WedgesCanonical(table: map<Direction, real>, radius: real)
    requires IsTable(table) && MaxValue(table) != 0.0
    ensures |Wedges(table, radius)| == 16
    ensures forall i :: 0 <= i < 16 ==>
              && Wedges(table, radius)[i].direction == Directions[i]
              && Wedges(table, radius)[i].value == table[Directions[i]]
              && Wedges(table, radius)[i].startAngle == (i as real) / 8.0
              && Wedges(table, radius)[i].endAngle == (i as real) / 8.0 + 1.0 / 8.0
              && Wedges(table, radius)[i].innerRadius == 0.0
  {
    WedgeFields(table, radius, 0);
    forall i | 0 <= i < 16
      ensures Wedges(table, radius)[i].direction == Directions[i]
      ensures Wedges(table, radius)[i].value == table[Directions[i]]
      ensures Wedges(table, radius)[i].startAngle == (i as real) / 8.0
      ensures Wedges(table, radius)[i].endAngle == (i as real) / 8.0 + 1.0 / 8.0
      ensures Wedges(table, radius)[i].innerRadius == 0.0
    {
      WedgeFields(table, radius, i);
    }
  }

  /** Wedge i's outer radius is its value over the maximum, times the radius. */
  lemma WedgeRadius(table: map<Direction, real>, radius: real, i: nat)
    requires IsTable(table) && MaxValue(table) != 0.0 && i < 16
    ensures |Wedges(table, radius)| == 16
    ensures Wedges(table, radius)[i].outerRadius ==
              Wedges(table, radius)[i].value / MaxValue(table) * radius
  {
    WedgeOuter(table, radius, i);
    var w := Wedges(table, radius)[i];
    LinearFromOrigin(MaxValue(table), radius, w.value, w.outerRadius);
  }

  /** Wedge i's outer radius is the radial scale applied to its value. */
  lemma WedgeOuter(table: map<Direction, real>, radius: real, i: nat)
    requires IsTable(table) && MaxValue(table) != 0.0 && i < 16
    ensures |Wedges(table, radius)| == 16
    ensures Wedges(table, radius)[i].outerRadius ==
              LinearScale(0.0, MaxValue(table), 0.0, radius).Apply(Wedges(table, radius)[i].value)
  {
    WedgeAt(table, radius, i);
  }

  // ----- Labels -----

  /**
   * Label i names direction i, sits at distance radius + 15 whatever the
   * value, and at angle i w + w / 2 - pi / 2: the middle of wedge i, moved
   * from the arc convention to the cosine/sine convention.
   */
  lemma LabelsPlaced(table: map<Direction, real>, radius: real)
    requires IsTable(table)
    ensures |Labels(table, radius)| == 16
    ensures forall i :: 0 <= i < 16 ==>
              && Labels(table, radius)[i].text == Name(Directions[i])
              && Labels(table, radius)[i].distance == radius + 15.0
              && Labels(table, radius)[i].angle == (i as real) / 8.0 + 1.0 / 16.0 - 0.5
    ensures forall i :: 0 <= i < 16 ==>
              Labels(table, radius)[i].angle + 0.5 ==
                (StartAngle(Arcs(table)[i]) + EndAngle(Arcs(table)[i])) / 2.0
  {
    ArcsCanonical(table);
    forall i | 0 <= i < 16
      ensures StartAngle(Arcs(table)[i]) == (i as real) / 8.0
      ensures EndAngle(Arcs(table)[i]) == (i as real) / 8.0 + 1.0 / 8.0
    {
      WedgeSpan(table, i);
    }
  }

  /** Labels do not depend on the data at all, only on the chart radius. */
  lemma LabelsIgnoreValues(t1: map<Direction, real>, t2: map<Direction, real>, radius: real)
    requires IsTable(t1) && IsTable(t2)
    ensures Labels(t1, radius) == Labels(t2, radius)
  {
    ArcsCanonical(t1);
    ArcsCanonical(t2);
    forall i | 0 <= i < 16 ensures Labels(t1, radius)[i] == Labels(t2, radius)[i] {
      assert Arcs(t1)[i].direction == Arcs(t2)[i].direction;
    }
  }

  /**
   * The north label is a sixteenth of a turn clockwise from the top: the
   * north wedge starts at the top and its middle lies pi / 16 past it.
   */
  lemma NorthLabel(table: map<Direction, real>, radius: real)
    requires IsTable(table)
    ensures |Labels(table, radius)| == 16
    ensures Labels(table, radius)[0].text == "N"
    ensures Labels(table, radius)[0].angle == -0.5 + 1.0 / 16.0
  {
    LabelsPlaced(table, radius);
  }

  // ----- Whole-chart scenarios -----

  /** Every table the normalizer produces is a table in the sense above. */
  lemma NormalizedIsTable(rows: seq<Row>)
    ensures IsTable(FrequencyTable(rows))
  {
    forall d ensures d in FrequencyTable(rows) {
      NormalizedEntries(rows, d);
    }
  }

  /**
   * Rows N = 10 and E = 5: N and E carry those values, every other label 0,
   * and the maximum is 10.
   */
  lemma TwoRowTable(rows: seq<Row>)
    requires rows == [Row("N", 10.0), Row("E", 5.0)]
    ensures IsTable(FrequencyTable(rows))
    ensures FrequencyTable(rows)[N] == 10.0 && FrequencyTable(rows)[E] == 5.0
    ensures forall d :: d != N && d != E ==> FrequencyTable(rows)[d] == 0.0
    ensures MaxValue(FrequencyTable(rows)) == 10.0
  {
    var table := FrequencyTable(rows);
    NormalizedIsTable(rows);
    assert Key(rows[0]) == Name(N) && Key(rows[1]) == Name(E);
    LastMatchWins(rows, 0, N);
    LastMatchWins(rows, 1, E);
    forall d | d != N && d != E ensures table[d] == 0.0 {
      if Name(d) == Name(N) { NameInjective(d, N); }
      if Name(d) == Name(E) { NameInjective(d, E); }
      UnmatchedStaysZero(rows, d);
    }
    var m := MaxValue(table);
    MaxValueIsMaximum(table);
    var d :| table[d] == m;
    assert m <= 10.0;
  }

  /**
   * The same rows with radius 100: N's wedge reaches 100, E's 50 and the
   * other fourteen stay at 0.
   */
  lemma TwoRowScenario(rows: seq<Row>, i: nat)
    requires rows == [Row("N", 10.0), Row("E", 5.0)] && i < 16
    ensures IsTable(FrequencyTable(rows)) && MaxValue(FrequencyTable(rows)) == 10.0
    ensures |Wedges(FrequencyTable(rows), ChartRadius(Some(100.0)))| == 16
    ensures Wedges(FrequencyTable(rows), ChartRadius(Some(100.0)))[i].outerRadius ==
              if i == 0 then 100.0 else if i == 4 then 50.0 else 0.0
  {
    TwoRowTable(rows);
    assert ChartRadius(Some(100.0)) == 100.0;
    TwoRowRadii(FrequencyTable(rows), i);
  }

  /** The radii of any table holding N = 10, E = 5 and zeros, drawn at radius 100. */
  lemma TwoRowRadii(table: map<Direction, real>, i: nat)
    requires IsTable(table) && MaxValue(table) == 10.0 && i < 16
    requires table[N] == 10.0 && table[E] == 5.0
    requires forall d :: d != N && d != E ==> table[d] == 0.0
    ensures |Wedges(table, 100.0)| == 16
    ensures Wedges(table, 100.0)[i].outerRadius ==
              if i == 0 then 100.0 else if i == 4 then 50.0 else 0.0
  {
    WedgeRadius(table, 100.0, i);
    WedgeFields(table, 100.0, i);
    var v := table[Directions[i]];
    var y := Wedges(table, 100.0)[i].outerRadius;
    var m := MaxValue(table);
    assert y == v / m * 100.0;
    TwoRowValue(table, i);
    TenfoldRadius(v, y);
  }

  /** Value i of a table holding N = 10, E = 5 and zeros. */
  lemma TwoRowValue(table: map<Direction, real>, i: nat)
    requires IsTable(table) && i < 16
    requires table[N] == 10.0 && table[E] == 5.0
    requires forall d :: d != N && d != E ==> table[d] == 0.0
    ensures table[Directions[i]] == if i == 0 then 10.0 else if i == 4 then 5.0 else 0.0
  {
    if Directions[i] == N { SamePosition(i, 0); }
    if Directions[i] == E { SamePosition(i, 4); }
  }

  /** Scaling [0, 10] onto [0, 100] multiplies by ten. */
  lemma TenfoldRadius(v: real, y: real)
    requires y == v / 10.0 * 100.0
    ensures y == 10.0 * v
  {
  }

  /**
   * No rows and no configured radius: every value is 0, so the radial domain
   * collapses (max = 0), while all 16 labels still stand at distance 215.
   */
  lemma EmptyScenario()
    ensures var table := FrequencyTable([]);
            && IsTable(table)
            && MaxValue(table) == 0.0
            && |Labels(table, ChartRadius(None))| == 16
            && forall i :: 0 <= i < 16 ==> Labels(table, ChartRadius(None))[i].distance == 215.0
  {
    var table := FrequencyTable([]);
    NormalizedIsTable([]);
    forall d ensures table[d] == 0.0 { EmptyInputAllZero(d); }
    var m := MaxValue(table);
    MaxValueIsMaximum(table);
    var d :| table[d] == m;
    assert m == 0.0;
    assert ChartRadius(None) == 200.0;
    LabelsPlaced(table, 200.0);
  }
}
