/**
 * The frequency normalizer: every direction starts at 0, then the rows are
 * visited in order and a row whose upper-cased dimension is the label of a
 * direction overwrites that direction's entry with the row's measure.
 */
module Normalizer {
  import opened Wrappers
  import opened Compass

  /** One input row: the dimension cell's text and the measure cell's number. */
  datatype Row = Row(dimension: string, measure: real)

  /** The text a row is looked up under: its dimension, upper-cased. */
  function Key(r: Row): string {
    ToUpper(r.dimension)
  }

  /**
   * The value a direction ends up with: the measure of the last row, in
   * input order, whose key is that direction's label, or 0 if no row has it.
   */
  function LastMeasure(rows: seq<Row>, d: Direction): real {
    if rows == [] then 0.0
    else if Key(rows[|rows| - 1]) == Name(d) then rows[|rows| - 1].measure
    else LastMeasure(rows[..|rows| - 1], d)
  }

  /** The table the normalizer is specified to produce. */
  function FrequencyTable(rows: seq<Row>): map<Direction, real> {
    map d | d in AllDirections :: LastMeasure(rows, d)
  }

  /** Every direction of the list mapped to 0. */
  function Seed(dirs: seq<Direction>): map<Direction, real> {
    map d | d in dirs :: 0.0
  }

  lemma SeedStep(dirs: seq<Direction>, x: Direction)
    ensures Seed(dirs + [x]) == Seed(dirs)[x := 0.0]
  {
  }

  /** Seeding the whole list gives the table of no rows. */
  lemma SeedIsEmptyTable()
    ensures Seed(Directions) == FrequencyTable([])
  {
    var seeded, empty := Seed(Directions), FrequencyTable([]);
    forall d ensures d in seeded && d in empty && seeded[d] == empty[d] {
      Listed(d);
    }
    assert seeded.Keys == empty.Keys;
  }

  /** Appending a row changes a direction's value only if the row names it. */
  lemma LastMeasureStep(prefix: seq<Row>, r: Row, d: Direction)
    ensures LastMeasure(prefix + [r], d) ==
              if Key(r) == Name(d) then r.measure else LastMeasure(prefix, d)
  {
    assert (prefix + [r])[..|prefix|] == prefix;
  }

  /** A row naming direction `d` overwrites that one entry of the table. */
  lemma RowMatched(prefix: seq<Row>, r: Row, d: Direction)
    requires Parse(Key(r)) == Some(d)
    ensures FrequencyTable(prefix + [r]) == FrequencyTable(prefix)[d := r.measure]
  {
    Listed(d);
    ParseName(Key(r), d);
    forall x | x in AllDirections
      ensures FrequencyTable(prefix + [r])[x] == FrequencyTable(prefix)[d := r.measure][x]
    {
      LastMeasureStep(prefix, r, x);
      if Name(x) == Name(d) {
        NameInjective(x, d);
      }
    }
  }

  /** A row naming no direction leaves the table as it was. */
  lemma RowDropped(prefix: seq<Row>, r: Row)
    requires Parse(Key(r)).None?
    ensures FrequencyTable(prefix + [r]) == FrequencyTable(prefix)
  {
    forall x | x in AllDirections
      ensures FrequencyTable(prefix + [r])[x] == FrequencyTable(prefix)[x]
    {
      LastMeasureStep(prefix, r, x);
      ParseName(Key(r), x);
    }
  }

  /**
   * Seeds every direction with 0, then folds the rows over the table in
   * order: a row whose key names an entry of the table overwrites it.
   */
  method Normalize(rows: seq<Row>) returns (table: map<Direction, real>)
    ensures table == FrequencyTable(rows)
  {
    table := map[];
    for i := 0 to |Directions|
      invariant table == Seed(Directions[..i])
    {
      SeedStep(Directions[..i], Directions[i]);
      assert Directions[..i + 1] == Directions[..i] + [Directions[i]];
      table := table[Directions[i] := 0.0];
    }
    assert Directions[..|Directions|] == Directions;
    SeedIsEmptyTable();
    for i := 0 to |rows|
      invariant table == FrequencyTable(rows[..i])
    {
      var key := ToUpper(rows[i].dimension);
      var found := Parse(key);
      assert rows[..i + 1] == rows[..i] + [rows[i]];
      match found {
        case Some(dir) =>
          NormalizedEntries(rows[..i], dir);
          RowMatched(rows[..i], rows[i], dir);
        case None =>
          RowDropped(rows[..i], rows[i]);
      }
      if found.Some? && found.value in table {
        table := table[found.value := rows[i].measure];
      }
    }
    assert rows[..|rows|] == rows;
  }

  /** The normalizer's result, entry by entry: the last matching measure or 0. */
  lemma NormalizedEntries(rows: seq<Row>, d: Direction)
    ensures d in FrequencyTable(rows)
    ensures FrequencyTable(rows)[d] == LastMeasure(rows, d)
  {
    Listed(d);
  }

  /** The table always has exactly the 16 directions as keys, whatever the rows. */
  lemma TableKeys(rows: seq<Row>)
    ensures FrequencyTable(rows).Keys == AllDirections
    ensures |FrequencyTable(rows)| == 16
  {
    AllDirectionsSize();
  }

  /** A direction no row addresses keeps its initial 0. */
  lemma {:induction false} UnmatchedStaysZero(rows: seq<Row>, d: Direction)
    requires forall j :: 0 <= j < |rows| ==> Key(rows[j]) != Name(d)
    ensures FrequencyTable(rows)[d] == 0.0
  {
    Listed(d);
    if rows != [] {
      UnmatchedStaysZero(rows[..|rows| - 1], d);
    }
  }

  /** With no rows at all every entry is 0. */
  lemma EmptyInputAllZero(d: Direction)
    ensures FrequencyTable([])[d] == 0.0
  {
    Listed(d);
  }

  /**
   * Last match wins: if row k's key is the label of d and no later row has
   * that key, d's entry is row k's measure. Earlier rows with the same key
   * are overwritten, not added up.
   */
  lemma {:induction false} LastMatchWins(rows: seq<Row>, k: nat, d: Direction)
    requires k < |rows| && Key(rows[k]) == Name(d)
    requires forall j :: k < j < |rows| ==> Key(rows[j]) != Name(d)
    ensures FrequencyTable(rows)[d] == rows[k].measure
  {
    Listed(d);
    if k < |rows| - 1 {
      var init := rows[..|rows| - 1];
      assert init[k] == rows[k];
      LastMatchWins(init, k, d);
    }
  }

  /** A row whose key is no label can be deleted without changing the table. */
  lemma DroppedRowChangesNothing(before: seq<Row>, r: Row, after: seq<Row>)
    requires Parse(Key(r)).None?
    ensures FrequencyTable(before + [r] + after) == FrequencyTable(before + after)
  {
    forall d | d in AllDirections
      ensures LastMeasure(before + [r] + after, d) == LastMeasure(before + after, d)
    {
      ParseName(Key(r), d);
      DroppedRowAt(before, r, after, d);
    }
  }

  lemma {:induction false} DroppedRowAt(before: seq<Row>, r: Row, after: seq<Row>, d: Direction)
    requires Key(r) != Name(d)
    ensures LastMeasure(before + [r] + after, d) == LastMeasure(before + after, d)
  {
    if after == [] {
      assert before + [r] + after == before + [r];
      assert (before + [r])[..|before|] == before;
      assert before + after == before;
    } else {
      var last := after[|after| - 1];
      var init := after[..|after| - 1];
      assert before + [r] + after == (before + [r] + init) + [last];
      assert before + after == (before + init) + [last];
      assert (before + [r] + init + [last])[..|before| + 1 + |init|] == before + [r] + init;
      assert (before + init + [last])[..|before| + |init|] == before + init;
      DroppedRowAt(before, r, init, d);
    }
  }

  /** Two rows for north, in either case: the later one's value stands alone. */
  lemma DuplicatesNotSummed()
    ensures FrequencyTable([Row("N", 3.0), Row("n", 4.0)])[N] == 4.0
  {
    var rows := [Row("N", 3.0), Row("n", 4.0)];
    assert Key(rows[1]) == Name(N);
    LastMatchWins(rows, 1, N);
  }
}
