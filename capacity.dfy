/**
 * The capacity worksheets: `search_cursor` in its three modes, the arithmetic of
 * `write_data`, the existing-versus-historic comparison with its zero guard, and
 * the two dam-count loops of the electivity worksheet.
 */
module CapacitySheets {
  import opened Buckets
  import opened Reaches
  import opened Schemes

  /** A computation that Python would abort with ZeroDivisionError. */
  datatype Outcome<T> = Ok(value: T) | DivisionByZero

  /** The kilometre-to-mile factor of `write_data` and of the worksheets' mile formulas. */
  const KmToMiles: real := 0.62137

  /** The rows' `/= 1000`: metres to kilometres, row by row and in total. */
  function Kilometres(metres: seq<real>): (km: seq<real>)
    ensures |km| == |metres|
    ensures forall k :: 0 <= k < |km| ==> km[k] * 1000.0 == metres[k]
    ensures Sum(km) * 1000.0 == Sum(metres)
  {
    var km := seq(|metres|, k requires 0 <= k < |metres| => metres[k] / 1000.0);
    SumScaled(metres, km, 0.001);
    km
  }

  /** One worksheet row written by `write_data`: length in km, in miles, and share of the total. */
  datatype DataRow = DataRow(km: real, mi: real, share: real)

  function Shares(table: seq<DataRow>): seq<real>
  {
    seq(|table|, i requires 0 <= i < |table| => table[i].share)
  }

  function Miles(table: seq<DataRow>): seq<real>
  {
    seq(|table|, i requires 0 <= i < |table| => table[i].mi)
  }

  function KmRow(km: real, totalKm: real): DataRow
    requires totalKm != 0.0
  {
    DataRow(km, km * KmToMiles, km / totalKm)
  }

  /**
   * `write_data`: each of the five bucket lengths (metres) becomes kilometres,
   * miles, and a share of `totalKm`; a zero total aborts with a division by zero.
   */
  function WriteData(data: seq<real>, totalKm: real): (r: Outcome<seq<DataRow>>)
    requires |data| == 5
    ensures r.DivisionByZero? <==> totalKm == 0.0
    ensures r.Ok? ==> |r.value| == 5
    ensures r.Ok? ==> forall k :: 0 <= k < 5 ==>
      r.value[k].km * 1000.0 == data[k] &&
      r.value[k].mi == r.value[k].km * KmToMiles &&
      r.value[k].share * totalKm == r.value[k].km
  {
    if totalKm == 0.0 then DivisionByZero
    else Ok(seq(5, i requires 0 <= i < 5 => KmRow(data[i] / 1000.0, totalKm)))
  }

  /** When the total is the sum of the buckets, the five shares add up to one. */
  lemma SharesSumToOne(data: seq<real>, totalKm: real)
    requires |data| == 5 && totalKm != 0.0
    requires Sum(data) == totalKm * 1000.0
    ensures WriteData(data, totalKm).Ok?
    ensures Sum(Shares(WriteData(data, totalKm).value)) == 1.0
  {
    var shares := Shares(WriteData(data, totalKm).value);
    var c := 1.0 / (1000.0 * totalKm);
    forall i | 0 <= i < 5 ensures shares[i] == data[i] * c {
      calc {
        shares[i];
        data[i] / 1000.0 / totalKm;
        { assert totalKm * 1000.0 != 0.0; }
        data[i] * c;
      }
    }
    SumScaled(data, shares, c);
  }

  /** The five mile values add up to the bucket total converted to miles. */
  lemma MilesSum(data: seq<real>, totalKm: real)
    requires |data| == 5 && totalKm != 0.0
    ensures WriteData(data, totalKm).Ok?
    ensures Sum(Miles(WriteData(data, totalKm).value)) == Sum(data) / 1000.0 * KmToMiles
  {
    var rows, miles := WriteData(data, totalKm).value, MetresToMiles(data);
    forall k | 0 <= k < 5
      ensures Miles(rows)[k] == miles[k]
    {
      assert rows[k].km == data[k] / 1000.0;
    }
    assert Miles(rows) == miles;
  }

  function MetresToMiles(data: seq<real>): (miles: seq<real>)
    ensures |miles| == |data|
    ensures Sum(miles) == Sum(data) / 1000.0 * KmToMiles
  {
    var miles := seq(|data|, i requires 0 <= i < |data| => data[i] / 1000.0 * KmToMiles);
    ConvertedSum(data, miles, KmToMiles);
    miles
  }

  /** Converting a sum is converting its two parts. */
  lemma Distribute(x: real, y: real, factor: real)
    ensures (x + y) / 1000.0 * factor == x / 1000.0 * factor + y / 1000.0 * factor
  {
  }

  /** Converting every metre value to kilometres and then by a factor converts their sum alike. */
  lemma {:induction false} ConvertedSum(data: seq<real>, converted: seq<real>, factor: real)
    requires |converted| == |data|
    requires forall i :: 0 <= i < |data| ==> converted[i] == data[i] / 1000.0 * factor
    ensures Sum(converted) == Sum(data) / 1000.0 * factor
  {
    if data != [] {
      var n := |data|;
      ConvertedSum(data[..n - 1], converted[..n - 1], factor);
      Distribute(Sum(data[..n - 1]), data[n - 1], factor);
    }
  }

  /** A reach in the length modes: weighed by its length, classified by its second field. */
  function LengthEntry(p: Pair, isComplex: bool): Entry
  {
    var row := if isComplex then ClassifyComplex(p.second).Row() else ClassifyCapacity(p.second).Row();
    Entry(Row(row), p.first)
  }

  function LengthEntries(pairs: seq<Pair>, isComplex: bool): seq<Entry>
  {
    seq(|pairs|, i requires 0 <= i < |pairs| => LengthEntry(pairs[i], isComplex))
  }

  /**
   * A reach in the capacity-total mode: weighed by its dam count and classified
   * by its capacity, with the rows filled in reverse (`data1` is "> 15", `data5` is 0).
   */
  function CapacityTotalEntry(p: Pair): Entry
  {
    Entry(Row(4 - ClassifyCapacity(p.first).Row()), p.second)
  }

  function CapacityTotalEntries(pairs: seq<Pair>): seq<Entry>
  {
    seq(|pairs|, i requires 0 <= i < |pairs| => CapacityTotalEntry(pairs[i]))
  }

  /** A reach in the electivity loops: weighed by a dam count, capacity rows in forward order. */
  function DamCountEntry(p: Pair): Entry
  {
    Entry(Row(ClassifyCapacity(p.first).Row()), p.second)
  }

  function DamCountEntries(pairs: seq<Pair>): seq<Entry>
  {
    seq(|pairs|, i requires 0 <= i < |pairs| => DamCountEntry(pairs[i]))
  }

  /** Every entry of these passes lands in one of the five rows. */
  lemma FiveRowsCoverAll(pairs: seq<Pair>, isComplex: bool)
    ensures Unassigned(LengthEntries(pairs, isComplex), 5) == 0.0
    ensures Unassigned(CapacityTotalEntries(pairs), 5) == 0.0
    ensures Unassigned(DamCountEntries(pairs), 5) == 0.0
  {
    NothingUnassigned(LengthEntries(pairs, isComplex), 5);
    NothingUnassigned(CapacityTotalEntries(pairs), 5);
    NothingUnassigned(DamCountEntries(pairs), 5);
  }

  /** The capacity-total mode's row `k` is the forward capacity scheme's row `4 - k`. */
  lemma CapacityTotalsReversed(pairs: seq<Pair>, k: nat)
    requires k < 5
    ensures BucketSum(CapacityTotalEntries(pairs), k) == BucketSum(DamCountEntries(pairs), 4 - k)
  {
    Transfer(CapacityTotalEntries(pairs), k, DamCountEntries(pairs), 4 - k);
  }

  /** What `search_cursor` gives back: the capacity totals, or the rows it wrote. */
  datatype CursorResult =
    | CapacityTotals(rows: seq<real>, total: real)
    | Written(table: Outcome<seq<DataRow>>)

  /**
   * `search_cursor` over the pairs of its two fields, with every accumulator
   * starting at zero as all its callers pass them. The capacity-total mode
   * returns `(data1, ..., data5, total)`; the two length modes pass the rows and
   * the total in kilometres to `write_data`.
   */
  method SearchCursor(pairs: seq<Pair>, isComplex: bool, isCapacityTotal: bool) returns (r: CursorResult)
    ensures isCapacityTotal ==>
      r == CapacityTotals(Tally(CapacityTotalEntries(pairs), 5), Total(CapacityTotalEntries(pairs)))
    ensures isCapacityTotal ==> Sum(r.rows) == r.total
    ensures !isCapacityTotal ==>
      r == Written(WriteData(Tally(LengthEntries(pairs, isComplex), 5), Total(LengthEntries(pairs, isComplex)) / 1000.0))
    ensures r.Written? ==> (r.table.DivisionByZero? <==> Total(LengthEntries(pairs, isComplex)) == 0.0)
    ensures r.Written? && r.table.Ok? ==> Sum(Shares(r.table.value)) == 1.0
  {
    FiveRowsCoverAll(pairs, isComplex);
    if isCapacityTotal {
      var rows, total := Accumulate(CapacityTotalEntries(pairs), 5);
      return CapacityTotals(rows, total);
    }
    var rows, total := Accumulate(LengthEntries(pairs, isComplex), 5);
    total := total / 1000.0;
    if total != 0.0 {
      SharesSumToOne(rows, total);
    }
    return Written(WriteData(rows, total));
  }

  /** The four length worksheets, which differ only in the field they classify by. */
  datatype LengthSheet =
    | ExistingCapacitySheet | ExistingComplexSheet | HistoricCapacitySheet | HistoricComplexSheet
  {
    function Field(): Attribute
    {
      match this
      case ExistingCapacitySheet => ExistingCapacity
      case ExistingComplexSheet => ExistingDamCount
      case HistoricCapacitySheet => HistoricCapacity
      case HistoricComplexSheet => HistoricDamCount
    }

    predicate IsComplex()
    {
      ExistingComplexSheet? || HistoricComplexSheet?
    }
  }

  /** Every reach weighed by its length, in no row: the summary's total-length loop. */
  function LengthOnly(reaches: seq<Reach>): seq<Entry>
  {
    seq(|reaches|, i requires 0 <= i < |reaches| => Entry(Dropped, reaches[i].length))
  }

  /** The network length in metres. */
  function TotalLength(reaches: seq<Reach>): real
  {
    Total(LengthOnly(reaches))
  }

  /** The pass of a length worksheet over a network. */
  function SheetEntries(reaches: seq<Reach>, sheet: LengthSheet): seq<Entry>
  {
    LengthEntries(Cursor(reaches, Length, sheet.Field()), sheet.IsComplex())
  }

  /**
   * `write_exist_build_cap_worksheet` and its three siblings: the rows they write.
   * The network length is split over the five rows, each row's miles are its
   * kilometres times 0.62137 and its share is its part of the network length,
   * the shares add up to one, and a zero-length network aborts with a division
   * by zero.
   */
  method WriteLengthSheet(reaches: seq<Reach>, sheet: LengthSheet) returns (table: Outcome<seq<DataRow>>)
    ensures table == WriteData(Tally(SheetEntries(reaches, sheet), 5), TotalLength(reaches) / 1000.0)
    ensures table.DivisionByZero? <==> TotalLength(reaches) == 0.0
    ensures table.Ok? ==> |table.value| == 5
    ensures table.Ok? ==> forall k :: 0 <= k < 5 ==>
      table.value[k].km * 1000.0 == BucketSum(SheetEntries(reaches, sheet), k) &&
      table.value[k].mi == table.value[k].km * KmToMiles &&
      table.value[k].share == table.value[k].km / (TotalLength(reaches) / 1000.0)
    ensures table.Ok? ==> Sum(Shares(table.value)) == 1.0
  {
    SameWeights(SheetEntries(reaches, sheet), LengthOnly(reaches));
    var r := SearchCursor(Cursor(reaches, Length, sheet.Field()), sheet.IsComplex(), false);
    table := r.table;
    if table.Ok? {
      LengthSheetRows(reaches, sheet);
    }
  }

  /**
   * The rows of a length worksheet: row k's kilometres are the length its
   * scheme puts in row k, its miles are its kilometres times 0.62137, and its
   * share is its part of the network length.
   */
  lemma LengthSheetRows(reaches: seq<Reach>, sheet: LengthSheet)
    requires TotalLength(reaches) != 0.0
    ensures WriteData(Tally(SheetEntries(reaches, sheet), 5), TotalLength(reaches) / 1000.0).Ok?
    ensures var rows := WriteData(Tally(SheetEntries(reaches, sheet), 5), TotalLength(reaches) / 1000.0).value;
      forall k :: 0 <= k < 5 ==>
        rows[k].km * 1000.0 == BucketSum(SheetEntries(reaches, sheet), k) &&
        rows[k].mi == rows[k].km * KmToMiles &&
        rows[k].share == rows[k].km / (TotalLength(reaches) / 1000.0)
  {
    var data := Tally(SheetEntries(reaches, sheet), 5);
    var totalKm := TotalLength(reaches) / 1000.0;
    var rows := WriteData(data, totalKm).value;
    forall k | 0 <= k < 5
      ensures rows[k].share == rows[k].km / totalKm
    {
      assert rows[k].share * totalKm == rows[k].km;
    }
  }

  /** Python's `int()` on a float: truncation toward zero. */
  function Trunc(x: real): (n: int)
    ensures 0.0 <= x ==> n as real <= x < n as real + 1.0
    ensures x < 0.0 ==> n as real - 1.0 < x <= n as real
  {
    if x >= 0.0 then x.Floor else -((-x).Floor)
  }

  /** The sum of a column of sums once each is written through `int()`. */
  function TruncatedSum(rows: seq<real>): int
  {
    if rows == [] then 0 else TruncatedSum(rows[..|rows| - 1]) + Trunc(rows[|rows| - 1])
  }

  /**
   * Truncating non-negative sums loses less than one per row: the written
   * column adds up to at most the true total, and to more than the total less
   * the number of rows.
   */
  lemma {:induction false} TruncationLoss(rows: seq<real>)
    requires forall k :: 0 <= k < |rows| ==> rows[k] >= 0.0
    ensures TruncatedSum(rows) as real <= Sum(rows)
    ensures rows != [] ==> Sum(rows) < TruncatedSum(rows) as real + |rows| as real
  {
    if rows != [] {
      var init, last := rows[..|rows| - 1], rows[|rows| - 1];
      TruncationLoss(init);
      var t, u := TruncatedSum(init), Trunc(last);
      assert u as real <= last < u as real + 1.0;
      assert TruncatedSum(rows) as real == t as real + u as real;
    }
  }

  /** A "% Capacity of Historic" cell: a written zero, or the formula existing / historic. */
  datatype PercentCell = WrittenZero | Quotient(existing: int, historic: int)

  /** The zero guard: the formula is written only over a historic count that is not zero. */
  function CapacityOfHistoric(existing: int, historic: int): (c: PercentCell)
    ensures c.Quotient? ==> c.historic != 0 && c == Quotient(existing, historic)
    ensures c == WrittenZero <==> historic == 0
  {
    if historic == 0 then WrittenZero else Quotient(existing, historic)
  }

  /** The capacity-total pass of the existing or the historic scenario. */
  function ScenarioEntries(reaches: seq<Reach>, historic: bool): seq<Entry>
  {
    if historic then CapacityTotalEntries(Cursor(reaches, HistoricCapacity, HistoricDamCount))
    else CapacityTotalEntries(Cursor(reaches, ExistingCapacity, ExistingDamCount))
  }

  /**
   * `write_hist_vs_exist_worksheet`: the estimated dam capacity of each class,
   * existing and historic, truncated to integers in the order Pervasive,
   * Frequent, Occasional, Rare, None; and the "% Capacity of Historic" column,
   * whose formula never divides by a zero historic count.
   */
  method ExistingVsHistoric(reaches: seq<Reach>)
    returns (existing: seq<int>, historic: seq<int>, ofHistoric: seq<PercentCell>)
    ensures |existing| == 5 && |historic| == 5 && |ofHistoric| == 5
    ensures forall k :: 0 <= k < 5 ==> existing[k] == Trunc(BucketSum(ScenarioEntries(reaches, false), k))
    ensures forall k :: 0 <= k < 5 ==> historic[k] == Trunc(BucketSum(ScenarioEntries(reaches, true), k))
    ensures forall k :: 0 <= k < 5 ==> (ofHistoric[k] == WrittenZero <==> historic[k] == 0)
    ensures forall k :: 0 <= k < 5 && ofHistoric[k].Quotient? ==>
      ofHistoric[k].historic != 0 && ofHistoric[k] == Quotient(existing[k], historic[k])
  {
    var ex := SearchCursor(Cursor(reaches, ExistingCapacity, ExistingDamCount), false, true);
    existing := seq(5, k requires 0 <= k < 5 => Trunc(ex.rows[k]));
    var hist := SearchCursor(Cursor(reaches, HistoricCapacity, HistoricDamCount), false, true);
    historic := seq(5, k requires 0 <= k < 5 => Trunc(hist.rows[k]));
    ofHistoric := seq(5, k requires 0 <= k < 5 => CapacityOfHistoric(existing[k], historic[k]));
  }

  /**
   * The two count loops of `write_electivity_worksheet`: surveyed dams and
   * estimated dam capacity per existing-capacity class, rows None to Pervasive.
   * Every surveyed dam is counted in exactly one row, and the estimated column
   * holds, in reverse row order, the sums the existing-versus-historic
   * worksheet computes before truncating them.
   */
  method ElectivityCounts(reaches: seq<Reach>) returns (surveyed: seq<real>, estimated: seq<real>)
    ensures surveyed == Tally(DamCountEntries(Cursor(reaches, ExistingCapacity, SurveyedDams)), 5)
    ensures estimated == Tally(DamCountEntries(Cursor(reaches, ExistingCapacity, ExistingDamCount)), 5)
    ensures Sum(surveyed) == Total(DamCountEntries(Cursor(reaches, ExistingCapacity, SurveyedDams)))
    ensures forall k :: 0 <= k < 5 ==> estimated[k] == BucketSum(ScenarioEntries(reaches, false), 4 - k)
  {
    var surveyedPairs := Cursor(reaches, ExistingCapacity, SurveyedDams);
    var estimatedPairs := Cursor(reaches, ExistingCapacity, ExistingDamCount);
    FiveRowsCoverAll(surveyedPairs, false);
    var surveyedTotal, estimatedTotal;
    surveyed, surveyedTotal := Accumulate(DamCountEntries(surveyedPairs), 5);
    estimated, estimatedTotal := Accumulate(DamCountEntries(estimatedPairs), 5);
    forall k | 0 <= k < 5
      ensures estimated[k] == BucketSum(ScenarioEntries(reaches, false), 4 - k)
    {
      CapacityTotalsReversed(estimatedPairs, 4 - k);
    }
  }
}
