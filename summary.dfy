/**
 * The "Watershed Summary" worksheet: network length in kilometres and miles,
 * total dam complex sizes and vegetation capacities, the share of reaches whose
 * capacity estimate the survey confirms, and the shares of the network in three
 * single categories. A value whose attribute is missing is written as "N/A",
 * with a warning.
 */
module Summary {
  import opened Buckets
  import opened Reaches
  import opened Schemes
  import opened CapacitySheets
  import opened CategorySheets

  /** A summary cell: a number, or "N/A" when its attribute is not in the network. */
  datatype Cell = Value(v: real) | NA

  /** The values the worksheet writes, and the warnings raised while computing them. */
  datatype WatershedTotals = WatershedTotals(
    totalKm: real,
    totalMi: real,
    existingComplex: Cell,
    historicComplex: Cell,
    existingVegetation: Cell,
    historicVegetation: Cell,
    percentCorrect: Cell,
    percentEasiest: Cell,
    percentPossible: Cell,
    percentNegligible: Cell,
    warnings: seq<string>)

  // ---------------------------------------------------------------- miles

  /** The summary's mile conversion as written: kilometres times the mile-to-kilometre factor. */
  function TotalMilesAsWritten(km: real): real
  {
    km * 1.609344
  }

  /** The conversion the worksheet's label calls for: kilometres to miles. */
  function TotalMiles(km: real): real
  {
    km * KmToMiles
  }

  /**
   * The mile conversion every length worksheet uses: the network length in
   * kilometres times 0.62137 is the sum of the mile column `write_data` writes.
   */
  lemma SheetMilesTotal(reaches: seq<Reach>, sheet: LengthSheet)
    requires TotalLength(reaches) != 0.0
    ensures WriteData(Tally(SheetEntries(reaches, sheet), 5), TotalLength(reaches) / 1000.0).Ok?
    ensures TotalMiles(TotalLength(reaches) / 1000.0) ==
      Sum(Miles(WriteData(Tally(SheetEntries(reaches, sheet), 5), TotalLength(reaches) / 1000.0).value))
  {
    var es := SheetEntries(reaches, sheet);
    SameWeights(es, LengthOnly(reaches));
    Partition(es, 5);
    FiveRowsCoverAll(Cursor(reaches, Length, sheet.Field()), sheet.IsComplex());
    MilesSum(Tally(es, 5), TotalLength(reaches) / 1000.0);
  }

  /** The factor as written makes any positive length about 2.6 times too many miles. */
  lemma AsWrittenOverstates(km: real)
    requires km > 0.0
    ensures TotalMilesAsWritten(km) > 2.5 * TotalMiles(km)
  {
  }

  // ---------------------------------------------------------------- totals

  /** A pass that only totals one attribute. */
  function AttributeEntries(reaches: seq<Reach>, a: Attribute): seq<Entry>
  {
    seq(|reaches|, i requires 0 <= i < |reaches| => Entry(Dropped, Read(reaches[i], a)))
  }

  /** A pass that totals a capacity density times the reach length in kilometres. */
  function VegetationEntries(reaches: seq<Reach>, a: Attribute): seq<Entry>
  {
    seq(|reaches|, i requires 0 <= i < |reaches| =>
      Entry(Dropped, reaches[i].length / 1000.0 * Read(reaches[i], a)))
  }

  /** A total dam complex size cell. */
  function ComplexCell(reaches: seq<Reach>, fields: seq<string>, a: Attribute): Cell
  {
    if Name(a) in fields then Value(Total(AttributeEntries(reaches, a))) else NA
  }

  /** A total vegetation capacity cell. */
  function VegetationCell(reaches: seq<Reach>, fields: seq<string>, a: Attribute): Cell
  {
    if Name(a) in fields then Value(Total(VegetationEntries(reaches, a))) else NA
  }

  /**
   * The summary's total dam complex size is the sum of the five capacity sums
   * the existing-versus-historic worksheet computes, before it truncates them.
   */
  lemma ComplexTotalMatchesSheet(reaches: seq<Reach>, historic: bool)
    ensures Total(AttributeEntries(reaches, if historic then HistoricDamCount else ExistingDamCount)) ==
      Sum(Tally(ScenarioEntries(reaches, historic), 5))
  {
    var pairs := if historic then Cursor(reaches, HistoricCapacity, HistoricDamCount)
                 else Cursor(reaches, ExistingCapacity, ExistingDamCount);
    var es := ScenarioEntries(reaches, historic);
    SameWeights(AttributeEntries(reaches, if historic then HistoricDamCount else ExistingDamCount), es);
    Partition(es, 5);
    FiveRowsCoverAll(pairs, false);
  }

  /**
   * The existing-versus-historic worksheet writes each of those sums through
   * `int()`. With counts that are not negative, its written column adds up to
   * at most the summary's total, and to less than five below it.
   */
  lemma WrittenComplexNearTotal(reaches: seq<Reach>, historic: bool)
    requires forall i :: 0 <= i < |reaches| ==>
      Read(reaches[i], if historic then HistoricDamCount else ExistingDamCount) >= 0.0
    ensures TruncatedSum(Tally(ScenarioEntries(reaches, historic), 5)) as real <=
      Total(AttributeEntries(reaches, if historic then HistoricDamCount else ExistingDamCount)) <
      TruncatedSum(Tally(ScenarioEntries(reaches, historic), 5)) as real + 5.0
  {
    var es := ScenarioEntries(reaches, historic);
    var rows := Tally(es, 5);
    ComplexTotalMatchesSheet(reaches, historic);
    assert NonNegativeWeights(es);
    forall k | 0 <= k < 5 ensures rows[k] >= 0.0 {
      BucketBounds(es, k);
    }
    TruncationLoss(rows);
  }

  /** With lengths and densities that are not negative, a vegetation capacity total is not negative. */
  lemma VegetationNonNegative(reaches: seq<Reach>, a: Attribute)
    requires NonNegativeLengths(reaches)
    requires forall i :: 0 <= i < |reaches| ==> Read(reaches[i], a) >= 0.0
    ensures Total(VegetationEntries(reaches, a)) >= 0.0
  {
    var es := VegetationEntries(reaches, a);
    forall i | 0 <= i < |es| ensures es[i].weight >= 0.0 {
      Product(reaches[i].length / 1000.0, Read(reaches[i], a));
    }
    TotalNonNegative(es);
  }

  lemma Product(x: real, y: real)
    requires x >= 0.0 && y >= 0.0
    ensures x * y >= 0.0
  {
  }

  // ---------------------------------------------------------------- percent correct

  /** The percent-correct pass: row 0 counts right estimates, row 1 wrong ones. */
  function VerdictEntries(reaches: seq<Reach>): seq<Entry>
  {
    seq(|reaches|, i requires 0 <= i < |reaches| => Entry(EstimateVerdict(reaches[i].validation), 1.0))
  }

  /** `float(estimateRight) / (float(estimateWrong) + float(estimateRight))`, or "N/A". */
  function PercentCorrectCell(reaches: seq<Reach>, fields: seq<string>): Outcome<Cell>
  {
    if Name(Validation) !in fields then Ok(NA)
    else
      var right := BucketSum(VerdictEntries(reaches), 0);
      var wrong := BucketSum(VerdictEntries(reaches), 1);
      if wrong + right == 0.0 then DivisionByZero else Ok(Value(right / (wrong + right)))
  }

  /** Every reach is judged either right or wrong, and the wrong ones are the validation's "More dams" row. */
  lemma VerdictCounts(reaches: seq<Reach>)
    ensures BucketSum(VerdictEntries(reaches), 0) + BucketSum(VerdictEntries(reaches), 1) == |reaches| as real
    ensures BucketSum(VerdictEntries(reaches), 0) >= 0.0 && BucketSum(VerdictEntries(reaches), 1) >= 0.0
    ensures BucketSum(VerdictEntries(reaches), 1) == BucketSum(SurveyCountEntries(reaches), MoreDams.Row())
  {
    var es := VerdictEntries(reaches);
    NothingUnassigned(es, 2);
    Partition(es, 2);
    CountTotal(es);
    SumOfTwo(Tally(es, 2));
    assert NonNegativeWeights(es);
    BucketBounds(es, 0);
    BucketBounds(es, 1);
    Transfer(es, 1, SurveyCountEntries(reaches), MoreDams.Row());
  }

  lemma SumOfTwo(s: seq<real>)
    requires |s| == 2
    ensures Sum(s) == s[0] + s[1]
  {
    var first := s[..1];
    assert first[..|first| - 1] == [];
    assert Sum(first) == s[0];
    assert s[..|s| - 1] == first;
  }

  /** A cell holding a part divided by its whole. */
  lemma Quotient(c: Outcome<Cell>, part: real, whole: real)
    requires whole != 0.0 && c == Ok(Value(part / whole))
    ensures c.value.v * whole == part
    ensures 0.0 <= part <= whole ==> 0.0 <= c.value.v <= 1.0
  {
  }

  /**
   * The percent of reaches estimated correctly is "N/A" without BRATvSurv and a
   * division by zero on an empty network; otherwise it lies between 0 and 1 and
   * is the share of reaches outside the validation worksheet's "More dams than
   * predicted existing capacity" row.
   */
  lemma PercentCorrectMeaning(reaches: seq<Reach>, fields: seq<string>)
    ensures PercentCorrectCell(reaches, fields) == Ok(NA) <==> Name(Validation) !in fields
    ensures PercentCorrectCell(reaches, fields).DivisionByZero? <==> Name(Validation) in fields && |reaches| == 0
    ensures PercentCorrectCell(reaches, fields).Ok? && PercentCorrectCell(reaches, fields).value.Value? ==>
      var p := PercentCorrectCell(reaches, fields).value.v;
      && 0.0 <= p <= 1.0
      && p * |reaches| as real == |reaches| as real - BucketSum(SurveyCountEntries(reaches), MoreDams.Row())
  {
    VerdictCounts(reaches);
    var right := BucketSum(VerdictEntries(reaches), 0);
    var wrong := BucketSum(VerdictEntries(reaches), 1);
    if Name(Validation) in fields && wrong + right != 0.0 {
      Quotient(PercentCorrectCell(reaches, fields), right, wrong + right);
    }
  }

  // ---------------------------------------------------------------- single-category shares

  /** The three single-category shares of the network the worksheet reports. */
  datatype Share = Easiest | Possible | Negligible
  {
    function Sheet(): LabelSheet
    {
      match this
      case Easiest => RestorationSheet
      case Possible => UnsuitableSheet
      case Negligible => RiskSheet
    }

    function Label(): string
    {
      match this
      case Easiest => "Easiest - Low-Hanging Fruit"
      case Possible => "Dam Building Possible"
      case Negligible => "Negligible Risk"
    }

    /** The row of the label in its own worksheet. */
    function Row(): nat
    {
      match this
      case Easiest => 0
      case Possible => 5
      case Negligible => 3
    }
  }

  /** A share's pass: the length of the reaches with exactly that label, in row 0. */
  function ShareEntries(reaches: seq<Reach>, share: Share): seq<Entry>
  {
    seq(|reaches|, i requires 0 <= i < |reaches| =>
      Entry(if share.Sheet().Category(reaches[i]) == share.Label() then Row(0) else Dropped, reaches[i].length))
  }

  /** `length / (totalStreamLengthKm * 1000)`, or "N/A" when the category attribute is missing. */
  function ShareCell(reaches: seq<Reach>, fields: seq<string>, share: Share): Outcome<Cell>
  {
    if share.Sheet().Field() !in fields then Ok(NA)
    else
      var divisor := TotalLength(reaches) / 1000.0 * 1000.0;
      if divisor == 0.0 then DivisionByZero
      else Ok(Value(BucketSum(ShareEntries(reaches, share), 0) / divisor))
  }

  /** A category is the share's label exactly when its worksheet puts it in the label's row. */
  lemma ClassifyPicksLabel(share: Share, category: string)
    ensures share.Sheet().Classify(category) == Row(share.Row()) <==> category == share.Label()
  {
    match share
    case Easiest =>
    case Possible =>
      assert UnsuitableLabels[5] == share.Label();
      assert UnsuitableLabels[..5] == ["Anthropogenically Limited", "Naturally Vegetation Limited",
        "Slope Limited", "Stream Power Limited", "Potential Reservoir or Landuse Change"];
    case Negligible =>
  }

  /** The numerator of a share is the length, in metres, its own worksheet totals in the label's row. */
  lemma ShareMatchesSheetRow(reaches: seq<Reach>, share: Share)
    ensures BucketSum(ShareEntries(reaches, share), 0) ==
      BucketSum(LabelEntries(reaches, share.Sheet()), share.Row())
  {
    var es := ShareEntries(reaches, share);
    var ls := LabelEntries(reaches, share.Sheet());
    forall i | 0 <= i < |es| ensures es[i].slot == Row(0) <==> ls[i].slot == Row(share.Row()) {
      ClassifyPicksLabel(share, share.Sheet().Category(reaches[i]));
    }
    Transfer(es, 0, ls, share.Row());
  }

  /**
   * A share is "N/A" without its attribute and a division by zero on a network
   * of zero length; otherwise it divides the label's worksheet row by the whole
   * network length, not by the worksheet's own total, and with lengths that are
   * not negative it lies between 0 and 1.
   */
  lemma ShareMeaning(reaches: seq<Reach>, fields: seq<string>, share: Share)
    ensures ShareCell(reaches, fields, share) == Ok(NA) <==> share.Sheet().Field() !in fields
    ensures ShareCell(reaches, fields, share).DivisionByZero? <==>
      share.Sheet().Field() in fields && TotalLength(reaches) == 0.0
    ensures ShareCell(reaches, fields, share).Ok? && ShareCell(reaches, fields, share).value.Value? ==>
      ShareCell(reaches, fields, share).value.v ==
        BucketSum(LabelEntries(reaches, share.Sheet()), share.Row()) / TotalLength(reaches)
    ensures NonNegativeLengths(reaches) ==>
      (ShareCell(reaches, fields, share).Ok? && ShareCell(reaches, fields, share).value.Value? ==>
       0.0 <= ShareCell(reaches, fields, share).value.v <= 1.0)
  {
    var es := ShareEntries(reaches, share);
    var total := TotalLength(reaches);
    var part := BucketSum(es, 0);
    ShareMatchesSheetRow(reaches, share);
    if share.Sheet().Field() in fields && total != 0.0 {
      ShareValue(reaches, fields, share);
      Quotient(ShareCell(reaches, fields, share), part, total);
      if NonNegativeLengths(reaches) {
        SameWeights(es, LengthOnly(reaches));
        assert NonNegativeWeights(es);
        BucketBounds(es, 0);
      }
    } else {
      ShareValue(reaches, fields, share);
    }
  }

  /** The divisor `totalStreamLengthKm * 1000` is the network length in metres. */
  lemma ShareValue(reaches: seq<Reach>, fields: seq<string>, share: Share)
    ensures share.Sheet().Field() !in fields ==> ShareCell(reaches, fields, share) == Ok(NA)
    ensures share.Sheet().Field() in fields && TotalLength(reaches) == 0.0 ==>
      ShareCell(reaches, fields, share) == DivisionByZero
    ensures share.Sheet().Field() in fields && TotalLength(reaches) != 0.0 ==>
      ShareCell(reaches, fields, share) == Ok(Value(BucketSum(ShareEntries(reaches, share), 0) / TotalLength(reaches)))
  {
    assert TotalLength(reaches) / 1000.0 * 1000.0 == TotalLength(reaches);
  }

  // ---------------------------------------------------------------- warnings

  /** The attributes the summary checks, in the order it checks them. */
  const SummaryFields: seq<string> :=
    ["mCC_EX_CT", "mCC_HPE_CT", "oVC_EX", "oVC_Hpe", "BRATvSurv", "oPBRC_CR", "oPBRC_UD", "oPBRC_UI"]

  function SummaryWarning(field: string): string
  {
    "Could not complete summary worksheet: " + field + " not in fields."
  }

  /** The warnings for the checked attributes that are missing, in order. */
  function MissingWarnings(checked: seq<string>, fields: seq<string>): (w: seq<string>)
    ensures |w| <= |checked|
    ensures forall f :: f in checked && f !in fields ==> SummaryWarning(f) in w
    ensures forall m :: m in w ==> exists f :: f in checked && f !in fields && m == SummaryWarning(f)
  {
    if checked == [] then []
    else (if checked[0] in fields then [] else [SummaryWarning(checked[0])]) + MissingWarnings(checked[1..], fields)
  }

  /** Different attributes give different warnings. */
  lemma SummaryWarningInjective(f: string, g: string)
    ensures SummaryWarning(f) == SummaryWarning(g) ==> f == g
  {
    var prefix := "Could not complete summary worksheet: ";
    if SummaryWarning(f) == SummaryWarning(g) {
      var w := SummaryWarning(f);
      assert |f| == |g|;
      assert f == w[|prefix|..|prefix| + |f|];
      assert g == SummaryWarning(g)[|prefix|..|prefix| + |g|];
    }
  }

  /** The summary warns about a checked attribute exactly when that attribute is missing. */
  lemma WarningsNameMissingFields(fields: seq<string>, f: string)
    requires f in SummaryFields
    ensures SummaryWarning(f) in MissingWarnings(SummaryFields, fields) <==> f !in fields
  {
    if SummaryWarning(f) in MissingWarnings(SummaryFields, fields) {
      var g :| g in SummaryFields && g !in fields && SummaryWarning(f) == SummaryWarning(g);
      SummaryWarningInjective(f, g);
    }
  }

  /** Checking two lists one after the other warns for the first, then for the second. */
  lemma {:induction false} MissingWarningsAppend(a: seq<string>, b: seq<string>, fields: seq<string>)
    ensures MissingWarnings(a + b, fields) == MissingWarnings(a, fields) + MissingWarnings(b, fields)
  {
    if a == [] {
      assert a + b == b;
    } else {
      assert (a + b)[1..] == a[1..] + b;
      MissingWarningsAppend(a[1..], b, fields);
    }
  }

  /** Two missing attributes are warned about in the order they are checked. */
  lemma WarningsInCheckOrder(checked: seq<string>, fields: seq<string>, i: nat, j: nat)
    requires i < j < |checked|
    requires checked[i] !in fields && checked[j] !in fields
    ensures exists p, q ::
      && 0 <= p < q < |MissingWarnings(checked, fields)|
      && MissingWarnings(checked, fields)[p] == SummaryWarning(checked[i])
      && MissingWarnings(checked, fields)[q] == SummaryWarning(checked[j])
  {
    var before, after := checked[..j], checked[j..];
    assert checked == before + after;
    MissingWarningsAppend(before, after, fields);
    var w1, w2 := MissingWarnings(before, fields), MissingWarnings(after, fields);
    assert before[i] == checked[i];
    var p :| 0 <= p < |w1| && w1[p] == SummaryWarning(checked[i]);
    assert w2[0] == SummaryWarning(checked[j]);
    assert (w1 + w2)[p] == w1[p] && (w1 + w2)[|w1|] == w2[0];
  }

  /** An attribute checked once is warned about once if it is missing, and never otherwise. */
  lemma {:induction false} WarnedOnce(checked: seq<string>, fields: seq<string>, f: string)
    requires forall i, j :: 0 <= i < j < |checked| ==> checked[i] != checked[j]
    requires f in checked
    ensures multiset(MissingWarnings(checked, fields))[SummaryWarning(f)] == if f in fields then 0 else 1
  {
    var head := if checked[0] in fields then [] else [SummaryWarning(checked[0])];
    var rest := MissingWarnings(checked[1..], fields);
    assert MissingWarnings(checked, fields) == head + rest;
    SummaryWarningInjective(f, checked[0]);
    if checked[0] == f {
      assert f !in checked[1..];
      if SummaryWarning(f) in rest {
        var g :| g in checked[1..] && g !in fields && SummaryWarning(f) == SummaryWarning(g);
        SummaryWarningInjective(f, g);
      }
    } else {
      WarnedOnce(checked[1..], fields, f);
    }
  }

  /** Each summary attribute that is missing gets exactly one warning. */
  lemma SummaryWarnedOnce(fields: seq<string>, f: string)
    requires f in SummaryFields
    ensures multiset(MissingWarnings(SummaryFields, fields))[SummaryWarning(f)] == if f in fields then 0 else 1
  {
    SummaryFieldsDistinct();
    WarnedOnce(SummaryFields, fields, f);
  }

  lemma SummaryFieldsDistinct()
    ensures forall i, j :: 0 <= i < j < |SummaryFields| ==> SummaryFields[i] != SummaryFields[j]
  {
    // The eight names differ in length or in their last letter.
    var fs := SummaryFields;
    var tags := seq(8, i requires 0 <= i < 8 => |fs[i]| * 128 + fs[i][|fs[i]| - 1] as int);
    assert tags == [9 * 128 + 'T' as int, 10 * 128 + 'T' as int, 6 * 128 + 'X' as int, 7 * 128 + 'e' as int,
      9 * 128 + 'v' as int, 8 * 128 + 'R' as int, 8 * 128 + 'D' as int, 8 * 128 + 'I' as int];
    forall i, j | 0 <= i < j < 8 ensures fs[i] != fs[j] {
      assert tags[i] != tags[j];
    }
  }

  // ---------------------------------------------------------------- the worksheet

  /** Every value of the summary worksheet, or the division by zero that aborts it. */
  function SummaryOf(reaches: seq<Reach>, fields: seq<string>): Outcome<WatershedTotals>
  {
    var totalKm := TotalLength(reaches) / 1000.0;
    var correct := PercentCorrectCell(reaches, fields);
    var easiest := ShareCell(reaches, fields, Easiest);
    var possible := ShareCell(reaches, fields, Possible);
    var negligible := ShareCell(reaches, fields, Negligible);
    if correct.DivisionByZero? || easiest.DivisionByZero? || possible.DivisionByZero? || negligible.DivisionByZero?
    then DivisionByZero
    else Ok(WatershedTotals(
      totalKm, TotalMilesAsWritten(totalKm),
      ComplexCell(reaches, fields, ExistingDamCount), ComplexCell(reaches, fields, HistoricDamCount),
      VegetationCell(reaches, fields, ExistingVegetation), VegetationCell(reaches, fields, HistoricVegetation),
      correct.value, easiest.value, possible.value, negligible.value,
      MissingWarnings(SummaryFields, fields)))
  }

  /** The summary aborts exactly when a percentage it must compute has nothing to divide by. */
  lemma SummaryAborts(reaches: seq<Reach>, fields: seq<string>)
    ensures SummaryOf(reaches, fields).DivisionByZero? <==>
      (Name(Validation) in fields && |reaches| == 0) ||
      (TotalLength(reaches) == 0.0 && ("oPBRC_CR" in fields || "oPBRC_UD" in fields || "oPBRC_UI" in fields))
  {
    PercentCorrectMeaning(reaches, fields);
    ShareMeaning(reaches, fields, Easiest);
    ShareMeaning(reaches, fields, Possible);
    ShareMeaning(reaches, fields, Negligible);
  }

  /** The summary as it evidently was meant to be: the same values, with the miles converted by 0.62137. */
  function CorrectedSummaryOf(reaches: seq<Reach>, fields: seq<string>): Outcome<WatershedTotals>
  {
    match SummaryOf(reaches, fields)
    case Ok(t) => Ok(t.(totalMi := TotalMiles(t.totalKm)))
    case DivisionByZero => DivisionByZero
  }

  /** A network of non-zero length always gets its summary. */
  lemma SummaryCompletes(reaches: seq<Reach>, fields: seq<string>)
    requires TotalLength(reaches) != 0.0
    ensures SummaryOf(reaches, fields).Ok?
  {
    SummaryAborts(reaches, fields);
  }

  /**
   * The summary's "Total Stream Length (mi)" as written disagrees with every
   * length worksheet's mile total on a network of positive length: it is more
   * than 2.5 times that total.
   */
  lemma MilesAsWrittenDisagrees(reaches: seq<Reach>, fields: seq<string>, sheet: LengthSheet)
    requires TotalLength(reaches) > 0.0
    ensures SummaryOf(reaches, fields).Ok?
    ensures WriteData(Tally(SheetEntries(reaches, sheet), 5), TotalLength(reaches) / 1000.0).Ok?
    ensures SummaryOf(reaches, fields).value.totalMi >
      2.5 * Sum(Miles(WriteData(Tally(SheetEntries(reaches, sheet), 5), TotalLength(reaches) / 1000.0).value))
  {
    SummaryCompletes(reaches, fields);
    SheetMilesTotal(reaches, sheet);
    AsWrittenOverstates(TotalLength(reaches) / 1000.0);
  }

  /**
   * With the corrected factor the summary's miles are the sum of the mile
   * column of any length worksheet of the same network.
   */
  lemma SummaryMilesMatchSheet(reaches: seq<Reach>, fields: seq<string>, sheet: LengthSheet)
    requires TotalLength(reaches) != 0.0
    ensures CorrectedSummaryOf(reaches, fields).Ok?
    ensures WriteData(Tally(SheetEntries(reaches, sheet), 5), TotalLength(reaches) / 1000.0).Ok?
    ensures CorrectedSummaryOf(reaches, fields).value.totalMi ==
      Sum(Miles(WriteData(Tally(SheetEntries(reaches, sheet), 5), TotalLength(reaches) / 1000.0).value))
  {
    SummaryCompletes(reaches, fields);
    SheetMilesTotal(reaches, sheet);
  }

  /** The summary's total of one attribute, "N/A" when it is missing. */
  method AttributeTotal(reaches: seq<Reach>, fields: seq<string>, a: Attribute, vegetation: bool)
    returns (c: Cell)
    ensures c == if vegetation then VegetationCell(reaches, fields, a) else ComplexCell(reaches, fields, a)
  {
    if Name(a) !in fields {
      return NA;
    }
    var es := if vegetation then VegetationEntries(reaches, a) else AttributeEntries(reaches, a);
    var rows, total := Accumulate(es, 0);
    c := Value(total);
  }

  /** The percent-correct loop, "N/A" when BRATvSurv is missing. */
  method PercentCorrect(reaches: seq<Reach>, fields: seq<string>) returns (c: Outcome<Cell>)
    ensures c == PercentCorrectCell(reaches, fields)
  {
    if Name(Validation) !in fields {
      return Ok(NA);
    }
    var counts, total := Accumulate(VerdictEntries(reaches), 2);
    var right := counts[0];
    var wrong := counts[1];
    if wrong + right == 0.0 {
      return DivisionByZero;
    }
    c := Ok(Value(right / (wrong + right)));
  }

  /** A single-category share loop, "N/A" when the category attribute is missing. */
  method NetworkShare(reaches: seq<Reach>, fields: seq<string>, share: Share, totalKm: real)
    returns (c: Outcome<Cell>)
    requires totalKm == TotalLength(reaches) / 1000.0
    ensures c == ShareCell(reaches, fields, share)
  {
    if share.Sheet().Field() !in fields {
      return Ok(NA);
    }
    var rows, total := Accumulate(ShareEntries(reaches, share), 1);
    if totalKm * 1000.0 == 0.0 {
      return DivisionByZero;
    }
    c := Ok(Value(rows[0] / (totalKm * 1000.0)));
  }

  /**
   * `write_summary_worksheet`: the network length first, then each block in the
   * order of the worksheet, warning about each missing attribute; a percentage
   * with nothing to divide by aborts the worksheet.
   */
  method WatershedSummary(reaches: seq<Reach>, fields: seq<string>) returns (r: Outcome<WatershedTotals>)
    ensures r == SummaryOf(reaches, fields)
  {
    var lengths, total := Accumulate(LengthOnly(reaches), 0);
    var totalKm := total / 1000.0;
    var totalMi := TotalMilesAsWritten(totalKm);
    var existingComplex := AttributeTotal(reaches, fields, ExistingDamCount, false);
    var historicComplex := AttributeTotal(reaches, fields, HistoricDamCount, false);
    var existingVegetation := AttributeTotal(reaches, fields, ExistingVegetation, true);
    var historicVegetation := AttributeTotal(reaches, fields, HistoricVegetation, true);
    var correct := PercentCorrect(reaches, fields);
    if correct.DivisionByZero? {
      return DivisionByZero;
    }
    var easiest := NetworkShare(reaches, fields, Easiest, totalKm);
    if easiest.DivisionByZero? {
      return DivisionByZero;
    }
    var possible := NetworkShare(reaches, fields, Possible, totalKm);
    if possible.DivisionByZero? {
      return DivisionByZero;
    }
    var negligible := NetworkShare(reaches, fields, Negligible, totalKm);
    if negligible.DivisionByZero? {
      return DivisionByZero;
    }
    r := Ok(WatershedTotals(totalKm, totalMi, existingComplex, historicComplex, existingVegetation,
      historicVegetation, correct.value, easiest.value, possible.value, negligible.value,
      MissingWarnings(SummaryFields, fields)));
  }
}
