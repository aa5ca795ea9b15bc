/**
 * The category worksheets: the four label worksheets (conservation/restoration,
 * unsuitable or limited, risk of undesirable dams, management strategies) and
 * the predicted-versus-surveyed worksheet. Each is one pass over the network
 * that adds a reach's length, and for the validation worksheet also a count of
 * one, to the row its category selects.
 */
module CategorySheets {
  import opened Buckets
  import opened Reaches
  import opened Schemes
  import opened CapacitySheets

  /** The four worksheets whose rows are selected by a text attribute. */
  datatype LabelSheet = RestorationSheet | UnsuitableSheet | RiskSheet | StrategySheet
  {
    /** The attribute the worksheet's cursor reads next to the length. */
    function Field(): string
    {
      match this
      case RestorationSheet => "oPBRC_CR"
      case UnsuitableSheet => "oPBRC_UD"
      case RiskSheet => "oPBRC_UI"
      case StrategySheet => "ConsVRest"
    }

    function Category(r: Reach): string
    {
      match this
      case RestorationSheet => r.restoration
      case UnsuitableSheet => r.limitation
      case RiskSheet => r.risk
      case StrategySheet => r.strategy
    }

    /** The strings the worksheet's chain tests, in order. */
    function Labels(): seq<string>
    {
      match this
      case RestorationSheet => RestorationLabels
      case UnsuitableSheet => UnsuitableLabels
      case RiskSheet => RiskLabels
      case StrategySheet => StrategyLabels
    }

    /** The number of rows the worksheet fills, before its "Total" row. */
    function Rows(): nat
    {
      match this
      case RestorationSheet => 4
      case UnsuitableSheet => 7
      case RiskSheet => 4
      case StrategySheet => 5
    }

    function Classify(category: string): Slot
    {
      match this
      case RestorationSheet => RestorationRow(category)
      case UnsuitableSheet => UnsuitableRow(category)
      case RiskSheet => RiskRow(category)
      case StrategySheet => StrategyRow(category)
    }

    /**
     * Whether a reach of this category is added to some row: always for the
     * restoration worksheet, whose last branch is "Other"; for the others only
     * when the category is one of the tested strings.
     */
    predicate Counts(category: string)
    {
      this == RestorationSheet || category in Labels()
    }
  }

  /** A category lands in one of the worksheet's rows exactly when the worksheet counts it. */
  lemma ClassifyLandsInRows(sheet: LabelSheet, category: string)
    ensures sheet.Classify(category).Row? ==> sheet.Classify(category).index < sheet.Rows()
    ensures sheet.Classify(category).Row? <==> sheet.Counts(category)
  {
    match sheet
    case RestorationSheet =>
    case UnsuitableSheet =>
      assert |UnsuitableLabels| == 7;
    case RiskSheet =>
      assert |RiskLabels| == 4;
    case StrategySheet =>
      assert |StrategyLabels| == 5;
  }

  /** The pass of a label worksheet: every reach weighed by its length. */
  function LabelEntries(reaches: seq<Reach>, sheet: LabelSheet): seq<Entry>
  {
    seq(|reaches|, i requires 0 <= i < |reaches| =>
      Entry(sheet.Classify(sheet.Category(reaches[i])), reaches[i].length))
  }

  /**
   * `write_conservation_restoration`, `write_unsuitable_worksheet`,
   * `write_risk_worksheet` and `write_strategies_worksheet`: the kilometres
   * written in each row and the running `total` in metres. What the rows leave
   * out is exactly the length of the reaches no branch matched; the restoration
   * worksheet leaves out nothing.
   */
  method WriteLabelSheet(reaches: seq<Reach>, sheet: LabelSheet) returns (km: seq<real>, total: real)
    ensures |km| == sheet.Rows()
    ensures forall k :: 0 <= k < |km| ==> km[k] * 1000.0 == BucketSum(LabelEntries(reaches, sheet), k)
    ensures total == TotalLength(reaches)
    ensures Sum(km) * 1000.0 + Unassigned(LabelEntries(reaches, sheet), sheet.Rows()) == total
    ensures sheet == RestorationSheet ==> Sum(km) * 1000.0 == total
  {
    var es := LabelEntries(reaches, sheet);
    SameWeights(es, LengthOnly(reaches));
    var rows;
    rows, total := Accumulate(es, sheet.Rows());
    km := Kilometres(rows);
    if sheet == RestorationSheet {
      RestorationCoversAll(reaches);
    }
  }

  /** The "Other" branch catches every reach the three restoration labels miss. */
  lemma RestorationCoversAll(reaches: seq<Reach>)
    ensures Unassigned(LabelEntries(reaches, RestorationSheet), 4) == 0.0
  {
    var es := LabelEntries(reaches, RestorationSheet);
    forall i | 0 <= i < |es| ensures Assigned(es[i], 4) {
      ClassifyLandsInRows(RestorationSheet, reaches[i].restoration);
    }
    NothingUnassigned(es, 4);
  }

  /**
   * With lengths that are not negative, the rows of a label worksheet never add
   * up to more than the network; with positive lengths they add up to the whole
   * network exactly when every reach's category is one the worksheet counts.
   */
  lemma {:induction false} LabelRowsWithinNetwork(reaches: seq<Reach>, sheet: LabelSheet)
    requires NonNegativeLengths(reaches)
    ensures Sum(Tally(LabelEntries(reaches, sheet), sheet.Rows())) <= TotalLength(reaches)
    ensures PositiveLengths(reaches) ==>
      (Sum(Tally(LabelEntries(reaches, sheet), sheet.Rows())) == TotalLength(reaches) <==>
       forall i :: 0 <= i < |reaches| ==> sheet.Counts(sheet.Category(reaches[i])))
  {
    var es := LabelEntries(reaches, sheet);
    var n := sheet.Rows();
    SameWeights(es, LengthOnly(reaches));
    Partition(es, n);
    assert NonNegativeWeights(es) by {
      forall i | 0 <= i < |es| ensures es[i].weight >= 0.0 {
        assert es[i].weight == reaches[i].length;
      }
    }
    UnassignedBounds(es, n);
    if forall i :: 0 <= i < |reaches| ==> sheet.Counts(sheet.Category(reaches[i])) {
      forall i | 0 <= i < |es| ensures Assigned(es[i], n) {
        ClassifyLandsInRows(sheet, sheet.Category(reaches[i]));
      }
      NothingUnassigned(es, n);
    }
    if PositiveLengths(reaches) && Unassigned(es, n) == 0.0 {
      forall i | 0 <= i < |reaches| ensures sheet.Counts(sheet.Category(reaches[i])) {
        assert es[i].weight > 0.0;
        ClassifyLandsInRows(sheet, sheet.Category(reaches[i]));
      }
    }
  }

  /** The validation pass counted: every reach weighs one. */
  function SurveyCountEntries(reaches: seq<Reach>): seq<Entry>
  {
    seq(|reaches|, i requires 0 <= i < |reaches| =>
      Entry(Row(ClassifySurvey(reaches[i].validation).Row()), 1.0))
  }

  /** The validation pass measured: every reach weighs its length. */
  function SurveyLengthEntries(reaches: seq<Reach>): seq<Entry>
  {
    seq(|reaches|, i requires 0 <= i < |reaches| =>
      Entry(Row(ClassifySurvey(reaches[i].validation).Row()), reaches[i].length))
  }

  /**
   * `write_validation_worksheet`: the number of reaches and the kilometres in
   * each of the rows "Fewer dams than predicted", "More dams than predicted" and
   * "No surveyed dams". Every reach is in exactly one row, so the counts add up
   * to the number of reaches and the kilometres to the network length.
   */
  method WriteValidationSheet(reaches: seq<Reach>)
    returns (counts: seq<real>, km: seq<real>, total: real, totalKm: real)
    ensures |counts| == 3 && |km| == 3
    ensures counts == Tally(SurveyCountEntries(reaches), 3)
    ensures forall k :: 0 <= k < 3 ==> km[k] * 1000.0 == BucketSum(SurveyLengthEntries(reaches), k)
    ensures total == |reaches| as real
    ensures totalKm * 1000.0 == TotalLength(reaches)
    ensures Sum(counts) == total
    ensures Sum(km) == totalKm
  {
    var countEntries := SurveyCountEntries(reaches);
    var lengthEntries := SurveyLengthEntries(reaches);
    SurveyRowsCoverAll(reaches);
    CountTotal(countEntries);
    SameWeights(lengthEntries, LengthOnly(reaches));
    counts, total := Accumulate(countEntries, 3);
    var metres;
    metres, totalKm := Accumulate(lengthEntries, 3);
    km := Kilometres(metres);
    totalKm := totalKm / 1000.0;
  }

  /** Every reach lands in one of the validation worksheet's three rows. */
  lemma SurveyRowsCoverAll(reaches: seq<Reach>)
    ensures Unassigned(SurveyCountEntries(reaches), 3) == 0.0
    ensures Unassigned(SurveyLengthEntries(reaches), 3) == 0.0
  {
    NothingUnassigned(SurveyCountEntries(reaches), 3);
    NothingUnassigned(SurveyLengthEntries(reaches), 3);
  }
}
