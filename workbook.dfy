/**
 * The decisions around the workbook: the output file name, the splitting of a
 * multi-value network parameter, the width of a worksheet's first column, and
 * which worksheets are built for the attributes a network has.
 */
module Workbook {
  import opened Text
  import opened Options

  // ---------------------------------------------------------------- file name

  const DefaultName: string := "BRAT_Summary_Tables"
  const WorkbookExtension: string := ".xlsx"

  /** `main`: no name gives the default one, and a name without ".xlsx" gets it appended. */
  function NormalizeName(name: Option<string>): (r: string)
    ensures EndsWith(r, WorkbookExtension)
    ensures name.Some? ==> StartsWith(r, name.value)
    ensures name.Some? && EndsWith(name.value, WorkbookExtension) ==> r == name.value
    ensures name.Some? && !EndsWith(name.value, WorkbookExtension) ==> r == name.value + WorkbookExtension
    ensures name.None? ==> r == DefaultName + WorkbookExtension
  {
    var base := if name.Some? then name.value else DefaultName;
    if EndsWith(base, WorkbookExtension) then base
    else
      var r := base + WorkbookExtension;
      assert r[|r| - |WorkbookExtension|..] == WorkbookExtension;
      assert r[..|base|] == base;
      r
  }

  /** Normalizing a name that is already normalized changes nothing. */
  lemma NormalizeIdempotent(name: Option<string>)
    ensures NormalizeName(Some(NormalizeName(name))) == NormalizeName(name)
  {
  }

  // ---------------------------------------------------------------- multi-value input

  /**
   * `split_multi_inputs`: remove every single quote, then split on ";". Neither
   * step can fail on a string, so the `except` branch is never taken.
   */
  function SplitMultiInputs(parameter: string): (tables: seq<string>)
    ensures |tables| == Count(Remove(parameter, '\''), ';') + 1
    ensures forall k :: 0 <= k < |tables| ==> ';' !in tables[k] && '\'' !in tables[k]
    ensures Join(tables, ';') == Remove(parameter, '\'')
  {
    var unquoted := Remove(parameter, '\'');
    var tables := Split(unquoted, ';');
    JoinSplit(unquoted, ';');
    SplitCount(unquoted, ';');
    assert forall k :: 0 <= k < |tables| ==> '\'' !in tables[k] by {
      forall k | 0 <= k < |tables| ensures '\'' !in tables[k] {
        JoinedPieceChars(tables, ';', k);
      }
    }
    tables
  }

  /** Every character of a piece is a character of the joined string. */
  lemma {:induction false} JoinedPieceChars(pieces: seq<string>, sep: char, k: nat)
    requires |pieces| >= 1 && k < |pieces|
    ensures forall x :: x in pieces[k] ==> x in Join(pieces, sep)
  {
    if |pieces| > 1 {
      var rest := Join(pieces[1..], sep);
      assert Join(pieces, sep) == pieces[0] + [sep] + rest;
      if k > 0 {
        JoinedPieceChars(pieces[1..], sep, k - 1);
        assert pieces[1..][k - 1] == pieces[k];
      }
    }
  }

  /**
   * `main` merges the networks exactly when the parameter names more than one
   * table: a ";" survives the removal of quotes, so it splits the parameter.
   */
  lemma MergeWhenSeveralTables(parameter: string)
    ensures Count(parameter, ';') > 0 <==> |SplitMultiInputs(parameter)| > 1
  {
    CountRemoveOther(parameter, '\'', ';');
  }

  // ---------------------------------------------------------------- column width

  /** `column_calc`: the wider of `minimum` and the watershed name plus ten. */
  function ColumnWidth(minimum: int, watershed: string): (w: int)
    ensures w >= minimum && w >= |watershed| + 10
    ensures w == minimum || w == |watershed| + 10
  {
    if minimum > |watershed| + 10 then minimum else |watershed| + 10
  }

  // ---------------------------------------------------------------- worksheets

  /** The worksheets `write_capacity_sheets` can add, in the order it considers them. */
  datatype Sheet =
    | WatershedSummary
    | ExistingBuildCapacity | ExistingComplexSize | HistoricBuildCapacity | HistoricComplexSize
    | ExistingVsHistoric | ConservationRestoration | UnsuitableOrLimited | UndesirableDams
    | ManagementStrategies | PredictedVsSurveyed | ElectivityIndex
  {
    function Title(): string
    {
      match this
      case WatershedSummary => "Watershed Summary"
      case ExistingBuildCapacity => "Existing Dam Building Capacity"
      case ExistingComplexSize => "Existing Dam Complex Size"
      case HistoricBuildCapacity => "Historic Dam Building Capacity"
      case HistoricComplexSize => "Historic Dam Complex Size"
      case ExistingVsHistoric => "Existing vs. Historic Capacity"
      case ConservationRestoration => "Conservation Restoration"
      case UnsuitableOrLimited => "Unsuitable or Limited"
      case UndesirableDams => "Undesirable Dams"
      case ManagementStrategies => "Management Strategies"
      case PredictedVsSurveyed => "Predicted vs. Surveyed"
      case ElectivityIndex => "Electivity Index"
    }

    /** The attributes `write_capacity_sheets` tests before it adds the worksheet. */
    function Required(): seq<string>
    {
      match this
      case WatershedSummary => []
      case ExistingBuildCapacity => ["oCC_EX"]
      case ExistingComplexSize => ["mCC_EX_CT"]
      case HistoricBuildCapacity => ["oCC_HPE"]
      case HistoricComplexSize => ["mCC_HPE_CT"]
      case ExistingVsHistoric => ["mCC_HPE_CT", "mCC_EX_CT"]
      case ConservationRestoration => ["oPBRC_CR"]
      case UnsuitableOrLimited => ["oPBRC_UD"]
      case UndesirableDams => ["oPBRC_UI"]
      case ManagementStrategies => ["ConsVRest"]
      case PredictedVsSurveyed => ["BRATvSurv"]
      case ElectivityIndex => ["e_DamCt"]
    }

    /**
     * The attributes the worksheet's writer reads with its search cursors,
     * besides the reach length. The summary tests each of its own.
     */
    function Reads(): seq<string>
    {
      match this
      case WatershedSummary => []
      case ExistingBuildCapacity => ["oCC_EX"]
      case ExistingComplexSize => ["mCC_EX_CT"]
      case HistoricBuildCapacity => ["oCC_HPE"]
      case HistoricComplexSize => ["mCC_HPE_CT"]
      case ExistingVsHistoric => ["oCC_EX", "mCC_EX_CT", "oCC_HPE", "mCC_HPE_CT"]
      case ConservationRestoration => ["oPBRC_CR"]
      case UnsuitableOrLimited => ["oPBRC_UD"]
      case UndesirableDams => ["oPBRC_UI"]
      case ManagementStrategies => ["ConsVRest"]
      case PredictedVsSurveyed => ["BRATvSurv"]
      case ElectivityIndex => ["oCC_EX", "e_DamCt", "mCC_EX_CT"]
    }

    /** The warning raised instead of adding the worksheet, with its spelling kept. */
    function Warning(): string
    {
      match this
      case WatershedSummary => ""
      case ExistingBuildCapacity =>
        "Existing dam building capacity worksheet could not be built because oCC_EX not in fields"
      case ExistingComplexSize =>
        "Existing dam complex size worksheet could not be built because mCC_EX_CT not in fields"
      case HistoricBuildCapacity =>
        "Historic dam builiding capacity worksheet could not be built because oCC_HPE not in fields"
      case HistoricComplexSize =>
        "Existing dam complex size worksheet could not be built because mCC_HPE_CT not in fields"
      case ExistingVsHistoric =>
        "Existing vs. Historic worksheet could not be built because mCC_EX_CT or mCC_HPE_CT not in fields"
      case ConservationRestoration =>
        "Conservation restoration worksheet could not be built because oPBRC_CR not in fields"
      case UnsuitableOrLimited =>
        "Unsuitable/limited dam opportunities worksheet could not be built because oPBRC_UD not in fields"
      case UndesirableDams =>
        "Risk worksheet could not be built because oPBRC_UI not in fields"
      case ManagementStrategies =>
        "Strategies worksheet could not be built because ConsVRest not in fields"
      case PredictedVsSurveyed =>
        "Predicted vs. surveyed worksheet could not be built because BRATvSurv not in fields"
      case ElectivityIndex =>
        "Electivity index could not be built because e_DamCt not in fields"
    }
  }

  /** The worksheets after the summary, in the order they are considered. */
  const OptionalSheets: seq<Sheet> :=
    [ExistingBuildCapacity, ExistingComplexSize, HistoricBuildCapacity, HistoricComplexSize,
     ExistingVsHistoric, ConservationRestoration, UnsuitableOrLimited, UndesirableDams,
     ManagementStrategies, PredictedVsSurveyed, ElectivityIndex]

  /**
   * What a gate tests: the attributes the code tests, or every attribute the
   * worksheet's writer reads.
   */
  datatype Condition = AsWritten | EveryFieldRead

  function Needs(sheet: Sheet, condition: Condition): seq<string>
  {
    if condition == AsWritten then sheet.Required() else sheet.Reads()
  }

  /** Whether a worksheet's condition holds for the network's attributes. */
  predicate Builds(sheet: Sheet, fields: seq<string>, condition: Condition)
  {
    forall f :: f in Needs(sheet, condition) ==> f in fields
  }

  /** The worksheets added, and those left out with a warning. */
  datatype Gating = Gating(added: seq<Sheet>, omitted: seq<Sheet>)
  {
    /** The warnings raised, one per worksheet left out, in order. */
    function Warnings(): seq<string>
    {
      seq(|omitted|, i requires 0 <= i < |omitted| => omitted[i].Warning())
    }
  }

  /** The considered worksheets whose condition holds, in the order they are considered. */
  function Added(sheets: seq<Sheet>, fields: seq<string>, condition: Condition): seq<Sheet>
  {
    if sheets == [] then []
    else (if Builds(sheets[0], fields, condition) then [sheets[0]] else []) + Added(sheets[1..], fields, condition)
  }

  /** The considered worksheets whose condition fails, in the order they are considered. */
  function Omitted(sheets: seq<Sheet>, fields: seq<string>, condition: Condition): seq<Sheet>
  {
    if sheets == [] then []
    else (if Builds(sheets[0], fields, condition) then [] else [sheets[0]]) + Omitted(sheets[1..], fields, condition)
  }

  /** Every considered worksheet is added or left out, and never both. */
  lemma {:induction false} Partitioned(sheets: seq<Sheet>, fields: seq<string>, condition: Condition)
    ensures |Added(sheets, fields, condition)| + |Omitted(sheets, fields, condition)| == |sheets|
    ensures forall s :: s in Added(sheets, fields, condition) <==> s in sheets && Builds(s, fields, condition)
    ensures forall s :: s in Omitted(sheets, fields, condition) <==> s in sheets && !Builds(s, fields, condition)
  {
    if sheets != [] {
      Partitioned(sheets[1..], fields, condition);
      assert sheets == [sheets[0]] + sheets[1..];
    }
  }

  /** Each considered worksheet is either added or left out with its warning. */
  function Gate(sheets: seq<Sheet>, fields: seq<string>, condition: Condition): (g: Gating)
    ensures |g.added| + |g.omitted| == |sheets|
    ensures forall s :: s in g.added <==> s in sheets && Builds(s, fields, condition)
    ensures forall s :: s in g.omitted <==> s in sheets && !Builds(s, fields, condition)
  {
    Partitioned(sheets, fields, condition);
    Gating(Added(sheets, fields, condition), Omitted(sheets, fields, condition))
  }

  /**
   * Gating two lists one after the other adds the worksheets of the first, then
   * those of the second, and leaves out likewise: both lists keep the order in
   * which the worksheets are considered.
   */
  lemma {:induction false} GateAppend(a: seq<Sheet>, b: seq<Sheet>, fields: seq<string>, condition: Condition)
    ensures Gate(a + b, fields, condition).added == Gate(a, fields, condition).added + Gate(b, fields, condition).added
    ensures Gate(a + b, fields, condition).omitted == Gate(a, fields, condition).omitted + Gate(b, fields, condition).omitted
  {
    AddedAppend(a, b, fields, condition);
    OmittedAppend(a, b, fields, condition);
  }

  /**
   * A single worksheet is added when its condition holds and left out
   * otherwise; with `GateAppend` this fixes both lists of any gating.
   */
  lemma GateOne(sheet: Sheet, fields: seq<string>, condition: Condition)
    ensures Gate([sheet], fields, condition).added == if Builds(sheet, fields, condition) then [sheet] else []
    ensures Gate([sheet], fields, condition).omitted == if Builds(sheet, fields, condition) then [] else [sheet]
  {
    assert [sheet][1..] == [];
  }

  lemma {:induction false} AddedAppend(a: seq<Sheet>, b: seq<Sheet>, fields: seq<string>, condition: Condition)
    ensures Added(a + b, fields, condition) == Added(a, fields, condition) + Added(b, fields, condition)
  {
    if a == [] {
      assert a + b == b;
    } else {
      assert (a + b)[1..] == a[1..] + b;
      AddedAppend(a[1..], b, fields, condition);
    }
  }

  lemma {:induction false} OmittedAppend(a: seq<Sheet>, b: seq<Sheet>, fields: seq<string>, condition: Condition)
    ensures Omitted(a + b, fields, condition) == Omitted(a, fields, condition) + Omitted(b, fields, condition)
  {
    if a == [] {
      assert a + b == b;
    } else {
      assert (a + b)[1..] == a[1..] + b;
      OmittedAppend(a[1..], b, fields, condition);
    }
  }

  /** `write_capacity_sheets`: the summary always, then the optional worksheets by gate. */
  function CapacitySheets(fields: seq<string>, condition: Condition): Gating
  {
    var rest := Gate(OptionalSheets, fields, condition);
    Gating([WatershedSummary] + rest.added, rest.omitted)
  }

  /**
   * The summary comes first; each optional worksheet is added exactly when its
   * attributes are present and otherwise raises its own warning; every one of
   * the twelve worksheets is accounted for once.
   */
  lemma CapacitySheetsGate(fields: seq<string>)
    ensures CapacitySheets(fields, AsWritten).added[0] == WatershedSummary
    ensures |CapacitySheets(fields, AsWritten).added| + |CapacitySheets(fields, AsWritten).Warnings()| == 12
    ensures forall s :: s in OptionalSheets ==>
      (s in CapacitySheets(fields, AsWritten).added <==> Builds(s, fields, AsWritten))
    ensures forall s :: s in OptionalSheets ==>
      (s in CapacitySheets(fields, AsWritten).omitted <==> !Builds(s, fields, AsWritten))
    ensures forall i :: 0 <= i < |CapacitySheets(fields, AsWritten).Warnings()| ==>
      CapacitySheets(fields, AsWritten).Warnings()[i] == CapacitySheets(fields, AsWritten).omitted[i].Warning()
    ensures ExistingVsHistoric in CapacitySheets(fields, AsWritten).added <==>
      "mCC_HPE_CT" in fields && "mCC_EX_CT" in fields
  {
    var rest := Gate(OptionalSheets, fields, AsWritten);
    assert CapacitySheets(fields, AsWritten) == Gating([WatershedSummary] + rest.added, rest.omitted);
    assert |OptionalSheets| == 11;
    assert OptionalSheets[4] == ExistingVsHistoric;
    ComparisonCondition(fields);
  }

  /** The existing-versus-historic worksheet's test: both complex-size attributes. */
  lemma ComparisonCondition(fields: seq<string>)
    ensures Builds(ExistingVsHistoric, fields, AsWritten) <==> "mCC_HPE_CT" in fields && "mCC_EX_CT" in fields
  {
    var required := ExistingVsHistoric.Required();
    assert required == ["mCC_HPE_CT", "mCC_EX_CT"];
    assert required[0] in required && required[1] in required;
    assert forall f :: f in required ==> f == required[0] || f == required[1];
  }

  /**
   * As written, two gates test fewer attributes than their writers read: the
   * existing-versus-historic worksheet is added without `oCC_EX`, and the
   * electivity worksheet without `oCC_EX`, although both read it.
   */
  lemma GateAdmitsUnreadFields()
    ensures ExistingVsHistoric in CapacitySheets(["mCC_HPE_CT", "mCC_EX_CT"], AsWritten).added
    ensures "oCC_EX" in ExistingVsHistoric.Reads() && "oCC_EX" !in ["mCC_HPE_CT", "mCC_EX_CT"]
    ensures ElectivityIndex in CapacitySheets(["e_DamCt"], AsWritten).added
    ensures "oCC_EX" in ElectivityIndex.Reads() && "oCC_EX" !in ["e_DamCt"]
  {
    Admitted(ExistingVsHistoric, ["mCC_HPE_CT", "mCC_EX_CT"]);
    Admitted(ElectivityIndex, ["e_DamCt"]);
    UnreadField();
  }

  /** A worksheet whose tested attributes are exactly the fields is added. */
  lemma Admitted(sheet: Sheet, fields: seq<string>)
    requires sheet in OptionalSheets && sheet.Required() == fields
    ensures sheet in CapacitySheets(fields, AsWritten).added
  {
    assert Builds(sheet, fields, AsWritten);
  }

  lemma UnreadField()
    ensures "oCC_EX" in ExistingVsHistoric.Reads() && "oCC_EX" !in ["mCC_HPE_CT", "mCC_EX_CT"]
    ensures "oCC_EX" in ElectivityIndex.Reads() && "oCC_EX" !in ["e_DamCt"]
  {
    assert ExistingVsHistoric.Reads()[0] == "oCC_EX" && ElectivityIndex.Reads()[0] == "oCC_EX";
  }

  /**
   * Gating on every attribute read adds only worksheets whose writer finds all
   * its attributes, and decides every other worksheet as the code does.
   */
  lemma CorrectedGateReadsPresent(fields: seq<string>)
    ensures forall s :: s in CapacitySheets(fields, EveryFieldRead).added ==>
      forall f :: f in s.Reads() ==> f in fields
    ensures forall s :: s in OptionalSheets && s != ExistingVsHistoric && s != ElectivityIndex ==>
      (s in CapacitySheets(fields, EveryFieldRead).added <==> s in CapacitySheets(fields, AsWritten).added)
  {
    forall s | s in OptionalSheets && s != ExistingVsHistoric && s != ElectivityIndex
      ensures s.Reads() == s.Required()
    {
    }
  }
}
