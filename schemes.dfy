/**
 * The categorizers: the if/elif chains that decide which worksheet row a reach
 * is added to. Numeric schemes test a distinguished zero bucket and then
 * inclusive upper bounds from left to right; category schemes test exact strings
 * from top to bottom. Each chain is proved equal to a table-driven reference
 * definition of its scheme.
 */
module Schemes {
  import opened Buckets

  /** Dam-building capacity classes, in the row order of the capacity worksheets. */
  datatype Capacity = NoCapacity | Rare | Occasional | Frequent | Pervasive
  {
    function Row(): nat
    {
      match this
      case NoCapacity => 0
      case Rare => 1
      case Occasional => 2
      case Frequent => 3
      case Pervasive => 4
    }
  }

  /** Dam complex size classes, in the row order of the complex-size worksheets. */
  datatype ComplexSize = NoDams | SingleDam | SmallComplex | MediumComplex | LargeComplex
  {
    function Row(): nat
    {
      match this
      case NoDams => 0
      case SingleDam => 1
      case SmallComplex => 2
      case MediumComplex => 3
      case LargeComplex => 4
    }
  }

  /** Inclusive upper bounds of the capacity scheme after its zero bucket. */
  const CapacityBounds: seq<real> := [1.0, 5.0, 15.0]

  /** Inclusive upper bounds of the complex-size scheme after its zero bucket. */
  const ComplexBounds: seq<real> := [1.0, 3.0, 5.0]

  /** The first bound that `v` does not exceed, or `|bounds|` when it exceeds them all. */
  function FirstWithin(bounds: seq<real>, v: real): (i: nat)
    ensures i <= |bounds|
    ensures i < |bounds| ==> v <= bounds[i]
    ensures forall j :: 0 <= j < i ==> bounds[j] < v
  {
    if bounds == [] then 0
    else if v <= bounds[0] then 0
    else 1 + FirstWithin(bounds[1..], v)
  }

  /**
   * The reference ordinal scheme: row 0 holds exactly the value zero; any other
   * value takes the row after the first bound it does not exceed, and a value
   * above every bound takes the last row.
   */
  function OrdinalRow(bounds: seq<real>, v: real): (r: nat)
    ensures r <= |bounds| + 1
    ensures r == 0 <==> v == 0.0
    ensures 0 < r <= |bounds| ==> v <= bounds[r - 1]
    ensures forall j :: 0 <= j < r - 1 ==> bounds[j] < v
  {
    if v == 0.0 then 0 else 1 + FirstWithin(bounds, v)
  }

  lemma {:induction false} FirstWithinMonotone(bounds: seq<real>, v: real, w: real)
    requires v <= w
    ensures FirstWithin(bounds, v) <= FirstWithin(bounds, w)
  {
    if bounds != [] && !(v <= bounds[0]) {
      FirstWithinMonotone(bounds[1..], v, w);
    }
  }

  /**
   * On non-negative values an ordinal scheme is monotone: a larger value never
   * takes an earlier row. Negative values are not covered: they skip the zero
   * row and land in the second one.
   */
  lemma {:induction false} OrdinalMonotone(bounds: seq<real>, v: real, w: real)
    requires 0.0 <= v <= w
    ensures OrdinalRow(bounds, v) <= OrdinalRow(bounds, w)
  {
    if v != 0.0 {
      FirstWithinMonotone(bounds, v, w);
    }
  }

  /** A negative value skips the zero row and lands in the second one, whatever its size. */
  lemma NegativeInSecondRow(bounds: seq<real>, v: real)
    requires |bounds| > 0 && bounds[0] >= 0.0 && v < 0.0
    ensures OrdinalRow(bounds, v) == 1
  {
    assert FirstWithin(bounds, v) == 0;
  }

  /** The build-capacity chain of `search_cursor` and the electivity loops: 0, <= 1, <= 5, <= 15, else. */
  function ClassifyCapacity(v: real): (c: Capacity)
    ensures c.Row() == OrdinalRow(CapacityBounds, v)
  {
    assert CapacityBounds[0] == 1.0 && CapacityBounds[1] == 5.0 && CapacityBounds[2] == 15.0;
    if v == 0.0 then NoCapacity
    else if v <= 1.0 then Rare
    else if v <= 5.0 then Occasional
    else if v <= 15.0 then Frequent
    else Pervasive
  }

  /** The complex-size chain of `search_cursor`: 0, <= 1, <= 3, <= 5, else. */
  function ClassifyComplex(v: real): (c: ComplexSize)
    ensures c.Row() == OrdinalRow(ComplexBounds, v)
  {
    assert ComplexBounds[0] == 1.0 && ComplexBounds[1] == 3.0 && ComplexBounds[2] == 5.0;
    if v == 0.0 then NoDams
    else if v <= 1.0 then SingleDam
    else if v <= 3.0 then SmallComplex
    else if v <= 5.0 then MediumComplex
    else LargeComplex
  }

  /** A larger non-negative capacity never takes an earlier capacity row. */
  lemma CapacityMonotone(v: real, w: real)
    requires 0.0 <= v <= w
    ensures ClassifyCapacity(v).Row() <= ClassifyCapacity(w).Row()
  {
    OrdinalMonotone(CapacityBounds, v, w);
  }

  /** A larger non-negative complex size never takes an earlier complex-size row. */
  lemma ComplexMonotone(v: real, w: real)
    requires 0.0 <= v <= w
    ensures ClassifyComplex(v).Row() <= ClassifyComplex(w).Row()
  {
    OrdinalMonotone(ComplexBounds, v, w);
  }

  /**
   * The reference label scheme: the row of the first of `labels` that equals
   * `category`, or `Dropped` when none does.
   */
  function LabelSlot(labels: seq<string>, category: string): (s: Slot)
    ensures s == Dropped <==> category !in labels
    ensures s.Row? ==> s.index < |labels| && labels[s.index] == category && category !in labels[..s.index]
  {
    if labels == [] then Dropped
    else if labels[0] == category then Row(0)
    else match LabelSlot(labels[1..], category)
      case Row(i) => assert labels[..i + 1] == [labels[0]] + labels[1..][..i]; Row(i + 1)
      case Dropped => Dropped
  }

  /** The match strings of the conservation/restoration loop (attribute oPBRC_CR). */
  const RestorationLabels: seq<string> :=
    ["Easiest - Low-Hanging Fruit", "Straight Forward - Quick Return", "Strategic - Long-Term Investment"]

  /** The match strings of the unsuitable/limited loop (attribute oPBRC_UD). */
  const UnsuitableLabels: seq<string> :=
    ["Anthropogenically Limited", "Naturally Vegetation Limited", "Slope Limited", "Stream Power Limited",
     "Potential Reservoir or Landuse Change", "Dam Building Possible", "...TBD..."]

  /** The match strings of the undesirable-dams loop (attribute oPBRC_UI). */
  const RiskLabels: seq<string> :=
    ["Considerable Risk", "Some Risk", "Minor Risk", "Negligible Risk"]

  /** The match strings of the management-strategies loop (attribute ConsVRest). */
  const StrategyLabels: seq<string> :=
    ["Immediate - Beaver Conservation", "Immediate - Potential Beaver Translocation",
     "Mid Term - Process-based Riparian Vegetation Restoration",
     "Long Term - Riparian Vegetation Reestablishment", "Low Capacity Habitat"]

  /** The conservation/restoration chain: three labels, then the catch-all "Other" row. */
  function RestorationRow(category: string): (s: Slot)
    ensures s == if category in RestorationLabels then LabelSlot(RestorationLabels, category) else Row(3)
  {
    if category == "Easiest - Low-Hanging Fruit" then Row(0)
    else if category == "Straight Forward - Quick Return" then Row(1)
    else if category == "Strategic - Long-Term Investment" then Row(2)
    else Row(3)
  }

  /**
   * The unsuitable/limited chain: seven labels, anything else is passed over.
   * Its tests are the entries of `UnsuitableLabels`, in order.
   */
  function UnsuitableRow(category: string): (s: Slot)
    ensures s == LabelSlot(UnsuitableLabels, category)
  {
    var labels := UnsuitableLabels;
    SevenLabels(labels, category);
    if category == labels[0] then Row(0)
    else if category == labels[1] then Row(1)
    else if category == labels[2] then Row(2)
    else if category == labels[3] then Row(3)
    else if category == labels[4] then Row(4)
    else if category == labels[5] then Row(5)
    else if category == labels[6] then Row(6)
    else Dropped
  }

  /** Over seven labels, the first-match lookup is a chain of seven tests. */
  lemma SevenLabels(labels: seq<string>, category: string)
    requires |labels| == 7
    ensures LabelSlot(labels, category) ==
      if category == labels[0] then Row(0)
      else if category == labels[1] then Row(1)
      else if category == labels[2] then Row(2)
      else if category == labels[3] then Row(3)
      else if category == labels[4] then Row(4)
      else if category == labels[5] then Row(5)
      else if category == labels[6] then Row(6)
      else Dropped
  {
  }

  /** The undesirable-dams chain: four labels, anything else is passed over. */
  function RiskRow(category: string): (s: Slot)
    ensures s == LabelSlot(RiskLabels, category)
  {
    if category == "Considerable Risk" then Row(0)
    else if category == "Some Risk" then Row(1)
    else if category == "Minor Risk" then Row(2)
    else if category == "Negligible Risk" then Row(3)
    else Dropped
  }

  /**
   * The management-strategies chain: five labels, anything else is passed over.
   * Its tests are the entries of `StrategyLabels`, in order.
   */
  function StrategyRow(category: string): (s: Slot)
    ensures s == LabelSlot(StrategyLabels, category)
  {
    var labels := StrategyLabels;
    FiveLabels(labels, category);
    if category == labels[0] then Row(0)
    else if category == labels[1] then Row(1)
    else if category == labels[2] then Row(2)
    else if category == labels[3] then Row(3)
    else if category == labels[4] then Row(4)
    else Dropped
  }

  /** Over five labels, the first-match lookup is a chain of five tests. */
  lemma FiveLabels(labels: seq<string>, category: string)
    requires |labels| == 5
    ensures LabelSlot(labels, category) ==
      if category == labels[0] then Row(0)
      else if category == labels[1] then Row(1)
      else if category == labels[2] then Row(2)
      else if category == labels[3] then Row(3)
      else if category == labels[4] then Row(4)
      else Dropped
  {
  }

  /** Classes of the predicted-versus-surveyed worksheet, in its row order. */
  datatype Survey = FewerDams | MoreDams | NoSurveyedDams
  {
    function Row(): nat
    {
      match this
      case FewerDams => 0
      case MoreDams => 1
      case NoSurveyedDams => 2
    }
  }

  /** The validation worksheet's chain on BRATvSurv: -1 first, then >= 1, then < 1. */
  function ClassifySurvey(valid: real): (c: Survey)
    ensures c == NoSurveyedDams <==> valid == -1.0
    ensures c == FewerDams <==> valid >= 1.0
    ensures c == MoreDams <==> valid < 1.0 && valid != -1.0
  {
    if valid == -1.0 then NoSurveyedDams
    else if valid >= 1.0 then FewerDams
    else MoreDams
  }

  /**
   * The summary worksheet's chain on BRATvSurv: row 0 counts an estimate as
   * right, row 1 as wrong. Its final `pass` branch is unreachable on numbers.
   * An estimate is right exactly when the validation worksheet does not put the
   * reach in its "More dams than predicted" row.
   */
  function EstimateVerdict(valid: real): (s: Slot)
    ensures s == Row(0) || s == Row(1)
    ensures s == Row(0) <==> ClassifySurvey(valid) != MoreDams
  {
    if valid >= 1.0 then Row(0)
    else if valid == -1.0 then Row(0)
    else if valid < 1.0 then Row(1)
    else Dropped
  }
}
