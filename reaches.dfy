/**
 * The reach records that the geoprocessing cursors of Collect_Summary_Products.py
 * deliver, one per stream segment. The cursors themselves are not part of this
 * model: a network is a sequence of reaches whose attributes are all present.
 */
module Reaches {

  /** One stream segment; each field is named after the attribute it holds. */
  datatype Reach = Reach(
    length: real,               // SHAPE@Length, in metres
    existingCapacity: real,     // oCC_EX, existing dam-building capacity (dams/km)
    historicCapacity: real,     // oCC_HPE, historic dam-building capacity (dams/km)
    existingDamCount: real,     // mCC_EX_CT, estimated existing dam complex size
    historicDamCount: real,     // mCC_HPE_CT, estimated historic dam complex size
    existingVegetation: real,   // oVC_EX, existing vegetation capacity (dams/km)
    historicVegetation: real,   // oVC_Hpe, historic vegetation capacity (dams/km)
    validation: real,           // BRATvSurv, predicted-versus-surveyed flag
    surveyedDams: real,         // e_DamCt, surveyed dam count
    restoration: string,        // oPBRC_CR, conservation/restoration opportunity
    limitation: string,         // oPBRC_UD, unsuitable or limited opportunity
    risk: string,               // oPBRC_UI, risk of undesirable dams
    strategy: string)           // ConsVRest, management strategy

  /** The numeric attributes a cursor can be asked for. */
  datatype Attribute =
    | Length | ExistingCapacity | HistoricCapacity | ExistingDamCount | HistoricDamCount
    | ExistingVegetation | HistoricVegetation | Validation | SurveyedDams

  /** The attribute's name in the network's schema. */
  function Name(a: Attribute): string
  {
    match a
    case Length => "SHAPE@Length"
    case ExistingCapacity => "oCC_EX"
    case HistoricCapacity => "oCC_HPE"
    case ExistingDamCount => "mCC_EX_CT"
    case HistoricDamCount => "mCC_HPE_CT"
    case ExistingVegetation => "oVC_EX"
    case HistoricVegetation => "oVC_Hpe"
    case Validation => "BRATvSurv"
    case SurveyedDams => "e_DamCt"
  }

  function Read(r: Reach, a: Attribute): real
  {
    match a
    case Length => r.length
    case ExistingCapacity => r.existingCapacity
    case HistoricCapacity => r.historicCapacity
    case ExistingDamCount => r.existingDamCount
    case HistoricDamCount => r.historicDamCount
    case ExistingVegetation => r.existingVegetation
    case HistoricVegetation => r.historicVegetation
    case Validation => r.validation
    case SurveyedDams => r.surveyedDams
  }

  /** One row of a two-field search cursor, `for first, second in cursor`. */
  datatype Pair = Pair(first: real, second: real)

  /** A search cursor over the fields `[a, b]`: one pair per reach, in network order. */
  function Cursor(reaches: seq<Reach>, a: Attribute, b: Attribute): seq<Pair>
  {
    seq(|reaches|, i requires 0 <= i < |reaches| => Pair(Read(reaches[i], a), Read(reaches[i], b)))
  }

  predicate NonNegativeLengths(reaches: seq<Reach>)
  {
    forall i :: 0 <= i < |reaches| ==> reaches[i].length >= 0.0
  }

  predicate PositiveLengths(reaches: seq<Reach>)
  {
    forall i :: 0 <= i < |reaches| ==> reaches[i].length > 0.0
  }
}
