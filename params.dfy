/** Identifiers of the per-band parameters that the band controls attach to
    (the enum Params::Names). The header that declares them, with its map from
    identifier to parameter-name string, is not part of this model: a parameter
    is identified here by its kind and its band. */
module Params {

  /** The three bands, in frequency order. */
  datatype Band = Low | Mid | High

  /** The per-band parameter kinds, in the order of the `Pos` enum of
      CompressorBandControls::updateAttachments. */
  datatype Pos = Attack | Release | Threshold | Ratio | Bypass | Solo | Mute

  /** Attack_Low_Band, Mute_High_Band, ...: one parameter of one band. */
  datatype ParamName = ParamName(pos: Pos, band: Band)

  /** A parameter reference as a slider holds it: none, or one parameter of the store. */
  datatype ParamRef = NoParam | Param(name: ParamName)

  /** The index of a position in the `Pos` enum. */
  function PosIndex(p: Pos): nat
  {
    match p
    case Attack => 0
    case Release => 1
    case Threshold => 2
    case Ratio => 3
    case Bypass => 4
    case Solo => 5
    case Mute => 6
  }

  /** The index of a band in paramsToCheck (0 Low, 1 Mid, 2 High). */
  function BandAt(i: nat): Band
    requires i < 3
  {
    if i == 0 then Low else if i == 1 then Mid else High
  }
}
